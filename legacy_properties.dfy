/**
 * Properties of the legacy parser: no switch name shadows another, a token made
 * of a switch name and a value gives that value to that switch, files keep
 * their order, and the worked command lines of the legacy parser's tests.
 */
module LegacyProperties {
  import opened Wrappers
  import opened Text
  import opened Numerals
  import opened Tokens
  import opened QuotedValues
  import opened ParsingErrors
  import opened LegacyArguments
  import opened SwitchTables
  import opened LegacyBuilder

  /** A name whose only `:` is its last character. */
  predicate ColonOnlyAtEnd(name: string) {
    name != [] && name[|name| - 1] == ':' && forall k :: 0 <= k < |name| - 1 ==> name[k] != ':'
  }

  /** Every switch name starts with `/`, ends with its only `:`, and has no upper-case letter. */
  lemma NameShape(sw: Switch)
    ensures ColonOnlyAtEnd(Name(sw)) && Name(sw)[0] == '/'
    ensures forall k :: 0 <= k < |Name(sw)| ==> !('A' <= Name(sw)[k] <= 'Z')
  {
    match sw {
      case Reference =>
      case Resource =>
      case Define =>
      case Output =>
      case Pdb =>
      case Align =>
      case Target =>
      case Win32Icon =>
      case Win32Resource =>
    }
  }

  /** The position of a switch in the table. */
  function Position(sw: Switch): (i: nat)
    ensures i < |Switches| && Switches[i] == (Name(sw), sw)
  {
    match sw
    case Reference => 0
    case Resource => 1
    case Define => 2
    case Output => 3
    case Pdb => 4
    case Align => 5
    case Target => 6
    case Win32Icon => 7
    case Win32Resource => 8
  }

  /** Every entry of the table holds its switch's own name. */
  lemma TableHoldsNames()
    ensures forall i :: 0 <= i < |Switches| ==> Switches[i].0 == Name(Switches[i].1)
  {
  }

  /** Two names each ending with their only `:`, one a prefix of the other followed by anything, are equal. */
  lemma PrefixOfName(a: string, b: string, y: string)
    requires ColonOnlyAtEnd(a) && ColonOnlyAtEnd(b) && StartsWith(b + y, a)
    ensures a == b
  {
    var m := if |a| < |b| then |a| else |b|;
    assert a[m - 1] == (b + y)[m - 1] == b[m - 1];
    assert |a| == |b|;
    assert (b + y)[..|a|] == b;
  }

  /** The switch names are pairwise different. */
  lemma NamesDistinct(a: Switch, b: Switch)
    requires Name(a) == Name(b)
    ensures a == b
  {
  }

  /** No switch shadows another: a lowered token starting with a switch's name is dispatched to that switch. */
  lemma ClassifyByName(sw: Switch, y: string)
    ensures Classify(Name(sw) + y) == Some(sw)
  {
    var s := Name(sw) + y;
    LookupIsFirstMatch(s, Switches);
    assert s[..|Name(sw)|] == Name(sw);
    assert StartsWith(s, Switches[Position(sw)].0);
    var i := FirstMatchIndex(s, Switches);
    var other := Switches[i].1;
    TableHoldsNames();
    NameShape(other);
    NameShape(sw);
    PrefixOfName(Name(other), Name(sw), y);
    NamesDistinct(other, sw);
  }

  /** Lower-casing a token that starts with a switch name keeps the name as it is. */
  lemma LowerName(sw: Switch, x: string)
    ensures Lower(Name(sw) + x) == Name(sw) + Lower(x)
  {
    LowerAppend(Name(sw), x);
    NameShape(sw);
    LowerAt(Name(sw));
    assert Lower(Name(sw)) == Name(sw);
  }

  /**
   * A token formed by a switch name and a value `x` without a further copy of
   * the name: the switch receives what the reader makes of `x`.
   */
  lemma SwitchToken(acc: CompilerArguments, sw: Switch, x: string, rest: seq<Token>)
    requires !ContainsText(x, Name(sw))
    ensures var r := ReadQuoted(x, rest);
      ParseFrom(acc, [Some(Name(sw) + x)] + rest) == ParseFrom(Apply(acc, Some(sw), r.0), rest[r.1..])
  {
    var current := Name(sw) + x;
    LowerName(sw, x);
    ClassifyByName(sw, Lower(x));
    ReplaceAllLeading(Name(sw), x);
    ReplaceAllAbsent(x, Name(sw));
    assert ([Some(current)] + rest)[1..] == rest;
    ParseFromHead(acc, [Some(current)] + rest);
  }

  /** A value without `/` and `"` is taken as it is and nothing more is dequeued. */
  lemma PlainSwitchValue(acc: CompilerArguments, sw: Switch, x: string, rest: seq<Token>)
    requires '/' !in x && Quote !in x
    ensures ParseFrom(acc, [Some(Name(sw) + x)] + rest) == ParseFrom(Apply(acc, Some(sw), x), rest)
  {
    NameShape(sw);
    MissingCharNotContained(x, Name(sw), 0);
    SwitchToken(acc, sw, x, rest);
  }

  /**
   * An opened quote that no later token closes swallows the rest of the queue:
   * the drain ends after this one dispatch, and no error is recorded.
   */
  lemma UnclosedQuoteEndsDrain(acc: CompilerArguments, sw: Switch, x: string, rest: seq<Token>)
    requires !ContainsText(x, Name(sw)) && Occurrences(x, Quote) == 1
    requires forall i :: 0 <= i < |rest| ==> Quote !in Coerce(rest[i])
    ensures ParseFrom(acc, [Some(Name(sw) + x)] + rest) == Apply(acc, Some(sw), RemoveAll(x, Quote) + Continuation(rest))
  {
    SwitchToken(acc, sw, x, rest);
    UnclosedTakesAll(rest);
    assert rest[..|rest|] == rest;
    assert rest[|rest|..] == [];
  }

  /** A lowered token that does not start with `/` matches no switch. */
  lemma NoSlashNoSwitch(lower: string)
    requires lower == [] || lower[0] != '/'
    ensures Classify(lower) == None
  {
    LookupIsFirstMatch(lower, Switches);
    TableHoldsNames();
    var i := FirstMatchIndex(lower, Switches);
    if i >= 0 {
      NameShape(Switches[i].1);
    }
  }

  /**
   * A token whose lowered form matches no switch, `/foo.cs` included, is a file;
   * the reader is given no name, so it sees the token unchanged.
   */
  lemma UnmatchedToken(acc: CompilerArguments, current: string, rest: seq<Token>)
    requires Classify(Lower(current)) == None
    ensures var r := ReadQuoted(current, rest);
      ParseFrom(acc, [Some(current)] + rest) == ParseFrom(acc.(files := acc.files + [r.0]), rest[r.1..])
  {
    assert ([Some(current)] + rest)[1..] == rest;
    ParseFromHead(acc, [Some(current)] + rest);
  }

  /** A token that does not start with `/` is a file; the reader sees it unchanged. */
  lemma FileToken(acc: CompilerArguments, current: string, rest: seq<Token>)
    requires current == [] || current[0] != '/'
    ensures var r := ReadQuoted(current, rest);
      ParseFrom(acc, [Some(current)] + rest) == ParseFrom(acc.(files := acc.files + [r.0]), rest[r.1..])
  {
    var lower := Lower(current);
    assert lower != [] ==> lower[0] == LowerChar(current[0]);
    NoSlashNoSwitch(lower);
    UnmatchedToken(acc, current, rest);
  }

  /** A token that matches no switch and holds no `"`. */
  predicate PlainFile(t: Token) {
    Classify(Lower(Coerce(t))) == None && Quote !in Coerce(t)
  }

  /** A quote-free token that does not start with `/` is plain. */
  lemma NoSlashPlainFile(t: Token)
    requires (Coerce(t) == [] || Coerce(t)[0] != '/') && Quote !in Coerce(t)
    ensures PlainFile(t)
  {
    var lower := Lower(Coerce(t));
    assert lower != [] ==> lower[0] == LowerChar(Coerce(t)[0]);
    NoSlashNoSwitch(lower);
  }

  lemma FilesTwice(acc: CompilerArguments, x: seq<string>, y: seq<string>)
    ensures acc.(files := acc.files + x).(files := acc.files + x + y) == acc.(files := acc.files + (x + y))
  {
    assert acc.files + x + y == acc.files + (x + y);
  }

  /** A plain head token is one file, and the drain goes on with the next token. */
  lemma PlainFileHead(acc: CompilerArguments, ts: seq<Token>)
    requires ts != [] && PlainFile(ts[0])
    ensures ParseFrom(acc, ts) == ParseFrom(acc.(files := acc.files + [Coerce(ts[0])]), ts[1..])
  {
    NullTokenLikeEmpty(acc, ts);
    UnmatchedToken(acc, Coerce(ts[0]), ts[1..]);
  }

  /** Tokens matching no switch become files, in input order and as they are; a `null` token is the file `""`. */
  lemma {:induction false} FilesInOrder(acc: CompilerArguments, ts: seq<Token>)
    requires forall i :: 0 <= i < |ts| ==> PlainFile(ts[i])
    ensures ParseFrom(acc, ts) == acc.(files := acc.files + Values(ts))
    decreases |ts|
  {
    if ts == [] {
      assert acc.files + Values(ts) == acc.files;
    } else {
      var current := Coerce(ts[0]);
      PlainFileHead(acc, ts);
      var next := acc.(files := acc.files + [current]);
      FilesInOrder(next, ts[1..]);
      assert Values(ts) == [current] + Values(ts[1..]);
      FilesTwice(acc, [current], Values(ts[1..]));
    }
  }

  /** A `null` head token drains exactly like the empty string. */
  lemma NullTokenLikeEmpty(acc: CompilerArguments, ts: seq<Token>)
    requires ts != []
    ensures ParseFrom(acc, ts) == ParseFrom(acc, [Some(Coerce(ts[0]))] + ts[1..])
  {
    assert ([Some(Coerce(ts[0]))] + ts[1..])[1..] == ts[1..];
    ParseFromHead(acc, ts);
    ParseFromHead(acc, [Some(Coerce(ts[0]))] + ts[1..]);
  }

  /** A token that opens a quote: one `"` followed by quote-free text. */
  lemma OpeningQuote(a: string)
    requires Quote !in a
    ensures Occurrences([Quote] + a, Quote) == 1
    ensures RemoveAll([Quote] + a, Quote) == a
  {
    OccurrencesAbsent(a, Quote);
    assert ([Quote] + a)[1..] == a;
    RemoveAllCons(Quote, a, Quote);
  }

  /** A token that closes a quote: quote-free text followed by one `"`. */
  lemma ClosingQuote(b: string)
    requires Quote !in b
    ensures Quote in b + [Quote]
    ensures RemoveAll(b + [Quote], Quote) == b
  {
    assert (b + [Quote])[|b|] == Quote;
    RemoveAllTrailing(b, Quote);
  }

  /** A value with one `"` whose next token holds a `"` takes exactly that token. */
  lemma ClosedByNext(first: string, more: seq<Token>)
    requires Occurrences(first, Quote) == 1 && more != [] && Quote in Coerce(more[0])
    ensures ReadQuoted(first, more) == (RemoveAll(first, Quote) + (" " + RemoveAll(Coerce(more[0]), Quote)), 1)
  {
    assert ClosingIndex(more) == 1;
    assert Continuation(more[..1]) == " " + RemoveAll(Coerce(more[0]), Quote) by {
      assert more[..1][..0] == [];
      assert more[..1][0] == more[0];
    }
  }

  /** A value opened by `"` in one token and closed by `"` at the end of the next is rebuilt with one space. */
  lemma QuoteAcrossTwo(a: string, b: string, rest: seq<Token>)
    requires Quote !in a && Quote !in b
    ensures ReadQuoted([Quote] + a, [Some(b + [Quote])] + rest) == (a + " " + b, 1)
  {
    var more := [Some(b + [Quote])] + rest;
    OpeningQuote(a);
    ClosingQuote(b);
    assert Coerce(more[0]) == b + [Quote];
    ClosedByNext([Quote] + a, more);
    assert a + (" " + b) == a + " " + b;
  }

  /** A value wrapped in `"` inside one token loses its quotes and consumes nothing more. */
  lemma QuoteInOne(a: string, rest: seq<Token>)
    requires Quote !in a
    ensures ReadQuoted([Quote] + a + [Quote], rest) == (a, 0)
  {
    var first := ([Quote] + a) + [Quote];
    assert Occurrences(first, Quote) == 2 by {
      OccurrencesAppend([Quote] + a, [Quote], Quote);
      OpeningQuote(a);
      assert Occurrences([Quote], Quote) == 1;
    }
    assert RemoveAll(first, Quote) == a by {
      assert first == [Quote] + (a + [Quote]);
      RemoveAllCons(Quote, a + [Quote], Quote);
      RemoveAllTrailing(a, Quote);
    }
  }

  /** A value opened by `"` and never closed takes every remaining token, each after one space. */
  lemma QuoteNeverClosed(a: string, rest: seq<Token>)
    requires Quote !in a
    requires forall i :: 0 <= i < |rest| ==> Quote !in Coerce(rest[i])
    ensures ReadQuoted([Quote] + a, rest) == (a + Continuation(rest), |rest|)
  {
    OpeningQuote(a);
    UnclosedTakesAll(rest);
    assert rest[..|rest|] == rest;
  }

  /** A value without `/` cannot hold a switch name. */
  lemma NoSlashNoName(sw: Switch, x: string)
    requires '/' !in x
    ensures !ContainsText(x, Name(sw))
  {
    NameShape(sw);
    MissingCharNotContained(x, Name(sw), 0);
  }

  /** A switch whose quoted value was split into two tokens by the shell receives the value with the space restored. */
  lemma QuotedSwitchAcrossTwo(acc: CompilerArguments, sw: Switch, a: string, b: string, rest: seq<Token>)
    requires '/' !in a && Quote !in a && Quote !in b
    ensures ParseFrom(acc, [Some(Name(sw) + ([Quote] + a)), Some(b + [Quote])] + rest)
      == ParseFrom(Apply(acc, Some(sw), a + " " + b), rest)
  {
    var more := [Some(b + [Quote])] + rest;
    assert '/' !in [Quote] + a;
    NoSlashNoName(sw, [Quote] + a);
    SwitchToken(acc, sw, [Quote] + a, more);
    QuoteAcrossTwo(a, b, rest);
    assert [Some(Name(sw) + ([Quote] + a)), Some(b + [Quote])] + rest == [Some(Name(sw) + ([Quote] + a))] + more;
    assert more[1..] == rest;
  }

  /** A switch whose value is quoted inside its own token receives the value without quotes. */
  lemma QuotedSwitchInOne(acc: CompilerArguments, sw: Switch, a: string, rest: seq<Token>)
    requires '/' !in a && Quote !in a
    ensures ParseFrom(acc, [Some(Name(sw) + ([Quote] + a + [Quote]))] + rest) == ParseFrom(Apply(acc, Some(sw), a), rest)
  {
    assert '/' !in [Quote] + a + [Quote];
    NoSlashNoName(sw, [Quote] + a + [Quote]);
    SwitchToken(acc, sw, [Quote] + a + [Quote], rest);
    QuoteInOne(a, rest);
  }

  /** A switch whose quote is never closed receives its value followed by every remaining token, and the drain ends. */
  lemma QuotedSwitchNeverClosed(acc: CompilerArguments, sw: Switch, a: string, rest: seq<Token>)
    requires '/' !in a && Quote !in a
    requires forall i :: 0 <= i < |rest| ==> Quote !in Coerce(rest[i])
    ensures ParseFrom(acc, [Some(Name(sw) + ([Quote] + a))] + rest) == Apply(acc, Some(sw), a + Continuation(rest))
  {
    assert '/' !in [Quote] + a;
    NoSlashNoName(sw, [Quote] + a);
    SwitchToken(acc, sw, [Quote] + a, rest);
    QuoteNeverClosed(a, rest);
    assert rest[|rest|..] == [];
  }

  /** `/align:` with a numeric value stores it and records no error; otherwise it stores 0 and records the alignment error. */
  lemma AlignValue(acc: CompilerArguments, x: string, rest: seq<Token>)
    requires '/' !in x && Quote !in x
    ensures var next := ParseFrom(acc, [Some(Name(Align) + x)] + rest);
      next == ParseFrom(SetAlign(acc, x), rest)
    ensures TryParseInt32(x).Some? ==> SetAlign(acc, x) == acc.(alignment := TryParseInt32(x).value)
    ensures TryParseInt32(x).None? ==> SetAlign(acc, x) == acc.(alignment := 0, errors := acc.errors + [AlignmentError])
  {
    PlainSwitchValue(acc, Align, x, rest);
  }

  // The command lines below are those of the legacy parser's tests.

  lemma FilesExample()
    ensures Parse([Some("foo.cs"), Some("foo2.cs")]).files == ["foo.cs", "foo2.cs"]
  {
    NoSlashPlainFile(Some("foo.cs"));
    NoSlashPlainFile(Some("foo2.cs"));
    TwoFiles("foo.cs", "foo2.cs");
  }

  /** Two plain tokens are two files, in order. */
  lemma TwoFiles(a: string, b: string)
    requires PlainFile(Some(a)) && PlainFile(Some(b))
    ensures Parse([Some(a), Some(b)]).files == [a, b]
  {
    var ts := [Some(a), Some(b)];
    FilesInOrder(Initial, ts);
    assert Values(ts[1..][1..]) == [];
  }

  lemma NullFileExample()
    ensures Parse([None]) == Initial.(files := [""])
  {
    FilesInOrder(Initial, [None]);
    assert Values([None][1..]) == [];
  }

  /** A file name quoted across two tokens is one file, with the space restored. */
  lemma QuotedFileAcrossTwo(acc: CompilerArguments, a: string, b: string, rest: seq<Token>)
    requires Quote !in a && Quote !in b
    ensures ParseFrom(acc, [Some([Quote] + a), Some(b + [Quote])] + rest) == ParseFrom(acc.(files := acc.files + [a + " " + b]), rest)
  {
    var more := [Some(b + [Quote])] + rest;
    FileToken(acc, [Quote] + a, more);
    QuoteAcrossTwo(a, b, rest);
    assert [Some([Quote] + a), Some(b + [Quote])] + rest == [Some([Quote] + a)] + more;
    assert more[1..] == rest;
  }

  /** A file name quoted inside one token loses its quotes. */
  lemma QuotedFileInOne(acc: CompilerArguments, a: string, rest: seq<Token>)
    requires Quote !in a
    ensures ParseFrom(acc, [Some([Quote] + a + [Quote])] + rest) == ParseFrom(acc.(files := acc.files + [a]), rest)
  {
    FileToken(acc, [Quote] + a + [Quote], rest);
    QuoteInOne(a, rest);
  }

  /**
   * A switch token whose value holds neither its name nor `"`, followed by any
   * token of the same switch, is two dispatches of that switch: the first takes
   * its value as it is, the second reads its own value from the rest of the queue.
   */
  lemma TwoSwitches(acc: CompilerArguments, sw: Switch, x: string, t: string, rest: seq<Token>)
    requires !ContainsText(x, Name(sw)) && Quote !in x
    requires Classify(Lower(t)) == Some(sw)
    ensures var r := ReadValue(t, Named(Some(sw)), rest);
      ParseFrom(acc, [Some(Name(sw) + x), Some(t)] + rest)
      == ParseFrom(Apply(Apply(acc, Some(sw), x), Some(sw), r.0), rest[r.1..])
  {
    var more := [Some(t)] + rest;
    SwitchToken(acc, sw, x, more);
    assert more[0..] == more;
    assert [Some(Name(sw) + x), Some(t)] + rest == [Some(Name(sw) + x)] + more;
    assert more[1..] == rest;
    ParseFromHead(Apply(acc, Some(sw), x), more);
  }

  /** Two dispatches of the same list switch append both values to that list, in order. */
  lemma AppendTwice(acc: CompilerArguments, sw: Switch, x: string, y: string)
    requires sw == Reference || sw == Resource || sw == Define
    ensures var after := Apply(Apply(acc, Some(sw), x), Some(sw), y);
      && (sw == Reference ==> after == acc.(references := acc.references + [x, y]))
      && (sw == Resource ==> after == acc.(resources := acc.resources + [x, y]))
      && (sw == Define ==> after == acc.(defines := acc.defines + [x, y]))
  {
    match sw {
      case Reference => assert acc.references + [x] + [y] == acc.references + [x, y];
      case Resource => assert acc.resources + [x] + [y] == acc.resources + [x, y];
      case Define => assert acc.defines + [x] + [y] == acc.defines + [x, y];
    }
  }

  /** Two `/reference:`, `/resource:` or `/define:` switches add their values to their own list, in the order given. */
  lemma ListsInOrder(acc: CompilerArguments, sw: Switch, x: string, t: string, rest: seq<Token>)
    requires sw == Reference || sw == Resource || sw == Define
    requires !ContainsText(x, Name(sw)) && Quote !in x
    requires Classify(Lower(t)) == Some(sw)
    ensures var r := ReadValue(t, Named(Some(sw)), rest);
      var after := ParseFrom(acc, [Some(Name(sw) + x), Some(t)] + rest);
      && (sw == Reference ==> after == ParseFrom(acc.(references := acc.references + [x, r.0]), rest[r.1..]))
      && (sw == Resource ==> after == ParseFrom(acc.(resources := acc.resources + [x, r.0]), rest[r.1..]))
      && (sw == Define ==> after == ParseFrom(acc.(defines := acc.defines + [x, r.0]), rest[r.1..]))
  {
    TwoSwitches(acc, sw, x, t, rest);
    AppendTwice(acc, sw, x, ReadValue(t, Named(Some(sw)), rest).0);
  }

  /** Of two `/output:`, `/pdb:`, `/target:`, `/win32icon:` or `/win32res:` switches in a row, only the second counts. */
  lemma LaterScalarWins(acc: CompilerArguments, sw: Switch, x: string, t: string, rest: seq<Token>)
    requires sw in {Output, Pdb, Target, Win32Icon, Win32Resource}
    requires !ContainsText(x, Name(sw)) && Quote !in x
    requires Classify(Lower(t)) == Some(sw)
    ensures var r := ReadValue(t, Named(Some(sw)), rest);
      ParseFrom(acc, [Some(Name(sw) + x), Some(t)] + rest) == ParseFrom(Apply(acc, Some(sw), r.0), rest[r.1..])
  {
    TwoSwitches(acc, sw, x, t, rest);
  }

  /**
   * `Replace` deletes every occurrence of the name, not just the leading one:
   * a token such as `/reference:a/reference:b` passes on `ab`.
   */
  lemma RepeatedNameRemoved(acc: CompilerArguments, sw: Switch, x: string, y: string, rest: seq<Token>)
    requires '/' !in x && Quote !in x && '/' !in y && Quote !in y
    ensures ParseFrom(acc, [Some(Name(sw) + x + Name(sw) + y)] + rest) == ParseFrom(Apply(acc, Some(sw), x + y), rest)
  {
    var name := Name(sw);
    var current := name + (x + (name + y));
    assert name + x + name + y == current;
    NameShape(sw);
    assert Strip(current, Named(Some(sw))) == x + y by {
      ReplaceAllLeading(name, x + (name + y));
      ReplaceAllSkips(x, name + y, name);
      ReplaceAllLeading(name, y);
      MissingCharNotContained(y, name, 0);
      ReplaceAllAbsent(y, name);
    }
    assert Lower(current) == name + Lower(x + (name + y)) by {
      LowerName(sw, x + (name + y));
    }
    ClassifyByName(sw, Lower(x + (name + y)));
    assert Quote !in x + y;
    assert ([Some(current)] + rest)[1..] == rest;
    ParseFromHead(acc, [Some(current)] + rest);
  }

  /** `/align:` followed by any Int32 in decimal stores that number and records no error. */
  lemma AlignNumeric(acc: CompilerArguments, k: int, rest: seq<Token>)
    requires Int32Min <= k <= Int32Max
    ensures ParseFrom(acc, [Some(Name(Align) + FormatInt(k))] + rest) == ParseFrom(acc.(alignment := k), rest)
  {
    var s := FormatInt(k);
    var digits := if k < 0 then FormatNat(-k) else FormatNat(k);
    assert forall i :: 0 <= i < |s| ==> s[i] == '-' || IsDigit(s[i]) by {
      forall i | 0 <= i < |s|
        ensures s[i] == '-' || IsDigit(s[i])
      {
        if k < 0 && i > 0 {
          assert s[i] == digits[i - 1];
        }
      }
    }
    ParseFormatRoundTrip(k);
    AlignValue(acc, s, rest);
  }

  /**
   * Matching ignores case but stripping does not: a switch name spelled in
   * another case, such as `/REFERENCE:`, is recognised, yet the value it passes
   * on still begins with that spelling.
   */
  lemma OtherCaseNameKept(acc: CompilerArguments, sw: Switch, u: string, x: string, rest: seq<Token>)
    requires Lower(u) == Name(sw) && Name(sw)[1] !in u + x && Quote !in u + x
    ensures ParseFrom(acc, [Some(u + x)] + rest) == ParseFrom(Apply(acc, Some(sw), u + x), rest)
  {
    var current := u + x;
    LowerAppend(u, x);
    ClassifyByName(sw, Lower(x));
    MissingCharNotContained(current, Name(sw), 1);
    ReplaceAllAbsent(current, Name(sw));
    assert ([Some(current)] + rest)[1..] == rest;
    ParseFromHead(acc, [Some(current)] + rest);
  }
}
