/**
 * The rules of the current parser's switch families, stated on a queue whose
 * head is one such switch: what the dispatch does to the accumulator, how much
 * of the queue it takes, and how a later occurrence of the same switch relates
 * to an earlier one.
 */
module ParserRules {
  import opened Wrappers
  import opened Text
  import opened Numerals
  import opened Tokens
  import opened ParsingErrors
  import opened Arguments
  import opened QuotedValues
  import opened Parser
  import ParserProperties

  /** A queue headed by `current`: one dispatch of `current`, then the rest of the drain. */
  lemma HeadToken(acc: CompilerArguments, current: string, rest: seq<Token>)
    ensures var lower := Lower(current);
      var kind := Classify(lower);
      ParseFrom(acc, [Some(current)] + rest)
      == ParseFrom(Apply(acc, kind, lower, ReadValue(current, rest).0), rest[Consumed(kind, lower, current, rest)..])
  {
    assert ([Some(current)] + rest)[1..] == rest;
    ParseFromHead(acc, [Some(current)] + rest);
  }

  /** `HeadToken` for a token whose kind is already known. */
  lemma HeadTokenOf(acc: CompilerArguments, current: string, rest: seq<Token>, kind: Option<SwitchKind>)
    requires Classify(Lower(current)) == kind
    ensures ParseFrom(acc, [Some(current)] + rest)
      == ParseFrom(Apply(acc, kind, Lower(current), ReadValue(current, rest).0), rest[Consumed(kind, Lower(current), current, rest)..])
  {
    HeadToken(acc, current, rest);
  }

  /**
   * `/optimize`, `/checked` and `/nostdlib`: the flag becomes "the lowered token
   * holds `+` or is the bare switch name", and no further token is taken.
   */
  lemma ToggleRule(acc: CompilerArguments, current: string, rest: seq<Token>, f: ToggleField)
    requires Classify(Lower(current)) == Some(ToggleArg(f))
    ensures var lower := Lower(current);
      ParseFrom(acc, [Some(current)] + rest) == ParseFrom(SetToggle(acc, f, '+' in lower || lower == ToggleName(f)), rest)
  {
    HeadTokenOf(acc, current, rest, Some(ToggleArg(f)));
  }

  lemma SetToggleTwice(acc: CompilerArguments, f: ToggleField, b1: bool, b2: bool)
    ensures SetToggle(SetToggle(acc, f, b1), f, b2) == SetToggle(acc, f, b2)
  {
    match f {
      case Optimize => assert SetToggle(SetToggle(acc, f, b1), f, b2) == acc.(optimize := b2);
      case Checked => assert SetToggle(SetToggle(acc, f, b1), f, b2) == acc.(checked := b2);
      case NoStdLib => assert SetToggle(SetToggle(acc, f, b1), f, b2) == acc.(noStdLib := b2);
    }
  }

  /** Of two toggles of the same flag in a row, only the second counts. */
  lemma LaterToggleWins(acc: CompilerArguments, t1: string, t2: string, rest: seq<Token>, f: ToggleField)
    requires Classify(Lower(t1)) == Some(ToggleArg(f)) && Classify(Lower(t2)) == Some(ToggleArg(f))
    ensures ParseFrom(acc, [Some(t1), Some(t2)] + rest)
      == ParseFrom(SetToggle(acc, f, Toggle(Lower(t2), ToggleName(f))), rest)
  {
    var b1 := Toggle(Lower(t1), ToggleName(f));
    assert [Some(t1), Some(t2)] + rest == [Some(t1)] + ([Some(t2)] + rest);
    ToggleRule(acc, t1, [Some(t2)] + rest, f);
    ToggleRule(SetToggle(acc, f, b1), t2, rest, f);
    SetToggleTwice(acc, f, b1, Toggle(Lower(t2), ToggleName(f)));
  }

  /** The bare name and any form with `+` switch a flag on; the `-` form switches it off. */
  lemma ToggleForms(f: ToggleField, suffix: string)
    ensures Toggle(ToggleName(f), ToggleName(f))
    ensures '+' in suffix ==> Toggle(ToggleName(f) + suffix, ToggleName(f))
    ensures !Toggle(ToggleName(f) + "-", ToggleName(f))
  {
    var name := ToggleName(f);
    if '+' in suffix {
      var k :| 0 <= k < |suffix| && suffix[k] == '+';
      assert (name + suffix)[|name| + k] == '+';
    }
    assert |name + "-"| != |name|;
    assert '+' !in name + "-" by {
      match f {
        case Optimize =>
        case Checked =>
        case NoStdLib =>
      }
    }
  }

  /**
   * `/debug`: `+` or the bare switch gives "FULL", `/debug-` gives "NONE", any
   * other form with `:` gives the value upper-cased (taking the tokens the value
   * needs), and any other form changes nothing and takes no further token.
   */
  lemma DebugRule(acc: CompilerArguments, current: string, rest: seq<Token>)
    requires Classify(Lower(current)) == Some(DebugArg)
    ensures var lower := Lower(current);
      var after := ParseFrom(acc, [Some(current)] + rest);
      var (v, n) := ReadValue(current, rest);
      && ('+' in lower || lower == DebugName ==> after == ParseFrom(acc.(debugLevel := Some("FULL")), rest))
      && (!('+' in lower || lower == DebugName) && lower == DebugName + "-" ==>
            after == ParseFrom(acc.(debugLevel := Some("NONE")), rest))
      && (!('+' in lower || lower == DebugName) && lower != DebugName + "-" && ':' in lower ==>
            after == ParseFrom(acc.(debugLevel := Some(Upper(v))), rest[n..]))
      && (!('+' in lower || lower == DebugName) && lower != DebugName + "-" && ':' !in lower ==>
            after == ParseFrom(acc, rest))
  {
    var lower := Lower(current);
    var (v, n) := ReadValue(current, rest);
    var k := Consumed(Some(DebugArg), lower, current, rest);
    DebugStep(acc, current, rest);
    if '+' in lower || lower == DebugName {
      assert k == 0 && rest[k..] == rest;
    } else if lower == DebugName + "-" {
      assert k == 0 && rest[k..] == rest;
    } else if ':' in lower {
      assert k == n;
    } else {
      assert k == 0 && rest[k..] == rest;
      assert acc.(debugLevel := acc.debugLevel) == acc;
    }
  }

  /** One `/debug` token: the level becomes `DebugLevelAfter`, and the tokens its value needs, if any, are taken. */
  lemma DebugStep(acc: CompilerArguments, current: string, rest: seq<Token>)
    requires Classify(Lower(current)) == Some(DebugArg)
    ensures var lower := Lower(current);
      ParseFrom(acc, [Some(current)] + rest)
      == ParseFrom(acc.(debugLevel := DebugLevelAfter(acc.debugLevel, lower, ReadValue(current, rest).0)),
                   rest[Consumed(Some(DebugArg), lower, current, rest)..])
  {
    HeadTokenOf(acc, current, rest, Some(DebugArg));
    ApplyDebug(acc, Lower(current), ReadValue(current, rest).0);
  }

  /** The `/debug` branch changes the debug level and nothing else. */
  lemma ApplyDebug(acc: CompilerArguments, lower: string, v: string)
    ensures Apply(acc, Some(DebugArg), lower, v) == acc.(debugLevel := DebugLevelAfter(acc.debugLevel, lower, v))
  {
  }

  /**
   * `/filealign:` and `/warn:`: the value is read (taking the tokens it needs)
   * and parsed, and the field and the errors change as `NumberOutcome` says.
   */
  lemma NumberRule(acc: CompilerArguments, current: string, rest: seq<Token>, f: NumberField)
    requires Classify(Lower(current)) == Some(NumberArg(f))
    ensures var (v, n) := ReadValue(current, rest);
      ParseFrom(acc, [Some(current)] + rest) == ParseFrom(SetNumber(acc, f, v), rest[n..])
  {
    HeadTokenOf(acc, current, rest, Some(NumberArg(f)));
  }

  /** The field a numeric switch sets. */
  function NumberValue(a: CompilerArguments, f: NumberField): int {
    match f
    case Alignment => a.alignment
    case WarnLevel => a.warnLevel
  }

  /**
   * An `int` value is stored and records no error; anything else stores 0 and
   * records exactly one error, the one of that switch. No other field changes.
   */
  lemma NumberOutcome(acc: CompilerArguments, f: NumberField, v: string)
    ensures var next := SetNumber(acc, f, v);
      var parsed := TryParseInt32(v);
      && (parsed.Some? ==> NumberValue(next, f) == parsed.value && next.errors == acc.errors)
      && (parsed.None? ==> NumberValue(next, f) == 0 && next.errors == acc.errors + [NumberError(f)])
      && (f == Alignment ==> next.warnLevel == acc.warnLevel)
      && (f == WarnLevel ==> next.alignment == acc.alignment)
      && next == acc.(alignment := next.alignment, warnLevel := next.warnLevel, errors := next.errors)
  {
    match f {
      case Alignment =>
      case WarnLevel =>
    }
  }

  /** Every `int`, written in decimal, is stored as itself with no error. */
  lemma FormattedNumberStored(acc: CompilerArguments, f: NumberField, k: int)
    requires Int32Min <= k <= Int32Max
    ensures var next := SetNumber(acc, f, FormatInt(k));
      NumberValue(next, f) == k && next.errors == acc.errors
  {
    ParseFormatRoundTrip(k);
    NumberOutcome(acc, f, FormatInt(k));
  }

  /** A non-numeric value, such as `GREG`, stores 0 and records the switch's error. */
  lemma NonNumericRecordsError(acc: CompilerArguments, f: NumberField)
    ensures var next := SetNumber(acc, f, "GREG");
      NumberValue(next, f) == 0 && next.errors == acc.errors + [NumberError(f)]
  {
    assert !IsDigit("GREG"[0]);
    NumberOutcome(acc, f, "GREG");
  }

  /**
   * A failing occurrence resets the field to 0 whatever an earlier occurrence
   * stored; both errors, if any, stay recorded in order.
   */
  lemma FailingNumberResets(acc: CompilerArguments, f: NumberField, v1: string, v2: string)
    requires TryParseInt32(v2).None?
    ensures var next := SetNumber(SetNumber(acc, f, v1), f, v2);
      NumberValue(next, f) == 0 && next.errors == SetNumber(acc, f, v1).errors + [NumberError(f)]
  {
    NumberOutcome(SetNumber(acc, f, v1), f, v2);
  }

  /** `/nowarn:` reads its value (taking the tokens it needs) and appends its pieces. */
  lemma NoWarnRule(acc: CompilerArguments, current: string, rest: seq<Token>)
    requires Classify(Lower(current)) == Some(NoWarnArg)
    ensures var (v, n) := ReadValue(current, rest);
      ParseFrom(acc, [Some(current)] + rest) == ParseFrom(acc.(warningFilters := acc.warningFilters + Split(v)), rest[n..])
  {
    HeadTokenOf(acc, current, rest, Some(NoWarnArg));
    ApplyNoWarn(acc, Lower(current), current, rest);
  }

  /** The `/nowarn:` branch appends the value's pieces, changes nothing else, and takes the tokens the value needs. */
  lemma ApplyNoWarn(acc: CompilerArguments, lower: string, current: string, rest: seq<Token>)
    ensures var r := ReadValue(current, rest);
      && Apply(acc, Some(NoWarnArg), lower, r.0) == acc.(warningFilters := acc.warningFilters + Split(r.0))
      && Consumed(Some(NoWarnArg), lower, current, rest) == r.1
  {
    assert ReadsValue(Some(NoWarnArg), lower);
  }

  /**
   * One `/nowarn:` whose value holds a separator adds what two `/nowarn:`
   * switches with the two sides would: pieces accumulate in order.
   */
  lemma FiltersAtSeparator(acc: CompilerArguments, a: string, sep: char, b: string)
    requires IsSeparator(sep)
    ensures AddFilters(acc, a + [sep] + b) == AddFilters(AddFilters(acc, a), b)
  {
    SplitAtSeparator(a, sep, b);
    assert acc.warningFilters + (Split(a) + Split(b)) == acc.warningFilters + Split(a) + Split(b);
  }

  /** A value without separators adds exactly one filter, itself. */
  lemma SingleFilter(acc: CompilerArguments, v: string)
    requires forall j :: 0 <= j < |v| ==> !IsSeparator(v[j])
    ensures AddFilters(acc, v).warningFilters == acc.warningFilters + [v]
  {
    SplitNoSeparator(v);
  }

  /** The six list switch names (long and short forms of three) append their value to their own list and change nothing else. */
  lemma ListRule(acc: CompilerArguments, current: string, rest: seq<Token>, f: ListField)
    requires Classify(Lower(current)) == Some(ListArg(f))
    ensures var (v, n) := ReadValue(current, rest);
      ParseFrom(acc, [Some(current)] + rest) == ParseFrom(AppendTo(acc, f, v), rest[n..])
  {
    HeadTokenOf(acc, current, rest, Some(ListArg(f)));
  }

  /** The seven text switches assign their value, replacing whatever was there. */
  lemma TextRule(acc: CompilerArguments, current: string, rest: seq<Token>, f: TextField)
    requires Classify(Lower(current)) == Some(TextArg(f))
    ensures var (v, n) := ReadValue(current, rest);
      ParseFrom(acc, [Some(current)] + rest) == ParseFrom(SetText(acc, f, Some(v)), rest[n..])
  {
    HeadTokenOf(acc, current, rest, Some(TextArg(f)));
  }

  lemma SetTextTwice(acc: CompilerArguments, f: TextField, v1: Option<string>, v2: Option<string>)
    ensures SetText(SetText(acc, f, v1), f, v2) == SetText(acc, f, v2)
  {
    match f {
      case Output => assert SetText(SetText(acc, f, v1), f, v2) == acc.(output := v2);
      case Pdb => assert SetText(SetText(acc, f, v1), f, v2) == acc.(pdbOutput := v2);
      case Target => assert SetText(SetText(acc, f, v1), f, v2) == acc.(target := v2);
      case Win32Icon => assert SetText(SetText(acc, f, v1), f, v2) == acc.(win32Icon := v2);
      case Win32Resource => assert SetText(SetText(acc, f, v1), f, v2) == acc.(win32Resource := v2);
      case MainClass => assert SetText(SetText(acc, f, v1), f, v2) == acc.(main := v2);
      case Platform => assert SetText(SetText(acc, f, v1), f, v2) == acc.(platform := v2);
    }
  }

  /** Of two text switches for the same field in a row, the first without `"`, only the second counts. */
  lemma LaterTextWins(acc: CompilerArguments, t1: string, t2: string, rest: seq<Token>, f: TextField)
    requires Classify(Lower(t1)) == Some(TextArg(f)) && Classify(Lower(t2)) == Some(TextArg(f))
    requires Quote !in t1
    ensures var (v, n) := ReadValue(t2, rest);
      ParseFrom(acc, [Some(t1), Some(t2)] + rest) == ParseFrom(SetText(acc, f, Some(v)), rest[n..])
  {
    var v1 := StripToColon(t1);
    QuoteFreeTextHead(acc, t1, Some(t2), rest, f);
    TextRule(SetText(acc, f, Some(v1)), t2, rest, f);
    SetTextTwice(acc, f, Some(v1), Some(ReadValue(t2, rest).0));
  }

  /** A quote-free text switch at the head sets its field to the stripped token and takes nothing more. */
  lemma QuoteFreeTextHead(acc: CompilerArguments, t1: string, t2: Token, rest: seq<Token>, f: TextField)
    requires Classify(Lower(t1)) == Some(TextArg(f)) && Quote !in t1
    ensures ParseFrom(acc, [Some(t1), t2] + rest) == ParseFrom(SetText(acc, f, Some(StripToColon(t1))), [t2] + rest)
  {
    var more := [t2] + rest;
    assert [Some(t1), t2] + rest == [Some(t1)] + more;
    ParserProperties.QuoteFreeValue(t1, more);
    TextRule(acc, t1, more, f);
    assert more[0..] == more;
  }

  /** The table entry of a toggle. */
  function ToggleEntry(f: ToggleField): (i: nat)
    ensures i < |Switches| && Switches[i] == (ToggleName(f), ToggleArg(f))
  {
    match f
    case Optimize => 15
    case Checked => 16
    case NoStdLib => 18
  }

  /** A toggle given twice, the second time with a `+`, ends up on, whatever the first form was. */
  lemma ToggleLaterPlus(acc: CompilerArguments, f: ToggleField, x: string, y: string, rest: seq<Token>)
    requires '+' in y
    ensures ParseFrom(acc, [Some(ToggleName(f) + x), Some(ToggleName(f) + y)] + rest)
      == ParseFrom(SetToggle(acc, f, true), rest)
  {
    var i := ToggleEntry(f);
    ParserProperties.ClassifyToken(i, x);
    ParserProperties.ClassifyToken(i, y);
    LowerKeepsSymbol(y, '+');
    var k :| 0 <= k < |Lower(y)| && Lower(y)[k] == '+';
    assert Lower(ToggleName(f) + y)[|ToggleName(f)| + k] == '+';
    LaterToggleWins(acc, ToggleName(f) + x, ToggleName(f) + y, rest, f);
  }

  /** `/optimize- /optimize+`: the later form wins, so optimisation ends up on. */
  lemma OptimizeOffThenOn(acc: CompilerArguments, rest: seq<Token>)
    ensures ParseFrom(acc, [Some("/optimize-"), Some("/optimize+")] + rest) == ParseFrom(acc.(optimize := true), rest)
  {
    assert "/optimize-" == OptimizeName + "-" && "/optimize+" == OptimizeName + "+";
    ToggleLaterPlus(acc, Optimize, "-", "+", rest);
  }

  /** A `/debug` token without `"` is one dispatch that takes no further token. */
  lemma DebugTokenAlone(acc: CompilerArguments, x: string, rest: seq<Token>)
    requires Quote !in x
    ensures ParseFrom(acc, [Some(DebugName + x)] + rest)
      == ParseFrom(acc.(debugLevel := DebugLevelAfter(acc.debugLevel, Lower(DebugName + x), StripToColon(DebugName + x))), rest)
  {
    var t := DebugName + x;
    DebugEntry();
    assert Quote !in t;
    ParserProperties.ClassifyToken(20, x);
    ParserProperties.QuoteFreeValue(t, rest);
    DebugStep(acc, t, rest);
    assert rest[0..] == rest;
  }

  /** A lowered `/debug:` form without `+` takes its value upper-cased. */
  lemma DebugColonForm(level: Option<string>, w: string, v: string)
    requires w != [] && w[0] == ':' && '+' !in w
    ensures DebugLevelAfter(level, DebugName + w, v) == Some(Upper(v))
  {
    var lower := DebugName + w;
    assert lower[|DebugName|] == ':' && |lower| > |DebugName|;
    assert '+' !in lower;
  }

  /** `/debug:` with a value holding no `+` sets the level to that value upper-cased. */
  lemma DebugColonLevel(level: Option<string>, v: string)
    requires '+' !in v
    ensures var t := DebugName + ([':'] + v);
      DebugLevelAfter(level, Lower(t), StripToColon(t)) == Some(Upper(v))
  {
    var w := [':'] + v;
    var t := DebugName + w;
    assert Lower(t) == DebugName + Lower(w) by { LowerDebugToken(w); }
    assert StripToColon(t) == v by {
      ParserProperties.StripAfterName(DebugName, v);
      assert DebugName + [':'] + v == t;
    }
    assert Lower(w) != [] && Lower(w)[0] == ':' && '+' !in Lower(w) by { LowerColonValue(v); }
    DebugColonForm(level, Lower(w), v);
  }

  /** Entry 17 of the switch table is `/nowarn:`. */
  lemma NoWarnEntry()
    ensures |Switches| == 21 && Switches[17] == ("/nowarn:", NoWarnArg)
  {
  }

  /** The last entry of the switch table is `/debug`. */
  lemma DebugEntry()
    ensures |Switches| == 21 && Switches[20] == (DebugName, DebugArg)
  {
  }

  /** Lower-casing a token that starts with `/debug` keeps the name and lowers only the rest. */
  lemma LowerDebugToken(x: string)
    ensures Lower(DebugName + x) == DebugName + Lower(x)
  {
    DebugEntry();
    ParserProperties.LowerSwitchToken(20, x);
  }

  /** Lower-casing `:` followed by a value without `+` keeps the leading `:` and adds no `+`. */
  lemma LowerColonValue(v: string)
    requires '+' !in v
    ensures var w := Lower([':'] + v); w != [] && w[0] == ':' && '+' !in w
  {
    var w := [':'] + v;
    assert w[0] == ':' && w[1..] == v;
    LowerKeepsSymbol(v, '+');
    assert Lower(w) == [':'] + Lower(v);
  }

  /**
   * A `/debug` token without `"`, followed by `/debug:` with a value holding
   * neither `"` nor `+`: the level becomes that value upper-cased.
   */
  lemma LaterDebugValueWins(acc: CompilerArguments, x: string, v: string, rest: seq<Token>)
    requires Quote !in x && Quote !in v && '+' !in v
    ensures ParseFrom(acc, [Some(DebugName + x), Some(DebugName + [':'] + v)] + rest)
      == ParseFrom(acc.(debugLevel := Some(Upper(v))), rest)
  {
    var w := [':'] + v;
    var t1, t2 := DebugName + x, DebugName + w;
    assert DebugName + [':'] + v == t2;
    var first := acc.(debugLevel := DebugLevelAfter(acc.debugLevel, Lower(t1), StripToColon(t1)));
    assert ParseFrom(acc, [Some(t1), Some(t2)] + rest) == ParseFrom(first, [Some(t2)] + rest) by {
      DebugHead(acc, x, Some(t2), rest);
    }
    assert ParseFrom(first, [Some(t2)] + rest)
      == ParseFrom(first.(debugLevel := DebugLevelAfter(first.debugLevel, Lower(t2), StripToColon(t2))), rest) by {
      DebugTokenAlone(first, w, rest);
    }
    assert DebugLevelAfter(first.debugLevel, Lower(t2), StripToColon(t2)) == Some(Upper(v)) by {
      DebugColonLevel(first.debugLevel, v);
    }
    assert first.(debugLevel := Some(Upper(v))) == acc.(debugLevel := Some(Upper(v)));
  }

  /** A quote-free `/debug` token ahead of another token only sets the level, and the drain goes on with that token. */
  lemma DebugHead(acc: CompilerArguments, x: string, t2: Token, rest: seq<Token>)
    requires Quote !in x
    ensures var t1 := DebugName + x;
      ParseFrom(acc, [Some(t1), t2] + rest)
      == ParseFrom(acc.(debugLevel := DebugLevelAfter(acc.debugLevel, Lower(t1), StripToColon(t1))), [t2] + rest)
  {
    var more := [t2] + rest;
    assert [Some(DebugName + x), t2] + rest == [Some(DebugName + x)] + more;
    DebugTokenAlone(acc, x, more);
  }

  lemma UpperPdbOnly()
    ensures Upper("pdbonly") == "PDBONLY"
  {
    UpperAt("pdbonly");
  }

  /** `/debug+ /debug:pdbonly`: the later form wins, and its value is upper-cased. */
  lemma DebugFullThenPdbOnly(acc: CompilerArguments, rest: seq<Token>)
    ensures ParseFrom(acc, [Some(DebugName + "+"), Some(DebugName + [':'] + "pdbonly")] + rest)
      == ParseFrom(acc.(debugLevel := Some("PDBONLY")), rest)
  {
    LaterDebugValueWins(acc, "+", "pdbonly", rest);
    UpperPdbOnly();
  }

  /** A `/nowarn:` token whose value holds no `"` adds the pieces of that value and takes nothing more. */
  lemma NoWarnToken(acc: CompilerArguments, x: string, rest: seq<Token>)
    requires Quote !in x
    ensures ParseFrom(acc, [Some("/nowarn:" + x)] + rest) == ParseFrom(AddFilters(acc, x), rest)
  {
    var name := "/nowarn:";
    NoWarnEntry();
    assert name == "/nowarn" + [':'];
    ParserProperties.ClassifyToken(17, x);
    assert Quote !in name + x;
    ParserProperties.StripAfterName("/nowarn", x);
    ParserProperties.QuoteFreeValue(name + x, rest);
    NoWarnRule(acc, name + x, rest);
    assert rest[0..] == rest;
  }

  /** One `/nowarn:` with two lists joined by a separator adds what two `/nowarn:` switches with the two lists add. */
  lemma NoWarnSeparated(acc: CompilerArguments, a: string, sep: char, b: string, rest: seq<Token>)
    requires IsSeparator(sep) && Quote !in a && Quote !in b
    ensures ParseFrom(acc, [Some("/nowarn:" + (a + [sep] + b))] + rest)
      == ParseFrom(acc, [Some("/nowarn:" + a), Some("/nowarn:" + b)] + rest)
  {
    var more := [Some("/nowarn:" + b)] + rest;
    assert sep != Quote;
    NoWarnToken(acc, a + [sep] + b, rest);
    FiltersAtSeparator(acc, a, sep, b);
    assert [Some("/nowarn:" + a), Some("/nowarn:" + b)] + rest == [Some("/nowarn:" + a)] + more;
    NoWarnToken(acc, a, more);
    NoWarnToken(AddFilters(acc, a), b, rest);
  }

  /** Two separator-free pieces joined by a separator become exactly two filters, in order. */
  lemma TwoFilters(acc: CompilerArguments, a: string, sep: char, b: string)
    requires IsSeparator(sep)
    requires forall j :: 0 <= j < |a| ==> !IsSeparator(a[j])
    requires forall j :: 0 <= j < |b| ==> !IsSeparator(b[j])
    ensures AddFilters(acc, a + [sep] + b) == acc.(warningFilters := acc.warningFilters + [a, b])
  {
    FiltersAtSeparator(acc, a, sep, b);
    SingleFilter(acc, a);
    SingleFilter(AddFilters(acc, a), b);
    assert acc.warningFilters + [a] + [b] == acc.warningFilters + [a, b];
  }

  /** `/nowarn:1701,1702` is `/nowarn:1701` followed by `/nowarn:1702`. */
  lemma NoWarnPair(acc: CompilerArguments, rest: seq<Token>)
    ensures ParseFrom(acc, [Some("/nowarn:" + "1701,1702")] + rest)
      == ParseFrom(acc, [Some("/nowarn:" + "1701"), Some("/nowarn:" + "1702")] + rest)
  {
    assert "1701,1702" == "1701" + [','] + "1702";
    NoWarnSeparated(acc, "1701", ',', "1702", rest);
  }

  /** A `/nowarn:` whose value is two separator-free pieces joined by a separator adds exactly those two filters. */
  lemma NoWarnTwoFilters(acc: CompilerArguments, a: string, sep: char, b: string, rest: seq<Token>)
    requires IsSeparator(sep) && Quote !in a && Quote !in b
    requires forall j :: 0 <= j < |a| ==> !IsSeparator(a[j])
    requires forall j :: 0 <= j < |b| ==> !IsSeparator(b[j])
    ensures ParseFrom(acc, [Some("/nowarn:" + (a + [sep] + b))] + rest)
      == ParseFrom(acc.(warningFilters := acc.warningFilters + [a, b]), rest)
  {
    assert sep != Quote;
    NoWarnToken(acc, a + [sep] + b, rest);
    TwoFilters(acc, a, sep, b);
  }

  /** `/nowarn:1701,1702` adds the two filters `1701` and `1702`, in that order. */
  lemma NoWarnPairFilters(acc: CompilerArguments, rest: seq<Token>)
    ensures ParseFrom(acc, [Some("/nowarn:" + ("1701" + [','] + "1702"))] + rest)
      == ParseFrom(acc.(warningFilters := acc.warningFilters + ["1701", "1702"]), rest)
  {
    NoWarnTwoFilters(acc, "1701", ',', "1702", rest);
  }
}
