/**
 * Properties of the current parser that relate several dispatches: the lists
 * only grow, each token adds at most one entry, and the only errors are the
 * two numeric ones.
 */
module ParserProperties {
  import opened Wrappers
  import opened Text
  import opened Tokens
  import opened ParsingErrors
  import opened Arguments
  import opened Numerals
  import opened QuotedValues
  import opened SwitchTables
  import opened Accumulator
  import opened Parser

  /** Every error is one of the two the numeric switches record. */
  ghost predicate NumericErrors(es: seq<ParsingError>) {
    forall i :: 0 <= i < |es| ==> es[i] == AlignmentError || es[i] == WarningLevelError
  }

  /**
   * From `a` to `b` the lists only grew (each list of `a` is a prefix of the
   * same list of `b`) and every added error is a numeric one.
   */
  ghost predicate Grows(a: CompilerArguments, b: CompilerArguments) {
    && a.files <= b.files && a.references <= b.references && a.resources <= b.resources
    && a.defines <= b.defines && a.warningFilters <= b.warningFilters
    && a.errors <= b.errors && NumericErrors(b.errors[|a.errors|..])
  }

  /** The entries of which one dispatch adds at most one. */
  function Entries(a: CompilerArguments): nat {
    |a.files| + |a.references| + |a.resources| + |a.defines| + |a.errors|
  }

  lemma GrowsTransitive(a: CompilerArguments, b: CompilerArguments, c: CompilerArguments)
    requires Grows(a, b) && Grows(b, c)
    ensures Grows(a, c)
  {
    assert c.errors[|a.errors|..] == b.errors[|a.errors|..] + c.errors[|b.errors|..];
  }

  /** A dispatch that leaves every list as it is grows trivially. */
  lemma SameListsGrow(a: CompilerArguments, b: CompilerArguments)
    requires && a.files == b.files && a.references == b.references && a.resources == b.resources
             && a.defines == b.defines && a.warningFilters == b.warningFilters && a.errors == b.errors
    ensures Grows(a, b) && Entries(b) == Entries(a)
  {
    assert b.errors[|a.errors|..] == [];
  }

  /** One dispatch only appends, adds at most one entry, and adds no error other than the two numeric ones. */
  lemma ApplyGrows(acc: CompilerArguments, kind: Option<SwitchKind>, lower: string, v: string)
    ensures var next := Apply(acc, kind, lower, v);
      Grows(acc, next) && Entries(next) <= Entries(acc) + 1
  {
    if kind.None? || kind.value.ListArg? || kind.value.NumberArg? || kind.value.NoWarnArg? {
      AppendingGrows(acc, kind, lower, v);
    } else {
      SettingGrows(acc, kind, lower, v);
    }
  }

  /** The branches that append: files, the three lists, the numeric errors and the warning filters. */
  lemma AppendingGrows(acc: CompilerArguments, kind: Option<SwitchKind>, lower: string, v: string)
    requires kind.None? || kind.value.ListArg? || kind.value.NumberArg? || kind.value.NoWarnArg?
    ensures var next := Apply(acc, kind, lower, v);
      Grows(acc, next) && Entries(next) <= Entries(acc) + 1
  {
    match kind {
      case None =>
      case Some(ListArg(f)) =>
      case Some(NumberArg(f)) => NumberGrows(acc, f, v);
      case Some(NoWarnArg) =>
    }
  }

  /** The branches that only assign: the text fields, the toggles, `/noconfig` and `/debug`. */
  lemma SettingGrows(acc: CompilerArguments, kind: Option<SwitchKind>, lower: string, v: string)
    requires kind.Some? && (kind.value.TextArg? || kind.value.ToggleArg? || kind.value.NoConfigArg? || kind.value.DebugArg?)
    ensures var next := Apply(acc, kind, lower, v);
      Grows(acc, next) && Entries(next) == Entries(acc)
  {
    match kind {
      case Some(TextArg(f)) => SameListsGrow(acc, SetText(acc, f, Some(v)));
      case Some(ToggleArg(f)) => SameListsGrow(acc, SetToggle(acc, f, Toggle(lower, ToggleName(f))));
      case Some(NoConfigArg) => SameListsGrow(acc, acc.(noConfig := true));
      case Some(DebugArg) => SameListsGrow(acc, SetDebug(acc, lower, v));
    }
  }

  lemma NumberGrows(acc: CompilerArguments, f: NumberField, v: string)
    ensures var next := SetNumber(acc, f, v);
      Grows(acc, next) && Entries(next) <= Entries(acc) + 1
  {
    var next := SetNumber(acc, f, v);
    assert next.errors[|acc.errors|..] == if TryParseInt32(v).None? then [NumberError(f)] else [];
  }

  /**
   * Draining only appends to the lists, adds at most one entry per token, and
   * the only errors it adds are the two numeric ones.
   */
  lemma {:induction false} ParseFromGrows(acc: CompilerArguments, ts: seq<Token>)
    ensures var r := ParseFrom(acc, ts);
      Grows(acc, r) && Entries(r) <= Entries(acc) + |ts|
    decreases |ts|
  {
    if ts != [] {
      var current := Coerce(ts[0]);
      var lower := Lower(current);
      var kind := Classify(lower);
      var v := ReadValue(current, ts[1..]).0;
      var next := Apply(acc, kind, lower, v);
      var rest := ts[1..][Consumed(kind, lower, current, ts[1..])..];
      ParseFromHead(acc, ts);
      ApplyGrows(acc, kind, lower, v);
      ParseFromGrows(next, rest);
      GrowsTransitive(acc, next, ParseFrom(next, rest));
    }
  }

  /** Every switch name starts with `/`. */
  lemma SwitchNamesStartWithSlash()
    ensures forall i :: 0 <= i < |Switches| ==> Switches[i].0 != [] && Switches[i].0[0] == '/'
  {
  }

  /** The dispatch chain picks the first switch in table order that the lowered token starts with. */
  lemma ClassifyIsFirstMatch(lower: string)
    ensures var i := FirstMatchIndex(lower, Switches);
      Classify(lower) == if i < 0 then None else Some(Switches[i].1)
  {
    LookupIsFirstMatch(lower, Switches);
  }

  /** The character after the `/` of each switch name: most pairs of names already differ there. */
  lemma NameKeys()
    ensures forall i :: 0 <= i < |Switches| ==> |Switches[i].0| > 1
    ensures Switches[0].0[1] == 'r' && Switches[1].0[1] == 'r' && Switches[2].0[1] == 'r' && Switches[3].0[1] == 'r'
      && Switches[4].0[1] == 'd' && Switches[5].0[1] == 'd' && Switches[6].0[1] == 'o' && Switches[7].0[1] == 'p'
      && Switches[8].0[1] == 'f' && Switches[9].0[1] == 'w' && Switches[10].0[1] == 't' && Switches[11].0[1] == 'w'
      && Switches[12].0[1] == 'w' && Switches[13].0[1] == 'm' && Switches[14].0[1] == 'p' && Switches[15].0[1] == 'o'
      && Switches[16].0[1] == 'c' && Switches[17].0[1] == 'n' && Switches[18].0[1] == 'n' && Switches[19].0[1] == 'n'
      && Switches[20].0[1] == 'd'
  {
  }

  /** Each of `/r:` to `/warn:` differs from every earlier name at a position both have. */
  lemma DivergeUpToWarn()
    ensures forall j, i :: 0 <= j < i && 1 <= i <= 9 ==> Diverge(Switches[j].0, Switches[i].0)
  {
    NameKeys();
    forall j, i | 0 <= j < i && 1 <= i <= 9
      ensures Diverge(Switches[j].0, Switches[i].0)
    {
      if i == 1 {
        if j == 0 { assert DifferAt(Switches[j].0, Switches[i].0, 2); }
      } else if i == 2 {
        if j == 0 { assert DifferAt(Switches[j].0, Switches[i].0, 3); }
        else if j == 1 { assert DifferAt(Switches[j].0, Switches[i].0, 2); }
      } else if i == 3 {
        if j == 0 { assert DifferAt(Switches[j].0, Switches[i].0, 3); }
        else if j == 1 { assert DifferAt(Switches[j].0, Switches[i].0, 2); }
        else if j == 2 { assert DifferAt(Switches[j].0, Switches[i].0, 4); }
      } else if i == 4 {
        if j == 0 { assert DifferAt(Switches[j].0, Switches[i].0, 1); }
        else if j == 1 { assert DifferAt(Switches[j].0, Switches[i].0, 1); }
        else if j == 2 { assert DifferAt(Switches[j].0, Switches[i].0, 1); }
        else if j == 3 { assert DifferAt(Switches[j].0, Switches[i].0, 1); }
      } else if i == 5 {
        if j == 0 { assert DifferAt(Switches[j].0, Switches[i].0, 1); }
        else if j == 1 { assert DifferAt(Switches[j].0, Switches[i].0, 1); }
        else if j == 2 { assert DifferAt(Switches[j].0, Switches[i].0, 1); }
        else if j == 3 { assert DifferAt(Switches[j].0, Switches[i].0, 1); }
        else if j == 4 { assert DifferAt(Switches[j].0, Switches[i].0, 2); }
      } else if i == 6 {
        if j == 0 { assert DifferAt(Switches[j].0, Switches[i].0, 1); }
        else if j == 1 { assert DifferAt(Switches[j].0, Switches[i].0, 1); }
        else if j == 2 { assert DifferAt(Switches[j].0, Switches[i].0, 1); }
        else if j == 3 { assert DifferAt(Switches[j].0, Switches[i].0, 1); }
        else if j == 4 { assert DifferAt(Switches[j].0, Switches[i].0, 1); }
        else if j == 5 { assert DifferAt(Switches[j].0, Switches[i].0, 1); }
      } else if i == 7 {
        if j == 0 { assert DifferAt(Switches[j].0, Switches[i].0, 1); }
        else if j == 1 { assert DifferAt(Switches[j].0, Switches[i].0, 1); }
        else if j == 2 { assert DifferAt(Switches[j].0, Switches[i].0, 1); }
        else if j == 3 { assert DifferAt(Switches[j].0, Switches[i].0, 1); }
        else if j == 4 { assert DifferAt(Switches[j].0, Switches[i].0, 1); }
        else if j == 5 { assert DifferAt(Switches[j].0, Switches[i].0, 1); }
        else if j == 6 { assert DifferAt(Switches[j].0, Switches[i].0, 1); }
      } else if i == 8 {
        if j == 0 { assert DifferAt(Switches[j].0, Switches[i].0, 1); }
        else if j == 1 { assert DifferAt(Switches[j].0, Switches[i].0, 1); }
        else if j == 2 { assert DifferAt(Switches[j].0, Switches[i].0, 1); }
        else if j == 3 { assert DifferAt(Switches[j].0, Switches[i].0, 1); }
        else if j == 4 { assert DifferAt(Switches[j].0, Switches[i].0, 1); }
        else if j == 5 { assert DifferAt(Switches[j].0, Switches[i].0, 1); }
        else if j == 6 { assert DifferAt(Switches[j].0, Switches[i].0, 1); }
        else if j == 7 { assert DifferAt(Switches[j].0, Switches[i].0, 1); }
      } else if i == 9 {
        if j == 0 { assert DifferAt(Switches[j].0, Switches[i].0, 1); }
        else if j == 1 { assert DifferAt(Switches[j].0, Switches[i].0, 1); }
        else if j == 2 { assert DifferAt(Switches[j].0, Switches[i].0, 1); }
        else if j == 3 { assert DifferAt(Switches[j].0, Switches[i].0, 1); }
        else if j == 4 { assert DifferAt(Switches[j].0, Switches[i].0, 1); }
        else if j == 5 { assert DifferAt(Switches[j].0, Switches[i].0, 1); }
        else if j == 6 { assert DifferAt(Switches[j].0, Switches[i].0, 1); }
        else if j == 7 { assert DifferAt(Switches[j].0, Switches[i].0, 1); }
        else if j == 8 { assert DifferAt(Switches[j].0, Switches[i].0, 1); }
      }
    }
  }

  /** Each of `/target:` to `/main:` differs from every earlier name at a position both have. */
  lemma DivergeTargetToMain()
    ensures forall j, i :: 0 <= j < i && 10 <= i <= 13 ==> Diverge(Switches[j].0, Switches[i].0)
  {
    NameKeys();
    forall j, i | 0 <= j < i && 10 <= i <= 13
      ensures Diverge(Switches[j].0, Switches[i].0)
    {
      if i == 10 {
        if j == 0 { assert DifferAt(Switches[j].0, Switches[i].0, 1); }
        else if j == 1 { assert DifferAt(Switches[j].0, Switches[i].0, 1); }
        else if j == 2 { assert DifferAt(Switches[j].0, Switches[i].0, 1); }
        else if j == 3 { assert DifferAt(Switches[j].0, Switches[i].0, 1); }
        else if j == 4 { assert DifferAt(Switches[j].0, Switches[i].0, 1); }
        else if j == 5 { assert DifferAt(Switches[j].0, Switches[i].0, 1); }
        else if j == 6 { assert DifferAt(Switches[j].0, Switches[i].0, 1); }
        else if j == 7 { assert DifferAt(Switches[j].0, Switches[i].0, 1); }
        else if j == 8 { assert DifferAt(Switches[j].0, Switches[i].0, 1); }
        else if j == 9 { assert DifferAt(Switches[j].0, Switches[i].0, 1); }
      } else if i == 11 {
        if j == 0 { assert DifferAt(Switches[j].0, Switches[i].0, 1); }
        else if j == 1 { assert DifferAt(Switches[j].0, Switches[i].0, 1); }
        else if j == 2 { assert DifferAt(Switches[j].0, Switches[i].0, 1); }
        else if j == 3 { assert DifferAt(Switches[j].0, Switches[i].0, 1); }
        else if j == 4 { assert DifferAt(Switches[j].0, Switches[i].0, 1); }
        else if j == 5 { assert DifferAt(Switches[j].0, Switches[i].0, 1); }
        else if j == 6 { assert DifferAt(Switches[j].0, Switches[i].0, 1); }
        else if j == 7 { assert DifferAt(Switches[j].0, Switches[i].0, 1); }
        else if j == 8 { assert DifferAt(Switches[j].0, Switches[i].0, 1); }
        else if j == 9 { assert DifferAt(Switches[j].0, Switches[i].0, 2); }
        else if j == 10 { assert DifferAt(Switches[j].0, Switches[i].0, 1); }
      } else if i == 12 {
        if j == 0 { assert DifferAt(Switches[j].0, Switches[i].0, 1); }
        else if j == 1 { assert DifferAt(Switches[j].0, Switches[i].0, 1); }
        else if j == 2 { assert DifferAt(Switches[j].0, Switches[i].0, 1); }
        else if j == 3 { assert DifferAt(Switches[j].0, Switches[i].0, 1); }
        else if j == 4 { assert DifferAt(Switches[j].0, Switches[i].0, 1); }
        else if j == 5 { assert DifferAt(Switches[j].0, Switches[i].0, 1); }
        else if j == 6 { assert DifferAt(Switches[j].0, Switches[i].0, 1); }
        else if j == 7 { assert DifferAt(Switches[j].0, Switches[i].0, 1); }
        else if j == 8 { assert DifferAt(Switches[j].0, Switches[i].0, 1); }
        else if j == 9 { assert DifferAt(Switches[j].0, Switches[i].0, 2); }
        else if j == 10 { assert DifferAt(Switches[j].0, Switches[i].0, 1); }
        else if j == 11 { assert DifferAt(Switches[j].0, Switches[i].0, 6); }
      } else if i == 13 {
        if j == 0 { assert DifferAt(Switches[j].0, Switches[i].0, 1); }
        else if j == 1 { assert DifferAt(Switches[j].0, Switches[i].0, 1); }
        else if j == 2 { assert DifferAt(Switches[j].0, Switches[i].0, 1); }
        else if j == 3 { assert DifferAt(Switches[j].0, Switches[i].0, 1); }
        else if j == 4 { assert DifferAt(Switches[j].0, Switches[i].0, 1); }
        else if j == 5 { assert DifferAt(Switches[j].0, Switches[i].0, 1); }
        else if j == 6 { assert DifferAt(Switches[j].0, Switches[i].0, 1); }
        else if j == 7 { assert DifferAt(Switches[j].0, Switches[i].0, 1); }
        else if j == 8 { assert DifferAt(Switches[j].0, Switches[i].0, 1); }
        else if j == 9 { assert DifferAt(Switches[j].0, Switches[i].0, 1); }
        else if j == 10 { assert DifferAt(Switches[j].0, Switches[i].0, 1); }
        else if j == 11 { assert DifferAt(Switches[j].0, Switches[i].0, 1); }
        else if j == 12 { assert DifferAt(Switches[j].0, Switches[i].0, 1); }
      }
    }
  }

  /** Each of `/platform:`, `/optimize` and `/checked` differs from every earlier name at a position both have. */
  lemma DivergePlatformToChecked()
    ensures forall j, i :: 0 <= j < i && 14 <= i <= 16 ==> Diverge(Switches[j].0, Switches[i].0)
  {
    NameKeys();
    forall j, i | 0 <= j < i && 14 <= i <= 16
      ensures Diverge(Switches[j].0, Switches[i].0)
    {
      if i == 14 {
        if j == 0 { assert DifferAt(Switches[j].0, Switches[i].0, 1); }
        else if j == 1 { assert DifferAt(Switches[j].0, Switches[i].0, 1); }
        else if j == 2 { assert DifferAt(Switches[j].0, Switches[i].0, 1); }
        else if j == 3 { assert DifferAt(Switches[j].0, Switches[i].0, 1); }
        else if j == 4 { assert DifferAt(Switches[j].0, Switches[i].0, 1); }
        else if j == 5 { assert DifferAt(Switches[j].0, Switches[i].0, 1); }
        else if j == 6 { assert DifferAt(Switches[j].0, Switches[i].0, 1); }
        else if j == 7 { assert DifferAt(Switches[j].0, Switches[i].0, 2); }
        else if j == 8 { assert DifferAt(Switches[j].0, Switches[i].0, 1); }
        else if j == 9 { assert DifferAt(Switches[j].0, Switches[i].0, 1); }
        else if j == 10 { assert DifferAt(Switches[j].0, Switches[i].0, 1); }
        else if j == 11 { assert DifferAt(Switches[j].0, Switches[i].0, 1); }
        else if j == 12 { assert DifferAt(Switches[j].0, Switches[i].0, 1); }
        else if j == 13 { assert DifferAt(Switches[j].0, Switches[i].0, 1); }
      } else if i == 15 {
        if j == 0 { assert DifferAt(Switches[j].0, Switches[i].0, 1); }
        else if j == 1 { assert DifferAt(Switches[j].0, Switches[i].0, 1); }
        else if j == 2 { assert DifferAt(Switches[j].0, Switches[i].0, 1); }
        else if j == 3 { assert DifferAt(Switches[j].0, Switches[i].0, 1); }
        else if j == 4 { assert DifferAt(Switches[j].0, Switches[i].0, 1); }
        else if j == 5 { assert DifferAt(Switches[j].0, Switches[i].0, 1); }
        else if j == 6 { assert DifferAt(Switches[j].0, Switches[i].0, 2); }
        else if j == 7 { assert DifferAt(Switches[j].0, Switches[i].0, 1); }
        else if j == 8 { assert DifferAt(Switches[j].0, Switches[i].0, 1); }
        else if j == 9 { assert DifferAt(Switches[j].0, Switches[i].0, 1); }
        else if j == 10 { assert DifferAt(Switches[j].0, Switches[i].0, 1); }
        else if j == 11 { assert DifferAt(Switches[j].0, Switches[i].0, 1); }
        else if j == 12 { assert DifferAt(Switches[j].0, Switches[i].0, 1); }
        else if j == 13 { assert DifferAt(Switches[j].0, Switches[i].0, 1); }
        else if j == 14 { assert DifferAt(Switches[j].0, Switches[i].0, 1); }
      } else if i == 16 {
        if j == 0 { assert DifferAt(Switches[j].0, Switches[i].0, 1); }
        else if j == 1 { assert DifferAt(Switches[j].0, Switches[i].0, 1); }
        else if j == 2 { assert DifferAt(Switches[j].0, Switches[i].0, 1); }
        else if j == 3 { assert DifferAt(Switches[j].0, Switches[i].0, 1); }
        else if j == 4 { assert DifferAt(Switches[j].0, Switches[i].0, 1); }
        else if j == 5 { assert DifferAt(Switches[j].0, Switches[i].0, 1); }
        else if j == 6 { assert DifferAt(Switches[j].0, Switches[i].0, 1); }
        else if j == 7 { assert DifferAt(Switches[j].0, Switches[i].0, 1); }
        else if j == 8 { assert DifferAt(Switches[j].0, Switches[i].0, 1); }
        else if j == 9 { assert DifferAt(Switches[j].0, Switches[i].0, 1); }
        else if j == 10 { assert DifferAt(Switches[j].0, Switches[i].0, 1); }
        else if j == 11 { assert DifferAt(Switches[j].0, Switches[i].0, 1); }
        else if j == 12 { assert DifferAt(Switches[j].0, Switches[i].0, 1); }
        else if j == 13 { assert DifferAt(Switches[j].0, Switches[i].0, 1); }
        else if j == 14 { assert DifferAt(Switches[j].0, Switches[i].0, 1); }
        else if j == 15 { assert DifferAt(Switches[j].0, Switches[i].0, 1); }
      }
    }
  }

  /** Each of `/nowarn:` and `/nostdlib` differs from every earlier name at a position both have. */
  lemma DivergeNoWarnNoStdLib()
    ensures forall j, i :: 0 <= j < i && 17 <= i <= 18 ==> Diverge(Switches[j].0, Switches[i].0)
  {
    NameKeys();
    forall j, i | 0 <= j < i && 17 <= i <= 18
      ensures Diverge(Switches[j].0, Switches[i].0)
    {
      if i == 17 {
        if j == 0 { assert DifferAt(Switches[j].0, Switches[i].0, 1); }
        else if j == 1 { assert DifferAt(Switches[j].0, Switches[i].0, 1); }
        else if j == 2 { assert DifferAt(Switches[j].0, Switches[i].0, 1); }
        else if j == 3 { assert DifferAt(Switches[j].0, Switches[i].0, 1); }
        else if j == 4 { assert DifferAt(Switches[j].0, Switches[i].0, 1); }
        else if j == 5 { assert DifferAt(Switches[j].0, Switches[i].0, 1); }
        else if j == 6 { assert DifferAt(Switches[j].0, Switches[i].0, 1); }
        else if j == 7 { assert DifferAt(Switches[j].0, Switches[i].0, 1); }
        else if j == 8 { assert DifferAt(Switches[j].0, Switches[i].0, 1); }
        else if j == 9 { assert DifferAt(Switches[j].0, Switches[i].0, 1); }
        else if j == 10 { assert DifferAt(Switches[j].0, Switches[i].0, 1); }
        else if j == 11 { assert DifferAt(Switches[j].0, Switches[i].0, 1); }
        else if j == 12 { assert DifferAt(Switches[j].0, Switches[i].0, 1); }
        else if j == 13 { assert DifferAt(Switches[j].0, Switches[i].0, 1); }
        else if j == 14 { assert DifferAt(Switches[j].0, Switches[i].0, 1); }
        else if j == 15 { assert DifferAt(Switches[j].0, Switches[i].0, 1); }
        else if j == 16 { assert DifferAt(Switches[j].0, Switches[i].0, 1); }
      } else if i == 18 {
        if j == 0 { assert DifferAt(Switches[j].0, Switches[i].0, 1); }
        else if j == 1 { assert DifferAt(Switches[j].0, Switches[i].0, 1); }
        else if j == 2 { assert DifferAt(Switches[j].0, Switches[i].0, 1); }
        else if j == 3 { assert DifferAt(Switches[j].0, Switches[i].0, 1); }
        else if j == 4 { assert DifferAt(Switches[j].0, Switches[i].0, 1); }
        else if j == 5 { assert DifferAt(Switches[j].0, Switches[i].0, 1); }
        else if j == 6 { assert DifferAt(Switches[j].0, Switches[i].0, 1); }
        else if j == 7 { assert DifferAt(Switches[j].0, Switches[i].0, 1); }
        else if j == 8 { assert DifferAt(Switches[j].0, Switches[i].0, 1); }
        else if j == 9 { assert DifferAt(Switches[j].0, Switches[i].0, 1); }
        else if j == 10 { assert DifferAt(Switches[j].0, Switches[i].0, 1); }
        else if j == 11 { assert DifferAt(Switches[j].0, Switches[i].0, 1); }
        else if j == 12 { assert DifferAt(Switches[j].0, Switches[i].0, 1); }
        else if j == 13 { assert DifferAt(Switches[j].0, Switches[i].0, 1); }
        else if j == 14 { assert DifferAt(Switches[j].0, Switches[i].0, 1); }
        else if j == 15 { assert DifferAt(Switches[j].0, Switches[i].0, 1); }
        else if j == 16 { assert DifferAt(Switches[j].0, Switches[i].0, 1); }
        else if j == 17 { assert DifferAt(Switches[j].0, Switches[i].0, 3); }
      }
    }
  }

  /** Each of `/noconfig` and `/debug` differs from every earlier name at a position both have. */
  lemma DivergeNoConfigDebug()
    ensures forall j, i :: 0 <= j < i && 19 <= i <= 20 ==> Diverge(Switches[j].0, Switches[i].0)
  {
    NameKeys();
    forall j, i | 0 <= j < i && 19 <= i <= 20
      ensures Diverge(Switches[j].0, Switches[i].0)
    {
      if i == 19 {
        if j == 0 { assert DifferAt(Switches[j].0, Switches[i].0, 1); }
        else if j == 1 { assert DifferAt(Switches[j].0, Switches[i].0, 1); }
        else if j == 2 { assert DifferAt(Switches[j].0, Switches[i].0, 1); }
        else if j == 3 { assert DifferAt(Switches[j].0, Switches[i].0, 1); }
        else if j == 4 { assert DifferAt(Switches[j].0, Switches[i].0, 1); }
        else if j == 5 { assert DifferAt(Switches[j].0, Switches[i].0, 1); }
        else if j == 6 { assert DifferAt(Switches[j].0, Switches[i].0, 1); }
        else if j == 7 { assert DifferAt(Switches[j].0, Switches[i].0, 1); }
        else if j == 8 { assert DifferAt(Switches[j].0, Switches[i].0, 1); }
        else if j == 9 { assert DifferAt(Switches[j].0, Switches[i].0, 1); }
        else if j == 10 { assert DifferAt(Switches[j].0, Switches[i].0, 1); }
        else if j == 11 { assert DifferAt(Switches[j].0, Switches[i].0, 1); }
        else if j == 12 { assert DifferAt(Switches[j].0, Switches[i].0, 1); }
        else if j == 13 { assert DifferAt(Switches[j].0, Switches[i].0, 1); }
        else if j == 14 { assert DifferAt(Switches[j].0, Switches[i].0, 1); }
        else if j == 15 { assert DifferAt(Switches[j].0, Switches[i].0, 1); }
        else if j == 16 { assert DifferAt(Switches[j].0, Switches[i].0, 1); }
        else if j == 17 { assert DifferAt(Switches[j].0, Switches[i].0, 3); }
        else if j == 18 { assert DifferAt(Switches[j].0, Switches[i].0, 3); }
      } else if i == 20 {
        if j == 0 { assert DifferAt(Switches[j].0, Switches[i].0, 1); }
        else if j == 1 { assert DifferAt(Switches[j].0, Switches[i].0, 1); }
        else if j == 2 { assert DifferAt(Switches[j].0, Switches[i].0, 1); }
        else if j == 3 { assert DifferAt(Switches[j].0, Switches[i].0, 1); }
        else if j == 4 { assert DifferAt(Switches[j].0, Switches[i].0, 3); }
        else if j == 5 { assert DifferAt(Switches[j].0, Switches[i].0, 2); }
        else if j == 6 { assert DifferAt(Switches[j].0, Switches[i].0, 1); }
        else if j == 7 { assert DifferAt(Switches[j].0, Switches[i].0, 1); }
        else if j == 8 { assert DifferAt(Switches[j].0, Switches[i].0, 1); }
        else if j == 9 { assert DifferAt(Switches[j].0, Switches[i].0, 1); }
        else if j == 10 { assert DifferAt(Switches[j].0, Switches[i].0, 1); }
        else if j == 11 { assert DifferAt(Switches[j].0, Switches[i].0, 1); }
        else if j == 12 { assert DifferAt(Switches[j].0, Switches[i].0, 1); }
        else if j == 13 { assert DifferAt(Switches[j].0, Switches[i].0, 1); }
        else if j == 14 { assert DifferAt(Switches[j].0, Switches[i].0, 1); }
        else if j == 15 { assert DifferAt(Switches[j].0, Switches[i].0, 1); }
        else if j == 16 { assert DifferAt(Switches[j].0, Switches[i].0, 1); }
        else if j == 17 { assert DifferAt(Switches[j].0, Switches[i].0, 1); }
        else if j == 18 { assert DifferAt(Switches[j].0, Switches[i].0, 1); }
        else if j == 19 { assert DifferAt(Switches[j].0, Switches[i].0, 1); }
      }
    }
  }
  /** No switch name of the current table begins another, in either order. */
  lemma SwitchesUnshadowed()
    ensures Unshadowed(Switches)
  {
    DivergeUpToWarn();
    DivergeTargetToMain();
    DivergePlatformToChecked();
    DivergeNoWarnNoStdLib();
    DivergeNoConfigDebug();
  }

  /**
   * No switch shadows another: a lowered token starting with the name of entry
   * `i` reaches that entry's branch, whatever follows the name.
   */
  lemma ClassifyByName(i: nat, y: string)
    requires i < |Switches|
    ensures Classify(Switches[i].0 + y) == Some(Switches[i].1)
  {
    SwitchesUnshadowed();
    LookupOwnName(Switches, i, y);
  }

  /** The switch names hold no upper-case letter. */
  lemma NameLowerCase(i: nat)
    requires i < |Switches|
    ensures forall k :: 0 <= k < |Switches[i].0| ==> !('A' <= Switches[i].0[k] <= 'Z')
  {
    var name := Switches[i].0;
    if i < 7 {
      if i == 0 {} else if i == 1 {} else if i == 2 {} else if i == 3 {} else if i == 4 {} else if i == 5 {} else {}
    } else if i < 14 {
      if i == 7 {} else if i == 8 {} else if i == 9 {} else if i == 10 {} else if i == 11 {} else if i == 12 {} else {}
    } else {
      if i == 14 {} else if i == 15 {} else if i == 16 {} else if i == 17 {} else if i == 18 {} else if i == 19 {} else {}
    }
  }

  /** Lowering a token that starts with a switch name keeps the name as it is. */
  lemma LowerSwitchToken(i: nat, x: string)
    requires i < |Switches|
    ensures Lower(Switches[i].0 + x) == Switches[i].0 + Lower(x)
  {
    var name := Switches[i].0;
    NameLowerCase(i);
    LowerAppend(name, x);
    LowerAt(name);
    assert Lower(name) == name;
  }

  /** A token made of a switch name, in any case, and anything after it reaches that switch. */
  lemma ClassifyToken(i: nat, x: string)
    requires i < |Switches|
    ensures Lower(Switches[i].0 + x) == Switches[i].0 + Lower(x)
    ensures Classify(Lower(Switches[i].0 + x)) == Some(Switches[i].1)
  {
    LowerSwitchToken(i, x);
    ClassifyByName(i, Lower(x));
  }

  /** A token holding `/` whose first `:` closes the switch name `p + ":"` loses exactly that name in the prefix strip. */
  lemma StripAfterName(p: string, x: string)
    requires '/' in p && ':' !in p
    ensures StripToColon(p + [':'] + x) == x
  {
    var s := p + [':'] + x;
    var k :| 0 <= k < |p| && p[k] == '/';
    assert s[k] == '/';
    IndexOfFirst(p, ':', x);
    assert s[|p| + 1..] == x;
  }

  /** A token that does not start with `/` matches no switch, so it falls through to the file branch. */
  lemma FileUnlessSlash(lower: string)
    requires lower == [] || lower[0] != '/'
    ensures Classify(lower) == None
  {
    SwitchNamesStartWithSlash();
    ClassifyIsFirstMatch(lower);
  }

  /** Switch names are matched case-insensitively: upper-casing a token does not change its switch. */
  lemma ClassifyIgnoresCase(current: string)
    ensures Classify(Lower(Upper(current))) == Classify(Lower(current))
  {
    LowerOfUpper(current);
  }

  /** A token without `"` is read on its own: its stripped form, and nothing more is dequeued. */
  lemma QuoteFreeValue(current: string, rest: seq<Token>)
    requires Quote !in current
    ensures ReadValue(current, rest) == (StripToColon(current), 0)
  {
    var s := StripToColon(current);
    assert s == current[|current| - |s|..];
    assert Quote !in s by {
      forall k | 0 <= k < |s|
        ensures s[k] != Quote
      {
        assert s[k] == current[|current| - |s| + k];
      }
    }
  }

  /**
   * Any token not starting with `/` is a file, and the file branch reads it
   * through the same prefix strip as the switches: a file token holding both
   * `/` and `:`, such as `c:/src/a.cs`, is stored without its part up to the first `:`.
   */
  lemma FileTokenStripped(acc: CompilerArguments, current: string, rest: seq<Token>)
    requires (current == [] || current[0] != '/') && Quote !in current
    ensures ParseFrom(acc, [Some(current)] + rest) == ParseFrom(acc.(files := acc.files + [StripToColon(current)]), rest)
  {
    var lower := Lower(current);
    assert lower != [] ==> lower[0] == LowerChar(current[0]);
    FileUnlessSlash(lower);
    QuoteFreeValue(current, rest);
    assert ([Some(current)] + rest)[1..] == rest;
    ParseFromHead(acc, [Some(current)] + rest);
  }

  /** A token that is neither a switch nor holds `/` or `"`. */
  predicate PlainToken(t: Token) {
    '/' !in Coerce(t) && Quote !in Coerce(t)
  }

  /** A plain token at the head is dispatched to the file branch and consumes only itself. */
  lemma PlainHead(acc: CompilerArguments, ts: seq<Token>)
    requires ts != [] && PlainToken(ts[0])
    ensures ParseFrom(acc, ts) == ParseFrom(acc.(files := acc.files + [Coerce(ts[0])]), ts[1..])
  {
    var current := Coerce(ts[0]);
    var lower := Lower(current);
    assert lower != [] ==> lower[0] == LowerChar(current[0]) && current[0] != '/';
    FileUnlessSlash(lower);
    QuoteFreeValue(current, ts[1..]);
    ParseFromHead(acc, ts);
  }

  /**
   * Plain tokens, `null` included, are files, appended in input order and taken
   * as they are; no other field changes.
   */
  lemma {:induction false} PlainTokensAreFiles(acc: CompilerArguments, ts: seq<Token>)
    requires forall i :: 0 <= i < |ts| ==> PlainToken(ts[i])
    ensures ParseFrom(acc, ts) == acc.(files := acc.files + Values(ts))
    decreases |ts|
  {
    if ts == [] {
      assert acc.files + Values(ts) == acc.files;
    } else {
      var next := acc.(files := acc.files + [Coerce(ts[0])]);
      PlainHead(acc, ts);
      PlainTokensAreFiles(next, ts[1..]);
      assert Values(ts) == [Coerce(ts[0])] + Values(ts[1..]);
      FilesTwice(acc, [Coerce(ts[0])], Values(ts[1..]));
    }
  }

  lemma FilesTwice(acc: CompilerArguments, x: seq<string>, y: seq<string>)
    ensures acc.(files := acc.files + x).(files := acc.files + x + y) == acc.(files := acc.files + (x + y))
  {
    assert acc.files + x + y == acc.files + (x + y);
  }

  /** A `null` token on its own yields the single file `""`. */
  lemma NullTokenIsEmptyFile()
    ensures Parse([None]) == Initial.(files := [""])
  {
    PlainTokensAreFiles(Initial, [None]);
  }

  /**
   * Tokens without `"` never pull later tokens into their value, so the queue
   * can be drained in two batches with the same result.
   */
  lemma {:induction false} ParseFromAppend(acc: CompilerArguments, a: seq<Token>, b: seq<Token>)
    requires forall i :: 0 <= i < |a| ==> Quote !in Coerce(a[i])
    ensures ParseFrom(acc, a + b) == ParseFrom(ParseFrom(acc, a), b)
    decreases |a|
  {
    if a == [] {
      assert a + b == b;
    } else {
      var current := Coerce(a[0]);
      var lower := Lower(current);
      var kind := Classify(lower);
      assert (a + b)[0] == a[0];
      assert (a + b)[1..] == a[1..] + b;
      QuoteFreeValue(current, a[1..]);
      QuoteFreeValue(current, a[1..] + b);
      ParseFromHead(acc, a);
      ParseFromHead(acc, a + b);
      var next := Apply(acc, kind, lower, StripToColon(current));
      ParseFromAppend(next, a[1..], b);
    }
  }

  /** How many tokens the pass that dequeues the head of `ts` takes in all. */
  function Taken(ts: seq<Token>): (n: nat)
    requires ts != []
    ensures 1 <= n <= |ts|
  {
    var current := Coerce(ts[0]);
    var lower := Lower(current);
    1 + Consumed(Classify(lower), lower, current, ts[1..])
  }

  /**
   * `Taken` is the count the first pass of the drain takes (the dequeued token
   * and the `Step` count after it), whatever has been accumulated before it.
   */
  lemma TakenIsStep(acc: CompilerArguments, ts: seq<Token>)
    requires ts != []
    ensures Taken(ts) == 1 + Step(acc, Coerce(ts[0]), ts[1..]).1
  {
  }

  /**
   * The queue cut into the pieces the drain takes, one per pass of the loop:
   * the dequeued token followed by the tokens its value consumed.
   */
  function Dispatches(ts: seq<Token>): seq<seq<Token>>
    decreases |ts|
  {
    if ts == [] then [] else [ts[..Taken(ts)]] + Dispatches(ts[Taken(ts)..])
  }

  function Flatten(pieces: seq<seq<Token>>): seq<Token> {
    if pieces == [] then [] else pieces[0] + Flatten(pieces[1..])
  }

  /** A first piece and pieces that flatten to the rest of `ts` flatten to `ts`. */
  lemma FlattenCons(ts: seq<Token>, n: nat, pieces: seq<seq<Token>>)
    requires n <= |ts| && Flatten(pieces) == ts[n..]
    ensures Flatten([ts[..n]] + pieces) == ts
  {
    assert ([ts[..n]] + pieces)[1..] == pieces;
    assert ts[..n] + ts[n..] == ts;
  }

  /** Every token is consumed exactly once and in order: put back together, the pieces are the queue. */
  lemma {:induction false} DispatchesPartition(ts: seq<Token>)
    ensures Flatten(Dispatches(ts)) == ts
    decreases |ts|
  {
    if ts != [] {
      var n := Taken(ts);
      var tail := Dispatches(ts[n..]);
      DispatchesPartition(ts[n..]);
      FlattenCons(ts, n, tail);
    }
  }

  /** Every pass takes at least the token it dequeues, so there are at most as many passes as tokens. */
  lemma {:induction false} DispatchesNonEmpty(ts: seq<Token>)
    ensures forall i :: 0 <= i < |Dispatches(ts)| ==> Dispatches(ts)[i] != []
    ensures |Dispatches(ts)| <= |ts|
    decreases |ts|
  {
    if ts != [] {
      DispatchesNonEmpty(ts[Taken(ts)..]);
    }
  }

  /** Each piece adds at most one entry, so a drain adds at most as many entries as there are tokens. */
  lemma EntriesBound(args: seq<Token>)
    ensures Entries(Parse(args)) <= |args|
  {
    ParseFromGrows(Initial, args);
  }
}
