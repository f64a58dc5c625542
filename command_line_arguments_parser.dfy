/**
 * The current command-line parser: drains the token queue, dispatching each
 * lower-cased token by the first switch name it starts with, and fills in an
 * `Accumulator.CompilerArgumentsInternal`. `Step` and `ParseFrom` specify one
 * dispatch and the whole drain on values; `Handle` and `BuildFrom` are the
 * imperative code, proved to agree with them.
 */
module Parser {
  import opened Wrappers
  import opened Text
  import opened Numerals
  import opened Tokens
  import opened QuotedValues
  import opened ParsingErrors
  import opened Arguments
  import opened Accumulator
  import opened SwitchTables

  /** The three lists a switch appends its value to, and the seven text fields a switch sets. */
  datatype ListField = References | Resources | Defines
  datatype TextField = Output | Pdb | Target | Win32Icon | Win32Resource | MainClass | Platform
  /** The two fields a switch sets to its value parsed as an `int`, and the three on/off toggles. */
  datatype NumberField = Alignment | WarnLevel
  datatype ToggleField = Optimize | Checked | NoStdLib

  datatype SwitchKind =
    | ListArg(list: ListField)
    | TextArg(text: TextField)
    | NumberArg(number: NumberField)
    | ToggleArg(toggle: ToggleField)
    | NoWarnArg
    | NoConfigArg
    | DebugArg

  const OptimizeName: string := "/optimize"
  const CheckedName: string := "/checked"
  const NoStdLibName: string := "/nostdlib"
  const DebugName: string := "/debug"

  /** The switch names in the order the dispatcher tries them. */
  const Switches: seq<(string, SwitchKind)> := [
    ("/reference:", ListArg(References)), ("/r:", ListArg(References)),
    ("/resource:", ListArg(Resources)), ("/res:", ListArg(Resources)),
    ("/define:", ListArg(Defines)), ("/d:", ListArg(Defines)),
    ("/out:", TextArg(Output)), ("/pdb:", TextArg(Pdb)),
    ("/filealign:", NumberArg(Alignment)), ("/warn:", NumberArg(WarnLevel)),
    ("/target:", TextArg(Target)), ("/win32icon:", TextArg(Win32Icon)),
    ("/win32res:", TextArg(Win32Resource)), ("/main:", TextArg(MainClass)),
    ("/platform:", TextArg(Platform)),
    (OptimizeName, ToggleArg(Optimize)), (CheckedName, ToggleArg(Checked)), ("/nowarn:", NoWarnArg),
    (NoStdLibName, ToggleArg(NoStdLib)), ("/noconfig", NoConfigArg), (DebugName, DebugArg)]

  /** The switch a lower-cased token introduces: the first in `Switches` it starts with; `None` for a file. */
  function Classify(lower: string): Option<SwitchKind> {
    Lookup(lower, Switches)
  }

  function ToggleName(f: ToggleField): string {
    match f
    case Optimize => OptimizeName
    case Checked => CheckedName
    case NoStdLib => NoStdLibName
  }

  /** The error a numeric switch records when its value is not an `int`. */
  function NumberError(f: NumberField): ParsingError {
    match f
    case Alignment => AlignmentError
    case WarnLevel => WarningLevelError
  }

  /**
   * The reader's prefix strip: a token holding `/` loses everything up to and
   * including its first `:`; one without `/`, or without `:`, is kept whole.
   */
  function StripToColon(first: string): (r: string)
    ensures '/' !in first || ':' !in first ==> r == first
    ensures '/' in first && ':' in first ==>
      |r| < |first| && first[|first| - |r| - 1] == ':' && ':' !in first[..|first| - |r| - 1]
    ensures r == first[|first| - |r|..]
  {
    if '/' in first then
      var colon := IndexOf(first, ':');
      first[colon + 1..]
    else first
  }

  /** `GetPossiblyQuotedString(first, args)`: the value and how many further tokens it consumes. */
  function ReadValue(first: string, rest: seq<Token>): (r: (string, nat))
    ensures r.1 <= |rest| && Quote !in r.0
  {
    ReadQuoted(StripToColon(first), rest)
  }

  /** The toggle rule of `/optimize`, `/checked` and `/nostdlib`. */
  predicate Toggle(lower: string, name: string) {
    '+' in lower || lower == name
  }

  /** `AddReference`, `AddResource` or `AddDefine`: one more entry at the end of that list. */
  function AppendTo(acc: CompilerArguments, f: ListField, v: string): CompilerArguments {
    acc.(references := if f == References then acc.references + [v] else acc.references,
         resources := if f == Resources then acc.resources + [v] else acc.resources,
         defines := if f == Defines then acc.defines + [v] else acc.defines)
  }

  /** Assigning one of the seven text fields; no list changes. */
  function SetText(acc: CompilerArguments, f: TextField, v: Option<string>): CompilerArguments {
    acc.(output := if f == Output then v else acc.output,
         pdbOutput := if f == Pdb then v else acc.pdbOutput,
         target := if f == Target then v else acc.target,
         win32Icon := if f == Win32Icon then v else acc.win32Icon,
         win32Resource := if f == Win32Resource then v else acc.win32Resource,
         main := if f == MainClass then v else acc.main,
         platform := if f == Platform then v else acc.platform)
  }

  /**
   * `/filealign:` or `/warn:` with value `v`: the field gets the parsed `int`,
   * or 0 together with one error when `v` is not an `int`.
   */
  function SetNumber(acc: CompilerArguments, f: NumberField, v: string): CompilerArguments {
    var parsed := TryParseInt32(v);
    var errors := if parsed.None? then acc.errors + [NumberError(f)] else acc.errors;
    acc.(errors := errors,
         alignment := if f == Alignment then parsed.GetOr(0) else acc.alignment,
         warnLevel := if f == WarnLevel then parsed.GetOr(0) else acc.warnLevel)
  }

  /** `/nowarn:` with value `v`: every piece of `v` split at `,` and `;`, in order, empty pieces included. */
  function AddFilters(acc: CompilerArguments, v: string): CompilerArguments {
    acc.(warningFilters := acc.warningFilters + Split(v))
  }

  /** Assigning one of the three toggles; no list changes. */
  function SetToggle(acc: CompilerArguments, f: ToggleField, b: bool): CompilerArguments {
    acc.(optimize := if f == Optimize then b else acc.optimize,
         checked := if f == Checked then b else acc.checked,
         noStdLib := if f == NoStdLib then b else acc.noStdLib)
  }

  /**
   * The `/debug` branch: `+` or the bare switch means FULL, `/debug-` means NONE,
   * any other form with a `:` takes the value upper-cased; anything else leaves
   * the level unchanged.
   */
  function DebugLevelAfter(level: Option<string>, lower: string, v: string): Option<string> {
    if '+' in lower || lower == DebugName then Some("FULL")
    else if lower == DebugName + "-" then Some("NONE")
    else if ':' in lower then Some(Upper(v))
    else level
  }

  /** Setting the debug level as the `/debug` branch does. */
  function SetDebug(acc: CompilerArguments, lower: string, v: string): CompilerArguments {
    acc.(debugLevel := DebugLevelAfter(acc.debugLevel, lower, v))
  }

  /** Whether the branch for `kind` calls the value reader at all. */
  predicate ReadsValue(kind: Option<SwitchKind>, lower: string) {
    match kind
    case Some(ToggleArg(_)) => false
    case Some(NoConfigArg) => false
    case Some(DebugArg) => !('+' in lower || lower == DebugName) && lower != DebugName + "-" && ':' in lower
    case _ => true
  }

  /** How many tokens after `current` the branch for `kind` takes off the queue. */
  function Consumed(kind: Option<SwitchKind>, lower: string, current: string, rest: seq<Token>): (n: nat)
    ensures n <= |rest|
    ensures !ReadsValue(kind, lower) ==> n == 0
  {
    if ReadsValue(kind, lower) then ReadValue(current, rest).1 else 0
  }

  /**
   * The branch of the dispatch chain for a token of kind `kind` (lower-cased:
   * `lower`) whose reader value is `v`: the new accumulator.
   */
  function Apply(acc: CompilerArguments, kind: Option<SwitchKind>, lower: string, v: string): CompilerArguments {
    match kind
    case None => acc.(files := acc.files + [v])
    case Some(ListArg(f)) => AppendTo(acc, f, v)
    case Some(TextArg(f)) => SetText(acc, f, Some(v))
    case Some(NumberArg(f)) => SetNumber(acc, f, v)
    case Some(ToggleArg(f)) => SetToggle(acc, f, Toggle(lower, ToggleName(f)))
    case Some(NoWarnArg) => AddFilters(acc, v)
    case Some(NoConfigArg) => acc.(noConfig := true)
    case Some(DebugArg) => SetDebug(acc, lower, v)
  }

  /**
   * One pass of the dispatch loop on the dequeued token `current`, with `rest`
   * still in the queue: the new accumulator and how many tokens of `rest` it consumed.
   */
  function Step(acc: CompilerArguments, current: string, rest: seq<Token>): (r: (CompilerArguments, nat))
    ensures r.1 <= |rest|
  {
    var lower := Lower(current);
    var kind := Classify(lower);
    (Apply(acc, kind, lower, ReadValue(current, rest).0), Consumed(kind, lower, current, rest))
  }

  /**
   * Draining the whole queue `ts` into `acc`. Every token is consumed exactly
   * once: each step takes the head and the `n <= |rest|` tokens its value needs.
   */
  function ParseFrom(acc: CompilerArguments, ts: seq<Token>): CompilerArguments
    decreases |ts|
  {
    if ts == [] then acc
    else
      var (next, n) := Step(acc, Coerce(ts[0]), ts[1..]);
      ParseFrom(next, ts[1 + n..])
  }

  /** Draining a non-empty queue is one dispatch of its head, then draining what that dispatch leaves. */
  lemma ParseFromHead(acc: CompilerArguments, ts: seq<Token>)
    requires ts != []
    ensures var current := Coerce(ts[0]);
      var lower := Lower(current);
      var kind := Classify(lower);
      ParseFrom(acc, ts)
      == ParseFrom(Apply(acc, kind, lower, ReadValue(current, ts[1..]).0), ts[1..][Consumed(kind, lower, current, ts[1..])..])
  {
  }

  /** `BuildFrom(args)` on values: draining `args` into a fresh accumulator. */
  function Parse(args: seq<Token>): CompilerArguments {
    ParseFrom(Initial, args)
  }

  method GetPossiblyQuotedString(first: string, args: TokenQueue) returns (value: string)
    modifies args
    ensures value == ReadValue(first, old(args.items)).0
    ensures args.items == old(args.items)[ReadValue(first, old(args.items)).1..]
  {
    var s := first;
    if '/' in s {
      var colon := IndexOf(s, ':');
      s := s[colon + 1..];
    }
    assert s == StripToColon(first);
    value := ReadFrom(s, args);
  }

  method AddToList(ret: CompilerArgumentsInternal, f: ListField, v: string)
    modifies ret
    ensures ret.ToCompilerArguments() == AppendTo(old(ret.ToCompilerArguments()), f, v)
  {
    match f {
      case References => ret.AddReference(v);
      case Resources => ret.AddResource(v);
      case Defines => ret.AddDefine(v);
    }
  }

  method AssignText(ret: CompilerArgumentsInternal, f: TextField, v: string)
    modifies ret
    ensures ret.ToCompilerArguments() == SetText(old(ret.ToCompilerArguments()), f, Some(v))
  {
    match f {
      case Output => ret.SetOutput(Some(v));
      case Pdb => ret.SetPdbOutput(Some(v));
      case Target => ret.SetTarget(Some(v));
      case Win32Icon => ret.SetWin32Icon(Some(v));
      case Win32Resource => ret.SetWin32Resource(Some(v));
      case MainClass => ret.SetMain(Some(v));
      case Platform => ret.SetPlatform(Some(v));
    }
  }

  method AssignNumber(ret: CompilerArgumentsInternal, f: NumberField, v: string)
    modifies ret
    ensures ret.ToCompilerArguments() == SetNumber(old(ret.ToCompilerArguments()), f, v)
  {
    var parsed := TryParseInt32(v);
    if parsed.None? {
      ret.AddError(NumberError(f));
    }
    match f {
      case Alignment => ret.SetAlignment(parsed.GetOr(0));
      case WarnLevel => ret.SetWarningLevel(parsed.GetOr(0));
    }
  }

  method ReadArgument(kind: Option<SwitchKind>, lower: string, current: string, pieces: TokenQueue) returns (v: string)
    requires ReadsValue(kind, lower)
    modifies pieces
    ensures v == ReadValue(current, old(pieces.items)).0
    ensures pieces.items == old(pieces.items)[Consumed(kind, lower, current, old(pieces.items))..]
  {
    v := GetPossiblyQuotedString(current, pieces);
  }

  method AppendFilters(ret: CompilerArgumentsInternal, v: string)
    modifies ret
    ensures ret.ToCompilerArguments() == AddFilters(old(ret.ToCompilerArguments()), v)
  {
    ret.AddWarningFilters(Split(v));
  }

  method AssignToggle(ret: CompilerArgumentsInternal, f: ToggleField, b: bool)
    modifies ret
    ensures ret.ToCompilerArguments() == SetToggle(old(ret.ToCompilerArguments()), f, b)
  {
    match f {
      case Optimize => ret.SetOptimize(b);
      case Checked => ret.SetIsChecked(b);
      case NoStdLib => ret.SetNoStdLib(b);
    }
  }

  method AssignDebug(ret: CompilerArgumentsInternal, current: string, lower: string, pieces: TokenQueue)
    modifies ret, pieces
    ensures ret.ToCompilerArguments() == SetDebug(old(ret.ToCompilerArguments()), lower, ReadValue(current, old(pieces.items)).0)
    ensures pieces.items == old(pieces.items)[Consumed(Some(DebugArg), lower, current, old(pieces.items))..]
  {
    ghost var before, v0 := ret.ToCompilerArguments(), ReadValue(current, pieces.items).0;
    if '+' in lower || lower == DebugName {
      assert DebugLevelAfter(before.debugLevel, lower, v0) == Some("FULL");
      ret.SetDebugLevel(Some("FULL"));
    } else if lower == DebugName + "-" {
      assert DebugLevelAfter(before.debugLevel, lower, v0) == Some("NONE");
      ret.SetDebugLevel(Some("NONE"));
    } else if ':' in lower {
      var v := GetPossiblyQuotedString(current, pieces);
      assert DebugLevelAfter(before.debugLevel, lower, v0) == Some(Upper(v));
      ret.SetDebugLevel(Some(Upper(v)));
    } else {
      assert SetDebug(before, lower, v0) == before;
    }
  }

  /** The body of the dispatch loop for the dequeued token `current`, already classified. */
  method Handle(ret: CompilerArgumentsInternal, kind: Option<SwitchKind>, lower: string, current: string, pieces: TokenQueue)
    modifies ret, pieces
    ensures ret.ToCompilerArguments() == Apply(old(ret.ToCompilerArguments()), kind, lower, ReadValue(current, old(pieces.items)).0)
    ensures pieces.items == old(pieces.items)[Consumed(kind, lower, current, old(pieces.items))..]
  {
    match kind {
      case None =>
        var v := ReadArgument(kind, lower, current, pieces);
        ret.AddFile(v);
      case Some(ListArg(f)) =>
        var v := ReadArgument(kind, lower, current, pieces);
        AddToList(ret, f, v);
      case Some(TextArg(f)) =>
        var v := ReadArgument(kind, lower, current, pieces);
        AssignText(ret, f, v);
      case Some(NumberArg(f)) =>
        var v := ReadArgument(kind, lower, current, pieces);
        AssignNumber(ret, f, v);
      case Some(ToggleArg(f)) =>
        AssignToggle(ret, f, '+' in lower || lower == ToggleName(f));
      case Some(NoWarnArg) =>
        var v := ReadArgument(kind, lower, current, pieces);
        AppendFilters(ret, v);
      case Some(NoConfigArg) =>
        ret.SetNoConfig(true);
      case Some(DebugArg) =>
        AssignDebug(ret, current, lower, pieces);
    }
  }

  /** `CommandLineArgumentsParser.BuildFrom`: drains the queue, then freezes the accumulator. */
  method BuildFrom(args: seq<Token>) returns (r: CompilerArguments)
    ensures r == Parse(args)
  {
    var ret := new CompilerArgumentsInternal();
    var pieces := new TokenQueue(args);
    while pieces.Count() > 0
      invariant ParseFrom(ret.ToCompilerArguments(), pieces.items) == Parse(args)
      decreases |pieces.items|
    {
      ParseFromHead(ret.ToCompilerArguments(), pieces.items);
      var t := pieces.Dequeue();
      var current := Coerce(t);
      var lower := Lower(current);
      Handle(ret, Classify(lower), lower, current, pieces);
    }
    r := ret.ToCompilerArguments();
  }
}
