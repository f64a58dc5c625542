/**
 * The legacy parser's own result record: eleven read-only fields, in the order
 * of its constructor, and the mutable accumulator that freezes into it.
 */
module LegacyArguments {
  import opened Wrappers
  import opened ParsingErrors

  datatype CompilerArguments = CompilerArguments(
    files: seq<string>,
    references: seq<string>,
    resources: seq<string>,
    defines: seq<string>,
    output: Option<string>,
    alignment: int,
    errors: seq<ParsingError>,
    pdbOutput: Option<string>,
    target: Option<string>,
    win32Icon: Option<string>,
    win32Resource: Option<string>)

  /** What a fresh accumulator freezes into. */
  const Initial: CompilerArguments := CompilerArguments([], [], [], [], None, 0, [], None, None, None, None)

  /** Constructing a record and reading it back gives every argument in its own slot. */
  lemma ConstructThenRead(
    files: seq<string>, references: seq<string>, resources: seq<string>, defines: seq<string>,
    output: Option<string>, alignment: int, errors: seq<ParsingError>, pdbOutput: Option<string>,
    target: Option<string>, win32Icon: Option<string>, win32Resource: Option<string>)
    ensures var a := CompilerArguments(files, references, resources, defines, output, alignment,
                                       errors, pdbOutput, target, win32Icon, win32Resource);
      && a.files == files && a.references == references && a.resources == resources
      && a.defines == defines && a.output == output && a.alignment == alignment
      && a.errors == errors && a.pdbOutput == pdbOutput && a.target == target
      && a.win32Icon == win32Icon && a.win32Resource == win32Resource
  {
  }

  /** Five append-only lists and six public scalar fields, assigned directly by the parser. */
  class CompilerArgumentsInternal {
    var files: seq<string>
    var references: seq<string>
    var resources: seq<string>
    var defines: seq<string>
    var errors: seq<ParsingError>
    var output: Option<string>
    var alignment: int
    var pdbOutput: Option<string>
    var target: Option<string>
    var win32Icon: Option<string>
    var win32Resource: Option<string>

    /** All lists empty, every string null, alignment 0. */
    constructor ()
      ensures files == [] && references == [] && resources == [] && defines == [] && errors == []
      ensures output == None && pdbOutput == None && target == None && win32Icon == None && win32Resource == None
      ensures alignment == 0
      ensures ToCompilerArguments() == Initial
    {
      files, references, resources, defines, errors := [], [], [], [], [];
      output, pdbOutput, target, win32Icon, win32Resource := None, None, None, None, None;
      alignment := 0;
    }

    /** The frozen copy, `ToArray` of each list, in the record's constructor order. */
    function ToCompilerArguments(): CompilerArguments
      reads this
    {
      CompilerArguments(files, references, resources, defines, output, alignment, errors,
                        pdbOutput, target, win32Icon, win32Resource)
    }

    /** Each list and scalar lands in its own slot of the frozen copy. */
    lemma SnapshotSlots()
      ensures var r := ToCompilerArguments();
        && r.files == files && r.references == references && r.resources == resources
        && r.defines == defines && r.output == output && r.alignment == alignment
        && r.errors == errors && r.pdbOutput == pdbOutput && r.target == target
        && r.win32Icon == win32Icon && r.win32Resource == win32Resource
    {
    }

    method AddFile(filename: string)
      modifies this
      ensures ToCompilerArguments() == old(ToCompilerArguments()).(files := old(files) + [filename])
    {
      files := files + [filename];
    }

    method AddError(error: ParsingError)
      modifies this
      ensures ToCompilerArguments() == old(ToCompilerArguments()).(errors := old(errors) + [error])
    {
      errors := errors + [error];
    }

    method AddReference(reference: string)
      modifies this
      ensures ToCompilerArguments() == old(ToCompilerArguments()).(references := old(references) + [reference])
    {
      references := references + [reference];
    }

    method AddResource(resource: string)
      modifies this
      ensures ToCompilerArguments() == old(ToCompilerArguments()).(resources := old(resources) + [resource])
    {
      resources := resources + [resource];
    }

    method AddDefine(define: string)
      modifies this
      ensures ToCompilerArguments() == old(ToCompilerArguments()).(defines := old(defines) + [define])
    {
      defines := defines + [define];
    }

    // Each setter below is one direct assignment of a public field, stated as its
    // effect on the frozen copy.

    method SetOutput(value: Option<string>)
      modifies this
      ensures ToCompilerArguments() == old(ToCompilerArguments()).(output := value)
    {
      output := value;
    }

    method SetAlignment(value: int)
      modifies this
      ensures ToCompilerArguments() == old(ToCompilerArguments()).(alignment := value)
    {
      alignment := value;
    }

    method SetPdbOutput(value: Option<string>)
      modifies this
      ensures ToCompilerArguments() == old(ToCompilerArguments()).(pdbOutput := value)
    {
      pdbOutput := value;
    }

    method SetTarget(value: Option<string>)
      modifies this
      ensures ToCompilerArguments() == old(ToCompilerArguments()).(target := value)
    {
      target := value;
    }

    method SetWin32Icon(value: Option<string>)
      modifies this
      ensures ToCompilerArguments() == old(ToCompilerArguments()).(win32Icon := value)
    {
      win32Icon := value;
    }

    method SetWin32Resource(value: Option<string>)
      modifies this
      ensures ToCompilerArguments() == old(ToCompilerArguments()).(win32Resource := value)
    {
      win32Resource := value;
    }
  }
}

/**
 * The legacy command-line parser: the same drain as the current one over a
 * smaller table of switches, each of which is removed from its token by a
 * case-sensitive `Replace` of the switch name instead of a cut at the first `:`.
 */
module LegacyBuilder {
  import opened Wrappers
  import opened Text
  import opened Numerals
  import opened Tokens
  import opened QuotedValues
  import opened ParsingErrors
  import opened LegacyArguments
  import opened SwitchTables

  datatype Switch = Reference | Resource | Define | Output | Pdb | Align | Target | Win32Icon | Win32Resource

  /** The switch names, as the constants of the source spell them. */
  function Name(sw: Switch): (name: string)
    ensures name != []
  {
    match sw
    case Reference => "/reference:"
    case Resource => "/resource:"
    case Define => "/define:"
    case Output => "/output:"
    case Pdb => "/pdb:"
    case Align => "/align:"
    case Target => "/target:"
    case Win32Icon => "/win32icon:"
    case Win32Resource => "/win32res:"
  }

  /** The switches in the order the dispatcher tries them. */
  const Switches: seq<(string, Switch)> := [
    (Name(Reference), Reference), (Name(Resource), Resource), (Name(Define), Define),
    (Name(Output), Output), (Name(Pdb), Pdb), (Name(Align), Align), (Name(Target), Target),
    (Name(Win32Icon), Win32Icon), (Name(Win32Resource), Win32Resource)]

  /** The switch a lower-cased token introduces; `None` for a file. */
  function Classify(lower: string): Option<Switch> {
    Lookup(lower, Switches)
  }

  /** The `named` argument of the reader: the switch name, or `null` for a file. */
  function Named(kind: Option<Switch>): (named: Option<string>)
    ensures named.Some? ==> named.value != []
  {
    match kind
    case None => None
    case Some(sw) => Some(Name(sw))
  }

  /** The legacy strip: every occurrence of the switch name, in its lower-case spelling, is deleted. */
  function Strip(first: string, named: Option<string>): string
    requires named.Some? ==> named.value != []
  {
    if named.Some? then ReplaceAll(first, named.value) else first
  }

  /** `GetPossiblyQuotedString(first, args, named)`: the value and how many further tokens it consumes. */
  function ReadValue(first: string, named: Option<string>, rest: seq<Token>): (r: (string, nat))
    requires named.Some? ==> named.value != []
    ensures r.1 <= |rest| && Quote !in r.0
  {
    ReadQuoted(Strip(first, named), rest)
  }

  /** `/align:` with value `v`: the parsed `int`, or 0 together with one error. */
  function SetAlign(acc: CompilerArguments, v: string): CompilerArguments {
    var parsed := TryParseInt32(v);
    acc.(errors := if parsed.None? then acc.errors + [AlignmentError] else acc.errors,
         alignment := parsed.GetOr(0))
  }

  /** The branch of the dispatch chain for a token of kind `kind` whose reader value is `v`. */
  function Apply(acc: CompilerArguments, kind: Option<Switch>, v: string): CompilerArguments {
    match kind
    case None => acc.(files := acc.files + [v])
    case Some(Reference) => acc.(references := acc.references + [v])
    case Some(Resource) => acc.(resources := acc.resources + [v])
    case Some(Define) => acc.(defines := acc.defines + [v])
    case Some(Output) => acc.(output := Some(v))
    case Some(Pdb) => acc.(pdbOutput := Some(v))
    case Some(Align) => SetAlign(acc, v)
    case Some(Target) => acc.(target := Some(v))
    case Some(Win32Icon) => acc.(win32Icon := Some(v))
    case Some(Win32Resource) => acc.(win32Resource := Some(v))
  }

  /**
   * Draining the whole queue `ts` into `acc`: every branch reads a value, so each
   * pass takes the head and the tokens that value needs.
   */
  function ParseFrom(acc: CompilerArguments, ts: seq<Token>): CompilerArguments
    decreases |ts|
  {
    if ts == [] then acc
    else
      var current := Coerce(ts[0]);
      var kind := Classify(Lower(current));
      var (v, n) := ReadValue(current, Named(kind), ts[1..]);
      ParseFrom(Apply(acc, kind, v), ts[1 + n..])
  }

  /** Draining a non-empty queue is one dispatch of its head, then draining what that dispatch leaves. */
  lemma ParseFromHead(acc: CompilerArguments, ts: seq<Token>)
    requires ts != []
    ensures var current := Coerce(ts[0]);
      var kind := Classify(Lower(current));
      var r := ReadValue(current, Named(kind), ts[1..]);
      ParseFrom(acc, ts) == ParseFrom(Apply(acc, kind, r.0), ts[1..][r.1..])
  {
  }

  /** `BuildFrom(args)` on values: draining `args` into a fresh accumulator. */
  function Parse(args: seq<Token>): CompilerArguments {
    ParseFrom(Initial, args)
  }

  method GetPossiblyQuotedString(first: string, args: TokenQueue, named: Option<string>) returns (value: string)
    requires named.Some? ==> named.value != []
    modifies args
    ensures value == ReadValue(first, named, old(args.items)).0
    ensures args.items == old(args.items)[ReadValue(first, named, old(args.items)).1..]
  {
    var s := first;
    if named.Some? {
      s := ReplaceAll(s, named.value);
    }
    value := ReadFrom(s, args);
  }

  method AssignAlign(ret: CompilerArgumentsInternal, v: string)
    modifies ret
    ensures ret.ToCompilerArguments() == SetAlign(old(ret.ToCompilerArguments()), v)
  {
    var parsed := TryParseInt32(v);
    if parsed.None? {
      ret.AddError(AlignmentError);
    }
    ret.SetAlignment(parsed.GetOr(0));
  }

  /** The body of the dispatch loop for the dequeued token `current`, already classified. */
  method Handle(ret: CompilerArgumentsInternal, kind: Option<Switch>, current: string, pieces: TokenQueue)
    modifies ret, pieces
    ensures var r := ReadValue(current, Named(kind), old(pieces.items));
      && ret.ToCompilerArguments() == Apply(old(ret.ToCompilerArguments()), kind, r.0)
      && pieces.items == old(pieces.items)[r.1..]
  {
    var v := GetPossiblyQuotedString(current, pieces, Named(kind));
    match kind {
      case None => ret.AddFile(v);
      case Some(Reference) => ret.AddReference(v);
      case Some(Resource) => ret.AddResource(v);
      case Some(Define) => ret.AddDefine(v);
      case Some(Output) => ret.SetOutput(Some(v));
      case Some(Pdb) => ret.SetPdbOutput(Some(v));
      case Some(Align) => AssignAlign(ret, v);
      case Some(Target) => ret.SetTarget(Some(v));
      case Some(Win32Icon) => ret.SetWin32Icon(Some(v));
      case Some(Win32Resource) => ret.SetWin32Resource(Some(v));
    }
  }

  /** `CommandLineArgumentsBuilder.BuildFrom`: drains the queue, then freezes the accumulator. */
  method BuildFrom(args: seq<Token>) returns (r: CompilerArguments)
    ensures r == Parse(args)
  {
    var ret := new CompilerArgumentsInternal();
    var pieces := new TokenQueue(args);
    while pieces.Count() > 0
      invariant ParseFrom(ret.ToCompilerArguments(), pieces.items) == Parse(args)
      decreases |pieces.items|
    {
      ParseFromHead(ret.ToCompilerArguments(), pieces.items);
      var t := pieces.Dequeue();
      var current := Coerce(t);
      Handle(ret, Classify(Lower(current)), current, pieces);
    }
    r := ret.ToCompilerArguments();
  }
}
