/**
 * The mutable accumulator the current parser fills in: six append-only lists and
 * fourteen public scalar fields that the parser assigns directly (last write wins),
 * frozen at the end into an `Arguments.CompilerArguments` value.
 */
module Accumulator {
  import opened Wrappers
  import opened ParsingErrors
  import opened Arguments

  /** What a fresh accumulator freezes into. */
  const Initial: CompilerArguments :=
    CompilerArguments([], [], [], [], None, 0, [], None, None, None, None,
                      false, None, None, false, Some("NONE"), 0, [], false, false)

  class CompilerArgumentsInternal {
    var files: seq<string>
    var references: seq<string>
    var resources: seq<string>
    var defines: seq<string>
    var errors: seq<ParsingError>
    var warningFilter: seq<string>
    var output: Option<string>
    var alignment: int
    var pdbOutput: Option<string>
    var target: Option<string>
    var win32Icon: Option<string>
    var win32Resource: Option<string>
    var optimize: bool
    var main: Option<string>
    var platform: Option<string>
    var isChecked: bool
    var debugLevel: Option<string>
    var warningLevel: int
    var noStdLib: bool
    var noConfig: bool

    /** All lists empty, strings null except a debug level of "NONE", zeros and falses. */
    constructor ()
      ensures files == [] && references == [] && resources == [] && defines == []
      ensures errors == [] && warningFilter == []
      ensures output == None && pdbOutput == None && target == None && win32Icon == None
      ensures win32Resource == None && main == None && platform == None
      ensures debugLevel == Some("NONE")
      ensures alignment == 0 && warningLevel == 0
      ensures !optimize && !isChecked && !noStdLib && !noConfig
      ensures ToCompilerArguments() == Initial
    {
      files, references, resources, defines := [], [], [], [];
      errors, warningFilter := [], [];
      output, pdbOutput, target, win32Icon, win32Resource := None, None, None, None, None;
      main, platform := None, None;
      debugLevel := Some("NONE");
      alignment, warningLevel := 0, 0;
      optimize, isChecked, noStdLib, noConfig := false, false, false, false;
    }

    /** The frozen copy: `ToArray` of each list, and the scalars, in the record's constructor order. */
    function ToCompilerArguments(): CompilerArguments
      reads this
    {
      CompilerArguments(files, references, resources, defines, output,
                        alignment, errors, pdbOutput, target, win32Icon, win32Resource,
                        optimize, platform, main, isChecked, debugLevel, warningLevel, warningFilter,
                        noStdLib, noConfig)
    }

    /**
     * Each list and scalar lands in its own slot of the frozen copy
     * (`Platform` before `Main`, as the record's constructor takes them).
     */
    lemma SnapshotSlots()
      ensures var r := ToCompilerArguments();
        && r.files == files && r.references == references && r.resources == resources
        && r.defines == defines && r.errors == errors && r.warningFilters == warningFilter
        && r.output == output && r.alignment == alignment && r.pdbOutput == pdbOutput
        && r.target == target && r.win32Icon == win32Icon && r.win32Resource == win32Resource
        && r.optimize == optimize && r.platform == platform && r.main == main
        && r.checked == isChecked && r.debugLevel == debugLevel && r.warnLevel == warningLevel
        && r.noStdLib == noStdLib && r.noConfig == noConfig
    {
    }

    method AddFile(filename: string)
      modifies this
      ensures ToCompilerArguments() == old(ToCompilerArguments()).(files := old(files) + [filename])
    {
      files := files + [filename];
    }

    method AddError(error: ParsingError)
      modifies this
      ensures ToCompilerArguments() == old(ToCompilerArguments()).(errors := old(errors) + [error])
    {
      errors := errors + [error];
    }

    method AddReference(reference: string)
      modifies this
      ensures ToCompilerArguments() == old(ToCompilerArguments()).(references := old(references) + [reference])
    {
      references := references + [reference];
    }

    method AddWarningFilter(filter: string)
      modifies this
      ensures ToCompilerArguments() == old(ToCompilerArguments()).(warningFilters := old(warningFilter) + [filter])
    {
      warningFilter := warningFilter + [filter];
    }

    /** The `IEnumerable` overload: all pieces, in their order. */
    method AddWarningFilters(filters: seq<string>)
      modifies this
      ensures ToCompilerArguments() == old(ToCompilerArguments()).(warningFilters := old(warningFilter) + filters)
    {
      warningFilter := warningFilter + filters;
    }

    method AddResource(resource: string)
      modifies this
      ensures ToCompilerArguments() == old(ToCompilerArguments()).(resources := old(resources) + [resource])
    {
      resources := resources + [resource];
    }

    method AddDefine(define: string)
      modifies this
      ensures ToCompilerArguments() == old(ToCompilerArguments()).(defines := old(defines) + [define])
    {
      defines := defines + [define];
    }

    // The public scalar fields are assigned directly by the parser; each setter below is
    // one such assignment, stated as its effect on the frozen copy.

    method SetOutput(value: Option<string>)
      modifies this
      ensures ToCompilerArguments() == old(ToCompilerArguments()).(output := value)
    {
      output := value;
    }

    method SetAlignment(value: int)
      modifies this
      ensures ToCompilerArguments() == old(ToCompilerArguments()).(alignment := value)
    {
      alignment := value;
    }

    method SetPdbOutput(value: Option<string>)
      modifies this
      ensures ToCompilerArguments() == old(ToCompilerArguments()).(pdbOutput := value)
    {
      pdbOutput := value;
    }

    method SetTarget(value: Option<string>)
      modifies this
      ensures ToCompilerArguments() == old(ToCompilerArguments()).(target := value)
    {
      target := value;
    }

    method SetWin32Icon(value: Option<string>)
      modifies this
      ensures ToCompilerArguments() == old(ToCompilerArguments()).(win32Icon := value)
    {
      win32Icon := value;
    }

    method SetWin32Resource(value: Option<string>)
      modifies this
      ensures ToCompilerArguments() == old(ToCompilerArguments()).(win32Resource := value)
    {
      win32Resource := value;
    }

    method SetOptimize(value: bool)
      modifies this
      ensures ToCompilerArguments() == old(ToCompilerArguments()).(optimize := value)
    {
      optimize := value;
    }

    method SetMain(value: Option<string>)
      modifies this
      ensures ToCompilerArguments() == old(ToCompilerArguments()).(main := value)
    {
      main := value;
    }

    method SetPlatform(value: Option<string>)
      modifies this
      ensures ToCompilerArguments() == old(ToCompilerArguments()).(platform := value)
    {
      platform := value;
    }

    method SetIsChecked(value: bool)
      modifies this
      ensures ToCompilerArguments() == old(ToCompilerArguments()).(checked := value)
    {
      isChecked := value;
    }

    method SetDebugLevel(value: Option<string>)
      modifies this
      ensures ToCompilerArguments() == old(ToCompilerArguments()).(debugLevel := value)
    {
      debugLevel := value;
    }

    method SetWarningLevel(value: int)
      modifies this
      ensures ToCompilerArguments() == old(ToCompilerArguments()).(warnLevel := value)
    {
      warningLevel := value;
    }

    method SetNoStdLib(value: bool)
      modifies this
      ensures ToCompilerArguments() == old(ToCompilerArguments()).(noStdLib := value)
    {
      noStdLib := value;
    }

    method SetNoConfig(value: bool)
      modifies this
      ensures ToCompilerArguments() == old(ToCompilerArguments()).(noConfig := value)
    {
      noConfig := value;
    }
  }
}
