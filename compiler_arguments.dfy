/**
 * The immutable result of the current parser: twenty read-only fields, in the
 * order of the record's constructor. The getters of the record are the
 * destructors of the datatype, so each returns exactly what was passed for its
 * field, and no operation can change a value once it is built.
 */
module Arguments {
  import opened Wrappers
  import opened ParsingErrors

  datatype CompilerArguments = CompilerArguments(
    files: seq<string>,
    references: seq<string>,
    resources: seq<string>,
    defines: seq<string>,
    output: Option<string>,
    alignment: int,
    errors: seq<ParsingError>,
    pdbOutput: Option<string>,
    target: Option<string>,
    win32Icon: Option<string>,
    win32Resource: Option<string>,
    optimize: bool,
    platform: Option<string>,
    main: Option<string>,
    checked: bool,
    debugLevel: Option<string>,
    warnLevel: int,
    warningFilters: seq<string>,
    noStdLib: bool,
    noConfig: bool)

  /** Constructing a record and reading it back gives every argument in its own slot. */
  lemma ConstructThenRead(
    files: seq<string>, references: seq<string>, resources: seq<string>, defines: seq<string>,
    output: Option<string>, alignment: int, errors: seq<ParsingError>, pdbOutput: Option<string>,
    target: Option<string>, win32Icon: Option<string>, win32Resource: Option<string>,
    optimize: bool, platform: Option<string>, main: Option<string>, isChecked: bool,
    debugLevel: Option<string>, warnLevel: int, warningFilters: seq<string>,
    noStdLib: bool, noConfig: bool)
    ensures var a := CompilerArguments(files, references, resources, defines, output, alignment,
                                       errors, pdbOutput, target, win32Icon, win32Resource,
                                       optimize, platform, main, isChecked, debugLevel, warnLevel,
                                       warningFilters, noStdLib, noConfig);
      && a.files == files && a.references == references && a.resources == resources
      && a.defines == defines && a.output == output && a.alignment == alignment
      && a.errors == errors && a.pdbOutput == pdbOutput && a.target == target
      && a.win32Icon == win32Icon && a.win32Resource == win32Resource
      && a.optimize == optimize && a.platform == platform && a.main == main
      && a.checked == isChecked && a.debugLevel == debugLevel && a.warnLevel == warnLevel
      && a.warningFilters == warningFilters && a.noStdLib == noStdLib && a.noConfig == noConfig
  {
  }
}
