# Command-line arguments of the Roslyn harness, modelled in Dafny

The harness turns a C# compiler command line into an immutable `CompilerArguments`
record. This model covers the two parsers that do that work, and the types they fill in.

- **`CommandLineArgumentsParser.BuildFrom`** is the current parser. It drains a FIFO
  queue of argument tokens. Each token is lower-cased, then dispatched to the first
  switch in a fixed table of 21 names that it starts with. A token that matches no
  name is a file. Each value goes through `GetPossiblyQuotedString`, which works in
  three steps:
  - It cuts the value at the first `:` when the token holds a `/`.
  - A value without a `"` is taken as it is. A value with two or more `"`
    loses them.
  - A value with exactly one `"` opens a quote. The reader rebuilds the quoted
    value from the following tokens, joined by single spaces, up to the first token
    that holds a `"`.

  The results land in a mutable `CompilerArgumentsInternal`, whose lists only grow
  and whose scalar fields are overwritten. At the end it is frozen into the 20-field
  record.
  - `/optimize`, `/checked` and `/nostdlib` are set when the token holds `+` or is
    the bare name.
  - `/debug` has a small grammar of its own.
  - `/filealign:` and `/warn:` parse an `int`. On failure they store 0 and record a
    `ParsingError`.
  - `/nowarn:` splits its value at `,` and `;`.
- **`CommandLineArgumentsBuilder.BuildFrom`** is the legacy parser. It works the same
  way, with nine switches (`/output:`, `/align:`, …) and its own 11-field
  accumulator and record. It strips the switch name with the case-sensitive
  `Replace(name, "")` of the lower-case name, not with a cut at the first `:`.
- **`Initializer.GetAssemblyKindFrom`** maps the `/target:` value to an assembly kind.

Both imperative parsers are written as imperative Dafny:
- a class `TokenQueue` (the `Queue<string>`);
- the accumulator classes, with `modifies` clauses;
- `while` loops with invariants.

Each one is proved equal to a specification function on values. `Parser.ParseFrom`
and `LegacyBuilder.ParseFrom` each drain the queue one dispatch at a time. The
properties of the parsers are stated and proved as lemmas about those functions.
The quote rebuilding is one module, `QuotedValues`, because both readers contain the
same code after their different prefix strips. The .NET string and number
operations the parsers call (`ToLower`, `IndexOf`, `Replace`, `Split`,
`int.TryParse`) are modelled in `Text` and `Numerals`.

Modelling conventions:
- A token is an `Option<string>`, where `None` is C#'s `null`. Every dequeue site
  reads `null` as `""`.
- Every string field of the accumulators and records is an `Option<string>`, since
  its C# default is `null`. The current accumulator's debug level starts as
  `Some("NONE")`.
- The records are datatypes. Their getters are the destructors, so a record cannot
  change after it is built. A snapshot taken by `ToCompilerArguments` is a value:
  later `Add*` calls on the accumulator cannot reach it, just as the `ToArray`
  copies of the source guarantee.

## Model

Some definitions carry no contract of their own: `Parser.Classify`, `Parser.Apply`, `Parser.ParseFrom`, `Parser.Toggle`, `Parser.DebugLevelAfter`, `Parser.SetDebug`, `Parser.SetNumber`, `Parser.AddFilters`, `LegacyBuilder.Strip`, `LegacyBuilder.Apply`, `LegacyBuilder.SetAlign`, `LegacyBuilder.ParseFrom`, `Text.StartsWith`, `Text.ContainsText` and the two accumulators' `ToCompilerArguments`. Each of them is named, in backticks, at the start of the third column of the rows whose lemma or method states what it computes.

| member | source | states |
|---|---|---|
| Tokens.Coerce | src/later.RoslynHarness/CommandLineArgumentsParser.cs:40 | A `null` token reads as `""`; any other token reads as itself. |
| Tokens.TokenQueue.constructor | src/later.RoslynHarness/CommandLineArgumentsParser.cs:37 | The new queue holds the arguments in their order. |
| Tokens.TokenQueue.Count | src/later.RoslynHarness/CommandLineArgumentsParser.cs:38 | `Count` is the number of tokens still queued. |
| Tokens.TokenQueue.Dequeue | src/later.RoslynHarness/CommandLineArgumentsParser.cs:40 | Returns the oldest token and leaves exactly the others, in order. |
| Text.Lower | src/later.RoslynHarness/CommandLineArgumentsParser.cs:41 | `ToLower` keeps the length of the token. |
| Text.LowerAt | src/later.RoslynHarness/CommandLineArgumentsParser.cs:41 | `ToLower` maps every character on its own (ASCII letters to lower case) and keeps the length. |
| Text.UpperAt | src/later.RoslynHarness/CommandLineArgumentsParser.cs:131 | `ToUpper` maps every character on its own and keeps the length. |
| Text.LowerOfUpper | src/later.RoslynHarness/CommandLineArgumentsParser.cs:41 | Lower-casing forgets case: `Lower(Upper(s)) == Lower(s)`. |
| Text.LowerAppend | src/later.RoslynHarness/CommandLineArgumentsParser.cs:41 | Lower-casing distributes over concatenation. |
| Text.LowerKeepsSymbol | src/later.RoslynHarness/CommandLineArgumentsParser.cs:102 | Lower-casing neither adds nor removes a character that is not a letter, so `lower.Contains("+")` tests the token as typed. |
| Text.StartsWithSplit | src/later.RoslynHarness/CommandLineArgumentsParser.cs:42-120 | `StartsWith`: a token starts with a name exactly when it is that name followed by some text. |
| Text.IndexOf | src/later.RoslynHarness/CommandLineArgumentsParser.cs:154 | -1 exactly when the character is absent; otherwise a position holding it with no earlier occurrence. |
| Text.IndexOfFirst | src/later.RoslynHarness/CommandLineArgumentsParser.cs:147 | In a text whose first `:` follows a colon-free prefix, `IndexOf(":")` is the length of that prefix. |
| Text.LastIndexOf | src/later.RoslynHarness/CommandLineArgumentsParser.cs:155 | -1 exactly when the character is absent; otherwise a position holding it with no later occurrence. |
| Text.IndicesDistinctIffTwice | src/later.RoslynHarness/CommandLineArgumentsParser.cs:154-156 | For a present character, the first and last positions differ if and only if it occurs at least twice. |
| Text.OccurrencesAbsent | src/later.RoslynHarness/CommandLineArgumentsParser.cs:150 | The count of a character is 0 if and only if it does not occur. |
| Text.OccurrencesAppend | src/later.RoslynHarness/CommandLineArgumentsParser.cs:156 | Occurrence counts add up over concatenation. |
| Text.RemoveAll | src/later.RoslynHarness/CommandLineArgumentsParser.cs:158 | `Replace("\"", "")` leaves no quote, and leaves a quote-free string unchanged. |
| Text.RemoveAllKeepsOthers | src/later.RoslynHarness/CommandLineArgumentsParser.cs:158 | Removing one character keeps every other character as often as it occurred. |
| Text.RemoveAllTrailing | src/later.RoslynHarness/CommandLineArgumentsParser.cs:163 | Quote-free text followed by one quote loses just that quote. |
| Text.ReplaceAll | src/later.RoslynHarness/CommandLineArgumentsBuilder.cs:84 | `Replace(pattern, "")` never lengthens the string. |
| Text.ReplaceAllAbsent | src/later.RoslynHarness/CommandLineArgumentsBuilder.cs:84 | A string not containing the pattern is left unchanged. |
| Text.ReplaceAllLeading | src/later.RoslynHarness/CommandLineArgumentsBuilder.cs:84 | A leading occurrence is deleted and the scan resumes right after it. |
| Text.ReplaceAllSkips | src/later.RoslynHarness/CommandLineArgumentsBuilder.cs:84 | Text without the pattern's first character is kept by `Replace`, which goes on after it. |
| Text.ContainsTextAt | src/later.RoslynHarness/CommandLineArgumentsBuilder.cs:84 | `ContainsText`: the pattern occurs in the text exactly when some suffix of the text starts with it. |
| Text.MissingCharNotContained | src/later.RoslynHarness/CommandLineArgumentsBuilder.cs:84 | `ContainsText`: A pattern holding a character the string lacks does not occur in it. |
| Text.Split | src/later.RoslynHarness/CommandLineArgumentsParser.cs:110 | `Split(',', ';')` gives one piece more than there are separators, and no piece holds a separator. |
| Text.SplitNoSeparator | src/later.RoslynHarness/CommandLineArgumentsParser.cs:110 | A string without separators is one piece, itself. |
| Text.SplitAtSeparator | src/later.RoslynHarness/CommandLineArgumentsParser.cs:110 | Splitting at one separator equals splitting both sides and concatenating; empty pieces are kept. |
| Numerals.TryParseInt32 | src/later.RoslynHarness/CommandLineArgumentsParser.cs:62-70 | `int.TryParse` succeeds exactly on an optional sign followed by one or more digits whose signed decimal value lies in the Int32 range, and then yields that value. |
| Numerals.ParseFormatRoundTrip | src/later.RoslynHarness/CommandLineArgumentsParser.cs:62-70 | Every Int32 written in decimal parses back to itself. |
| Numerals.OutOfRangeRefused | src/later.RoslynHarness/CommandLineArgumentsParser.cs:62-70 | A numeral is refused exactly when its digits exceed 2147483648 after a `-`, or 2147483647 without a sign or after `+`. |
| Numerals.FormatNat | src/later.RoslynHarness/CommandLineArgumentsParser.cs:62-70 | The decimal rendering used to state the round trip is non-empty and all digits. |
| Numerals.DigitsValueOfFormat | src/later.RoslynHarness/CommandLineArgumentsParser.cs:62-70 | The value of the decimal rendering of `n` is `n`. |
| SwitchTables.FirstMatchIndex | src/later.RoslynHarness/CommandLineArgumentsParser.cs:42-137 | The first table entry the token starts with: no earlier entry matches, or -1 when none does. |
| SwitchTables.LookupIsFirstMatch | src/later.RoslynHarness/CommandLineArgumentsParser.cs:42-137 | The `if … else if` chain dispatches exactly to the first matching entry, and to the file branch when none matches. |
| SwitchTables.DivergeNotPrefix | src/later.RoslynHarness/CommandLineArgumentsParser.cs:42-137 | A name that differs from another at some position shared by both is not a prefix of anything that starts with the other. |
| SwitchTables.LookupOwnName | src/later.RoslynHarness/CommandLineArgumentsParser.cs:42-137 | In a table where every earlier name differs from every later one, a token made of any name and any suffix goes to that name's entry. |
| QuotedValues.ClosingIndex | src/later.RoslynHarness/CommandLineArgumentsParser.cs:157-165 | An opened quote takes the tokens up to and including the first that holds a `"`, or all tokens when none does. |
| QuotedValues.ClosingIndexAt | src/later.RoslynHarness/CommandLineArgumentsParser.cs:157-165 | That characterisation determines the count uniquely. |
| QuotedValues.UnclosedTakesAll | src/later.RoslynHarness/CommandLineArgumentsParser.cs:159-164 | A quote no later token closes takes the whole queue, with no error. |
| QuotedValues.Continuation | src/later.RoslynHarness/CommandLineArgumentsParser.cs:163 | The rebuilt continuation holds no quote. |
| QuotedValues.ContinuationStep | src/later.RoslynHarness/CommandLineArgumentsParser.cs:163 | Each further token adds one space and the token without its quotes. |
| QuotedValues.ReadQuoted | src/later.RoslynHarness/CommandLineArgumentsParser.cs:150-165 | No `"`: the value as is, nothing consumed. Two or more: quotes removed, nothing consumed. Exactly one: quotes removed plus the continuation, consuming `ClosingIndex` tokens. The result never holds `"`. |
| QuotedValues.ReadFrom | src/later.RoslynHarness/CommandLineArgumentsParser.cs:150-165 | The imperative reader returns `ReadQuoted`'s value and leaves the queue past the consumed tokens. |
| QuotedValues.AppendContinuation | src/later.RoslynHarness/CommandLineArgumentsParser.cs:157-165 | The dequeue loop appends exactly the continuation of the first `ClosingIndex` tokens and removes just those. |
| Arguments.ConstructThenRead | src/later.RoslynHarness/CompilerArguments.cs:28-53 | Constructing the 20-field record and reading it back gives each argument in its own slot, `isChecked` as `checked` included. |
| Accumulator.CompilerArgumentsInternal.constructor | src/later.RoslynHarness/CompilerArgumentsInternal.cs:7-26 | A fresh accumulator has all six lists empty, all strings null except the debug level "NONE", zero ints and false bools. |
| Accumulator.CompilerArgumentsInternal.SnapshotSlots | src/later.RoslynHarness/CompilerArgumentsInternal.cs:61-67 | `ToCompilerArguments`: The frozen copy holds every list and scalar in its own positional slot, `Platform` before `Main`. |
| Accumulator.CompilerArgumentsInternal.AddFile | src/later.RoslynHarness/CompilerArgumentsInternal.cs:28-31 | One more file at the end; nothing else changes. |
| Accumulator.CompilerArgumentsInternal.AddError | src/later.RoslynHarness/CompilerArgumentsInternal.cs:33-36 | One more error at the end; nothing else changes. |
| Accumulator.CompilerArgumentsInternal.AddReference | src/later.RoslynHarness/CompilerArgumentsInternal.cs:38-41 | One more reference at the end; nothing else changes. |
| Accumulator.CompilerArgumentsInternal.AddWarningFilter | src/later.RoslynHarness/CompilerArgumentsInternal.cs:43-46 | One more warning filter at the end; nothing else changes. |
| Accumulator.CompilerArgumentsInternal.AddWarningFilters | src/later.RoslynHarness/CompilerArgumentsInternal.cs:48-51 | `AddRange`: all given filters, in order, at the end; nothing else changes. |
| Accumulator.CompilerArgumentsInternal.AddResource | src/later.RoslynHarness/CompilerArgumentsInternal.cs:53-56 | One more resource at the end; nothing else changes. |
| Accumulator.CompilerArgumentsInternal.AddDefine | src/later.RoslynHarness/CompilerArgumentsInternal.cs:57-60 | One more define at the end; nothing else changes. |
| Accumulator.CompilerArgumentsInternal.SetOutput | src/later.RoslynHarness/CompilerArgumentsInternal.cs:13 | Assigning `Output` changes that field only. |
| Accumulator.CompilerArgumentsInternal.SetAlignment | src/later.RoslynHarness/CompilerArgumentsInternal.cs:14 | Assigning `Alignment` changes that field only. |
| Accumulator.CompilerArgumentsInternal.SetPdbOutput | src/later.RoslynHarness/CompilerArgumentsInternal.cs:15 | Assigning `PdbOutput` changes that field only. |
| Accumulator.CompilerArgumentsInternal.SetTarget | src/later.RoslynHarness/CompilerArgumentsInternal.cs:16 | Assigning `Target` changes that field only. |
| Accumulator.CompilerArgumentsInternal.SetWin32Icon | src/later.RoslynHarness/CompilerArgumentsInternal.cs:17 | Assigning `Win32Icon` changes that field only. |
| Accumulator.CompilerArgumentsInternal.SetWin32Resource | src/later.RoslynHarness/CompilerArgumentsInternal.cs:18 | Assigning `Win32Resource` changes that field only. |
| Accumulator.CompilerArgumentsInternal.SetOptimize | src/later.RoslynHarness/CompilerArgumentsInternal.cs:19 | Assigning `Optimize` changes that field only. |
| Accumulator.CompilerArgumentsInternal.SetMain | src/later.RoslynHarness/CompilerArgumentsInternal.cs:20 | Assigning `Main` changes that field only. |
| Accumulator.CompilerArgumentsInternal.SetPlatform | src/later.RoslynHarness/CompilerArgumentsInternal.cs:21 | Assigning `Platform` changes that field only. |
| Accumulator.CompilerArgumentsInternal.SetIsChecked | src/later.RoslynHarness/CompilerArgumentsInternal.cs:22 | Assigning `IsChecked` changes the record's `checked` only. |
| Accumulator.CompilerArgumentsInternal.SetDebugLevel | src/later.RoslynHarness/CompilerArgumentsInternal.cs:23 | Assigning `DebugLevel` changes that field only. |
| Accumulator.CompilerArgumentsInternal.SetWarningLevel | src/later.RoslynHarness/CompilerArgumentsInternal.cs:24 | Assigning `WarningLevel` changes the record's `warnLevel` only. |
| Accumulator.CompilerArgumentsInternal.SetNoStdLib | src/later.RoslynHarness/CompilerArgumentsInternal.cs:25 | Assigning `NoStdLib` changes that field only. |
| Accumulator.CompilerArgumentsInternal.SetNoConfig | src/later.RoslynHarness/CompilerArgumentsInternal.cs:26 | Assigning `NoConfig` changes that field only. |
| Parser.StripToColon | src/later.RoslynHarness/CommandLineArgumentsParser.cs:145-149 | A token without `/`, or without `:`, is kept whole. Otherwise the result is the suffix after the first `:`, and the cut part ends in a `:` preceded by none. |
| Parser.ReadValue | src/later.RoslynHarness/CommandLineArgumentsParser.cs:142-166 | The reader consumes at most the remaining tokens, and its value never holds `"`. |
| Parser.GetPossiblyQuotedString | src/later.RoslynHarness/CommandLineArgumentsParser.cs:142-166 | The imperative reader returns `ReadValue`'s value and removes exactly the tokens it consumed. |
| Parser.Consumed | src/later.RoslynHarness/CommandLineArgumentsParser.cs:100-133 | The toggles, `/noconfig` and the `/debug` forms that read no value take no further token. |
| Parser.Step | src/later.RoslynHarness/CommandLineArgumentsParser.cs:40-137 | One pass of the loop consumes at most the remaining tokens beyond the one it dequeued. |
| Parser.ParseFromHead | src/later.RoslynHarness/CommandLineArgumentsParser.cs:38-137 | `ParseFrom`: Draining a non-empty queue is one dispatch of the head (lower-cased, classified, value read), then the drain of what remains. |
| Parser.AddToList | src/later.RoslynHarness/CommandLineArgumentsParser.cs:42-53 | The three list branches append to their own list. |
| Parser.AssignText | src/later.RoslynHarness/CommandLineArgumentsParser.cs:54-99 | The seven text branches assign their own field. |
| Parser.AssignNumber | src/later.RoslynHarness/CommandLineArgumentsParser.cs:62-79 | The numeric branches store the parsed `int`; on failure they add the switch's error and store 0. |
| Parser.ReadArgument | src/later.RoslynHarness/CommandLineArgumentsParser.cs:42-137 | A branch that reads a value takes exactly the tokens `Consumed` counts. |
| Parser.AppendFilters | src/later.RoslynHarness/CommandLineArgumentsParser.cs:108-111 | `/nowarn:` appends the split pieces of its value. |
| Parser.AssignToggle | src/later.RoslynHarness/CommandLineArgumentsParser.cs:100-115 | A toggle branch assigns its own flag only. |
| Parser.AssignDebug | src/later.RoslynHarness/CommandLineArgumentsParser.cs:120-133 | The `/debug` branch sets the level as the debug rule says, reading a value only in its `:` form. |
| Parser.Handle | src/later.RoslynHarness/CommandLineArgumentsParser.cs:42-137 | `Apply`: The dispatch chain's effect on the accumulator is `Apply` of the token's switch, and it consumes `Consumed` tokens. |
| Parser.BuildFrom | src/later.RoslynHarness/CommandLineArgumentsParser.cs:34-140 | `ParseFrom`: The loop's result equals `Parse(args)`: the specification drain from the fresh accumulator. |
| ParserProperties.SwitchNamesStartWithSlash | src/later.RoslynHarness/CommandLineArgumentsParser.cs:7-27 | Every switch name starts with `/`. |
| ParserProperties.ClassifyIsFirstMatch | src/later.RoslynHarness/CommandLineArgumentsParser.cs:42-137 | `Classify`: A token goes to the first switch in table order that it starts with, and to the file branch when it starts with none. |
| ParserProperties.SwitchesUnshadowed | src/later.RoslynHarness/CommandLineArgumentsParser.cs:42-137 | No switch name of the chain is shadowed: every earlier name differs from every later one at a position both have. |
| ParserProperties.ClassifyByName | src/later.RoslynHarness/CommandLineArgumentsParser.cs:42-137 | A token made of any switch name and any suffix reaches that switch's branch. |
| ParserProperties.NameLowerCase | src/later.RoslynHarness/CommandLineArgumentsParser.cs:7-27 | No switch name holds an upper-case letter. |
| ParserProperties.LowerSwitchToken | src/later.RoslynHarness/CommandLineArgumentsParser.cs:41 | Lower-casing a token that starts with a switch name keeps the name and lower-cases only the rest. |
| ParserProperties.ClassifyToken | src/later.RoslynHarness/CommandLineArgumentsParser.cs:41-137 | A token typed as a switch name followed by any text lower-cases to the name plus the lowered rest, and reaches that switch's branch. |
| ParserProperties.FileUnlessSlash | src/later.RoslynHarness/CommandLineArgumentsParser.cs:134-137 | `Classify`: A token not starting with `/` (the empty token included) is a file. |
| ParserProperties.ClassifyIgnoresCase | src/later.RoslynHarness/CommandLineArgumentsParser.cs:41 | Upper-casing a token does not change its switch. |
| ParserProperties.QuoteFreeValue | src/later.RoslynHarness/CommandLineArgumentsParser.cs:145-153 | A token without `"` gives its stripped form and consumes nothing more. |
| ParserProperties.StripAfterName | src/later.RoslynHarness/CommandLineArgumentsParser.cs:145-149 | The reader's strip of a token made of a colon-free name holding `/`, a `:` and a value leaves exactly the value. |
| ParserProperties.FileTokenStripped | src/later.RoslynHarness/CommandLineArgumentsParser.cs:134-149 | A quote-free file token is stored after the same prefix strip as a switch value, so `c:/src/a.cs` becomes `/src/a.cs`. |
| ParserProperties.PlainHead | src/later.RoslynHarness/CommandLineArgumentsParser.cs:134-137 | A head token without `/` and `"` is one file, consuming only itself. |
| ParserProperties.PlainTokensAreFiles | src/later.RoslynHarness/CommandLineArgumentsParser.cs:134-137 | Tokens without `/` and `"`, `null` included, become files in input order, unchanged, and nothing else changes. |
| ParserProperties.NullTokenIsEmptyFile | src/later.RoslynHarness/CommandLineArgumentsParser.cs:40 | The command line of one `null` token gives the single file `""`. |
| ParserProperties.ApplyGrows | src/later.RoslynHarness/CommandLineArgumentsParser.cs:42-137 | One dispatch only appends to lists, adds at most one file, reference, resource, define or error, and adds only numeric errors. |
| ParserProperties.AppendingGrows | src/later.RoslynHarness/CommandLineArgumentsParser.cs:42-137 | Those facts for the appending branches. |
| ParserProperties.SettingGrows | src/later.RoslynHarness/CommandLineArgumentsParser.cs:54-133 | The assigning branches change no list. |
| ParserProperties.NumberGrows | src/later.RoslynHarness/CommandLineArgumentsParser.cs:62-79 | A numeric branch adds at most its own error. |
| ParserProperties.GrowsTransitive | src/later.RoslynHarness/CommandLineArgumentsParser.cs:38-138 | Growth composes across passes. |
| ParserProperties.ParseFromGrows | src/later.RoslynHarness/CommandLineArgumentsParser.cs:38-138 | The drain only appends, adds at most one entry per token, and records only the two numeric errors. |
| ParserProperties.EntriesBound | src/later.RoslynHarness/CommandLineArgumentsParser.cs:34-140 | A parse has at most as many files, references, resources, defines and errors together as there are tokens. |
| ParserProperties.ParseFromAppend | src/later.RoslynHarness/CommandLineArgumentsParser.cs:38-40 | Quote-free tokens never pull later tokens in, so draining `a + b` is draining `a`, then `b`. |
| ParserProperties.Taken | src/later.RoslynHarness/CommandLineArgumentsParser.cs:38-40 | Every pass takes at least the token it dequeues and at most the whole queue. |
| ParserProperties.TakenIsStep | src/later.RoslynHarness/CommandLineArgumentsParser.cs:38-40 | The pieces' length is the count the loop's pass takes: the dequeued token plus `Step`'s count, whatever was accumulated before. |
| ParserProperties.DispatchesPartition | src/later.RoslynHarness/CommandLineArgumentsParser.cs:38-40 | The pieces the passes take, put back together, are the queue: each token is consumed exactly once, in order. |
| ParserProperties.DispatchesNonEmpty | src/later.RoslynHarness/CommandLineArgumentsParser.cs:38-40 | Every pass takes a non-empty piece, so there are at most as many passes as tokens. |
| ParserRules.HeadToken | src/later.RoslynHarness/CommandLineArgumentsParser.cs:40-137 | `ParseFromHead` for a queue written as a head token followed by the rest. |
| ParserRules.HeadTokenOf | src/later.RoslynHarness/CommandLineArgumentsParser.cs:40-137 | The same, for a head whose switch is known. |
| ParserRules.ToggleRule | src/later.RoslynHarness/CommandLineArgumentsParser.cs:100-115 | `/optimize`, `/checked` and `/nostdlib` set their flag to "holds `+` or is the bare name" and take no further token. |
| ParserRules.ToggleForms | src/later.RoslynHarness/CommandLineArgumentsParser.cs:102 | `Toggle`: The bare name and any form with `+` set the flag; the `-` form clears it. |
| ParserRules.SetToggleTwice | src/later.RoslynHarness/CommandLineArgumentsParser.cs:100-115 | A second assignment of a flag overwrites the first. |
| ParserRules.LaterToggleWins | src/later.RoslynHarness/CommandLineArgumentsParser.cs:100-115 | Of two toggles of one flag in a row, only the second counts. |
| ParserRules.ToggleEntry | src/later.RoslynHarness/CommandLineArgumentsParser.cs:100-115 | Each toggle has its own entry in the switch table, under its own name. |
| ParserRules.ToggleLaterPlus | src/later.RoslynHarness/CommandLineArgumentsParser.cs:100-115 | Two tokens of one toggle, the second holding `+`, set the flag, whatever the first said. |
| ParserRules.OptimizeOffThenOn | src/later.RoslynHarness/CommandLineArgumentsParser.cs:100-103 | `/optimize-` followed by `/optimize+` leaves `optimize` on. |
| ParserRules.DebugStep | src/later.RoslynHarness/CommandLineArgumentsParser.cs:120-133 | A `/debug` token changes just the debug level and takes the tokens its value needs, if any. |
| ParserRules.ApplyDebug | src/later.RoslynHarness/CommandLineArgumentsParser.cs:120-133 | `SetDebug`: the `/debug` branch changes the debug level and no other field. |
| ParserRules.DebugRule | src/later.RoslynHarness/CommandLineArgumentsParser.cs:120-133 | `DebugLevelAfter`, `SetDebug`: `+` or bare `/debug` gives "FULL", `/debug-` gives "NONE", another form with `:` gives the value upper-cased, and anything else changes nothing; only the `:` form takes further tokens. |
| ParserRules.DebugTokenAlone | src/later.RoslynHarness/CommandLineArgumentsParser.cs:120-133 | A quote-free `/debug` token changes only the debug level, as `DebugLevelAfter` says, and takes no further token. |
| ParserRules.DebugColonForm | src/later.RoslynHarness/CommandLineArgumentsParser.cs:120-133 | `DebugLevelAfter`: a lowered token of the form `/debug:` plus a value without `+` sets the level to the value upper-cased. |
| ParserRules.DebugColonLevel | src/later.RoslynHarness/CommandLineArgumentsParser.cs:120-133 | A token `/debug:` plus a value without `+` sets the level to the value upper-cased. |
| ParserRules.LaterDebugValueWins | src/later.RoslynHarness/CommandLineArgumentsParser.cs:120-133 | After any quote-free `/debug` token, a `/debug:` token with a value free of quotes and `+` sets the level to that value upper-cased. |
| ParserRules.DebugFullThenPdbOnly | src/later.RoslynHarness/CommandLineArgumentsParser.cs:120-133 | `/debug+` followed by `/debug:pdbonly` leaves the level `PDBONLY`. |
| ParserRules.NumberRule | src/later.RoslynHarness/CommandLineArgumentsParser.cs:62-79 | `/filealign:` and `/warn:` read their value and apply `SetNumber`. |
| ParserRules.NumberOutcome | src/later.RoslynHarness/CommandLineArgumentsParser.cs:62-79 | `SetNumber`: An `int` value is stored in the switch's own field with no error; anything else stores 0 there and adds exactly that switch's error. No other field changes, the other numeric field included: `/filealign:` keeps `warnLevel` and `/warn:` keeps `alignment`. |
| ParserRules.FormattedNumberStored | src/later.RoslynHarness/CommandLineArgumentsParser.cs:62-79 | Every Int32 written in decimal is stored as itself with no error. |
| ParserRules.NonNumericRecordsError | src/later.RoslynHarness/CommandLineArgumentsParser.cs:62-79 | `GREG` stores 0 and records the switch's error. |
| ParserRules.FailingNumberResets | src/later.RoslynHarness/CommandLineArgumentsParser.cs:62-79 | A failing later occurrence resets the field to 0, whatever an earlier one stored, and appends its error. |
| ParserRules.NoWarnRule | src/later.RoslynHarness/CommandLineArgumentsParser.cs:108-111 | `AddFilters`: `/nowarn:` appends every split piece of its value, in order. |
| ParserRules.NoWarnToken | src/later.RoslynHarness/CommandLineArgumentsParser.cs:108-111 | A quote-free `/nowarn:` token adds its value's pieces and takes no further token. |
| ParserRules.TwoFilters | src/later.RoslynHarness/CommandLineArgumentsParser.cs:108-111 | `AddFilters`: two separator-free lists joined by `,` or `;` add exactly those two filters, in order. |
| ParserRules.NoWarnSeparated | src/later.RoslynHarness/CommandLineArgumentsParser.cs:108-111 | One `/nowarn:` whose value joins two lists with a separator equals two `/nowarn:` tokens, one per list. |
| ParserRules.NoWarnTwoFilters | src/later.RoslynHarness/CommandLineArgumentsParser.cs:108-111 | One `/nowarn:` whose value joins two separator-free lists with a separator adds exactly those two filters, in order. |
| ParserRules.NoWarnPair | src/later.RoslynHarness/CommandLineArgumentsParser.cs:108-111 | `/nowarn:1701,1702` equals `/nowarn:1701` followed by `/nowarn:1702`. |
| ParserRules.NoWarnPairFilters | src/later.RoslynHarness/CommandLineArgumentsParser.cs:108-111 | `/nowarn:1701,1702` adds the filters `1701` and `1702`, in that order. |
| ParserRules.FiltersAtSeparator | src/later.RoslynHarness/CommandLineArgumentsParser.cs:108-111 | One `/nowarn:` value with a separator adds what two `/nowarn:` switches with its two sides would. |
| ParserRules.SingleFilter | src/later.RoslynHarness/CommandLineArgumentsParser.cs:108-111 | A value without separators adds exactly itself. |
| ParserRules.ListRule | src/later.RoslynHarness/CommandLineArgumentsParser.cs:42-53 | The six list switch names append their value to their own list. |
| ParserRules.TextRule | src/later.RoslynHarness/CommandLineArgumentsParser.cs:54-99 | The seven text switches assign their value. |
| ParserRules.QuoteFreeTextHead | src/later.RoslynHarness/CommandLineArgumentsParser.cs:54-99 | A quote-free text switch at the head sets its field to the token after the colon strip and takes no further token. |
| ParserRules.SetTextTwice | src/later.RoslynHarness/CommandLineArgumentsParser.cs:54-99 | A second assignment of a text field overwrites the first. |
| ParserRules.LaterTextWins | src/later.RoslynHarness/CommandLineArgumentsParser.cs:54-99 | Of two text switches for one field in a row, only the second counts. |
| LegacyArguments.ConstructThenRead | src/later.RoslynHarness/CommandLineArgumentsBuilder.cs:157-185 | Constructing the 11-field legacy record and reading it back gives each argument in its own slot. |
| LegacyArguments.CompilerArgumentsInternal.constructor | src/later.RoslynHarness/CommandLineArgumentsBuilder.cs:114-126 | A fresh legacy accumulator has empty lists, null strings and alignment 0. |
| LegacyArguments.CompilerArgumentsInternal.SnapshotSlots | src/later.RoslynHarness/CommandLineArgumentsBuilder.cs:151-154 | `ToCompilerArguments`: The frozen copy holds every list and scalar in its own positional slot, in the record's constructor order. |
| LegacyArguments.CompilerArgumentsInternal.AddFile | src/later.RoslynHarness/CommandLineArgumentsBuilder.cs:128-131 | One more file at the end; nothing else changes. |
| LegacyArguments.CompilerArgumentsInternal.AddError | src/later.RoslynHarness/CommandLineArgumentsBuilder.cs:133-136 | One more error at the end; nothing else changes. |
| LegacyArguments.CompilerArgumentsInternal.AddReference | src/later.RoslynHarness/CommandLineArgumentsBuilder.cs:138-141 | One more reference at the end; nothing else changes. |
| LegacyArguments.CompilerArgumentsInternal.AddResource | src/later.RoslynHarness/CommandLineArgumentsBuilder.cs:143-146 | One more resource at the end; nothing else changes. |
| LegacyArguments.CompilerArgumentsInternal.AddDefine | src/later.RoslynHarness/CommandLineArgumentsBuilder.cs:147-150 | One more define at the end; nothing else changes. |
| LegacyArguments.CompilerArgumentsInternal.SetOutput | src/later.RoslynHarness/CommandLineArgumentsBuilder.cs:121 | Assigning `Output` changes that field only. |
| LegacyArguments.CompilerArgumentsInternal.SetAlignment | src/later.RoslynHarness/CommandLineArgumentsBuilder.cs:122 | Assigning `Alignment` changes that field only. |
| LegacyArguments.CompilerArgumentsInternal.SetPdbOutput | src/later.RoslynHarness/CommandLineArgumentsBuilder.cs:123 | Assigning `PdbOutput` changes that field only. |
| LegacyArguments.CompilerArgumentsInternal.SetTarget | src/later.RoslynHarness/CommandLineArgumentsBuilder.cs:124 | Assigning `Target` changes that field only. |
| LegacyArguments.CompilerArgumentsInternal.SetWin32Icon | src/later.RoslynHarness/CommandLineArgumentsBuilder.cs:125 | Assigning `Win32Icon` changes that field only. |
| LegacyArguments.CompilerArgumentsInternal.SetWin32Resource | src/later.RoslynHarness/CommandLineArgumentsBuilder.cs:126 | Assigning `Win32Resource` changes that field only. |
| LegacyBuilder.Name | src/later.RoslynHarness/CommandLineArgumentsBuilder.cs:8-16 | The nine switch names are non-empty. |
| LegacyBuilder.Named | src/later.RoslynHarness/CommandLineArgumentsBuilder.cs:17 | A switch passes its own name to the reader; a file passes `null`. |
| LegacyBuilder.ReadValue | src/later.RoslynHarness/CommandLineArgumentsBuilder.cs:80-101 | The legacy reader consumes at most the remaining tokens, and its value never holds `"`. |
| LegacyBuilder.ParseFromHead | src/later.RoslynHarness/CommandLineArgumentsBuilder.cs:27-76 | `ParseFrom`: Draining a non-empty queue is one dispatch of its head, then the drain of what remains. |
| LegacyBuilder.GetPossiblyQuotedString | src/later.RoslynHarness/CommandLineArgumentsBuilder.cs:80-101 | The imperative reader returns `ReadValue`'s value and removes exactly the tokens it consumed. |
| LegacyBuilder.AssignAlign | src/later.RoslynHarness/CommandLineArgumentsBuilder.cs:51-59 | The `/align:` branch stores the parsed `int`, or 0 with the alignment error. |
| LegacyBuilder.Handle | src/later.RoslynHarness/CommandLineArgumentsBuilder.cs:29-75 | `Apply`: The dispatch chain's effect is `Apply` of the token's switch with the reader's value, and it removes the tokens the reader consumed. |
| LegacyBuilder.BuildFrom | src/later.RoslynHarness/CommandLineArgumentsBuilder.cs:23-78 | `ParseFrom`: The loop's result equals `Parse(args)`. |
| LegacyProperties.NameShape | src/later.RoslynHarness/CommandLineArgumentsBuilder.cs:8-16 | Every legacy name starts with `/`, has its only `:` at the end, and has no upper-case letter. |
| LegacyProperties.Position | src/later.RoslynHarness/CommandLineArgumentsBuilder.cs:31-75 | Each switch has its own entry, holding its name, in the dispatch order. |
| LegacyProperties.TableHoldsNames | src/later.RoslynHarness/CommandLineArgumentsBuilder.cs:31-75 | Every entry of the dispatch order holds its switch's own name. |
| LegacyProperties.PrefixOfName | src/later.RoslynHarness/CommandLineArgumentsBuilder.cs:8-16 | Names ending in their only `:` cannot be proper prefixes of one another. |
| LegacyProperties.NamesDistinct | src/later.RoslynHarness/CommandLineArgumentsBuilder.cs:8-16 | The nine names are pairwise different. |
| LegacyProperties.ClassifyByName | src/later.RoslynHarness/CommandLineArgumentsBuilder.cs:31-75 | No switch shadows another: a lowered token starting with a switch's name goes to that switch. |
| LegacyProperties.LowerName | src/later.RoslynHarness/CommandLineArgumentsBuilder.cs:30 | Lower-casing a token keeps its leading switch name as it is. |
| LegacyProperties.SwitchToken | src/later.RoslynHarness/CommandLineArgumentsBuilder.cs:29-84 | `Strip`: A token made of a name and a value without another copy of that name gives the switch what the reader makes of the value. |
| LegacyProperties.PlainSwitchValue | src/later.RoslynHarness/CommandLineArgumentsBuilder.cs:83-88 | A value without `/` and `"` is passed on unchanged and consumes nothing more. |
| LegacyProperties.UnclosedQuoteEndsDrain | src/later.RoslynHarness/CommandLineArgumentsBuilder.cs:92-100 | An opened quote that nothing closes swallows the rest of the queue, and the drain ends with no error. |
| LegacyProperties.NoSlashNoSwitch | src/later.RoslynHarness/CommandLineArgumentsBuilder.cs:72-75 | A lowered token not starting with `/` matches no switch. |
| LegacyProperties.UnmatchedToken | src/later.RoslynHarness/CommandLineArgumentsBuilder.cs:72-75 | A token whose lowered form matches no switch is a file, and the reader, given no name, sees it unstripped. |
| LegacyProperties.FileToken | src/later.RoslynHarness/CommandLineArgumentsBuilder.cs:72-75 | A token not starting with `/` is a file, read without any strip. |
| LegacyProperties.NoSlashPlainFile | src/later.RoslynHarness/CommandLineArgumentsBuilder.cs:72-75 | A quote-free token that does not start with `/` matches no switch. |
| LegacyProperties.NullTokenLikeEmpty | src/later.RoslynHarness/CommandLineArgumentsBuilder.cs:29 | A `null` head token drains exactly like `""`. |
| LegacyProperties.PlainFileHead | src/later.RoslynHarness/CommandLineArgumentsBuilder.cs:72-75 | A head token that matches no switch and holds no `"` is one file, and the drain goes on with the next token. |
| LegacyProperties.FilesInOrder | src/later.RoslynHarness/CommandLineArgumentsBuilder.cs:72-75 | Tokens that match no switch (`/foo.cs` included) and hold no `"` become files, in input order and unchanged; nothing else changes. |
| LegacyProperties.FilesExample | src/later.Tests/RoslynHarness/when_parsing_command_line_arguments.cs:11-23 | `foo.cs foo2.cs` gives exactly those two files, in that order. |
| LegacyProperties.TwoFiles | src/later.RoslynHarness/CommandLineArgumentsBuilder.cs:72-75 | Two tokens that match no switch and hold no `"` give exactly those two files, in order. |
| LegacyProperties.NullFileExample | src/later.Tests/RoslynHarness/when_parsing_command_line_arguments.cs:42-47 | One `null` token gives the single file `""` and nothing else. |
| LegacyProperties.OpeningQuote | src/later.RoslynHarness/CommandLineArgumentsBuilder.cs:93 | A quote followed by quote-free text holds one quote, and removing it gives the text. |
| LegacyProperties.ClosingQuote | src/later.RoslynHarness/CommandLineArgumentsBuilder.cs:97-98 | Quote-free text followed by a quote closes the quote and loses just that quote. |
| LegacyProperties.ClosedByNext | src/later.RoslynHarness/CommandLineArgumentsBuilder.cs:92-100 | A one-quote value whose next token holds a quote takes exactly that token. |
| LegacyProperties.QuoteAcrossTwo | src/later.RoslynHarness/CommandLineArgumentsBuilder.cs:92-100 | `"a` then `b"` reads as `a b`, taking one further token. |
| LegacyProperties.QuoteInOne | src/later.RoslynHarness/CommandLineArgumentsBuilder.cs:89-91 | `"a"` reads as `a`, taking no further token. |
| LegacyProperties.QuoteNeverClosed | src/later.RoslynHarness/CommandLineArgumentsBuilder.cs:94-99 | `"a` with no closing token takes every remaining token, each after one space. |
| LegacyProperties.NoSlashNoName | src/later.RoslynHarness/CommandLineArgumentsBuilder.cs:84 | A value without `/` contains no switch name. |
| LegacyProperties.QuotedSwitchAcrossTwo | src/later.Tests/RoslynHarness/when_parsing_command_line_arguments.cs:67-71 | A switch whose quoted value the shell split in two receives the value with the space restored. |
| LegacyProperties.QuotedSwitchInOne | src/later.Tests/RoslynHarness/when_parsing_command_line_arguments.cs:75-79 | A switch with a value quoted in its own token receives the value without quotes. |
| LegacyProperties.QuotedSwitchNeverClosed | src/later.Tests/RoslynHarness/when_parsing_command_line_arguments.cs:101-105 | A switch whose quote is never closed receives its value followed by every remaining token, and the drain ends. |
| LegacyProperties.QuotedFileAcrossTwo | src/later.Tests/RoslynHarness/when_parsing_command_line_arguments.cs:26-31 | `"My` then `foo.cs"` gives exactly one file, `My foo.cs`, in general form. |
| LegacyProperties.QuotedFileInOne | src/later.Tests/RoslynHarness/when_parsing_command_line_arguments.cs:34-39 | `"Myfoo.cs"` gives the file `Myfoo.cs`, in general form. |
| LegacyProperties.AlignValue | src/later.RoslynHarness/CommandLineArgumentsBuilder.cs:51-59 | `SetAlign`: `/align:` with a numeric value stores it; otherwise it stores 0 and adds the alignment error. |
| LegacyProperties.AlignNumeric | src/later.Tests/RoslynHarness/when_parsing_command_line_arguments.cs:169-174 | `/align:` followed by any Int32 in decimal, 512 included, stores it and records no error. |
| LegacyProperties.TwoSwitches | src/later.RoslynHarness/CommandLineArgumentsBuilder.cs:27-76 | Two tokens of one switch, the first with a plain value and the second with any value, are two dispatches in order; the drain goes on after what the second value consumed. |
| LegacyProperties.ListsInOrder | src/later.RoslynHarness/CommandLineArgumentsBuilder.cs:31-42 | Two `/reference:`, `/resource:` or `/define:` switches in a row, the second with any value, append both values to their own list, in order. |
| LegacyProperties.AppendTwice | src/later.RoslynHarness/CommandLineArgumentsBuilder.cs:31-42 | Two appends of the same list switch add both values to that list, first then second. |
| LegacyProperties.LaterScalarWins | src/later.RoslynHarness/CommandLineArgumentsBuilder.cs:43-71 | Of two `/output:`, `/pdb:`, `/target:`, `/win32icon:` or `/win32res:` switches in a row, the second with any value, only the second's value is kept. |
| LegacyProperties.RepeatedNameRemoved | src/later.RoslynHarness/CommandLineArgumentsBuilder.cs:83-84 | `Strip`: Every occurrence of the name is deleted: `/reference:a/reference:b` passes on `ab`. |
| LegacyProperties.OtherCaseNameKept | src/later.RoslynHarness/CommandLineArgumentsBuilder.cs:30-84 | Matching ignores case but `Replace` does not: after `/REFERENCE:`, the value passed on still begins with `/REFERENCE:`. |
| Initializer.GetAssemblyKindFrom | src/later.RoslynHarness/Initializer.cs:45-57 | Console application if and only if the lowered target is `exe`; windows application if and only if it is `winexe`; library if and only if it is neither. |
| Initializer.UpperCaseSameKind | src/later.RoslynHarness/Initializer.cs:48 | Upper-casing the target does not change the kind. |
| Initializer.SameLowerSameKind | src/later.RoslynHarness/Initializer.cs:48 | Targets that lower-case alike give the same kind. |
| Initializer.MissingTargetIsLibrary | src/later.RoslynHarness/Initializer.cs:47 | A `null` target acts as `""` and gives a library. |
| Initializer.NamedKinds | src/later.Tests/RoslynHarness/when_initializing_roslyn.cs:99-102 | `exe` and `EXE` give a console application, `WinExe` a windows application, `library` a library. |

## Left out

- The Roslyn calls of `Initializer` (src/later.RoslynHarness/Initializer.cs:10-43) are left out. They call into a library whose types are not part of this model.
- `DiagnosticsFormatter` and `Program.cs` are left out. They are console output and process glue.
- The test helper `CompilerArgumentBuilder` is not modelled. The tests' command lines are stated as general lemmas (`QuotedFileAcrossTwo` in place of `"My foo.cs"`), because Dafny does not unfold concrete string literals cheaply.
- Text.LowerAt: `ToLower` and `ToUpper` are ASCII-only. The culture-sensitive case mapping of .NET is not modelled.
- Numerals.TryParseInt32: `int.TryParse` is an optional sign, one or more decimal digits and the Int32 range. Leading or trailing white space, culture-specific signs and thousands separators are not accepted by the model.
- The `first == null` guard of both readers (CommandLineArgumentsParser.cs:144, CommandLineArgumentsBuilder.cs:82) is not modelled. Every caller passes a token it has already mapped from `null` to `""`, so the guard is never taken.
- The public scalar fields of both accumulators are assigned directly in the source. The model writes each assignment as a `Set…` method, so the frame of every assignment is stated.
- `Handle` and `Apply` group the current parser's dispatch chain (CommandLineArgumentsParser.cs:42-137: 18 switch branches and the file branch) by switch family: lists, text, numbers, toggles, `/nowarn:`, `/noconfig` and `/debug`. The table order, and so which branch a token reaches, is unchanged.
- Text.StartsWith: the one-argument .NET `StartsWith(string)` of the dispatch chains and `IndexOf(":")` of the current reader (CommandLineArgumentsParser.cs:147) compare by the current culture. The model compares ordinally, character by character, which may differ from them under some cultures. `Contains`, `Replace`, `Equals` and `IndexOf(char)` are ordinal in .NET, as in the model.
- `/nowarn:` pieces: `Split(',', ';')` (CommandLineArgumentsParser.cs:110) is called without `RemoveEmptyEntries`, so the empty pieces of `1701,,1702` or of a trailing `,` are kept as filters, and the model keeps them too.
- Both source files declare classes named `CompilerArgumentsInternal` and `CompilerArguments`. The legacy ones are modelled in module `LegacyArguments` and the current ones in `Arguments` and `Accumulator`.
- Concurrency and object identity, such as two parsers sharing one accumulator, are not modelled. The records are values.
- Response files (`@file`) are not modelled, because no code implements them.
