# TM1 process files and file-tool helpers, modelled in Dafny

This project models two parts of tm1-file-tools, a Python library that reads the files an IBM Planning Analytics (TM1) server keeps in its data directory.

1. `TM1ProcessFile` decodes a TurboIntegrator process (`.pro`) into the JSON document that the TM1 REST API uses for a process. A `.pro` file is a list of lines. Each field starts on a *code line* `<decimal code>,<payload>`:
   - 602 holds the name;
   - 572-575 hold the four code tabs (prolog, metadata, data, epilog);
   - 1217 holds the security-access flag;
   - 560, 561, 590 and 637 hold the parameters;
   - 577-581 hold the variables;
   - 562 and 567-589 hold the data source.

   Multi-valued fields are *parallel arrays*: record `i` is the line `i + 1` after each section's code line. The model:
   - treats the file as `seq<string>`;
   - returns a `Result` for every lookup that can fail (a missing code, an index past the end, a non-integer, an unknown type code, an unmapped data-source type);
   - builds the document as a `Json.Value`.
2. `TM1FileTool`, in part:
   - the case-insensitive glob pattern it builds with `either`;
   - the split of cube and dimension files into model and control objects;
   - the branch logic that picks the data directory from `tm1s.cfg`.

Modules:
- `Results`: `Option`, `Result` and the error kinds.
- `Json`: the JSON values.
- `LineCode`: line primitives that the process decoder relies on. These are the code-line shape, lookup by code and by index, single-string, single-int and key/value payloads, multiline blocks and `rstrip`.
- `ParallelArray`: record-by-record assembly of a parallel array, as a function and as a loop.
- `ProcessFile`: the decoder.
- `ProcessProperties`: field-level facts about parameters, variables and the data source.
- `DocumentProperties`: facts about the whole document and the `rstrip` finding.
- `FileTool`: the file-tool helpers.

The base class that defines the line primitives (`linecode.py`) is not part of this model. Its primitives are therefore specified from the way `process.py` calls them. The source cells below cite those call sites.

## Model

| member | source | states |
|---|---|---|
| LineCode.DigitChar | src/tm1filetools/files/text/process.py:141 | every digit value maps to a decimal digit character |
| LineCode.DecimalText | src/tm1filetools/files/text/process.py:141 | the decimal text of a natural number consists of digits only |
| LineCode.ParseDecimal | src/tm1filetools/files/text/process.py:141 | `int()` on a row succeeds exactly when the row is all digits, yields a non-negative value, and otherwise reports the offending text |
| LineCode.DecimalTextRoundTrip | src/tm1filetools/files/text/process.py:182-187 | parsing the decimal text of any natural number gives back that number |
| LineCode.FindFrom | src/tm1filetools/files/text/process.py:143 | the index returned is the first occurrence of the character at or after the start, and None means it does not occur there |
| LineCode.DelimiterIndex | src/tm1filetools/files/text/process.py:143 | the index returned is the first comma of the line, and None means the line holds no comma |
| LineCode.DelimiterIndexAfter | src/tm1filetools/files/text/process.py:143 | a comma-free prefix followed by a comma puts the first comma right after the prefix |
| LineCode.Payload | src/tm1filetools/files/text/process.py:92 | a line has a payload exactly when it holds a comma, and the line is the text before its first comma, the comma and the payload |
| LineCode.CodeLineShape | src/tm1filetools/files/text/process.py:92 | `<code>,<payload>` is a code line for that code, and its payload is exactly what follows the comma |
| LineCode.FindCode | src/tm1filetools/files/text/process.py:132-134 | the index found is the first code line for the code at or after the start, and None means there is none |
| LineCode.LineIndexByCode | src/tm1filetools/files/text/process.py:132-134 | the index returned is the first line carrying the code; it fails with CodeNotFound exactly when no line carries it |
| LineCode.LineByCode | src/tm1filetools/files/text/process.py:92 | the line returned is the first line carrying the code; it fails exactly when no line carries it |
| LineCode.LineByIndex | src/tm1filetools/files/text/process.py:141-145 | it returns the line at the index exactly when the index is inside the file, and otherwise IndexOutOfRange |
| LineCode.UnescapeEscape | src/tm1filetools/files/text/process.py:92 | unescaping the doubled-quote escape of any string gives back the string |
| LineCode.EscapeUnescape | src/tm1filetools/files/text/process.py:92 | a literal body that unescapes is exactly the escape of its value, so reading and writing a literal are mutually inverse |
| LineCode.QuotedIsPrinted | src/tm1filetools/files/text/process.py:143-145 | a quoted literal whose body unescapes is exactly its value written back in quotes |
| LineCode.LiteralValueIsPrinted | src/tm1filetools/files/text/process.py:92 | a payload that reads as a string literal is either empty or that value quoted |
| LineCode.ParseSingleString | src/tm1filetools/files/text/process.py:92 | a single-string line parses exactly when it has a payload that is a valid literal, and the result is that literal's value; otherwise MalformedString |
| LineCode.ParseSingleInt | src/tm1filetools/files/text/process.py:99 | a single-int line parses exactly when its payload is all digits, and the value is non-negative |
| LineCode.KeyValuePair | src/tm1filetools/files/text/process.py:143-145 | a line without a comma fails with MissingSeparator; on success the key is the text before the first comma |
| LineCode.SingleStringRoundTrip | src/tm1filetools/files/text/process.py:92 | `<code>,"<escaped s>"` reads back as `s`, and an empty payload reads as the empty string |
| LineCode.SingleStringIsPrinted | src/tm1filetools/files/text/process.py:92 | a single-string line that parses has either an empty payload or the parsed value quoted as its payload |
| LineCode.SingleIntRoundTrip | src/tm1filetools/files/text/process.py:99 | `<code>,<decimal n>` reads back as `n` |
| LineCode.KeyValueRoundTrip | src/tm1filetools/files/text/process.py:143-145 | a comma-free key, a comma and a quoted (or bare, unquoted) value read back as that key and value |
| LineCode.KeyValueIsPrinted | src/tm1filetools/files/text/process.py:143-145 | a key/value line that parses is its key, a comma and its value, quoted or, when it does not look quoted, bare; so the value read is the text after the first comma, unquoted and unescaped when it is quoted |
| LineCode.RStrip | src/tm1filetools/files/text/process.py:41 | the result is a prefix of the input that does not end in whitespace, and everything removed is whitespace |
| LineCode.SectionEnd | src/tm1filetools/files/text/process.py:41 | the line found is the first marker (code line) at or after the start, or the end of the file |
| LineCode.MarkerIsNotDecimal | src/tm1filetools/files/text/process.py:141 | a marker line is never a bare integer, so an integer row that runs into the next section fails |
| LineCode.MultilineBlock | src/tm1filetools/files/text/process.py:41 | fails exactly when the code is missing; otherwise the result is the run of non-marker lines after the code line, trimmed when asked, with the three generated lines replaced by the empty list |
| LineCode.RunEndsAtSectionEnd | src/tm1filetools/files/text/process.py:41 | a run of non-marker lines closed by a marker or the end of the file ends exactly where the section ends |
| LineCode.BlockIsRun | src/tm1filetools/files/text/process.py:41 | every line of a block lies inside its section and is not a marker |
| LineCode.BlockAfterUnique | src/tm1filetools/files/text/process.py:41 | a code line determines its block uniquely |
| ParallelArray.Assemble | src/tm1filetools/files/text/process.py:138-154 | assembling the first k rows yields exactly k records when it succeeds |
| ParallelArray.AssembleRows | src/tm1filetools/files/text/process.py:138-154 | assembling k records succeeds exactly when each of the first k records succeeds, and then row i is record i |
| ParallelArray.AssembleFirstError | src/tm1filetools/files/text/process.py:138-154 | a failed assembly reports the error of the first record that fails |
| ParallelArray.AssembleErrorPersists | src/tm1filetools/files/text/process.py:138-154 | once an assembly has failed, reading more records does not change the error |
| ParallelArray.AssembleStopsAt | src/tm1filetools/files/text/process.py:179-192 | if records before i succeed and record i fails, the whole assembly fails with record i's error |
| ParallelArray.AssembleEach | src/tm1filetools/files/text/process.py:138-156 | the loop over the names returns the assembly of all records, stopping at the first error |
| ProcessFile.GetPrologCode | src/tm1filetools/files/text/process.py:27-41 | fails exactly when there is no 572 line, and never returns the three generated lines |
| ProcessFile.GetMetadataCode | src/tm1filetools/files/text/process.py:43-56 | fails exactly when there is no 573 line, and never returns the three generated lines |
| ProcessFile.GetDataCode | src/tm1filetools/files/text/process.py:58-72 | fails exactly when there is no 574 line, and never returns the three generated lines |
| ProcessFile.GetEpilogCode | src/tm1filetools/files/text/process.py:74-88 | fails exactly when there is no 575 line, and never returns the three generated lines |
| ProcessFile.JoinLines | src/tm1filetools/files/text/process.py:230-239 | an empty code tab becomes the empty procedure text |
| ProcessFile.RemoveSuffix | src/tm1filetools/files/text/process.py:239 | one trailing copy of the suffix is removed when present, and otherwise the text is unchanged |
| ProcessFile.TerminatedAppend | src/tm1filetools/files/text/process.py:236-237 | each loop step appends the line followed by CRLF |
| ProcessFile.TerminatedIsJoinedPlusNewline | src/tm1filetools/files/text/process.py:236-239 | for a non-empty tab, the accumulated text is the CRLF-joined lines plus one trailing CRLF |
| ProcessFile.CodeblockToJsonStr | src/tm1filetools/files/text/process.py:230-239 | the loop with the closing `removesuffix` produces the lines joined by CRLF, with no trailing CRLF |
| ProcessFile.TypeName | src/tm1filetools/files/text/process.py:21 | a type code maps to a name exactly when it is 1 (Numeric) or 2 (String), and anything else is UnknownTypeCode |
| ProcessFile.ParameterSectionsOf | src/tm1filetools/files/text/process.py:132-134 | the 561, 590 and 637 sections start at the first line carrying each code, and the lookup fails exactly when one of them is missing
| ProcessFile.ParameterRecord | src/tm1filetools/files/text/process.py:141-153 | a parameter record that decodes is an object with exactly the keys Name, Prompt, Type and Value, named by its name |
| ProcessFile.Parameters | src/tm1filetools/files/text/process.py:121-156 | the parameter list, when it decodes, has one entry per line of the 560 names block |
| ProcessFile.GetParameters | src/tm1filetools/files/text/process.py:121-156 | the method returns the parameter list that the model defines |
| ProcessFile.VariableSectionsOf | src/tm1filetools/files/text/process.py:170-177 | the 579, 578, 580 and 581 sections start at the first line carrying each code, and the lookup fails exactly when one of them is missing
| ProcessFile.VariableRecord | src/tm1filetools/files/text/process.py:182-190 | a variable record that decodes is an object with exactly the keys EndByte, Name, Position, StartByte and Type, named by its name |
| ProcessFile.Variables | src/tm1filetools/files/text/process.py:158-194 | the variable list, when it decodes, has one entry per line of the 577 names block |
| ProcessFile.GetVariables | src/tm1filetools/files/text/process.py:158-194 | the method returns the variable list that the model defines |
| ProcessFile.SourceFields | src/tm1filetools/files/text/process.py:218-225 | reading the seven fields of a non-empty source adds exactly their seven keys to what the source already holds |
| ProcessFile.Datasource | src/tm1filetools/files/text/process.py:196-227 | a data source decodes only when its 562 type is in the mapping, always holds "Type", and holds either only "Type" or all seven source fields |
| ProcessFile.GetDatasource | src/tm1filetools/files/text/process.py:196-227 | the successive dictionary updates produce the data-source object that the model defines |
| ProcessFile.DocumentObject | src/tm1filetools/files/text/process.py:107-117 | the exported object of the nine parts has exactly the nine document keys |
| ProcessFile.Document | src/tm1filetools/files/text/process.py:90-119 | the corrected `_to_json` document: when it decodes, it is an object with exactly the nine document keys |
| ProcessFile.ToJsonAsWritten | src/tm1filetools/files/text/process.py:90-119 | `_to_json` step by step as written: the four code getters are called with their default, so whatever `rstrip` asks for, the result is the document built with right-stripped code tabs |
| ProcessFile.ToJson | src/tm1filetools/files/text/process.py:90-119 | the corrected `_to_json`: the method builds the document from the nine parts, with `rstrip` passed on to the four code tabs
| ProcessProperties.ParameterRecordFields | src/tm1filetools/files/text/process.py:141-153 | a parameter record that succeeds is the object Name/Prompt/Type/Value read from rows i+1 of the hint, default and type sections |
| ProcessProperties.ParameterFields | src/tm1filetools/files/text/process.py:136-156 | the parameter list succeeds exactly when every record succeeds; it then has one object per name, in order, each with the fields read from its rows |
| ProcessProperties.UnknownParameterTypeFails | src/tm1filetools/files/text/process.py:141 | a type row holding a code other than 1 or 2 makes the parameter list fail with UnknownTypeCode for that code |
| ProcessProperties.ShortParameterTypeSectionFails | src/tm1filetools/files/text/process.py:141 | a type section with fewer rows than there are names makes the parameter list fail |
| ProcessProperties.IntRowPastSectionFails | src/tm1filetools/files/text/process.py:141 | an integer row read just past its section fails |
| ProcessProperties.ShortValueSectionReadsMarker | src/tm1filetools/files/text/process.py:143-145 | a key/value row read just past its section silently returns the payload of the next code line |
| ProcessProperties.VariableRecordFields | src/tm1filetools/files/text/process.py:182-190 | a variable record that succeeds is the object EndByte/Name/Position/StartByte/Type read from rows i+1 of its four sections |
| ProcessProperties.VariableFields | src/tm1filetools/files/text/process.py:179-194 | the variable list succeeds exactly when every record succeeds; it then has one object per name, in order, each with the fields read from its rows |
| ProcessProperties.VariableRecordPastSectionFails | src/tm1filetools/files/text/process.py:182-187 | a variable record whose row lies past any of its integer sections fails |
| ProcessProperties.VariablesFailOnRow | src/tm1filetools/files/text/process.py:179-192 | one failing variable record makes the whole variable list fail |
| ProcessProperties.ShortVariableSectionFails | src/tm1filetools/files/text/process.py:182-187 | an integer section with fewer rows than there are names makes the variable list fail |
| ProcessProperties.NullDatasource | src/tm1filetools/files/text/process.py:200-211 | a NULL source type gives exactly `{"Type": "None"}` and reads nothing else |
| ProcessProperties.UnmappedDatasourceFails | src/tm1filetools/files/text/process.py:203-205 | a source type other than NULL and CHARACTERDELIMITED fails with UnsupportedDatasourceType, as the dictionary lookup raises |
| ProcessProperties.CharacterDelimitedDatasource | src/tm1filetools/files/text/process.py:213-227 | a CHARACTERDELIMITED source succeeds exactly when the seven fields read, and it is then the nine-key ASCII object with those values |
| DocumentProperties.FindNewline | src/tm1filetools/files/text/process.py:239 | the index returned is the first CRLF at or after the start, and None means there is none |
| DocumentProperties.SplitLines | src/tm1filetools/files/text/process.py:230-239 | splitting procedure text on CRLF always yields at least one line |
| DocumentProperties.FindNewlineAfter | src/tm1filetools/files/text/process.py:236 | in a line without line feeds followed by CRLF, the first CRLF is right after the line |
| DocumentProperties.NoNewlineIn | src/tm1filetools/files/text/process.py:236 | a line without line feeds holds no CRLF |
| DocumentProperties.SplitAfterLine | src/tm1filetools/files/text/process.py:236 | cutting a line without line feeds, a CRLF and more text gives the line followed by the cuts of the rest |
| DocumentProperties.SplitJoinedLines | src/tm1filetools/files/text/process.py:230-239 | splitting the joined procedure text on CRLF gives back the tab's lines (non-empty tab, no line feed inside a line) |
| DocumentProperties.RunFrom | src/tm1filetools/files/text/process.py:41 | taking lines one at a time until a marker or the end of the file gives a run of non-marker lines, each trimmed when asked, that stops at a marker or at the end |
| DocumentProperties.TabLines | src/tm1filetools/files/text/process.py:41 | the lines of a tab, built line by line, form the block that follows its code line |
| DocumentProperties.ProcedureTextOfTab | src/tm1filetools/files/text/process.py:27-41 | a procedure text is available exactly when its tab's code line exists, and it is the joined block, or "" for the generated lines |
| DocumentProperties.ProcedureReadsBack | src/tm1filetools/files/text/process.py:94-97 | a non-generated procedure text splits back into exactly the lines of its tab |
| DocumentProperties.TabLinesHaveNoLineFeed | src/tm1filetools/files/text/process.py:41 | trimming keeps a prefix of each line, so a tab of lines without line feeds has none |
| DocumentProperties.DocumentAllOrNothing | src/tm1filetools/files/text/process.py:90-105 | the document succeeds exactly when all nine parts succeed, whether it does is independent of `rstrip`, and a missing name is reported first |
| DocumentProperties.PrologTellsObjectsApart | src/tm1filetools/files/text/process.py:107-117 | documents with different prolog texts are different |
| DocumentProperties.DocumentFields | src/tm1filetools/files/text/process.py:90-117 | a successful document is the nine-key object of the name, the four procedure texts, security access == 1, the parameters, the variables and the data source |
| DocumentProperties.ParameterObjects | src/tm1filetools/files/text/process.py:136-154 | there are as many parameters as names, and each is an object with exactly the keys Name, Prompt, Type and Value |
| DocumentProperties.VariableObjects | src/tm1filetools/files/text/process.py:179-192 | there are as many variables as names, and each is an object with exactly the keys EndByte, Name, Position, StartByte and Type |
| DocumentProperties.JoinLinesNoLonger | src/tm1filetools/files/text/process.py:230-239 | joining lines that are each no longer gives text no longer |
| DocumentProperties.JoinLinesShorter | src/tm1filetools/files/text/process.py:230-239 | joining lines that are each no longer, and the first strictly shorter, gives strictly shorter text |
| DocumentProperties.TrimmedPrologDiffers | src/tm1filetools/files/text/process.py:27-41 | when the prolog's first line ends in whitespace, the trimmed and untrimmed prolog texts differ |
| DocumentProperties.RstripReachesDocument | src/tm1filetools/files/text/process.py:90-97 | with `rstrip` passed on, a prolog whose first line ends in whitespace gives different documents for `rstrip` true and false |
| DocumentProperties.AsWrittenIgnoresRstrip | src/tm1filetools/files/text/process.py:94-97 | as written, the same file gives the same document for either `rstrip`, and with `rstrip` false that document differs from the untrimmed one |
| FileTool.Lower | tm1filetools/tools/filetool.py:194 | lower-casing turns an ASCII upper-case letter into its own lower-case letter (code point plus 32) and leaves every other character alone
| FileTool.Upper | tm1filetools/tools/filetool.py:194 | upper-casing turns an ASCII lower-case letter into its own upper-case letter (code point minus 32) and leaves every other character alone
| FileTool.CasesOfLetter | tm1filetools/tools/filetool.py:194 | a letter is one of its two cases, and a character is one of them exactly when it lower-cases to the same letter |
| FileTool.Either | tm1filetools/tools/filetool.py:193-194 | a letter becomes the four-character class `[lower upper]` of its own two cases, and any other character stays as it is |
| FileTool.PatternOfConcat | tm1filetools/tools/filetool.py:196-199 | the character-wise pattern of a concatenation is the concatenation of the patterns |
| FileTool.CaseInsensitivePattern | tm1filetools/tools/filetool.py:196-199 | the joined pattern is as long as the input plus three characters per letter, and a pattern without letters is left as it is
| FileTool.FilesPattern | tm1filetools/tools/filetool.py:120-122 | the glob pattern for a prefix and a suffix is the case-insensitive prefix, `*.` and the case-insensitive suffix |
| FileTool.CubePattern | tm1filetools/tools/filetool.py:90-92 | the cube search pattern is `*.[cC][uU][bB]` |
| FileTool.Matches | tm1filetools/tools/filetool.py:196-199 | the reference glob for `*`, two-character classes and literal characters: `*` matches every name, and a pattern without `*` matches no name longer than itself |
| FileTool.PatternThenRest | tm1filetools/tools/filetool.py:193-199 | the pattern of a literal followed by more pattern matches a name exactly when the name starts with the literal ignoring case and the rest matches |
| FileTool.SameIgnoringCaseStep | tm1filetools/tools/filetool.py:194 | two strings are equal ignoring case exactly when their first characters are and so are their tails |
| FileTool.PatternFindsSameName | tm1filetools/tools/filetool.py:193-199 | the pattern of a literal matches exactly the names equal to it ignoring ASCII case |
| FileTool.StarMatches | tm1filetools/tools/filetool.py:122 | `*` followed by a pattern matches a name exactly when some suffix of the name matches the pattern |
| FileTool.DottedSuffixMatches | tm1filetools/tools/filetool.py:122 | `.` plus a case-insensitive suffix matches a name exactly when the name is a dot followed by the suffix ignoring case |
| FileTool.StarSuffixMatches | tm1filetools/tools/filetool.py:122 | `*.` plus a case-insensitive suffix matches a name exactly when some dot in it is followed by the suffix ignoring case |
| FileTool.FilesPatternFinds | tm1filetools/tools/filetool.py:120-122 | the file pattern matches a name exactly when the name starts with the prefix and has a later dot followed by the suffix, both ignoring case |
| FileTool.SuffixAfter | tm1filetools/tools/filetool.py:122 | a dot followed by the suffix occurs at or after position n of a name exactly when it occurs in the name's tail from n |
| FileTool.GetModelCubes | tm1filetools/tools/filetool.py:55-57 | a cube is listed exactly when it is one of the cube files and is not a control object |
| FileTool.GetModelDimensions | tm1filetools/tools/filetool.py:59-61 | a dimension is listed exactly when it is one of the dimension files and is not a control object |
| FileTool.GetControlCubes | tm1filetools/tools/filetool.py:63-65 | a cube is listed exactly when it is one of the cube files and is a control object |
| FileTool.GetControlDimensions | tm1filetools/tools/filetool.py:67-69 | a dimension is listed exactly when it is one of the dimension files and is a control object |
| FileTool.FilesWhere | tm1filetools/tools/filetool.py:55-69 | a file is kept exactly when it is in the list with the requested control flag, and the result is no longer than the list |
| FileTool.ModelAndControlInterleave | tm1filetools/tools/filetool.py:55-69 | the list is an order-preserving interleaving of its model files and its control files |
| FileTool.ModelAndControlCount | tm1filetools/tools/filetool.py:55-69 | the model files and the control files together are the list's files, with multiplicity |
| FileTool.ModelAndControlPartition | tm1filetools/tools/filetool.py:55-69 | the model and control files interleave to the list, account for its files with multiplicity, and share no file |
| FileTool.FolderPartition | tm1filetools/tools/filetool.py:55-69 | the cube files split into model and control cubes, and the dimension files into model and control dimensions, each as an order-preserving partition |
| FileTool.DataPathFromCfg | tm1filetools/tools/filetool.py:133-165 | no config, or an empty or missing DataBaseDirectory, gives the root path; an absolute directory gives itself when local and None otherwise; a relative one is joined to the root; None exactly for an absolute directory that is not local |

## Left out

- `linecode.py` (the base class `TM1LinecodeFile`) is not part of this model. Its primitives (`_get_line_by_code`, `_get_line_index_by_code`, `_get_line_by_index`, `_get_multiline_block`, `_parse_single_string`, `_parse_single_int` and `_get_key_value_pair_string`) are defined here from the way `process.py` uses them and from the `.pro` format. Quoting is modelled as doubled-quote escaping, and a marker is any line whose text before the first comma is a non-empty run of digits.
- The names blocks (codes 560 and 577) are read with `rstrip` on. This is the default of `_get_multiline_block`, which `process.py` calls without an argument.
- Lookups that would raise `KeyError`, `IndexError` or `ValueError` in Python are modelled as `Err` results. The model does not distinguish exception types beyond the error kinds in `Results.Error`.
- `int()` is modelled on plain decimal digits only. A sign, surrounding whitespace and underscores, which Python's `int()` also accepts, are not modelled.
- The section lengths are not checked, by the code or by the model. Each parallel array is meant to hold one row per name. The code instead reads row `i + 1` after each section's code line, whatever that line is. The model follows the code: a short integer section fails (`ShortParameterTypeSectionFails`, `ShortVariableSectionFails`), and a short key/value section silently reads the next code line (`ShortValueSectionReadsMarker`).
- `json.dumps` with `sort_keys` and `indent=4` is not modelled. The document is the `Json.Value` object before serialisation, and JSON object key order is not represented because `JObject` is a map.
- File-system access is left out: reading the `.pro` file in the constructor, `glob`/`rglob`, `_find_*`, `_find_config_file` and `TM1CfgFile.get_parameter`. The folder's files and the config value are parameters.
- `Matches` is a reference semantics of glob for the three pattern forms the tool produces (`*`, a two-character class, a literal character). Path separators, `**`, hidden files and the way `rglob` recurses are not modelled.
- `Lower`, `Upper` and `Either` handle ASCII letters only. Python's Unicode `isalpha`, `lower` and `upper` are not modelled, and neither is Unicode whitespace in `rstrip`.
- DataPathFromCfg: `PureWindowsPath.is_absolute` is a parameter, and `Path.joinpath(...).resolve()` is represented by the `JoinedPath` constructor, because path normalisation and the file system are not modelled.
- DataPathFromCfg: `WindowsPath(pure_path)` raises on a host that is not Windows; the model returns the absolute path whatever the host, because the host is not modelled.
- `get_attr_cubes` and `get_attr_dimensions` are not modelled. They build new file objects from attribute prefixes, and those objects are not part of this model.
- Concurrency is not relevant: everything here is single-threaded.

## Findings

| source | as written | input that shows it | evidently intended | confidence | as-written member | corrected member |
|---|---|---|---|---|---|---|
| src/tm1filetools/files/text/process.py:94-97 | `_to_json` takes an `rstrip` argument but calls `get_prolog_code()` and the other three with their default, so the code tabs are always right-stripped | a file whose prolog's first code line ends in a space, with `_to_json(rstrip=False)`: the space is dropped anyway | `rstrip` is passed on to the four code-tab getters | not executed | ProcessFile.ToJsonAsWritten, DocumentProperties.AsWrittenIgnoresRstrip | ProcessFile.ToJson, DocumentProperties.RstripReachesDocument |

`ProcessFile.ToJsonAsWritten` builds the document as the code does, and `DocumentProperties.AsWrittenIgnoresRstrip` shows that `rstrip` does not reach it. `ProcessFile.Document` and `ProcessFile.ToJson` pass `rstrip` on, and the rest of the model uses them.
