/**
 * `TM1ProcessFile`: decodes a TM1 `.pro` process file into the document its JSON export
 * renders: the name, the four procedures, the security flag, the parameters, the variables
 * and the data source.
 */
module ProcessFile {
  import opened Results
  import opened Json
  import opened LineCode
  import opened ParallelArray

  // The codes of the fields this decoder reads.
  const NameTag: nat := 602
  const PrologTag: nat := 572
  const MetadataTag: nat := 573
  const DataTag: nat := 574
  const EpilogTag: nat := 575
  const SecurityAccessTag: nat := 1217
  const ParameterNamesTag: nat := 560
  const ParameterTypesTag: nat := 561
  const ParameterDefaultsTag: nat := 590
  const ParameterHintsTag: nat := 637
  const VariableNamesTag: nat := 577
  const VariableTypesTag: nat := 578
  const VariablePositionsTag: nat := 579
  const VariableStartBytesTag: nat := 580
  const VariableEndBytesTag: nat := 581
  const DatasourceTypeTag: nat := 562
  const DecimalSeparatorTag: nat := 588
  const DelimiterCharTag: nat := 567
  const HeaderRecordsTag: nat := 569
  const QuoteCharacterTag: nat := 568
  const ThousandSeparatorTag: nat := 589
  const ClientSourceNameTag: nat := 585
  const ServerSourceNameTag: nat := 586

  /** `_code_block_prefix_lines`: what TM1 writes into a code tab that holds no code. */
  const CodeBlockPrefixLines: seq<string> :=
    ["", "#****Begin: Generated Statements***", "#****End: Generated Statements****"]

  /** `_datasource_type_mapping`: the raw data-source type to the exported one. */
  const DatasourceTypeMapping: map<string, string> :=
    map["NULL" := "None", "CHARACTERDELIMITED" := "ASCII"]

  /** `_type_mapping`: the type code of a parameter or variable to its type name. */
  const TypeMapping: map<int, string> := map[1 := "Numeric", 2 := "String"]

  /** The line terminator the exported procedures use, whatever the host's. */
  const Newline: string := "\r\n"

  // ----- code blocks -----

  /** A code block of this file kind: an empty code tab reads as no lines. */
  function CodeBlock(lines: seq<string>, tag: nat, rstrip: bool): Result<seq<string>> {
    MultilineBlock(lines, tag, rstrip, CodeBlockPrefixLines)
  }

  /** `get_prolog_code`: the lines after code 572; never the generated lines of an empty tab. */
  function GetPrologCode(lines: seq<string>, rstrip: bool): (r: Result<seq<string>>)
    ensures r.Err? <==> !HasCode(lines, PrologTag)
    ensures r.Ok? ==> r.value != CodeBlockPrefixLines
  {
    CodeBlock(lines, PrologTag, rstrip)
  }

  /** `get_metadata_code`: the lines after code 573; never the generated lines of an empty tab. */
  function GetMetadataCode(lines: seq<string>, rstrip: bool): (r: Result<seq<string>>)
    ensures r.Err? <==> !HasCode(lines, MetadataTag)
    ensures r.Ok? ==> r.value != CodeBlockPrefixLines
  {
    CodeBlock(lines, MetadataTag, rstrip)
  }

  /** `get_data_code`: the lines after code 574; never the generated lines of an empty tab. */
  function GetDataCode(lines: seq<string>, rstrip: bool): (r: Result<seq<string>>)
    ensures r.Err? <==> !HasCode(lines, DataTag)
    ensures r.Ok? ==> r.value != CodeBlockPrefixLines
  {
    CodeBlock(lines, DataTag, rstrip)
  }

  /** `get_epilog_code`: the lines after code 575; never the generated lines of an empty tab. */
  function GetEpilogCode(lines: seq<string>, rstrip: bool): (r: Result<seq<string>>)
    ensures r.Err? <==> !HasCode(lines, EpilogTag)
    ensures r.Ok? ==> r.value != CodeBlockPrefixLines
  {
    CodeBlock(lines, EpilogTag, rstrip)
  }

  /** Every line followed by a CRLF: what the loop of `_codeblock_to_json_str` builds up. */
  function Terminated(lines: seq<string>): string
    decreases |lines|
  {
    if lines == [] then [] else lines[0] + Newline + Terminated(lines[1..])
  }

  /** The lines joined by CRLF, with nothing after the last line. */
  function JoinLines(lines: seq<string>): (r: string)
    ensures lines == [] ==> r == []
    decreases |lines|
  {
    if lines == [] then []
    else if |lines| == 1 then lines[0]
    else lines[0] + Newline + JoinLines(lines[1..])
  }

  /** `str.removesuffix`: drops one trailing copy of `suffix`, if there is one. */
  function RemoveSuffix(s: string, suffix: string): (r: string)
    ensures |suffix| <= |s| && s[|s| - |suffix|..] == suffix ==> r + suffix == s
    ensures !(|suffix| <= |s| && s[|s| - |suffix|..] == suffix) ==> r == s
  {
    if |suffix| <= |s| && s[|s| - |suffix|..] == suffix then s[..|s| - |suffix|] else s
  }

  lemma {:induction false} TerminatedAppend(lines: seq<string>, line: string)
    ensures Terminated(lines + [line]) == Terminated(lines) + line + Newline
    decreases |lines|
  {
    if lines == [] {
      assert [line][1..] == [];
    } else {
      assert (lines + [line])[1..] == lines[1..] + [line];
      TerminatedAppend(lines[1..], line);
    }
  }

  /** Terminating every line is joining them and adding one more CRLF. */
  lemma {:induction false} TerminatedIsJoinedPlusNewline(lines: seq<string>)
    requires lines != []
    ensures Terminated(lines) == JoinLines(lines) + Newline
    decreases |lines|
  {
    if |lines| == 1 {
      assert lines[1..] == [];
    } else {
      TerminatedIsJoinedPlusNewline(lines[1..]);
    }
  }

  /** `_codeblock_to_json_str`: the lines joined by CRLF, with no CRLF after the last line. */
  method CodeblockToJsonStr(lines: seq<string>) returns (r: string)
    ensures r == JoinLines(lines)
  {
    var newline := Newline;
    var jsonStr := "";
    for i := 0 to |lines|
      invariant jsonStr == Terminated(lines[..i])
    {
      TerminatedAppend(lines[..i], lines[i]);
      assert lines[..i + 1] == lines[..i] + [lines[i]];
      jsonStr := jsonStr + lines[i] + newline;
    }
    assert lines[..|lines|] == lines;
    r := RemoveSuffix(jsonStr, newline);
    if lines != [] {
      TerminatedIsJoinedPlusNewline(lines);
      assert jsonStr[|jsonStr| - |newline|..] == newline;
      assert jsonStr[..|jsonStr| - |newline|] == JoinLines(lines);
    }
  }

  /** The text of a procedure field: its code block joined by CRLF. */
  function ProcedureText(lines: seq<string>, tag: nat, rstrip: bool): Result<string> {
    var block :- CodeBlock(lines, tag, rstrip);
    Ok(JoinLines(block))
  }

  // ----- single fields -----

  /** `_parse_single_string(_get_line_by_code(tag))`. */
  function StringAt(lines: seq<string>, tag: nat): Result<string> {
    var line :- LineByCode(lines, tag);
    ParseSingleString(line)
  }

  /** `_parse_single_int(_get_line_by_code(tag))`. */
  function IntAt(lines: seq<string>, tag: nat): Result<int> {
    var line :- LineByCode(lines, tag);
    ParseSingleInt(line)
  }

  /** `_type_mapping[code]`: 1 is Numeric, 2 is String, any other code is a KeyError. */
  function TypeName(code: int): (r: Result<string>)
    ensures r.Ok? <==> code == 1 || code == 2
    ensures code == 1 ==> r == Ok("Numeric")
    ensures code == 2 ==> r == Ok("String")
    ensures r.Err? ==> r.error == UnknownTypeCode(code)
  {
    if code in TypeMapping then Ok(TypeMapping[code]) else Err(UnknownTypeCode(code))
  }

  // ----- rows of the parallel sections -----

  /** `_get_line_by_index(base + i + 1)`: row `i` of the section whose code line is at `base`. */
  function RowLine(lines: seq<string>, base: nat, i: nat): Result<string> {
    LineByIndex(lines, base + i + 1)
  }

  /** A type-code row: `_type_mapping[int(row)]`. */
  function TypeRow(lines: seq<string>, base: nat, i: nat): Result<string> {
    var line :- RowLine(lines, base, i);
    var code :- ParseDecimal(line);
    TypeName(code)
  }

  /** A number row: `int(row)`. */
  function IntRow(lines: seq<string>, base: nat, i: nat): Result<int> {
    var line :- RowLine(lines, base, i);
    ParseDecimal(line)
  }

  /** A key/value row: `_get_key_value_pair_string(row)["value"]`. */
  function ValueRow(lines: seq<string>, base: nat, i: nat): Result<string> {
    var line :- RowLine(lines, base, i);
    var pair :- KeyValuePair(line);
    Ok(pair.value)
  }

  // ----- parameters -----

  /** Where the type, default and hint sections of the parameters start. */
  datatype ParameterSections = ParameterSections(types: nat, defaults: nat, hints: nat)

  const ParameterKeys: set<string> := {"Name", "Prompt", "Type", "Value"}

  /** The record of parameter `i`, named `name`: its type, hint and default rows. */
  function ParameterRecord(lines: seq<string>, sections: ParameterSections, name: string, i: nat)
    : (r: Result<Value>)
    ensures r.Ok? ==> r.value.JObject? && r.value.fields.Keys == ParameterKeys
    ensures r.Ok? ==> r.value.fields["Name"] == JString(name)
  {
    var typeName :- TypeRow(lines, sections.types, i);
    var hint :- ValueRow(lines, sections.hints, i);
    var defaultValue :- ValueRow(lines, sections.defaults, i);
    Ok(JObject(map[
      "Name" := JString(name),
      "Prompt" := JString(hint),
      "Type" := JString(typeName),
      "Value" := JString(defaultValue)]))
  }

  function ParameterRecordFn(lines: seq<string>, sections: ParameterSections)
    : (string, nat) -> Result<Value>
  {
    (name: string, i: nat) => ParameterRecord(lines, sections, name, i)
  }

  /** The three sections located in the order `_get_parameters` looks them up. */
  function ParameterSectionsOf(lines: seq<string>): (r: Result<ParameterSections>)
    ensures r.Ok? ==>
      && r.value.types < |lines| && IsCodeLine(lines[r.value.types], ParameterTypesTag)
      && r.value.defaults < |lines| && IsCodeLine(lines[r.value.defaults], ParameterDefaultsTag)
      && r.value.hints < |lines| && IsCodeLine(lines[r.value.hints], ParameterHintsTag)
    ensures r.Err? <==>
      !HasCode(lines, ParameterTypesTag) || !HasCode(lines, ParameterDefaultsTag) || !HasCode(lines, ParameterHintsTag)
    ensures r.Ok? ==> r.value == ParameterSections(
      LineIndexByCode(lines, ParameterTypesTag).value,
      LineIndexByCode(lines, ParameterDefaultsTag).value,
      LineIndexByCode(lines, ParameterHintsTag).value)
  {
    var types :- LineIndexByCode(lines, ParameterTypesTag);
    var defaults :- LineIndexByCode(lines, ParameterDefaultsTag);
    var hints :- LineIndexByCode(lines, ParameterHintsTag);
    Ok(ParameterSections(types, defaults, hints))
  }

  function ParameterNames(lines: seq<string>): Result<seq<string>> {
    CodeBlock(lines, ParameterNamesTag, true)
  }

  /** What `_get_parameters` returns: one record per name of the 560 block. */
  function Parameters(lines: seq<string>): (r: Result<seq<Value>>)
    ensures r.Ok? ==> ParameterNames(lines).Ok? && |r.value| == |ParameterNames(lines).value|
  {
    var sections :- ParameterSectionsOf(lines);
    var names :- ParameterNames(lines);
    Assemble(names, ParameterRecordFn(lines, sections), |names|)
  }

  /** `_get_parameters`: locates the three sections, then reads one record per name. */
  method GetParameters(lines: seq<string>) returns (r: Result<seq<Value>>)
    ensures r == Parameters(lines)
  {
    var idxDatatype :- LineIndexByCode(lines, ParameterTypesTag);
    var idxDefault :- LineIndexByCode(lines, ParameterDefaultsTag);
    var idxHint :- LineIndexByCode(lines, ParameterHintsTag);
    var names :- ParameterNames(lines);
    var record := ParameterRecordFn(lines, ParameterSections(idxDatatype, idxDefault, idxHint));
    r := AssembleEach(names, record);
  }

  // ----- variables -----

  /** Where the position, type, start-byte and end-byte sections of the variables start. */
  datatype VariableSections = VariableSections(positions: nat, types: nat, startBytes: nat, endBytes: nat)

  const VariableKeys: set<string> := {"EndByte", "Name", "Position", "StartByte", "Type"}

  /** The record of variable `i`, named `name`: its offset, type, start and end rows. */
  function VariableRecord(lines: seq<string>, sections: VariableSections, name: string, i: nat)
    : (r: Result<Value>)
    ensures r.Ok? ==> r.value.JObject? && r.value.fields.Keys == VariableKeys
    ensures r.Ok? ==> r.value.fields["Name"] == JString(name)
  {
    var offset :- IntRow(lines, sections.positions, i);
    var varType :- TypeRow(lines, sections.types, i);
    var start :- IntRow(lines, sections.startBytes, i);
    var end :- IntRow(lines, sections.endBytes, i);
    Ok(JObject(map[
      "EndByte" := JNumber(end),
      "Name" := JString(name),
      "Position" := JNumber(offset),
      "StartByte" := JNumber(start),
      "Type" := JString(varType)]))
  }

  function VariableRecordFn(lines: seq<string>, sections: VariableSections)
    : (string, nat) -> Result<Value>
  {
    (name: string, i: nat) => VariableRecord(lines, sections, name, i)
  }

  /** The four sections located in the order `_get_variables` looks them up. */
  function VariableSectionsOf(lines: seq<string>): (r: Result<VariableSections>)
    ensures r.Ok? ==>
      && r.value.positions < |lines| && IsCodeLine(lines[r.value.positions], VariablePositionsTag)
      && r.value.types < |lines| && IsCodeLine(lines[r.value.types], VariableTypesTag)
      && r.value.startBytes < |lines| && IsCodeLine(lines[r.value.startBytes], VariableStartBytesTag)
      && r.value.endBytes < |lines| && IsCodeLine(lines[r.value.endBytes], VariableEndBytesTag)
    ensures r.Err? <==>
      || !HasCode(lines, VariablePositionsTag) || !HasCode(lines, VariableTypesTag)
      || !HasCode(lines, VariableStartBytesTag) || !HasCode(lines, VariableEndBytesTag)
    ensures r.Ok? ==> r.value == VariableSections(
      LineIndexByCode(lines, VariablePositionsTag).value,
      LineIndexByCode(lines, VariableTypesTag).value,
      LineIndexByCode(lines, VariableStartBytesTag).value,
      LineIndexByCode(lines, VariableEndBytesTag).value)
  {
    var positions :- LineIndexByCode(lines, VariablePositionsTag);
    var types :- LineIndexByCode(lines, VariableTypesTag);
    var startBytes :- LineIndexByCode(lines, VariableStartBytesTag);
    var endBytes :- LineIndexByCode(lines, VariableEndBytesTag);
    Ok(VariableSections(positions, types, startBytes, endBytes))
  }

  function VariableNames(lines: seq<string>): Result<seq<string>> {
    CodeBlock(lines, VariableNamesTag, true)
  }

  /** What `_get_variables` returns: one record per name of the 577 block. */
  function Variables(lines: seq<string>): (r: Result<seq<Value>>)
    ensures r.Ok? ==> VariableNames(lines).Ok? && |r.value| == |VariableNames(lines).value|
  {
    var names :- VariableNames(lines);
    var sections :- VariableSectionsOf(lines);
    Assemble(names, VariableRecordFn(lines, sections), |names|)
  }

  /** `_get_variables`: reads the names, locates the four sections, then one record per name. */
  method GetVariables(lines: seq<string>) returns (r: Result<seq<Value>>)
    ensures r == Variables(lines)
  {
    var names :- VariableNames(lines);
    var idxOffset :- LineIndexByCode(lines, VariablePositionsTag);
    var idxTypes :- LineIndexByCode(lines, VariableTypesTag);
    var idxStart :- LineIndexByCode(lines, VariableStartBytesTag);
    var idxEnd :- LineIndexByCode(lines, VariableEndBytesTag);
    var sections := VariableSections(idxOffset, idxTypes, idxStart, idxEnd);
    var record := VariableRecordFn(lines, sections);
    r := AssembleEach(names, record);
  }

  // ----- data source -----

  /**
   * The fields of a data source that is not "None", read in the order the source reads them
   * and added to `head`, which already holds its type.
   */
  function SourceFields(lines: seq<string>, head: map<string, Value>): (r: Result<map<string, Value>>)
    ensures r.Ok? ==> r.value.Keys == head.Keys + SourceFieldKeys
  {
    var decimalSeparator :- StringAt(lines, DecimalSeparatorTag);
    var delimiterChar :- StringAt(lines, DelimiterCharTag);
    var headerRecords :- IntAt(lines, HeaderRecordsTag);
    var quoteCharacter :- StringAt(lines, QuoteCharacterTag);
    var thousandSeparator :- StringAt(lines, ThousandSeparatorTag);
    var clientName :- StringAt(lines, ClientSourceNameTag);
    var serverName :- StringAt(lines, ServerSourceNameTag);
    Ok(head[
      "asciiDecimalSeparator" := JString(decimalSeparator)][
      "asciiDelimiterChar" := JString(delimiterChar)][
      "asciiHeaderRecords" := JNumber(headerRecords)][
      "asciiQuoteCharacter" := JString(quoteCharacter)][
      "asciiThousandSeparator" := JString(thousandSeparator)][
      "dataSourceNameForClient" := JString(clientName)][
      "dataSourceNameForServer" := JString(serverName)])
  }

  const SourceFieldKeys: set<string> := {
    "asciiDecimalSeparator", "asciiDelimiterChar", "asciiHeaderRecords", "asciiQuoteCharacter",
    "asciiThousandSeparator", "dataSourceNameForClient", "dataSourceNameForServer"}

  /**
   * What `_get_datasource` returns: a source whose raw type is not in the mapping fails; a
   * "None" source holds only its type, and any other one holds its type and every field.
   */
  function Datasource(lines: seq<string>): (r: Result<map<string, Value>>)
    ensures r.Ok? ==> StringAt(lines, DatasourceTypeTag).Ok? && StringAt(lines, DatasourceTypeTag).value in DatasourceTypeMapping
    ensures r.Ok? ==> "Type" in r.value.Keys
    ensures r.Ok? ==> r.value.Keys == {"Type"} || SourceFieldKeys <= r.value.Keys
  {
    var rawType :- StringAt(lines, DatasourceTypeTag);
    if rawType !in DatasourceTypeMapping then Err(UnsupportedDatasourceType(rawType))
    else
      var mapped := DatasourceTypeMapping[rawType];
      var sourceType := if mapped != "" then mapped else "None";
      var typed := map["Type" := JString(sourceType)];
      if sourceType == "None" then Ok(typed)
      else if mapped == "ASCII" then SourceFields(lines, typed["asciiDelimiterType" := JString("Character")])
      else SourceFields(lines, typed)
  }

  /** `_get_datasource`: fills in the data-source dictionary key by key. */
  method GetDatasource(lines: seq<string>) returns (r: Result<map<string, Value>>)
    ensures r == Datasource(lines)
  {
    var datasource: map<string, Value> := map["Type" := JString("None")];
    var datasourceType :- StringAt(lines, DatasourceTypeTag);
    if datasourceType !in DatasourceTypeMapping {
      return Err(UnsupportedDatasourceType(datasourceType));
    }
    var datasourceTypeJson := DatasourceTypeMapping[datasourceType];
    if datasourceTypeJson != "" {
      datasource := datasource["Type" := JString(datasourceTypeJson)];
    }
    assert datasource == map["Type" := JString(if datasourceTypeJson != "" then datasourceTypeJson else "None")];
    if datasource["Type"] == JString("None") {
      return Ok(datasource);
    }
    if datasourceTypeJson == "ASCII" {
      datasource := datasource["asciiDelimiterType" := JString("Character")];
    }
    var decimalSeparator :- StringAt(lines, DecimalSeparatorTag);
    datasource := datasource["asciiDecimalSeparator" := JString(decimalSeparator)];
    var delimiterChar :- StringAt(lines, DelimiterCharTag);
    datasource := datasource["asciiDelimiterChar" := JString(delimiterChar)];
    var headerRecords :- IntAt(lines, HeaderRecordsTag);
    datasource := datasource["asciiHeaderRecords" := JNumber(headerRecords)];
    var quoteCharacter :- StringAt(lines, QuoteCharacterTag);
    datasource := datasource["asciiQuoteCharacter" := JString(quoteCharacter)];
    var thousandSeparator :- StringAt(lines, ThousandSeparatorTag);
    datasource := datasource["asciiThousandSeparator" := JString(thousandSeparator)];
    var clientName :- StringAt(lines, ClientSourceNameTag);
    datasource := datasource["dataSourceNameForClient" := JString(clientName)];
    var serverName :- StringAt(lines, ServerSourceNameTag);
    datasource := datasource["dataSourceNameForServer" := JString(serverName)];
    return Ok(datasource);
  }

  // ----- the whole document -----

  const DocumentKeys: set<string> := {
    "Name", "PrologProcedure", "MetadataProcedure", "DataProcedure", "EpilogProcedure",
    "HasSecurityAccess", "Parameters", "Variables", "DataSource"}

  /** The exported object of the nine parts of a process: exactly the nine document keys. */
  function DocumentObject(name: string, prolog: string, metadata: string, data: string, epilog: string,
                          securityAccess: bool, parameters: seq<Value>, variables: seq<Value>,
                          datasource: map<string, Value>): (r: Value)
    ensures r.JObject? && r.fields.Keys == DocumentKeys
  {
    JObject(map[
      "Name" := JString(name),
      "PrologProcedure" := JString(prolog),
      "MetadataProcedure" := JString(metadata),
      "DataProcedure" := JString(data),
      "EpilogProcedure" := JString(epilog),
      "HasSecurityAccess" := JBool(securityAccess),
      "Parameters" := JArray(parameters),
      "Variables" := JArray(variables),
      "DataSource" := JObject(datasource)])
  }

  /**
   * The document `_to_json` hands to `json.dumps`, built in the order the source builds it,
   * with `rstrip` passed on to the four code blocks.
   */
  function Document(lines: seq<string>, rstrip: bool): (r: Result<Value>)
    ensures r.Ok? ==> r.value.JObject? && r.value.fields.Keys == DocumentKeys
  {
    var name :- StringAt(lines, NameTag);
    var prolog :- ProcedureText(lines, PrologTag, rstrip);
    var metadata :- ProcedureText(lines, MetadataTag, rstrip);
    var data :- ProcedureText(lines, DataTag, rstrip);
    var epilog :- ProcedureText(lines, EpilogTag, rstrip);
    var securityAccess :- IntAt(lines, SecurityAccessTag);
    var parameters :- Parameters(lines);
    var variables :- Variables(lines);
    var datasource :- Datasource(lines);
    Ok(DocumentObject(name, prolog, metadata, data, epilog, securityAccess == 1, parameters, variables, datasource))
  }

  /**
   * `_to_json` as written: its `rstrip` argument never reaches the code blocks, so it builds
   * the trimmed document whatever it is asked for.
   */
  function DocumentAsWritten(lines: seq<string>, rstrip: bool): Result<Value> {
    Document(lines, true)
  }

  /**
   * `_to_json` step by step as written: the four code getters are called with their default,
   * so `rstrip` is accepted and never used.
   */
  method ToJsonAsWritten(lines: seq<string>, rstrip: bool) returns (r: Result<Value>)
    ensures r == DocumentAsWritten(lines, rstrip)
  {
    var name :- StringAt(lines, NameTag);
    var prologLines :- GetPrologCode(lines, true);
    var prolog := CodeblockToJsonStr(prologLines);
    var metadataLines :- GetMetadataCode(lines, true);
    var metadata := CodeblockToJsonStr(metadataLines);
    var dataLines :- GetDataCode(lines, true);
    var data := CodeblockToJsonStr(dataLines);
    var epilogLines :- GetEpilogCode(lines, true);
    var epilog := CodeblockToJsonStr(epilogLines);
    var securityAccess :- IntAt(lines, SecurityAccessTag);
    var hasSecurityAccess := securityAccess == 1;
    var parameters :- GetParameters(lines);
    var variables :- GetVariables(lines);
    var datasource :- GetDatasource(lines);
    return Ok(JObject(map[
      "Name" := JString(name),
      "PrologProcedure" := JString(prolog),
      "MetadataProcedure" := JString(metadata),
      "DataProcedure" := JString(data),
      "EpilogProcedure" := JString(epilog),
      "HasSecurityAccess" := JBool(hasSecurityAccess),
      "Parameters" := JArray(parameters),
      "Variables" := JArray(variables),
      "DataSource" := JObject(datasource)]));
  }

  /** `_to_json`, with its `rstrip` argument passed on to the four code blocks. */
  method ToJson(lines: seq<string>, rstrip: bool) returns (r: Result<Value>)
    ensures r == Document(lines, rstrip)
  {
    var name :- StringAt(lines, NameTag);
    var prologLines :- GetPrologCode(lines, rstrip);
    var prolog := CodeblockToJsonStr(prologLines);
    var metadataLines :- GetMetadataCode(lines, rstrip);
    var metadata := CodeblockToJsonStr(metadataLines);
    var dataLines :- GetDataCode(lines, rstrip);
    var data := CodeblockToJsonStr(dataLines);
    var epilogLines :- GetEpilogCode(lines, rstrip);
    var epilog := CodeblockToJsonStr(epilogLines);
    var securityAccess :- IntAt(lines, SecurityAccessTag);
    var hasSecurityAccess := securityAccess == 1;
    var parameters :- GetParameters(lines);
    var variables :- GetVariables(lines);
    var datasource :- GetDatasource(lines);
    return Ok(JObject(map[
      "Name" := JString(name),
      "PrologProcedure" := JString(prolog),
      "MetadataProcedure" := JString(metadata),
      "DataProcedure" := JString(data),
      "EpilogProcedure" := JString(epilog),
      "HasSecurityAccess" := JBool(hasSecurityAccess),
      "Parameters" := JArray(parameters),
      "Variables" := JArray(variables),
      "DataSource" := JObject(datasource)]));
  }
}
