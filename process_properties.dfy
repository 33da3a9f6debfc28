/**
 * What the decoder of a process file promises about its parameters, its variables and its
 * data source: which line each field comes from, when a decode fails and with what error.
 */
module ProcessProperties {
  import opened Results
  import opened Json
  import opened LineCode
  import opened ParallelArray
  import opened ProcessFile

  // ----- parameters -----

  /**
   * `p` is the record of parameter `i`, named `name`: its type, prompt and default are read
   * from row `i` of the 561, 637 and 590 sections, the line `i + 1` below each code line.
   */
  ghost predicate ParameterRow(lines: seq<string>, sections: ParameterSections, name: string, i: nat, p: Value) {
    && sections.types + i + 1 < |lines|
    && sections.hints + i + 1 < |lines|
    && sections.defaults + i + 1 < |lines|
    && ParseDecimal(lines[sections.types + i + 1]).Ok?
    && ParseDecimal(lines[sections.types + i + 1]).value in TypeMapping
    && KeyValuePair(lines[sections.hints + i + 1]).Ok?
    && KeyValuePair(lines[sections.defaults + i + 1]).Ok?
    && p == JObject(map[
         "Name" := JString(name),
         "Prompt" := JString(KeyValuePair(lines[sections.hints + i + 1]).value.value),
         "Type" := JString(TypeMapping[ParseDecimal(lines[sections.types + i + 1]).value]),
         "Value" := JString(KeyValuePair(lines[sections.defaults + i + 1]).value.value)])
  }

  /** A parameter record that decodes is the one its three rows describe. */
  lemma ParameterRecordFields(lines: seq<string>, sections: ParameterSections, name: string, i: nat)
    ensures ParameterRecord(lines, sections, name, i).Ok? ==>
      ParameterRow(lines, sections, name, i, ParameterRecord(lines, sections, name, i).value)
  {
  }

  /**
   * Given the three sections and the names block, the parameters decode exactly when every
   * row decodes; then there is one parameter per name, in name order, and parameter `i` is
   * named by line `i` of the names block and read from row `i` of each section.
   */
  lemma ParameterFields(lines: seq<string>, sections: ParameterSections, names: seq<string>)
    requires ParameterSectionsOf(lines) == Ok(sections)
    requires ParameterNames(lines) == Ok(names)
    ensures Parameters(lines).Ok? <==>
      forall i :: 0 <= i < |names| ==> ParameterRecord(lines, sections, names[i], i).Ok?
    ensures Parameters(lines).Ok? ==>
      && |Parameters(lines).value| == |names|
      && forall i :: 0 <= i < |names| ==> ParameterRow(lines, sections, names[i], i, Parameters(lines).value[i])
  {
    var record := ParameterRecordFn(lines, sections);
    assert Parameters(lines) == Assemble(names, record, |names|);
    AssembleRows(names, record, |names|);
    if Parameters(lines).Ok? {
      var ps := Parameters(lines).value;
      forall i | 0 <= i < |names|
        ensures ParameterRow(lines, sections, names[i], i, ps[i])
      {
        assert ps[i] == record(names[i], i).value;
        ParameterRecordFields(lines, sections, names[i], i);
      }
    }
  }

  /**
   * A type code other than 1 or 2 in row `i` stops the decode with that code, once the rows
   * before it have decoded.
   */
  lemma UnknownParameterTypeFails(lines: seq<string>, i: nat, code: int)
    requires ParameterSectionsOf(lines).Ok? && ParameterNames(lines).Ok?
    requires i < |ParameterNames(lines).value|
    requires forall j :: 0 <= j < i ==>
      ParameterRecord(lines, ParameterSectionsOf(lines).value, ParameterNames(lines).value[j], j).Ok?
    requires RowLine(lines, ParameterSectionsOf(lines).value.types, i).Ok?
    requires ParseDecimal(RowLine(lines, ParameterSectionsOf(lines).value.types, i).value) == Ok(code)
    requires code != 1 && code != 2
    ensures Parameters(lines) == Err(UnknownTypeCode(code))
  {
    var names := ParameterNames(lines).value;
    var record := ParameterRecordFn(lines, ParameterSectionsOf(lines).value);
    AssembleRows(names, record, i);
    AssembleStopsAt(names, record, i);
  }

  /** A type-code section with fewer rows than there are names makes the decode fail. */
  lemma ShortParameterTypeSectionFails(lines: seq<string>)
    requires ParameterSectionsOf(lines).Ok? && ParameterNames(lines).Ok?
    requires SectionLength(lines, ParameterSectionsOf(lines).value.types) < |ParameterNames(lines).value|
    ensures Parameters(lines).Err?
  {
    var names := ParameterNames(lines).value;
    var sections := ParameterSectionsOf(lines).value;
    var n := SectionLength(lines, sections.types);
    IntRowPastSectionFails(lines, sections.types);
    assert TypeRow(lines, sections.types, n).Err?;
    assert ParameterRecord(lines, sections, names[n], n).Err?;
    AssembleRows(names, ParameterRecordFn(lines, sections), |names|);
  }

  /** Reading a number from the row just past a section fails: that row holds a comma or is missing. */
  lemma IntRowPastSectionFails(lines: seq<string>, base: nat)
    requires base < |lines|
    ensures IntRow(lines, base, SectionLength(lines, base)).Err?
  {
    var row := RowLine(lines, base, SectionLength(lines, base));
    if row.Ok? {
      MarkerIsNotDecimal(row.value);
    }
  }

  /**
   * A key/value section with fewer rows than there are names does not fail: the row past
   * it is the next section's code line, which reads as the key/value pair of that code and
   * its payload.
   */
  lemma ShortValueSectionReadsMarker(lines: seq<string>, base: nat, code: nat, payload: string)
    requires base < |lines|
    requires SectionEnd(lines, base + 1) < |lines|
    requires lines[SectionEnd(lines, base + 1)] == DecimalText(code) + [Delimiter] + payload
    requires !IsQuoted(payload)
    ensures ValueRow(lines, base, SectionLength(lines, base)) == Ok(payload)
  {
    var k := DecimalText(code);
    assert forall j :: 0 <= j < |k| ==> k[j] != Delimiter by {
      forall j | 0 <= j < |k| ensures k[j] != Delimiter {
        assert IsDigit(k[j]);
      }
    }
    KeyValueRoundTrip(k, payload);
  }

  // ----- variables -----

  /**
   * `v` is the record of variable `i`, named `name`: its position, type, start and end bytes
   * are read from row `i` of the 579, 578, 580 and 581 sections.
   */
  ghost predicate VariableRow(lines: seq<string>, sections: VariableSections, name: string, i: nat, v: Value) {
    && sections.positions + i + 1 < |lines|
    && sections.types + i + 1 < |lines|
    && sections.startBytes + i + 1 < |lines|
    && sections.endBytes + i + 1 < |lines|
    && ParseDecimal(lines[sections.positions + i + 1]).Ok?
    && ParseDecimal(lines[sections.types + i + 1]).Ok?
    && ParseDecimal(lines[sections.types + i + 1]).value in TypeMapping
    && ParseDecimal(lines[sections.startBytes + i + 1]).Ok?
    && ParseDecimal(lines[sections.endBytes + i + 1]).Ok?
    && v == JObject(map[
         "EndByte" := JNumber(ParseDecimal(lines[sections.endBytes + i + 1]).value),
         "Name" := JString(name),
         "Position" := JNumber(ParseDecimal(lines[sections.positions + i + 1]).value),
         "StartByte" := JNumber(ParseDecimal(lines[sections.startBytes + i + 1]).value),
         "Type" := JString(TypeMapping[ParseDecimal(lines[sections.types + i + 1]).value])])
  }

  /** A variable record that decodes is the one its four rows describe. */
  lemma VariableRecordFields(lines: seq<string>, sections: VariableSections, name: string, i: nat)
    ensures VariableRecord(lines, sections, name, i).Ok? ==>
      VariableRow(lines, sections, name, i, VariableRecord(lines, sections, name, i).value)
  {
  }

  /**
   * Given the names block and the four sections, the variables decode exactly when every
   * row decodes; then there is one variable per name, in name order, read from row `i` of
   * each section.
   */
  lemma VariableFields(lines: seq<string>, names: seq<string>, sections: VariableSections)
    requires VariableNames(lines) == Ok(names)
    requires VariableSectionsOf(lines) == Ok(sections)
    ensures Variables(lines).Ok? <==>
      forall i :: 0 <= i < |names| ==> VariableRecord(lines, sections, names[i], i).Ok?
    ensures Variables(lines).Ok? ==>
      && |Variables(lines).value| == |names|
      && forall i :: 0 <= i < |names| ==> VariableRow(lines, sections, names[i], i, Variables(lines).value[i])
  {
    var record := VariableRecordFn(lines, sections);
    assert Variables(lines) == Assemble(names, record, |names|);
    AssembleRows(names, record, |names|);
    if Variables(lines).Ok? {
      var vs := Variables(lines).value;
      forall i | 0 <= i < |names|
        ensures VariableRow(lines, sections, names[i], i, vs[i])
      {
        assert vs[i] == record(names[i], i).value;
        VariableRecordFields(lines, sections, names[i], i);
      }
    }
  }

  /** The record of a row that lies just past any of its four sections does not decode. */
  lemma VariableRecordPastSectionFails(lines: seq<string>, sections: VariableSections, name: string, i: nat)
    requires
      && sections.positions < |lines| && sections.types < |lines|
      && sections.startBytes < |lines| && sections.endBytes < |lines|
    requires
      || i == SectionLength(lines, sections.positions)
      || i == SectionLength(lines, sections.types)
      || i == SectionLength(lines, sections.startBytes)
      || i == SectionLength(lines, sections.endBytes)
    ensures VariableRecord(lines, sections, name, i).Err?
  {
    if i == SectionLength(lines, sections.positions) {
      IntRowPastSectionFails(lines, sections.positions);
    } else if i == SectionLength(lines, sections.types) {
      IntRowPastSectionFails(lines, sections.types);
      assert TypeRow(lines, sections.types, i).Err?;
    } else if i == SectionLength(lines, sections.startBytes) {
      IntRowPastSectionFails(lines, sections.startBytes);
    } else {
      IntRowPastSectionFails(lines, sections.endBytes);
    }
  }

  /** One variable row that does not decode makes the whole list fail. */
  lemma VariablesFailOnRow(lines: seq<string>, names: seq<string>, sections: VariableSections, i: nat)
    requires VariableNames(lines) == Ok(names)
    requires VariableSectionsOf(lines) == Ok(sections)
    requires i < |names| && VariableRecord(lines, sections, names[i], i).Err?
    ensures Variables(lines).Err?
  {
    var record := VariableRecordFn(lines, sections);
    assert Variables(lines) == Assemble(names, record, |names|);
    AssembleRows(names, record, |names|);
  }

  /** Any of the four variable sections holding fewer rows than there are names makes the decode fail. */
  lemma ShortVariableSectionFails(lines: seq<string>, names: seq<string>, sections: VariableSections)
    requires VariableNames(lines) == Ok(names)
    requires VariableSectionsOf(lines) == Ok(sections)
    requires
      || SectionLength(lines, sections.positions) < |names|
      || SectionLength(lines, sections.types) < |names|
      || SectionLength(lines, sections.startBytes) < |names|
      || SectionLength(lines, sections.endBytes) < |names|
    ensures Variables(lines).Err?
  {
    var i: nat;
    if SectionLength(lines, sections.positions) < |names| {
      i := SectionLength(lines, sections.positions);
    } else if SectionLength(lines, sections.types) < |names| {
      i := SectionLength(lines, sections.types);
    } else if SectionLength(lines, sections.startBytes) < |names| {
      i := SectionLength(lines, sections.startBytes);
    } else {
      i := SectionLength(lines, sections.endBytes);
    }
    VariableRecordPastSectionFails(lines, sections, names[i], i);
    VariablesFailOnRow(lines, names, sections, i);
  }

  // ----- data source -----

  /** A NULL data source exports as the type "None" and nothing else; no other field is read. */
  lemma NullDatasource(lines: seq<string>)
    requires StringAt(lines, DatasourceTypeTag) == Ok("NULL")
    ensures Datasource(lines) == Ok(map["Type" := JString("None")])
  {
  }

  /** A raw data-source type outside the table makes the decode fail with that type. */
  lemma UnmappedDatasourceFails(lines: seq<string>, rawType: string)
    requires StringAt(lines, DatasourceTypeTag) == Ok(rawType)
    requires rawType != "NULL" && rawType != "CHARACTERDELIMITED"
    ensures Datasource(lines) == Err(UnsupportedDatasourceType(rawType))
  {
  }

  /**
   * A character-delimited data source decodes exactly when its seven fields read, and then
   * exports its type as "ASCII", its delimiter type as "Character" and the seven fields.
   */
  lemma CharacterDelimitedDatasource(lines: seq<string>)
    requires StringAt(lines, DatasourceTypeTag) == Ok("CHARACTERDELIMITED")
    ensures Datasource(lines).Ok? <==>
      && StringAt(lines, DecimalSeparatorTag).Ok?
      && StringAt(lines, DelimiterCharTag).Ok?
      && IntAt(lines, HeaderRecordsTag).Ok?
      && StringAt(lines, QuoteCharacterTag).Ok?
      && StringAt(lines, ThousandSeparatorTag).Ok?
      && StringAt(lines, ClientSourceNameTag).Ok?
      && StringAt(lines, ServerSourceNameTag).Ok?
    ensures Datasource(lines).Ok? ==> Datasource(lines).value == map[
      "Type" := JString("ASCII"),
      "asciiDelimiterType" := JString("Character"),
      "asciiDecimalSeparator" := JString(StringAt(lines, DecimalSeparatorTag).value),
      "asciiDelimiterChar" := JString(StringAt(lines, DelimiterCharTag).value),
      "asciiHeaderRecords" := JNumber(IntAt(lines, HeaderRecordsTag).value),
      "asciiQuoteCharacter" := JString(StringAt(lines, QuoteCharacterTag).value),
      "asciiThousandSeparator" := JString(StringAt(lines, ThousandSeparatorTag).value),
      "dataSourceNameForClient" := JString(StringAt(lines, ClientSourceNameTag).value),
      "dataSourceNameForServer" := JString(StringAt(lines, ServerSourceNameTag).value)]
  {
  }
}
