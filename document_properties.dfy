/**
 * What the decoder promises about the whole exported document: its procedures, its keys,
 * when it decodes at all, and how its `rstrip` argument reaches the code blocks.
 */
module DocumentProperties {
  import opened Results
  import opened Json
  import opened LineCode
  import opened ProcessFile
  import opened ProcessProperties

  // ----- reading a procedure back -----

  /** The first CRLF at or after `from`: a carriage return directly followed by a line feed. */
  function FindNewline(s: string, from: nat): (r: Option<nat>)
    requires from <= |s|
    ensures r.Some? ==> from <= r.value && r.value + 1 < |s| && s[r.value] == '\r' && s[r.value + 1] == '\n'
    ensures r.Some? ==> forall j :: from <= j < r.value ==> !(s[j] == '\r' && s[j + 1] == '\n')
    ensures r.None? ==> forall j :: from <= j && j + 1 < |s| ==> !(s[j] == '\r' && s[j + 1] == '\n')
    decreases |s| - from
  {
    if from + 1 >= |s| then None
    else if s[from] == '\r' && s[from + 1] == '\n' then Some(from)
    else FindNewline(s, from + 1)
  }

  /** A procedure text cut at every CRLF: how a reader of the export recovers its lines. */
  function SplitLines(s: string): (r: seq<string>)
    ensures |r| >= 1
    decreases |s|
  {
    match FindNewline(s, 0)
    case None => [s]
    case Some(k) => [s[..k]] + SplitLines(s[k + 2..])
  }

  predicate NoLineFeed(line: string) {
    forall j :: 0 <= j < |line| ==> line[j] != '\n'
  }

  /** A line without a line feed, then a CRLF: the first CRLF is the one after the line. */
  lemma FindNewlineAfter(line: string, rest: string)
    requires NoLineFeed(line)
    ensures FindNewline(line + Newline + rest, 0) == Some(|line|)
  {
    var s := line + Newline + rest;
    assert s[|line|] == '\r' && s[|line| + 1] == '\n';
    forall j | 1 <= j <= |line| ensures s[j] != '\n' {
      if j < |line| {
        assert s[j] == line[j];
      } else {
        assert s[j] == '\r';
      }
    }
  }

  /** Cutting a line without line feeds, a CRLF and more text yields the line, then the cuts of the rest. */
  lemma SplitAfterLine(line: string, rest: string)
    requires NoLineFeed(line)
    ensures SplitLines(line + Newline + rest) == [line] + SplitLines(rest)
  {
    var s := line + Newline + rest;
    FindNewlineAfter(line, rest);
    assert s[..|line|] == line;
    assert s[|line| + 2..] == rest;
  }

  /** A line without a line feed holds no CRLF. */
  lemma NoNewlineIn(line: string)
    requires NoLineFeed(line)
    ensures FindNewline(line, 0).None?
  {
  }

  /**
   * Joining lines with CRLF and cutting the text at every CRLF gives the lines back, when
   * there is at least one line and no line holds a line feed.
   */
  lemma {:induction false} SplitJoinedLines(lines: seq<string>)
    requires lines != []
    requires forall i :: 0 <= i < |lines| ==> NoLineFeed(lines[i])
    ensures SplitLines(JoinLines(lines)) == lines
    decreases |lines|
  {
    if |lines| == 1 {
      NoNewlineIn(lines[0]);
    } else {
      var rest := JoinLines(lines[1..]);
      assert JoinLines(lines) == lines[0] + Newline + rest;
      SplitAfterLine(lines[0], rest);
      assert forall i :: 0 <= i < |lines[1..]| ==> NoLineFeed(lines[1..][i]) by {
        forall i | 0 <= i < |lines[1..]| ensures NoLineFeed(lines[1..][i]) {
          assert lines[1..][i] == lines[i + 1];
        }
      }
      SplitJoinedLines(lines[1..]);
      assert lines == [lines[0]] + lines[1..];
    }
  }

  // ----- the text of a code tab -----

  /**
   * The run of lines from `from` on, taken one at a time until a marker or the end of the
   * file, each right-trimmed when asked.
   */
  function RunFrom(lines: seq<string>, from: nat, rstrip: bool): (r: seq<string>)
    requires from <= |lines|
    ensures from + |r| <= |lines|
    ensures forall j :: from <= j < from + |r| ==> !IsMarker(lines[j]) && r[j - from] == Trimmed(lines[j], rstrip)
    ensures from + |r| == |lines| || IsMarker(lines[from + |r|])
    decreases |lines| - from
  {
    if from == |lines| || IsMarker(lines[from]) then []
    else [Trimmed(lines[from], rstrip)] + RunFrom(lines, from + 1, rstrip)
  }

  /** The lines of the block that follows the code line at `start`, right-trimmed when asked. */
  function TabLines(lines: seq<string>, start: nat, rstrip: bool): (r: seq<string>)
    requires start < |lines|
    ensures IsBlockAfter(lines, start, rstrip, r)
  {
    var r := RunFrom(lines, start + 1, rstrip);
    assert forall k :: 0 <= k < |r| ==> !IsMarker(lines[start + 1 + k]) && r[k] == Trimmed(lines[start + 1 + k], rstrip) by {
      forall k | 0 <= k < |r| ensures !IsMarker(lines[start + 1 + k]) && r[k] == Trimmed(lines[start + 1 + k], rstrip) {
        var j := start + 1 + k;
        assert r[j - (start + 1)] == r[k];
      }
    }
    r
  }

  /** The text a code tab exports: its lines joined by CRLF, or nothing for an empty tab. */
  function TabText(lines: seq<string>, tag: nat, rstrip: bool): string
    requires HasCode(lines, tag)
  {
    var block := TabLines(lines, LineIndexByCode(lines, tag).value, rstrip);
    if block == CodeBlockPrefixLines then [] else JoinLines(block)
  }

  /**
   * A procedure field holds the lines under its code, up to the next marker or the end of
   * the file, joined by CRLF; the three generated lines of an empty tab export as "".
   */
  lemma ProcedureTextOfTab(lines: seq<string>, tag: nat, rstrip: bool)
    ensures ProcedureText(lines, tag, rstrip).Ok? <==> HasCode(lines, tag)
    ensures HasCode(lines, tag) ==> ProcedureText(lines, tag, rstrip) == Ok(TabText(lines, tag, rstrip))
  {
    if HasCode(lines, tag) {
      var start := LineIndexByCode(lines, tag).value;
      var block := TabLines(lines, start, rstrip);
      var r := CodeBlock(lines, tag, rstrip);
      if block != CodeBlockPrefixLines {
        BlockAfterUnique(lines, start, rstrip, block, CodeBlockPrefixLines);
        BlockAfterUnique(lines, start, rstrip, block, r.value);
      }
    }
  }

  /**
   * A procedure reads back, cut at its CRLFs, as the lines of its tab, unless the tab is
   * empty or holds only the generated lines.
   */
  lemma ProcedureReadsBack(lines: seq<string>, tag: nat, rstrip: bool)
    requires ProcedureText(lines, tag, rstrip).Ok?
    requires forall j :: 0 <= j < |lines| ==> NoLineFeed(lines[j])
    ensures HasCode(lines, tag)
    ensures var block := TabLines(lines, LineIndexByCode(lines, tag).value, rstrip);
      block != [] && block != CodeBlockPrefixLines ==>
        SplitLines(ProcedureText(lines, tag, rstrip).value) == block
  {
    ProcedureTextOfTab(lines, tag, rstrip);
    var start := LineIndexByCode(lines, tag).value;
    var block := TabLines(lines, start, rstrip);
    if block != [] && block != CodeBlockPrefixLines {
      TabLinesHaveNoLineFeed(lines, start, rstrip);
      SplitJoinedLines(block);
    }
  }

  /** Trimming a line keeps a prefix of it, so a tab of lines without line feeds has none either. */
  lemma TabLinesHaveNoLineFeed(lines: seq<string>, start: nat, rstrip: bool)
    requires start < |lines|
    requires forall j :: 0 <= j < |lines| ==> NoLineFeed(lines[j])
    ensures forall i :: 0 <= i < |TabLines(lines, start, rstrip)| ==> NoLineFeed(TabLines(lines, start, rstrip)[i])
  {
    var block := TabLines(lines, start, rstrip);
    forall i | 0 <= i < |block| ensures NoLineFeed(block[i]) {
      var line := lines[start + 1 + i];
      assert block[i] == Trimmed(line, rstrip);
      if rstrip {
        assert block[i] == RStrip(line) == line[..|block[i]|];
        assert forall j :: 0 <= j < |block[i]| ==> block[i][j] == line[j];
      }
    }
  }

  // ----- the document -----

  /**
   * The document decodes exactly when the name, the four code tabs, the security flag, the
   * parameters, the variables and the data source all do; whether the blocks are trimmed has
   * no bearing on it. A missing name is reported before anything else.
   */
  lemma DocumentAllOrNothing(lines: seq<string>, rstrip: bool)
    ensures Document(lines, rstrip).Ok? <==>
      && StringAt(lines, NameTag).Ok?
      && HasCode(lines, PrologTag) && HasCode(lines, MetadataTag)
      && HasCode(lines, DataTag) && HasCode(lines, EpilogTag)
      && IntAt(lines, SecurityAccessTag).Ok?
      && Parameters(lines).Ok? && Variables(lines).Ok? && Datasource(lines).Ok?
    ensures Document(lines, rstrip).Ok? <==> Document(lines, !rstrip).Ok?
    ensures StringAt(lines, NameTag).Err? ==> Document(lines, rstrip) == Err(StringAt(lines, NameTag).error)
  {
    ProcedureTextOfTab(lines, PrologTag, rstrip);
    ProcedureTextOfTab(lines, MetadataTag, rstrip);
    ProcedureTextOfTab(lines, DataTag, rstrip);
    ProcedureTextOfTab(lines, EpilogTag, rstrip);
    ProcedureTextOfTab(lines, PrologTag, !rstrip);
    ProcedureTextOfTab(lines, MetadataTag, !rstrip);
    ProcedureTextOfTab(lines, DataTag, !rstrip);
    ProcedureTextOfTab(lines, EpilogTag, !rstrip);
  }

  /** Two exported objects with different prolog texts are different objects, whatever the other procedures. */
  lemma PrologTellsObjectsApart(name: string, securityAccess: bool, parameters: seq<Value>, variables: seq<Value>,
                                datasource: map<string, Value>,
                                prolog1: string, metadata1: string, data1: string, epilog1: string,
                                prolog2: string, metadata2: string, data2: string, epilog2: string)
    requires prolog1 != prolog2
    ensures DocumentObject(name, prolog1, metadata1, data1, epilog1, securityAccess, parameters, variables, datasource)
         != DocumentObject(name, prolog2, metadata2, data2, epilog2, securityAccess, parameters, variables, datasource)
  {
    var o1 := DocumentObject(name, prolog1, metadata1, data1, epilog1, securityAccess, parameters, variables, datasource);
    var o2 := DocumentObject(name, prolog2, metadata2, data2, epilog2, securityAccess, parameters, variables, datasource);
    assert o1.fields["PrologProcedure"] == JString(prolog1);
    assert o2.fields["PrologProcedure"] == JString(prolog2);
  }

  /**
   * A decoded document is an object with exactly the nine keys: the name, each procedure
   * as the text of its tab (trimmed as asked), the security flag, true exactly when code
   * 1217 holds 1, the parameters, the variables and the data source.
   */
  lemma DocumentFields(lines: seq<string>, rstrip: bool)
    requires Document(lines, rstrip).Ok?
    ensures && StringAt(lines, NameTag).Ok?
      && HasCode(lines, PrologTag) && HasCode(lines, MetadataTag)
      && HasCode(lines, DataTag) && HasCode(lines, EpilogTag)
      && IntAt(lines, SecurityAccessTag).Ok?
      && Parameters(lines).Ok? && Variables(lines).Ok? && Datasource(lines).Ok?
    ensures Document(lines, rstrip) == Ok(DocumentObject(
      StringAt(lines, NameTag).value,
      TabText(lines, PrologTag, rstrip), TabText(lines, MetadataTag, rstrip),
      TabText(lines, DataTag, rstrip), TabText(lines, EpilogTag, rstrip),
      IntAt(lines, SecurityAccessTag).value == 1,
      Parameters(lines).value, Variables(lines).value, Datasource(lines).value))
  {
    DocumentAllOrNothing(lines, rstrip);
    ProcedureTextOfTab(lines, PrologTag, rstrip);
    ProcedureTextOfTab(lines, MetadataTag, rstrip);
    ProcedureTextOfTab(lines, DataTag, rstrip);
    ProcedureTextOfTab(lines, EpilogTag, rstrip);
  }

  /** Every parameter of a decoded list is an object with exactly the four parameter keys. */
  lemma ParameterObjects(lines: seq<string>)
    requires Parameters(lines).Ok?
    ensures ParameterNames(lines).Ok? && |Parameters(lines).value| == |ParameterNames(lines).value|
    ensures forall p :: p in Parameters(lines).value ==> p.JObject? && p.fields.Keys == ParameterKeys
  {
    var ps := Parameters(lines).value;
    var names := ParameterNames(lines).value;
    var sections := ParameterSectionsOf(lines).value;
    ParameterFields(lines, sections, names);
    forall p | p in ps ensures p.JObject? && p.fields.Keys == ParameterKeys {
      var i :| 0 <= i < |ps| && ps[i] == p;
      assert ParameterRow(lines, sections, names[i], i, p);
    }
  }

  /** Every variable of a decoded list is an object with exactly the five variable keys. */
  lemma VariableObjects(lines: seq<string>)
    requires Variables(lines).Ok?
    ensures VariableNames(lines).Ok? && |Variables(lines).value| == |VariableNames(lines).value|
    ensures forall v :: v in Variables(lines).value ==> v.JObject? && v.fields.Keys == VariableKeys
  {
    var vs := Variables(lines).value;
    var names := VariableNames(lines).value;
    var sections := VariableSectionsOf(lines).value;
    VariableFields(lines, names, sections);
    forall v | v in vs ensures v.JObject? && v.fields.Keys == VariableKeys {
      var i :| 0 <= i < |vs| && vs[i] == v;
      assert VariableRow(lines, sections, names[i], i, v);
    }
  }

  // ----- the rstrip argument of the export -----

  lemma {:induction false} JoinLinesNoLonger(short: seq<string>, long: seq<string>)
    requires |short| == |long|
    requires forall k :: 0 <= k < |short| ==> |short[k]| <= |long[k]|
    ensures |JoinLines(short)| <= |JoinLines(long)|
    decreases |short|
  {
    if |short| > 1 {
      JoinLinesNoLonger(short[1..], long[1..]);
    }
  }

  /** Joining lines of which the first is strictly shorter gives a strictly shorter text. */
  lemma JoinLinesShorter(short: seq<string>, long: seq<string>)
    requires |short| == |long| > 0
    requires forall k :: 0 <= k < |short| ==> |short[k]| <= |long[k]|
    requires |short[0]| < |long[0]|
    ensures |JoinLines(short)| < |JoinLines(long)|
  {
    if |short| > 1 {
      JoinLinesNoLonger(short[1..], long[1..]);
    }
  }

  /**
   * Files whose prolog opens with a line that has both code and trailing whitespace: the
   * line that, trimmed or not, tells the two exports apart.
   */
  predicate PrologOpensWithTrailingWhitespace(lines: seq<string>) {
    && HasCode(lines, PrologTag)
    && var start := LineIndexByCode(lines, PrologTag).value;
    && start + 1 < |lines|
    && !IsMarker(lines[start + 1])
    && RStrip(lines[start + 1]) != []
    && RStrip(lines[start + 1]) != lines[start + 1]
  }

  /** Trimming the blocks changes the prolog text of such a file. */
  lemma TrimmedPrologDiffers(lines: seq<string>)
    requires PrologOpensWithTrailingWhitespace(lines)
    ensures TabText(lines, PrologTag, true) != TabText(lines, PrologTag, false)
  {
    var start := LineIndexByCode(lines, PrologTag).value;
    var kept := TabLines(lines, start, false);
    var trimmed := TabLines(lines, start, true);
    RunEndsAtSectionEnd(lines, start + 1, |kept|);
    RunEndsAtSectionEnd(lines, start + 1, |trimmed|);
    assert kept[0] == lines[start + 1];
    assert trimmed[0] == RStrip(lines[start + 1]);
    assert CodeBlockPrefixLines[0] == [];
    JoinLinesShorter(trimmed, kept);
  }

  /**
   * With `rstrip` passed on, the export of such a file depends on it: trimming the blocks
   * and keeping them give two different documents.
   */
  lemma RstripReachesDocument(lines: seq<string>)
    requires Document(lines, false).Ok?
    requires PrologOpensWithTrailingWhitespace(lines)
    ensures Document(lines, true).Ok?
    ensures Document(lines, true) != Document(lines, false)
  {
    DocumentAllOrNothing(lines, false);
    DocumentFields(lines, false);
    DocumentFields(lines, true);
    TrimmedPrologDiffers(lines);
    PrologTellsObjectsApart(StringAt(lines, NameTag).value, IntAt(lines, SecurityAccessTag).value == 1,
      Parameters(lines).value, Variables(lines).value, Datasource(lines).value,
      TabText(lines, PrologTag, true), TabText(lines, MetadataTag, true),
      TabText(lines, DataTag, true), TabText(lines, EpilogTag, true),
      TabText(lines, PrologTag, false), TabText(lines, MetadataTag, false),
      TabText(lines, DataTag, false), TabText(lines, EpilogTag, false));
  }

  /**
   * As written, the export never passes its `rstrip` argument on: asked not to trim, it
   * still trims, so for such a file what it returns is not the untrimmed document.
   */
  lemma AsWrittenIgnoresRstrip(lines: seq<string>)
    requires Document(lines, false).Ok?
    requires PrologOpensWithTrailingWhitespace(lines)
    ensures DocumentAsWritten(lines, false) == DocumentAsWritten(lines, true)
    ensures DocumentAsWritten(lines, false) != Document(lines, false)
  {
    RstripReachesDocument(lines);
  }
}
