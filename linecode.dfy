/**
 * The line-coded file primitives the process decoder is built on. A TM1 `.pro` file is a
 * flat list of lines; a field is found through the numeric code at the start of its line
 * (`602,"name"`), or as a row somewhere below such a code line.
 */
module LineCode {
  import opened Results

  const Delimiter: char := ','
  const Quote: char := '"'

  // ----- decimal numbers -----

  predicate IsDigit(c: char) {
    '0' <= c <= '9'
  }

  predicate IsDigits(s: string) {
    |s| > 0 && forall i :: 0 <= i < |s| ==> IsDigit(s[i])
  }

  function DigitChar(d: nat): (c: char)
    requires d < 10
    ensures IsDigit(c)
  {
    ('0' as int + d) as char
  }

  function DigitValue(c: char): nat
    requires IsDigit(c)
  {
    c as int - '0' as int
  }

  /** The decimal text of `n`, without leading zeros: how a code is written in the file. */
  function DecimalText(n: nat): (r: string)
    ensures IsDigits(r)
    decreases n
  {
    if n < 10 then [DigitChar(n)] else DecimalText(n / 10) + [DigitChar(n % 10)]
  }

  /** The number that a string of decimal digits denotes. */
  function DigitsValue(s: string): nat
    requires forall i :: 0 <= i < |s| ==> IsDigit(s[i])
    decreases |s|
  {
    if s == [] then 0 else DigitsValue(s[..|s| - 1]) * 10 + DigitValue(s[|s| - 1])
  }

  /** `int(text)` on plain decimal text; anything else is a ValueError. */
  function ParseDecimal(text: string): (r: Result<int>)
    ensures r.Ok? <==> IsDigits(text)
    ensures r.Ok? ==> r.value >= 0
    ensures r.Err? ==> r.error == NotAnInteger(text)
  {
    if IsDigits(text) then Ok(DigitsValue(text)) else Err(NotAnInteger(text))
  }

  /** Reading back the decimal text of a number gives that number. */
  lemma {:induction false} DecimalTextRoundTrip(n: nat)
    ensures ParseDecimal(DecimalText(n)) == Ok(n)
  {
    if n >= 10 {
      DecimalTextRoundTrip(n / 10);
      var s := DecimalText(n / 10) + [DigitChar(n % 10)];
      assert s[..|s| - 1] == DecimalText(n / 10);
      assert DigitValue(s[|s| - 1]) == n % 10;
      assert DigitsValue(DecimalText(n / 10)) == n / 10;
      assert DigitsValue(s) == (n / 10) * 10 + n % 10;
      assert DecimalText(n) == s;
    } else {
      assert DecimalText(n) == [DigitChar(n)];
      assert DigitsValue([DigitChar(n)]) == DigitsValue([]) * 10 + n;
    }
  }

  // ----- the shape of one line -----

  function FindFrom(s: string, c: char, from: nat): (r: Option<nat>)
    requires from <= |s|
    ensures r.Some? ==> from <= r.value < |s| && s[r.value] == c
    ensures r.Some? ==> forall j :: from <= j < r.value ==> s[j] != c
    ensures r.None? ==> forall j :: from <= j < |s| ==> s[j] != c
    decreases |s| - from
  {
    if from == |s| then None else if s[from] == c then Some(from) else FindFrom(s, c, from + 1)
  }

  /** The position of the first comma of `line`, if it has one. */
  function DelimiterIndex(line: string): (r: Option<nat>)
    ensures r.Some? ==> r.value < |line| && line[r.value] == Delimiter
    ensures r.Some? ==> forall j :: 0 <= j < r.value ==> line[j] != Delimiter
    ensures r.None? ==> forall j :: 0 <= j < |line| ==> line[j] != Delimiter
  {
    FindFrom(line, Delimiter, 0)
  }

  /** The text after the first comma: the payload of a code line. */
  function Payload(line: string): (r: Option<string>)
    ensures r.Some? <==> DelimiterIndex(line).Some?
    ensures r.Some? ==> line == line[..DelimiterIndex(line).value] + [Delimiter] + r.value
  {
    match DelimiterIndex(line)
    case None => None
    case Some(k) =>
      assert line == line[..k] + [Delimiter] + line[k + 1..];
      Some(line[k + 1..])
  }

  /** A line that opens a section: decimal digits, then a comma. */
  predicate IsMarker(line: string) {
    var k := DelimiterIndex(line);
    k.Some? && IsDigits(line[..k.value])
  }

  /** A line that opens the section of `code`: the line starts with `code` and a comma. */
  predicate IsCodeLine(line: string, code: nat) {
    var k := DelimiterIndex(line);
    k.Some? && line[..k.value] == DecimalText(code)
  }

  predicate HasCode(lines: seq<string>, code: nat) {
    exists j :: 0 <= j < |lines| && IsCodeLine(lines[j], code)
  }

  /** Splitting `prefix + "," + rest` at its first comma recovers `prefix` when it has none. */
  lemma DelimiterIndexAfter(prefix: string, rest: string)
    requires forall j :: 0 <= j < |prefix| ==> prefix[j] != Delimiter
    ensures DelimiterIndex(prefix + [Delimiter] + rest) == Some(|prefix|)
  {
    var line := prefix + [Delimiter] + rest;
    assert line[|prefix|] == Delimiter;
    assert forall j :: 0 <= j < |prefix| ==> line[j] == prefix[j];
  }

  /** A code line is exactly its code and a comma in front of its payload. */
  lemma CodeLineShape(code: nat, payload: string)
    ensures IsCodeLine(DecimalText(code) + [Delimiter] + payload, code)
    ensures Payload(DecimalText(code) + [Delimiter] + payload) == Some(payload)
  {
    var head := DecimalText(code);
    var line := head + [Delimiter] + payload;
    DelimiterIndexAfter(head, payload);
    assert line[..|head|] == head;
    assert line[|head| + 1..] == payload;
  }

  // ----- locating lines -----

  function FindCode(lines: seq<string>, code: nat, from: nat): (r: Option<nat>)
    requires from <= |lines|
    ensures r.Some? ==> from <= r.value < |lines| && IsCodeLine(lines[r.value], code)
    ensures r.Some? ==> forall j :: from <= j < r.value ==> !IsCodeLine(lines[j], code)
    ensures r.None? ==> forall j :: from <= j < |lines| ==> !IsCodeLine(lines[j], code)
    decreases |lines| - from
  {
    if from == |lines| then None
    else if IsCodeLine(lines[from], code) then Some(from)
    else FindCode(lines, code, from + 1)
  }

  /** `_get_line_index_by_code`: the index of the first line that carries `code`. */
  function LineIndexByCode(lines: seq<string>, code: nat): (r: Result<nat>)
    ensures r.Ok? ==> r.value < |lines| && IsCodeLine(lines[r.value], code)
    ensures r.Ok? ==> forall j :: 0 <= j < r.value ==> !IsCodeLine(lines[j], code)
    ensures r.Err? <==> !HasCode(lines, code)
    ensures r.Err? ==> r.error == CodeNotFound(code)
  {
    match FindCode(lines, code, 0)
    case Some(i) => Ok(i)
    case None => Err(CodeNotFound(code))
  }

  /** `_get_line_by_code`: the first line that carries `code`. */
  function LineByCode(lines: seq<string>, code: nat): (r: Result<string>)
    ensures r.Ok? <==> HasCode(lines, code)
    ensures r.Ok? ==> IsCodeLine(r.value, code)
    ensures r.Ok? ==>
      exists i :: 0 <= i < |lines| && lines[i] == r.value && (forall j :: 0 <= j < i ==> !IsCodeLine(lines[j], code))
    ensures r.Err? ==> r.error == CodeNotFound(code)
  {
    var i :- LineIndexByCode(lines, code);
    Ok(lines[i])
  }

  /** `_get_line_by_index`: a read past the end is an error, never a default. */
  function LineByIndex(lines: seq<string>, index: nat): (r: Result<string>)
    ensures r.Ok? <==> index < |lines|
    ensures r.Ok? ==> r.value == lines[index]
    ensures r.Err? ==> r.error == IndexOutOfRange(index)
  {
    if index < |lines| then Ok(lines[index]) else Err(IndexOutOfRange(index))
  }

  // ----- scalar values -----

  /** Undoes the doubling of quote characters inside a literal; a lone quote is malformed. */
  function Unescape(body: string): Option<string>
    decreases |body|
  {
    if body == [] then Some([])
    else if body[0] != Quote then
      match Unescape(body[1..])
      case Some(rest) => Some([body[0]] + rest)
      case None => None
    else if |body| >= 2 && body[1] == Quote then
      match Unescape(body[2..])
      case Some(rest) => Some([Quote] + rest)
      case None => None
    else None
  }

  /** Doubles every quote character of `s`. */
  function Escape(s: string): string
    decreases |s|
  {
    if s == [] then [] else (if s[0] == Quote then [Quote, Quote] else [s[0]]) + Escape(s[1..])
  }

  /** `s` written as a literal: between quotes, with inner quotes doubled. */
  function Quoted(s: string): string {
    [Quote] + Escape(s) + [Quote]
  }

  predicate IsQuoted(text: string) {
    |text| >= 2 && text[0] == Quote && text[|text| - 1] == Quote
  }

  /** Unescape inverts Escape. */
  lemma {:induction false} UnescapeEscape(s: string)
    ensures Unescape(Escape(s)) == Some(s)
    decreases |s|
  {
    if s != [] {
      UnescapeEscape(s[1..]);
      var e := Escape(s);
      if s[0] == Quote {
        assert e[2..] == Escape(s[1..]);
        assert [Quote] + s[1..] == s;
      } else {
        assert e[1..] == Escape(s[1..]);
        assert [s[0]] + s[1..] == s;
      }
    }
  }

  /** Escape inverts Unescape: a body that unescapes is the escape of its value. */
  lemma {:induction false} EscapeUnescape(body: string)
    requires Unescape(body).Some?
    ensures Escape(Unescape(body).value) == body
    decreases |body|
  {
    if body != [] {
      var v := Unescape(body).value;
      if body[0] != Quote {
        EscapeUnescape(body[1..]);
        assert v == [body[0]] + Unescape(body[1..]).value;
        assert v[1..] == Unescape(body[1..]).value;
        assert [body[0]] + body[1..] == body;
      } else {
        EscapeUnescape(body[2..]);
        assert v == [Quote] + Unescape(body[2..]).value;
        assert v[1..] == Unescape(body[2..]).value;
        assert [Quote, Quote] + body[2..] == body;
      }
    }
  }

  /** The value of a payload literal: nothing at all, or a quoted literal. */
  function LiteralValue(text: string): Option<string> {
    if text == [] then Some([])
    else if IsQuoted(text) then Unescape(text[1..|text| - 1])
    else None
  }

  /** A quoted literal whose body unescapes is its value quoted. */
  lemma QuotedIsPrinted(text: string)
    requires IsQuoted(text) && Unescape(text[1..|text| - 1]).Some?
    ensures text == Quoted(Unescape(text[1..|text| - 1]).value)
  {
    var body := text[1..|text| - 1];
    EscapeUnescape(body);
    assert text == [Quote] + body + [Quote];
  }

  /** A literal that reads as a value is nothing at all or that value quoted. */
  lemma LiteralValueIsPrinted(text: string)
    requires LiteralValue(text).Some?
    ensures text == [] || text == Quoted(LiteralValue(text).value)
  {
    if text != [] {
      QuotedIsPrinted(text);
    }
  }

  /** `_parse_single_string`: the string literal after a code line's comma. */
  function ParseSingleString(line: string): (r: Result<string>)
    ensures r.Ok? <==> Payload(line).Some? && LiteralValue(Payload(line).value).Some?
    ensures r.Ok? ==> r.value == LiteralValue(Payload(line).value).value
    ensures r.Err? ==> r.error == MalformedString(line)
  {
    match Payload(line)
    case None => Err(MalformedString(line))
    case Some(p) =>
      match LiteralValue(p)
      case Some(s) => Ok(s)
      case None => Err(MalformedString(line))
  }

  /** A single-string line that parses is its code, a comma and nothing, or the value quoted. */
  lemma SingleStringIsPrinted(line: string)
    requires ParseSingleString(line).Ok?
    ensures Payload(line) == Some([]) || Payload(line) == Some(Quoted(ParseSingleString(line).value))
  {
    LiteralValueIsPrinted(Payload(line).value);
  }

  /** `_parse_single_int`: the decimal number after a code line's comma. */
  function ParseSingleInt(line: string): (r: Result<int>)
    ensures r.Ok? <==> Payload(line).Some? && IsDigits(Payload(line).value)
    ensures r.Ok? ==> r.value >= 0
  {
    match Payload(line)
    case None => Err(NotAnInteger(line))
    case Some(p) => ParseDecimal(p)
  }

  datatype KeyValue = KeyValue(key: string, value: string)

  /**
   * `_get_key_value_pair_string`: splits a line at its first comma into a key and a value;
   * a quoted value is unescaped, a bare one (a number, or nothing) is taken as it stands.
   */
  function KeyValuePair(line: string): (r: Result<KeyValue>)
    ensures DelimiterIndex(line).None? ==> r == Err(MissingSeparator(line))
    ensures r.Ok? ==> DelimiterIndex(line) == Some(|r.value.key|)
    ensures r.Ok? ==> line[..|r.value.key|] == r.value.key
  {
    match DelimiterIndex(line)
    case None => Err(MissingSeparator(line))
    case Some(k) =>
      var raw := line[k + 1..];
      if !IsQuoted(raw) then Ok(KeyValue(line[..k], raw))
      else
        match Unescape(raw[1..|raw| - 1])
        case Some(v) => Ok(KeyValue(line[..k], v))
        case None => Err(MalformedString(line))
  }

  /**
   * A key/value line that parses is its key, a comma and its value, either quoted or
   * standing bare when it does not look quoted.
   */
  lemma KeyValueIsPrinted(line: string)
    requires KeyValuePair(line).Ok?
    ensures var kv := KeyValuePair(line).value;
      || line == kv.key + [Delimiter] + Quoted(kv.value)
      || (line == kv.key + [Delimiter] + kv.value && !IsQuoted(kv.value))
  {
    var k := DelimiterIndex(line).value;
    var raw := line[k + 1..];
    assert line == line[..k] + [Delimiter] + raw;
    if IsQuoted(raw) {
      QuotedIsPrinted(raw);
    }
  }

  /** A string written after its code as a literal reads back as that string. */
  lemma SingleStringRoundTrip(code: nat, s: string)
    ensures ParseSingleString(DecimalText(code) + [Delimiter] + Quoted(s)) == Ok(s)
    ensures ParseSingleString(DecimalText(code) + [Delimiter]) == Ok([])
  {
    CodeLineShape(code, Quoted(s));
    CodeLineShape(code, []);
    assert DecimalText(code) + [Delimiter] == DecimalText(code) + [Delimiter] + [];
    var q := Quoted(s);
    assert q[1..|q| - 1] == Escape(s);
    UnescapeEscape(s);
  }

  /** A number written after its code reads back as that number. */
  lemma SingleIntRoundTrip(code: nat, n: nat)
    ensures ParseSingleInt(DecimalText(code) + [Delimiter] + DecimalText(n)) == Ok(n)
  {
    CodeLineShape(code, DecimalText(n));
    DecimalTextRoundTrip(n);
  }

  /** A key without commas and a value, quoted or bare, read back from `key,value`. */
  lemma KeyValueRoundTrip(key: string, value: string)
    requires forall j :: 0 <= j < |key| ==> key[j] != Delimiter
    ensures KeyValuePair(key + [Delimiter] + Quoted(value)) == Ok(KeyValue(key, value))
    ensures !IsQuoted(value) ==> KeyValuePair(key + [Delimiter] + value) == Ok(KeyValue(key, value))
  {
    var quoted := key + [Delimiter] + Quoted(value);
    DelimiterIndexAfter(key, Quoted(value));
    assert quoted[..|key|] == key;
    assert quoted[|key| + 1..] == Quoted(value);
    var q := Quoted(value);
    assert q[1..|q| - 1] == Escape(value);
    UnescapeEscape(value);
    var bare := key + [Delimiter] + value;
    DelimiterIndexAfter(key, value);
    assert bare[..|key|] == key;
    assert bare[|key| + 1..] == value;
  }

  // ----- multi-line blocks -----

  predicate IsWhitespace(c: char) {
    c == ' ' || c == '\t' || c == '\n' || c == '\r' || c as int == 0x0B || c as int == 0x0C
  }

  /** `str.rstrip()`: the longest prefix that does not end in whitespace. */
  function RStrip(s: string): (r: string)
    ensures |r| <= |s| && r == s[..|r|]
    ensures r == [] || !IsWhitespace(r[|r| - 1])
    ensures forall i :: |r| <= i < |s| ==> IsWhitespace(s[i])
    decreases |s|
  {
    if s != [] && IsWhitespace(s[|s| - 1]) then RStrip(s[..|s| - 1]) else s
  }

  /** The index of the first marker line at or after `from`, or the end of the file. */
  function SectionEnd(lines: seq<string>, from: nat): (r: nat)
    requires from <= |lines|
    ensures from <= r <= |lines|
    ensures forall j :: from <= j < r ==> !IsMarker(lines[j])
    ensures r < |lines| ==> IsMarker(lines[r])
    decreases |lines| - from
  {
    if from == |lines| || IsMarker(lines[from]) then from else SectionEnd(lines, from + 1)
  }

  /** The number of rows under the code line at `base`: the lines before the next marker. */
  function SectionLength(lines: seq<string>, base: nat): nat
    requires base < |lines|
  {
    SectionEnd(lines, base + 1) - base - 1
  }

  /** A marker line always holds a comma, so it never reads as a plain number. */
  lemma MarkerIsNotDecimal(line: string)
    requires IsMarker(line)
    ensures !IsDigits(line)
  {
    var k := DelimiterIndex(line).value;
    assert !IsDigit(line[k]);
  }

  function Trimmed(line: string, rstrip: bool): string {
    if rstrip then RStrip(line) else line
  }

  /**
   * `block` is what stands after the code line at `start`: the maximal run of lines that
   * are not markers, each right-trimmed when `rstrip` holds.
   */
  ghost predicate IsBlockAfter(lines: seq<string>, start: nat, rstrip: bool, block: seq<string>) {
    && start + 1 + |block| <= |lines|
    && (forall k :: 0 <= k < |block| ==>
          !IsMarker(lines[start + 1 + k]) && block[k] == Trimmed(lines[start + 1 + k], rstrip))
    && (start + 1 + |block| == |lines| || IsMarker(lines[start + 1 + |block|]))
  }

  /**
   * `_get_multiline_block`: the lines after the code line of `code`, up to the next marker
   * or the end of the file. A block that is exactly `emptyBlock` (the generated lines of an
   * empty code tab) comes back as no lines at all.
   */
  function MultilineBlock(lines: seq<string>, code: nat, rstrip: bool, emptyBlock: seq<string>)
    : (r: Result<seq<string>>)
    ensures r.Err? <==> !HasCode(lines, code)
    ensures r.Err? ==> r.error == CodeNotFound(code)
    ensures r.Ok? && emptyBlock != [] ==> r.value != emptyBlock
    ensures r.Ok? ==> var start := LineIndexByCode(lines, code).value;
      || IsBlockAfter(lines, start, rstrip, r.value)
      || (r.value == [] && IsBlockAfter(lines, start, rstrip, emptyBlock))
    ensures r.Ok? && IsBlockAfter(lines, LineIndexByCode(lines, code).value, rstrip, emptyBlock)
      ==> r.value == []
  {
    var start :- LineIndexByCode(lines, code);
    var end := SectionEnd(lines, start + 1);
    var block := seq(end - start - 1, k requires 0 <= k < end - start - 1 =>
      Trimmed(lines[start + 1 + k], rstrip));
    assert IsBlockAfter(lines, start, rstrip, block);
    BlockAfterUnique(lines, start, rstrip, block, emptyBlock);
    if block == emptyBlock then Ok([]) else Ok(block)
  }

  /** A run of non-marker lines that stops at a marker or at the end ends where SectionEnd says. */
  lemma {:induction false} RunEndsAtSectionEnd(lines: seq<string>, from: nat, n: nat)
    requires from + n <= |lines|
    requires forall j :: from <= j < from + n ==> !IsMarker(lines[j])
    requires from + n == |lines| || IsMarker(lines[from + n])
    ensures SectionEnd(lines, from) == from + n
    decreases n
  {
    if from < |lines| && !IsMarker(lines[from]) {
      assert n > 0;
      RunEndsAtSectionEnd(lines, from + 1, n - 1);
    } else {
      assert n == 0;
    }
  }

  lemma BlockIsRun(lines: seq<string>, start: nat, rstrip: bool, b: seq<string>)
    requires IsBlockAfter(lines, start, rstrip, b)
    ensures forall j :: start + 1 <= j < start + 1 + |b| ==> !IsMarker(lines[j])
  {
    forall j | start + 1 <= j < start + 1 + |b|
      ensures !IsMarker(lines[j])
    {
      var k := j - start - 1;
      assert b[k] == Trimmed(lines[start + 1 + k], rstrip);
    }
  }

  /** The block after a code line is determined by the lines. */
  lemma BlockAfterUnique(lines: seq<string>, start: nat, rstrip: bool, b1: seq<string>, b2: seq<string>)
    requires IsBlockAfter(lines, start, rstrip, b1)
    ensures IsBlockAfter(lines, start, rstrip, b2) ==> b1 == b2
  {
    BlockIsRun(lines, start, rstrip, b1);
    RunEndsAtSectionEnd(lines, start + 1, |b1|);
    if IsBlockAfter(lines, start, rstrip, b2) {
      BlockIsRun(lines, start, rstrip, b2);
      RunEndsAtSectionEnd(lines, start + 1, |b2|);
      assert forall k :: 0 <= k < |b1| ==> b1[k] == b2[k];
    }
  }
}
