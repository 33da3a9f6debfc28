/**
 * The pure parts of `TM1FileTool`: the case-insensitive glob pattern, the split of cube
 * and dimension files into model and control objects, and the choice of the data folder
 * from the server's configuration.
 */
module FileTool {
  import opened Results

  // ----- letters -----

  predicate IsLower(c: char) {
    'a' <= c <= 'z'
  }

  predicate IsUpper(c: char) {
    'A' <= c <= 'Z'
  }

  /** `str.isalpha`, on the ASCII letters. */
  predicate IsAlpha(c: char) {
    IsLower(c) || IsUpper(c)
  }

  /** `str.lower` of one character: upper-case letters become lower-case, the rest stay. */
  function Lower(c: char): (r: char)
    ensures IsAlpha(c) ==> IsLower(r)
    ensures IsUpper(c) ==> r as int == c as int + 32
    ensures !IsUpper(c) ==> r == c
  {
    if IsUpper(c) then (c as int + 32) as char else c
  }

  /** `str.upper` of one character: lower-case letters become upper-case, the rest stay. */
  function Upper(c: char): (r: char)
    ensures IsAlpha(c) ==> IsUpper(r)
    ensures IsLower(c) ==> r as int == c as int - 32
    ensures !IsLower(c) ==> r == c
  {
    if IsLower(c) then (c as int - 32) as char else c
  }

  /** The two cases of a letter are the letter itself and its other case. */
  lemma CasesOfLetter(c: char, x: char)
    requires IsAlpha(c)
    ensures c == Lower(c) || c == Upper(c)
    ensures x == Lower(c) || x == Upper(c) <==> Lower(x) == Lower(c)
  {
  }

  // ----- the case-insensitive glob pattern -----

  /**
   * `either`: a letter becomes the bracket class of its two cases, lower case first; any
   * other character stands for itself.
   */
  function Either(c: char): (r: string)
    ensures IsAlpha(c) ==> |r| == 4 && r[0] == '[' && r[3] == ']'
    ensures IsAlpha(c) ==> IsLower(r[1]) && IsUpper(r[2]) && Lower(r[2]) == r[1] && (c == r[1] || c == r[2])
    ensures !IsAlpha(c) ==> r == [c]
  {
    if IsAlpha(c) then ['[', Lower(c), Upper(c), ']'] else [c]
  }

  /** `"".join(map(either, pattern))`: every character of the pattern put through `either`. */
  function CaseInsensitivePattern(p: string): (r: string)
    ensures |r| == |p| + 3 * LetterCount(p)
    ensures LetterCount(p) == 0 ==> r == p
    decreases |p|
  {
    if p == [] then [] else Either(p[0]) + CaseInsensitivePattern(p[1..])
  }

  function LetterCount(p: string): nat
    decreases |p|
  {
    if p == [] then 0 else (if IsAlpha(p[0]) then 1 else 0) + LetterCount(p[1..])
  }

  /** The pattern is built character by character, so it distributes over concatenation. */
  lemma {:induction false} PatternOfConcat(a: string, b: string)
    ensures CaseInsensitivePattern(a + b) == CaseInsensitivePattern(a) + CaseInsensitivePattern(b)
    decreases |a|
  {
    if a == [] {
      assert a + b == b;
    } else {
      assert (a + b)[0] == a[0];
      assert (a + b)[1..] == a[1..] + b;
      PatternOfConcat(a[1..], b);
      calc {
        CaseInsensitivePattern(a + b);
        Either(a[0]) + CaseInsensitivePattern(a[1..] + b);
        Either(a[0]) + (CaseInsensitivePattern(a[1..]) + CaseInsensitivePattern(b));
        (Either(a[0]) + CaseInsensitivePattern(a[1..])) + CaseInsensitivePattern(b);
      }
    }
  }

  /** The pattern `_find_files` globs for: `{prefix}*.{suffix}`, made case-insensitive. */
  function FilesPattern(prefix: string, suffix: string): (r: string)
    ensures r == CaseInsensitivePattern(prefix) + "*." + CaseInsensitivePattern(suffix)
  {
    PatternOfConcat(prefix + "*.", suffix);
    PatternOfConcat(prefix, "*.");
    assert CaseInsensitivePattern("*.") == "*." by {
      assert "*."[1..] == ".";
      assert "."[1..] == [];
    }
    CaseInsensitivePattern(prefix + "*." + suffix)
  }

  /** The cube files are looked for with the pattern `*.[cC][uU][bB]`. */
  lemma CubePattern()
    ensures FilesPattern("", "cub") == "*.[cC][uU][bB]"
  {
    assert "cub"[1..] == "ub";
    assert "ub"[1..] == "b";
    assert "b"[1..] == [];
  }

  // ----- what a pattern finds -----

  /**
   * Glob matching of a whole name against a pattern made of `*` (any run of characters),
   * two-character classes `[xy]` and characters that stand for themselves.
   */
  predicate Matches(pattern: string, name: string)
    ensures pattern == "*" ==> Matches(pattern, name)
    ensures Matches(pattern, name) && '*' !in pattern ==> |name| <= |pattern|
    decreases |pattern|, |name|
  {
    if pattern == [] then name == []
    else if pattern[0] == '*' then
      Matches(pattern[1..], name) || (name != [] && Matches(pattern, name[1..]))
    else if pattern[0] == '[' && |pattern| >= 4 && pattern[3] == ']' then
      name != [] && (name[0] == pattern[1] || name[0] == pattern[2]) && Matches(pattern[4..], name[1..])
    else
      name != [] && name[0] == pattern[0] && Matches(pattern[1..], name[1..])
  }

  /** No glob wildcard and no bracket in `p`: every character of it is meant literally. */
  predicate IsLiteral(p: string) {
    forall i :: 0 <= i < |p| ==> p[i] != '*' && p[i] != '?' && p[i] != '['
  }

  /** `a` and `b` spell the same letters, ignoring case. */
  predicate SameIgnoringCase(a: string, b: string) {
    |a| == |b| && forall i :: 0 <= i < |a| ==> Lower(a[i]) == Lower(b[i])
  }

  /**
   * A literal pattern made case-insensitive, then `rest`, matches exactly the names that
   * begin with the pattern in any mix of cases and go on with what `rest` matches.
   */
  lemma {:induction false} PatternThenRest(p: string, rest: string, name: string)
    requires IsLiteral(p)
    ensures Matches(CaseInsensitivePattern(p) + rest, name) <==>
      |p| <= |name| && SameIgnoringCase(p, name[..|p|]) && Matches(rest, name[|p|..])
    decreases |p|
  {
    if p == [] {
      assert CaseInsensitivePattern(p) + rest == rest;
      assert name[..0] == [] && name[0..] == name;
      assert SameIgnoringCase(p, name[..0]);
    } else {
      var c := p[0];
      var tail := CaseInsensitivePattern(p[1..]) + rest;
      assert CaseInsensitivePattern(p) + rest == Either(c) + tail;
      assert IsLiteral(p[1..]) by {
        forall i | 0 <= i < |p[1..]| ensures p[1..][i] != '*' && p[1..][i] != '?' && p[1..][i] != '[' {
          assert p[1..][i] == p[i + 1];
        }
      }
      if name == [] {
        if IsAlpha(c) {
          assert (Either(c) + tail)[0] == '[' && (Either(c) + tail)[3] == ']';
        } else {
          assert (Either(c) + tail)[0] == c;
        }
      } else {
        PatternThenRest(p[1..], rest, name[1..]);
        var pat := Either(c) + tail;
        if IsAlpha(c) {
          assert pat[0] == '[' && |pat| >= 4 && pat[3] == ']';
          assert pat[1] == Lower(c) && pat[2] == Upper(c) && pat[4..] == tail;
          CasesOfLetter(c, name[0]);
        } else {
          assert pat[0] == c && pat[1..] == tail;
        }
        if |p| <= |name| {
          assert name[..|p|][0] == name[0];
          assert name[..|p|][1..] == name[1..][..|p| - 1];
          assert name[|p|..] == name[1..][|p| - 1..];
          SameIgnoringCaseStep(p, name[..|p|]);
        }
      }
    }
  }

  /** Case-blind equality, one character at a time. */
  lemma SameIgnoringCaseStep(a: string, b: string)
    requires a != [] && |a| == |b|
    ensures SameIgnoringCase(a, b) <==> Lower(a[0]) == Lower(b[0]) && SameIgnoringCase(a[1..], b[1..])
  {
    if Lower(a[0]) == Lower(b[0]) && SameIgnoringCase(a[1..], b[1..]) {
      forall i | 1 <= i < |a| ensures Lower(a[i]) == Lower(b[i]) {
        assert a[1..][i - 1] == a[i] && b[1..][i - 1] == b[i];
      }
    }
  }

  /** A literal pattern made case-insensitive finds exactly the names equal to it up to case. */
  lemma PatternFindsSameName(p: string, name: string)
    requires IsLiteral(p)
    ensures Matches(CaseInsensitivePattern(p), name) <==> SameIgnoringCase(p, name)
  {
    PatternThenRest(p, [], name);
    assert CaseInsensitivePattern(p) + [] == CaseInsensitivePattern(p);
    if |p| <= |name| {
      assert Matches([], name[|p|..]) <==> |name| == |p|;
      assert |name| == |p| ==> name[..|p|] == name;
    }
  }

  /** A leading `*` matches some, possibly empty, first part of the name. */
  lemma {:induction false} StarMatches(rest: string, name: string)
    ensures Matches("*" + rest, name) <==> exists k :: 0 <= k <= |name| && Matches(rest, name[k..])
    decreases |name|
  {
    var pat := "*" + rest;
    assert pat[0] == '*' && pat[1..] == rest;
    assert name[0..] == name;
    if name != [] {
      StarMatches(rest, name[1..]);
      forall k | 1 <= k <= |name| ensures name[k..] == name[1..][k - 1..] {}
      if exists k :: 0 <= k <= |name| && Matches(rest, name[k..]) {
        var k :| 0 <= k <= |name| && Matches(rest, name[k..]);
        if k > 0 {
          assert Matches(rest, name[1..][k - 1..]);
        }
      }
    }
  }

  /** A dot, then a literal suffix made case-insensitive, matches "." and the suffix in any case. */
  lemma DottedSuffixMatches(suffix: string, m: string)
    requires IsLiteral(suffix)
    ensures Matches("." + CaseInsensitivePattern(suffix), m) <==>
      m != [] && m[0] == '.' && SameIgnoringCase(suffix, m[1..])
  {
    var dotted := "." + CaseInsensitivePattern(suffix);
    assert dotted[0] == '.' && dotted[1..] == CaseInsensitivePattern(suffix);
    if m != [] {
      PatternFindsSameName(suffix, m[1..]);
    }
  }

  /** `*.` and a literal suffix made case-insensitive match the names with a dot followed by the suffix in any case. */
  lemma StarSuffixMatches(suffix: string, rest: string)
    requires IsLiteral(suffix)
    ensures Matches("*" + ("." + CaseInsensitivePattern(suffix)), rest) <==>
      exists k :: 0 <= k < |rest| && rest[k] == '.' && SameIgnoringCase(suffix, rest[k + 1..])
  {
    var dotted := "." + CaseInsensitivePattern(suffix);
    StarMatches(dotted, rest);
    forall k | 0 <= k <= |rest|
      ensures Matches(dotted, rest[k..]) <==> k < |rest| && rest[k] == '.' && SameIgnoringCase(suffix, rest[k + 1..])
    {
      DottedSuffixMatches(suffix, rest[k..]);
      if k < |rest| {
        assert rest[k..][0] == rest[k] && rest[k..][1..] == rest[k + 1..];
      }
    }
  }

  /**
   * `_find_files` finds the files whose name begins with `prefix` and ends in a dot and
   * `suffix`, in any mix of cases.
   */
  lemma FilesPatternFinds(prefix: string, suffix: string, name: string)
    requires IsLiteral(prefix) && IsLiteral(suffix)
    ensures Matches(FilesPattern(prefix, suffix), name) <==>
      && |prefix| <= |name|
      && SameIgnoringCase(prefix, name[..|prefix|])
      && exists k :: |prefix| <= k < |name| && name[k] == '.' && SameIgnoringCase(suffix, name[k + 1..])
  {
    var starred := "*" + ("." + CaseInsensitivePattern(suffix));
    assert FilesPattern(prefix, suffix) == CaseInsensitivePattern(prefix) + starred;
    PatternThenRest(prefix, starred, name);
    if |prefix| <= |name| {
      StarSuffixMatches(suffix, name[|prefix|..]);
      SuffixAfter(|prefix|, suffix, name);
    }
  }

  /** A dot and `suffix` occur past position `n` of `name` just when they occur in `name[n..]`. */
  lemma SuffixAfter(n: nat, suffix: string, name: string)
    requires n <= |name|
    ensures (exists k :: n <= k < |name| && name[k] == '.' && SameIgnoringCase(suffix, name[k + 1..])) <==>
      (exists j :: 0 <= j < |name[n..]| && name[n..][j] == '.' && SameIgnoringCase(suffix, name[n..][j + 1..]))
  {
    var rest := name[n..];
    if exists k :: n <= k < |name| && name[k] == '.' && SameIgnoringCase(suffix, name[k + 1..]) {
      var k :| n <= k < |name| && name[k] == '.' && SameIgnoringCase(suffix, name[k + 1..]);
      assert rest[k - n] == name[k] && rest[k - n + 1..] == name[k + 1..];
    }
    if exists j :: 0 <= j < |rest| && rest[j] == '.' && SameIgnoringCase(suffix, rest[j + 1..]) {
      var j :| 0 <= j < |rest| && rest[j] == '.' && SameIgnoringCase(suffix, rest[j + 1..]);
      assert rest[j] == name[j + n] && rest[j + 1..] == name[j + n + 1..];
    }
  }

  // ----- model and control objects -----

  /** A cube or dimension file; whether it is a control object is decided by the file itself. */
  datatype ObjectFile = ObjectFile(name: string, isControl: bool)

  /** The files the tool found, in the order it found them. */
  datatype Folder = Folder(cubeFiles: seq<ObjectFile>, dimFiles: seq<ObjectFile>)

  /** The files whose control flag is `control`, in their original order. */
  function FilesWhere(files: seq<ObjectFile>, control: bool): (r: seq<ObjectFile>)
    ensures forall f :: f in r <==> f in files && f.isControl == control
    ensures |r| <= |files|
    decreases |files|
  {
    if files == [] then []
    else (if files[0].isControl == control then [files[0]] else []) + FilesWhere(files[1..], control)
  }

  /** `get_model_cubes`: the cube files that are not control objects. */
  function GetModelCubes(folder: Folder): (r: seq<ObjectFile>)
    ensures forall f :: f in r <==> f in folder.cubeFiles && !f.isControl
    ensures |r| <= |folder.cubeFiles|
  {
    FilesWhere(folder.cubeFiles, false)
  }

  /** `get_control_cubes`: the cube files that are control objects. */
  function GetControlCubes(folder: Folder): (r: seq<ObjectFile>)
    ensures forall f :: f in r <==> f in folder.cubeFiles && f.isControl
    ensures |r| <= |folder.cubeFiles|
  {
    FilesWhere(folder.cubeFiles, true)
  }

  /** `get_model_dimensions`: the dimension files that are not control objects. */
  function GetModelDimensions(folder: Folder): (r: seq<ObjectFile>)
    ensures forall f :: f in r <==> f in folder.dimFiles && !f.isControl
    ensures |r| <= |folder.dimFiles|
  {
    FilesWhere(folder.dimFiles, false)
  }

  /** `get_control_dimensions`: the dimension files that are control objects. */
  function GetControlDimensions(folder: Folder): (r: seq<ObjectFile>)
    ensures forall f :: f in r <==> f in folder.dimFiles && f.isControl
    ensures |r| <= |folder.dimFiles|
  {
    FilesWhere(folder.dimFiles, true)
  }

  /** `s` is `a` and `b` shuffled together, each keeping its own order. */
  predicate Interleaving(s: seq<ObjectFile>, a: seq<ObjectFile>, b: seq<ObjectFile>)
    decreases |s|
  {
    if s == [] then a == [] && b == []
    else
      || (a != [] && a[0] == s[0] && Interleaving(s[1..], a[1..], b))
      || (b != [] && b[0] == s[0] && Interleaving(s[1..], a, b[1..]))
  }

  /** The list is the model files and the control files shuffled together, each in its own order. */
  lemma {:induction false} ModelAndControlInterleave(files: seq<ObjectFile>)
    ensures Interleaving(files, FilesWhere(files, false), FilesWhere(files, true))
    decreases |files|
  {
    if files != [] {
      var f := files[0];
      var model := FilesWhere(files[1..], false);
      var control := FilesWhere(files[1..], true);
      ModelAndControlInterleave(files[1..]);
      if f.isControl {
        assert FilesWhere(files, false) == model;
        assert FilesWhere(files, true) == [f] + control;
        assert ([f] + control)[1..] == control;
      } else {
        assert FilesWhere(files, false) == [f] + model;
        assert FilesWhere(files, true) == control;
        assert ([f] + model)[1..] == model;
      }
    }
  }

  /** Every copy of a file lands in exactly one of the two lists. */
  lemma {:induction false} ModelAndControlCount(files: seq<ObjectFile>)
    ensures multiset(files) == multiset(FilesWhere(files, false)) + multiset(FilesWhere(files, true))
    decreases |files|
  {
    if files != [] {
      ModelAndControlCount(files[1..]);
      assert files == [files[0]] + files[1..];
    }
  }

  /**
   * The model files and the control files together are all the files: the list is the two
   * shuffled together in their own order, no file is in both, and every copy of a file is
   * in exactly one of them.
   */
  lemma ModelAndControlPartition(files: seq<ObjectFile>)
    ensures Interleaving(files, FilesWhere(files, false), FilesWhere(files, true))
    ensures multiset(files) == multiset(FilesWhere(files, false)) + multiset(FilesWhere(files, true))
    ensures forall f :: f in FilesWhere(files, false) ==> f !in FilesWhere(files, true)
  {
    ModelAndControlInterleave(files);
    ModelAndControlCount(files);
  }

  /** The model and control cubes split the cube files; likewise the dimensions. */
  lemma FolderPartition(folder: Folder)
    ensures Interleaving(folder.cubeFiles, GetModelCubes(folder), GetControlCubes(folder))
    ensures multiset(folder.cubeFiles) == multiset(GetModelCubes(folder)) + multiset(GetControlCubes(folder))
    ensures forall f :: f in GetModelCubes(folder) ==> f !in GetControlCubes(folder)
    ensures Interleaving(folder.dimFiles, GetModelDimensions(folder), GetControlDimensions(folder))
    ensures multiset(folder.dimFiles) == multiset(GetModelDimensions(folder)) + multiset(GetControlDimensions(folder))
    ensures forall f :: f in GetModelDimensions(folder) ==> f !in GetControlDimensions(folder)
  {
    ModelAndControlPartition(folder.cubeFiles);
    ModelAndControlPartition(folder.dimFiles);
  }

  // ----- the data folder -----

  /** What the tool reads from `tm1s.cfg`: the value of `DataBaseDirectory`, if it has one. */
  datatype CfgFile = CfgFile(dataBaseDirectory: Option<string>)

  /** Where the data files are: the tool's own folder, an absolute folder, or one under the tool's folder. */
  datatype DataPath = RootPath | AbsolutePath(dir: string) | JoinedPath(dir: string)

  /**
   * `_get_data_path_from_cfg`: with no configuration file, or no data directory in it,
   * the tool's own folder; a relative directory is taken under that folder; an absolute
   * one is used only when the tool runs where the server does, and otherwise there is no
   * data folder.
   */
  function DataPathFromCfg(configFile: Option<CfgFile>, local: bool, isAbsolute: string -> bool)
    : (r: Option<DataPath>)
    ensures configFile.None? ==> r == Some(RootPath)
    ensures configFile.Some? && (configFile.value.dataBaseDirectory.None? || configFile.value.dataBaseDirectory.value == [])
      ==> r == Some(RootPath)
    ensures configFile.Some? && configFile.value.dataBaseDirectory.Some? && configFile.value.dataBaseDirectory.value != []
      ==> var dir := configFile.value.dataBaseDirectory.value;
          && (isAbsolute(dir) && !local ==> r.None?)
          && (isAbsolute(dir) && local ==> r == Some(AbsolutePath(dir)))
          && (!isAbsolute(dir) ==> r == Some(JoinedPath(dir)))
    ensures r.None? <==>
      configFile.Some? && configFile.value.dataBaseDirectory.Some? && configFile.value.dataBaseDirectory.value != []
      && isAbsolute(configFile.value.dataBaseDirectory.value) && !local
  {
    match configFile
    case None => Some(RootPath)
    case Some(cfg) =>
      match cfg.dataBaseDirectory
      case Some(dir) =>
        if dir == [] then Some(RootPath)
        else if isAbsolute(dir) then (if local then Some(AbsolutePath(dir)) else None)
        else Some(JoinedPath(dir))
      case None => Some(RootPath)
  }
}
