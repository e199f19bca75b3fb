/** The small path and value helpers of util.py: `none_value` (util.py:1394-1402),
    `get_file_attr` (util.py:2194-2204) and `get_folder_and_name` (util.py:2220-2225), together
    with the parts of `os.path` they call (POSIX rules, `/` as the separator). */
module Paths {
  import opened Strings
  import opened Values

  /** `s.rfind(c)`: the index of the last `c`, or -1. */
  function RFind(s: string, c: char): (r: int)
    ensures -1 <= r < |s|
    ensures r >= 0 ==> s[r] == c
    ensures forall i :: r < i < |s| ==> s[i] != c
  {
    if |s| == 0 then -1 else if s[|s| - 1] == c then |s| - 1 else RFind(s[..|s| - 1], c)
  }

  /** `s.rstrip(c)`. */
  function RStrip(s: string, c: char): (r: string)
    ensures |r| <= |s| && r == s[..|r|]
    ensures |r| == 0 || r[|r| - 1] != c
    ensures forall i :: |r| <= i < |s| ==> s[i] == c
  {
    if |s| > 0 && s[|s| - 1] == c then RStrip(s[..|s| - 1], c) else s
  }

  /** `s.count(c)` for one character. */
  function Count(s: string, c: char): nat {
    if |s| == 0 then 0 else (if s[0] == c then 1 else 0) + Count(s[1..], c)
  }

  /** `os.path.split(p)`: the tail is everything after the last `/`; the head is everything
      before it, with trailing slashes removed unless it consists of slashes only. */
  function PathSplit(p: string): (r: (string, string))
    ensures '/' !in r.1
    ensures |r.1| <= |p| && p[|p| - |r.1|..] == r.1
  {
    var i := RFind(p, '/') + 1;
    var head, tail := p[..i], p[i..];
    if head != "" && head != Repeat('/', |head|) then (RStrip(head, '/'), tail) else (head, tail)
  }

  /** The parts of `os.path.split(p)`: the tail follows the last `/` (it is the whole path when
      there is none), and the head is what precedes the tail: as it is when that consists of
      slashes only (or is empty), and with its trailing slashes removed otherwise. */
  lemma PathSplitParts(p: string)
    ensures var (head, tail) := PathSplit(p);
      && (|tail| == |p| || p[|p| - |tail| - 1] == '/')
      && |head| + |tail| <= |p| && p[..|head|] == head
      && ((forall i :: 0 <= i < |p| - |tail| ==> p[i] == '/') ==> head == p[..|p| - |tail|])
      && (!(forall i :: 0 <= i < |p| - |tail| ==> p[i] == '/') ==> head == RStrip(p[..|p| - |tail|], '/'))
  {
    var before := p[..RFind(p, '/') + 1];
    if before != "" && before != Repeat('/', |before|) {
      assert exists k :: 0 <= k < |before| && before[k] != Repeat('/', |before|)[k];
    }
  }

  /** Every character of `p[lo..hi]` is a dot. */
  predicate DotsOnly(p: string, lo: int, hi: int)
    requires 0 <= lo <= hi <= |p|
  {
    forall i :: lo <= i < hi ==> p[i] == '.'
  }

  /** `os.path.splitext(p)`: the extension starts at the last `.` of the last path component,
      unless everything before that dot in the component is dots too (`.bashrc` has none). */
  function SplitExt(p: string): (r: (string, string))
    ensures r.0 + r.1 == p
    ensures r.1 == "" || r.1[0] == '.'
    ensures forall i :: 0 <= i < |r.1| ==> r.1[i] != '/'
    ensures forall i :: 1 <= i < |r.1| ==> r.1[i] != '.'
    ensures r.1 != "" ==> RFind(p, '/') < |r.0| && !DotsOnly(p, RFind(p, '/') + 1, |r.0|)
    ensures r.1 == "" ==> forall i :: RFind(p, '/') < i < |p| && p[i] == '.' ==> DotsOnly(p, RFind(p, '/') + 1, i)
  {
    var sepIndex := RFind(p, '/');
    var dotIndex := RFind(p, '.');
    if dotIndex > sepIndex && !DotsOnly(p, sepIndex + 1, dotIndex) then
      (p[..dotIndex], p[dotIndex..])
    else (p, "")
  }

  /** `none_value(value)`: the empty string for a falsy value, otherwise `"%s" % value`. */
  function NoneValue(value: Node): (r: string)
    ensures r == "" <==> !Truthy(value)
    ensures value.Str? ==> r == value.s
  {
    if !Truthy(value) then "" else Show(value)
  }

  /** `get_file_attr(file_name)`: the base name without extension and the extension. The name is
      the part of the extension-less path after its last backslash, or else after its last
      slash; a path with neither gives an empty name. */
  function GetFileAttr(fileName: string): (r: (string, string))
    ensures r.1 == SplitExt(fileName).1
    ensures var stem := SplitExt(fileName).0;
      && |r.0| <= |stem| && stem[|stem| - |r.0|..] == r.0
      && '\\' !in r.0
      && ('\\' in stem ==> |r.0| < |stem| && stem[|stem| - |r.0| - 1] == '\\')
      && ('\\' !in stem && '/' in stem ==> '/' !in r.0 && |r.0| < |stem| && stem[|stem| - |r.0| - 1] == '/')
      && ('\\' !in stem && '/' !in stem ==> r.0 == "")
  {
    var (folder, extension) := SplitExt(fileName);
    var name :=
      if '\\' in folder then folder[RFind(folder, '\\') + 1..]
      else if '/' in folder then folder[RFind(folder, '/') + 1..]
      else "";
    (name, extension)
  }

  /** `|s.split(c)|` is one more than the number of separators. */
  lemma {:induction false} SplitCount(s: string, c: char)
    ensures |Split(s, c)| == Count(s, c) + 1
  {
    if |s| > 0 { SplitCount(s[1..], c); }
  }

  /** `a, b = s.split(c)`: succeeds only when `s` holds exactly one `c`; otherwise Python's
      unpacking raises `ValueError`. */
  function SplitPair(s: string, c: char): (r: Result<(string, string)>)
    ensures r.Ok? <==> Count(s, c) == 1
    ensures r.Ok? ==> s == r.value.0 + [c] + r.value.1 && c !in r.value.0 && c !in r.value.1
    ensures r.Ok? ==> s == r.value.0 + ([c] + r.value.1)
  {
    var parts := Split(s, c);
    SplitCount(s, c);
    if |parts| != 2 then
      Err(ValueError(if |parts| < 2 then "not enough values to unpack (expected 2, got 1)"
                     else "too many values to unpack (expected 2)"))
    else
      SplitJoin(s, c);
      assert s == parts[0] + [c] + parts[1];
      Ok((parts[0], parts[1]))
  }

  /** The part of a name before its one dot, with the dot, begins the name. */
  lemma StemBeforeDot(name: string)
    requires SplitPair(name, '.').Ok?
    ensures StartsWith(name, SplitPair(name, '.').value.0 + ".")
  {
    var pair := SplitPair(name, '.');
    StartsWithAppend(pair.value.0 + ".", pair.value.0 + ".", pair.value.1);
  }

  /** `get_folder_and_name(file_name)`: the name of the directory holding the file and the file
      name before its dot. Unpacking the split name raises `ValueError` unless the file name
      holds exactly one dot. */
  function GetFolderAndName(fileName: string): (r: Result<(string, string)>)
    ensures r.Ok? <==> Count(PathSplit(fileName).1, '.') == 1
    ensures r.Ok? ==> r.value.0 == PathSplit(PathSplit(fileName).0).1 && '/' !in r.value.0
    ensures r.Ok? ==> '.' !in r.value.1 && StartsWith(PathSplit(fileName).1, r.value.1 + ".")
  {
    var parts := PathSplit(fileName);
    var metadataFolder := PathSplit(parts.0).1;
    var pair := SplitPair(parts.1, '.');
    if pair.Err? then Err(pair.exc)
    else
      var stem := pair.value.0;
      StemBeforeDot(parts.1);
      Ok((metadataFolder, stem))
  }
}
