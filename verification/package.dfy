/** The package manifest helpers of util.py: reading the `<types>` of a decoded `package.xml`
    (`build_package_types`, util.py:725-745, and `parse_package`, util.py:1151-1200), grouping
    files by metadata type (`build_package_dict`, util.py:786-841) and writing a manifest
    (`build_package_xml`, util.py:843-878). The decoded XML and the settings are given as values. */
module Package {
  import opened Strings
  import opened Values
  import opened Paths

  // ----- build_package_types (util.py:725-745) -----

  /** The member list recorded for one `<types>` entry: a lone member (a string) becomes a
      one-element list, a list is kept as it is; any other shape is not recorded. */
  function MembersOf(members: Node): (r: Option<seq<Node>>)
    ensures r.Some? <==> members.Str? || members.List?
    ensures members.Str? ==> r == Some([members])
    ensures members.List? ==> r == Some(members.items)
  {
    match members
    case Str(_) => Some([members])
    case List(xs) => Some(xs)
    case _ => None
  }

  /** The loop body for one entry `t`: `types[t["name"]] = ...` when the members have a
      recorded shape. */
  function RecordType(types: Dict<Node, seq<Node>>, t: Node): Result<Dict<Node, seq<Node>>> {
    var name :- Index(t, "name");
    var members :- Index(t, "members");
    match MembersOf(members)
    case Some(ms) => Ok(Put(types, name, ms))
    case None => Ok(types)
  }

  /** The rest of the loop of `build_package_types` over the entries `ts`, starting from `types`. */
  function TypesFrom(ts: seq<Node>, types: Dict<Node, seq<Node>>): Result<Dict<Node, seq<Node>>>
    decreases |ts|
  {
    if |ts| == 0 then Ok(types)
    else
      var next :- RecordType(types, ts[0]);
      TypesFrom(ts[1..], next)
  }

  /** `build_package_types` on the decoded manifest `doc`. A single `<types>` entry decodes to a
      dictionary and is handled as a one-element list. */
  function PackageTypes(doc: Node): (r: Result<Dict<Node, seq<Node>>>)
    ensures Path(doc, ["Package", "types"]).Ok? ==>
      var types := Path(doc, ["Package", "types"]).value;
      && (types.Map? ==> r == TypesFrom([types], []))
      && (types.List? ==> r == TypesFrom(types.items, []))
      && (types.Null? ==> r.Err?)
  {
    var types :- Path(doc, ["Package", "types"]);
    var ts :- Iterate(OneOrMany(types));
    TypesFrom(ts, [])
  }

  method BuildPackageTypes(doc: Node) returns (r: Result<Dict<Node, seq<Node>>>)
    ensures r == PackageTypes(doc)
  {
    var metadataTypes :- Path(doc, ["Package", "types"]);
    if metadataTypes.Map? {
      metadataTypes := List([metadataTypes]);
    }
    var ts :- Iterate(metadataTypes);
    var types: Dict<Node, seq<Node>> := [];
    var i := 0;
    while i < |ts|
      invariant 0 <= i <= |ts|
      invariant TypesFrom(ts[i..], types) == PackageTypes(doc)
    {
      var t := ts[i];
      assert ts[i..][1..] == ts[i + 1..];
      var name :- Index(t, "name");
      var members :- Index(t, "members");
      if members.Str? {
        types := Put(types, name, [members]);
      } else if members.List? {
        types := Put(types, name, members.items);
      }
      i := i + 1;
    }
    r := Ok(types);
  }

  /** Entry `t` records a member list under `name`. */
  predicate Records(t: Node, name: Node) {
    && t.Map? && HasKey(t.entries, "name") && HasKey(t.entries, "members")
    && Get(t.entries, "name") == name && MembersOf(Get(t.entries, "members")).Some?
  }

  /** The position of the last entry of `ts` that records under `name`, or -1. */
  function LastRecord(ts: seq<Node>, name: Node): (k: int)
    ensures -1 <= k < |ts|
    ensures k >= 0 ==> Records(ts[k], name)
    ensures forall j :: k < j < |ts| ==> !Records(ts[j], name)
  {
    if |ts| == 0 then -1
    else
      var k := LastRecord(ts[1..], name);
      if k >= 0 then k + 1 else if Records(ts[0], name) then 0 else -1
  }

  /** Every entry is a dictionary with a `name` and a `members` key. */
  predicate WellFormedTypes(ts: seq<Node>) {
    forall i :: 0 <= i < |ts| ==> ts[i].Map? && HasKey(ts[i].entries, "name") && HasKey(ts[i].entries, "members")
  }

  /** The loop succeeds exactly on well-formed entries; afterwards a name is present exactly when
      it was before or some entry records it, and it holds the members of the LAST entry that
      records it (a later entry with the same name overwrites an earlier one). */
  lemma {:induction false} TypesFromLookup(ts: seq<Node>, types: Dict<Node, seq<Node>>, name: Node)
    ensures TypesFrom(ts, types).Ok? <==> WellFormedTypes(ts)
    ensures TypesFrom(ts, types).Ok? ==>
      var r := TypesFrom(ts, types).value;
      var k := LastRecord(ts, name);
      && (HasKey(r, name) <==> k >= 0 || HasKey(types, name))
      && (k >= 0 ==> Get(r, name) == MembersOf(Get(ts[k].entries, "members")).value)
      && (k < 0 && HasKey(types, name) ==> Get(r, name) == Get(types, name))
    decreases |ts|
  {
    if |ts| > 0 {
      var t := ts[0];
      assert WellFormedTypes(ts) ==> WellFormedTypes(ts[1..]) by {
        if WellFormedTypes(ts) {
          forall i | 0 <= i < |ts[1..]|
            ensures ts[1..][i].Map? && HasKey(ts[1..][i].entries, "name") && HasKey(ts[1..][i].entries, "members")
          {
            assert ts[1..][i] == ts[i + 1];
          }
        }
      }
      var step := RecordType(types, t);
      if step.Ok? {
        var next := step.value;
        TypesFromLookup(ts[1..], next, name);
        assert WellFormedTypes(ts[1..]) ==> WellFormedTypes(ts) by {
          if WellFormedTypes(ts[1..]) {
            forall i | 0 <= i < |ts|
              ensures ts[i].Map? && HasKey(ts[i].entries, "name") && HasKey(ts[i].entries, "members")
            {
              if i > 0 { assert ts[i] == ts[1..][i - 1]; }
            }
          }
        }
        var n := Get(t.entries, "name");
        var m := Get(t.entries, "members");
        if MembersOf(m).Some? {
          PutGet(types, n, MembersOf(m).value, name);
        }
      } else {
        assert !WellFormedTypes(ts) by {
          assert !(ts[0].Map? && HasKey(ts[0].entries, "name") && HasKey(ts[0].entries, "members"));
        }
      }
    }
  }

  // ----- parse_package (util.py:1151-1200) -----

  /** `"<met:members>%s</met:members>" % m` for each member. */
  function MemberTags(ms: seq<Node>): (r: seq<string>)
    ensures |r| == |ms|
    ensures forall i :: 0 <= i < |ms| ==> r[i] == "<met:members>" + Show(ms[i]) + "</met:members>"
  {
    seq(|ms|, i requires 0 <= i < |ms| => "<met:members>" + Show(ms[i]) + "</met:members>")
  }

  /** The `<types>` element `parse_package` writes for one entry: every member of a list of
      members, otherwise the members value as one tag; then the name. */
  function TypeElement(t: Node): Result<string> {
    var hasMembers :- In("members", t);
    var members :- Index(t, "members");
    var tags := if hasMembers && members.List? then MemberTags(members.items) else MemberTags([members]);
    var name :- Index(t, "name");
    Ok("<types>" + Join("", tags) + "<name>" + Show(name) + "</name>" + "</types>")
  }

  /** The rest of the loop of `parse_package` over the entries `ts`, after `elements`. */
  function ElementsFrom(ts: seq<Node>, elements: seq<string>): (r: Result<seq<string>>)
    decreases |ts|
  {
    if |ts| == 0 then Ok(elements)
    else
      var e :- TypeElement(ts[0]);
      ElementsFrom(ts[1..], elements + [e])
  }

  /** `parse_package` on the decoded manifest `doc`: the `<types>` elements followed by the
      version. */
  function ParsedPackage(doc: Node): (r: Result<string>) {
    var types :- Path(doc, ["Package", "types"]);
    var ts :- Iterate(OneOrMany(types));
    var elements :- ElementsFrom(ts, []);
    var version :- Path(doc, ["Package", "version"]);
    Ok(Join("", elements) + "<met:version>" + Show(version) + "</met:version>")
  }

  /** The body of the loop of `parse_package` for one entry `t`. */
  method WriteTypeElement(t: Node) returns (r: Result<string>)
    ensures r == TypeElement(t)
  {
    var members: seq<string> := [];
    var hasMembers :- In("members", t);
    var isList := false;
    if hasMembers {
      var m :- Index(t, "members");
      isList := m.List?;
    }
    if isList {
      var xs := Index(t, "members").value.items;
      var j := 0;
      while j < |xs|
        invariant 0 <= j <= |xs|
        invariant members == MemberTags(xs)[..j]
      {
        members := members + ["<met:members>" + Show(xs[j]) + "</met:members>"];
        j := j + 1;
      }
      assert members == MemberTags(xs);
    } else {
      var m :- Index(t, "members");
      members := members + ["<met:members>" + Show(m) + "</met:members>"];
      assert members == MemberTags([m]);
    }
    var name :- Index(t, "name");
    r := Ok("<types>" + Join("", members) + "<name>" + Show(name) + "</name>" + "</types>");
  }

  /** The loop of `parse_package` over the `<types>` entries `ts`. */
  method WriteElements(ts: seq<Node>) returns (r: Result<seq<string>>)
    ensures r == ElementsFrom(ts, [])
  {
    var elements: seq<string> := [];
    var i := 0;
    while i < |ts|
      invariant 0 <= i <= |ts|
      invariant ElementsFrom(ts[i..], elements) == ElementsFrom(ts, [])
    {
      assert ts[i..][1..] == ts[i + 1..];
      var element :- WriteTypeElement(ts[i]);
      elements := elements + [element];
      i := i + 1;
    }
    r := Ok(elements);
  }

  method ParsePackage(doc: Node) returns (r: Result<string>)
    ensures r == ParsedPackage(doc)
  {
    var types :- Path(doc, ["Package", "types"]);
    if types.Map? {
      types := List([types]);
    }
    var ts :- Iterate(types);
    var elements :- WriteElements(ts);
    var version :- Path(doc, ["Package", "version"]);
    r := Ok(Join("", elements) + "<met:version>" + Show(version) + "</met:version>");
  }

  /** Every entry of `ts` yields an element. */
  predicate AllElements(ts: seq<Node>) {
    forall i :: 0 <= i < |ts| ==> TypeElement(ts[i]).Ok?
  }

  /** The loop of `parse_package` succeeds exactly when every entry yields an element. */
  lemma {:induction false} ElementsFromOk(ts: seq<Node>, elements: seq<string>)
    ensures ElementsFrom(ts, elements).Ok? <==> AllElements(ts)
    decreases |ts|
  {
    if |ts| > 0 {
      var e := TypeElement(ts[0]);
      if e.Ok? {
        ElementsFromOk(ts[1..], elements + [e.value]);
        assert AllElements(ts) <==> AllElements(ts[1..]) by {
          forall i | 0 <= i < |ts[1..]| ensures ts[1..][i] == ts[i + 1] { }
          if AllElements(ts[1..]) {
            forall i | 0 <= i < |ts| ensures TypeElement(ts[i]).Ok? {
              if i > 0 { assert ts[i] == ts[1..][i - 1]; }
            }
          }
        }
      } else {
        assert !AllElements(ts) by { assert !TypeElement(ts[0]).Ok?; }
      }
    }
  }

  /** The element of every entry, in entry order. */
  function ElementValues(ts: seq<Node>): (r: seq<string>)
    requires AllElements(ts)
  {
    seq(|ts|, i requires 0 <= i < |ts| => TypeElement(ts[i]).value)
  }

  lemma {:induction false} ElementsFromValues(ts: seq<Node>, elements: seq<string>)
    requires AllElements(ts)
    ensures ElementsFrom(ts, elements) == Ok(elements + ElementValues(ts))
    decreases |ts|
  {
    if |ts| == 0 {
      assert elements + ElementValues(ts) == elements;
    } else {
      var e := TypeElement(ts[0]).value;
      var rest := ts[1..];
      assert AllElements(rest) by {
        forall i | 0 <= i < |rest| ensures TypeElement(rest[i]).Ok? {
          assert rest[i] == ts[i + 1];
        }
      }
      ElementsFromValues(rest, elements + [e]);
      assert ElementValues(ts) == [e] + ElementValues(rest) by {
        forall i | 0 <= i < |ts| ensures ElementValues(ts)[i] == ([e] + ElementValues(rest))[i] {
          if i > 0 {
            assert ts[i] == rest[i - 1];
          }
        }
      }
      assert elements + [e] + ElementValues(rest) == elements + ElementValues(ts);
    }
  }

  /** On success the loop appends one element per entry, in entry order. */
  lemma ElementsFromAt(ts: seq<Node>, elements: seq<string>)
    requires AllElements(ts)
    ensures ElementsFrom(ts, elements).Ok?
    ensures var r := ElementsFrom(ts, elements).value;
      && |r| == |elements| + |ts| && r[..|elements|] == elements
      && forall i :: 0 <= i < |ts| ==> r[|elements| + i] == TypeElement(ts[i]).value
  {
    ElementsFromValues(ts, elements);
    var r := elements + ElementValues(ts);
    assert r[..|elements|] == elements;
    forall i | 0 <= i < |ts|
      ensures r[|elements| + i] == TypeElement(ts[i]).value
    {
      assert r[|elements| + i] == ElementValues(ts)[i];
    }
  }

  /** For an entry whose members `build_package_types` records, `parse_package` writes exactly
      those members, in the same order, followed by the entry's name. */
  lemma ElementListsRecordedMembers(t: Node)
    requires t.Map? && HasKey(t.entries, "name") && HasKey(t.entries, "members")
    requires MembersOf(Get(t.entries, "members")).Some?
    ensures TypeElement(t) == Ok("<types>" + Join("", MemberTags(MembersOf(Get(t.entries, "members")).value))
                                 + "<name>" + Show(Get(t.entries, "name")) + "</name>" + "</types>")
  {
  }

  // ----- build_package_dict (util.py:786-841) -----

  /** The record kept for one file: its name, full path, folder and extension. */
  datatype FileEntry = FileEntry(name: string, dir: string, folder: string, extension: string)

  /** What `build_package_dict` reads besides its file list: the `ignore_folder` flag, the paths
      `os.path.isfile` accepts and the settings dictionary (folder -> `{"xmlName": ...}`). */
  datatype Context = Context(ignoreFolder: bool, isFile: set<string>, settings: Node)

  /** Files the loop passes over: with `ignoreFolder`, paths that are not regular files; and every
      `-meta.xml` companion. */
  predicate Skipped(ctx: Context, f: string) {
    (ctx.ignoreFolder && f !in ctx.isFile) || EndsWith(f, "-meta.xml")
  }

  /** The metadata type and record of one file. The type is `settings[folder]["xmlName"]` for the
      folder holding the file. With `ignoreFolder` the file name must hold exactly one dot and is
      split into name and extension; without it the whole file name is the name. */
  function FileRecord(ctx: Context, f: string): (r: Result<(Node, FileEntry)>)
    ensures r.Ok? ==> r.value.1.dir == f && '/' !in r.value.1.folder
    ensures r.Ok? && ctx.ignoreFolder ==>
      var e := r.value.1;
      PathSplit(f).1 == e.name + e.extension && '.' !in e.name && StartsWith(e.extension, ".")
    ensures r.Ok? && !ctx.ignoreFolder ==> r.value.1.name == PathSplit(f).1 && r.value.1.extension == ""
  {
    var (base, name) := PathSplit(f);
    var (_, folder) := PathSplit(base);
    if ctx.ignoreFolder then
      var parts :- SplitPair(name, '.');
      var xmlName :- Path(ctx.settings, [folder, "xmlName"]);
      Ok((xmlName, FileEntry(parts.0, f, folder, "." + parts.1)))
    else
      var xmlName :- Path(ctx.settings, [folder, "xmlName"]);
      Ok((xmlName, FileEntry(name, f, folder, "")))
  }

  /** What the loop makes of one file: nothing for a file it passes over, otherwise the file's
      type and record, or the exception computing them raised. */
  function Step(ctx: Context, f: string): Option<Result<(Node, FileEntry)>> {
    if Skipped(ctx, f) then None else Some(FileRecord(ctx, f))
  }

  function Steps(ctx: Context, files: seq<string>): (r: seq<Option<Result<(Node, FileEntry)>>>)
    ensures |r| == |files|
  {
    MapSeq(f => Step(ctx, f), files)
  }

  /** `package_dict[xml_name].append(entry)`, or a new one-element list for a type not seen yet. */
  function AddFile(d: Dict<Node, seq<FileEntry>>, xmlName: Node, entry: FileEntry): Dict<Node, seq<FileEntry>> {
    Put(d, xmlName, (if HasKey(d, xmlName) then Get(d, xmlName) else []) + [entry])
  }

  /** The rest of the loop of `build_package_dict` over the outcomes `steps`, starting from `d`. */
  function DictFrom(steps: seq<Option<Result<(Node, FileEntry)>>>, d: Dict<Node, seq<FileEntry>>): Result<Dict<Node, seq<FileEntry>>>
    decreases |steps|
  {
    if |steps| == 0 then Ok(d)
    else
      match steps[0]
      case None => DictFrom(steps[1..], d)
      case Some(record) =>
        var rec :- record;
        DictFrom(steps[1..], AddFile(d, rec.0, rec.1))
  }

  /** `build_package_dict(files, ignore_folder)`. */
  function PackageDict(ctx: Context, files: seq<string>): Result<Dict<Node, seq<FileEntry>>> {
    DictFrom(Steps(ctx, files), [])
  }

  /** The type and record of one file that the loop does not pass over (util.py:805-833). */
  method RecordFile(ctx: Context, f: string) returns (r: Result<(Node, FileEntry)>)
    ensures r == FileRecord(ctx, f)
  {
    var (base, name) := PathSplit(f);
    if ctx.ignoreFolder {
      var parts :- SplitPair(name, '.');
      var (_, folder) := PathSplit(base);
      var xmlName :- Path(ctx.settings, [folder, "xmlName"]);
      r := Ok((xmlName, FileEntry(parts.0, f, folder, "." + parts.1)));
    } else {
      var (_, folder) := PathSplit(base);
      var xmlName :- Path(ctx.settings, [folder, "xmlName"]);
      r := Ok((xmlName, FileEntry(name, f, folder, "")));
    }
  }

  /** `# Build dict` (util.py:835-839). */
  method AddToPackage(packageDict: Dict<Node, seq<FileEntry>>, xmlName: Node, fileDict: FileEntry)
    returns (r: Dict<Node, seq<FileEntry>>)
    ensures r == AddFile(packageDict, xmlName, fileDict)
  {
    if HasKey(packageDict, xmlName) {
      r := Put(packageDict, xmlName, Get(packageDict, xmlName) + [fileDict]);
    } else {
      assert [] + [fileDict] == [fileDict];
      r := Put(packageDict, xmlName, [fileDict]);
    }
  }

  method BuildPackageDict(ctx: Context, files: seq<string>) returns (r: Result<Dict<Node, seq<FileEntry>>>)
    ensures r == PackageDict(ctx, files)
  {
    var packageDict: Dict<Node, seq<FileEntry>> := [];
    var i := 0;
    while i < |files|
      invariant 0 <= i <= |files|
      invariant DictFrom(Steps(ctx, files[i..]), packageDict) == PackageDict(ctx, files)
    {
      var f := files[i];
      assert files[i..][1..] == files[i + 1..];
      MapSeqTail(f => Step(ctx, f), files[i..]);
      if Skipped(ctx, f) {
        i := i + 1;
        continue;
      }
      var record :- RecordFile(ctx, f);
      packageDict := AddToPackage(packageDict, record.0, record.1);
      i := i + 1;
    }
    r := Ok(packageDict);
  }

  /** The records of type `xmlName` among the outcomes, in file order: an independent statement of
      the grouping. */
  function Group(steps: seq<Option<Result<(Node, FileEntry)>>>, xmlName: Node): seq<FileEntry>
    decreases |steps|
  {
    if |steps| == 0 then []
    else
      (if steps[0].Some? && steps[0].value.Ok? && steps[0].value.value.0 == xmlName then [steps[0].value.value.1] else [])
      + Group(steps[1..], xmlName)
  }

  /** No file that the loop does not pass over raised. */
  predicate AllRecorded(steps: seq<Option<Result<(Node, FileEntry)>>>) {
    forall i :: 0 <= i < |steps| && steps[i].Some? ==> steps[i].value.Ok?
  }

  /** Adding a record to the list of `x` leaves every other type as it was. */
  lemma AddFileLookup(d: Dict<Node, seq<FileEntry>>, x: Node, e: FileEntry, y: Node)
    requires NoDuplicates(Keys(d))
    ensures NoDuplicates(Keys(AddFile(d, x, e)))
    ensures HasKey(AddFile(d, x, e), y) <==> y == x || HasKey(d, y)
    ensures HasKey(AddFile(d, x, e), y) ==>
      Get(AddFile(d, x, e), y) == if y == x then (if HasKey(d, x) then Get(d, x) else []) + [e] else Get(d, y)
  {
    var v := (if HasKey(d, x) then Get(d, x) else []) + [e];
    PutKeys(d, x, v);
    PutGet(d, x, v, y);
  }

  /** The loop succeeds exactly when no file it does not pass over raises. */
  lemma {:induction false} DictFromOk(steps: seq<Option<Result<(Node, FileEntry)>>>, d: Dict<Node, seq<FileEntry>>)
    ensures DictFrom(steps, d).Ok? <==> AllRecorded(steps)
    decreases |steps|
  {
    if |steps| > 0 {
      assert AllRecorded(steps) <==> (steps[0].Some? ==> steps[0].value.Ok?) && AllRecorded(steps[1..]) by {
        forall i | 0 <= i < |steps[1..]| ensures steps[1..][i] == steps[i + 1] { }
        if (steps[0].Some? ==> steps[0].value.Ok?) && AllRecorded(steps[1..]) {
          forall i | 0 <= i < |steps| && steps[i].Some? ensures steps[i].value.Ok? {
            if i > 0 { assert steps[i] == steps[1..][i - 1]; }
          }
        }
      }
      match steps[0]
      case None => DictFromOk(steps[1..], d);
      case Some(record) =>
        if record.Ok? {
          DictFromOk(steps[1..], AddFile(d, record.value.0, record.value.1));
        }
    }
  }

  /** After a successful loop, the list of each type holds the records of that type's files in
      file order (after whatever it held before), a type is present exactly when it was or one of
      its files was seen, and the types stay free of repeats. */
  lemma {:induction false} DictFromGroups(steps: seq<Option<Result<(Node, FileEntry)>>>, d: Dict<Node, seq<FileEntry>>, xmlName: Node)
    requires NoDuplicates(Keys(d))
    requires DictFrom(steps, d).Ok?
    ensures var r := DictFrom(steps, d).value;
      var g := Group(steps, xmlName);
      && NoDuplicates(Keys(r))
      && (HasKey(r, xmlName) <==> HasKey(d, xmlName) || g != [])
      && (HasKey(r, xmlName) ==> Get(r, xmlName) == (if HasKey(d, xmlName) then Get(d, xmlName) else []) + g)
    decreases |steps|
  {
    if |steps| > 0 {
      var g' := Group(steps[1..], xmlName);
      match steps[0]
      case None =>
        DictFromGroups(steps[1..], d, xmlName);
        assert Group(steps, xmlName) == g';
      case Some(record) =>
        var rec := record.value;
        var d' := AddFile(d, rec.0, rec.1);
        assert DictFrom(steps, d) == DictFrom(steps[1..], d');
        AddFileLookup(d, rec.0, rec.1, xmlName);
        DictFromGroups(steps[1..], d', xmlName);
        GroupsAfterAdd(d, rec.0, rec.1, xmlName, g');
        if rec.0 == xmlName {
          assert Group(steps, xmlName) == [rec.1] + g';
        } else {
          assert Group(steps, xmlName) == g';
        }
    }
  }

  /** The list of `y` after adding a record and then a group `g` for `y`. */
  lemma GroupsAfterAdd(d: Dict<Node, seq<FileEntry>>, x: Node, e: FileEntry, y: Node, g: seq<FileEntry>)
    requires NoDuplicates(Keys(d))
    ensures var d' := AddFile(d, x, e);
      var prev := if HasKey(d, y) then Get(d, y) else [];
      (if HasKey(d', y) then Get(d', y) else []) + g == prev + ((if x == y then [e] else []) + g)
  {
    AddFileLookup(d, x, e, y);
    var prev := if HasKey(d, y) then Get(d, y) else [];
    if x == y {
      assert prev + [e] + g == prev + ([e] + g);
    } else {
      assert [] + g == g;
    }
  }

  /** `build_package_dict` raises exactly when a file it does not pass over has no type (or, with
      `ignoreFolder`, a name without exactly one dot); otherwise each type lists the records of
      its files in the order of `files`, and every type appears once. */
  lemma PackageDictGroups(ctx: Context, files: seq<string>, xmlName: Node)
    ensures PackageDict(ctx, files).Ok? <==>
      forall i :: 0 <= i < |files| && !Skipped(ctx, files[i]) ==> FileRecord(ctx, files[i]).Ok?
    ensures PackageDict(ctx, files).Ok? ==>
      var r := PackageDict(ctx, files).value;
      var g := Group(Steps(ctx, files), xmlName);
      && NoDuplicates(Keys(r))
      && (HasKey(r, xmlName) <==> g != [])
      && (HasKey(r, xmlName) ==> Get(r, xmlName) == g)
  {
    var steps := Steps(ctx, files);
    DictFromOk(steps, []);
    assert AllRecorded(steps) <==>
      forall i :: 0 <= i < |files| && !Skipped(ctx, files[i]) ==> FileRecord(ctx, files[i]).Ok?
    by {
      forall i | 0 <= i < |files| ensures steps[i] == Step(ctx, files[i]) { }
    }
    if PackageDict(ctx, files).Ok? {
      DictFromGroups(steps, [], xmlName);
    }
  }

  // ----- build_package_xml (util.py:843-878) -----

  /** `"<members>%s</members>" % f["name"]`. */
  function MemberTag(f: FileEntry): string {
    "<members>" + f.name + "</members>"
  }

  /** The `<types>` block of one metadata type, laid out as the template of util.py:863-868. */
  function TypesBlock(metaType: Node, files: seq<FileEntry>): string {
    "\n        <types>\n            "
    + Join(" ", seq(|files|, i requires 0 <= i < |files| => MemberTag(files[i])))
    + "\n            <name>" + Show(metaType) + "</name>\n        </types>\n        "
  }

  const MANIFEST_HEAD := "<?xml version=\"1.0\" encoding=\"UTF-8\"?>\n        <Package xmlns=\"http://soap.sforce.com/2006/04/metadata\">\n            "

  /** The text before the version number. */
  const VERSION_OPEN := "\n            <version>"

  /** The text after the version number. */
  const MANIFEST_TAIL := ".0</version>\n        </Package>\n    "

  /** The manifest `build_package_xml` writes: one `<types>` block per type of the package
      dictionary, in its order, each listing one `<members>` tag per file in file order, and the
      API version followed by `.0`. */
  function PackageXml(apiVersion: nat, packageDict: Dict<Node, seq<FileEntry>>): string {
    MANIFEST_HEAD + TypesText(packageDict) + VERSION_OPEN + DecimalString(apiVersion) + MANIFEST_TAIL
  }

  /** The `<types>` blocks of the package dictionary, in its order, separated by spaces. */
  function TypesText(packageDict: Dict<Node, seq<FileEntry>>): string {
    Join(" ", seq(|packageDict|, i requires 0 <= i < |packageDict| => TypesBlock(packageDict[i].0, packageDict[i].1)))
  }

  method BuildPackageXml(apiVersion: nat, packageDict: Dict<Node, seq<FileEntry>>) returns (content: string)
    ensures content == PackageXml(apiVersion, packageDict)
  {
    var types: seq<string> := [];
    var i := 0;
    while i < |packageDict|
      invariant 0 <= i <= |packageDict|
      invariant types == seq(i, k requires 0 <= k < i => TypesBlock(packageDict[k].0, packageDict[k].1))
    {
      var (metaType, files) := packageDict[i];
      var members: seq<string> := [];
      var j := 0;
      while j < |files|
        invariant 0 <= j <= |files|
        invariant members == seq(j, k requires 0 <= k < j => MemberTag(files[k]))
      {
        members := members + ["<members>" + files[j].name + "</members>"];
        j := j + 1;
      }
      types := types + ["\n        <types>\n            " + Join(" ", members)
                        + "\n            <name>" + Show(metaType) + "</name>\n        </types>\n        "];
      i := i + 1;
    }
    content := MANIFEST_HEAD + Join(" ", types) + VERSION_OPEN + DecimalString(apiVersion) + MANIFEST_TAIL;
  }

  /** A text built as `head + body + open + number + tail` starts with `head` and ends with
      `open + number + tail`. */
  lemma {:induction false} FramedText(head: string, body: string, open: string, number: string, tail: string)
    ensures StartsWith(head + body + open + number + tail, head)
  {
    var x := head + body + open + number + tail;
    assert x == head + (body + open + number + tail);
    assert x[..|head|] == head;
  }

  /** The version in a manifest reads back as the API version it was built with. */
  lemma PackageXmlVersion(apiVersion: nat, packageDict: Dict<Node, seq<FileEntry>>)
    ensures exists body :: PackageXml(apiVersion, packageDict) == body + VERSION_OPEN + DecimalString(apiVersion) + MANIFEST_TAIL
    ensures StartsWith(PackageXml(apiVersion, packageDict), MANIFEST_HEAD)
    ensures DecimalValue(DecimalString(apiVersion)) == apiVersion
  {
    var body := MANIFEST_HEAD + TypesText(packageDict);
    assert PackageXml(apiVersion, packageDict) == body + VERSION_OPEN + DecimalString(apiVersion) + MANIFEST_TAIL;
    FramedText(MANIFEST_HEAD, TypesText(packageDict), VERSION_OPEN, DecimalString(apiVersion), MANIFEST_TAIL);
    DecimalRoundTrip(apiVersion);
  }

  // ----- a manifest read back -----

  /** The names of the files, as decoded text. */
  function MemberNodes(files: seq<FileEntry>): (r: seq<Node>)
    ensures |r| == |files| && forall i :: 0 <= i < |files| ==> r[i] == Str(files[i].name)
  {
    seq(|files|, i requires 0 <= i < |files| => Str(files[i].name))
  }

  /** Whitespace as `str.strip` removes it: space, tab, line feed, vertical tab, form feed and
      carriage return. */
  predicate IsSpace(c: char) {
    c == ' ' || '\t' <= c <= '\r'
  }

  /** `s.strip()`. */
  function Strip(s: string): (r: string)
    ensures |r| <= |s|
    decreases |s|
  {
    if |s| > 0 && IsSpace(s[0]) then Strip(s[1..])
    else if |s| > 0 && IsSpace(s[|s| - 1]) then Strip(s[..|s| - 1])
    else s
  }

  /** A name the XML decoder gives back as written: not empty, no surrounding whitespace, and no
      `<` or `&`, which the manifest does not escape. */
  predicate Plain(s: string) {
    |s| > 0 && !IsSpace(s[0]) && !IsSpace(s[|s| - 1]) && '<' !in s && '&' !in s
  }

  /** The text of an element without markup as the XML decoder gives it back: stripped of
      surrounding whitespace, and `None` when nothing is left. */
  function XmlText(s: string): (r: Node)
    ensures Plain(s) ==> r == Str(s)
    ensures r.Null? || r.Str?
  {
    var t := Strip(s);
    if t == "" then Null else Str(t)
  }

  /** An element holding only whitespace is given back as `None`. */
  lemma {:induction false} BlankTextIsNone(s: string)
    requires forall i :: 0 <= i < |s| ==> IsSpace(s[i])
    ensures XmlText(s) == Null
  {
    BlankStrips(s);
  }

  lemma {:induction false} BlankStrips(s: string)
    requires forall i :: 0 <= i < |s| ==> IsSpace(s[i])
    ensures Strip(s) == ""
    decreases |s|
  {
    if |s| > 0 {
      assert forall i :: 0 <= i < |s[1..]| ==> s[1..][i] == s[i + 1];
      BlankStrips(s[1..]);
    }
  }

  /** The names of the files as the XML decoder gives them back. */
  function DecodedMembers(files: seq<FileEntry>): (r: seq<Node>)
    ensures |r| == |files| && forall i :: 0 <= i < |files| ==> r[i] == XmlText(files[i].name)
  {
    seq(|files|, i requires 0 <= i < |files| => XmlText(files[i].name))
  }

  /** How the XML decoder gives back one `<types>` block of `build_package_xml`: a lone element as
      text, repeated elements as a list, and no key at all when there is no `<members>`. */
  function DecodedType(metaType: Node, files: seq<FileEntry>): Node {
    var members :=
      if |files| == 0 then []
      else if |files| == 1 then [("members", XmlText(files[0].name))]
      else [("members", List(DecodedMembers(files)))];
    Map(members + [("name", XmlText(Show(metaType)))])
  }

  /** Every shown type name and every file name of `packageDict` is plain. */
  predicate PlainNames(packageDict: Dict<Node, seq<FileEntry>>) {
    forall i :: 0 <= i < |packageDict| ==>
      Plain(Show(packageDict[i].0)) && forall j :: 0 <= j < |packageDict[i].1| ==> Plain(packageDict[i].1[j].name)
  }

  /** The decoded `<types>` blocks, one per type. */
  function DecodedTypes(packageDict: Dict<Node, seq<FileEntry>>): (r: seq<Node>)
    ensures |r| == |packageDict|
    ensures forall i :: 0 <= i < |packageDict| ==> r[i] == DecodedType(packageDict[i].0, packageDict[i].1)
  {
    seq(|packageDict|, i requires 0 <= i < |packageDict| => DecodedType(packageDict[i].0, packageDict[i].1))
  }

  /** The decoded form of the whole manifest `build_package_xml` writes. */
  function DecodedManifest(apiVersion: nat, packageDict: Dict<Node, seq<FileEntry>>): Node {
    var blocks := DecodedTypes(packageDict);
    var xmlns := ("@xmlns", Str("http://soap.sforce.com/2006/04/metadata"));
    var version := ("version", Str(DecimalString(apiVersion) + ".0"));
    var entries :=
      if |blocks| == 0 then [xmlns, version]
      else [xmlns, ("types", if |blocks| == 1 then blocks[0] else List(blocks)), version];
    Map([("Package", Map(entries))])
  }

  /** The type names of the package dictionary as they appear in the `<name>` elements. */
  function ShownNames(packageDict: Dict<Node, seq<FileEntry>>): (r: seq<Node>)
    ensures |r| == |packageDict| && forall i :: 0 <= i < |packageDict| ==> r[i] == Str(Show(packageDict[i].0))
  {
    seq(|packageDict|, i requires 0 <= i < |packageDict| => Str(Show(packageDict[i].0)))
  }

  /** A new key goes last. */
  lemma {:induction false} PutNew<K, V>(d: Dict<K, V>, k: K, v: V)
    requires !HasKey(d, k)
    ensures Put(d, k, v) == d + [(k, v)]
  {
    if |d| > 0 {
      assert Keys(d) == [d[0].0] + Keys(d[1..]);
      PutNew(d[1..], k, v);
      assert d == [d[0]] + d[1..];
    }
  }

  /** An entry that records `e` on its own records it after anything else as well. */
  lemma RecordTypeAfter(acc: Dict<Node, seq<Node>>, t: Node, e: (Node, seq<Node>))
    requires RecordType([], t) == Ok([e])
    ensures RecordType(acc, t) == Ok(Put(acc, e.0, e.1))
  {
  }

  /** The decoder's view of `expected[i..]` read by the loop of `build_package_types`, after the
      first `i` types are in place, gives all of `expected`. */
  lemma {:induction false} ReadBackFrom(ts: seq<Node>, expected: Dict<Node, seq<Node>>, i: nat)
    requires |ts| == |expected| && i <= |ts|
    requires NoDuplicates(Keys(expected))
    requires forall k :: 0 <= k < |ts| ==> RecordType([], ts[k]) == Ok([expected[k]])
    requires forall k :: 0 <= k < |ts| ==> ts[k].Map? && Index(ts[k], "name") == Ok(expected[k].0)
    ensures TypesFrom(ts[i..], expected[..i]) == Ok(expected)
    decreases |ts| - i
  {
    if i < |ts| {
      ReadBackStep(ts, expected, i);
      ReadBackFrom(ts, expected, i + 1);
    } else {
      assert expected[..i] == expected;
    }
  }

  /** Reading the type at position `i` adds the `i`-th expected entry. */
  lemma ReadBackStep(ts: seq<Node>, expected: Dict<Node, seq<Node>>, i: nat)
    requires |ts| == |expected| && i < |ts|
    requires NoDuplicates(Keys(expected))
    requires RecordType([], ts[i]) == Ok([expected[i]])
    ensures TypesFrom(ts[i..], expected[..i]) == TypesFrom(ts[i + 1..], expected[..i + 1])
  {
    var acc := expected[..i];
    PrefixLacksNext(expected, i);
    RecordTypeAfter(acc, ts[i], expected[i]);
    PutNew(acc, expected[i].0, expected[i].1);
    assert acc + [expected[i]] == expected[..i + 1];
    var rest := ts[i..];
    assert rest[0] == ts[i] && rest[1..] == ts[i + 1..];
    assert TypesFrom(rest, acc) == TypesFrom(rest[1..], Put(acc, expected[i].0, expected[i].1));
  }

  /** With unique keys, the key at position `i` is not among the first `i`. */
  lemma PrefixLacksNext<K, V>(d: Dict<K, V>, i: nat)
    requires NoDuplicates(Keys(d)) && i < |d|
    ensures !HasKey(d[..i], d[i].0)
  {
    KeysPrefix(d, i);
    KeysAt(d);
    NotBefore(Keys(d), i);
  }

  lemma {:induction false} KeysPrefix<K, V>(d: Dict<K, V>, i: nat)
    requires i <= |d|
    ensures Keys(d[..i]) == Keys(d)[..i]
  {
    if i > 0 {
      assert d[..i][1..] == d[1..][..i - 1];
      KeysPrefix(d[1..], i - 1);
    }
  }

  /** Reading a written manifest back with `build_package_types` gives each type, under its shown
      name and in dictionary order, the names of its files in file order, provided every type has
      at least one file, every name is plain and the shown type names differ. (The decoder gives
      an empty element back as `None` and strips surrounding whitespace.) A type with no
      file has no `<members>` element, and reading it back raises `KeyError('members')`. */
  lemma ManifestRoundTrip(apiVersion: nat, packageDict: Dict<Node, seq<FileEntry>>)
    requires |packageDict| > 0
    requires forall i :: 0 <= i < |packageDict| ==> |packageDict[i].1| > 0
    requires NoDuplicates(ShownNames(packageDict))
    requires PlainNames(packageDict)
    ensures PackageTypes(DecodedManifest(apiVersion, packageDict))
         == Ok(seq(|packageDict|, i requires 0 <= i < |packageDict| => (Str(Show(packageDict[i].0)), MemberNodes(packageDict[i].1))))
  {
    var expected := seq(|packageDict|, i requires 0 <= i < |packageDict| => (Str(Show(packageDict[i].0)), MemberNodes(packageDict[i].1)));
    var ts := DecodedTypes(packageDict);
    var doc := DecodedManifest(apiVersion, packageDict);
    assert Keys(expected) == ShownNames(packageDict) by {
      KeysAt(expected);
    }
    forall k | 0 <= k < |ts|
      ensures RecordType([], ts[k]) == Ok([expected[k]])
      ensures ts[k].Map? && Index(ts[k], "name") == Ok(expected[k].0)
    {
      DecodedPlainType(packageDict[k].0, packageDict[k].1);
    }
    var types := if |ts| == 1 then ts[0] else List(ts);
    var package := Map([("@xmlns", Str("http://soap.sforce.com/2006/04/metadata")), ("types", types),
                        ("version", Str(DecimalString(apiVersion) + ".0"))]);
    assert doc == Map([("Package", package)]);
    ManifestTypes(doc, package, types);
    assert |ts| == 1 ==> [ts[0]] == ts;
    ReadBackFrom(ts, expected, 0);
    assert ts[0..] == ts && expected[..0] == [];
  }

  /** One decoded `<types>` block of plain names reads back as its shown name and its file names. */
  lemma DecodedPlainType(metaType: Node, files: seq<FileEntry>)
    requires |files| > 0 && Plain(Show(metaType))
    requires forall j :: 0 <= j < |files| ==> Plain(files[j].name)
    ensures RecordType([], DecodedType(metaType, files)) == Ok([(Str(Show(metaType)), MemberNodes(files))])
    ensures DecodedType(metaType, files).Map? && Index(DecodedType(metaType, files), "name") == Ok(Str(Show(metaType)))
  {
    var members := if |files| == 1 then Str(files[0].name) else List(MemberNodes(files));
    if |files| == 1 {
      assert MemberNodes(files) == [Str(files[0].name)];
    } else {
      assert DecodedMembers(files) == MemberNodes(files);
    }
    assert DecodedType(metaType, files) == Map([("members", members), ("name", Str(Show(metaType)))]);
    assert MembersOf(members) == Some(MemberNodes(files));
    TwoKeys("members", members, "name", Str(Show(metaType)));
  }

  /** Lookups in a two-entry dictionary. */
  lemma TwoKeys(k0: string, v0: Node, k1: string, v1: Node)
    requires k0 != k1
    ensures Index(Map([(k0, v0), (k1, v1)]), k0) == Ok(v0)
    ensures Index(Map([(k0, v0), (k1, v1)]), k1) == Ok(v1)
  {
    var d := [(k0, v0), (k1, v1)];
    assert Keys(d) == [k0] + Keys(d[1..]) && Keys(d[1..]) == [k1] + Keys(d[2..]);
    assert d[1..][0] == (k1, v1);
    assert Get(d, k1) == Get(d[1..], k1) == v1;
  }

  /** `doc["Package"]["types"]` of a decoded manifest. */
  lemma ManifestTypes(doc: Node, package: Node, types: Node)
    requires package.Map? && |package.entries| == 3 && package.entries[1] == ("types", types)
    requires package.entries[0].0 == "@xmlns"
    requires doc == Map([("Package", package)])
    ensures Path(doc, ["Package", "types"]) == Ok(types)
  {
    var es := package.entries;
    assert Keys(es) == [es[0].0] + Keys(es[1..]);
    assert Keys(es[1..]) == [es[1].0] + Keys(es[2..]);
    assert es[1..][0] == es[1];
    assert Get(es, "types") == Get(es[1..], "types") == types;
    assert Index(package, "types") == Ok(types);
    assert Keys([("Package", package)]) == ["Package"] + Keys([("Package", package)][1..]);
    assert Index(doc, "Package") == Ok(package);
    assert ["Package", "types"][1..] == ["types"] && ["types"][1..] == [];
  }

  lemma {:induction false} KeysAt<K, V>(d: Dict<K, V>)
    ensures forall i :: 0 <= i < |d| ==> Keys(d)[i] == d[i].0
  {
    if |d| > 0 {
      KeysAt(d[1..]);
      assert Keys(d) == [d[0].0] + Keys(d[1..]);
    }
  }

  /** A type without files makes the written manifest unreadable for `build_package_types`. */
  lemma ManifestEmptyType(apiVersion: nat, metaType: Node)
    ensures PackageTypes(DecodedManifest(apiVersion, [(metaType, [])])) == Err(KeyError("members"))
  {
    var t := DecodedType(metaType, []);
    var doc := DecodedManifest(apiVersion, [(metaType, [])]);
    var package := Map([("@xmlns", Str("http://soap.sforce.com/2006/04/metadata")), ("types", t),
                        ("version", Str(DecimalString(apiVersion) + ".0"))]);
    assert doc == Map([("Package", package)]);
    ManifestTypes(doc, package, t);
    assert t == Map([("name", XmlText(Show(metaType)))]);
    assert Keys(t.entries) == ["name"] + Keys(t.entries[1..]);
    assert !HasKey(t.entries, "name") ==> false;
    assert RecordType([], t) == Err(KeyError("members"));
  }
}
