/**
 Which files a dependency fingerprint covers, in which order, and what it writes for each
 (internal/dependencies/fingerprint.go). Paths follow the slash-separated rules; the command arrives as
 its JSON text, and the file tree as an observation per path.
 */
module Fingerprint {
  import opened Common
  import opened Text
  import opened FingerprintStream
  import Sorting

  datatype Problem = NotRelative | OutsideRepository | Unreadable

  // ---------------------------------------------------------------------------------------------
  // Paths
  // ---------------------------------------------------------------------------------------------

  function Slashed(path: string): string {
    if path == "" then "" else [if path[0] == '\\' then '/' else path[0]] + Slashed(path[1..])
  }

  /** The components between slashes; there is always at least one, possibly empty. */
  function Split(path: string): (parts: seq<string>)
    ensures parts != []
  {
    if path == "" then [""]
    else
      var rest := Split(path[1..]);
      if path[0] == '/' then [""] + rest else [[path[0]] + rest[0]] + rest[1..]
  }

  function Join(parts: seq<string>): string {
    if parts == [] then "" else if |parts| == 1 then parts[0] else parts[0] + "/" + Join(parts[1..])
  }

  function NameOf(path: string): string { var parts := Split(path); parts[|parts| - 1] }

  predicate DependencyName(name: string) {
    name in ["package.json", "bun.lock", "bun.lockb", "bunfig.toml", "package-lock.json", "pnpm-lock.yaml",
             "pnpm-workspace.yaml", "yarn.lock", ".npmrc", ".yarnrc.yml", ".rukrc.json"]
  }

  /** Trimming slashes first would only drop empty components. */
  predicate InPatchDirectory(path: string) { "patches" in Split(path) }

  predicate Selects(path: string) { path != "" && (DependencyName(NameOf(path)) || InPatchDirectory(path)) }

  /** Lexical cleaning of a relative path: empty and dot components go, and each double dot takes back
      the component before it. */
  function Resolved(parts: seq<string>, kept: seq<string>): seq<string> {
    if parts == [] then kept
    else if parts[0] == "" || parts[0] == "." then Resolved(parts[1..], kept)
    else if parts[0] == ".." && kept != [] && kept[|kept| - 1] != ".." then Resolved(parts[1..], kept[..|kept| - 1])
    else Resolved(parts[1..], kept + [parts[0]])
  }

  function Clean(path: string): string {
    var kept := Resolved(Split(path), []);
    if kept == [] then "." else Join(kept)
  }

  function NormalizeSourcePath(value: string): Result<string, Problem> {
    var path := Slashed(value);
    if path == "" || path[0] == '/' || (|path| >= 2 && path[1] == ':') then Err(NotRelative)
    else
      var cleaned := Clean(path);
      if cleaned == "." || cleaned == ".." || (|cleaned| >= 3 && cleaned[..3] == "../") then Err(OutsideRepository)
      else Ok(cleaned)
  }

  lemma {:induction false} SlashingKeepsNulFree(path: string)
    requires NulFree(path)
    ensures NulFree(Slashed(path))
  {
    if path != "" { SlashingKeepsNulFree(path[1..]); }
  }

  lemma {:induction false} SplittingKeepsNulFree(path: string)
    requires NulFree(path)
    ensures forall part :: part in Split(path) ==> NulFree(part)
  {
    if path != "" {
      SplittingKeepsNulFree(path[1..]);
      var rest := Split(path[1..]);
      assert rest[0] in rest;
    }
  }

  lemma {:induction false} ResolvingKeepsParts(parts: seq<string>, kept: seq<string>)
    ensures forall part :: part in Resolved(parts, kept) ==> part in parts || part in kept
    decreases |parts|
  {
    if parts == [] {
    } else if parts[0] == "" || parts[0] == "." {
      ResolvingKeepsParts(parts[1..], kept);
    } else if parts[0] == ".." && kept != [] && kept[|kept| - 1] != ".." {
      ResolvingKeepsParts(parts[1..], kept[..|kept| - 1]);
    } else {
      ResolvingKeepsParts(parts[1..], kept + [parts[0]]);
    }
  }

  lemma {:induction false} JoiningKeepsNulFree(parts: seq<string>)
    requires forall part :: part in parts ==> NulFree(part)
    ensures NulFree(Join(parts))
  {
    if parts != [] {
      assert parts[0] in parts;
      if |parts| > 1 { JoiningKeepsNulFree(parts[1..]); }
    }
  }

  /** Normalising introduces no separator of the stream. */
  lemma NormalizingKeepsNulFree(value: string)
    requires NulFree(value) && NormalizeSourcePath(value).Ok?
    ensures NulFree(NormalizeSourcePath(value).value)
  {
    SlashingKeepsNulFree(value);
    SplittingKeepsNulFree(Slashed(value));
    ResolvingKeepsParts(Split(Slashed(value)), []);
    JoiningKeepsNulFree(Resolved(Split(Slashed(value)), []));
  }

  // ---------------------------------------------------------------------------------------------
  // The files covered
  // ---------------------------------------------------------------------------------------------

  function Itself(s: string): string { s }

  ghost predicate Ascending(xs: seq<string>) { forall i, j :: 0 <= i < j < |xs| ==> Below(xs[i], xs[j]) }

  lemma NothingIn(ys: seq<string>)
    ensures (forall y :: y !in ys) ==> ys == []
  {
    assert ys == [] || ys[0] in ys;
  }

  /** An ascending list is determined by its elements. */
  lemma {:induction false} ElementsDetermineOrder(xs: seq<string>, ys: seq<string>)
    requires Ascending(xs) && Ascending(ys) && forall x :: x in xs <==> x in ys
    ensures xs == ys
  {
    if xs == [] {
      NothingIn(ys);
    } else {
      assert xs[0] in ys;
      assert ys[0] in xs;
      FirstIsLeast(xs, ys[0]);
      FirstIsLeast(ys, xs[0]);
      if xs[0] != ys[0] {
        BelowTransitive(xs[0], ys[0], xs[0]);
        BelowIrreflexive(xs[0]);
      }
      BelowIrreflexive(xs[0]);
      forall x ensures x in xs[1..] <==> x in ys[1..] {
        assert x in xs[1..] <==> x in xs && x != xs[0];
        assert x in ys[1..] <==> x in ys && x != ys[0];
      }
      ElementsDetermineOrder(xs[1..], ys[1..]);
    }
  }

  lemma FirstIsLeast(xs: seq<string>, x: string)
    requires Ascending(xs) && x in xs
    ensures x == xs[0] || Below(xs[0], x)
  {
  }

  ghost predicate Listed(path: string, paths: seq<string>) { exists p :: p in paths && Slashed(p) == path }

  lemma ListedSoFar(paths: seq<string>, i: nat, f: string)
    requires i < |paths|
    ensures Listed(f, paths[..i + 1]) <==> Listed(f, paths[..i]) || Slashed(paths[i]) == f
  {
    assert paths[..i + 1] == paths[..i] + [paths[i]];
    if Slashed(paths[i]) == f { assert paths[i] in paths[..i + 1]; }
  }

  method SelectOnce(paths: seq<string>) returns (selected: seq<string>)
    ensures Sorting.DistinctKeys(selected, Itself)
    ensures forall f :: f in selected <==> Listed(f, paths) && Selects(f)
  {
    var seen: set<string> := {};
    selected := [];
    for i := 0 to |paths|
      invariant forall f :: f in selected <==> f in seen
      invariant forall f :: f in seen <==> Listed(f, paths[..i]) && Selects(f)
      invariant Sorting.DistinctKeys(selected, Itself)
    {
      var normalized := Slashed(paths[i]);
      forall f ensures Listed(f, paths[..i + 1]) <==> Listed(f, paths[..i]) || normalized == f { ListedSoFar(paths, i, f); }
      if Selects(normalized) && normalized !in seen {
        seen := seen + {normalized};
        selected := selected + [normalized];
      }
    }
    assert paths[..|paths|] == paths;
  }

  method DependencyFiles(paths: seq<string>) returns (selected: seq<string>)
    ensures Ascending(selected)
    ensures forall f :: f in selected <==> Listed(f, paths) && Selects(f)
  {
    var chosen := SelectOnce(paths);
    Sorting.SortIsStrict(chosen, Itself);
    Sorting.SortKeepsElements(chosen, Itself);
    selected := Sorting.Sort(chosen, Itself);
    forall i, j | 0 <= i < j < |selected| ensures Below(selected[i], selected[j]) {
      assert Below(Itself(selected[i]), Itself(selected[j]));
    }
  }

  /** The files of a listing: normalised, each once, in order. */
  ghost predicate SourceFiles(files: seq<string>, paths: seq<string>) {
    Ascending(files) && forall f :: f in files <==> exists p :: Listed(p, paths) && Selects(p) && NormalizeSourcePath(p) == Ok(f)
  }

  ghost predicate Strays(paths: seq<string>) { exists p :: Listed(p, paths) && Selects(p) && NormalizeSourcePath(p).Err? }

  /** Removes neighbours that became equal, in place. */
  method Dedupe(sorted: seq<string>) returns (files: seq<string>)
    requires Sorting.Ordered(sorted, Itself)
    ensures Ascending(files) && forall f :: f in files <==> f in sorted
  {
    files := sorted;
    var index := 1;
    while index < |files|
      invariant 1 <= index && (index <= |files| || files == sorted)
      invariant Sorting.Ordered(files, Itself)
      invariant forall i, j :: 0 <= i < j < index && j < |files| ==> files[i] != files[j]
      invariant forall f :: f in files <==> f in sorted
      decreases |files| - index
    {
      if files[index] == files[index - 1] {
        ghost var before := files;
        files := files[..index] + files[index + 1..];
        assert forall k :: 0 <= k < |files| ==> files[k] == if k < index then before[k] else before[k + 1];
        forall f ensures f in files <==> f in before {
          if f in before {
            var k :| 0 <= k < |before| && before[k] == f;
            assert files[if k < index then k else k - 1] == f;
          }
        }
      } else {
        forall i | 0 <= i < index ensures files[i] != files[index] {
          if i < index - 1 && files[i] == files[index] { SqueezedIsEqual(files[i], files[index - 1]); }
        }
        index := index + 1;
      }
    }
    forall i, j | 0 <= i < j < |files| ensures Below(files[i], files[j]) { BelowTotal(Itself(files[i]), Itself(files[j])); }
  }

  lemma SqueezedIsEqual(x: string, y: string)
    requires AtMost(x, y) && AtMost(y, x)
    ensures x == y
  {
    BelowTotal(x, y);
  }

  /** Overwrites each path with its normalised form, or stops at the first that has none. */
  method NormalizeEach(selected: seq<string>) returns (result: Result<seq<string>, Problem>)
    ensures result.Err? <==> exists p :: p in selected && NormalizeSourcePath(p).Err?
    ensures result.Ok? ==> forall f :: f in result.value <==> exists p :: p in selected && NormalizeSourcePath(p) == Ok(f)
  {
    var files := selected;
    for index := 0 to |selected|
      invariant |files| == |selected|
      invariant forall k :: index <= k < |selected| ==> files[k] == selected[k]
      invariant forall k :: 0 <= k < index ==> NormalizeSourcePath(selected[k]) == Ok(files[k])
    {
      assert selected[index] in selected;
      var normalized := NormalizeSourcePath(files[index]);
      if normalized.Err? { return Err(normalized.error); }
      files := files[index := normalized.value];
    }
    forall f ensures f in files <==> exists p :: p in selected && NormalizeSourcePath(p) == Ok(f) { NormalizedAt(selected, files, f); }
    result := Ok(files);
  }

  lemma NormalizedAt(selected: seq<string>, files: seq<string>, f: string)
    requires |files| == |selected| && forall k :: 0 <= k < |files| ==> NormalizeSourcePath(selected[k]) == Ok(files[k])
    ensures f in files <==> exists p :: p in selected && NormalizeSourcePath(p) == Ok(f)
  {
    if f in files {
      var k :| 0 <= k < |files| && files[k] == f;
      assert selected[k] in selected;
    }
    if exists p :: p in selected && NormalizeSourcePath(p) == Ok(f) {
      var p :| p in selected && NormalizeSourcePath(p) == Ok(f);
      var k :| 0 <= k < |selected| && selected[k] == p;
      assert files[k] == f;
    }
  }

  method CollectSourceFiles(paths: seq<string>) returns (result: Result<seq<string>, Problem>)
    ensures result.Err? <==> Strays(paths)
    ensures result.Ok? ==> SourceFiles(result.value, paths)
  {
    var selected := DependencyFiles(paths);
    var files := NormalizeEach(selected);
    if files.Err? { return files; }
    Sorting.SortIsOrdered(files.value, Itself);
    Sorting.SortKeepsElements(files.value, Itself);
    var deduped := Dedupe(Sorting.Sort(files.value, Itself));
    result := Ok(deduped);
  }

  /** The files, and so the stream, depend on neither the order of the listing nor its repetitions. */
  lemma ListingOrderDoesNotMatter(paths: seq<string>, other: seq<string>, files: seq<string>, otherFiles: seq<string>)
    requires forall p :: Listed(p, paths) <==> Listed(p, other)
    requires SourceFiles(files, paths) && SourceFiles(otherFiles, other)
    ensures files == otherFiles
  {
    ElementsDetermineOrder(files, otherFiles);
  }

  // ---------------------------------------------------------------------------------------------
  // The stream
  // ---------------------------------------------------------------------------------------------

  datatype Observation = Absent | Readable(content: string) | Broken

  type Tree = string -> Observation

  /** Each carriage return followed by a line feed becomes the line feed. */
  function NormalizeNewlines(content: string): string {
    if content == "" then ""
    else if |content| >= 2 && content[0] == '\r' && content[1] == '\n' then ['\n'] + NormalizeNewlines(content[2..])
    else [content[0]] + NormalizeNewlines(content[1..])
  }

  /** What is hashed of a file: text with its line ends normalised, a binary lockfile as it is. */
  function ReadAs(path: string, tree: Tree): FileInput {
    match tree(path)
    case Readable(content) => Present(path, if NameOf(path) == "bun.lockb" then content else NormalizeNewlines(content))
    case _ => Missing(path)
  }

  function ReadAll(files: seq<string>, tree: Tree): (inputs: seq<FileInput>)
    ensures |inputs| == |files| && forall k :: 0 <= k < |files| ==> inputs[k] == ReadAs(files[k], tree)
  {
    if files == [] then [] else [ReadAs(files[0], tree)] + ReadAll(files[1..], tree)
  }

  datatype Identity = Identity(platform: string, architecture: string, runtime: string, version: string, abi: string,
                               manager: string, managerVersion: string, mode: string, command: string)

  datatype Host = Host(platform: string, architecture: string)

  const FINGERPRINT_VERSION := "ruk-fingerprint-v3"

  function HeaderOf(identity: Identity, host: Host): (header: seq<string>)
    ensures |header| == HEADER_FIELDS
  {
    [FINGERPRINT_VERSION,
     if identity.platform == "" then host.platform else identity.platform,
     if identity.architecture == "" then host.architecture else identity.architecture,
     identity.runtime, identity.version, identity.abi,
     identity.manager, identity.managerVersion, if identity.mode == "" then "managed" else identity.mode, identity.command]
  }

  method WriteFields(stream: string, fields: seq<string>) returns (longer: string)
    ensures longer == stream + Fields(fields)
  {
    longer := stream;
    for i := 0 to |fields|
      invariant longer + Fields(fields[i..]) == stream + Fields(fields)
    {
      ghost var before := longer;
      longer := longer + fields[i];
      longer := longer + [NUL];
      assert fields[i..] == [fields[i]] + fields[i + 1..];
      assert before + (Field(fields[i]) + Fields(fields[i + 1..])) == longer + Fields(fields[i + 1..]);
    }
  }

  lemma FilesBytesAppend(files: seq<FileInput>, file: FileInput)
    ensures FilesBytes(files + [file]) == FilesBytes(files) + FileBytes(file)
  {
    if files == [] {
      assert FilesBytes([]) + FileBytes(file) == FileBytes(file) + FilesBytes([]);
      assert ([] + [file])[1..] == [];
    } else {
      FilesBytesAppend(files[1..], file);
      assert (files + [file])[1..] == files[1..] + [file];
      assert FileBytes(files[0]) + (FilesBytes(files[1..]) + FileBytes(file)) == (FileBytes(files[0]) + FilesBytes(files[1..])) + FileBytes(file);
    }
  }

  lemma Regroup(a: string, b: string, c: string)
    ensures (a + b) + c == a + (b + c)
  {
  }

  lemma FieldsOfOne(field: string)
    ensures Fields([field]) == Field(field)
  {
  }

  lemma MissingBytes(stream: string, path: string)
    ensures (stream + Field(path)) + Field("missing") == stream + FileBytes(Missing(path))
  {
    Regroup(stream, Field(path), Field("missing"));
  }

  lemma PresentBytes(stream: string, path: string, content: string)
    ensures (((stream + Field(path)) + Field(Decimal(|content|))) + content) + [NUL] == stream + FileBytes(Present(path, content))
  {
    var size := Field(Decimal(|content|));
    Regroup(stream, Field(path), size);
    Regroup(stream, Field(path) + size, content);
    Regroup(stream, Field(path) + size + content, [NUL]);
  }

  method WriteFile(stream: string, path: string, tree: Tree) returns (longer: string, ok: bool)
    ensures ok <==> !tree(path).Broken?
    ensures ok ==> longer == stream + FileBytes(ReadAs(path, tree))
  {
    longer := WriteFields(stream, [path]);
    var seen := tree(path);
    if seen.Absent? {
      longer := WriteFields(longer, ["missing"]);
      FieldsOfOne(path);
      FieldsOfOne("missing");
      MissingBytes(stream, path);
      return longer, true;
    }
    if seen.Broken? { return longer, false; }
    var content := if NameOf(path) == "bun.lockb" then seen.content else NormalizeNewlines(seen.content);
    longer := WriteFields(longer, [Decimal(|content|)]);
    longer := longer + content;
    longer := longer + [NUL];
    FieldsOfOne(path);
    FieldsOfOne(Decimal(|content|));
    PresentBytes(stream, path, content);
    ok := true;
  }

  lemma ReadAllAppends(files: seq<string>, i: nat, tree: Tree)
    requires i < |files|
    ensures ReadAll(files[..i + 1], tree) == ReadAll(files[..i], tree) + [ReadAs(files[i], tree)]
  {
  }

  method WriteFiles(header: string, files: seq<string>, tree: Tree) returns (stream: string, ok: bool)
    ensures ok <==> forall f :: f in files ==> !tree(f).Broken?
    ensures ok ==> stream == header + FilesBytes(ReadAll(files, tree))
  {
    stream := header;
    for i := 0 to |files|
      invariant stream == header + FilesBytes(ReadAll(files[..i], tree))
      invariant forall k :: 0 <= k < i ==> !tree(files[k]).Broken?
    {
      stream, ok := WriteFile(stream, files[i], tree);
      if !ok {
        assert files[i] in files;
        return;
      }
      ReadAllAppends(files, i, tree);
      FilesBytesAppend(ReadAll(files[..i], tree), ReadAs(files[i], tree));
      Regroup(header, FilesBytes(ReadAll(files[..i], tree)), FileBytes(ReadAs(files[i], tree)));
    }
    assert files[..|files|] == files;
    ok := true;
  }

  /** A file the listing covers is there but cannot be read. */
  ghost predicate Unreads(paths: seq<string>, tree: Tree) {
    exists p :: Listed(p, paths) && Selects(p) && NormalizeSourcePath(p).Ok? && tree(NormalizeSourcePath(p).value).Broken?
  }

  lemma BrokenIsUnread(paths: seq<string>, files: seq<string>, tree: Tree)
    requires SourceFiles(files, paths)
    ensures Unreads(paths, tree) <==> exists f :: f in files && tree(f).Broken?
  {
    forall f | f in files && tree(f).Broken? ensures Unreads(paths, tree) {
      var p :| Listed(p, paths) && Selects(p) && NormalizeSourcePath(p) == Ok(f);
    }
    forall p | Listed(p, paths) && Selects(p) && NormalizeSourcePath(p).Ok? && tree(NormalizeSourcePath(p).value).Broken?
      ensures exists f :: f in files && tree(f).Broken?
    {
      assert NormalizeSourcePath(p) == Ok(NormalizeSourcePath(p).value);
      assert NormalizeSourcePath(p).value in files;
    }
  }

  /** The bytes a listing comes to, whichever way its files were gathered. */
  ghost predicate StreamOf(stream: string, paths: seq<string>, header: seq<string>, tree: Tree) {
    && (exists files :: SourceFiles(files, paths))
    && (forall files :: SourceFiles(files, paths) ==> stream == Stream(Input(header, ReadAll(files, tree))))
  }

  /** The bytes hashed for one listing, runtime and package manager: refused exactly when a covered file
      strays or cannot be read. */
  method DependencyStream(paths: seq<string>, identity: Identity, host: Host, tree: Tree) returns (result: Result<string, Problem>)
    ensures result.Err? <==> Strays(paths) || Unreads(paths, tree)
    ensures result.Ok? ==> StreamOf(result.value, paths, HeaderOf(identity, host), tree)
  {
    var collected := CollectSourceFiles(paths);
    if collected.Err? { return Err(collected.error); }
    var files := collected.value;
    BrokenIsUnread(paths, files, tree);
    var header := HeaderOf(identity, host);
    var stream := WriteFields("", header);
    var ok;
    stream, ok := WriteFiles(stream, files, tree);
    if !ok { return Err(Unreadable); }
    assert "" + Fields(header) == Fields(header);
    forall others | SourceFiles(others, paths) ensures others == files { ElementsDetermineOrder(others, files); }
    result := Ok(stream);
  }

  /** Two listings that hash the same bytes agree on the header and on what was seen of every covered
      file. */
  lemma SameBytesSameInputs(stream: string, paths: seq<string>, header: seq<string>, tree: Tree, others: seq<string>, otherHeader: seq<string>, otherTree: Tree,
                            files: seq<string>, otherFiles: seq<string>)
    requires StreamOf(stream, paths, header, tree) && StreamOf(stream, others, otherHeader, otherTree)
    requires |header| == |otherHeader| == HEADER_FIELDS && (forall f :: f in header + otherHeader ==> NulFree(f)) && forall p :: p in paths + others ==> NulFree(p)
    requires SourceFiles(files, paths) && SourceFiles(otherFiles, others)
    ensures header == otherHeader && ReadAll(files, tree) == ReadAll(otherFiles, otherTree)
  {
    forall f | f in header ensures NulFree(f) { assert f in header + otherHeader; }
    forall f | f in otherHeader ensures NulFree(f) { assert f in header + otherHeader; }
    forall p | p in paths ensures NulFree(p) { assert p in paths + others; }
    forall p | p in others ensures NulFree(p) { assert p in paths + others; }
    CollectedDecodes(paths, files, header, tree);
    CollectedDecodes(others, otherFiles, otherHeader, otherTree);
  }

  lemma CollectedDecodes(paths: seq<string>, files: seq<string>, header: seq<string>, tree: Tree)
    requires SourceFiles(files, paths) && |header| == HEADER_FIELDS
    requires (forall f :: f in header ==> NulFree(f)) && forall p :: p in paths ==> NulFree(p)
    ensures Decode(Stream(Input(header, ReadAll(files, tree)))) == Some(Input(header, ReadAll(files, tree)))
  {
    forall f | f in files ensures NulFree(f) {
      var p :| Listed(p, paths) && Selects(p) && NormalizeSourcePath(p) == Ok(f);
      var q :| q in paths && Slashed(q) == p;
      SlashingKeepsNulFree(q);
      NormalizingKeepsNulFree(p);
    }
    var inputs := ReadAll(files, tree);
    forall input | input in inputs ensures NulFree(input.path) {
      var k :| 0 <= k < |inputs| && inputs[k] == input;
      assert files[k] in files;
    }
    StreamDecodes(Input(header, inputs));
  }
}
