/**
 What a dependency fingerprint stands for (internal/dependencies/fingerprint.go): which files it covers
 wherever they lie, that normalising a path neither leaves the repository nor changes where it leads, that
 line ends do not matter and nothing else of a file is touched, and that equal bytes mean an equal runtime
 and package manager.
 */
module FingerprintInputs {
  import opened Common
  import opened FingerprintStream
  import opened Fingerprint

  /** Backslashes separate like slashes; everything else of a path stays. */
  lemma {:induction false} BackslashesAreSlashes(path: string)
    ensures |Slashed(path)| == |path|
    ensures forall i :: 0 <= i < |path| ==> Slashed(path)[i] == if path[i] == '\\' then '/' else path[i]
  {
    if path != "" { BackslashesAreSlashes(path[1..]); }
  }

  // ---------------------------------------------------------------------------------------------
  // Components
  // ---------------------------------------------------------------------------------------------

  lemma {:induction false} SplitsAtSlash(before: string, after: string)
    ensures Split(before + "/" + after) == Split(before) + Split(after)
  {
    if before == "" {
      assert ("" + "/" + after)[1..] == after;
    } else {
      assert (before + "/" + after)[1..] == before[1..] + "/" + after;
      SplitsAtSlash(before[1..], after);
    }
  }

  predicate SlashFree(part: string) { '/' !in part }

  lemma {:induction false} PartsAreSlashFree(path: string)
    ensures forall part :: part in Split(path) ==> SlashFree(part)
  {
    if path != "" {
      PartsAreSlashFree(path[1..]);
      var rest := Split(path[1..]);
      assert rest[0] in rest;
    }
  }

  lemma {:induction false} PartIsItself(part: string)
    requires SlashFree(part)
    ensures Split(part) == [part]
  {
    if part != "" {
      PartIsItself(part[1..]);
      assert part == [part[0]] + part[1..];
    }
  }

  lemma {:induction false} JoinedSplits(parts: seq<string>)
    requires parts != [] && forall part :: part in parts ==> SlashFree(part)
    ensures Split(Join(parts)) == parts
  {
    assert parts[0] in parts;
    PartIsItself(parts[0]);
    if |parts| > 1 {
      JoinedSplits(parts[1..]);
      SplitsAtSlash(parts[0], Join(parts[1..]));
      assert parts == [parts[0]] + parts[1..];
    }
  }

  // ---------------------------------------------------------------------------------------------
  // Which files
  // ---------------------------------------------------------------------------------------------

  lemma LastComponent(directory: string, name: string)
    requires SlashFree(name)
    ensures NameOf(name) == name && NameOf(directory + "/" + name) == name
  {
    PartIsItself(name);
    SplitsAtSlash(directory, name);
  }

  lemma NamesAreSlashFree(name: string)
    requires DependencyName(name)
    ensures SlashFree(name)
  {
    assert SlashFree("package.json") && SlashFree("bun.lock") && SlashFree("bun.lockb") && SlashFree("bunfig.toml");
    assert SlashFree("package-lock.json") && SlashFree("pnpm-lock.yaml") && SlashFree("pnpm-workspace.yaml");
    assert SlashFree("yarn.lock") && SlashFree(".npmrc") && SlashFree(".yarnrc.yml") && SlashFree(".rukrc.json");
  }

  lemma PatchesAreCovered(directory: string, rest: string)
    ensures Selects("patches/" + rest) && Selects(directory + "/" + ("patches/" + rest))
  {
    PartIsItself("patches");
    SplitsAtSlash("patches", rest);
    assert "patches" + "/" + rest == "patches/" + rest;
    assert Split("patches/" + rest)[0] == "patches";
    SplitsAtSlash(directory, "patches/" + rest);
  }

  /** Manifests, lockfiles and their configuration count in every directory, and so does every file below
      a directory of patches. */
  lemma DependencyInputsAreCovered(directory: string, name: string, rest: string)
    requires name in {"package.json", "bun.lock", "bun.lockb", "bunfig.toml", "package-lock.json", "pnpm-lock.yaml",
                      "pnpm-workspace.yaml", "yarn.lock", ".npmrc", ".yarnrc.yml", ".rukrc.json"}
    ensures Selects(name) && Selects(directory + "/" + name)
    ensures Selects("patches/" + rest) && Selects(directory + "/" + ("patches/" + rest))
  {
    assert DependencyName(name);
    NamesAreSlashFree(name);
    LastComponent(directory, name);
    PatchesAreCovered(directory, rest);
  }

  // ---------------------------------------------------------------------------------------------
  // Where a path leads
  // ---------------------------------------------------------------------------------------------

  /** Where the components lead from a directory below the repository's root; nowhere once they climb
      above the root. */
  function Walk(parts: seq<string>, at: seq<string>): Option<seq<string>> {
    if parts == [] then Some(at)
    else if parts[0] == "" || parts[0] == "." then Walk(parts[1..], at)
    else if parts[0] != ".." then Walk(parts[1..], at + [parts[0]])
    else if at == [] then None
    else Walk(parts[1..], at[..|at| - 1])
  }

  predicate Plain(part: string) { part != "" && part != "." && part != ".." && SlashFree(part) }

  ghost predicate AllPlain(parts: seq<string>) { forall part :: part in parts ==> Plain(part) }

  /** What once climbs out stays out. */
  lemma {:induction false} OutsideStaysOutside(parts: seq<string>, kept: seq<string>)
    requires kept != [] && kept[0] == ".."
    ensures Resolved(parts, kept) != [] && Resolved(parts, kept)[0] == ".."
    decreases |parts|
  {
    if parts == [] {
    } else if parts[0] == "" || parts[0] == "." {
      OutsideStaysOutside(parts[1..], kept);
    } else if parts[0] == ".." && kept[|kept| - 1] != ".." {
      OutsideStaysOutside(parts[1..], kept[..|kept| - 1]);
    } else {
      OutsideStaysOutside(parts[1..], kept + [parts[0]]);
    }
  }

  lemma {:induction false} ResolvesAsWalked(parts: seq<string>, at: seq<string>)
    requires AllPlain(at) && forall part :: part in parts ==> SlashFree(part)
    ensures var walked := Walk(parts, at);
            if walked.Some? then Resolved(parts, at) == walked.value && AllPlain(walked.value)
            else Resolved(parts, at) != [] && Resolved(parts, at)[0] == ".."
    decreases |parts|
  {
    if parts != [] {
      assert parts[0] in parts;
      if parts[0] == "" || parts[0] == "." {
        ResolvesAsWalked(parts[1..], at);
      } else if parts[0] != ".." {
        ResolvesAsWalked(parts[1..], at + [parts[0]]);
      } else if at == [] {
        OutsideStaysOutside(parts[1..], at + [parts[0]]);
      } else {
        assert at[|at| - 1] in at;
        ResolvesAsWalked(parts[1..], at[..|at| - 1]);
      }
    }
  }

  /** A joined path shows by its first three bytes whether it begins with a double dot. */
  lemma JoinedOutside(parts: seq<string>)
    requires parts != [] && forall part :: part in parts ==> SlashFree(part)
    ensures var path := Join(parts); (path == ".." || (|path| >= 3 && path[..3] == "../")) <==> parts[0] == ".."
  {
    assert parts[0] in parts;
    var path := Join(parts);
    assert |path| >= 3 ==> path[..3][2] == path[2] && ("../"[2] == '/');
    if |parts| > 1 {
      assert path == parts[0] + "/" + Join(parts[1..]);
      assert path[|parts[0]|] == '/';
      if |path| >= 3 && path[..3] == "../" {
        assert path[0] == path[..3][0] == '.' && path[1] == path[..3][1] == '.' && path[2] == path[..3][2] == '/';
        FirstSlash(parts[0], path, 2);
      }
      if path == ".." { assert false; }
      if parts[0] == ".." { assert path[..3] == "../"; }
    } else if |path| >= 3 && path[..3] == "../" {
      assert false;
    }
  }

  lemma FirstSlash(part: string, path: string, n: nat)
    requires SlashFree(part) && n < |path| && path[n] == '/' && (forall k :: 0 <= k < n ==> path[k] != '/')
    requires |part| < |path| && path[..|part|] == part && path[|part|] == '/'
    ensures |part| == n && part == path[..n]
  {
    if n < |part| { assert false; }
  }

  lemma WalkedIsSlashFree(parts: seq<string>)
    requires forall part :: part in parts ==> SlashFree(part)
    ensures forall part :: part in Resolved(parts, []) ==> SlashFree(part)
  {
    ResolvingKeepsParts(parts, []);
  }

  predicate Relative(path: string) { path != "" && path[0] != '/' && !(|path| >= 2 && path[1] == ':') }

  lemma CleanedDot(parts: seq<string>)
    requires AllPlain(parts) && parts != []
    ensures Join(parts) != "."
  {
    JoinedSplits(parts);
    PartIsItself(".");
    assert parts[0] in parts;
  }

  lemma {:induction false} PlainWalks(parts: seq<string>, at: seq<string>)
    requires AllPlain(parts)
    ensures Walk(parts, at) == Some(at + parts)
    decreases |parts|
  {
    if parts == [] {
      assert at + parts == at;
    } else {
      assert parts[0] in parts;
      PlainWalks(parts[1..], at + [parts[0]]);
      assert (at + [parts[0]]) + parts[1..] == at + parts;
    }
  }

  /** A listed path is accepted exactly when it is relative and walking it from the repository's root never
      climbs above the root and ends below it; its normal form is the plain path to the same place. */
  lemma NormalFormLeadsToTheSamePlace(value: string)
    ensures var path := Slashed(value);
            var walked := Walk(Split(path), []);
            && (NormalizeSourcePath(value).Ok? <==> Relative(path) && walked.Some? && walked.value != [])
            && (NormalizeSourcePath(value).Ok? ==> Split(NormalizeSourcePath(value).value) == walked.value && AllPlain(walked.value))
            && (NormalizeSourcePath(value).Ok? ==> Walk(Split(NormalizeSourcePath(value).value), []) == walked)
  {
    var path := Slashed(value);
    var parts := Split(path);
    PartsAreSlashFree(path);
    ResolvesAsWalked(parts, []);
    WalkedIsSlashFree(parts);
    var kept := Resolved(parts, []);
    if kept != [] {
      JoinedOutside(kept);
      JoinedSplits(kept);
      if Walk(parts, []).Some? {
        CleanedDot(kept);
        PlainWalks(kept, []);
        assert [] + kept == kept && kept[0] in kept;
      }
    }
  }

  // ---------------------------------------------------------------------------------------------
  // Line ends
  // ---------------------------------------------------------------------------------------------

  predicate Pair(content: string, i: nat)
    requires i + 1 < |content|
  {
    content[i] == '\r' && content[i + 1] == '\n'
  }

  /** Content without a carriage return before a line feed is hashed as it is. */
  lemma {:induction false} PairlessStays(content: string)
    requires forall i: nat :: i + 1 < |content| ==> !Pair(content, i)
    ensures NormalizeNewlines(content) == content
  {
    if content != "" {
      assert |content| >= 2 ==> !Pair(content, 0);
      forall i: nat | i + 1 < |content[1..]| ensures !Pair(content[1..], i) { assert !Pair(content, i + 1); }
      PairlessStays(content[1..]);
      assert content == [content[0]] + content[1..];
    }
  }

  /** Each pair becomes one line feed, whatever stands around it. */
  lemma {:induction false} PairBecomesLineFeed(before: string, after: string)
    ensures NormalizeNewlines(before + "\r\n" + after) == NormalizeNewlines(before) + "\n" + NormalizeNewlines(after)
    decreases |before|
  {
    var whole := before + "\r\n" + after;
    if before == "" {
      assert whole[2..] == after;
    } else if |before| >= 2 && before[0] == '\r' && before[1] == '\n' {
      assert whole[2..] == before[2..] + "\r\n" + after;
      PairBecomesLineFeed(before[2..], after);
      assert ['\n'] + (NormalizeNewlines(before[2..]) + "\n" + NormalizeNewlines(after)) == (['\n'] + NormalizeNewlines(before[2..])) + "\n" + NormalizeNewlines(after);
    } else {
      assert whole[0] == before[0] && whole[1..] == before[1..] + "\r\n" + after;
      assert !(whole[0] == '\r' && whole[1] == '\n');
      PairBecomesLineFeed(before[1..], after);
      assert [before[0]] + (NormalizeNewlines(before[1..]) + "\n" + NormalizeNewlines(after)) == ([before[0]] + NormalizeNewlines(before[1..])) + "\n" + NormalizeNewlines(after);
    }
  }

  /** A text checked out with carriage returns before its line feeds. */
  function WithCarriageReturns(text: string): string {
    if text == "" then "" else (if text[0] == '\n' then "\r\n" else [text[0]]) + WithCarriageReturns(text[1..])
  }

  /** Either checkout of a text hashes the same bytes. */
  lemma {:induction false} CheckoutsAgree(text: string)
    requires '\r' !in text
    ensures NormalizeNewlines(WithCarriageReturns(text)) == text == NormalizeNewlines(text)
  {
    PairlessStays(text);
    if text != "" {
      CheckoutsAgree(text[1..]);
      var rest := WithCarriageReturns(text[1..]);
      assert text == [text[0]] + text[1..];
      if text[0] == '\n' {
        PairBecomesLineFeed("", rest);
        assert "" + "\r\n" + rest == "\r\n" + rest;
      } else {
        assert ([text[0]] + rest)[1..] == rest;
      }
    }
  }

  // ---------------------------------------------------------------------------------------------
  // Runtime and package manager
  // ---------------------------------------------------------------------------------------------

  /** What is left out is filled in. */
  function Or(given: string, otherwise: string): string { if given == "" then otherwise else given }

  lemma SameHeaderSameIdentity(x: Identity, g: Host, y: Identity, h: Host)
    requires HeaderOf(x, g) == HeaderOf(y, h)
    ensures Or(x.platform, g.platform) == Or(y.platform, h.platform)
    ensures Or(x.architecture, g.architecture) == Or(y.architecture, h.architecture)
    ensures x.runtime == y.runtime && x.version == y.version && x.abi == y.abi
    ensures x.manager == y.manager && x.managerVersion == y.managerVersion && x.command == y.command
    ensures Or(x.mode, "managed") == Or(y.mode, "managed")
  {
    var a, b := HeaderOf(x, g), HeaderOf(y, h);
    assert a[1] == b[1] && a[2] == b[2] && a[3] == b[3] && a[4] == b[4] && a[5] == b[5];
    assert a[6] == b[6] && a[7] == b[7] && a[8] == b[8] && a[9] == b[9];
  }

  /** Fields that can be told apart in the stream. */
  predicate Clear(x: Identity, g: Host) {
    && NulFree(x.platform) && NulFree(x.architecture) && NulFree(x.runtime) && NulFree(x.version) && NulFree(x.abi)
    && NulFree(x.manager) && NulFree(x.managerVersion) && NulFree(x.mode) && NulFree(x.command)
    && NulFree(g.platform) && NulFree(g.architecture)
  }

  lemma ClearHeader(x: Identity, g: Host)
    requires Clear(x, g)
    ensures forall f :: f in HeaderOf(x, g) ==> NulFree(f)
  {
    assert NulFree(FINGERPRINT_VERSION) && NulFree("managed");
  }

  /** The same bytes mean the same platform, runtime, package manager and mode: a tree prepared by one is
      never taken for a tree prepared by another. */
  lemma SameBytesSameIdentity(stream: string, paths: seq<string>, x: Identity, g: Host, tree: Tree,
                              others: seq<string>, y: Identity, h: Host, otherTree: Tree)
    requires StreamOf(stream, paths, HeaderOf(x, g), tree) && StreamOf(stream, others, HeaderOf(y, h), otherTree)
    requires Clear(x, g) && Clear(y, h) && forall p :: p in paths + others ==> NulFree(p)
    ensures Or(x.platform, g.platform) == Or(y.platform, h.platform)
    ensures Or(x.architecture, g.architecture) == Or(y.architecture, h.architecture)
    ensures x.runtime == y.runtime && x.version == y.version && x.abi == y.abi
    ensures x.manager == y.manager && x.managerVersion == y.managerVersion && x.command == y.command
    ensures Or(x.mode, "managed") == Or(y.mode, "managed")
  {
    ClearHeader(x, g);
    ClearHeader(y, h);
    var files :| SourceFiles(files, paths);
    var otherFiles :| SourceFiles(otherFiles, others);
    SameBytesSameInputs(stream, paths, HeaderOf(x, g), tree, others, HeaderOf(y, h), otherTree, files, otherFiles);
    SameHeaderSameIdentity(x, g, y, h);
  }
}
