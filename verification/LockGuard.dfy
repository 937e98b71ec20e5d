/**
 Publishing, retiring and releasing one directory lock, as the calling process runs them
 (internal/lock/lock.go). DirectoryLock interleaves the same steps; here `meanwhile` is what other
 processes do to the directories between the rename and the second look at it.
 */
module LockGuard {
  import opened Common
  import opened DirectoryLock

  type Directories = map<Name, Directory>

  predicate Carried(dirs: Directories, n: Name, t: Token) { n in dirs && dirs[n].Owned? && dirs[n].owner.token == t }

  class Parent {
    var dirs: Directories

    constructor (dirs: Directories)
      ensures this.dirs == dirs
    {
      this.dirs := dirs;
    }

    /** Makes a directory with its owner inside under a private name, then moves it into place whole. */
    method Publish(owner: Owner, writes: bool) returns (won: bool)
      modifies this
      ensures won <==> writes && CanReplace(old(dirs), Canonical)
      ensures var others := old(dirs) - {Pending(owner.token)};
              dirs == if won then others[Canonical := Owned(owner)] else others
    {
      var staging := Pending(owner.token);
      dirs := dirs - {staging};
      ghost var before := dirs;
      dirs := dirs[staging := Empty];
      if !writes {
        dirs := dirs - {staging};
        assert dirs == before;
        return false;
      }
      dirs := dirs[staging := Owned(owner)];
      if CanReplace(dirs, Canonical) {
        dirs := Renamed(dirs, staging, Canonical);
        assert dirs == before[Canonical := Owned(owner)];
        return true;
      }
      dirs := dirs - {staging};
      assert dirs == before;
      won := false;
    }

    /** Moves away whatever is canonical now, on an old sighting of a dead owner. The name it moves to
        is that owner's, so a second retirement of the same owner always fails. */
    method RetireAbandoned(seen: Owner) returns (retired: bool)
      modifies this
      ensures retired <==> Canonical in old(dirs) && CanReplace(old(dirs), Abandoned(seen.token))
      ensures dirs == if retired then Renamed(old(dirs), Canonical, Abandoned(seen.token)) else old(dirs)
      ensures retired && old(dirs)[Canonical].Owned? ==> !CanReplace(dirs, Abandoned(seen.token))
    {
      retired := Canonical in dirs && CanReplace(dirs, Abandoned(seen.token));
      if retired { dirs := Renamed(dirs, Canonical, Abandoned(seen.token)); }
    }
  }

  /** No directory of another owner is lost: it keeps its name, or is put back in place. */
  ghost predicate OthersKept(before: Directories, after: Directories, t: Token) {
    forall n :: n in before && before[n].Owned? && before[n].owner.token != t ==>
      (n in after && after[n] == before[n]) || (n == Released(t) && Canonical in after && after[Canonical] == before[n])
  }

  class Guard {
    const token: Token
    var releasedPath: Option<Name>

    constructor (token: Token)
      ensures this.token == token && releasedPath == None
    {
      this.token, releasedPath := token, None;
    }

    /** Retries the cleanup of a tombstone left by an earlier call, never of someone else's. */
    method CleanupReleased(parent: Parent, removes: bool) returns (ok: bool)
      requires releasedPath.Some?
      modifies this`releasedPath, parent
      ensures ok ==> releasedPath == None && !Carried(parent.dirs, old(releasedPath.value), token)
      ensures parent.dirs == old(parent.dirs) || (Carried(old(parent.dirs), old(releasedPath.value), token) && parent.dirs == old(parent.dirs) - {old(releasedPath.value)})
      ensures releasedPath.Some? ==> releasedPath == old(releasedPath) && Carried(parent.dirs, releasedPath.value, token)
    {
      var path := releasedPath.value;
      if path !in parent.dirs {
        releasedPath := None;
        return true;
      }
      if !Carried(parent.dirs, path, token) {
        releasedPath := None;
        return false;
      }
      if !removes { return false; }
      parent.dirs := parent.dirs - {path};
      releasedPath := None;
      ok := true;
    }

    /** Frees the canonical path when it still carries this guard's token, and touches nothing else.
        Whatever happens between the rename and the second look, no other owner's directory is lost,
        and no tombstone is left for a retry: the guard never holds one afterwards. */
    method Release(parent: Parent, renames: bool, meanwhile: Directories -> Directories, restores: bool, removes: bool) returns (ok: bool)
      requires releasedPath == None
      modifies this`releasedPath, parent
      ensures releasedPath == None
      ensures !Carried(old(parent.dirs), Canonical, token) ==> ok && parent.dirs == old(parent.dirs)
      ensures Carried(old(parent.dirs), Canonical, token) && (!renames || !CanReplace(old(parent.dirs), Released(token))) ==>
                !ok && parent.dirs == old(parent.dirs)
      ensures Carried(old(parent.dirs), Canonical, token) && renames && CanReplace(old(parent.dirs), Released(token)) ==>
                var seen := meanwhile(Renamed(old(parent.dirs), Canonical, Released(token)));
                && (ok <==> Released(token) !in seen || Carried(seen, Released(token), token))
                && OthersKept(seen, parent.dirs, token)
                && (ok ==> parent.dirs == seen || parent.dirs == seen - {Released(token)})
    {
      if !Carried(parent.dirs, Canonical, token) { return true; }
      var tombstone := Released(token);
      if !renames || !CanReplace(parent.dirs, tombstone) { return false; }
      parent.dirs := Renamed(parent.dirs, Canonical, tombstone);
      releasedPath := Some(tombstone);
      parent.dirs := meanwhile(parent.dirs);
      if tombstone !in parent.dirs {
        releasedPath := None;
        return true;
      }
      if !Carried(parent.dirs, tombstone, token) {
        if Canonical !in parent.dirs && restores { parent.dirs := Renamed(parent.dirs, tombstone, Canonical); }
        releasedPath := None;
        return false;
      }
      if removes { parent.dirs := parent.dirs - {tombstone}; }
      releasedPath := None;
      ok := true;
    }
  }

  /** Undisturbed, releasing and removing the tombstone leaves the directories as they were without the
      lock, so the next contender can publish. */
  lemma UndisturbedReleaseFrees(dirs: Directories, t: Token)
    requires Carried(dirs, Canonical, t) && Released(t) !in dirs
    ensures var after := Renamed(dirs, Canonical, Released(t)) - {Released(t)};
            after == dirs - {Canonical} && CanReplace(after, Canonical)
  {
  }

  /** The guard's calls, with nothing in between, are the moves of the step machine. */
  lemma ReleaseIsTheMachinesMoves(s: State, c: nat, t: Token)
    requires s.Acts(c) && s.Phase(c) == Held(t) && Carried(s.dirs, Canonical, t) && CanReplace(s.dirs, Released(t))
    ensures CanMove(s, c, VerifyGuard)
    ensures var verified := Moves(s, c, VerifyGuard);
            && CanMove(verified, c, MoveReleased)
            && var moved := Moves(verified, c, MoveReleased);
               && moved.dirs == Renamed(s.dirs, Canonical, Released(t))
               && CanMove(moved, c, VerifyMoved) && Moves(moved, c, VerifyMoved).Phase(c) == Cleaning(t)
  {
  }
}
