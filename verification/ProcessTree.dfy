/**
 Which processes a release terminates, and in which order (internal/process/descendants.go,
 internal/process/release_manager_windows.go): walks over one snapshot of processes and their recorded
 parents, which may name a PID that was reused.
 */
module ProcessTree {
  import opened Common

  datatype Entry = Entry(pid: int, parent: int, group: int)

  type Links = set<(int, int)>

  /** Parent to child. A link into the leader itself leads nowhere new. */
  function LinksOf(entries: seq<Entry>, root: int): Links {
    set e | e in entries && e.pid > 0 && e.parent > 0 && e.pid != root :: (e.parent, e.pid)
  }

  predicate Linked(links: Links, path: seq<int>, i: nat)
    requires i + 1 < |path|
  {
    (path[i], path[i + 1]) in links
  }

  ghost predicate Chain(links: Links, path: seq<int>) {
    |path| > 0 && forall i: nat :: i + 1 < |path| ==> Linked(links, path, i)
  }

  ghost predicate Joins(links: Links, path: seq<int>, p: int, q: int) {
    Chain(links, path) && path[0] == p && path[|path| - 1] == q
  }

  ghost predicate Reachable(links: Links, p: int, q: int) { exists path :: Joins(links, path, p, q) }

  lemma ReachesItself(links: Links, p: int)
    ensures Reachable(links, p, p)
  {
    assert Joins(links, [p], p, p);
  }

  lemma ReachesOn(links: Links, root: int, p: int, q: int)
    requires Reachable(links, root, p) && (p, q) in links
    ensures Reachable(links, root, q)
  {
    var path :| Joins(links, path, root, p);
    var longer := path + [q];
    forall i: nat | i + 1 < |longer| ensures Linked(links, longer, i) {
      if i + 1 < |path| { assert Linked(links, path, i); }
    }
    assert Joins(links, longer, root, q);
  }

  ghost predicate Closed(links: Links, reached: set<int>) {
    forall p, q :: p in reached && (p, q) in links ==> q in reached
  }

  lemma ClosedStep(links: Links, reached: set<int>, p: int, q: int)
    requires Closed(links, reached) && p in reached && (p, q) in links
    ensures q in reached
  {
  }

  lemma {:induction false} ChainStaysInside(links: Links, reached: set<int>, path: seq<int>)
    requires Chain(links, path) && Closed(links, reached) && path[0] in reached
    ensures path[|path| - 1] in reached
  {
    if |path| > 1 {
      var tail := path[1..];
      forall i: nat | i + 1 < |tail| ensures Linked(links, tail, i) { assert Linked(links, path, i + 1); }
      assert Linked(links, path, 0);
      ClosedStep(links, reached, path[0], path[1]);
      ChainStaysInside(links, reached, tail);
    }
  }

  /** A closed set of reachable processes is the set of all reachable processes. */
  lemma ClosureIsReachability(links: Links, root: int, reached: set<int>)
    requires root in reached && Closed(links, reached)
    requires forall p :: p in reached ==> Reachable(links, root, p)
    ensures forall p :: p in reached <==> Reachable(links, root, p)
  {
    forall p | Reachable(links, root, p) ensures p in reached {
      var path :| Joins(links, path, root, p);
      ChainStaysInside(links, reached, path);
    }
  }

  // ---------------------------------------------------------------------------------------------
  // The walk
  // ---------------------------------------------------------------------------------------------

  function ChildrenOf(children: map<int, seq<int>>, p: int): seq<int> { if p in children then children[p] else [] }

  predicate NamesChild(e: Entry, p: int, q: int) { e.pid > 0 && e.parent > 0 && e.parent == p && e.pid == q }

  method IndexChildren(entries: seq<Entry>) returns (children: map<int, seq<int>>)
    ensures forall p, q :: q in ChildrenOf(children, p) <==> exists e :: e in entries && NamesChild(e, p, q)
  {
    children := map[];
    for i := 0 to |entries|
      invariant forall p, q :: q in ChildrenOf(children, p) <==>
                  exists k :: 0 <= k < i && NamesChild(entries[k], p, q)
    {
      var e := entries[i];
      ghost var before := children;
      if e.pid > 0 && e.parent > 0 { children := children[e.parent := ChildrenOf(children, e.parent) + [e.pid]]; }
      forall p, q ensures q in ChildrenOf(children, p) <==> q in ChildrenOf(before, p) || NamesChild(e, p, q) {}
    }
  }

  ghost predicate NoRepeats(xs: seq<int>) { forall i, j :: 0 <= i < j < |xs| ==> xs[i] != xs[j] }

  predicate HasPid(entries: seq<Entry>, pid: int) { exists e :: e in entries && e.pid == pid }

  /** The creation time of a process, when it can be read as one. */
  type Identities = map<int, int>

  predicate CreatedBefore(identities: Identities, child: int, parent: int) {
    child in identities && parent in identities && identities[child] < identities[parent]
  }

  /** The links that survive the age check: a child older than its parent was not its child. */
  function KeptLinks(entries: seq<Entry>, root: int, identities: Identities): Links {
    set l | l in LinksOf(entries, root) && !CreatedBefore(identities, l.1, l.0)
  }

  /** The snapshot records the second process as a child of the first, and their creation times, where
      both can be read, do not say otherwise. */
  predicate Bore(entries: seq<Entry>, root: int, identities: Identities, parent: int, child: int) {
    && child != root
    && (exists e :: e in entries && NamesChild(e, parent, child))
    && (parent in identities && child in identities ==> identities[parent] <= identities[child])
  }

  predicate BoreNext(entries: seq<Entry>, root: int, identities: Identities, path: seq<int>, i: nat)
    requires i + 1 < |path|
  {
    Bore(entries, root, identities, path[i], path[i + 1])
  }

  /** A line of descent from the leader, each process no older than the one that bore it. */
  ghost predicate Lineage(entries: seq<Entry>, root: int, identities: Identities, path: seq<int>, p: int) {
    && |path| > 0 && path[0] == root && path[|path| - 1] == p
    && forall i: nat :: i + 1 < |path| ==> BoreNext(entries, root, identities, path, i)
  }

  ghost predicate Descends(entries: seq<Entry>, root: int, identities: Identities, p: int) {
    exists path :: Lineage(entries, root, identities, path, p)
  }

  lemma KeptLinkIsBirth(entries: seq<Entry>, root: int, identities: Identities, p: int, q: int)
    ensures (p, q) in KeptLinks(entries, root, identities) <==> Bore(entries, root, identities, p, q)
  {
    if Bore(entries, root, identities, p, q) {
      var e :| e in entries && NamesChild(e, p, q);
      assert (e.parent, e.pid) in LinksOf(entries, root);
    }
  }

  /** The links that survive the age check reach exactly the processes some line of descent leads to in
      which no child is strictly older than its parent; a creation time that cannot be read stands in
      nobody's way. */
  lemma KeptLinksReachDescendants(entries: seq<Entry>, root: int, identities: Identities, p: int)
    ensures Reachable(KeptLinks(entries, root, identities), root, p) <==> Descends(entries, root, identities, p)
  {
    var links := KeptLinks(entries, root, identities);
    forall path | |path| > 0 ensures Joins(links, path, root, p) <==> Lineage(entries, root, identities, path, p) {
      forall i: nat | i + 1 < |path| ensures Linked(links, path, i) <==> BoreNext(entries, root, identities, path, i) {
        KeptLinkIsBirth(entries, root, identities, path[i], path[i + 1]);
      }
    }
  }

  lemma AllReachDescendants(entries: seq<Entry>, root: int, identities: Identities)
    ensures forall p :: Reachable(KeptLinks(entries, root, identities), root, p) <==> Descends(entries, root, identities, p)
  {
    forall p { KeptLinksReachDescendants(entries, root, identities, p); }
  }

  function Fillers(entries: seq<Entry>): set<int> { set e | e in entries :: e.pid }

  /** Visits children in breadth-first order, skipping those already seen and those older than their
      parent; without identities no link is skipped. */
  method Walk(entries: seq<Entry>, root: int, identities: Identities) returns (result: seq<int>)
    ensures root !in result && NoRepeats(result)
    ensures forall p :: p in result || p == root <==> Reachable(KeptLinks(entries, root, identities), root, p)
    ensures forall p :: p in result || p == root <==> Descends(entries, root, identities, p)
  {
    ghost var links := KeptLinks(entries, root, identities);
    var children := IndexChildren(entries);
    var seen := {root};
    var queue := [root];
    result := [];
    ReachesItself(links, root);
    while queue != []
      invariant root in seen && root !in result && NoRepeats(result)
      invariant forall p :: p in seen <==> p == root || p in result
      invariant forall p :: p in queue ==> p in seen
      invariant seen <= Fillers(entries) + {root}
      invariant forall p :: p in seen ==> Reachable(links, root, p)
      invariant forall p, q :: p in seen && p !in queue && (p, q) in links ==> q in seen
      decreases Fillers(entries) + {root} - seen, |queue|
    {
      var parent := queue[0];
      ghost var before := queue;
      queue := queue[1..];
      var siblings := ChildrenOf(children, parent);
      ghost var seenBefore := seen;
      ghost var rest := queue;
      for i := 0 to |siblings|
        invariant root in seen && root !in result && NoRepeats(result)
        invariant forall p :: p in seen <==> p == root || p in result
        invariant forall p :: p in queue ==> p in seen
        invariant seenBefore <= seen <= Fillers(entries) + {root}
        invariant forall p :: p in seen ==> Reachable(links, root, p)
        invariant forall k :: 0 <= k < i ==> siblings[k] in seen || CreatedBefore(identities, siblings[k], parent)
        invariant forall p :: p in rest ==> p in queue
        invariant forall p :: p in seen && p !in seenBefore ==> p in queue
        invariant seen == seenBefore ==> queue == rest
      {
        var child := siblings[i];
        assert child in siblings;
        if child !in seen && !CreatedBefore(identities, child, parent) {
          assert (parent, child) in links;
          ReachesOn(links, root, parent, child);
          seen := seen + {child};
          result := result + [child];
          queue := queue + [child];
        }
      }
      forall p, q | p in seen && p !in queue && (p, q) in links ensures q in seen {
        if p == parent { assert q in siblings; } else { assert p in seenBefore && p !in before; }
      }
    }
    ClosureIsReachability(links, root, seen);
    AllReachDescendants(entries, root, identities);
  }

  /** Every process the leader started, directly or not, once each, with the leader last; nothing when
      the snapshot does not show the leader. */
  method DescendantPids(entries: seq<Entry>, root: int) returns (pids: seq<int>)
    ensures !HasPid(entries, root) ==> pids == []
    ensures HasPid(entries, root) ==> NoRepeats(pids) && pids != [] && pids[|pids| - 1] == root
    ensures HasPid(entries, root) ==> forall p :: p in pids <==> Reachable(LinksOf(entries, root), root, p)
  {
    if !HasPid(entries, root) { return []; }
    var walked := Walk(entries, root, map[]);
    assert KeptLinks(entries, root, map[]) == LinksOf(entries, root);
    pids := walked + [root];
  }

  /** The processes of `keep`, in the order given. */
  function Only(pids: seq<int>, keep: set<int>): seq<int> {
    if pids == [] then []
    else
      var last := pids[|pids| - 1];
      Only(pids[..|pids| - 1], keep) + if last in keep then [last] else []
  }

  lemma {:induction false} OnlyKeeps(pids: seq<int>, keep: set<int>)
    ensures forall p :: p in Only(pids, keep) <==> p in pids && p in keep
    ensures NoRepeats(pids) ==> NoRepeats(Only(pids, keep))
  {
    if pids != [] {
      var n := |pids| - 1;
      OnlyKeeps(pids[..n], keep);
      assert pids == pids[..n] + [pids[n]];
    }
  }

  /** Drops the processes that only a reused parent PID connects to the leader, keeping the order. */
  method DescendantsCreatedAfterParents(entries: seq<Entry>, root: int, pids: seq<int>, identities: Identities) returns (result: seq<int>)
    requires NoRepeats(pids)
    ensures NoRepeats(result)
    ensures forall p :: p in result <==> p in pids && Reachable(KeptLinks(entries, root, identities), root, p)
    ensures forall p :: p in result <==> p in pids && Descends(entries, root, identities, p)
    ensures exists keep: set<int> :: result == Only(pids, keep)
    ensures pids != [] && pids[|pids| - 1] == root ==> result != [] && result[|result| - 1] == root
  {
    var kept := Walk(entries, root, identities);
    ghost var keep := (set p | p in kept) + {root};
    result := [];
    for i := 0 to |pids|
      invariant result == Only(pids[..i], keep)
    {
      assert pids[..i + 1][..i] == pids[..i];
      if pids[i] in kept || pids[i] == root { result := result + [pids[i]]; }
    }
    OnlyKeeps(pids, keep);
    assert pids[..|pids|] == pids;
  }

  lemma {:induction false} FewerLinksReachLess(few: Links, many: Links, path: seq<int>)
    requires few <= many && Chain(few, path)
    ensures Chain(many, path)
  {
    forall i: nat | i + 1 < |path| ensures Linked(many, path, i) { assert Linked(few, path, i); }
  }

  // ---------------------------------------------------------------------------------------------
  // Is there any descendant at all
  // ---------------------------------------------------------------------------------------------

  /** Adds one generation after another until nothing changes; the group of the leader counts too. */
  method Exists(entries: seq<Entry>, root: int) returns (found: bool)
    ensures found <==>
              root > 0 &&
              ((exists e :: e in entries && e.pid > 0 && e.pid != root && e.group == root) ||
               (exists p :: p != root && Reachable(LinksOf(entries, root), root, p)))
  {
    if root <= 0 { return false; }
    for i := 0 to |entries|
      invariant forall k :: 0 <= k < i ==> !(entries[k].pid > 0 && entries[k].pid != root && entries[k].group == root)
    {
      if entries[i].pid > 0 && entries[i].pid != root && entries[i].group == root {
        assert entries[i] in entries;
        return true;
      }
    }
    ghost var links := LinksOf(entries, root);
    var ancestors := {root};
    ReachesItself(links, root);
    var changed := true;
    while changed
      invariant root in ancestors && ancestors <= Fillers(entries) + {root}
      invariant forall p :: p in ancestors ==> p > 0 && Reachable(links, root, p)
      invariant !changed ==> Closed(links, ancestors)
      decreases Fillers(entries) + {root} - ancestors, changed
    {
      changed := false;
      ghost var before := ancestors;
      for i := 0 to |entries|
        invariant before <= ancestors <= Fillers(entries) + {root}
        invariant forall p :: p in ancestors ==> p > 0 && Reachable(links, root, p)
        invariant changed <==> ancestors != before
        invariant !changed ==> forall k :: 0 <= k < i ==>
                    (entries[k].pid > 0 && entries[k].pid != root && entries[k].parent in ancestors ==> entries[k].pid in ancestors)
      {
        var e := entries[i];
        if e.pid > 0 && e.pid != root && e.pid !in ancestors && e.parent in ancestors {
          assert e in entries && (e.parent, e.pid) in links;
          ReachesOn(links, root, e.parent, e.pid);
          ancestors := ancestors + {e.pid};
          changed := true;
        }
      }
    }
    ClosureIsReachability(links, root, ancestors);
    found := exists p :: p in ancestors && p != root;
  }

  // ---------------------------------------------------------------------------------------------
  // Depths
  // ---------------------------------------------------------------------------------------------

  type Parents = map<int, int>

  predicate Up(parents: Parents, path: seq<int>, i: nat)
    requires i + 1 < |path|
  {
    path[i] in parents && parents[path[i]] == path[i + 1]
  }

  /** A path of recorded parents from a process to the leader, meeting the leader only at its end. */
  ghost predicate Climbs(parents: Parents, root: int, path: seq<int>, p: int) {
    && |path| > 0 && path[0] == p && path[|path| - 1] == root
    && (forall i: nat :: i + 1 < |path| ==> Up(parents, path, i))
    && (forall i: nat :: i + 1 < |path| ==> path[i] != root)
  }

  ghost predicate DepthIs(parents: Parents, root: int, p: int, d: nat) {
    exists path :: Climbs(parents, root, path, p) && |path| == d + 1
  }

  /** A walk upward that has not met the leader yet. */
  ghost predicate Trail(parents: Parents, root: int, trail: seq<int>, p: int) {
    && |trail| > 0 && trail[0] == p
    && (forall i: nat :: i + 1 < |trail| ==> Up(parents, trail, i))
    && (forall i: nat :: i < |trail| ==> trail[i] != root)
  }

  /** There is only one way up, so a climb continues every trail. */
  lemma {:induction false} ClimbsFollowTrails(parents: Parents, root: int, trail: seq<int>, path: seq<int>, p: int, i: nat)
    requires Trail(parents, root, trail, p) && Climbs(parents, root, path, p) && i < |trail|
    ensures i + 1 < |path| && path[i] == trail[i]
  {
    if i > 0 {
      ClimbsFollowTrails(parents, root, trail, path, p, i - 1);
      assert Up(parents, trail, i - 1) && Up(parents, path, i - 1);
    }
  }

  /** A trail that runs into itself never meets the leader. */
  lemma {:induction false} CirclesNeverArrive(parents: Parents, root: int, trail: seq<int>, path: seq<int>, p: int, k: nat)
    requires Trail(parents, root, trail, p) && Climbs(parents, root, path, p) && k < |path|
    requires trail[|trail| - 1] in parents && parents[trail[|trail| - 1]] in trail
    ensures path[k] in trail
  {
    if k > 0 {
      CirclesNeverArrive(parents, root, trail, path, p, k - 1);
      assert Up(parents, path, k - 1);
      var i :| 0 <= i < |trail| && trail[i] == path[k - 1];
      if i + 1 < |trail| { assert Up(parents, trail, i); }
    } else {
      ClimbsFollowTrails(parents, root, trail, path, p, 0);
    }
  }

  lemma DeadEndsNeverArrive(parents: Parents, root: int, trail: seq<int>, path: seq<int>, p: int)
    requires Trail(parents, root, trail, p) && Climbs(parents, root, path, p)
    ensures trail[|trail| - 1] in parents
  {
    ClimbsFollowTrails(parents, root, trail, path, p, |trail| - 1);
    assert Up(parents, path, |trail| - 1);
  }

  lemma DepthIsUnique(parents: Parents, root: int, p: int, d: nat, e: nat)
    requires DepthIs(parents, root, p, d) && DepthIs(parents, root, p, e)
    ensures d == e
  {
    var x :| Climbs(parents, root, x, p) && |x| == d + 1;
    var y :| Climbs(parents, root, y, p) && |y| == e + 1;
    ShorterClimb(parents, root, x, y, p);
    ShorterClimb(parents, root, y, x, p);
  }

  lemma ShorterClimb(parents: Parents, root: int, x: seq<int>, y: seq<int>, p: int)
    requires Climbs(parents, root, x, p) && Climbs(parents, root, y, p)
    ensures |x| <= |y|
  {
    if |x| > 1 {
      var trail := x[..|x| - 1];
      forall i: nat | i + 1 < |trail| ensures Up(parents, trail, i) { assert Up(parents, x, i); }
      ClimbsFollowTrails(parents, root, trail, y, p, |trail| - 1);
    }
  }

  /** One process's distance below the leader, or none when its recorded parents lead elsewhere or in
      a circle. */
  method DepthOf(parents: Parents, root: int, pid: int) returns (depth: Option<nat>)
    ensures depth.Some? ==> DepthIs(parents, root, pid, depth.value)
    ensures depth.None? ==> forall d :: !DepthIs(parents, root, pid, d)
  {
    if pid == root {
      assert Climbs(parents, root, [root], pid);
      return Some(0);
    }
    var seen := {pid};
    var current := pid;
    var steps: nat := 0;
    ghost var trail := [pid];
    while true
      invariant Trail(parents, root, trail, pid) && trail[|trail| - 1] == current && |trail| == steps + 1
      invariant forall p :: p in seen <==> p in trail
      decreases parents.Keys + parents.Values + {pid} - seen
    {
      if current !in parents {
        forall path ensures !Climbs(parents, root, path, pid) {
          if Climbs(parents, root, path, pid) { DeadEndsNeverArrive(parents, root, trail, path, pid); }
        }
        return None;
      }
      var parent := parents[current];
      if parent in seen {
        forall path ensures !Climbs(parents, root, path, pid) {
          if Climbs(parents, root, path, pid) { CirclesNeverArrive(parents, root, trail, path, pid, |path| - 1); }
        }
        return None;
      }
      ghost var longer := trail + [parent];
      forall i: nat | i + 1 < |longer| ensures Up(parents, longer, i) {
        if i + 1 < |trail| { assert Up(parents, trail, i); }
      }
      if parent == root {
        assert Climbs(parents, root, longer, pid);
        return Some(steps + 1);
      }
      seen := seen + {parent};
      trail := longer;
      current := parent;
      steps := steps + 1;
    }
  }

  // ---------------------------------------------------------------------------------------------
  // Links and depths
  // ---------------------------------------------------------------------------------------------

  ghost predicate DistinctPids(entries: seq<Entry>) { forall i, j :: 0 <= i < j < |entries| ==> entries[i].pid != entries[j].pid }

  /** The last entry of a PID wins. */
  function RecordedParents(entries: seq<Entry>): Parents {
    if entries == [] then map[]
    else
      var last := entries[|entries| - 1];
      var before := RecordedParents(entries[..|entries| - 1]);
      if last.pid > 0 then before[last.pid := last.parent] else before
  }

  /** With distinct PIDs every recorded parent is found. */
  lemma {:induction false} EveryParentIsRecorded(entries: seq<Entry>, e: Entry)
    requires DistinctPids(entries) && e in entries && e.pid > 0
    ensures e.pid in RecordedParents(entries) && RecordedParents(entries)[e.pid] == e.parent
  {
    var n := |entries| - 1;
    if e != entries[n] {
      assert e in entries[..n];
      EveryParentIsRecorded(entries[..n], e);
    }
  }

  method ParentsOf(entries: seq<Entry>) returns (parents: Parents)
    ensures parents == RecordedParents(entries)
  {
    parents := map[];
    for i := 0 to |entries|
      invariant parents == RecordedParents(entries[..i])
    {
      assert entries[..i + 1][..i] == entries[..i];
      if entries[i].pid > 0 { parents := parents[entries[i].pid := entries[i].parent]; }
    }
    assert entries[..|entries|] == entries;
  }

  ghost predicate RecordsLinks(parents: Parents, links: Links) {
    forall p, q :: (p, q) in links ==> q in parents && parents[q] == p
  }

  /** A child is one step further down than its parent. */
  lemma ChildIsDeeper(parents: Parents, links: Links, root: int, p: int, q: int, d: nat)
    requires RecordsLinks(parents, links) && (p, q) in links && q != root && DepthIs(parents, root, p, d)
    ensures DepthIs(parents, root, q, d + 1)
  {
    var path :| Climbs(parents, root, path, p) && |path| == d + 1;
    var longer := [q] + path;
    forall i: nat | i + 1 < |longer| ensures Up(parents, longer, i) && longer[i] != root {
      if i > 0 { assert Up(parents, path, i - 1); }
    }
    assert Climbs(parents, root, longer, q);
  }

  ghost predicate AvoidsChild(links: Links, root: int) { forall p, q :: (p, q) in links ==> q != root }

  lemma {:induction false} DescendantsAreDeeper(parents: Parents, links: Links, root: int, path: seq<int>, d: nat)
    requires RecordsLinks(parents, links) && AvoidsChild(links, root)
    requires Chain(links, path) && DepthIs(parents, root, path[0], d)
    ensures DepthIs(parents, root, path[|path| - 1], d + |path| - 1)
  {
    if |path| > 1 {
      var tail := path[1..];
      forall i: nat | i + 1 < |tail| ensures Linked(links, tail, i) { assert Linked(links, path, i + 1); }
      assert Linked(links, path, 0);
      assert (path[0], path[1]) in links;
      ChildIsDeeper(parents, links, root, path[0], path[1], d);
      DescendantsAreDeeper(parents, links, root, tail, d + 1);
    }
  }

  lemma LinksAreRecorded(entries: seq<Entry>, root: int, identities: Identities, parents: Parents)
    requires forall e :: e in entries && e.pid > 0 ==> e.pid in parents && parents[e.pid] == e.parent
    ensures RecordsLinks(parents, KeptLinks(entries, root, identities)) && AvoidsChild(KeptLinks(entries, root, identities), root)
  {
  }

  // ---------------------------------------------------------------------------------------------
  // The order of termination
  // ---------------------------------------------------------------------------------------------

  function DepthAt(depths: map<int, nat>, p: int): nat { if p in depths then depths[p] else 0 }

  function Place(p: int, rest: seq<int>, depths: map<int, nat>): seq<int> {
    if rest == [] || DepthAt(depths, p) >= DepthAt(depths, rest[0]) then [p] + rest
    else [rest[0]] + Place(p, rest[1..], depths)
  }

  /** The stable sort by decreasing depth. */
  function DeepestFirst(pids: seq<int>, depths: map<int, nat>): seq<int> {
    if pids == [] then [] else Place(pids[0], DeepestFirst(pids[1..], depths), depths)
  }

  ghost predicate Falling(xs: seq<int>, depths: map<int, nat>) {
    forall i, j :: 0 <= i < j < |xs| ==> DepthAt(depths, xs[i]) >= DepthAt(depths, xs[j])
  }

  function AtDepth(xs: seq<int>, depths: map<int, nat>, d: nat): seq<int> {
    if xs == [] then []
    else if DepthAt(depths, xs[0]) == d then [xs[0]] + AtDepth(xs[1..], depths, d)
    else AtDepth(xs[1..], depths, d)
  }

  lemma {:induction false} PlaceAddsOne(p: int, rest: seq<int>, depths: map<int, nat>)
    ensures multiset(Place(p, rest, depths)) == multiset(rest) + multiset{p}
    ensures forall x :: x in Place(p, rest, depths) ==> x == p || x in rest
  {
    if rest != [] && DepthAt(depths, p) < DepthAt(depths, rest[0]) {
      PlaceAddsOne(p, rest[1..], depths);
      assert rest == [rest[0]] + rest[1..];
    }
  }

  lemma {:induction false} PlaceKeepsOrder(p: int, rest: seq<int>, depths: map<int, nat>)
    requires Falling(rest, depths)
    ensures Falling(Place(p, rest, depths), depths)
  {
    if rest != [] && DepthAt(depths, p) < DepthAt(depths, rest[0]) {
      var placed := Place(p, rest[1..], depths);
      PlaceKeepsOrder(p, rest[1..], depths);
      PlaceAddsOne(p, rest[1..], depths);
      forall j | 0 <= j < |placed| ensures DepthAt(depths, rest[0]) >= DepthAt(depths, placed[j]) {
        assert placed[j] == p || placed[j] in rest[1..];
      }
    }
  }

  lemma {:induction false} PlaceIsStable(p: int, rest: seq<int>, depths: map<int, nat>, d: nat)
    ensures AtDepth(Place(p, rest, depths), depths, d) == (if DepthAt(depths, p) == d then [p] else []) + AtDepth(rest, depths, d)
  {
    if rest == [] || DepthAt(depths, p) >= DepthAt(depths, rest[0]) {
      assert ([p] + rest)[1..] == rest;
    } else {
      PlaceIsStable(p, rest[1..], depths, d);
      var placed := Place(p, rest[1..], depths);
      assert ([rest[0]] + placed)[1..] == placed;
    }
  }

  lemma {:induction false} DeepestFirstIsStable(pids: seq<int>, depths: map<int, nat>, d: nat)
    ensures AtDepth(DeepestFirst(pids, depths), depths, d) == AtDepth(pids, depths, d)
  {
    if pids != [] {
      DeepestFirstIsStable(pids[1..], depths, d);
      PlaceIsStable(pids[0], DeepestFirst(pids[1..], depths), depths, d);
    }
  }

  /** The sort is a permutation by decreasing depth; with DeepestFirstIsStable it also keeps the order
      within each depth. */
  lemma {:induction false} DeepestFirstSorts(pids: seq<int>, depths: map<int, nat>)
    ensures Falling(DeepestFirst(pids, depths), depths)
    ensures multiset(DeepestFirst(pids, depths)) == multiset(pids)
  {
    if pids != [] {
      DeepestFirstSorts(pids[1..], depths);
      PlaceKeepsOrder(pids[0], DeepestFirst(pids[1..], depths), depths);
      PlaceAddsOne(pids[0], DeepestFirst(pids[1..], depths), depths);
      assert pids == [pids[0]] + pids[1..];
    }
  }

  lemma {:induction false} NoRepeatsCount(xs: seq<int>, x: int)
    requires NoRepeats(xs)
    ensures multiset(xs)[x] <= 1
  {
    if xs != [] {
      assert xs == [xs[0]] + xs[1..];
      assert x == xs[0] ==> x !in xs[1..];
      NoRepeatsCount(xs[1..], x);
    }
  }

  lemma PermutationsKeep(xs: seq<int>, ys: seq<int>)
    requires NoRepeats(xs) && multiset(xs) == multiset(ys)
    ensures NoRepeats(ys) && |xs| == |ys| && forall x :: x in xs <==> x in ys
  {
    assert |multiset(xs)| == |multiset(ys)|;
    forall x ensures x in xs <==> x in ys { assert x in multiset(xs) <==> x in multiset(ys); }
    forall i, j | 0 <= i < j < |ys| ensures ys[i] != ys[j] {
      NoRepeatsCount(xs, ys[i]);
      assert ys == ys[..j] + [ys[j]] + ys[j + 1..];
      assert ys[i] in ys[..j];
      assert ys[i] == ys[j] ==> multiset(ys)[ys[i]] >= 2;
    }
  }

  /** Every process below another comes before it, and the leader comes last. */
  ghost predicate ChildrenFirst(order: seq<int>, links: Links) {
    forall i, j :: 0 <= i < j < |order| ==> !Reachable(links, order[i], order[j])
  }

  lemma OnlyRecordedClimb(parents: Parents, root: int, p: int, d: nat)
    requires DepthIs(parents, root, p, d)
    ensures p == root || p in parents
  {
    var path :| Climbs(parents, root, path, p) && |path| == d + 1;
    if d > 0 { assert Up(parents, path, 0); }
  }

  method DepthsOf(entries: seq<Entry>, root: int) returns (depths: map<int, nat>)
    ensures DepthsAgree(RecordedParents(entries), root, depths)
  {
    var parents := ParentsOf(entries);
    depths := map[root := 0];
    assert Climbs(parents, root, [root], root);
    forall p, d | DepthIs(parents, root, p, d) ensures p == root || p in parents { OnlyRecordedClimb(parents, root, p, d); }
    var todo := parents.Keys;
    while todo != {}
      invariant todo <= parents.Keys
      invariant forall p :: p in depths ==> DepthIs(parents, root, p, depths[p])
      invariant forall p, d :: p !in todo && DepthIs(parents, root, p, d) ==> p in depths
    {
      SomePid(todo);
      var p :| p in todo;
      var depth := DepthOf(parents, root, p);
      if depth.Some? { depths := depths[p := depth.value]; }
      todo := todo - {p};
    }
    forall p, d | DepthIs(parents, root, p, d) ensures p in depths && depths[p] == d { DepthIsUnique(parents, root, p, d, depths[p]); }
  }

  lemma SomePid(pids: set<int>)
    requires pids != {}
    ensures exists p :: p in pids
  {
    assert (forall p :: p !in pids) ==> pids == {};
  }

  ghost predicate DepthsAgree(parents: Parents, root: int, depths: map<int, nat>) {
    && (forall p, d :: DepthIs(parents, root, p, d) ==> p in depths && depths[p] == d)
    && (forall p :: p in depths ==> DepthIs(parents, root, p, depths[p]))
  }

  lemma DeeperComesFirst(order: seq<int>, parents: Parents, root: int, links: Links, depths: map<int, nat>)
    requires Falling(order, depths) && NoRepeats(order) && DepthsAgree(parents, root, depths)
    requires RecordsLinks(parents, links) && AvoidsChild(links, root)
    requires forall p :: p in order ==> Reachable(links, root, p)
    ensures ChildrenFirst(order, links)
    ensures root in order ==> order[|order| - 1] == root
  {
    assert Climbs(parents, root, [root], root);
    forall p | p in order ensures p in depths && DepthIs(parents, root, p, depths[p]) && (p != root ==> depths[p] > 0) {
      var path :| Joins(links, path, root, p);
      assert DepthIs(parents, root, root, 0);
      DescendantsAreDeeper(parents, links, root, path, 0);
    }
    forall i, j | 0 <= i < j < |order| ensures !Reachable(links, order[i], order[j]) {
      assert order[i] in order && order[j] in order;
      forall path ensures !Joins(links, path, order[i], order[j]) {
        if Joins(links, path, order[i], order[j]) { DescendantsAreDeeper(parents, links, root, path, depths[order[i]]); }
      }
    }
    if root in order {
      assert DepthIs(parents, root, root, 0);
      var last := order[|order| - 1];
      assert last in order;
      var k :| 0 <= k < |order| && order[k] == root;
      assert DepthAt(depths, root) == 0;
    }
  }

  /** What TerminateTree signals, in order: with distinct PIDs, every process the leader really
      started, once each, every one after all its own descendants, and the leader last. */
  method KillOrder(entries: seq<Entry>, root: int, identities: Identities) returns (order: seq<int>)
    requires HasPid(entries, root) && DistinctPids(entries)
    ensures NoRepeats(order) && order != [] && order[|order| - 1] == root
    ensures forall p :: p in order <==> Descends(entries, root, identities, p)
    ensures ChildrenFirst(order, KeptLinks(entries, root, identities))
  {
    ghost var links := KeptLinks(entries, root, identities);
    var walked := DescendantPids(entries, root);
    var kept := DescendantsCreatedAfterParents(entries, root, walked, identities);
    forall p | Reachable(links, root, p) ensures p in walked {
      var path :| Joins(links, path, root, p);
      FewerLinksReachLess(links, LinksOf(entries, root), path);
      assert Joins(LinksOf(entries, root), path, root, p);
    }
    var depths := DepthsOf(entries, root);
    ghost var parents := RecordedParents(entries);
    forall e | e in entries && e.pid > 0 ensures e.pid in parents && parents[e.pid] == e.parent { EveryParentIsRecorded(entries, e); }
    order := DeepestFirst(kept, depths);
    DeepestFirstSorts(kept, depths);
    PermutationsKeep(kept, order);
    LinksAreRecorded(entries, root, identities, parents);
    ReachesItself(links, root);
    DeeperComesFirst(order, parents, root, links, depths);
    AllReachDescendants(entries, root, identities);
  }
}
