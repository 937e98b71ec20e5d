/**
 One registry transaction and one allocation, as the calling process runs them
 (internal/ports/registry.go, internal/ports/allocation.go). The registry file and the repository's
 document change only where a step commits; the finder, the state files and the final write may fail.
 */
module PortRegistry {
  import opened Common
  import opened RukState
  import opened Transitions
  import opened Lifecycle
  import opened Decode
  import opened PortIndex
  import opened Service
  import StateStore

  type Files = map<Repo, StateStore.Document>

  // ---------------------------------------------------------------------------------------------
  // Pruning
  // ---------------------------------------------------------------------------------------------

  /** A state file that is there and cannot be trusted stops the prune. */
  ghost predicate Corrupt(files: Files, repo: Repo) {
    repo in files && (files[repo].Torn? || !ValidState(files[repo].state))
  }

  ghost predicate Backed(files: Files, entry: Entry, port: int) {
    && entry.repo in files && files[entry.repo].Whole?
    && exists p, name :: p in files[entry.repo].state.workspaces && files[entry.repo].state.workspaces[p].Carries(entry.id)
         && UsesPort(files[entry.repo].state.workspaces[p], name, port)
  }

  /** Some record of the state file, in whatever lifecycle, carries the entry's identifier and has the
      port among its own. */
  ghost predicate StillPublished(table: Table, files: Files, port: int) {
    && port in table && table[port].repo in files && files[table[port].repo].Whole?
    && exists w :: w in files[table[port].repo].state.workspaces.Values && w.assignment.Some?
         && w.assignment.value.id == table[port].id && port in w.assignment.value.ports.Values
  }

  lemma StillPublishedIsBacked(table: Table, files: Files, port: int)
    ensures StillPublished(table, files, port) <==> port in table && Backed(files, table[port], port)
  {
    if port in table && table[port].repo in files && files[table[port].repo].Whole? {
      var ws := files[table[port].repo].state.workspaces;
      if StillPublished(table, files, port) {
        var w :| w in ws.Values && w.assignment.Some? && w.assignment.value.id == table[port].id && port in w.assignment.value.ports.Values;
        var p :| p in ws && ws[p] == w;
        var name :| name in w.assignment.value.ports && w.assignment.value.ports[name] == port;
        assert ws[p].Carries(table[port].id) && UsesPort(ws[p], name, port);
      }
    }
  }

  method AssignsPort(w: Workspace, port: int) returns (found: bool)
    requires w.assignment.Some?
    ensures found <==> exists name :: UsesPort(w, name, port)
  {
    var own := w.assignment.value.ports;
    var todo := own.Keys;
    while todo != {}
      invariant todo <= own.Keys
      invariant forall name :: UsesPort(w, name, port) ==> name in todo
    {
      var name :| name in todo;
      if own[name] == port {
        assert UsesPort(w, name, port);
        return true;
      }
      todo := todo - {name};
    }
    found := false;
  }

  method CheckActive(files: Files, entry: Entry, port: int) returns (r: Result<bool, Refusal>)
    ensures r.Err? <==> Corrupt(files, entry.repo)
    ensures r.Ok? ==> (r.value <==> Backed(files, entry, port))
    ensures r.Ok? ==> (r.value <==> StillPublished(map[port := entry], files, port))
  {
    StillPublishedIsBacked(map[port := entry], files, port);
    if entry.repo !in files { return Ok(false); }
    if files[entry.repo].Torn? { return Err(Unencodable); }
    var state := files[entry.repo].state;
    var valid := CheckState(state);
    if !valid { return Err(Unencodable); }
    var todo := state.workspaces.Keys;
    while todo != {}
      invariant todo <= state.workspaces.Keys
      invariant forall p, name :: p in state.workspaces && p !in todo && state.workspaces[p].Carries(entry.id) ==> !UsesPort(state.workspaces[p], name, port)
    {
      var p :| p in todo;
      if state.workspaces[p].Carries(entry.id) {
        var found := AssignsPort(state.workspaces[p], port);
        if found { return Ok(true); }
      }
      todo := todo - {p};
    }
    r := Ok(false);
  }

  lemma SomePort(ports: set<int>)
    requires ports != {}
    ensures exists port :: port in ports
  {
    assert (forall port :: port !in ports) ==> ports == {};
  }

  /** Keeps exactly the entries whose assignment still publishes the port, whatever became of its
      workspace, or changes nothing when a state file cannot be trusted. */
  method PruneInactive(current: Table, files: Files) returns (r: Result<Table, Refusal>)
    ensures r.Err? <==> exists port :: port in current && Corrupt(files, current[port].repo)
    ensures r.Ok? ==> forall port :: port in r.value <==> StillPublished(current, files, port)
    ensures r.Ok? ==> forall port :: port in r.value ==> port in current && r.value[port] == current[port]
  {
    var pruned := current;
    var todo := current.Keys;
    while todo != {}
      invariant todo <= current.Keys
      invariant forall port :: port in current && port !in todo ==> !Corrupt(files, current[port].repo)
      invariant forall port :: port in pruned <==> port in current && (port in todo || Backed(files, current[port], port))
      invariant forall port :: port in pruned ==> pruned[port] == current[port]
    {
      SomePort(todo);
      var port :| port in todo;
      var active := CheckActive(files, current[port], port);
      if active.Err? { return Err(active.error); }
      if !active.value { pruned := pruned - {port}; }
      todo := todo - {port};
    }
    forall port { StillPublishedIsBacked(current, files, port); }
    r := Ok(pruned);
  }

  // ---------------------------------------------------------------------------------------------
  // The transaction
  // ---------------------------------------------------------------------------------------------

  class Registry {
    var file: Table

    constructor ()
      ensures file == map[]
    {
      file := map[];
    }
  }

  class ReservationTransaction {
    const registry: Registry
    var reservations: Table
    var active: bool
    var committed: bool

    constructor (registry: Registry, reservations: Table)
      ensures this.registry == registry && this.reservations == reservations && active && !committed
    {
      this.registry, this.reservations := registry, reservations;
      active, committed := true, false;
    }

    predicate IsOpen()
      reads this
    {
      active && !committed
    }

    /** Another assignment's reservation is never overwritten. */
    method Reserve(port: int, id: Id, repo: Repo) returns (ok: bool)
      modifies this`reservations
      ensures ok <==> IsOpen() && 1 <= port <= 65_535 && IsAbsolute(repo) &&
                      (port in old(reservations) ==> old(reservations)[port].id == id)
      ensures reservations == if ok then old(reservations)[port := Entry(id, repo)] else old(reservations)
    {
      if !IsOpen() || port < 1 || port > 65_535 || !IsAbsolute(repo) { return false; }
      if port in reservations && reservations[port].id != id { return false; }
      reservations := reservations[port := Entry(id, repo)];
      ok := true;
    }

    /** Removes every port fenced by the assignment; releasing twice changes nothing. */
    method Release(id: Id) returns (ok: bool)
      modifies this`reservations
      ensures ok <==> IsOpen()
      ensures reservations == if ok then WithoutAssignment(old(reservations), id) else old(reservations)
      ensures ok ==> WithoutAssignment(reservations, id) == reservations
    {
      if !IsOpen() { return false; }
      var todo := reservations.Keys;
      ghost var before := reservations;
      while todo != {}
        invariant todo <= before.Keys
        invariant reservations.Keys <= before.Keys
        invariant forall port :: port in before ==> (port in reservations <==> port in todo || before[port].id != id)
        invariant forall port :: port in reservations ==> reservations[port] == before[port]
      {
        SomePort(todo);
        var port :| port in todo;
        if port in reservations && reservations[port].id == id { reservations := reservations - {port}; }
        todo := todo - {port};
      }
      assert forall port :: port in reservations <==> port in WithoutAssignment(before, id);
      assert reservations.Keys == WithoutAssignment(before, id).Keys;
      assert forall port :: port in reservations ==> reservations[port] == WithoutAssignment(before, id)[port];
      assert WithoutAssignment(reservations, id) == reservations;
      ok := true;
    }

    /** Writes the registry once; a failed write leaves file and transaction as they were. */
    method Commit(written: bool) returns (ok: bool)
      modifies this`committed, registry
      ensures ok <==> old(IsOpen()) && written
      ensures committed == (old(committed) || ok)
      ensures registry.file == if ok then reservations else old(registry.file)
    {
      if !IsOpen() || !written { return false; }
      registry.file := reservations;
      committed := true;
      ok := true;
    }
  }

  /** The registry's own release: prune, drop the assignment's ports, commit. */
  method ReleasePorts(registry: Registry, files: Files, id: Id, written: bool) returns (ok: bool)
    modifies registry
    ensures ok <==> written && !exists port :: port in old(registry.file) && Corrupt(files, old(registry.file)[port].repo)
    ensures !ok ==> registry.file == old(registry.file)
    ensures ok ==> forall port :: port in registry.file <==>
                     StillPublished(old(registry.file), files, port) && old(registry.file)[port].id != id
    ensures ok ==> forall port :: port in registry.file ==> port in old(registry.file) && registry.file[port] == old(registry.file)[port]
  {
    var pruned := PruneInactive(registry.file, files);
    if pruned.Err? { return false; }
    var transaction := new ReservationTransaction(registry, pruned.value);
    var released := transaction.Release(id);
    ok := transaction.Commit(written);
    transaction.active := false;
  }

  // ---------------------------------------------------------------------------------------------
  // Allocation
  // ---------------------------------------------------------------------------------------------

  ghost predicate Occupied(ws: map<Path, Workspace>, port: int) {
    exists p, name :: p in ws && UsesPort(ws[p], name, port)
  }

  /** Every port some managed workspace publishes. */
  method PublishedPorts(ws: map<Path, Workspace>) returns (ports: set<int>)
    ensures forall port :: port in ports <==> Occupied(ws, port)
  {
    ports := {};
    var todo := ws.Keys;
    while todo != {}
      invariant todo <= ws.Keys
      invariant forall port :: port in ports <==> exists p, name :: p in ws && p !in todo && UsesPort(ws[p], name, port)
    {
      var p :| p in todo;
      if ws[p].assignment.Some? {
        var own := ws[p].assignment.value.ports;
        ghost var before := ports;
        ports := ports + own.Values;
        forall port ensures port in ports <==> port in before || exists name :: UsesPort(ws[p], name, port) {
          if port in own.Values {
            var name :| name in own && own[name] == port;
            assert UsesPort(ws[p], name, port);
          }
        }
      }
      todo := todo - {p};
    }
  }

  ghost predicate Allocated(names: seq<string>, ports: map<string, int>, reserved: Table, ws: map<Path, Workspace>) {
    && (forall name :: name in ports <==> name in names)
    && (forall name :: name in ports ==> 1 <= ports[name] <= 65_535 && ports[name] !in reserved && !Occupied(ws, ports[name]))
    && (forall x, y :: x in ports && y in ports && ports[x] == ports[y] ==> x == y)
  }

  /** Picks and reserves one free port for each name; whatever the finder answers, a port that is
      taken anywhere it must not be is refused. */
  method ReserveNames(transaction: ReservationTransaction, ws: map<Path, Workspace>, id: Id, repo: Repo,
                      names: seq<string>, find: set<int> -> Option<int>)
    returns (result: Option<map<string, int>>)
    requires forall i, j :: 0 <= i < j < |names| ==> names[i] != names[j]
    modifies transaction`reservations
    ensures result.Some? ==> Allocated(names, result.value, old(transaction.reservations), ws)
    ensures result.Some? ==> transaction.reservations == old(transaction.reservations) + Reservations(result.value, Entry(id, repo))
  {
    ghost var before := transaction.reservations;
    var published := PublishedPorts(ws);
    var excluded := transaction.reservations.Keys + published;
    var chosen: map<string, int> := map[];
    for i := 0 to |names|
      invariant Allocated(names[..i], chosen, before, ws)
      invariant excluded == before.Keys + published + chosen.Values
      invariant transaction.reservations == before + Reservations(chosen, Entry(id, repo))
    {
      var port := find(excluded);
      if port.None? || port.value < 1 || port.value > 65_535 || port.value in excluded { return None; }
      assert names[i] !in names[..i];
      OneMore(names[..i], chosen, before, ws, names[i], port.value, Entry(id, repo));
      chosen := chosen[names[i] := port.value];
      assert names[..i + 1] == names[..i] + [names[i]];
      excluded := excluded + {port.value};
      var reserved := transaction.Reserve(port.value, id, repo);
      if !reserved { return None; }
    }
    assert names[..|names|] == names;
    result := Some(chosen);
  }

  lemma AllocatedGrows(names: seq<string>, chosen: map<string, int>, reserved: Table, ws: map<Path, Workspace>, name: string, port: int)
    requires Allocated(names, chosen, reserved, ws) && name !in names
    requires 1 <= port <= 65_535 && port !in reserved && !Occupied(ws, port) && port !in chosen.Values
    ensures Allocated(names + [name], chosen[name := port], reserved, ws)
  {
  }

  lemma OneMore(names: seq<string>, chosen: map<string, int>, reserved: Table, ws: map<Path, Workspace>, name: string, port: int, entry: Entry)
    requires Allocated(names, chosen, reserved, ws) && name !in names
    requires 1 <= port <= 65_535 && port !in reserved && !Occupied(ws, port) && port !in chosen.Values
    ensures Allocated(names + [name], chosen[name := port], reserved, ws)
    ensures chosen[name := port].Values == chosen.Values + {port}
    ensures reserved + Reservations(chosen[name := port], entry) == (reserved + Reservations(chosen, entry))[port := entry]
  {
    AllocatedGrows(names, chosen, reserved, ws, name, port);
    ValuesGrow(chosen, name, port);
  }

  lemma ValuesGrow(m: map<string, int>, name: string, port: int)
    requires name !in m
    ensures m[name := port].Values == m.Values + {port}
  {
    forall v | v in m.Values ensures v in m[name := port].Values {
      var k :| k in m && m[k] == v;
      assert m[name := port][k] == v;
    }
    assert m[name := port][name] == port;
  }

  lemma AllocatedIsFree(names: seq<string>, ports: map<string, int>, reserved: Table, ws: map<Path, Workspace>)
    requires Allocated(names, ports, reserved, ws)
    ensures PortsFree(ws, ports)
  {
  }

  /** The state write that ends an allocation. */
  method PublishChosen(repository: Repository, p: Path, id: Id, names: seq<string>, ports: map<string, int>, ghost reserved: Table, env: Env)
    returns (ok: bool)
    requires repository.Valid() && Allocated(names, ports, reserved, repository.workspaces)
    requires Holder(repository.workspaces, id) == Some(p)
    modifies repository
    ensures repository.Valid()
    ensures ok ==> Follows(old(repository.Document()), For(id, PublishPorts(ports)), env, repository.Document(), None)
    ensures !ok ==> repository.Document() == old(repository.Document())
  {
    AllocatedIsFree(names, ports, reserved, repository.workspaces);
    var refusal := repository.Store(For(id, PublishPorts(ports)), p, Edited(repository.workspaces[p], PublishPorts(ports), env));
    ok := refusal.None?;
  }

  /** Registry first, then state: after success the registry holds the pruned table plus exactly the
      ports now published; after failure the document is untouched, and the registry either is too or
      holds reservations nothing publishes yet. */
  method Allocate(registry: Registry, repository: Repository, files: Files, id: Id, repo: Repo,
                  names: seq<string>, find: set<int> -> Option<int>, written: bool, env: Env)
    returns (ports: Option<map<string, int>>, ghost pruned: Table)
    requires repository.Valid()
    requires forall i, j :: 0 <= i < j < |names| ==> names[i] != names[j]
    modifies registry, repository
    ensures repository.Valid()
    ensures ports.Some? ==> Allocated(names, ports.value, pruned, old(repository.workspaces))
    ensures ports.Some? ==> registry.file == pruned + Reservations(ports.value, Entry(id, repo))
    ensures ports.Some? ==> Follows(old(repository.Document()), For(id, PublishPorts(ports.value)), env, repository.Document(), None)
    ensures ports.None? ==> repository.Document() == old(repository.Document())
    ensures ports.None? ==> registry.file == old(registry.file) || exists unpublished: map<string, int> ::
              Allocated(names, unpublished, pruned, old(repository.workspaces)) && registry.file == pruned + Reservations(unpublished, Entry(id, repo))
    ensures forall port :: port in pruned ==> StillPublished(old(registry.file), files, port) && pruned[port] == old(registry.file)[port]
    ensures ports.Some? ==> forall port :: StillPublished(old(registry.file), files, port) ==> port in pruned && port !in ports.value.Values
  {
    pruned := map[];
    var kept := PruneInactive(registry.file, files);
    if kept.Err? { return None, pruned; }
    pruned := kept.value;
    var transaction := new ReservationTransaction(registry, kept.value);
    var p := FindAssignment(repository.workspaces, id);
    if p.None? || !repository.workspaces[p.value].lifecycle.Assigned? { return None, pruned; }
    var chosen := ReserveNames(transaction, repository.workspaces, id, repo, names, find);
    if chosen.None? { return None, pruned; }
    var committed := transaction.Commit(written);
    if !committed { return None, pruned; }
    assert registry.file == pruned + Reservations(chosen.value, Entry(id, repo));
    var published := PublishChosen(repository, p.value, id, names, chosen.value, pruned, env);
    ports := if published then chosen else None;
  }
}
