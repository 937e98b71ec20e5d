/**
 One process's registry transaction is a run of the machine of PortIndex: what PortRegistry's methods
 leave behind, reading every repository's whole document, is what the machine's steps leave behind, so
 the index they keep is the one proved there.
 */
module PortRuns {
  import opened Common
  import opened RukState
  import opened Transitions
  import opened Lifecycle
  import opened Fences
  import opened PortIndex
  import StateStore
  import PortRegistry

  type Files = PortRegistry.Files

  /** The state files hold exactly the repositories' documents. */
  ghost predicate WholeDocuments(files: Files, repos: map<Repo, World>) {
    && files.Keys == repos.Keys
    && forall repo :: repo in repos ==> files[repo] == StateStore.Whole(repos[repo].state)
  }

  /** What the prune looks at is what the index is about, in every lifecycle. */
  lemma BackedIsActive(files: Files, repos: map<Repo, World>, entry: Entry, port: int)
    requires WholeDocuments(files, repos)
    ensures PortRegistry.Backed(files, entry, port) <==> Active(repos, entry, port)
  {
    if entry.repo in repos {
      var ws := repos[entry.repo].state.workspaces;
      assert files[entry.repo].state.workspaces == ws;
    }
  }

  /** The entries a prune of `todo` leaves. */
  ghost function Surviving(repos: map<Repo, World>, table: Table, todo: set<int>): Table {
    map port | port in table && (port in todo ==> Active(repos, table[port], port)) :: table[port]
  }

  /** The table the method returns is the one the machine's finished prune holds. */
  lemma PruneInactiveIsTheMachinesPrune(files: Files, repos: map<Repo, World>, table: Table, pruned: Table)
    requires WholeDocuments(files, repos)
    requires forall port :: port in pruned <==> PortRegistry.StillPublished(table, files, port)
    requires forall port :: port in pruned ==> port in table && pruned[port] == table[port]
    ensures pruned == Surviving(repos, table, table.Keys)
  {
    var surviving := Surviving(repos, table, table.Keys);
    forall port ensures port in pruned <==> port in surviving {
      PortRegistry.StillPublishedIsBacked(table, files, port);
      if port in table { BackedIsActive(files, repos, table[port], port); }
    }
    assert forall port :: port in pruned ==> pruned[port] == surviving[port];
  }

  // ---------------------------------------------------------------------------------------------
  // Runs, one step longer at a time
  // ---------------------------------------------------------------------------------------------

  lemma {:induction false} RunsJoin(s: System, first: seq<Action>, second: seq<Action>)
    requires PortIndex.CanRun(s, first) && PortIndex.CanRun(PortIndex.Run(s, first), second)
    ensures PortIndex.CanRun(s, first + second)
    ensures PortIndex.Run(s, first + second) == PortIndex.Run(PortIndex.Run(s, first), second)
    decreases first
  {
    if first == [] {
      assert first + second == second;
    } else {
      assert (first + second)[1..] == first[1..] + second;
      RunsJoin(Next(s, first[0]), first[1..], second);
    }
  }

  ghost predicate Leads(s: System, acts: seq<Action>, t: System) { PortIndex.CanRun(s, acts) && PortIndex.Run(s, acts) == t }

  lemma Longer(s: System, acts: seq<Action>, mid: System, act: Action) returns (longer: seq<Action>, next: System)
    requires Leads(s, acts, mid) && Enabled(mid, act)
    ensures longer == acts + [act] && next == Next(mid, act) && Leads(s, longer, next)
  {
    longer, next := acts + [act], Next(mid, act);
    assert [act][1..] == [];
    assert PortIndex.Run(next, [act][1..]) == next;
    assert PortIndex.CanRun(mid, [act]);
    RunsJoin(s, acts, [act]);
  }

  lemma SurvivingStep(s: System, table: Table, todo: set<int>, port: int)
    requires port in todo
    ensures Surviving(s.repos, Pruned(s, table, port), todo - {port}) == Surviving(s.repos, table, todo)
  {
  }

  /** The prune, entry by entry, with nobody else at work. */
  lemma {:induction false} PrunesAll(s: System, acts: seq<Action>, mid: System, a: nat) returns (longer: seq<Action>, next: System)
    requires Leads(s, acts, mid) && a in mid.agents && mid.agents[a].Pruning?
    ensures Leads(s, longer, next)
    ensures var stage := mid.agents[a];
            next == mid.(agents := mid.agents[a := Pruning(stage.request, Surviving(mid.repos, stage.table, stage.todo), {})])
    decreases |mid.agents[a].todo|
  {
    var stage := mid.agents[a];
    if stage.todo == {} {
      assert Surviving(mid.repos, stage.table, {}) == stage.table;
      assert mid.agents[a := stage] == mid.agents;
      longer, next := acts, mid;
    } else {
      PortRegistry.SomePort(stage.todo);
      var port :| port in stage.todo;
      longer, next := Longer(s, acts, mid, PruneOne(a, port));
      SurvivingStep(mid, stage.table, stage.todo, port);
      var between := next;
      longer, next := PrunesAll(s, longer, between, a);
    }
  }

  /** An agent that finds the registry lock free gets the pruned table. */
  lemma OpensPruned(s: System, a: nat, request: Request) returns (acts: seq<Action>, next: System)
    requires a !in s.agents && RegistryFree(s)
    requires if request.Allocating? then request.repo in s.repos else Retired(s.repos, request.id)
    ensures Leads(s, acts, next)
    ensures next == s.(agents := s.agents[a := Open(request, Surviving(s.repos, s.registry, s.registry.Keys))])
  {
    assert Leads(s, [], s);
    acts, next := Longer(s, [], s, Ask(a, request));
    acts, next := Longer(s, acts, next, TakeRegistry(a));
    acts, next := PrunesAll(s, acts, next, a);
    acts, next := Longer(s, acts, next, Opened(a));
  }

  /** With the state lock free as well, nothing stops an allocation from there on. */
  lemma Concludes(s: System, acts: seq<Action>, mid: System, a: nat, request: Request, table: Table, ports: map<string, int>, env: Env)
    returns (longer: seq<Action>, next: System)
    requires Leads(s, acts, mid) && a in mid.agents && mid.agents[a] == Open(request, table)
    requires request.Allocating? && request.repo in mid.repos && StateFree(mid, request.repo) && FreshEverywhere(mid.repos, env)
    requires CanChoose(mid.repos[request.repo], table, request.names, ports)
    ensures Leads(s, longer, next)
    ensures next.repos == mid.repos[request.repo := Step(mid.repos[request.repo], For(request.id, PublishPorts(ports)), env)]
    ensures next.registry == table + Reservations(ports, Entry(request.id, request.repo)) && next.agents == mid.agents - {a}
  {
    longer, next := Longer(s, acts, mid, TakeState(a));
    longer, next := Longer(s, longer, next, Choose(a, ports));
    longer, next := Longer(s, longer, next, CommitReservations(a));
    longer, next := Longer(s, longer, next, Publish(a, env));
  }

  lemma OpenHoldsNoState(s: System, mid: System, a: nat, request: Request, table: Table, repo: Repo)
    requires a !in s.agents && StateFree(s, repo) && mid == s.(agents := s.agents[a := Open(request, table)])
    ensures StateFree(mid, repo) && mid.agents - {a} == s.agents
  {
  }

  lemma AllocatedCanBeChosen(world: World, names: seq<string>, ports: map<string, int>, table: Table)
    requires PortRegistry.Allocated(names, ports, table, world.state.workspaces)
    ensures CanChoose(world, table, (set name | name in names), ports)
  {
    PortRegistry.AllocatedIsFree(names, ports, table, world.state.workspaces);
    assert ports.Keys == (set name | name in names);
  }

  /** What an allocation that succeeded has done, as PortRegistry.Allocate states it. */
  ghost predicate AllocatedHere(s: System, files: Files, repo: Repo, id: Id, names: seq<string>, ports: map<string, int>, pruned: Table) {
    && repo in s.repos && WholeDocuments(files, s.repos)
    && (forall port :: port in pruned <==> PortRegistry.StillPublished(s.registry, files, port))
    && (forall port :: port in pruned ==> port in s.registry && pruned[port] == s.registry[port])
    && PortRegistry.Allocated(names, ports, pruned, s.repos[repo].state.workspaces)
  }

  /** A successful PortRegistry.Allocate is a run of the machine: from the registry and the documents it
      found to the registry and the document it left. */
  lemma AllocationIsARun(s: System, a: nat, files: Files, repo: Repo, id: Id, names: seq<string>, ports: map<string, int>, pruned: Table, env: Env)
    returns (acts: seq<Action>, next: System)
    requires a !in s.agents && RegistryFree(s) && StateFree(s, repo) && FreshEverywhere(s.repos, env)
    requires AllocatedHere(s, files, repo, id, names, ports, pruned)
    ensures Leads(s, acts, next)
    ensures next == s.(repos := s.repos[repo := Step(s.repos[repo], For(id, PublishPorts(ports)), env)],
                       registry := pruned + Reservations(ports, Entry(id, repo)))
  {
    var request := Allocating(repo, id, set name | name in names);
    PruneInactiveIsTheMachinesPrune(files, s.repos, s.registry, pruned);
    var mid;
    acts, mid := OpensPruned(s, a, request);
    AllocatedCanBeChosen(s.repos[repo], names, ports, pruned);
    OpenHoldsNoState(s, mid, a, request, pruned, repo);
    acts, next := Concludes(s, acts, mid, a, request, pruned, ports, env);
  }

  lemma SameWithout(table: Table, pruned: Table, file: Table, id: Id)
    requires forall port :: port in pruned ==> port in table && pruned[port] == table[port]
    requires forall port :: port in file <==> port in pruned && table[port].id != id
    requires forall port :: port in file ==> file[port] == table[port]
    ensures file == WithoutAssignment(pruned, id)
  {
    var kept := WithoutAssignment(pruned, id);
    forall port ensures port in file <==> port in kept {}
    assert forall port :: port in file ==> file[port] == kept[port];
  }

  /** And so is PortRegistry.ReleasePorts for an assignment that has left its repository. */
  lemma ReleaseIsARun(s: System, a: nat, files: Files, id: Id, pruned: Table, file: Table) returns (acts: seq<Action>, next: System)
    requires a !in s.agents && RegistryFree(s) && Retired(s.repos, id) && WholeDocuments(files, s.repos)
    requires forall port :: port in pruned <==> PortRegistry.StillPublished(s.registry, files, port)
    requires forall port :: port in pruned ==> port in s.registry && pruned[port] == s.registry[port]
    requires forall port :: port in file <==> port in pruned && s.registry[port].id != id
    requires forall port :: port in file ==> file[port] == s.registry[port]
    ensures Leads(s, acts, next) && next == s.(registry := file)
  {
    PruneInactiveIsTheMachinesPrune(files, s.repos, s.registry, pruned);
    acts, next := OpensPruned(s, a, Releasing(id));
    acts, next := Longer(s, acts, next, CommitRelease(a));
    SameWithout(s.registry, pruned, file, id);
    assert next.agents == s.agents;
  }

  lemma PublishedSurvives(repos: map<Repo, World>, table: Table, repo: Repo, id: Id, port: int)
    requires Indexed(repos, table) && repo in repos && Uses(repos[repo], id, port)
    ensures port in Surviving(repos, table, table.Keys)
  {
    assert table[port] == Entry(id, repo) && Active(repos, table[port], port);
  }

  lemma AllocatedIsNew(names: seq<string>, ports: map<string, int>, table: Table, ws: map<Path, Workspace>, port: int)
    requires PortRegistry.Allocated(names, ports, table, ws) && port in table
    ensures port !in ports.Values
  {
  }

  /** So on a host whose index agrees, with every other repository publishing what it may, an allocation
      leaves the index in agreement: what is published here is nobody else's. */
  lemma AllocationKeepsIndex(s: System, a: nat, files: Files, repo: Repo, id: Id, names: seq<string>, ports: map<string, int>, pruned: Table, env: Env)
    requires Inv(s) && a !in s.agents && RegistryFree(s) && StateFree(s, repo) && FreshEverywhere(s.repos, env)
    requires AllocatedHere(s, files, repo, id, names, ports, pruned)
    ensures Indexed(s.repos[repo := Step(s.repos[repo], For(id, PublishPorts(ports)), env)], pruned + Reservations(ports, Entry(id, repo)))
    ensures forall other, holder, port :: other in s.repos && Uses(s.repos[other], holder, port) ==> port !in ports.Values
  {
    var acts, next := AllocationIsARun(s, a, files, repo, id, names, ports, pruned, env);
    RunKeepsInv(s, acts);
    PruneInactiveIsTheMachinesPrune(files, s.repos, s.registry, pruned);
    forall other, holder, port | other in s.repos && Uses(s.repos[other], holder, port) ensures port !in ports.Values {
      PublishedSurvives(s.repos, s.registry, other, holder, port);
      AllocatedIsNew(names, ports, pruned, s.repos[repo].state.workspaces, port);
    }
  }
}
