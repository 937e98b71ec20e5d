/**
 The host-wide port registry as an index over many repositories' states (internal/ports/registry.go,
 internal/ports/allocation.go, and the release in internal/lifecycle/release_service.go:200-208).

 Commands of any number of repositories run side by side and may crash between any two steps. A
 registry transaction holds the registry lock from its read to its commit; an allocation also holds
 its repository's state lock from the choice of ports to their publication. Everything else that
 happens to a repository's state is an arbitrary lifecycle call.
 */
module PortIndex {
  import opened Common
  import opened RukState
  import opened Transitions
  import opened Lifecycle
  import opened Fences
  import opened Ownership

  /** A repository is known by the path of its state file. */
  type Repo = string

  datatype Entry = Entry(id: Id, repo: Repo)

  type Table = map<int, Entry>

  datatype Request = Allocating(repo: Repo, id: Id, names: set<string>) | Releasing(id: Id)

  datatype Stage =
    | Waiting(request: Request)
    | Pruning(request: Request, table: Table, todo: set<int>)
    | Open(request: Request, table: Table)
    | Locked(request: Request, table: Table)
    | Chosen(request: Request, table: Table, ports: map<string, int>)
    | Committed(request: Request, ports: map<string, int>)

  datatype System = System(repos: map<Repo, World>, registry: Table, agents: map<nat, Stage>)

  predicate HoldsRegistry(stage: Stage) { !stage.Waiting? }

  predicate HoldsState(stage: Stage, repo: Repo) {
    (stage.Locked? || stage.Chosen? || stage.Committed?) && stage.request.Allocating? && stage.request.repo == repo
  }

  ghost predicate Uses(world: World, id: Id, port: int) {
    exists p, name :: p in world.state.workspaces && world.state.workspaces[p].Carries(id) && UsesPort(world.state.workspaces[p], name, port)
  }

  /** What the prune asks of one entry: a missing state file backs nothing. */
  ghost predicate Active(repos: map<Repo, World>, entry: Entry, port: int) {
    entry.repo in repos && Uses(repos[entry.repo], entry.id, port)
  }

  function Reservations(ports: map<string, int>, entry: Entry): Table { map port | port in ports.Values :: entry }

  function WithoutAssignment(table: Table, id: Id): Table { map port | port in table && table[port].id != id :: table[port] }

  /** An assignment that was published once and has left its repository. */
  ghost predicate Retired(repos: map<Repo, World>, id: Id) {
    exists repo :: repo in repos && id in repos[repo].used && !Present(repos[repo], id)
  }

  /** Identifiers are fresh on the whole host. */
  ghost predicate FreshEverywhere(repos: map<Repo, World>, env: Env) {
    forall repo :: repo in repos ==> FreshIds(repos[repo], env)
  }

  datatype Action =
    | AddRepo(repo: Repo)
    | Update(repo: Repo, command: Command, env: Env)
    | Ask(a: nat, request: Request)
    | TakeRegistry(a: nat)
    | PruneOne(a: nat, port: int)
    | Opened(a: nat)
    | CommitRelease(a: nat)
    | TakeState(a: nat)
    | Choose(a: nat, ports: map<string, int>)
    | CommitReservations(a: nat)
    | Publish(a: nat, env: Env)
    | Stop(a: nat)

  /** The allocator refuses a probed port that is reserved by anyone, already used in its own
      repository, out of range, or given to another name. */
  ghost predicate CanChoose(world: World, table: Table, names: set<string>, ports: map<string, int>) {
    && ports.Keys == names
    && (forall name :: name in ports ==> 1 <= ports[name] <= 65_535 && ports[name] !in table)
    && PortsFree(world.state.workspaces, ports)
  }

  ghost predicate RegistryFree(s: System) { forall a :: a in s.agents ==> !HoldsRegistry(s.agents[a]) }

  ghost predicate StateFree(s: System, repo: Repo) { forall a :: a in s.agents ==> !HoldsState(s.agents[a], repo) }

  /** Crashing and failing look the same from outside: the locks go, the files stay. */
  ghost predicate Enabled(s: System, act: Action) {
    match act
    case AddRepo(repo) => repo !in s.repos
    case Update(repo, c, env) =>
      && repo in s.repos && StateFree(s, repo) && FreshEverywhere(s.repos, env) && Licensed(s.repos[repo], c)
      && !(c.For? && c.edit.PublishPorts?)
    case Ask(a, request) => a !in s.agents && (if request.Allocating? then request.repo in s.repos else Retired(s.repos, request.id))
    case TakeRegistry(a) => a in s.agents && s.agents[a].Waiting? && RegistryFree(s)
    case PruneOne(a, port) => a in s.agents && s.agents[a].Pruning? && port in s.agents[a].todo
    case Opened(a) => a in s.agents && s.agents[a].Pruning? && s.agents[a].todo == {}
    case CommitRelease(a) => a in s.agents && s.agents[a].Open? && s.agents[a].request.Releasing?
    case TakeState(a) =>
      a in s.agents && s.agents[a].Open? && s.agents[a].request.Allocating? && StateFree(s, s.agents[a].request.repo)
    case Choose(a, ports) =>
      && a in s.agents && s.agents[a].Locked? && s.agents[a].request.Allocating? && s.agents[a].request.repo in s.repos
      && CanChoose(s.repos[s.agents[a].request.repo], s.agents[a].table, s.agents[a].request.names, ports)
    case CommitReservations(a) => a in s.agents && s.agents[a].Chosen?
    case Publish(a, env) =>
      && a in s.agents && s.agents[a].Committed? && s.agents[a].request.Allocating? && s.agents[a].request.repo in s.repos
      && FreshEverywhere(s.repos, env)
    case Stop(a) => a in s.agents
  }

  ghost function Pruned(s: System, table: Table, port: int): Table {
    if port in table && !Active(s.repos, table[port], port) then table - {port} else table
  }

  ghost function Next(s: System, act: Action): System
    requires Enabled(s, act)
  {
    match act
    case AddRepo(repo) => s.(repos := s.repos[repo := FIRST_WORLD])
    case Update(repo, c, env) => s.(repos := s.repos[repo := Step(s.repos[repo], c, env)])
    case Ask(a, request) => s.(agents := s.agents[a := Waiting(request)])
    case TakeRegistry(a) => s.(agents := s.agents[a := Pruning(s.agents[a].request, s.registry, s.registry.Keys)])
    case PruneOne(a, port) =>
      var stage := s.agents[a];
      s.(agents := s.agents[a := Pruning(stage.request, Pruned(s, stage.table, port), stage.todo - {port})])
    case Opened(a) => s.(agents := s.agents[a := Open(s.agents[a].request, s.agents[a].table)])
    case CommitRelease(a) =>
      s.(registry := WithoutAssignment(s.agents[a].table, s.agents[a].request.id), agents := s.agents - {a})
    case TakeState(a) => s.(agents := s.agents[a := Locked(s.agents[a].request, s.agents[a].table)])
    case Choose(a, ports) =>
      var stage := s.agents[a];
      var entry := Entry(stage.request.id, stage.request.repo);
      s.(agents := s.agents[a := Chosen(stage.request, stage.table + Reservations(ports, entry), ports)])
    case CommitReservations(a) =>
      s.(registry := s.agents[a].table, agents := s.agents[a := Committed(s.agents[a].request, s.agents[a].ports)])
    case Publish(a, env) =>
      var stage := s.agents[a];
      var repo := stage.request.repo;
      s.(repos := s.repos[repo := Step(s.repos[repo], For(stage.request.id, PublishPorts(stage.ports)), env)],
         agents := s.agents - {a})
    case Stop(a) => s.(agents := s.agents - {a})
  }

  const FIRST_SYSTEM := System(map[], map[], map[])

  // ---------------------------------------------------------------------------------------------
  // The invariant
  // ---------------------------------------------------------------------------------------------

  /** The index agrees with the truth it speeds up: every published port is entered, for exactly its
      assignment and repository. */
  ghost predicate Indexed(repos: map<Repo, World>, table: Table) {
    forall repo, id, port :: repo in repos && Uses(repos[repo], id, port) ==> port in table && table[port] == Entry(id, repo)
  }

  ghost predicate ReposOk(repos: map<Repo, World>) {
    && (forall repo :: repo in repos ==> WorldOk(repos[repo]))
    && (forall q, r :: q in repos && r in repos && q != r ==> repos[q].used !! repos[r].used)
  }

  /** The ports an allocation is about to publish are entered for it. */
  predicate EnteredFor(table: Table, request: Request, ports: map<string, int>) {
    request.Allocating? &&
    forall name :: name in ports ==> ports[name] in table && table[ports[name]] == Entry(request.id, request.repo)
  }

  ghost predicate StageOk(s: System, stage: Stage) {
    && (stage.request.Releasing? ==> Retired(s.repos, stage.request.id))
    && (stage.Pruning? || stage.Open? || stage.Locked? || stage.Chosen? ==> Indexed(s.repos, stage.table))
    && (stage.Chosen? ==> EnteredFor(stage.table, stage.request, stage.ports))
    && (stage.Committed? ==> EnteredFor(s.registry, stage.request, stage.ports))
  }

  ghost predicate OneTransaction(s: System) {
    forall a, b :: a in s.agents && b in s.agents && HoldsRegistry(s.agents[a]) && HoldsRegistry(s.agents[b]) ==> a == b
  }

  ghost predicate Inv(s: System) {
    && ReposOk(s.repos) && Indexed(s.repos, s.registry) && OneTransaction(s)
    && forall a :: a in s.agents ==> StageOk(s, s.agents[a])
  }

  /** No two assignments on the host publish the same port, and no assignment publishes it twice. */
  lemma PortsAreUniqueOnTheHost(s: System, q: Repo, r: Repo, p: Path, p': Path, name: string, name': string, port: int)
    requires Inv(s) && q in s.repos && r in s.repos
    requires p in s.repos[q].state.workspaces && UsesPort(s.repos[q].state.workspaces[p], name, port)
    requires p' in s.repos[r].state.workspaces && UsesPort(s.repos[r].state.workspaces[p'], name', port)
    ensures q == r && p == p' && name == name'
  {
    var w, w' := s.repos[q].state.workspaces[p], s.repos[r].state.workspaces[p'];
    assert Uses(s.repos[q], w.assignment.value.id, port);
    assert Uses(s.repos[r], w'.assignment.value.id, port);
    assert s.registry[port] == Entry(w.assignment.value.id, q) == Entry(w'.assignment.value.id, r);
    assert WorldOk(s.repos[q]);
  }

  // ---------------------------------------------------------------------------------------------
  // Every step keeps it
  // ---------------------------------------------------------------------------------------------

  lemma KeptRecordPublishesNothing(world: World, c: Command, env: Env, p: Path, id: Id, name: string, port: int)
    requires WorldOk(world) && FreshIds(world, env) && !(c.For? && c.edit.PublishPorts?) && p in world.state.workspaces
    requires var ws' := Step(world, c, env).state.workspaces; p in ws' && ws'[p].Carries(id) && UsesPort(ws'[p], name, port)
    ensures world.state.workspaces[p].Carries(id) && UsesPort(world.state.workspaces[p], name, port)
  {
    RecordStep(world, c, env, p);
    if Step(world, c, env).state.workspaces[p] != world.state.workspaces[p] {
      EditAssignment(world.state.workspaces[p], EditOf(c).value, env);
    }
  }

  /** Whatever a lifecycle call does, a repository publishes no port it did not publish before. */
  lemma UpdatesPublishNothing(world: World, c: Command, env: Env, id: Id, port: int)
    requires WorldOk(world) && FreshIds(world, env) && !(c.For? && c.edit.PublishPorts?)
    requires Uses(Step(world, c, env), id, port)
    ensures Uses(world, id, port)
  {
    var ws, ws' := world.state.workspaces, Step(world, c, env).state.workspaces;
    var p, name :| p in ws' && ws'[p].Carries(id) && UsesPort(ws'[p], name, port);
    if p in ws {
      KeptRecordPublishesNothing(world, c, env, p, id, name, port);
    } else {
      DecisionShape(ws, c, env);
    }
  }

  /** Publishing gives the assignment the chosen ports and leaves every other one its own. */
  lemma PublishingGivesTheChosen(world: World, id: Id, ports: map<string, int>, env: Env, other: Id, port: int)
    requires WorldOk(world) && FreshIds(world, env)
    requires Uses(Step(world, For(id, PublishPorts(ports)), env), other, port)
    ensures Uses(world, other, port) || (other == id && port in ports.Values)
  {
    var c := For(id, PublishPorts(ports));
    var ws, ws' := world.state.workspaces, Step(world, c, env).state.workspaces;
    var p, name :| p in ws' && ws'[p].Carries(other) && UsesPort(ws'[p], name, port);
    if p in ws {
      RecordStep(world, c, env, p);
      if ws'[p] == ws[p] {
        assert ws[p].Carries(other) && UsesPort(ws[p], name, port);
      } else {
        EditIdentifiers(ws[p], PublishPorts(ports), env);
        assert port == ports[name];
      }
    } else {
      DecisionShape(ws, c, env);
    }
  }

  lemma StepDraws(world: World, c: Command, env: Env)
    ensures Step(world, c, env).used == world.used + {env.first, env.second}
  {
  }

  lemma StepKeepsRepos(repos: map<Repo, World>, repo: Repo, c: Command, env: Env)
    requires ReposOk(repos) && repo in repos && FreshEverywhere(repos, env) && Licensed(repos[repo], c)
    ensures ReposOk(repos[repo := Step(repos[repo], c, env)])
  {
    StepKeepsWorldOk(repos[repo], c, env);
    StepDraws(repos[repo], c, env);
  }

  lemma RetiredStays(repos: map<Repo, World>, repo: Repo, c: Command, env: Env, id: Id)
    requires ReposOk(repos) && repo in repos && FreshEverywhere(repos, env) && Retired(repos, id)
    ensures Retired(repos[repo := Step(repos[repo], c, env)], id)
  {
    var home :| home in repos && id in repos[home].used && !Present(repos[home], id);
    var repos' := repos[repo := Step(repos[repo], c, env)];
    if home == repo {
      GoneStep(repos[repo], c, env, id);
      StepDraws(repos[repo], c, env);
    }
    assert home in repos' && id in repos'[home].used && !Present(repos'[home], id);
  }

  lemma IndexSurvivesUpdate(repos: map<Repo, World>, table: Table, repo: Repo, c: Command, env: Env)
    requires ReposOk(repos) && Indexed(repos, table) && repo in repos && FreshEverywhere(repos, env)
    requires !(c.For? && c.edit.PublishPorts?)
    ensures Indexed(repos[repo := Step(repos[repo], c, env)], table)
  {
    var repos' := repos[repo := Step(repos[repo], c, env)];
    forall r, id, port | r in repos' && Uses(repos'[r], id, port) ensures port in table && table[port] == Entry(id, r) {
      if r == repo { UpdatesPublishNothing(repos[repo], c, env, id, port); }
      assert Uses(repos[r], id, port);
    }
  }

  lemma IndexSurvivesPublication(repos: map<Repo, World>, table: Table, request: Request, ports: map<string, int>, env: Env)
    requires ReposOk(repos) && Indexed(repos, table) && FreshEverywhere(repos, env)
    requires EnteredFor(table, request, ports) && request.repo in repos
    ensures Indexed(repos[request.repo := Step(repos[request.repo], For(request.id, PublishPorts(ports)), env)], table)
  {
    var repo := request.repo;
    var repos' := repos[repo := Step(repos[repo], For(request.id, PublishPorts(ports)), env)];
    forall r, id, port | r in repos' && Uses(repos'[r], id, port) ensures port in table && table[port] == Entry(id, r) {
      if r == repo { PublishingGivesTheChosen(repos[repo], request.id, ports, env, id, port); }
      if Uses(repos[r], id, port) {
      } else {
        var name :| name in ports && ports[name] == port;
      }
    }
  }

  lemma PruningKeepsIndex(s: System, table: Table, port: int)
    requires Indexed(s.repos, table)
    ensures Indexed(s.repos, Pruned(s, table, port))
  {
  }

  lemma ReservingKeepsIndex(repos: map<Repo, World>, table: Table, ports: map<string, int>, entry: Entry)
    requires Indexed(repos, table) && forall name :: name in ports ==> ports[name] !in table
    ensures Indexed(repos, table + Reservations(ports, entry))
  {
    forall r, id, port | r in repos && Uses(repos[r], id, port)
      ensures port in table + Reservations(ports, entry) && (table + Reservations(ports, entry))[port] == Entry(id, r)
    {
      assert port in table;
      assert port !in ports.Values;
    }
  }

  /** A retired assignment publishes nothing anywhere, so dropping its entries drops no other's. */
  lemma ReleasingKeepsIndex(repos: map<Repo, World>, table: Table, id: Id)
    requires ReposOk(repos) && Indexed(repos, table) && Retired(repos, id)
    ensures Indexed(repos, WithoutAssignment(table, id))
  {
    var home :| home in repos && id in repos[home].used && !Present(repos[home], id);
    forall r, other, port | r in repos && Uses(repos[r], other, port)
      ensures port in WithoutAssignment(table, id) && WithoutAssignment(table, id)[port] == Entry(other, r)
    {
      assert table[port] == Entry(other, r);
      assert Present(repos[r], other);
      assert WorldOk(repos[r]);
      if other == id { assert r != home; assert id in repos[r].used; }
    }
  }

  /** One update of one repository, seen by the commands it does not belong to. */
  lemma UpdateKeepsStage(s: System, repos': map<Repo, World>, repo: Repo, c: Command, env: Env, stage: Stage)
    requires ReposOk(s.repos) && repo in s.repos && FreshEverywhere(s.repos, env) && StageOk(s, stage)
    requires !(c.For? && c.edit.PublishPorts?)
    requires repos' == s.repos[repo := Step(s.repos[repo], c, env)]
    ensures StageOk(s.(repos := repos'), stage)
  {
    if stage.request.Releasing? { RetiredStays(s.repos, repo, c, env, stage.request.id); }
    if stage.Pruning? || stage.Open? || stage.Locked? || stage.Chosen? { IndexSurvivesUpdate(s.repos, stage.table, repo, c, env); }
  }

  lemma StageDependsOn(s: System, t: System, stage: Stage)
    requires StageOk(s, stage) && s.repos == t.repos && (stage.Committed? ==> s.registry == t.registry)
    ensures StageOk(t, stage)
  {
  }

  lemma UpdateKeepsInv(s: System, repo: Repo, c: Command, env: Env)
    requires Inv(s) && Enabled(s, Update(repo, c, env))
    ensures Inv(Next(s, Update(repo, c, env)))
  {
    var s' := Next(s, Update(repo, c, env));
    StepKeepsRepos(s.repos, repo, c, env);
    IndexSurvivesUpdate(s.repos, s.registry, repo, c, env);
    forall a | a in s'.agents ensures StageOk(s', s'.agents[a]) {
      UpdateKeepsStage(s, s'.repos, repo, c, env, s.agents[a]);
    }
  }

  /** A new repository publishes nothing. */
  lemma NewRepoIsIndexed(repos: map<Repo, World>, repo: Repo, table: Table)
    requires repo !in repos && Indexed(repos, table)
    ensures Indexed(repos[repo := FIRST_WORLD], table)
  {
    var repos' := repos[repo := FIRST_WORLD];
    forall r, id, port | r in repos' && Uses(repos'[r], id, port) ensures r in repos && Uses(repos[r], id, port) {}
  }

  lemma NewRepoKeepsRetired(repos: map<Repo, World>, repo: Repo, id: Id)
    requires repo !in repos && Retired(repos, id)
    ensures Retired(repos[repo := FIRST_WORLD], id)
  {
    var home :| home in repos && id in repos[home].used && !Present(repos[home], id);
    var repos' := repos[repo := FIRST_WORLD];
    assert home in repos' && id in repos'[home].used && !Present(repos'[home], id);
  }

  lemma NewRepoKeepsStage(s: System, repo: Repo, stage: Stage)
    requires repo !in s.repos && StageOk(s, stage)
    ensures StageOk(s.(repos := s.repos[repo := FIRST_WORLD]), stage)
  {
    if stage.request.Releasing? { NewRepoKeepsRetired(s.repos, repo, stage.request.id); }
    if stage.Pruning? || stage.Open? || stage.Locked? || stage.Chosen? { NewRepoIsIndexed(s.repos, repo, stage.table); }
  }

  lemma NewRepoKeepsInv(s: System, repo: Repo)
    requires Inv(s) && Enabled(s, AddRepo(repo))
    ensures Inv(Next(s, AddRepo(repo)))
  {
    FirstWorldOk();
    NewRepoIsIndexed(s.repos, repo, s.registry);
    forall a | a in s.agents ensures StageOk(s.(repos := s.repos[repo := FIRST_WORLD]), s.agents[a]) {
      NewRepoKeepsStage(s, repo, s.agents[a]);
    }
  }

  predicate Private(act: Action) {
    act.Ask? || act.TakeRegistry? || act.PruneOne? || act.Opened? || act.TakeState? || act.Choose? || act.Stop?
  }

  lemma PrivateStageOk(s: System, act: Action)
    requires Inv(s) && Enabled(s, act) && Private(act) && act.a in Next(s, act).agents
    ensures StageOk(Next(s, act), Next(s, act).agents[act.a])
  {
    if act.a in s.agents { assert StageOk(s, s.agents[act.a]); }
    if act.PruneOne? {
      PruningKeepsIndex(s, s.agents[act.a].table, act.port);
    } else if act.Choose? {
      var stage := s.agents[act.a];
      ReservingKeepsIndex(s.repos, stage.table, act.ports, Entry(stage.request.id, stage.request.repo));
    }
  }

  lemma PrivateStepKeepsOneTransaction(s: System, act: Action)
    requires OneTransaction(s) && Enabled(s, act) && Private(act)
    ensures OneTransaction(Next(s, act))
  {
  }

  lemma PrivateStepMoves(s: System, act: Action)
    requires Enabled(s, act) && Private(act)
    ensures Next(s, act).repos == s.repos && Next(s, act).registry == s.registry
    ensures forall a :: a in Next(s, act).agents && a != act.a ==> a in s.agents && Next(s, act).agents[a] == s.agents[a]
  {
  }

  /** The steps of a transaction that write no file. */
  lemma PrivateStepKeepsInv(s: System, act: Action, s': System)
    requires Inv(s) && Enabled(s, act) && Private(act) && s' == Next(s, act)
    ensures Inv(s')
  {
    PrivateStepMoves(s, act);
    PrivateStepKeepsOneTransaction(s, act);
    if act.a in s'.agents { PrivateStageOk(s, act); }
    forall a | a in s'.agents ensures StageOk(s', s'.agents[a]) {
      if a != act.a { StageDependsOn(s, s', s.agents[a]); }
    }
  }

  /** Only the transaction in progress has committed entries to look after. */
  lemma CommitKeepsInv(s: System, act: Action)
    requires Inv(s) && Enabled(s, act) && (act.CommitRelease? || act.CommitReservations?)
    ensures Inv(Next(s, act))
  {
    var s' := Next(s, act);
    assert StageOk(s, s.agents[act.a]);
    if act.CommitRelease? { ReleasingKeepsIndex(s.repos, s.agents[act.a].table, s.agents[act.a].request.id); }
    forall a | a in s'.agents ensures StageOk(s', s'.agents[a]) {
      if a != act.a {
        assert !HoldsRegistry(s.agents[a]);
        StageDependsOn(s, s', s.agents[a]);
      }
    }
  }

  lemma PublicationKeepsStage(s: System, s': System, stage: Stage, repo: Repo, c: Command, env: Env)
    requires ReposOk(s.repos) && repo in s.repos && FreshEverywhere(s.repos, env) && StageOk(s, stage) && stage.Waiting?
    requires s'.repos == s.repos[repo := Step(s.repos[repo], c, env)]
    ensures StageOk(s', stage)
  {
    if stage.request.Releasing? { RetiredStays(s.repos, repo, c, env, stage.request.id); }
  }

  lemma PublishKeepsInv(s: System, a: nat, env: Env)
    requires Inv(s) && Enabled(s, Publish(a, env))
    ensures Inv(Next(s, Publish(a, env)))
  {
    var s' := Next(s, Publish(a, env));
    var stage := s.agents[a];
    assert StageOk(s, stage);
    var c := For(stage.request.id, PublishPorts(stage.ports));
    StepKeepsRepos(s.repos, stage.request.repo, c, env);
    IndexSurvivesPublication(s.repos, s.registry, stage.request, stage.ports, env);
    forall b | b in s'.agents ensures StageOk(s', s'.agents[b]) {
      assert !HoldsRegistry(s.agents[b]);
      PublicationKeepsStage(s, s', s.agents[b], stage.request.repo, c, env);
    }
  }

  lemma StepKeepsInv(s: System, act: Action)
    requires Inv(s) && Enabled(s, act)
    ensures Inv(Next(s, act))
  {
    match act
    case AddRepo(repo) => NewRepoKeepsInv(s, repo);
    case Update(repo, c, env) => UpdateKeepsInv(s, repo, c, env);
    case CommitRelease(_) => CommitKeepsInv(s, act);
    case CommitReservations(_) => CommitKeepsInv(s, act);
    case Publish(a, env) => PublishKeepsInv(s, a, env);
    case _ => PrivateStepKeepsInv(s, act, Next(s, act));
  }

  ghost predicate CanRun(s: System, acts: seq<Action>)
    decreases acts
  {
    acts != [] ==> Enabled(s, acts[0]) && CanRun(Next(s, acts[0]), acts[1..])
  }

  ghost function Run(s: System, acts: seq<Action>): System
    requires CanRun(s, acts)
    decreases acts
  {
    if acts == [] then s else Run(Next(s, acts[0]), acts[1..])
  }

  lemma {:induction false} RunKeepsInv(s: System, acts: seq<Action>)
    requires Inv(s) && CanRun(s, acts)
    ensures Inv(Run(s, acts))
    decreases acts
  {
    if acts != [] {
      StepKeepsInv(s, acts[0]);
      RunKeepsInv(Next(s, acts[0]), acts[1..]);
    }
  }

  /** After any run of any number of repositories, crashes included, every published port is entered
      in the registry for exactly its assignment and state file. */
  lemma IndexAgreesAfterEveryRun(acts: seq<Action>)
    requires CanRun(FIRST_SYSTEM, acts)
    ensures Inv(Run(FIRST_SYSTEM, acts))
    ensures Indexed(Run(FIRST_SYSTEM, acts).repos, Run(FIRST_SYSTEM, acts).registry)
  {
    assert Inv(FIRST_SYSTEM);
    RunKeepsInv(FIRST_SYSTEM, acts);
  }
}
