/** The running exporter: the pool protocol together with the collection loop, the snapshot store
    and its readers, and the instrument registrations, one atomic step per critical section. */
module Exporter {
  import opened Prelude
  import opened Snapshots
  import opened Push
  import opened Cycle
  import Pools
  import PoolLifetime

  /** The loop goroutine; before startCollection returns it is the initial synchronous cycle. */
  datatype LoopPc =
    | Waiting
    | Collecting(pool: Pools.Pool, replies: seq<Option<Reply>>)   // each client answers into its own slot
    | Published                                                   // stored, hook not looked at yet
    | Hooked(names: seq<string>)                                  // hook has loaded the snapshot's names
    | Ended

  /** Any other caller of EnsureInstruments: initOTLP, and each reload at its end. */
  datatype RegistrarPc = Away | Loaded(names: seq<string>)

  /** One publication: which clients were asked, what they answered, and the snapshot built from it. */
  datatype Version = Version(pool: Pools.Pool, replies: seq<Reply>, snap: Snapshot)

  datatype State = State(
    pools: Pools.State,
    loop: LoopPc,
    versions: seq<Version>,      // every snapshot the store has held; the last one is current
    loads: seq<seq<nat>>,        // which versions each reader has loaded, in order
    hookSet: bool,
    registrars: seq<RegistrarPc>,
    registered: set<string>,
    instruments: seq<string>,
    // history
    covered: bool,               // since the last publication a hook call has succeeded
    stale: bool)                 // some cycle began with a client that was already closed

  datatype Action =
    | PoolStep(a: Pools.Action)
    | BeginCycle
    | Answer(i: nat, reply: Reply)
    | Publish(snap: Snapshot)
    | SkipHook
    | LoadHook
    | RunHook(accepted: set<string>)
    | EndLoop
    | SetHook
    | Load(r: nat)
    | LoadNames(j: nat)
    | Register(j: nat, accepted: set<string>)

  /** The version the store holds; it is seeded before anything runs. */
  function Latest(s: State): Version
  {
    if s.versions == [] then Version([], [], Snapshot(map[], map[], [])) else s.versions[|s.versions| - 1]
  }

  predicate AllAnswered(replies: seq<Option<Reply>>)
  {
    forall i :: 0 <= i < |replies| ==> replies[i].Some?
  }

  function Values(replies: seq<Option<Reply>>): (values: seq<Reply>)
    requires AllAnswered(replies)
    ensures |values| == |replies|
  {
    seq(|replies|, i requires 0 <= i < |replies| => replies[i].value)
  }

  ghost predicate Enabled(s: State, a: Action)
  {
    match a
    case PoolStep(p) => Pools.Enabled(s.pools, p)
    case BeginCycle => s.loop.Waiting? && (s.pools.start.Created? || s.pools.start.Stored?)
    case Answer(i, _) => s.loop.Collecting? && i < |s.loop.replies| && s.loop.replies[i].None?
    case Publish(snap) =>
      && s.loop.Collecting? && |s.loop.replies| == |s.loop.pool| && AllAnswered(s.loop.replies)
      && IsSnapshotOf(snap, ResultsFor(s.loop.pool, Values(s.loop.replies)))
    case SkipHook => s.loop.Published? && !s.hookSet
    case LoadHook => s.loop.Published? && s.hookSet && s.versions != []
    case RunHook(_) => s.loop.Hooked?
    case EndLoop => s.loop.Waiting? && !s.pools.stop.Running?
    case SetHook => s.pools.start.Stored? && !s.hookSet
    case Load(r) => r < |s.loads| && s.versions != []
    case LoadNames(j) => j < |s.registrars| && s.registrars[j].Away? && s.versions != []
    case Register(j, _) => j < |s.registrars| && s.registrars[j].Loaded?
  }

  // collectAll reads Collector.clients once.
  function Begun(s: State): State
  {
    s.(loop := Collecting(s.pools.collector, seq(|s.pools.collector|, _ => None)),
       stale := s.stale || PoolLifetime.UsesClosed(s.pools))
  }

  function Answered(s: State, i: nat, reply: Reply): State
    requires s.loop.Collecting? && i < |s.loop.replies|
  {
    s.(loop := Collecting(s.loop.pool, s.loop.replies[i := Some(reply)]))
  }

  function Stored(s: State, snap: Snapshot): State
    requires s.loop.Collecting? && AllAnswered(s.loop.replies)
  {
    s.(loop := Published, versions := s.versions + [Version(s.loop.pool, Values(s.loop.replies), snap)],
       covered := false)
  }

  // EnsureInstruments loads the snapshot first and takes its lock afterwards.
  function Ensured(s: State, names: seq<string>, accepted: set<string>): State
  {
    var pass := Ensure(names, s.registered, accepted);
    s.(registered := s.registered + Elems(pass.created), instruments := s.instruments + pass.created)
  }

  function HookRun(s: State, accepted: set<string>): State
    requires s.loop.Hooked?
  {
    var t := Ensured(s, s.loop.names, accepted);
    t.(loop := Waiting, covered := s.covered || Ensure(s.loop.names, s.registered, accepted).ok)
  }

  function Apply(s: State, a: Action): State
    requires Enabled(s, a)
  {
    match a
    case PoolStep(p) => s.(pools := Pools.Apply(s.pools, p))
    case BeginCycle => Begun(s)
    case Answer(i, reply) => Answered(s, i, reply)
    case Publish(snap) => Stored(s, snap)
    case SkipHook => s.(loop := Waiting)
    case LoadHook => s.(loop := Hooked(Latest(s).snap.names))
    case RunHook(accepted) => HookRun(s, accepted)
    case EndLoop => s.(loop := Ended)
    case SetHook => s.(hookSet := true)
    case Load(r) => s.(loads := s.loads[r := s.loads[r] + [|s.versions| - 1]])
    case LoadNames(j) => s.(registrars := s.registrars[j := Loaded(Latest(s).snap.names)])
    case Register(j, accepted) => Ensured(s, s.registrars[j].names, accepted).(registrars := s.registrars[j := Away])
  }

  /** The store is seeded with the snapshot of no results at all. */
  ghost predicate Init(s: State)
  {
    && Pools.Init(s.pools) && s.loop.Waiting?
    && |s.versions| == 1 && IsSeed(s.versions[0])
    && (forall r :: 0 <= r < |s.loads| ==> s.loads[r] == [])
    && (forall j :: 0 <= j < |s.registrars| ==> s.registrars[j].Away?)
    && !s.hookSet && s.registered == {} && s.instruments == [] && !s.covered && !s.stale
  }

  ghost predicate IsSeed(v: Version)
  {
    v.pool == [] && v.replies == [] && IsSnapshotOf(v.snap, [])
  }

  ghost predicate Runs(s: State, run: seq<Action>)
    decreases |run|
  {
    run == [] || (Enabled(s, run[0]) && Runs(Apply(s, run[0]), run[1..]))
  }

  ghost function After(s: State, run: seq<Action>): State
    requires Runs(s, run)
    decreases |run|
  {
    if run == [] then s else After(Apply(s, run[0]), run[1..])
  }
}
