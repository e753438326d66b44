/**
 The session capacity of the MCP client: a semaphore for each endpoint, kept only as long as someone
 uses it, one global semaphore, and a shutdown that drains the workers.

 Every connect, worker and shutdown advances by itself, in any order. A connect may give up at any
 moment, whether it failed, timed out or was dropped by its caller.
 */
module McpCapacity {
  import opened Rows

  const GLOBAL_PERMITS := 32
  const ENDPOINT_PERMITS := 4

  type Endpoint = nat
  type SemId = nat
  type TaskId = nat
  type ShutdownId = nat

  datatype Semaphore = Semaphore(free: nat, closed: bool)

  /** Where a connect stands and, once spawned, where its worker does. */
  datatype Phase =
    | WaitingEndpoint
    | WaitingGlobal
    | Preparing
    | Spawning
    | Initializing
    | Running
    | Closing
    | Finished
    | Left

  datatype Task = Task(endpoint: Endpoint, sem: SemId, phase: Phase)

  datatype ShutdownPhase = CapacityClosed | EndpointsClosed | Cancelled | Draining | Returned | Abandoned

  datatype Holder = ByTask(task: TaskId) | ByShutdown(shutdown: ShutdownId)

  datatype Client = Client(
    capacity: Semaphore,
    sems: map<SemId, Semaphore>,
    endpoints: map<Endpoint, SemId>,
    tasks: map<TaskId, Task>,
    cancelled: bool,
    lock: Option<Holder>,
    shutdowns: map<ShutdownId, ShutdownPhase>)

  function New(): Client {
    Client(Semaphore(GLOBAL_PERMITS, false), map[], map[], map[], false, None, map[])
  }

  // ---------------------------------------------------------------------------------------------
  // What a task holds

  predicate IsWorker(p: Phase) { p == Initializing || p == Running || p == Closing }

  predicate HoldsGlobal(p: Phase) { p == Preparing || p == Spawning || IsWorker(p) }

  predicate HoldsEndpoint(p: Phase) { p == WaitingGlobal || HoldsGlobal(p) }

  /** A waiter keeps its endpoint's semaphore alive too. */
  predicate Refers(p: Phase) { p == WaitingEndpoint || HoldsEndpoint(p) }

  predicate Alive(s: Client, sem: SemId) {
    exists t :: t in s.tasks && s.tasks[t].sem == sem && Refers(s.tasks[t].phase)
  }

  // ---------------------------------------------------------------------------------------------
  // Semaphores

  function Take(x: Semaphore): Semaphore
    requires x.free > 0
  {
    x.(free := x.free - 1)
  }

  function Give(x: Semaphore): Semaphore { x.(free := x.free + 1) }

  function TakeEndpoint(s: Client, sem: SemId): Client
    requires sem in s.sems && s.sems[sem].free > 0
  {
    s.(sems := s.sems[sem := Take(s.sems[sem])])
  }

  function GiveEndpoint(s: Client, sem: SemId): Client
  {
    if sem in s.sems then s.(sems := s.sems[sem := Give(s.sems[sem])]) else s
  }

  function Move(s: Client, t: TaskId, p: Phase): Client
    requires t in s.tasks
  {
    s.(tasks := s.tasks[t := s.tasks[t].(phase := p)])
  }

  /** Give back whatever it holds. */
  function Drop(s: Client, t: TaskId, p: Phase): Client
    requires t in s.tasks
  {
    var x := s.tasks[t];
    var s1 := if HoldsGlobal(x.phase) then s.(capacity := Give(s.capacity)) else s;
    var s2 := if HoldsEndpoint(x.phase) then GiveEndpoint(s1, x.sem) else s1;
    s2.(tasks := s.tasks[t := x.(phase := p)])
  }

  function Unlock(s: Client, h: Holder): Client {
    if s.lock == Some(h) then s.(lock := None) else s
  }

  /** The weak entries whose semaphore is still alive. */
  function Retained(s: Client): map<Endpoint, SemId> {
    map e | e in s.endpoints && Alive(s, s.endpoints[e]) :: s.endpoints[e]
  }

  /** Find the endpoint's semaphore, or make one under an unused identity. */
  function EndpointCapacity(s: Client, t: TaskId, e: Endpoint, unused: SemId): Client {
    var kept := Retained(s);
    var sem := if e in kept then kept[e] else unused;
    var sems := if e in kept then s.sems else s.sems[unused := Semaphore(ENDPOINT_PERMITS, false)];
    s.(endpoints := kept[e := sem], sems := sems, tasks := s.tasks[t := Task(e, sem, WaitingEndpoint)])
  }

  /** Close every semaphore that is still alive. */
  function CloseEndpoints(s: Client): Client {
    s.(sems := map x | x in s.sems ::
      if exists e :: e in s.endpoints && s.endpoints[e] == x && Alive(s, x) then s.sems[x].(closed := true) else s.sems[x])
  }

  // ---------------------------------------------------------------------------------------------
  // Steps

  datatype Event =
    | Arrive(task: TaskId, endpoint: Endpoint, unused: SemId)
    | GetEndpoint(task: TaskId)
    | GetGlobal(task: TaskId)
    | CheckOpen(task: TaskId)
    | Spawn(task: TaskId)
    | GiveUp(task: TaskId)
    | Initialized(task: TaskId)
    | Break(task: TaskId)
    | Closed(task: TaskId)
    | Fail(task: TaskId)
    | Shutdown(shutdown: ShutdownId)
    | Advance(shutdown: ShutdownId)
    | Abandon(shutdown: ShutdownId)

  predicate In(s: Client, t: TaskId, p: Phase) {
    t in s.tasks && s.tasks[t].phase == p
  }

  function AdvanceShutdown(s: Client, d: ShutdownId): Client
    requires d in s.shutdowns
  {
    match s.shutdowns[d]
    case CapacityClosed => CloseEndpoints(s).(shutdowns := s.shutdowns[d := EndpointsClosed])
    case EndpointsClosed => s.(cancelled := true, shutdowns := s.shutdowns[d := Cancelled])
    case Cancelled =>
      if s.lock == None then s.(lock := Some(ByShutdown(d)), shutdowns := s.shutdowns[d := Draining]) else s
    case Draining =>
      if forall t | t in s.tasks :: !IsWorker(s.tasks[t].phase)
      then Unlock(s, ByShutdown(d)).(shutdowns := s.shutdowns[d := Returned])
      else s
    case Returned => s
    case Abandoned => s
  }

  /** One step, or nothing where the event cannot happen. */
  function Step(s: Client, e: Event): Client {
    match e
    case Arrive(t, endpoint, unused) =>
      if t !in s.tasks && unused !in s.sems then EndpointCapacity(s, t, endpoint, unused) else s
    case GetEndpoint(t) =>
      if In(s, t, WaitingEndpoint) && s.tasks[t].sem in s.sems && s.sems[s.tasks[t].sem].free > 0 && !s.sems[s.tasks[t].sem].closed
      then Move(TakeEndpoint(s, s.tasks[t].sem), t, WaitingGlobal) else s
    case GetGlobal(t) =>
      if In(s, t, WaitingGlobal) && s.capacity.free > 0 && !s.capacity.closed
      then Move(s.(capacity := Take(s.capacity)), t, Preparing) else s
    case CheckOpen(t) =>
      if In(s, t, Preparing) && s.lock == None && !s.cancelled
      then Move(s.(lock := Some(ByTask(t))), t, Spawning) else s
    case Spawn(t) =>
      if In(s, t, Spawning) then Move(Unlock(s, ByTask(t)), t, Initializing) else s
    case GiveUp(t) =>
      if t in s.tasks && (s.tasks[t].phase == WaitingEndpoint || s.tasks[t].phase == WaitingGlobal || s.tasks[t].phase == Preparing)
      then Drop(s, t, Left) else s
    case Initialized(t) => if In(s, t, Initializing) then Move(s, t, Running) else s
    case Break(t) => if In(s, t, Running) then Move(s, t, Closing) else s
    case Closed(t) => if In(s, t, Closing) then Drop(s, t, Finished) else s
    case Fail(t) => if t in s.tasks && IsWorker(s.tasks[t].phase) then Drop(s, t, Finished) else s
    case Shutdown(d) =>
      if d !in s.shutdowns
      then s.(capacity := s.capacity.(closed := true), shutdowns := s.shutdowns[d := CapacityClosed]) else s
    case Advance(d) => if d in s.shutdowns then AdvanceShutdown(s, d) else s
    case Abandon(d) =>
      if d in s.shutdowns && s.shutdowns[d] != Returned
      then Unlock(s, ByShutdown(d)).(shutdowns := s.shutdowns[d := Abandoned]) else s
  }

  function Run(s: Client, events: seq<Event>): Client
    decreases |events|
  {
    if events == [] then s else Step(Run(s, events[..|events| - 1]), events[|events| - 1])
  }

  // ---------------------------------------------------------------------------------------------
  // Counting permits

  ghost function EndpointHolders(tasks: map<TaskId, Task>, sem: SemId): set<TaskId> {
    set t | t in tasks && tasks[t].sem == sem && HoldsEndpoint(tasks[t].phase)
  }

  ghost function GlobalHolders(tasks: map<TaskId, Task>): set<TaskId> {
    set t | t in tasks && HoldsGlobal(tasks[t].phase)
  }

  ghost predicate SemCounted(s: Client, sem: SemId) {
    sem in s.sems ==> s.sems[sem].free + |EndpointHolders(s.tasks, sem)| == ENDPOINT_PERMITS
  }

  ghost predicate GlobalCounted(s: Client) {
    s.capacity.free + |GlobalHolders(s.tasks)| == GLOBAL_PERMITS
  }

  /** Whoever uses an endpoint's semaphore uses the one the map knows. */
  ghost predicate OneSemaphoreEach(s: Client) {
    && (forall t | t in s.tasks :: s.tasks[t].sem in s.sems)
    && (forall e | e in s.endpoints :: s.endpoints[e] in s.sems)
    && (forall t | t in s.tasks && Refers(s.tasks[t].phase) ::
          s.tasks[t].endpoint in s.endpoints && s.endpoints[s.tasks[t].endpoint] == s.tasks[t].sem)
  }

  ghost predicate Counted(s: Client) {
    GlobalCounted(s) && OneSemaphoreEach(s) && forall sem :: SemCounted(s, sem)
  }

  /** One task moves: how many hold each permit changes by it alone. */
  lemma MoveCounts(tasks: map<TaskId, Task>, t: TaskId, x: Task, sem: SemId)
    requires t in tasks ==> tasks[t].sem == x.sem
    ensures var had, has := t in tasks && HoldsEndpoint(tasks[t].phase), HoldsEndpoint(x.phase);
      |EndpointHolders(tasks[t := x], sem)| + (if had && x.sem == sem then 1 else 0)
      == |EndpointHolders(tasks, sem)| + (if has && x.sem == sem then 1 else 0)
  {
    var rest := EndpointHolders(tasks, sem) - {t};
    var had, has := t in tasks && HoldsEndpoint(tasks[t].phase), HoldsEndpoint(x.phase);
    assert EndpointHolders(tasks, sem) == if had && x.sem == sem then rest + {t} else rest;
    assert EndpointHolders(tasks[t := x], sem) == if has && x.sem == sem then rest + {t} else rest;
  }

  lemma MoveCountsGlobally(tasks: map<TaskId, Task>, t: TaskId, x: Task)
    ensures var had, has := t in tasks && HoldsGlobal(tasks[t].phase), HoldsGlobal(x.phase);
      |GlobalHolders(tasks[t := x])| + (if had then 1 else 0) == |GlobalHolders(tasks)| + (if has then 1 else 0)
  {
    var rest := GlobalHolders(tasks) - {t};
    var had, has := t in tasks && HoldsGlobal(tasks[t].phase), HoldsGlobal(x.phase);
    assert GlobalHolders(tasks) == if had then rest + {t} else rest;
    assert GlobalHolders(tasks[t := x]) == if has then rest + {t} else rest;
  }

  /** The permits a step takes or gives are those its task comes to hold or stops holding. */
  ghost predicate Balanced(s: Client, s': Client, t: TaskId, x: Task) {
    && s'.tasks == s.tasks[t := x]
    && s'.endpoints == s.endpoints && s'.sems.Keys == s.sems.Keys
    && s'.capacity.free + (if HoldsGlobal(x.phase) then 1 else 0)
       == s.capacity.free + (if t in s.tasks && HoldsGlobal(s.tasks[t].phase) then 1 else 0)
    && forall sem :: sem in s.sems ==>
         s'.sems[sem].free + (if HoldsEndpoint(x.phase) && x.sem == sem then 1 else 0)
         == s.sems[sem].free + (if t in s.tasks && HoldsEndpoint(s.tasks[t].phase) && x.sem == sem then 1 else 0)
  }

  lemma BalancedStaysCounted(s: Client, s': Client, t: TaskId, x: Task)
    requires Counted(s) && t in s.tasks && Balanced(s, s', t, x)
    requires x.sem == s.tasks[t].sem && x.endpoint == s.tasks[t].endpoint
    requires Refers(x.phase) ==> Refers(s.tasks[t].phase)
    ensures Counted(s')
  {
    MoveCountsGlobally(s.tasks, t, x);
    forall sem ensures SemCounted(s', sem) {
      assert SemCounted(s, sem);
      MoveCounts(s.tasks, t, x, sem);
    }
    OneSemaphoreStays(s, s', t, x);
  }

  lemma OneSemaphoreStays(s: Client, s': Client, t: TaskId, x: Task)
    requires OneSemaphoreEach(s) && t in s.tasks && s'.tasks == s.tasks[t := x]
    requires s'.endpoints == s.endpoints && s'.sems.Keys == s.sems.Keys
    requires x.sem == s.tasks[t].sem && x.endpoint == s.tasks[t].endpoint
    requires Refers(x.phase) ==> Refers(s.tasks[t].phase)
    ensures OneSemaphoreEach(s')
  {
  }

  lemma ArrivalStaysCounted(s: Client, t: TaskId, e: Endpoint, unused: SemId)
    requires Counted(s) && t !in s.tasks && unused !in s.sems
    ensures Counted(EndpointCapacity(s, t, e, unused))
  {
    var s' := EndpointCapacity(s, t, e, unused);
    var x := s'.tasks[t];
    MoveCountsGlobally(s.tasks, t, x);
    forall sem ensures SemCounted(s', sem) {
      assert SemCounted(s, sem);
      MoveCounts(s.tasks, t, x, sem);
      if sem == unused && sem in s'.sems {
        assert EndpointHolders(s.tasks, unused) == {};
      }
    }
    forall o | o in s'.tasks && Refers(s'.tasks[o].phase)
      ensures s'.tasks[o].endpoint in s'.endpoints && s'.endpoints[s'.tasks[o].endpoint] == s'.tasks[o].sem
    {
      if o != t {
        assert Alive(s, s.tasks[o].sem);
        assert s.tasks[o].endpoint in Retained(s);
      }
    }
  }

  lemma SameTasksStayCounted(s: Client, s': Client)
    requires Counted(s) && SamePermits(s, s')
    ensures Counted(s')
  {
    forall sem ensures SemCounted(s', sem) {
      assert SemCounted(s, sem);
    }
  }

  lemma DropStaysCounted(s: Client, t: TaskId, p: Phase)
    requires Counted(s) && t in s.tasks && !Refers(p)
    ensures Counted(Drop(s, t, p))
  {
    var s' := Drop(s, t, p);
    assert Balanced(s, s', t, s'.tasks[t]);
    BalancedStaysCounted(s, s', t, s'.tasks[t]);
  }

  predicate Takes(e: Event) { e.GetEndpoint? || e.GetGlobal? }

  predicate Gives(e: Event) { e.GiveUp? || e.Closed? || e.Fail? }

  predicate Passes(e: Event) { e.CheckOpen? || e.Spawn? || e.Initialized? || e.Break? }

  lemma TakingStaysCounted(s: Client, e: Event)
    requires Counted(s) && Takes(e)
    ensures Counted(Step(s, e))
  {
    var s' := Step(s, e);
    if s' != s {
      BalancedStaysCounted(s, s', e.task, s'.tasks[e.task]);
    }
  }

  lemma GivingStaysCounted(s: Client, e: Event)
    requires Counted(s) && Gives(e)
    ensures Counted(Step(s, e))
  {
    if Step(s, e) != s {
      DropStaysCounted(s, e.task, if e.GiveUp? then Left else Finished);
    }
  }

  lemma PassingStaysCounted(s: Client, e: Event)
    requires Counted(s) && Passes(e)
    ensures Counted(Step(s, e))
  {
    var s' := Step(s, e);
    if s' != s {
      BalancedStaysCounted(s, s', e.task, s'.tasks[e.task]);
    }
  }

  /** Closing refuses new permits and takes none away. */
  lemma ClosingKeepsPermits(s: Client)
    ensures var s' := CloseEndpoints(s);
      && s' == s.(sems := s'.sems) && s'.sems.Keys == s.sems.Keys
      && forall x | x in s.sems :: s'.sems[x].free == s.sems[x].free
  {
  }

  ghost predicate SamePermits(s: Client, s': Client) {
    && s'.tasks == s.tasks && s'.endpoints == s.endpoints && s'.capacity.free == s.capacity.free
    && s'.sems.Keys == s.sems.Keys && forall x | x in s.sems :: s'.sems[x].free == s.sems[x].free
  }

  lemma AdvancingKeepsPermits(s: Client, d: ShutdownId)
    requires d in s.shutdowns
    ensures SamePermits(s, AdvanceShutdown(s, d))
  {
    ClosingKeepsPermits(s);
  }

  lemma ShuttingKeepsPermits(s: Client, e: Event)
    requires e.Shutdown? || e.Advance? || e.Abandon?
    ensures SamePermits(s, Step(s, e))
  {
    if e.Advance? && e.shutdown in s.shutdowns {
      AdvancingKeepsPermits(s, e.shutdown);
      assert Step(s, e) == AdvanceShutdown(s, e.shutdown);
    }
  }

  lemma ShuttingStaysCounted(s: Client, e: Event)
    requires Counted(s) && (e.Shutdown? || e.Advance? || e.Abandon?)
    ensures Counted(Step(s, e))
  {
    ShuttingKeepsPermits(s, e);
    SameTasksStayCounted(s, Step(s, e));
  }

  lemma StepStaysCounted(s: Client, e: Event)
    requires Counted(s)
    ensures Counted(Step(s, e))
  {
    if e.Arrive? {
      if Step(s, e) != s {
        ArrivalStaysCounted(s, e.task, e.endpoint, e.unused);
      }
    } else if e.Shutdown? || e.Advance? || e.Abandon? {
      ShuttingStaysCounted(s, e);
    } else if Takes(e) {
      TakingStaysCounted(s, e);
    } else if Gives(e) {
      GivingStaysCounted(s, e);
    } else {
      PassingStaysCounted(s, e);
    }
  }

  lemma {:induction false} RunStaysCounted(events: seq<Event>)
    ensures Counted(Run(New(), events))
    decreases |events|
  {
    if events == [] {
      assert GlobalHolders(New().tasks) == {};
    } else {
      RunStaysCounted(events[..|events| - 1]);
      StepStaysCounted(Run(New(), events[..|events| - 1]), events[|events| - 1]);
    }
  }

  // ---------------------------------------------------------------------------------------------
  // Capacity

  ghost function SessionsOf(s: Client, e: Endpoint): set<TaskId> {
    set t | t in s.tasks && s.tasks[t].endpoint == e && HoldsEndpoint(s.tasks[t].phase)
  }

  lemma SubsetIsSmaller(a: set<TaskId>, b: set<TaskId>)
    requires a <= b
    ensures |a| <= |b|
  {
    assert b == a + (b - a);
  }

  lemma SessionsShareASemaphore(s: Client, e: Endpoint)
    requires Counted(s)
    ensures |SessionsOf(s, e)| <= ENDPOINT_PERMITS
  {
    if e in s.endpoints {
      var sem := s.endpoints[e];
      assert SemCounted(s, sem);
      SubsetIsSmaller(SessionsOf(s, e), EndpointHolders(s.tasks, sem));
    } else {
      assert SessionsOf(s, e) == {};
    }
  }

  /**
   In every run there are at most 32 sessions in all and at most four for an endpoint, although its
   semaphore is forgotten when unused and made anew; and however many wait for one endpoint, the
   others have all but four of the global permits between them.
   */
  lemma CapacityIsBounded(events: seq<Event>, e: Endpoint)
    ensures var s := Run(New(), events);
      && |GlobalHolders(s.tasks)| == GLOBAL_PERMITS - s.capacity.free <= GLOBAL_PERMITS
      && |SessionsOf(s, e)| <= ENDPOINT_PERMITS
      && s.capacity.free + |GlobalHolders(s.tasks) - SessionsOf(s, e)| >= GLOBAL_PERMITS - ENDPOINT_PERMITS
  {
    RunStaysCounted(events);
    var s := Run(New(), events);
    SessionsShareASemaphore(s, e);
    var all, here := GlobalHolders(s.tasks), SessionsOf(s, e);
    assert all == (all - here) + (all * here);
    SubsetIsSmaller(all * here, here);
  }

  /** A connect that still waits for its endpoint holds nothing: giving up changes no semaphore. */
  lemma WaitersHoldNothing(events: seq<Event>, t: TaskId)
    requires var s := Run(New(), events); In(s, t, WaitingEndpoint)
    ensures var s := Run(New(), events);
      && t !in GlobalHolders(s.tasks)
      && Step(s, GiveUp(t)).capacity == s.capacity
      && Step(s, GiveUp(t)).sems == s.sems
  {
  }

  // ---------------------------------------------------------------------------------------------
  // Shutdown

  /** No worker runs and none can start. */
  ghost predicate Quiet(s: Client) {
    s.cancelled && forall t | t in s.tasks :: s.tasks[t].phase != Spawning && !IsWorker(s.tasks[t].phase)
  }

  ghost predicate SpawnersHoldTheLock(s: Client) {
    forall t | t in s.tasks && s.tasks[t].phase == Spawning :: s.lock == Some(ByTask(t))
  }

  ghost predicate DrainersHoldTheLock(s: Client) {
    forall d | d in s.shutdowns && s.shutdowns[d] == Draining :: s.lock == Some(ByShutdown(d)) && s.cancelled
  }

  ghost predicate CancelledIsSeen(s: Client) {
    forall d | d in s.shutdowns && s.shutdowns[d] == Cancelled :: s.cancelled
  }

  ghost predicate ReturnedIsQuiet(s: Client) {
    forall d | d in s.shutdowns && s.shutdowns[d] == Returned :: Quiet(s)
  }

  ghost predicate Locked(s: Client) {
    SpawnersHoldTheLock(s) && DrainersHoldTheLock(s) && CancelledIsSeen(s) && ReturnedIsQuiet(s)
  }

  /** The moves a task can make. */
  ghost predicate MayMove(s: Client, s': Client, t: TaskId, x: Task) {
    if t !in s.tasks then x.phase == WaitingEndpoint
    else
      var was := s.tasks[t];
      && was.phase != Finished
      && (x.phase == Spawning ==> was.phase == Preparing && !s.cancelled && s.lock == None && s'.lock == Some(ByTask(t)))
      && (IsWorker(x.phase) ==> was.phase == Spawning || IsWorker(was.phase))
  }

  /** Whether a step of a task leaves the lock alone, takes it, or gives it back. */
  ghost predicate LockMoves(s: Client, s': Client, t: TaskId, x: Task) {
    || s'.lock == s.lock
    || (s.lock == None && s'.lock == Some(ByTask(t)))
    || (s.lock == Some(ByTask(t)) && s'.lock == None && x.phase != Spawning)
  }

  ghost predicate TaskMoves(s: Client, s': Client, t: TaskId) {
    && t in s'.tasks && s'.tasks == s.tasks[t := s'.tasks[t]]
    && MayMove(s, s', t, s'.tasks[t]) && LockMoves(s, s', t, s'.tasks[t])
    && s'.cancelled == s.cancelled && s'.shutdowns == s.shutdowns
  }

  /** What the steps of a shutdown do to the flag, the lock and its own progress. */
  ghost predicate ShutdownMoves(s: Client, s': Client, d: ShutdownId) {
    && s'.tasks == s.tasks && (s.cancelled ==> s'.cancelled)
    && d in s'.shutdowns && s'.shutdowns == s.shutdowns[d := s'.shutdowns[d]]
    && (s'.lock == s.lock || (s.lock == None && s'.lock == Some(ByShutdown(d))) || (s.lock == Some(ByShutdown(d)) && s'.lock == None))
    && match s'.shutdowns[d]
       case Cancelled => s'.cancelled
       case Draining => s'.lock == Some(ByShutdown(d)) && d in s.shutdowns && s.shutdowns[d] == Cancelled
       case Returned => d in s.shutdowns && s.shutdowns[d] == Draining && forall t | t in s.tasks :: !IsWorker(s.tasks[t].phase)
       case _ => true
  }

  predicate OfTask(e: Event) { e.Arrive? || Takes(e) || Gives(e) || Passes(e) }

  lemma TakingMoves(s: Client, e: Event)
    requires (Takes(e) || e.Arrive?) && Step(s, e) != s
    ensures TaskMoves(s, Step(s, e), e.task)
  {
  }

  lemma GivingMoves(s: Client, e: Event)
    requires Gives(e) && Step(s, e) != s
    ensures TaskMoves(s, Step(s, e), e.task)
  {
  }

  lemma PassingMoves(s: Client, e: Event)
    requires Passes(e) && Step(s, e) != s
    ensures TaskMoves(s, Step(s, e), e.task)
  {
  }

  lemma ShuttingMoves(s: Client, e: Event)
    requires CancelledIsSeen(s) && !OfTask(e) && Step(s, e) != s
    ensures ShutdownMoves(s, Step(s, e), e.shutdown)
  {
  }

  lemma StepMoves(s: Client, e: Event)
    requires CancelledIsSeen(s)
    ensures var s' := Step(s, e); s' == s || if OfTask(e) then TaskMoves(s, s', e.task) else ShutdownMoves(s, s', e.shutdown)
  {
    if Step(s, e) != s {
      if e.Arrive? || Takes(e) {
        TakingMoves(s, e);
      } else if Gives(e) {
        GivingMoves(s, e);
      } else if Passes(e) {
        PassingMoves(s, e);
      } else {
        ShuttingMoves(s, e);
      }
    }
  }

  lemma TaskMoveStaysLocked(s: Client, s': Client, t: TaskId)
    requires Locked(s) && TaskMoves(s, s', t)
    ensures Locked(s')
  {
    if Quiet(s) {
      assert Quiet(s');
    }
  }

  lemma ShutdownMoveStaysLocked(s: Client, s': Client, d: ShutdownId)
    requires Locked(s) && ShutdownMoves(s, s', d)
    ensures Locked(s')
  {
    if Quiet(s) {
      assert Quiet(s');
    }
  }

  lemma StepStaysLocked(s: Client, e: Event)
    requires Locked(s)
    ensures Locked(Step(s, e)) && (Quiet(s) ==> Quiet(Step(s, e)))
  {
    StepMoves(s, e);
    if Step(s, e) != s {
      if OfTask(e) {
        TaskMoveStaysLocked(s, Step(s, e), e.task);
      } else {
        ShutdownMoveStaysLocked(s, Step(s, e), e.shutdown);
      }
    }
  }

  lemma {:induction false} RunStaysLocked(events: seq<Event>)
    ensures Locked(Run(New(), events))
    decreases |events|
  {
    if events != [] {
      RunStaysLocked(events[..|events| - 1]);
      StepStaysLocked(Run(New(), events[..|events| - 1]), events[|events| - 1]);
    }
  }

  lemma {:induction false} QuietForEver(s: Client, events: seq<Event>)
    requires Locked(s) && Quiet(s)
    ensures Locked(Run(s, events)) && Quiet(Run(s, events))
    decreases |events|
  {
    if events != [] {
      QuietForEver(s, events[..|events| - 1]);
      StepStaysLocked(Run(s, events[..|events| - 1]), events[|events| - 1]);
    }
  }

  /** Once a shutdown has returned, no worker is running and, whatever happens next, none ever starts. */
  lemma ReturnedMeansDrained(events: seq<Event>, d: ShutdownId, later: seq<Event>)
    requires var s := Run(New(), events); d in s.shutdowns && s.shutdowns[d] == Returned
    ensures Quiet(Run(New(), events)) && Quiet(Run(Run(New(), events), later))
  {
    RunStaysLocked(events);
    QuietForEver(Run(New(), events), later);
  }

  // ---------------------------------------------------------------------------------------------
  // From the moment a shutdown begins

  /** A shutdown that has begun has closed the global semaphore. */
  ghost predicate ClosedWhenBegun(s: Client) {
    s.shutdowns != map[] ==> s.capacity.closed
  }

  /** Closed semaphores stay closed, and only open ones hand out permits. */
  ghost predicate StaysShut(s: Client, s': Client) {
    && (s.capacity.closed ==> s'.capacity.closed && GlobalHolders(s'.tasks) <= GlobalHolders(s.tasks))
    && (forall x | x in s.sems && s.sems[x].closed :: x in s'.sems && s'.sems[x].closed)
    && (forall t | t in s.tasks :: t in s'.tasks && s'.tasks[t].sem == s.tasks[t].sem)
    && (forall t | t in s.tasks && ShutOut(s, t) :: ShutOut(s', t))
  }

  /** A connect that can no longer get in: it has left, or its endpoint's semaphore is closed. */
  ghost predicate ShutOut(s: Client, t: TaskId) {
    && t in s.tasks
    && (s.tasks[t].phase == Left
        || (s.tasks[t].phase == WaitingEndpoint && s.tasks[t].sem in s.sems && s.sems[s.tasks[t].sem].closed))
  }

  lemma TakingStaysShut(s: Client, e: Event)
    requires Takes(e) || e.Arrive?
    ensures StaysShut(s, Step(s, e))
  {
  }

  lemma DropStaysShut(s: Client, t: TaskId, p: Phase)
    requires t in s.tasks && !HoldsGlobal(p) && (p == Left || IsWorker(s.tasks[t].phase))
    ensures StaysShut(s, Drop(s, t, p))
  {
    var s' := Drop(s, t, p);
    assert s'.capacity.closed == s.capacity.closed;
    assert forall x | x in s.sems :: x in s'.sems && s'.sems[x].closed == s.sems[x].closed;
  }

  lemma GivingStaysShut(s: Client, e: Event)
    requires Gives(e)
    ensures StaysShut(s, Step(s, e))
  {
    if Step(s, e) != s {
      DropStaysShut(s, e.task, if e.GiveUp? then Left else Finished);
    }
  }

  /** A task that moves on and touches no semaphore. */
  lemma MoveStaysShut(s: Client, s': Client, t: TaskId, p: Phase)
    requires t in s.tasks && HoldsGlobal(s.tasks[t].phase) && HoldsGlobal(p)
    requires s'.capacity == s.capacity && s'.sems == s.sems && s'.tasks == s.tasks[t := s.tasks[t].(phase := p)]
    ensures StaysShut(s, s')
  {
  }

  lemma PassingStaysShut(s: Client, e: Event)
    requires Passes(e)
    ensures StaysShut(s, Step(s, e))
  {
    var s' := Step(s, e);
    if s' != s {
      MoveStaysShut(s, s', e.task, s'.tasks[e.task].phase);
    }
  }

  lemma ShuttingStaysShut(s: Client, e: Event)
    requires !OfTask(e)
    ensures StaysShut(s, Step(s, e))
  {
  }

  lemma StepStaysShut(s: Client, e: Event)
    ensures StaysShut(s, Step(s, e))
  {
    if Takes(e) || e.Arrive? {
      TakingStaysShut(s, e);
    } else if Gives(e) {
      GivingStaysShut(s, e);
    } else if Passes(e) {
      PassingStaysShut(s, e);
    } else {
      ShuttingStaysShut(s, e);
    }
  }

  lemma {:induction false} RunStaysShut(s: Client, events: seq<Event>, t: TaskId)
    ensures s.capacity.closed ==> Run(s, events).capacity.closed && GlobalHolders(Run(s, events).tasks) <= GlobalHolders(s.tasks)
    ensures ShutOut(s, t) ==> ShutOut(Run(s, events), t)
    decreases |events|
  {
    if events != [] {
      RunStaysShut(s, events[..|events| - 1], t);
      StepStaysShut(Run(s, events[..|events| - 1]), events[|events| - 1]);
    }
  }

  lemma TasksBeginNoShutdown(s: Client, e: Event)
    requires OfTask(e)
    ensures Step(s, e).shutdowns == s.shutdowns
  {
  }

  lemma ShuttingIsClosed(s: Client, e: Event)
    requires !OfTask(e) && ClosedWhenBegun(s)
    ensures ClosedWhenBegun(Step(s, e))
  {
  }

  lemma {:induction false} BegunIsClosed(events: seq<Event>)
    ensures ClosedWhenBegun(Run(New(), events))
    decreases |events|
  {
    if events != [] {
      var s, e := Run(New(), events[..|events| - 1]), events[|events| - 1];
      BegunIsClosed(events[..|events| - 1]);
      if OfTask(e) {
        TasksBeginNoShutdown(s, e);
        StepStaysShut(s, e);
      } else {
        ShuttingIsClosed(s, e);
      }
    }
  }

  /** From the moment a shutdown begins no connect comes to hold a global permit: sessions only end. */
  lemma ShutdownAdmitsNobody(events: seq<Event>, d: ShutdownId, later: seq<Event>)
    requires d in Run(New(), events).shutdowns
    ensures var s := Run(New(), events); GlobalHolders(Run(s, later).tasks) <= GlobalHolders(s.tasks)
  {
    BegunIsClosed(events);
    RunStaysShut(Run(New(), events), later, 0);
  }

  lemma ClosingShutsOut(s: Client, d: ShutdownId, t: TaskId)
    requires OneSemaphoreEach(s) && In(s, t, WaitingEndpoint) && d in s.shutdowns && s.shutdowns[d] == CapacityClosed
    ensures ShutOut(AdvanceShutdown(s, d), t)
  {
    var sem := s.tasks[t].sem;
    assert Alive(s, sem);
    assert s.endpoints[s.tasks[t].endpoint] == sem;
    assert CloseEndpoints(s).sems[sem].closed;
  }

  /** Whoever waits for an endpoint when a shutdown closes the endpoints never gets in. */
  lemma WaitersAreShutOut(events: seq<Event>, d: ShutdownId, t: TaskId, later: seq<Event>)
    requires var s := Run(New(), events); d in s.shutdowns && s.shutdowns[d] == CapacityClosed && In(s, t, WaitingEndpoint)
    ensures ShutOut(Run(AdvanceShutdown(Run(New(), events), d), later), t)
  {
    var s := Run(New(), events);
    RunStaysCounted(events);
    ClosingShutsOut(s, d, t);
    RunStaysShut(AdvanceShutdown(s, d), later, t);
  }
}
