/**
 The MCP client without semaphores, weak entries or a lock: connects and shutdowns, and rules that
 count who is where. The client does exactly what these rules allow.
 */
module McpCounting {
  import opened Rows
  import opened McpCapacity

  datatype Job = Job(endpoint: Endpoint, phase: Phase)

  datatype Simple = Simple(
    jobs: map<TaskId, Job>, shutdowns: map<ShutdownId, ShutdownPhase>, cancelled: bool, barred: set<Endpoint>)

  // ---------------------------------------------------------------------------------------------
  // The rules

  predicate At(x: Simple, t: TaskId, p: Phase) {
    t in x.jobs && x.jobs[t].phase == p
  }

  /** A session in the making or at work: past the endpoint's wait and not over. */
  predicate InSession(p: Phase) {
    p == WaitingGlobal || p == Preparing || p == Spawning || p == Initializing || p == Running || p == Closing
  }

  ghost function Sessions(x: Simple, e: Endpoint): set<TaskId> {
    set t | t in x.jobs && x.jobs[t].endpoint == e && InSession(x.jobs[t].phase)
  }

  ghost function Admitted(x: Simple): set<TaskId> {
    set t | t in x.jobs && InSession(x.jobs[t].phase) && x.jobs[t].phase != WaitingGlobal
  }

  ghost predicate InUse(x: Simple, e: Endpoint) {
    exists t :: t in x.jobs && x.jobs[t].endpoint == e && (x.jobs[t].phase == WaitingEndpoint || InSession(x.jobs[t].phase))
  }

  /** Nobody is between its last check and its spawn, and no shutdown is draining. */
  ghost predicate DoorFree(x: Simple) {
    && (forall t | t in x.jobs :: x.jobs[t].phase != Spawning)
    && (forall d | d in x.shutdowns :: x.shutdowns[d] != Draining)
  }

  ghost predicate Drained(x: Simple) {
    forall t | t in x.jobs :: x.jobs[t].phase != Initializing && x.jobs[t].phase != Running && x.jobs[t].phase != Closing
  }

  function To(x: Simple, t: TaskId, p: Phase): Simple
    requires t in x.jobs
  {
    x.(jobs := x.jobs[t := x.jobs[t].(phase := p)])
  }

  function Progress(x: Simple, d: ShutdownId, p: ShutdownPhase): Simple {
    x.(shutdowns := x.shutdowns[d := p])
  }

  /** The rules of a connect and its worker. */
  ghost function JobStep(x: Simple, e: Event): Simple
    requires OfTask(e)
  {
    match e
    case Arrive(t, endpoint, _) => if t !in x.jobs then x.(jobs := x.jobs[t := Job(endpoint, WaitingEndpoint)]) else x
    case GetEndpoint(t) =>
      if At(x, t, WaitingEndpoint) && |Sessions(x, x.jobs[t].endpoint)| < 4 && x.jobs[t].endpoint !in x.barred
      then To(x, t, WaitingGlobal) else x
    case GetGlobal(t) =>
      if At(x, t, WaitingGlobal) && |Admitted(x)| < 32 && x.shutdowns == map[] then To(x, t, Preparing) else x
    case CheckOpen(t) => if At(x, t, Preparing) && DoorFree(x) && !x.cancelled then To(x, t, Spawning) else x
    case Spawn(t) => if At(x, t, Spawning) then To(x, t, Initializing) else x
    case Initialized(t) => if At(x, t, Initializing) then To(x, t, Running) else x
    case Break(t) => if At(x, t, Running) then To(x, t, Closing) else x
    case Closed(t) => if At(x, t, Closing) then To(x, t, Finished) else x
    case Fail(t) => if At(x, t, Initializing) || At(x, t, Running) || At(x, t, Closing) then To(x, t, Finished) else x
    case GiveUp(t) => if At(x, t, WaitingEndpoint) || At(x, t, WaitingGlobal) || At(x, t, Preparing) then To(x, t, Left) else x
  }

  /** The rules of a shutdown: it bars the endpoints in use, cancels, waits for the door and for the workers. */
  ghost function ShutdownStep(x: Simple, e: Event): Simple
    requires !OfTask(e)
  {
    match e
    case Shutdown(d) => if d !in x.shutdowns then Progress(x, d, CapacityClosed) else x
    case Abandon(d) => if d in x.shutdowns && x.shutdowns[d] != Returned then Progress(x, d, Abandoned) else x
    case Advance(d) =>
      if d !in x.shutdowns then x
      else match x.shutdowns[d]
        case CapacityClosed => Progress(x, d, EndpointsClosed).(barred := UsedEndpoints(x))
        case EndpointsClosed => Progress(x, d, Cancelled).(cancelled := true)
        case Cancelled => if DoorFree(x) then Progress(x, d, Draining) else x
        case Draining => if Drained(x) then Progress(x, d, Returned) else x
        case _ => x
  }

  ghost function UsedEndpoints(x: Simple): set<Endpoint> {
    set t | t in x.jobs && InUse(x, x.jobs[t].endpoint) :: x.jobs[t].endpoint
  }

  /** An endpoint is barred until nobody uses it. */
  ghost function SimpleStep(x: Simple, e: Event): Simple {
    var x' := if OfTask(e) then JobStep(x, e) else ShutdownStep(x, e);
    x'.(barred := set f | f in x'.barred && InUse(x', f))
  }

  ghost function SimpleRun(events: seq<Event>): Simple
    decreases |events|
  {
    if events == [] then Simple(map[], map[], false, {}) else SimpleStep(SimpleRun(events[..|events| - 1]), events[|events| - 1])
  }

  /** A new semaphore is one that never was. */
  ghost predicate NewSemaphores(events: seq<Event>) {
    forall i | 0 <= i < |events| && events[i].Arrive? :: events[i].unused !in Run(New(), events[..i]).sems
  }

  // ---------------------------------------------------------------------------------------------
  // What the client is, by these rules

  function JobsOf(tasks: map<TaskId, Task>): map<TaskId, Job> {
    map t | t in tasks :: Job(tasks[t].endpoint, tasks[t].phase)
  }

  ghost function Barred(s: Client): set<Endpoint> {
    set e | e in s.endpoints && s.endpoints[e] in s.sems && s.sems[s.endpoints[e]].closed && Alive(s, s.endpoints[e])
  }

  ghost function Of(s: Client): Simple {
    Simple(JobsOf(s.tasks), s.shutdowns, s.cancelled, Barred(s))
  }

  /** No two endpoints share a semaphore. */
  ghost predicate OneEndpointEach(s: Client) {
    && (forall e, f | e in s.endpoints && f in s.endpoints && s.endpoints[e] == s.endpoints[f] :: e == f)
    && (forall t, e | t in s.tasks && e in s.endpoints && s.endpoints[e] == s.tasks[t].sem :: s.tasks[t].endpoint == e)
  }

  /** The lock is held by someone who is spawning or draining, and the capacity closed only by a shutdown. */
  ghost predicate HeldForCause(s: Client) {
    && (s.lock.Some? && s.lock.value.ByTask? ==> In(s, s.lock.value.task, Spawning))
    && (s.lock.Some? && s.lock.value.ByShutdown? ==>
          s.lock.value.shutdown in s.shutdowns && s.shutdowns[s.lock.value.shutdown] == Draining)
    && (s.capacity.closed ==> s.shutdowns != map[])
  }

  ghost predicate Sound(s: Client) {
    Counted(s) && Locked(s) && ClosedWhenBegun(s) && OneEndpointEach(s) && HeldForCause(s)
  }

  lemma GivingBackLeavesTheRest(s: Client, sem: SemId)
    ensures var s' := GiveEndpoint(s, sem);
      && s' == s.(sems := s'.sems) && s'.sems.Keys == s.sems.Keys
      && forall x | x in s.sems :: s'.sems[x].closed == s.sems[x].closed
  {
  }

  lemma DropLeavesTheRest(s: Client, t: TaskId, p: Phase)
    requires t in s.tasks
    ensures var s' := Drop(s, t, p);
      && s'.tasks == s.tasks[t := s.tasks[t].(phase := p)] && s'.endpoints == s.endpoints && s'.lock == s.lock
      && s'.shutdowns == s.shutdowns && s'.cancelled == s.cancelled && s'.capacity.closed == s.capacity.closed
      && s'.sems.Keys == s.sems.Keys && forall sem | sem in s.sems :: s'.sems[sem].closed == s.sems[sem].closed
  {
    var x := s.tasks[t];
    GivingBackLeavesTheRest(if HoldsGlobal(x.phase) then s.(capacity := Give(s.capacity)) else s, x.sem);
  }

  lemma GivingKeepsCause(s: Client, e: Event)
    requires HeldForCause(s) && Gives(e)
    ensures HeldForCause(Step(s, e))
  {
    if Step(s, e) != s {
      DropLeavesTheRest(s, e.task, if e.GiveUp? then Left else Finished);
    }
  }

  lemma TaskStepsKeepCause(s: Client, e: Event)
    requires HeldForCause(s) && OfTask(e)
    ensures HeldForCause(Step(s, e))
  {
    if Gives(e) {
      GivingKeepsCause(s, e);
    }
  }

  lemma AdvancingKeepsCause(s: Client, d: ShutdownId)
    requires HeldForCause(s) && d in s.shutdowns
    ensures HeldForCause(AdvanceShutdown(s, d))
  {
    if s.shutdowns[d] == CapacityClosed {
      ClosingKeepsPermits(s);
    }
  }

  lemma ShutdownStepsKeepCause(s: Client, e: Event)
    requires HeldForCause(s) && !OfTask(e)
    ensures HeldForCause(Step(s, e))
  {
    if e.Advance? {
      if e.shutdown in s.shutdowns {
        AdvancingKeepsCause(s, e.shutdown);
      }
    } else {
      var s' := Step(s, e);
      assert s' == s || e.shutdown in s'.shutdowns;
    }
  }

  /** But for an arrival, a step moves nobody to another endpoint and brings nobody back. */
  ghost predicate OnlyPhases(s: Client, s': Client) {
    && s'.endpoints == s.endpoints && s'.tasks.Keys == s.tasks.Keys && s'.sems.Keys == s.sems.Keys
    && forall t | t in s.tasks ::
         && s'.tasks[t].sem == s.tasks[t].sem && s'.tasks[t].endpoint == s.tasks[t].endpoint
         && (Refers(s'.tasks[t].phase) ==> Refers(s.tasks[t].phase))
  }

  lemma OnePhaseMoves(s: Client, s': Client, t: TaskId, p: Phase)
    requires t in s.tasks && Refers(s.tasks[t].phase)
    requires s'.endpoints == s.endpoints && s'.sems.Keys == s.sems.Keys && s'.tasks == s.tasks[t := s.tasks[t].(phase := p)]
    ensures OnlyPhases(s, s')
  {
  }

  lemma TakingMovesPhases(s: Client, e: Event)
    requires Takes(e)
    ensures OnlyPhases(s, Step(s, e))
  {
    var s' := Step(s, e);
    if s' != s {
      OnePhaseMoves(s, s', e.task, s'.tasks[e.task].phase);
    }
  }

  lemma PassingMovesPhases(s: Client, e: Event)
    requires Passes(e)
    ensures OnlyPhases(s, Step(s, e))
  {
    var s' := Step(s, e);
    if s' != s {
      OnePhaseMoves(s, s', e.task, s'.tasks[e.task].phase);
    }
  }

  lemma DropMovesPhases(s: Client, t: TaskId, p: Phase)
    requires t in s.tasks && !Refers(p)
    ensures OnlyPhases(s, Drop(s, t, p))
  {
  }

  lemma StepMovesPhases(s: Client, e: Event)
    requires !e.Arrive?
    ensures OnlyPhases(s, Step(s, e))
  {
    if Takes(e) {
      TakingMovesPhases(s, e);
    } else if Passes(e) {
      PassingMovesPhases(s, e);
    } else if Gives(e) {
      if Step(s, e) != s {
        DropMovesPhases(s, e.task, if e.GiveUp? then Left else Finished);
      }
    } else {
      ShuttingKeepsPermits(s, e);
    }
  }

  lemma ArrivalStaysApart(s: Client, t: TaskId, e: Endpoint, unused: SemId)
    requires OneEndpointEach(s) && OneSemaphoreEach(s) && t !in s.tasks && unused !in s.sems
    ensures OneEndpointEach(EndpointCapacity(s, t, e, unused))
  {
    var s' := EndpointCapacity(s, t, e, unused);
    assert forall f | f in s'.endpoints && f != e :: f in s.endpoints && s'.endpoints[f] == s.endpoints[f];
    assert s'.endpoints[e] == unused || (e in s.endpoints && s'.endpoints[e] == s.endpoints[e]);
    assert forall u | u in s'.tasks && u != t :: u in s.tasks && s'.tasks[u] == s.tasks[u];
  }

  lemma EndpointsStayApart(s: Client, e: Event)
    requires OneEndpointEach(s) && OneSemaphoreEach(s)
    ensures OneEndpointEach(Step(s, e))
  {
    if e.Arrive? {
      if Step(s, e) != s {
        ArrivalStaysApart(s, e.task, e.endpoint, e.unused);
      }
    } else {
      StepMovesPhases(s, e);
    }
  }

  lemma {:induction false} RunIsSound(events: seq<Event>)
    ensures Sound(Run(New(), events))
    decreases |events|
  {
    RunStaysCounted(events);
    RunStaysLocked(events);
    BegunIsClosed(events);
    if events != [] {
      var s, e := Run(New(), events[..|events| - 1]), events[|events| - 1];
      RunIsSound(events[..|events| - 1]);
      EndpointsStayApart(s, e);
      if OfTask(e) {
        TaskStepsKeepCause(s, e);
      } else {
        ShutdownStepsKeepCause(s, e);
      }
    }
  }

  // ---------------------------------------------------------------------------------------------
  // The conditions agree

  lemma Holders(p: Phase)
    ensures InSession(p) <==> HoldsEndpoint(p)
    ensures InSession(p) && p != WaitingGlobal <==> HoldsGlobal(p)
    ensures p == WaitingEndpoint || InSession(p) <==> Refers(p)
  {
    assert IsWorker(p) <==> p == Initializing || p == Running || p == Closing;
    assert HoldsGlobal(p) <==> p == Preparing || p == Spawning || IsWorker(p);
    assert HoldsEndpoint(p) <==> p == WaitingGlobal || HoldsGlobal(p);
  }

  lemma UseIsLife(s: Client, e: Endpoint)
    requires OneSemaphoreEach(s) && OneEndpointEach(s)
    ensures InUse(Of(s), e) <==> e in s.endpoints && Alive(s, s.endpoints[e])
  {
    var x := Of(s);
    if InUse(x, e) {
      var t :| t in x.jobs && x.jobs[t].endpoint == e && (x.jobs[t].phase == WaitingEndpoint || InSession(x.jobs[t].phase));
      Holders(s.tasks[t].phase);
      assert s.endpoints[s.tasks[t].endpoint] == s.tasks[t].sem;
    }
    if e in s.endpoints && Alive(s, s.endpoints[e]) {
      var t :| t in s.tasks && s.tasks[t].sem == s.endpoints[e] && Refers(s.tasks[t].phase);
      Holders(s.tasks[t].phase);
      assert t in x.jobs && x.jobs[t] == Job(e, s.tasks[t].phase);
    }
  }

  lemma RoomIsPermits(s: Client, t: TaskId)
    requires Sound(s) && In(s, t, WaitingEndpoint)
    ensures var sem, e := s.tasks[t].sem, s.tasks[t].endpoint;
      && sem in s.sems && e in s.endpoints && s.endpoints[e] == sem
      && (s.sems[sem].free > 0 <==> |Sessions(Of(s), e)| < 4)
      && (s.sems[sem].closed <==> e in Of(s).barred)
  {
    var sem, e := s.tasks[t].sem, s.tasks[t].endpoint;
    assert Refers(s.tasks[t].phase);
    assert s.endpoints[e] == sem && Alive(s, sem);
    assert SemCounted(s, sem);
    SessionsAreHolders(s, e);
  }

  lemma SessionsAreHolders(s: Client, e: Endpoint)
    requires OneSemaphoreEach(s) && OneEndpointEach(s) && e in s.endpoints
    ensures Sessions(Of(s), e) == EndpointHolders(s.tasks, s.endpoints[e])
  {
    forall t | t in s.tasks
      ensures t in Sessions(Of(s), e) <==> t in EndpointHolders(s.tasks, s.endpoints[e])
    {
      Holders(s.tasks[t].phase);
      assert Of(s).jobs[t] == Job(s.tasks[t].endpoint, s.tasks[t].phase);
    }
  }

  lemma RoomIsGlobalPermits(s: Client)
    requires Sound(s)
    ensures s.capacity.free > 0 <==> |Admitted(Of(s))| < 32
    ensures s.capacity.closed <==> s.shutdowns != map[]
  {
    forall t | t in s.tasks ensures t in Admitted(Of(s)) <==> t in GlobalHolders(s.tasks) {
      Holders(s.tasks[t].phase);
      assert Of(s).jobs[t] == Job(s.tasks[t].endpoint, s.tasks[t].phase);
    }
    assert Admitted(Of(s)) == GlobalHolders(s.tasks);
  }

  lemma DoorIsTheLock(s: Client)
    requires Sound(s)
    ensures DoorFree(Of(s)) <==> s.lock == None
  {
    var x := Of(s);
    if s.lock.Some? {
      var h := s.lock.value;
      if h.ByTask? {
        assert h.task in x.jobs && x.jobs[h.task].phase == Spawning;
      } else {
        assert x.shutdowns[h.shutdown] == Draining;
      }
    }
  }

  // ---------------------------------------------------------------------------------------------
  // Step by step

  lemma JobsMove(tasks: map<TaskId, Task>, t: TaskId, y: Task)
    ensures JobsOf(tasks[t := y]) == JobsOf(tasks)[t := Job(y.endpoint, y.phase)]
  {
  }

  /** Jobs, shutdowns and the flag follow the rules; the bars are left to the next lemma. */
  ghost predicate Follows(s: Client, e: Event) {
    var s', x' := Step(s, e), if OfTask(e) then JobStep(Of(s), e) else ShutdownStep(Of(s), e);
    JobsOf(s'.tasks) == x'.jobs && s'.shutdowns == x'.shutdowns && s'.cancelled == x'.cancelled
  }

  lemma EndpointFollows(s: Client, t: TaskId)
    requires Sound(s)
    ensures Follows(s, GetEndpoint(t))
  {
    if In(s, t, WaitingEndpoint) {
      RoomIsPermits(s, t);
      EndpointStep(s, t);
    }
  }

  lemma EndpointStep(s: Client, t: TaskId)
    requires In(s, t, WaitingEndpoint) && s.tasks[t].sem in s.sems
    requires var sem, e := s.tasks[t].sem, s.tasks[t].endpoint;
      && (s.sems[sem].free > 0 <==> |Sessions(Of(s), e)| < 4)
      && (s.sems[sem].closed <==> e in Of(s).barred)
    ensures Follows(s, GetEndpoint(t))
  {
    JobsMove(s.tasks, t, s.tasks[t].(phase := WaitingGlobal));
  }

  lemma GlobalFollows(s: Client, t: TaskId)
    requires s.capacity.free > 0 <==> |Admitted(Of(s))| < 32
    requires s.capacity.closed <==> s.shutdowns != map[]
    ensures Follows(s, GetGlobal(t))
  {
    if t in s.tasks {
      JobsMove(s.tasks, t, s.tasks[t].(phase := Preparing));
    }
  }

  lemma ArrivingFollows(s: Client, e: Event)
    requires e.Arrive? && e.unused !in s.sems
    ensures Follows(s, e)
  {
    if e.task !in s.tasks {
      JobsMove(s.tasks, e.task, Step(s, e).tasks[e.task]);
    }
  }

  lemma DropFollows(s: Client, t: TaskId, p: Phase)
    requires t in s.tasks
    ensures var s', x' := Drop(s, t, p), To(Of(s), t, p);
      JobsOf(s'.tasks) == x'.jobs && s'.shutdowns == x'.shutdowns && s'.cancelled == x'.cancelled
  {
    DropLeavesTheRest(s, t, p);
    JobsMove(s.tasks, t, s.tasks[t].(phase := p));
  }

  lemma GiveUpFollows(s: Client, t: TaskId)
    ensures Follows(s, GiveUp(t))
  {
    if t in s.tasks {
      DropFollows(s, t, Left);
    }
  }

  lemma EndingFollows(s: Client, e: Event)
    requires e.Closed? || e.Fail?
    ensures Follows(s, e)
  {
    if e.task in s.tasks {
      DropFollows(s, e.task, Finished);
    }
  }

  lemma DoorFollows(s: Client, t: TaskId)
    requires DoorFree(Of(s)) <==> s.lock == None
    ensures Follows(s, CheckOpen(t))
  {
    if t in s.tasks {
      JobsMove(s.tasks, t, s.tasks[t].(phase := Spawning));
    }
  }

  lemma MoveFollows(s: Client, s': Client, t: TaskId, p: Phase)
    requires t in s.tasks && s'.tasks == s.tasks[t := s.tasks[t].(phase := p)]
    requires s'.shutdowns == s.shutdowns && s'.cancelled == s.cancelled
    ensures var x' := To(Of(s), t, p); JobsOf(s'.tasks) == x'.jobs && s'.shutdowns == x'.shutdowns && s'.cancelled == x'.cancelled
  {
    JobsMove(s.tasks, t, s.tasks[t].(phase := p));
  }

  lemma SpawnFollows(s: Client, t: TaskId)
    ensures Follows(s, Spawn(t))
  {
    if In(s, t, Spawning) {
      MoveFollows(s, Step(s, Spawn(t)), t, Initializing);
    }
  }

  lemma PassingFollows(s: Client, e: Event)
    requires e.Initialized? || e.Break?
    ensures Follows(s, e)
  {
    var p := if e.Initialized? then Running else Closing;
    if e.task in s.tasks {
      MoveFollows(s, Move(s, e.task, p), e.task, p);
    }
  }

  lemma DrainedIsNoWorker(s: Client)
    ensures Drained(Of(s)) <==> forall t | t in s.tasks :: !IsWorker(s.tasks[t].phase)
  {
    assert forall t | t in s.tasks :: Of(s).jobs[t].phase == s.tasks[t].phase;
    if Drained(Of(s)) {
      forall t | t in s.tasks ensures !IsWorker(s.tasks[t].phase) {
        assert t in Of(s).jobs;
      }
    }
  }

  lemma ShuttingFollows(s: Client, e: Event)
    requires !OfTask(e) && (DoorFree(Of(s)) <==> s.lock == None)
    ensures Follows(s, e)
  {
    assert Step(s, e).tasks == s.tasks by {
      ShuttingKeepsPermits(s, e);
    }
    if e.Advance? && e.shutdown in s.shutdowns {
      AdvancingFollows(s, e.shutdown);
    }
  }

  lemma AdvancingFollows(s: Client, d: ShutdownId)
    requires d in s.shutdowns && (DoorFree(Of(s)) <==> s.lock == None)
    ensures var s', x' := AdvanceShutdown(s, d), ShutdownStep(Of(s), Advance(d));
      s'.shutdowns == x'.shutdowns && s'.cancelled == x'.cancelled && x'.jobs == JobsOf(s.tasks)
  {
    if s.shutdowns[d] == CapacityClosed {
      ClosingKeepsPermits(s);
    } else if s.shutdowns[d] == Draining {
      DrainedIsNoWorker(s);
    }
  }

  lemma StepFollows(s: Client, e: Event)
    requires Sound(s) && (e.Arrive? ==> e.unused !in s.sems)
    ensures Follows(s, e)
  {
    if e.GetEndpoint? {
      EndpointFollows(s, e.task);
    } else if e.GetGlobal? {
      RoomIsGlobalPermits(s);
      GlobalFollows(s, e.task);
    } else if e.Arrive? {
      ArrivingFollows(s, e);
    } else if e.GiveUp? {
      GiveUpFollows(s, e.task);
    } else if e.Closed? || e.Fail? {
      EndingFollows(s, e);
    } else if e.Spawn? {
      SpawnFollows(s, e.task);
    } else if e.Initialized? || e.Break? {
      PassingFollows(s, e);
    } else {
      DoorIsTheLock(s);
      if e.CheckOpen? {
        DoorFollows(s, e.task);
      } else {
        ShuttingFollows(s, e);
      }
    }
  }

  // ---------------------------------------------------------------------------------------------
  // Bars

  predicate ClosesEndpoints(s: Client, e: Event) {
    e.Advance? && e.shutdown in s.shutdowns && s.shutdowns[e.shutdown] == CapacityClosed
  }

  lemma ClosingCloses(s: Client, sem: SemId)
    requires OneSemaphoreEach(s) && sem in s.sems
    ensures var s' := CloseEndpoints(s); sem in s'.sems && (s'.sems[sem].closed <==> s.sems[sem].closed || Alive(s, sem))
  {
    if Alive(s, sem) {
      var t :| t in s.tasks && s.tasks[t].sem == sem && Refers(s.tasks[t].phase);
      assert s.endpoints[s.tasks[t].endpoint] == sem;
    }
  }

  /** A semaphore is closed by a shutdown that finds it in use, and by nothing else. */
  lemma OnlyClosingCloses(s: Client, e: Event, sem: SemId)
    requires OneSemaphoreEach(s) && sem in s.sems
    ensures var s' := Step(s, e);
      sem in s'.sems && (s'.sems[sem].closed <==> s.sems[sem].closed || (ClosesEndpoints(s, e) && Alive(s, sem)))
  {
    if ClosesEndpoints(s, e) {
      assert Step(s, e).sems == CloseEndpoints(s).sems;
      ClosingCloses(s, sem);
    } else if Gives(e) {
      if Step(s, e) != s {
        DropLeavesTheRest(s, e.task, if e.GiveUp? then Left else Finished);
      }
    } else if !OfTask(e) {
      ShutdownsLeaveThem(s, e);
    }
  }

  lemma ShutdownsLeaveThem(s: Client, e: Event)
    requires !OfTask(e) && !ClosesEndpoints(s, e)
    ensures Step(s, e).sems == s.sems
  {
  }

  /** Nobody comes back to an endpoint's old semaphore. */
  lemma LifeIsNotRenewed(s: Client, e: Event, f: Endpoint)
    requires !e.Arrive? && f in s.endpoints && Alive(Step(s, e), s.endpoints[f])
    ensures Step(s, e).endpoints == s.endpoints && Alive(s, s.endpoints[f])
  {
    var s' := Step(s, e);
    StepMovesPhases(s, e);
    var t :| t in s'.tasks && s'.tasks[t].sem == s.endpoints[f] && Refers(s'.tasks[t].phase);
    assert t in s.tasks && s.tasks[t].sem == s'.tasks[t].sem && Refers(s.tasks[t].phase);
  }

  /** An arrival joins its endpoint's semaphore while that is in use, and has a new one otherwise. */
  lemma ArrivalKeepsBars(s: Client, t: TaskId, e: Endpoint, unused: SemId, f: Endpoint)
    requires OneSemaphoreEach(s) && OneEndpointEach(s) && t !in s.tasks && unused !in s.sems
    ensures var s' := EndpointCapacity(s, t, e, unused);
      f in s'.endpoints && Alive(s', s'.endpoints[f]) ==> (f in Barred(s') <==> f in Barred(s))
  {
    var s' := EndpointCapacity(s, t, e, unused);
    var kept := Retained(s);
    if f in s'.endpoints && Alive(s', s'.endpoints[f]) {
      if f in kept {
        assert s'.endpoints[f] == s.endpoints[f] && Alive(s, s.endpoints[f]);
        assert s'.sems[s'.endpoints[f]] == s.sems[s.endpoints[f]];
      } else {
        assert f == e && s'.endpoints[f] == unused && !s'.sems[unused].closed;
        assert f !in Barred(s);
      }
    }
  }

  lemma BarFollows(s: Client, e: Event, f: Endpoint)
    requires OneSemaphoreEach(s) && OneEndpointEach(s) && (e.Arrive? ==> e.unused !in s.sems)
    requires var s' := Step(s, e); f in s'.endpoints && Alive(s', s'.endpoints[f])
    ensures f in Barred(Step(s, e)) <==>
      f in Barred(s) || (ClosesEndpoints(s, e) && f in s.endpoints && Alive(s, s.endpoints[f]))
  {
    var s' := Step(s, e);
    if e.Arrive? {
      if s' != s {
        ArrivalKeepsBars(s, e.task, e.endpoint, e.unused, f);
      }
    } else {
      StepMovesPhases(s, e);
      LifeIsNotRenewed(s, e, f);
      OnlyClosingCloses(s, e, s.endpoints[f]);
    }
  }

  lemma UsedAreInUse(x: Simple, f: Endpoint)
    ensures f in UsedEndpoints(x) <==> InUse(x, f)
  {
  }

  lemma SameUse(x: Simple, y: Simple, f: Endpoint)
    requires x.jobs == y.jobs
    ensures InUse(x, f) <==> InUse(y, f)
  {
  }

  lemma BarsFollow(s: Client, e: Event)
    requires Sound(s) && Sound(Step(s, e)) && Follows(s, e) && (e.Arrive? ==> e.unused !in s.sems)
    ensures Barred(Step(s, e)) == SimpleStep(Of(s), e).barred
  {
    var s', x := Step(s, e), Of(s);
    var x' := if OfTask(e) then JobStep(x, e) else ShutdownStep(x, e);
    RulesBar(s, e);
    forall f ensures f in Barred(s') <==> f in x'.barred && InUse(x', f) {
      OneBarFollows(s, e, f, x');
    }
  }

  /** Before the bars of unused endpoints are lifted. */
  lemma RulesBar(s: Client, e: Event)
    ensures (if OfTask(e) then JobStep(Of(s), e) else ShutdownStep(Of(s), e)).barred
         == if ClosesEndpoints(s, e) then UsedEndpoints(Of(s)) else Barred(s)
  {
  }

  lemma OneBarFollows(s: Client, e: Event, f: Endpoint, x': Simple)
    requires OneSemaphoreEach(s) && OneEndpointEach(s) && OneSemaphoreEach(Step(s, e)) && OneEndpointEach(Step(s, e))
    requires x'.jobs == JobsOf(Step(s, e).tasks) && (e.Arrive? ==> e.unused !in s.sems)
    requires x'.barred == if ClosesEndpoints(s, e) then UsedEndpoints(Of(s)) else Barred(s)
    ensures f in Barred(Step(s, e)) <==> f in x'.barred && InUse(x', f)
  {
    var s' := Step(s, e);
    SameUse(Of(s'), x', f);
    UsedAreInUse(Of(s), f);
    UseIsLife(s', f);
    UseIsLife(s, f);
    if f in s'.endpoints && Alive(s', s'.endpoints[f]) {
      BarFollows(s, e, f);
    }
  }

  /**
   Over every run the client's semaphores, its weak entries and its lock come to these rules: a connect
   gets its endpoint exactly when fewer than four are in session there and no shutdown has barred it,
   the global permit exactly when fewer than 32 hold one and no shutdown has begun, and starts its
   worker exactly when nobody else is at the door and nothing has been cancelled; and a shutdown
   returns exactly when no worker is left.
   */
  lemma {:induction false} ClientFollowsTheRules(events: seq<Event>)
    requires NewSemaphores(events)
    ensures Of(Run(New(), events)) == SimpleRun(events)
    decreases |events|
  {
    if events != [] {
      var front, e := events[..|events| - 1], events[|events| - 1];
      assert NewSemaphores(front) by {
        assert forall i | 0 <= i < |front| :: front[..i] == events[..i];
      }
      ClientFollowsTheRules(front);
      LastFollows(events);
    }
  }

  lemma LastFollows(events: seq<Event>)
    requires events != [] && NewSemaphores(events)
    ensures Of(Run(New(), events)) == SimpleStep(Of(Run(New(), events[..|events| - 1])), events[|events| - 1])
  {
    var s, e := Run(New(), events[..|events| - 1]), events[|events| - 1];
    RunIsSound(events[..|events| - 1]);
    RunIsSound(events);
    assert Run(New(), events) == Step(s, e);
    StepFollows(s, e);
    BarsFollow(s, e);
  }
}
