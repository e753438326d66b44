/** What the admission limiter guarantees over every run. */
module AdmissionBounds {
  import opened Rows
  import opened FixedWindows
  import opened AuthAdmission

  // ---------------------------------------------------------------------------------------------
  // Places in flight

  /** The live lifetimes of a source. */
  ghost function Living(guards: map<nat, Guard>, ip: Ip): set<nat> {
    set g | g in guards && guards[g].source == ip
  }

  ghost predicate PlacesCounted(s: Limiter) {
    && (forall g | g in s.guards :: g < s.unused && s.guards[g].clones >= 1)
    && (forall ip :: Active(s.budget, ip) == |Living(s.guards, ip)|)
    && (forall ip | ip in s.budget.active :: 1 <= s.budget.active[ip] <= MAX_ACTIVE_PER_SOURCE)
    && |s.budget.sources| <= MAX_SOURCE_BUCKETS
  }

  lemma AdmissionCounts(s: Limiter, k: Source, at: int)
    requires PlacesCounted(s) && Decide(s.budget, k, at) == Admitted
    ensures PlacesCounted(Step(s, Call(k, at)))
  {
    var s' := Step(s, Call(k, at));
    assert s'.guards == s.guards[s.unused := Guard(k.ip, 1)] && s'.unused == s.unused + 1;
    assert s'.budget.active == s.budget.active[k.ip := Active(s.budget, k.ip) + 1];
    forall ip ensures Active(s'.budget, ip) == |Living(s'.guards, ip)| {
      LivingGrows(s.guards, s.unused, k.ip, ip);
    }
    TableStaysBounded(s.budget, k, at);
  }

  lemma LivingGrows(guards: map<nat, Guard>, g: nat, ip: Ip, other: Ip)
    requires g !in guards
    ensures |Living(guards[g := Guard(ip, 1)], other)| == |Living(guards, other)| + if other == ip then 1 else 0
  {
    assert Living(guards[g := Guard(ip, 1)], other) == Living(guards, other) + (if other == ip then {g} else {});
  }

  lemma EvictShrinks(sources: map<Source, Window>, active: map<Ip, nat>, now: int)
    ensures |Evict(sources, active, now)| <= |sources|
  {
    SubmapIsSmaller(Evict(sources, active, now), sources);
  }

  lemma SubmapIsSmaller(a: map<Source, Window>, b: map<Source, Window>)
    requires a.Keys <= b.Keys
    ensures |a| <= |b|
  {
    SubsetIsSmaller(a.Keys, b.Keys);
  }

  lemma {:induction false} SubsetIsSmaller(a: set<Source>, b: set<Source>)
    requires a <= b
    ensures |a| <= |b|
  {
    assert b == a + (b - a);
  }

  lemma OneMoreKey(sources: map<Source, Window>, k: Source, w: Window)
    ensures |sources[k := w]| == |sources| + if k in sources then 0 else 1
  {
    assert sources[k := w].Keys == sources.Keys + {k};
  }

  lemma TableStaysBounded(b: Budget, k: Source, at: int)
    requires |b.sources| <= MAX_SOURCE_BUCKETS
    ensures |Settle(b, k, at).sources| <= MAX_SOURCE_BUCKETS
  {
    var sources := Swept(b.sources, b.active, k, at);
    EvictShrinks(b.sources, b.active, at);
    var w := SourceWindow(sources, k, at);
    OneMoreKey(sources, k, w);
    OneMoreKey(sources, k, Window(w.openedAt, w.count + 1));
    assert Settle(b, k, at).sources == Spend(b, k, at).sources;
  }

  lemma DropCounts(s: Limiter, g: nat)
    requires PlacesCounted(s)
    ensures PlacesCounted(Step(s, DropLifetime(g)))
  {
    var s' := Step(s, DropLifetime(g));
    if g in s.guards {
      var ip := s.guards[g].source;
      assert g in Living(s.guards, ip);
      assert Active(s.budget, ip) >= 1;
      forall other ensures Active(s'.budget, other) == |Living(s'.guards, other)| {
        assert Living(s'.guards, other) ==
          if s.guards[g].clones == 1 && other == ip then Living(s.guards, other) - {g} else Living(s.guards, other);
      }
    }
  }

  lemma CloneCounts(s: Limiter, g: nat)
    requires PlacesCounted(s)
    ensures PlacesCounted(Step(s, CloneLifetime(g)))
  {
    var s' := Step(s, CloneLifetime(g));
    forall ip ensures Active(s'.budget, ip) == |Living(s'.guards, ip)| {
      assert Living(s'.guards, ip) == Living(s.guards, ip);
    }
  }

  /**
   In every run of calls, clones and drops, a source's count is the number of its live lifetimes,
   it is absent at zero, it is never above two, and the table never outgrows its bound.
   */
  lemma {:induction false} ActiveIsTheLivingLifetimes(start: int, ops: seq<Op>)
    ensures PlacesCounted(Run(Start(start), ops))
    decreases |ops|
  {
    if ops == [] {
      assert forall ip :: Living(Start(start).guards, ip) == {};
    } else {
      ActiveIsTheLivingLifetimes(start, ops[..|ops| - 1]);
      var s, op := Run(Start(start), ops[..|ops| - 1]), ops[|ops| - 1];
      match op
      case Call(k, at) =>
        if Decide(s.budget, k, at) == Admitted {
          AdmissionCounts(s, k, at);
        } else {
          TableStaysBounded(s.budget, k, at);
        }
      case CloneLifetime(g) => CloneCounts(s, g);
      case DropLifetime(g) => DropCounts(s, g);
    }
  }

  /** A refusal spends nothing: no place, no grant, and no window but one that had expired. */
  lemma RefusalSpendsNothing(s: Limiter, k: Source, at: int)
    requires Decide(s.budget, k, at) != Admitted
    ensures var b, b' := s.budget, Step(s, Call(k, at)).budget;
      && Step(s, Call(k, at)).guards == s.guards
      && b'.active == b.active
      && b'.global == Refresh(b.global, WINDOW, at)
      && (forall j | j in b'.sources :: j in b.sources && b'.sources[j] == b.sources[j])
      && (forall j | j in b.sources && j !in b'.sources :: Expired(b.sources[j], WINDOW, at))
  {
  }

  // ---------------------------------------------------------------------------------------------
  // A table that never forgets

  /** The same decision over a table that holds every source there ever was. */
  function Remembered(b: Budget, k: Source, now: int): Answer {
    if Refresh(b.global, WINDOW, now).count >= GLOBAL_LIMIT then GloballyLimited
    else if Active(b, k.ip) >= MAX_ACTIVE_PER_SOURCE then Busy
    else if SourceWindow(b.sources, k, now).count >= SourceLimit(k.kind) then SourceLimited
    else Admitted
  }

  function RememberingSpend(b: Budget, k: Source, now: int, answer: Answer): Budget {
    var global := Refresh(b.global, WINDOW, now);
    var w := SourceWindow(b.sources, k, now);
    if answer == Admitted then
      b.(global := Window(global.openedAt, global.count + 1),
         sources := b.sources[k := Window(w.openedAt, w.count + 1)],
         active := b.active[k.ip := Active(b, k.ip) + 1])
    else b.(global := global)
  }

  /** One step of it. A call the real table refused for want of room is refused here too. */
  function RememberingStep(r: Limiter, op: Op, full: bool): Limiter {
    match op
    case Call(k, at) =>
      var answer := if full then TableFull else Remembered(r.budget, k, at);
      var r' := r.(budget := RememberingSpend(r.budget, k, at, answer), log := r.log + [Entry(k, at, answer)]);
      if answer == Admitted then r'.(guards := r.guards[r.unused := Guard(k.ip, 1)], unused := r.unused + 1) else r'
    case CloneLifetime(g) => Step(r, op)
    case DropLifetime(g) => Step(r, op)
  }

  function Shadow(start: int, ops: seq<Op>): Limiter
    decreases |ops|
  {
    if ops == [] then Start(start)
    else
      var s, op := Run(Start(start), ops[..|ops| - 1]), ops[|ops| - 1];
      RememberingStep(Shadow(start, ops[..|ops| - 1]), op, op.Call? && Decide(s.budget, op.source, op.at) == TableFull)
  }

  /** Whatever the real table has forgotten had expired. */
  ghost predicate ForgetsSources(sources: map<Source, Window>, all: map<Source, Window>, now: int) {
    && (forall k | k in sources :: k in all && all[k] == sources[k])
    && (forall k | k in all && k !in sources :: Expired(all[k], WINDOW, now))
  }

  ghost predicate ForgetsBudget(b: Budget, c: Budget, now: int) {
    b.global == c.global && b.active == c.active && ForgetsSources(b.sources, c.sources, now)
  }

  ghost predicate Forgets(s: Limiter, r: Limiter, now: int) {
    ForgetsBudget(s.budget, r.budget, now) && s.guards == r.guards && s.unused == r.unused && s.log == r.log
  }

  lemma SweepingForgets(sources: map<Source, Window>, all: map<Source, Window>, active: map<Ip, nat>, k: Source, last: int, at: int)
    requires ForgetsSources(sources, all, last) && last <= at
    ensures ForgetsSources(Swept(sources, active, k, at), all, at)
    ensures SourceWindow(Swept(sources, active, k, at), k, at) == SourceWindow(all, k, at)
  {
  }

  lemma SameAnswer(b: Budget, c: Budget, k: Source, last: int, at: int)
    requires ForgetsBudget(b, c, last) && last <= at
    ensures Decide(b, k, at) != TableFull ==> Remembered(c, k, at) == Decide(b, k, at)
  {
    SweepingForgets(b.sources, c.sources, b.active, k, last, at);
  }

  lemma GrantForgets(sources: map<Source, Window>, all: map<Source, Window>, k: Source, w: Window, now: int)
    requires ForgetsSources(sources, all, now)
    ensures ForgetsSources(sources[k := w], all[k := w], now)
  {
  }

  lemma LimitedSourceIsKnown(sources: map<Source, Window>, k: Source, now: int)
    requires SourceWindow(sources, k, now).count >= SourceLimit(k.kind)
    ensures k in sources && sources[k := SourceWindow(sources, k, now)] == sources
  {
  }

  /** The source table after a call, by its answer. */
  function SpentSources(b: Budget, k: Source, at: int, answer: Answer): map<Source, Window> {
    var sources := Swept(b.sources, b.active, k, at);
    var w := SourceWindow(sources, k, at);
    match answer
    case GloballyLimited => b.sources
    case Busy => b.sources
    case TableFull => sources
    case SourceLimited => sources[k := w]
    case Admitted => sources[k := Window(w.openedAt, w.count + 1)]
  }

  lemma SpendIsSpent(b: Budget, k: Source, at: int)
    ensures Spend(b, k, at).sources == SpentSources(b, k, at, Decide(b, k, at))
    ensures Decide(b, k, at) == SourceLimited ==>
      SourceWindow(Swept(b.sources, b.active, k, at), k, at).count >= SourceLimit(k.kind)
  {
  }

  lemma SpentStillForgets(b: Budget, c: Budget, k: Source, last: int, at: int, answer: Answer)
    requires ForgetsSources(b.sources, c.sources, last) && last <= at
    requires answer == SourceLimited ==> SourceWindow(Swept(b.sources, b.active, k, at), k, at).count >= SourceLimit(k.kind)
    ensures ForgetsSources(SpentSources(b, k, at, answer), RememberingSpend(c, k, at, answer).sources, at)
  {
    var sources := Swept(b.sources, b.active, k, at);
    SweepingForgets(b.sources, c.sources, b.active, k, last, at);
    if answer == SourceLimited {
      LimitedSourceIsKnown(sources, k, at);
    } else if answer == Admitted {
      var w := SourceWindow(sources, k, at);
      GrantForgets(sources, c.sources, k, Window(w.openedAt, w.count + 1), at);
    }
  }

  lemma StillForgets(b: Budget, c: Budget, k: Source, last: int, at: int)
    requires ForgetsBudget(b, c, last) && last <= at
    ensures ForgetsBudget(Spend(b, k, at), RememberingSpend(c, k, at, Decide(b, k, at)), at)
  {
    SpendIsSpent(b, k, at);
    SpentStillForgets(b, c, k, last, at, Decide(b, k, at));
  }

  lemma ForgettingIsHarmless(s: Limiter, r: Limiter, k: Source, last: int, at: int)
    requires Forgets(s, r, last) && last <= at
    ensures Forgets(Step(s, Call(k, at)), RememberingStep(r, Call(k, at), Decide(s.budget, k, at) == TableFull), at)
  {
    SameAnswer(s.budget, r.budget, k, last, at);
    StillForgets(s.budget, r.budget, k, last, at);
    var spent := Spend(s.budget, k, at);
    var settled := Settle(s.budget, k, at);
    assert settled.global == spent.global && settled.active == spent.active && settled.sources == spent.sources;
  }

  lemma OtherStepsForget(s: Limiter, r: Limiter, op: Op, now: int)
    requires Forgets(s, r, now) && !op.Call?
    ensures Forgets(Step(s, op), RememberingStep(r, op, false), now)
  {
  }

  lemma {:induction false} ShadowFollows(start: int, ops: seq<Op>)
    requires InOrder(start, ops)
    ensures Forgets(Run(Start(start), ops), Shadow(start, ops), LastAt(start, ops))
    decreases |ops|
  {
    if ops != [] {
      var front, op := ops[..|ops| - 1], ops[|ops| - 1];
      ShadowFollows(start, front);
      var s, r := Run(Start(start), front), Shadow(start, front);
      if op.Call? {
        LastIsNoLater(start, front, op.at);
        ForgettingIsHarmless(s, r, op.source, LastAt(start, front), op.at);
      } else {
        OtherStepsForget(s, r, op, LastAt(start, front));
      }
    }
  }

  lemma {:induction false} LastIsNoLater(start: int, ops: seq<Op>, at: int)
    requires start <= at && forall i | 0 <= i < |ops| && ops[i].Call? :: ops[i].at <= at
    ensures LastAt(start, ops) <= at
    decreases |ops|
  {
    if ops != [] && !ops[|ops| - 1].Call? {
      LastIsNoLater(start, ops[..|ops| - 1], at);
    }
  }

  /**
   Evicting expired buckets never changes an answer: call for call, the limiter answers as one whose
   table keeps every source for ever, apart from the calls it refuses because its table is full.
   */
  lemma EvictionNeverChangesAnAnswer(start: int, ops: seq<Op>)
    requires InOrder(start, ops)
    ensures Run(Start(start), ops).log == Shadow(start, ops).log
  {
    ShadowFollows(start, ops);
  }

  // ---------------------------------------------------------------------------------------------
  // Rates

  function TimeOf(e: Entry, k: Source): seq<int> {
    if e.answer == Admitted && e.source == k then [e.at] else []
  }

  /** When calls of a source were admitted. */
  function TimesOf(log: seq<Entry>, k: Source): seq<int> {
    if log == [] then [] else TimesOf(log[..|log| - 1], k) + TimeOf(log[|log| - 1], k)
  }

  function AllTimes(log: seq<Entry>): seq<int> {
    if log == [] then []
    else AllTimes(log[..|log| - 1]) + (if log[|log| - 1].answer == Admitted then [log[|log| - 1].at] else [])
  }

  ghost predicate RatesKept(r: Limiter, now: int) {
    GlobalRateKept(r, now) && forall k :: SourceRateKept(r, k, now)
  }

  ghost predicate SourceRateKept(r: Limiter, k: Source, now: int) {
    if k in r.budget.sources
    then Counts(TimesOf(r.log, k), r.budget.sources[k], WINDOW, SourceLimit(k.kind)) && r.budget.sources[k].openedAt <= now
    else TimesOf(r.log, k) == []
  }

  lemma LogGrows(log: seq<Entry>, e: Entry, k: Source)
    ensures TimesOf(log + [e], k) == TimesOf(log, k) + TimeOf(e, k)
    ensures AllTimes(log + [e]) == AllTimes(log) + (if e.answer == Admitted then [e.at] else [])
  {
    assert (log + [e])[..|log|] == log;
  }

  lemma SourceRateGrant(times: seq<int>, sources: map<Source, Window>, k: Source, at: int)
    requires if k in sources then Counts(times, sources[k], WINDOW, SourceLimit(k.kind)) && sources[k].openedAt <= at else times == []
    requires SourceWindow(sources, k, at).count < SourceLimit(k.kind)
    ensures Counts(times + [at], OneMore(SourceWindow(sources, k, at)), WINDOW, SourceLimit(k.kind))
    ensures OneMore(SourceWindow(sources, k, at)).openedAt <= at
  {
    if k in sources {
      RefreshCounts(times, sources[k], WINDOW, SourceLimit(k.kind), at);
    } else {
      NewCounter(at, WINDOW, SourceLimit(k.kind));
    }
    GrantCounts(times, SourceWindow(sources, k, at), WINDOW, SourceLimit(k.kind), at);
  }

  function OneMore(w: Window): Window { Window(w.openedAt, w.count + 1) }

  /** What one call does to what is known of source `j`. */
  ghost predicate Effect(r: Limiter, r': Limiter, k: Source, at: int, granted: bool, j: Source) {
    if granted && j == k then
      && SourceWindow(r.budget.sources, k, at).count < SourceLimit(k.kind)
      && TimesOf(r'.log, k) == TimesOf(r.log, k) + [at]
      && k in r'.budget.sources && r'.budget.sources[k] == OneMore(SourceWindow(r.budget.sources, k, at))
    else
      && TimesOf(r'.log, j) == TimesOf(r.log, j)
      && (j in r'.budget.sources <==> j in r.budget.sources)
      && (j in r.budget.sources ==> r'.budget.sources[j] == r.budget.sources[j])
  }

  lemma RememberedCall(r: Limiter, k: Source, at: int, full: bool, j: Source)
    ensures var granted := !full && Remembered(r.budget, k, at) == Admitted;
      Effect(r, RememberingStep(r, Call(k, at), full), k, at, granted, j)
  {
    var r' := RememberingStep(r, Call(k, at), full);
    LogGrows(r.log, r'.log[|r.log|], j);
    assert TimesOf(r.log, j) + [] == TimesOf(r.log, j);
  }

  lemma RememberedGlobally(r: Limiter, k: Source, at: int, full: bool)
    ensures var r', granted := RememberingStep(r, Call(k, at), full), !full && Remembered(r.budget, k, at) == Admitted;
      var live := Refresh(r.budget.global, WINDOW, at);
      && AllTimes(r'.log) == (if granted then AllTimes(r.log) + [at] else AllTimes(r.log))
      && r'.budget.global == (if granted then OneMore(live) else live)
      && (granted ==> live.count < GLOBAL_LIMIT)
  {
    var r' := RememberingStep(r, Call(k, at), full);
    LogGrows(r.log, r'.log[|r.log|], k);
    assert AllTimes(r.log) + [] == AllTimes(r.log);
  }

  lemma SourceRateUnchanged(r: Limiter, r': Limiter, j: Source, last: int, at: int)
    requires SourceRateKept(r, j, last) && last <= at && TimesOf(r'.log, j) == TimesOf(r.log, j)
    requires j in r'.budget.sources <==> j in r.budget.sources
    requires j in r.budget.sources ==> r'.budget.sources[j] == r.budget.sources[j]
    ensures SourceRateKept(r', j, at)
  {
  }

  lemma SourceRateGranted(r: Limiter, r': Limiter, k: Source, last: int, at: int)
    requires SourceRateKept(r, k, last) && last <= at && SourceWindow(r.budget.sources, k, at).count < SourceLimit(k.kind)
    requires TimesOf(r'.log, k) == TimesOf(r.log, k) + [at] && k in r'.budget.sources
    requires r'.budget.sources[k] == OneMore(SourceWindow(r.budget.sources, k, at))
    ensures SourceRateKept(r', k, at)
  {
    var times, w := TimesOf(r.log, k), SourceWindow(r.budget.sources, k, at);
    assert Counts(times + [at], OneMore(w), WINDOW, SourceLimit(k.kind)) && OneMore(w).openedAt <= at by {
      SourceRateGrant(times, r.budget.sources, k, at);
    }
    assert Counts(TimesOf(r'.log, k), r'.budget.sources[k], WINDOW, SourceLimit(k.kind));
  }

  lemma SourceRateStep(r: Limiter, r': Limiter, k: Source, at: int, last: int, granted: bool, j: Source)
    requires SourceRateKept(r, j, last) && last <= at && Effect(r, r', k, at, granted, j)
    ensures SourceRateKept(r', j, at)
  {
    if granted && j == k {
      SourceRateGranted(r, r', k, last, at);
    } else {
      SourceRateUnchanged(r, r', j, last, at);
    }
  }

  lemma GlobalRateGrant(times: seq<int>, w: Window, at: int)
    requires Counts(times, w, WINDOW, GLOBAL_LIMIT) && w.openedAt <= at && Refresh(w, WINDOW, at).count < GLOBAL_LIMIT
    ensures Counts(times + [at], OneMore(Refresh(w, WINDOW, at)), WINDOW, GLOBAL_LIMIT)
  {
    RefreshCounts(times, w, WINDOW, GLOBAL_LIMIT, at);
    GrantCounts(times, Refresh(w, WINDOW, at), WINDOW, GLOBAL_LIMIT, at);
  }

  ghost predicate GlobalRateKept(r: Limiter, now: int) {
    Counts(AllTimes(r.log), r.budget.global, WINDOW, GLOBAL_LIMIT) && r.budget.global.openedAt <= now
  }

  lemma GlobalRateStep(r: Limiter, r': Limiter, at: int, last: int, granted: bool)
    requires GlobalRateKept(r, last) && last <= at
    requires AllTimes(r'.log) == (if granted then AllTimes(r.log) + [at] else AllTimes(r.log))
    requires r'.budget.global == (if granted then OneMore(Refresh(r.budget.global, WINDOW, at)) else Refresh(r.budget.global, WINDOW, at))
    requires granted ==> Refresh(r.budget.global, WINDOW, at).count < GLOBAL_LIMIT
    ensures GlobalRateKept(r', at)
  {
    if granted {
      GlobalRateGrant(AllTimes(r.log), r.budget.global, at);
    } else {
      RefreshCounts(AllTimes(r.log), r.budget.global, WINDOW, GLOBAL_LIMIT, at);
    }
  }

  lemma RatesStep(r: Limiter, k: Source, at: int, last: int, full: bool)
    requires RatesKept(r, last) && last <= at
    ensures RatesKept(RememberingStep(r, Call(k, at), full), at)
  {
    var r', granted := RememberingStep(r, Call(k, at), full), !full && Remembered(r.budget, k, at) == Admitted;
    RememberedGlobally(r, k, at, full);
    GlobalRateStep(r, r', at, last, granted);
    forall j ensures SourceRateKept(r', j, at) {
      RememberedCall(r, k, at, full, j);
      SourceRateStep(r, r', k, at, last, granted, j);
    }
  }

  lemma {:induction false} ShadowKeepsRates(start: int, ops: seq<Op>)
    requires InOrder(start, ops)
    ensures RatesKept(Shadow(start, ops), LastAt(start, ops))
    decreases |ops|
  {
    if ops == [] {
      NewCounter(start, WINDOW, GLOBAL_LIMIT);
    } else {
      var front, op := ops[..|ops| - 1], ops[|ops| - 1];
      ShadowKeepsRates(start, front);
      var r := Shadow(start, front);
      if op.Call? {
        LastIsNoLater(start, front, op.at);
        RatesStep(r, op.source, op.at, LastAt(start, front),
                  Decide(Run(Start(start), front).budget, op.source, op.at) == TableFull);
      } else {
        OtherStepsKeepRates(r, op, LastAt(start, front));
      }
    }
  }

  lemma OtherStepsKeepRates(r: Limiter, op: Op, now: int)
    requires RatesKept(r, now) && !op.Call?
    ensures RatesKept(RememberingStep(r, op, false), now)
  {
    var r' := RememberingStep(r, op, false);
    assert r'.log == r.log && r'.budget.global == r.budget.global && r'.budget.sources == r.budget.sources;
    forall k ensures SourceRateKept(r', k, now) {
      assert SourceRateKept(r, k, now);
    }
  }

  /**
   With a clock that never runs backwards, any half-open span of sixty seconds admits at most twice
   the limit of a source and kind, and at most 1200 calls in all.
   */
  lemma RatesAreBounded(start: int, ops: seq<Op>, k: Source, from: int)
    requires InOrder(start, ops)
    ensures var log := Run(Start(start), ops).log;
      && InSpan(TimesOf(log, k), from, WINDOW) <= 2 * SourceLimit(k.kind)
      && InSpan(AllTimes(log), from, WINDOW) <= 1200
  {
    EvictionNeverChangesAnAnswer(start, ops);
    ShadowKeepsRates(start, ops);
    var r := Shadow(start, ops);
    assert SourceRateKept(r, k, LastAt(start, ops));
    if k in r.budget.sources {
      assert InSpan(TimesOf(r.log, k), from, WINDOW) <= 2 * SourceLimit(k.kind);
    }
    assert InSpan(AllTimes(r.log), from, WINDOW) <= 2 * GLOBAL_LIMIT;
  }

  // ---------------------------------------------------------------------------------------------
  // Metrics

  function Counted(counts: Snapshot, kind: Kind, accepted: bool): nat {
    Get(if accepted then counts.accepted else counts.limited, kind)
  }

  function EmittedTotal(emitted: seq<Snapshot>, kind: Kind, accepted: bool): nat {
    if emitted == [] then 0
    else EmittedTotal(emitted[..|emitted| - 1], kind, accepted) + Counted(emitted[|emitted| - 1], kind, accepted)
  }

  predicate Matches(e: Entry, kind: Kind, accepted: bool) {
    e.source.kind == kind && (e.answer == Admitted) == accepted
  }

  function CallsOf(log: seq<Entry>, kind: Kind, accepted: bool): nat {
    if log == [] then 0
    else CallsOf(log[..|log| - 1], kind, accepted) + (if Matches(log[|log| - 1], kind, accepted) then 1 else 0)
  }

  lemma {:induction false} CallsAreCalls(log: seq<Entry>, kind: Kind, accepted: bool)
    ensures CallsOf(log, kind, accepted) <= |log|
  {
    if log != [] {
      CallsAreCalls(log[..|log| - 1], kind, accepted);
    }
  }

  lemma RecordCounts(b: Budget, kind: Kind, accepted: bool, now: int, k: Kind, a: bool)
    requires Counted(b.metrics.counts, kind, accepted) < U64_MAX
    ensures var b' := Record(b, kind, accepted, now);
      EmittedTotal(b'.emitted, k, a) + Counted(b'.metrics.counts, k, a)
      == EmittedTotal(b.emitted, k, a) + Counted(b.metrics.counts, k, a) + (if k == kind && a == accepted then 1 else 0)
  {
    var b' := Record(b, kind, accepted, now);
    if now - b.metrics.openedAt >= WINDOW {
      assert b'.emitted[..|b'.emitted| - 1] == b.emitted;
    }
  }

  /** The counts are right for one kind and outcome. */
  ghost predicate CountsCalls(s: Limiter, kind: Kind, accepted: bool) {
    EmittedTotal(s.budget.emitted, kind, accepted) + Counted(s.budget.metrics.counts, kind, accepted)
      == CallsOf(s.log, kind, accepted)
  }

  lemma OneMoreCall(log: seq<Entry>, e: Entry, kind: Kind, accepted: bool)
    ensures CallsOf(log + [e], kind, accepted) == CallsOf(log, kind, accepted) + if Matches(e, kind, accepted) then 1 else 0
  {
    assert (log + [e])[..|log|] == log;
  }

  lemma SpendCountsNothing(b: Budget, k: Source, at: int)
    ensures Spend(b, k, at).metrics == b.metrics && Spend(b, k, at).emitted == b.emitted
  {
  }

  lemma CallIsCounted(s: Limiter, k: Source, at: int, kind: Kind, accepted: bool)
    requires |s.log| < U64_MAX && CountsCalls(s, kind, accepted)
    requires CountsCalls(s, k.kind, Decide(s.budget, k, at) == Admitted)
    ensures CountsCalls(Step(s, Call(k, at)), kind, accepted)
  {
    var answer := Decide(s.budget, k, at);
    CallsAreCalls(s.log, k.kind, answer == Admitted);
    SpendCountsNothing(s.budget, k, at);
    RecordCounts(Spend(s.budget, k, at), k.kind, answer == Admitted, at, kind, accepted);
    OneMoreCall(s.log, Entry(k, at, answer), kind, accepted);
  }

  lemma OtherStepsAreNotCounted(s: Limiter, op: Op, kind: Kind, accepted: bool)
    requires CountsCalls(s, kind, accepted) && !op.Call?
    ensures CountsCalls(Step(s, op), kind, accepted) && Step(s, op).log == s.log
  {
    var s' := Step(s, op);
    assert s'.budget.metrics == s.budget.metrics && s'.budget.emitted == s.budget.emitted;
  }

  /**
   The rollups handed over, plus the window still open, count every call once by kind and outcome,
   as long as no counter can have saturated.
   */
  lemma {:induction false} EveryCallIsCountedOnce(start: int, ops: seq<Op>, kind: Kind, accepted: bool)
    requires |Run(Start(start), ops).log| <= U64_MAX
    ensures CountsCalls(Run(Start(start), ops), kind, accepted)
    decreases |ops|
  {
    if ops != [] {
      var front, op := ops[..|ops| - 1], ops[|ops| - 1];
      var s := Run(Start(start), front);
      LogIsKept(s, op);
      EveryCallIsCountedOnce(start, front, kind, accepted);
      if op.Call? {
        EveryCallIsCountedOnce(start, front, op.source.kind, Decide(s.budget, op.source, op.at) == Admitted);
        CallIsCounted(s, op.source, op.at, kind, accepted);
      } else {
        OtherStepsAreNotCounted(s, op, kind, accepted);
      }
    }
  }

  lemma LogIsKept(s: Limiter, op: Op)
    ensures |Step(s, op).log| == |s.log| + if op.Call? then 1 else 0
  {
  }
}
