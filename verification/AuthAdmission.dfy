/**
 Early, bounded admission for public authentication work: one limiter per server instance.

 Time is in seconds and the mutex makes each call one step.
 */
module AuthAdmission {
  import opened Rows
  import opened FixedWindows

  const WINDOW := 60
  const GLOBAL_LIMIT := 600
  const MAX_SOURCE_BUCKETS := 4096
  const MAX_ACTIVE_PER_SOURCE := 2
  const U64_MAX := 0xFFFF_FFFF_FFFF_FFFF

  type Ip = nat

  datatype Kind = Login | Registration | Confirmation | Oauth | Credential

  function SourceLimit(kind: Kind): nat {
    match kind
    case Login => 30
    case Registration => 12
    case Confirmation => 12
    case Credential => 12
    case Oauth => 30
  }

  datatype Source = Source(ip: Ip, kind: Kind)

  datatype Snapshot = Snapshot(accepted: map<Kind, nat>, limited: map<Kind, nat>)
  datatype Metrics = Metrics(openedAt: int, counts: Snapshot)

  datatype Answer = Admitted | GloballyLimited | Busy | TableFull | SourceLimited

  /** One in-flight lifetime and how many clones of it are alive. */
  datatype Guard = Guard(source: Ip, clones: nat)

  datatype Budget = Budget(
    global: Window, sources: map<Source, Window>, active: map<Ip, nat>, metrics: Metrics, emitted: seq<Snapshot>)

  // ---------------------------------------------------------------------------------------------
  // Metrics

  function Get(counts: map<Kind, nat>, kind: Kind): nat {
    if kind in counts then counts[kind] else 0
  }

  function SaturatingBump(counts: map<Kind, nat>, kind: Kind): map<Kind, nat> {
    counts[kind := if Get(counts, kind) < U64_MAX then Get(counts, kind) + 1 else U64_MAX]
  }

  function NoCounts(): Snapshot { Snapshot(map[], map[]) }

  /** Count one call, first handing over a window that has run its time. */
  function Record(b: Budget, kind: Kind, accepted: bool, now: int): Budget {
    var over := now - b.metrics.openedAt >= WINDOW;
    var counts := if over then NoCounts() else b.metrics.counts;
    var emitted := if over then b.emitted + [b.metrics.counts] else b.emitted;
    var counts' := if accepted then counts.(accepted := SaturatingBump(counts.accepted, kind))
                   else counts.(limited := SaturatingBump(counts.limited, kind));
    b.(metrics := Metrics(if over then now else b.metrics.openedAt, counts'), emitted := emitted)
  }

  // ---------------------------------------------------------------------------------------------
  // Admission

  function Active(b: Budget, ip: Ip): nat {
    if ip in b.active then b.active[ip] else 0
  }

  /** Drop the windows that have expired, except those of sources with work in flight. */
  function Evict(sources: map<Source, Window>, active: map<Ip, nat>, now: int): map<Source, Window> {
    map k | k in sources && (!Expired(sources[k], WINDOW, now) || k.ip in active) :: sources[k]
  }

  /** The source table as an admission finds it: swept first, when it is full and the source is new. */
  function Swept(sources: map<Source, Window>, active: map<Ip, nat>, k: Source, now: int): map<Source, Window> {
    if k !in sources && |sources| >= MAX_SOURCE_BUCKETS then Evict(sources, active, now) else sources
  }

  function SourceWindow(sources: map<Source, Window>, k: Source, now: int): Window {
    Refresh(if k in sources then sources[k] else Window(now, 0), WINDOW, now)
  }

  function Decide(b: Budget, k: Source, now: int): Answer {
    var sources := Swept(b.sources, b.active, k, now);
    if Refresh(b.global, WINDOW, now).count >= GLOBAL_LIMIT then GloballyLimited
    else if Active(b, k.ip) >= MAX_ACTIVE_PER_SOURCE then Busy
    else if k !in sources && |sources| >= MAX_SOURCE_BUCKETS then TableFull
    else if SourceWindow(sources, k, now).count >= SourceLimit(k.kind) then SourceLimited
    else Admitted
  }

  /** What a call does to the windows and the places, by its answer. */
  function Spend(b: Budget, k: Source, now: int): Budget {
    var sources := Swept(b.sources, b.active, k, now);
    var global := Refresh(b.global, WINDOW, now);
    var w := SourceWindow(sources, k, now);
    match Decide(b, k, now)
    case GloballyLimited => b.(global := global)
    case Busy => b.(global := global)
    case TableFull => b.(global := global, sources := sources)
    case SourceLimited => b.(global := global, sources := sources[k := w])
    case Admitted =>
      b.(global := Window(global.openedAt, global.count + 1),
         sources := sources[k := Window(w.openedAt, w.count + 1)],
         active := b.active[k.ip := Active(b, k.ip) + 1])
  }

  function Settle(b: Budget, k: Source, now: int): Budget {
    Record(Spend(b, k, now), k.kind, Decide(b, k, now) == Admitted, now)
  }

  /** The last clone of a lifetime gives its source's place back. */
  function Release(b: Budget, ip: Ip): Budget {
    if ip !in b.active then b
    else if b.active[ip] <= 1 then b.(active := b.active - {ip})
    else b.(active := b.active[ip := b.active[ip] - 1])
  }

  // ---------------------------------------------------------------------------------------------
  // Runs

  datatype Op = Call(source: Source, at: int) | CloneLifetime(guard: nat) | DropLifetime(guard: nat)

  datatype Entry = Entry(source: Source, at: int, answer: Answer)

  datatype Limiter = Limiter(budget: Budget, guards: map<nat, Guard>, unused: nat, log: seq<Entry>)

  function Start(now: int): Limiter {
    Limiter(Budget(Window(now, 0), map[], map[], Metrics(now, NoCounts()), []), map[], 0, [])
  }

  function Step(s: Limiter, op: Op): Limiter {
    match op
    case Call(k, at) =>
      var answer := Decide(s.budget, k, at);
      var s' := s.(budget := Settle(s.budget, k, at), log := s.log + [Entry(k, at, answer)]);
      if answer == Admitted then s'.(guards := s.guards[s.unused := Guard(k.ip, 1)], unused := s.unused + 1) else s'
    case CloneLifetime(g) =>
      if g in s.guards then s.(guards := s.guards[g := s.guards[g].(clones := s.guards[g].clones + 1)]) else s
    case DropLifetime(g) =>
      if g !in s.guards then s
      else if s.guards[g].clones > 1 then s.(guards := s.guards[g := s.guards[g].(clones := s.guards[g].clones - 1)])
      else s.(guards := s.guards - {g}, budget := Release(s.budget, s.guards[g].source))
  }

  function Run(s: Limiter, ops: seq<Op>): Limiter
    decreases |ops|
  {
    if ops == [] then s else Step(Run(s, ops[..|ops| - 1]), ops[|ops| - 1])
  }

  /** Calls read the clock in the order they are made. */
  predicate InOrder(start: int, ops: seq<Op>) {
    && (forall i | 0 <= i < |ops| && ops[i].Call? :: start <= ops[i].at)
    && (forall i, j | 0 <= i < j < |ops| && ops[i].Call? && ops[j].Call? :: ops[i].at <= ops[j].at)
  }

  /** The latest time a run has seen. */
  function LastAt(start: int, ops: seq<Op>): int
    decreases |ops|
  {
    if ops == [] then start
    else if ops[|ops| - 1].Call? then ops[|ops| - 1].at
    else LastAt(start, ops[..|ops| - 1])
  }

  // ---------------------------------------------------------------------------------------------
  // The limiter as an object

  class Admission {
    var global: Window
    var sources: map<Source, Window>
    var active: map<Ip, nat>
    var metrics: Metrics
    var emitted: seq<Snapshot>
    var guards: map<nat, Guard>
    var unused: nat
    ghost var log: seq<Entry>

    ghost function State(): Limiter
      reads this
    {
      Limiter(Budget(global, sources, active, metrics, emitted), guards, unused, log)
    }

    constructor (now: int)
      ensures State() == Start(now)
    {
      global, sources, active := Window(now, 0), map[], map[];
      metrics, emitted := Metrics(now, NoCounts()), [];
      guards, unused, log := map[], 0, [];
    }

    method RecordCall(kind: Kind, accepted: bool, now: int)
      modifies `metrics, `emitted
      ensures Budget(global, sources, active, metrics, emitted)
           == Record(Budget(global, sources, active, old(metrics), old(emitted)), kind, accepted, now)
    {
      if now - metrics.openedAt >= WINDOW {
        emitted := emitted + [metrics.counts];
        metrics := Metrics(now, NoCounts());
      }
      if accepted {
        metrics := metrics.(counts := metrics.counts.(accepted := SaturatingBump(metrics.counts.accepted, kind)));
      } else {
        metrics := metrics.(counts := metrics.counts.(limited := SaturatingBump(metrics.counts.limited, kind)));
      }
    }

    /** `None` is a refusal; otherwise the identifier of the lifetime that holds the place. */
    method Admit(ip: Ip, kind: Kind, now: int) returns (lifetime: Option<nat>)
      modifies this
      ensures State() == Step(old(State()), Call(Source(ip, kind), now))
      ensures lifetime.Some? <==> Decide(old(State()).budget, Source(ip, kind), now) == Admitted
      ensures lifetime.Some? ==> lifetime.value == old(unused) && lifetime.value in guards && guards[lifetime.value] == Guard(ip, 1)
    {
      var k := Source(ip, kind);
      ghost var b := State().budget;
      log := log + [Entry(k, now, Decide(b, k, now))];
      var answer := Consider(k, now);
      RecordCall(kind, answer == Admitted, now);
      if answer != Admitted {
        return None;
      }
      lifetime := Some(unused);
      guards := guards[unused := Guard(ip, 1)];
      unused := unused + 1;
    }

    /** The decision and the budget it spends, before it is counted. */
    method Consider(k: Source, now: int) returns (answer: Answer)
      modifies `global, `sources, `active
      ensures answer == Decide(old(State()).budget, k, now)
      ensures State().budget == Spend(old(State()).budget, k, now)
      ensures State() == old(State()).(budget := State().budget)
    {
      global := Refresh(global, WINDOW, now);
      if global.count >= GLOBAL_LIMIT {
        return GloballyLimited;
      }
      if k.ip in active && active[k.ip] >= MAX_ACTIVE_PER_SOURCE {
        return Busy;
      }
      Sweep(k, now);
      if k !in sources && |sources| >= MAX_SOURCE_BUCKETS {
        return TableFull;
      }
      var w := Refresh(if k in sources then sources[k] else Window(now, 0), WINDOW, now);
      sources := sources[k := w];
      if w.count >= SourceLimit(k.kind) {
        return SourceLimited;
      }
      ghost var swept := Swept(old(sources), old(active), k, now);
      sources := sources[k := Window(w.openedAt, w.count + 1)];
      assert sources == swept[k := Window(w.openedAt, w.count + 1)];
      global := Window(global.openedAt, global.count + 1);
      active := active[k.ip := (if k.ip in active then active[k.ip] else 0) + 1];
      return Admitted;
    }

    /** When the table is full and the source is new, drop what has expired. */
    method Sweep(k: Source, now: int)
      modifies `sources
      ensures sources == Swept(old(sources), active, k, now)
    {
      if k !in sources && |sources| >= MAX_SOURCE_BUCKETS {
        sources := map s | s in sources && (!Expired(sources[s], WINDOW, now) || s.ip in active) :: sources[s];
      }
    }

    method Clone(guard: nat)
      modifies `guards
      ensures State() == Step(old(State()), CloneLifetime(guard))
    {
      if guard in guards {
        guards := guards[guard := guards[guard].(clones := guards[guard].clones + 1)];
      }
    }

    /** Dropping the last clone takes the lock and gives the place back. */
    method Drop(guard: nat)
      modifies `guards, `active
      ensures State() == Step(old(State()), DropLifetime(guard))
    {
      if guard !in guards {
        return;
      }
      var held := guards[guard];
      if held.clones > 1 {
        guards := guards[guard := held.(clones := held.clones - 1)];
        return;
      }
      guards := guards - {guard};
      if held.source in active {
        if active[held.source] <= 1 {
          active := active - {held.source};
        } else {
          active := active[held.source := active[held.source] - 1];
        }
      }
    }
  }
}
