/**
 How tangled locks deadlock: along a closed walk of locks, one commit for each link takes the link's
 first lock, an edit of its first channel queues behind it, and the commit then queues for the
 link's second lock behind the next link's edit.
 */
module GateCrossing {
  import opened GateKeys
  import opened ChannelGate
  import opened GateDeadlock

  datatype Knot = Knot(init: map<ChannelGateKey, ChannelRow>, walk: seq<Link>)

  /** The walk leads over the channels there are, back to the lock where it started. */
  predicate Tied(lockOf: ChannelGateKey -> LockId, k: Knot) {
    IsWalk(lockOf, k.init.Keys, k.walk) && lockOf(k.walk[|k.walk| - 1].second) == lockOf(k.walk[0].first)
  }

  predicate Over(k: Knot) {
    forall i | 0 <= i < |k.walk| :: k.walk[i].first in k.init && k.walk[i].second in k.init
  }

  function CommitOf(k: Knot, i: nat, phase: Phase): Txn
    requires Over(k) && i < |k.walk|
  {
    var a, b := k.walk[i].first, k.walk[i].second;
    Txn(Admit([Intent(a, k.init[a]), Intent(b, k.init[b])]), [a, b], phase)
  }

  function EditOf(k: Knot, i: nat, phase: Phase): Txn
    requires Over(k) && i < |k.walk|
  {
    var a := k.walk[i].first;
    Txn(ChangeSettings(a, k.init[a].settings), [a], phase)
  }

  /** Commits come first, edits after them. */
  function EditId(k: Knot, i: nat): TxnId { |k.walk| + i }

  lemma TiedIsOver(lockOf: ChannelGateKey -> LockId, k: Knot)
    requires Tied(lockOf, k)
    ensures Over(k)
  {
    forall i | 0 <= i < |k.walk| ensures k.walk[i].first in k.init && k.walk[i].second in k.init {
      assert IsLink(lockOf, k.init.Keys, k.walk[i]);
    }
  }

  // ---------------------------------------------------------------------------------------------
  // Everyone arrives

  ghost predicate BegunAt(k: Knot, s: System, i: nat)
    requires Over(k) && i < |k.walk|
  {
    && i in s.txns && s.txns[i] == CommitOf(k, i, Taking(0))
    && EditId(k, i) in s.txns && s.txns[EditId(k, i)] == EditOf(k, i, Taking(0))
  }

  /** The transactions of the first `m` links have begun, and nobody has asked for a lock. */
  ghost predicate Begun(k: Knot, s: System, m: nat)
    requires Over(k) && m <= |k.walk|
  {
    && s.channels == k.init && s.requests == map[]
    && (forall r | r in s.routers :: r < m)
    && (forall t | t in s.txns :: t < m || (|k.walk| <= t && t < |k.walk| + m))
    && (forall i: nat | i < m :: BegunAt(k, s, i))
  }

  function Arrival(k: Knot, i: nat): seq<Action>
    requires Over(k) && i < |k.walk|
  {
    var a, b := k.walk[i].first, k.walk[i].second;
    [Route(i, a), Route(i, b), BeginCommit(i, i), BeginEdit(EditId(k, i), a, k.init[a].settings)]
  }

  function Arrivals(k: Knot, m: nat): seq<Action>
    requires Over(k) && m <= |k.walk|
  {
    if m == 0 then [] else Arrivals(k, m - 1) + Arrival(k, m - 1)
  }

  lemma OrderOfTwo(k: Knot, i: nat)
    requires Over(k) && i < |k.walk| && Before(k.walk[i].first, k.walk[i].second)
    ensures Begin(CommitOf(k, i, Taking(0)).job) == CommitOf(k, i, Taking(0))
  {
    var a, b := k.walk[i].first, k.walk[i].second;
    assert KeysOf(CommitOf(k, i, Taking(0)).job) == [a, b];
    AcquireOrderIsStrict([a, b]);
    StrictOrderIsUnique(AcquireOrder([a, b]), [a, b]);
  }

  lemma OrderOfOne(k: Knot, i: nat)
    requires Over(k) && i < |k.walk|
    ensures Begin(EditOf(k, i, Taking(0)).job) == EditOf(k, i, Taking(0))
  {
    AcquireOrderIsStrict([k.walk[i].first]);
    StrictOrderIsUnique(AcquireOrder([k.walk[i].first]), [k.walk[i].first]);
  }

  lemma {:induction false} FourSteps(lockOf: ChannelGateKey -> LockId, s: System, a: Action, b: Action, c: Action, d: Action)
    ensures Run(lockOf, s, [a, b, c, d]) == Step(lockOf, Step(lockOf, Step(lockOf, Step(lockOf, s, a), b), c), d)
  {
    assert [a, b, c, d][..3] == [a, b, c];
    assert [a, b, c][..2] == [a, b];
    assert [a, b][..1] == [a];
    assert [a][..0] == [];
    assert Run(lockOf, s, [a]) == Step(lockOf, Run(lockOf, s, []), a);
    assert Run(lockOf, s, [a, b]) == Step(lockOf, Run(lockOf, s, [a]), b);
    assert Run(lockOf, s, [a, b, c]) == Step(lockOf, Run(lockOf, s, [a, b]), c);
  }

  lemma RouterReads(lockOf: ChannelGateKey -> LockId, k: Knot, s: System, i: nat)
    requires Over(k) && i < |k.walk| && s.channels == k.init && i !in s.routers
    ensures Step(lockOf, Step(lockOf, s, Arrival(k, i)[0]), Arrival(k, i)[1])
         == s.(routers := s.routers[i := CommitOf(k, i, Taking(0)).job.intents])
  {
    var a, b := k.walk[i].first, k.walk[i].second;
    var x, y := Intent(a, k.init[a]), Intent(b, k.init[b]);
    assert [] + [x] == [x] && [x] + [y] == [x, y];
    var s1 := s.(routers := s.routers[i := [x]]);
    assert Step(lockOf, s, Route(i, a)) == s1;
    assert s1.routers[i := [x, y]] == s.routers[i := [x, y]];
  }

  lemma BothBegin(lockOf: ChannelGateKey -> LockId, k: Knot, s: System, i: nat)
    requires Tied(lockOf, k) && Over(k) && i < |k.walk| && i !in s.txns && EditId(k, i) !in s.txns
    requires i in s.routers && s.routers[i] == CommitOf(k, i, Taking(0)).job.intents
    ensures Step(lockOf, Step(lockOf, s, Arrival(k, i)[2]), Arrival(k, i)[3])
         == s.(txns := s.txns[i := CommitOf(k, i, Taking(0))][EditId(k, i) := EditOf(k, i, Taking(0))])
  {
    assert IsLink(lockOf, k.init.Keys, k.walk[i]);
    OrderOfTwo(k, i);
    OrderOfOne(k, i);
    assert Step(lockOf, s, BeginCommit(i, i)) == s.(txns := s.txns[i := CommitOf(k, i, Taking(0))]);
  }

  lemma OneArrives(lockOf: ChannelGateKey -> LockId, k: Knot, s: System, m: nat)
    requires Tied(lockOf, k) && Over(k) && m < |k.walk| && Begun(k, s, m)
    ensures Begun(k, Run(lockOf, s, Arrival(k, m)), m + 1)
  {
    var a := Arrival(k, m);
    FourSteps(lockOf, s, a[0], a[1], a[2], a[3]);
    RouterReads(lockOf, k, s, m);
    var routed := s.(routers := s.routers[m := CommitOf(k, m, Taking(0)).job.intents]);
    BothBegin(lockOf, k, routed, m);
    var s' := Run(lockOf, s, a);
    forall i: nat | i < m + 1 ensures BegunAt(k, s', i) {
      assert i < m ==> BegunAt(k, s, i);
    }
  }

  lemma {:induction false} EveryoneArrives(lockOf: ChannelGateKey -> LockId, k: Knot, m: nat)
    requires Tied(lockOf, k) && Over(k) && m <= |k.walk|
    ensures Begun(k, Run(lockOf, Start(k.init), Arrivals(k, m)), m)
  {
    if m > 0 {
      EveryoneArrives(lockOf, k, m - 1);
      OneArrives(lockOf, k, Run(lockOf, Start(k.init), Arrivals(k, m - 1)), m - 1);
      RunsCompose(lockOf, Start(k.init), Arrivals(k, m - 1), Arrival(k, m - 1));
    }
  }

  // ---------------------------------------------------------------------------------------------
  // The crossing

  /** How far it has come: commits that hold their first lock, edits that are queued, commits that are queued. */
  datatype Advance = Advance(held: nat, queued: nat, crossed: nat)

  function CommitPhase(p: Advance, i: nat): Phase {
    if i < p.crossed then Waiting(1) else if i < p.held then Taking(1) else Taking(0)
  }

  function EditPhase(p: Advance, i: nat): Phase {
    if i < p.queued then Waiting(0) else Taking(0)
  }

  function FirstLock(lockOf: ChannelGateKey -> LockId, k: Knot, i: nat): LockId
    requires i < |k.walk|
  {
    lockOf(k.walk[i].first)
  }

  function SecondLock(lockOf: ChannelGateKey -> LockId, k: Knot, i: nat): LockId
    requires i < |k.walk|
  {
    lockOf(k.walk[i].second)
  }

  /** What the transactions of one link are and have asked for. */
  ghost predicate LinkAt(lockOf: ChannelGateKey -> LockId, k: Knot, s: System, p: Advance, i: nat)
    requires Over(k) && i < |k.walk|
  {
    && i in s.txns && s.txns[i] == CommitOf(k, i, CommitPhase(p, i))
    && EditId(k, i) in s.txns && s.txns[EditId(k, i)] == EditOf(k, i, EditPhase(p, i))
    && (i < p.held ==> Claim(FirstLock(lockOf, k, i), i) in s.requests && s.requests[Claim(FirstLock(lockOf, k, i), i)].granted)
    && (i < p.queued ==> Claim(FirstLock(lockOf, k, i), EditId(k, i)) in s.requests)
    && (i < p.crossed ==> Claim(SecondLock(lockOf, k, i), i) in s.requests)
  }

  /** A request is one of those. */
  ghost predicate Known(lockOf: ChannelGateKey -> LockId, k: Knot, p: Advance, c: Claim) {
    || (c.txn < |k.walk| && c.txn < p.held && c.lock == FirstLock(lockOf, k, c.txn))
    || (c.txn < |k.walk| && c.txn < p.crossed && c.lock == SecondLock(lockOf, k, c.txn))
    || (|k.walk| <= c.txn < |k.walk| + p.queued)
  }

  /** Commits that queue for their second lock come after every edit. */
  ghost predicate BehindTheEdits(lockOf: ChannelGateKey -> LockId, k: Knot, s: System, i: nat, j: nat)
    requires i < |k.walk| && j < |k.walk|
  {
    var late, early := Claim(SecondLock(lockOf, k, i), i), Claim(FirstLock(lockOf, k, j), EditId(k, j));
    late in s.requests && early in s.requests && s.requests[early].ticket < s.requests[late].ticket
  }

  ghost predicate Stage(lockOf: ChannelGateKey -> LockId, k: Knot, s: System, p: Advance)
    requires Over(k)
  {
    && p.held <= |k.walk| && p.queued <= |k.walk| && p.crossed <= |k.walk|
    && (forall i: nat | i < |k.walk| :: LinkAt(lockOf, k, s, p, i))
    && (forall t | t in s.txns :: t < |k.walk| || t < |k.walk| + |k.walk|)
    && (forall c | c in s.requests :: Known(lockOf, k, p, c) && s.requests[c].ticket < s.nextTicket)
    && (forall i: nat, j: nat | i < p.crossed && j < p.queued :: BehindTheEdits(lockOf, k, s, i, j))
  }

  lemma BegunIsTheFirstStage(lockOf: ChannelGateKey -> LockId, k: Knot, s: System)
    requires Over(k) && Begun(k, s, |k.walk|)
    ensures Stage(lockOf, k, s, Advance(0, 0, 0))
  {
    forall i: nat | i < |k.walk| ensures LinkAt(lockOf, k, s, Advance(0, 0, 0), i) {
      assert BegunAt(k, s, i);
    }
  }

  lemma JoinsTheQueue(lockOf: ChannelGateKey -> LockId, s: System, t: TxnId, lock: LockId)
    requires t in s.txns && s.txns[t].phase.Taking? && s.txns[t].phase.pos < |s.txns[t].keys|
    requires lockOf(s.txns[t].keys[s.txns[t].phase.pos]) == lock && Claim(lock, t) !in s.requests
    ensures Step(lockOf, s, Take(t)) ==
      s.(txns := s.txns[t := s.txns[t].(phase := Waiting(s.txns[t].phase.pos))],
         requests := s.requests[Claim(lock, t) := Request(s.nextTicket, false)], nextTicket := s.nextTicket + 1)
  {
  }

  lemma IsServedAmongCommits(lockOf: ChannelGateKey -> LockId, s: System, t: TxnId, lock: LockId)
    requires t in s.txns && s.txns[t].phase.Waiting? && s.txns[t].phase.pos < |s.txns[t].keys|
    requires lockOf(s.txns[t].keys[s.txns[t].phase.pos]) == lock && Claim(lock, t) in s.requests && s.txns[t].job.Admit?
    requires forall d | d in s.requests && d.txn in s.txns :: s.txns[d.txn].job.Admit?
    ensures Step(lockOf, s, Grant(t)) ==
      s.(txns := s.txns[t := s.txns[t].(phase := Taking(s.txns[t].phase.pos + 1))],
         requests := s.requests[Claim(lock, t) := s.requests[Claim(lock, t)].(granted := true)])
  {
  }

  /** A commit takes its first lock: whoever asked before it is a commit too. */
  lemma CommitTakes(lockOf: ChannelGateKey -> LockId, k: Knot, s: System, i: nat)
    requires Over(k) && i < |k.walk| && Stage(lockOf, k, s, Advance(i, 0, 0))
    ensures Stage(lockOf, k, Step(lockOf, Step(lockOf, s, Take(i)), Grant(i)), Advance(i + 1, 0, 0))
  {
    var lock, p, p' := FirstLock(lockOf, k, i), Advance(i, 0, 0), Advance(i + 1, 0, 0);
    assert LinkAt(lockOf, k, s, p, i);
    assert Claim(lock, i) in s.requests ==> Known(lockOf, k, p, Claim(lock, i));
    JoinsTheQueue(lockOf, s, i, lock);
    var s1 := Step(lockOf, s, Take(i));
    forall d | d in s1.requests && d.txn in s1.txns ensures s1.txns[d.txn].job.Admit? {
      assert d.txn != i ==> d in s.requests && Known(lockOf, k, p, d) && LinkAt(lockOf, k, s, p, d.txn);
    }
    IsServedAmongCommits(lockOf, s1, i, lock);
    var s2 := Step(lockOf, s1, Grant(i));
    forall j: nat | j < |k.walk| ensures LinkAt(lockOf, k, s2, p', j) {
      assert LinkAt(lockOf, k, s, p, j);
    }
    forall c | c in s2.requests ensures Known(lockOf, k, p', c) && s2.requests[c].ticket < s2.nextTicket {
      assert c != Claim(lock, i) ==> c in s.requests && Known(lockOf, k, p, c);
    }
  }

  /** `s'` is `s` with the transaction queued for a lock. */
  ghost predicate Joined(s: System, s': System, t: TxnId, lock: LockId) {
    && t in s.txns && s.txns[t].phase.Taking?
    && s' == s.(txns := s.txns[t := s.txns[t].(phase := Waiting(s.txns[t].phase.pos))],
                requests := s.requests[Claim(lock, t) := Request(s.nextTicket, false)], nextTicket := s.nextTicket + 1)
  }

  lemma QueuedStage(lockOf: ChannelGateKey -> LockId, k: Knot, s: System, s': System, i: nat)
    requires Over(k) && i < |k.walk| && Stage(lockOf, k, s, Advance(|k.walk|, i, 0))
    requires Joined(s, s', EditId(k, i), FirstLock(lockOf, k, i))
    ensures Stage(lockOf, k, s', Advance(|k.walk|, i + 1, 0))
  {
    var p, p' := Advance(|k.walk|, i, 0), Advance(|k.walk|, i + 1, 0);
    forall j: nat | j < |k.walk| ensures LinkAt(lockOf, k, s', p', j) {
      assert LinkAt(lockOf, k, s, p, j);
    }
    forall c | c in s'.requests ensures Known(lockOf, k, p', c) && s'.requests[c].ticket < s'.nextTicket {
      assert c.txn != EditId(k, i) ==> c in s.requests && Known(lockOf, k, p, c);
    }
  }

  lemma EditQueues(lockOf: ChannelGateKey -> LockId, k: Knot, s: System, i: nat)
    requires Over(k) && i < |k.walk| && Stage(lockOf, k, s, Advance(|k.walk|, i, 0))
    ensures Stage(lockOf, k, Step(lockOf, s, Take(EditId(k, i))), Advance(|k.walk|, i + 1, 0))
  {
    var lock, p := FirstLock(lockOf, k, i), Advance(|k.walk|, i, 0);
    assert LinkAt(lockOf, k, s, p, i);
    assert Claim(lock, EditId(k, i)) in s.requests ==> Known(lockOf, k, p, Claim(lock, EditId(k, i)));
    JoinsTheQueue(lockOf, s, EditId(k, i), lock);
    QueuedStage(lockOf, k, s, Step(lockOf, s, Take(EditId(k, i))), i);
  }

  lemma CommitCrosses(lockOf: ChannelGateKey -> LockId, k: Knot, s: System, i: nat)
    requires Tied(lockOf, k) && Over(k) && i < |k.walk| && Stage(lockOf, k, s, Advance(|k.walk|, |k.walk|, i))
    ensures Stage(lockOf, k, Step(lockOf, s, Take(i)), Advance(|k.walk|, |k.walk|, i + 1))
  {
    var n := |k.walk|;
    var lock, p, p' := SecondLock(lockOf, k, i), Advance(n, n, i), Advance(n, n, i + 1);
    assert IsLink(lockOf, k.init.Keys, k.walk[i]);
    assert LinkAt(lockOf, k, s, p, i);
    assert Claim(lock, i) in s.requests ==> Known(lockOf, k, p, Claim(lock, i));
    JoinsTheQueue(lockOf, s, i, lock);
    var s' := Step(lockOf, s, Take(i));
    forall j: nat | j < n ensures LinkAt(lockOf, k, s', p', j) {
      assert LinkAt(lockOf, k, s, p, j);
    }
    forall c | c in s'.requests ensures Known(lockOf, k, p', c) && s'.requests[c].ticket < s'.nextTicket {
      assert c != Claim(lock, i) ==> c in s.requests && Known(lockOf, k, p, c);
    }
    forall j: nat, e: nat | j < i + 1 && e < n ensures BehindTheEdits(lockOf, k, s', j, e) {
      assert LinkAt(lockOf, k, s, p, e);
      assert j < i ==> BehindTheEdits(lockOf, k, s, j, e);
    }
  }

  // ---------------------------------------------------------------------------------------------
  // Stage after stage

  function Takes(m: nat): seq<Action> {
    if m == 0 then [] else Takes(m - 1) + [Take(m - 1), Grant(m - 1)]
  }

  function Queues(k: Knot, m: nat): seq<Action> {
    if m == 0 then [] else Queues(k, m - 1) + [Take(EditId(k, m - 1))]
  }

  function Crosses(m: nat): seq<Action> {
    if m == 0 then [] else Crosses(m - 1) + [Take(m - 1)]
  }

  lemma OneStep(lockOf: ChannelGateKey -> LockId, s: System, a: Action)
    ensures Run(lockOf, s, [a]) == Step(lockOf, s, a)
  {
    assert [a][..0] == [];
  }

  lemma TwoSteps(lockOf: ChannelGateKey -> LockId, s: System, a: Action, b: Action)
    ensures Run(lockOf, s, [a, b]) == Step(lockOf, Step(lockOf, s, a), b)
  {
    assert [a, b][..1] == [a];
    OneStep(lockOf, s, a);
  }

  lemma {:induction false} CommitsTake(lockOf: ChannelGateKey -> LockId, k: Knot, s: System, m: nat)
    requires Over(k) && m <= |k.walk| && Stage(lockOf, k, s, Advance(0, 0, 0))
    ensures Stage(lockOf, k, Run(lockOf, s, Takes(m)), Advance(m, 0, 0))
  {
    if m > 0 {
      CommitsTake(lockOf, k, s, m - 1);
      var before := Run(lockOf, s, Takes(m - 1));
      CommitTakes(lockOf, k, before, m - 1);
      TwoSteps(lockOf, before, Take(m - 1), Grant(m - 1));
      RunsCompose(lockOf, s, Takes(m - 1), [Take(m - 1), Grant(m - 1)]);
    }
  }

  lemma {:induction false} EditsQueue(lockOf: ChannelGateKey -> LockId, k: Knot, s: System, m: nat)
    requires Over(k) && m <= |k.walk| && Stage(lockOf, k, s, Advance(|k.walk|, 0, 0))
    ensures Stage(lockOf, k, Run(lockOf, s, Queues(k, m)), Advance(|k.walk|, m, 0))
  {
    if m > 0 {
      EditsQueue(lockOf, k, s, m - 1);
      var before := Run(lockOf, s, Queues(k, m - 1));
      EditQueues(lockOf, k, before, m - 1);
      OneStep(lockOf, before, Take(EditId(k, m - 1)));
      RunsCompose(lockOf, s, Queues(k, m - 1), [Take(EditId(k, m - 1))]);
    }
  }

  lemma {:induction false} CommitsCross(lockOf: ChannelGateKey -> LockId, k: Knot, s: System, m: nat)
    requires Tied(lockOf, k) && Over(k) && m <= |k.walk| && Stage(lockOf, k, s, Advance(|k.walk|, |k.walk|, 0))
    ensures Stage(lockOf, k, Run(lockOf, s, Crosses(m)), Advance(|k.walk|, |k.walk|, m))
  {
    if m > 0 {
      CommitsCross(lockOf, k, s, m - 1);
      var before := Run(lockOf, s, Crosses(m - 1));
      CommitCrosses(lockOf, k, before, m - 1);
      OneStep(lockOf, before, Take(m - 1));
      RunsCompose(lockOf, s, Crosses(m - 1), [Take(m - 1)]);
    }
  }

  /** The whole run. */
  function Crossing(k: Knot): seq<Action>
    requires Over(k)
  {
    Arrivals(k, |k.walk|) + (Takes(|k.walk|) + (Queues(k, |k.walk|) + Crosses(|k.walk|)))
  }

  lemma TheyCross(lockOf: ChannelGateKey -> LockId, k: Knot)
    requires Tied(lockOf, k) && Over(k)
    ensures Stage(lockOf, k, Run(lockOf, Start(k.init), Crossing(k)), Advance(|k.walk|, |k.walk|, |k.walk|))
  {
    var n := |k.walk|;
    EveryoneArrives(lockOf, k, n);
    var s0 := Run(lockOf, Start(k.init), Arrivals(k, n));
    BegunIsTheFirstStage(lockOf, k, s0);
    CommitsTake(lockOf, k, s0, n);
    var s1 := Run(lockOf, s0, Takes(n));
    EditsQueue(lockOf, k, s1, n);
    var s2 := Run(lockOf, s1, Queues(k, n));
    CommitsCross(lockOf, k, s2, n);
    RunsCompose(lockOf, s1, Queues(k, n), Crosses(n));
    RunsCompose(lockOf, s0, Takes(n), Queues(k, n) + Crosses(n));
    RunsCompose(lockOf, Start(k.init), Arrivals(k, n), Takes(n) + (Queues(k, n) + Crosses(n)));
  }

  // ---------------------------------------------------------------------------------------------
  // The ring

  /** Each commit waits for the next link's edit, and each edit for its own link's commit. */
  function RingAt(k: Knot, p: nat): TxnId {
    if p % 2 == 0 then p / 2 else EditId(k, Next(p / 2, |k.walk|))
  }

  function Ring(k: Knot): seq<TxnId> {
    seq(2 * |k.walk|, p requires 0 <= p < 2 * |k.walk| => RingAt(k, p))
  }

  lemma CommitWaits(lockOf: ChannelGateKey -> LockId, k: Knot, s: System, i: nat)
    requires Tied(lockOf, k) && Over(k) && i < |k.walk| && Stage(lockOf, k, s, Advance(|k.walk|, |k.walk|, |k.walk|))
    ensures WaitsFor(lockOf, s, i, EditId(k, Next(i, |k.walk|)))
  {
    var n, j: nat := |k.walk|, Next(i, |k.walk|);
    assert SecondLock(lockOf, k, i) == FirstLock(lockOf, k, j);
    assert LinkAt(lockOf, k, s, Advance(n, n, n), i) && LinkAt(lockOf, k, s, Advance(n, n, n), j);
    assert BehindTheEdits(lockOf, k, s, i, j);
  }

  lemma EditWaits(lockOf: ChannelGateKey -> LockId, k: Knot, s: System, i: nat)
    requires Over(k) && i < |k.walk| && Stage(lockOf, k, s, Advance(|k.walk|, |k.walk|, |k.walk|))
    ensures WaitsFor(lockOf, s, EditId(k, i), i)
  {
    assert LinkAt(lockOf, k, s, Advance(|k.walk|, |k.walk|, |k.walk|), i);
  }

  lemma CrossedIsACycle(lockOf: ChannelGateKey -> LockId, k: Knot, s: System)
    requires Tied(lockOf, k) && Over(k) && Stage(lockOf, k, s, Advance(|k.walk|, |k.walk|, |k.walk|))
    ensures Cycle(lockOf, s, Ring(k))
  {
    var n, ring := |k.walk|, Ring(k);
    forall p | 0 <= p < |ring| ensures WaitsFor(lockOf, s, ring[p], ring[Next(p, |ring|)]) {
      var i: nat := p / 2;
      if p % 2 == 0 {
        CommitWaits(lockOf, k, s, i);
        assert Next(p, 2 * n) == p + 1 && (p + 1) / 2 == i && (p + 1) % 2 == 1;
      } else {
        EditWaits(lockOf, k, s, Next(i, n));
        assert p == 2 * i + 1;
        assert Next(p, 2 * n) == 2 * Next(i, n);
      }
    }
  }

  /**
   A collision can do more than serialize: taking keys in key order is not taking locks in lock order.
   Along any closed walk of locks, commits of one company each and edits come to wait in a ring.
   */
  lemma TangledLocksDeadlock(lockOf: ChannelGateKey -> LockId, k: Knot)
    requires Tied(lockOf, k) && Over(k)
    ensures Cycle(lockOf, Run(lockOf, Start(k.init), Crossing(k)), Ring(k))
  {
    TheyCross(lockOf, k);
    CrossedIsACycle(lockOf, k, Run(lockOf, Start(k.init), Crossing(k)));
  }

  /** A run that ends with transactions waiting for each other in a ring. */
  ghost predicate Deadlocks(lockOf: ChannelGateKey -> LockId, init: map<ChannelGateKey, ChannelRow>, actions: seq<Action>, ring: seq<TxnId>) {
    Cycle(lockOf, Run(lockOf, Start(init), actions), ring)
  }

  /**
   Some run has transactions waiting for each other in a ring if and only if the locks of the channels
   there are are tangled: a walk from lock to lock, each link from a channel to a later one of the
   same company, ends at the lock where it started.
   */
  lemma DeadlockExactlyWhenTangled(lockOf: ChannelGateKey -> LockId, init: map<ChannelGateKey, ChannelRow>)
    ensures (exists actions, ring :: Deadlocks(lockOf, init, actions, ring)) <==> Tangled(lockOf, init.Keys)
  {
    if Tangled(lockOf, init.Keys) {
      var l :| LeadsTo(lockOf, init.Keys, l, l);
      var walk :| Goes(lockOf, init.Keys, walk, l, l);
      var k := Knot(init, walk);
      TiedIsOver(lockOf, k);
      TangledLocksDeadlock(lockOf, k);
      assert Deadlocks(lockOf, init, Crossing(k), Ring(k));
    } else {
      forall actions, ring ensures !Deadlocks(lockOf, init, actions, ring) {
        GatesNeverDeadlock(lockOf, init, actions, ring);
      }
    }
  }
}
