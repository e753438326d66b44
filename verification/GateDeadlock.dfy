/**
 Waiting for channel gates: who waits for whom, and why transactions never come to wait for each
 other in a ring unless their locks are tangled.
 */
module GateDeadlock {
  import opened GateKeys
  import opened ChannelGate

  predicate IsWaiting(s: System, t: TxnId) {
    t in s.txns && s.txns[t].phase.Waiting? && s.txns[t].phase.pos < |s.txns[t].keys|
  }

  /** The gate a waiting transaction is queued for. */
  function Wants(s: System, t: TxnId): ChannelGateKey
    requires IsWaiting(s, t)
  {
    s.txns[t].keys[s.txns[t].phase.pos]
  }

  function WantedClaim(lockOf: ChannelGateKey -> LockId, s: System, t: TxnId): Claim
    requires IsWaiting(s, t)
  {
    Claim(lockOf(Wants(s, t)), t)
  }

  /** `t` cannot be granted its gate before `u` lets go of it, or gets it and lets go. */
  ghost predicate WaitsFor(lockOf: ChannelGateKey -> LockId, s: System, t: TxnId, u: TxnId) {
    && IsWaiting(s, t) && u in s.txns && u != t
    && var mine, theirs := WantedClaim(lockOf, s, t), Claim(lockOf(Wants(s, t)), u);
       && mine in s.requests && theirs in s.requests
       && Conflict(s.txns[t].job, s.txns[u].job)
       && (s.requests[theirs].granted || s.requests[theirs].ticket < s.requests[mine].ticket)
  }

  ghost predicate Cycle(lockOf: ChannelGateKey -> LockId, s: System, ring: seq<TxnId>) {
    && |ring| > 0
    && forall i | 0 <= i < |ring| :: WaitsFor(lockOf, s, ring[i], ring[Next(i, |ring|)])
  }

  function Next(i: int, n: int): int {
    if i + 1 == n then 0 else i + 1
  }

  // ---------------------------------------------------------------------------------------------
  // Keys in order, locks in order

  /** Two channels of one company, in the order a commit into both takes their gates. */
  datatype Link = Link(first: ChannelGateKey, second: ChannelGateKey)

  predicate IsLink(lockOf: ChannelGateKey -> LockId, keys: set<ChannelGateKey>, k: Link) {
    && k.first in keys && k.second in keys && k.first.company == k.second.company
    && Before(k.first, k.second) && lockOf(k.first) != lockOf(k.second)
  }

  /** From lock to lock, each link starting at the lock where the one before it ends. */
  predicate IsWalk(lockOf: ChannelGateKey -> LockId, keys: set<ChannelGateKey>, walk: seq<Link>) {
    && |walk| > 0 && (forall i | 0 <= i < |walk| :: IsLink(lockOf, keys, walk[i]))
    && (forall i | 0 < i < |walk| :: lockOf(walk[i - 1].second) == lockOf(walk[i].first))
  }

  predicate Goes(lockOf: ChannelGateKey -> LockId, keys: set<ChannelGateKey>, walk: seq<Link>, l: LockId, m: LockId) {
    IsWalk(lockOf, keys, walk) && lockOf(walk[0].first) == l && lockOf(walk[|walk| - 1].second) == m
  }

  ghost predicate LeadsTo(lockOf: ChannelGateKey -> LockId, keys: set<ChannelGateKey>, l: LockId, m: LockId) {
    exists walk :: Goes(lockOf, keys, walk, l, m)
  }

  /** Some walk ends at the lock where it started. */
  ghost predicate Tangled(lockOf: ChannelGateKey -> LockId, keys: set<ChannelGateKey>) {
    exists l :: LeadsTo(lockOf, keys, l, l)
  }

  lemma WalksJoin(lockOf: ChannelGateKey -> LockId, keys: set<ChannelGateKey>, l: LockId, m: LockId, n: LockId)
    requires LeadsTo(lockOf, keys, l, m) && LeadsTo(lockOf, keys, m, n)
    ensures LeadsTo(lockOf, keys, l, n)
  {
    var a: seq<Link> :| Goes(lockOf, keys, a, l, m);
    var b: seq<Link> :| Goes(lockOf, keys, b, m, n);
    var walk := a + b;
    forall i | 0 < i < |walk| ensures lockOf(walk[i - 1].second) == lockOf(walk[i].first) {
      if i < |a| {
        assert walk[i - 1] == a[i - 1] && walk[i] == a[i];
      } else if i > |a| {
        assert walk[i - 1] == b[i - |a| - 1] && walk[i] == b[i - |a|];
      }
    }
    assert Goes(lockOf, keys, walk, l, n);
  }

  /** Distinct channels have distinct locks. */
  ghost predicate Injective(lockOf: ChannelGateKey -> LockId) {
    forall a, b :: lockOf(a) == lockOf(b) ==> a == b
  }

  lemma {:induction false} InjectiveWalksAscend(lockOf: ChannelGateKey -> LockId, keys: set<ChannelGateKey>, walk: seq<Link>)
    requires Injective(lockOf) && IsWalk(lockOf, keys, walk)
    ensures Before(walk[0].first, walk[|walk| - 1].second)
  {
    if |walk| > 1 {
      var front := walk[..|walk| - 1];
      assert IsWalk(lockOf, keys, front);
      InjectiveWalksAscend(lockOf, keys, front);
      assert walk[|walk| - 2].second == walk[|walk| - 1].first;
    }
  }

  lemma InjectiveIsUntangled(lockOf: ChannelGateKey -> LockId, keys: set<ChannelGateKey>)
    requires Injective(lockOf)
    ensures !Tangled(lockOf, keys)
  {
    forall l, walk | Goes(lockOf, keys, walk, l, l) ensures false {
      InjectiveWalksAscend(lockOf, keys, walk);
    }
  }

  // ---------------------------------------------------------------------------------------------
  // What runs keep

  lemma {:induction false} ReplayKeepsKeys(init: map<ChannelGateKey, ChannelRow>, log: seq<Event>)
    ensures Replay(init, log).Keys == init.Keys
  {
    if log != [] {
      ReplayKeepsKeys(init, log[..|log| - 1]);
    }
  }

  /** A commit's gates are those of channels there are. */
  lemma CommitKeysExist(lockOf: ChannelGateKey -> LockId, init: map<ChannelGateKey, ChannelRow>, s: System, t: TxnId)
    requires Valid(lockOf, init, s) && t in s.txns && s.txns[t].job.Admit?
    ensures forall k | k in s.txns[t].keys :: k in init
  {
    ReplayKeepsKeys(init, s.log);
    assert TxnValid(s.txns[t]) && Honest(s.channels, s.txns[t]);
    forall k | k in s.txns[t].keys ensures k in init {
      var i :| 0 <= i < |KeysOf(s.txns[t].job)| && KeysOf(s.txns[t].job)[i] == k;
      assert s.txns[t].job.intents[i].key == k;
    }
  }

  /** Nobody waits for a lock it has been granted. */
  ghost predicate WaitersAreNew(lockOf: ChannelGateKey -> LockId, s: System) {
    forall t | IsWaiting(s, t) && WantedClaim(lockOf, s, t) in s.requests :: !s.requests[WantedClaim(lockOf, s, t)].granted
  }

  /** Everyone who waits afterwards waited before, and nothing about their requests has changed. */
  ghost predicate SameWaiters(s: System, s': System) {
    && (forall t | IsWaiting(s', t) :: IsWaiting(s, t) && s.txns[t] == s'.txns[t])
    && (forall c | c in s'.requests && IsWaiting(s', c.txn) :: c in s.requests && s'.requests[c] == s.requests[c])
  }

  lemma SameWaitersStayNew(lockOf: ChannelGateKey -> LockId, s: System, s': System)
    requires WaitersAreNew(lockOf, s) && SameWaiters(s, s')
    ensures WaitersAreNew(lockOf, s')
  {
    forall t | IsWaiting(s', t) && WantedClaim(lockOf, s', t) in s'.requests
      ensures !s'.requests[WantedClaim(lockOf, s', t)].granted
    {
      assert WantedClaim(lockOf, s, t) == WantedClaim(lockOf, s', t);
    }
  }

  lemma TakeKeepsWaitersNew(lockOf: ChannelGateKey -> LockId, s: System, t: TxnId)
    requires WaitersAreNew(lockOf, s)
    ensures WaitersAreNew(lockOf, Step(lockOf, s, Take(t)))
  {
    var s' := Step(lockOf, s, Take(t));
    forall u | IsWaiting(s', u) && WantedClaim(lockOf, s', u) in s'.requests
      ensures !s'.requests[WantedClaim(lockOf, s', u)].granted
    {
      assert u != t ==> IsWaiting(s, u) && WantedClaim(lockOf, s, u) == WantedClaim(lockOf, s', u);
    }
  }

  lemma StepKeepsWaitersNew(lockOf: ChannelGateKey -> LockId, s: System, a: Action)
    requires WaitersAreNew(lockOf, s)
    ensures WaitersAreNew(lockOf, Step(lockOf, s, a))
  {
    if a.Take? {
      TakeKeepsWaitersNew(lockOf, s, a.txn);
    } else {
      SameWaitersStayNew(lockOf, s, Step(lockOf, s, a));
    }
  }

  lemma {:induction false} WaitersStayNew(lockOf: ChannelGateKey -> LockId, init: map<ChannelGateKey, ChannelRow>, actions: seq<Action>)
    ensures WaitersAreNew(lockOf, Run(lockOf, Start(init), actions))
    decreases |actions|
  {
    if actions != [] {
      WaitersStayNew(lockOf, init, actions[..|actions| - 1]);
      StepKeepsWaitersNew(lockOf, Run(lockOf, Start(init), actions[..|actions| - 1]), actions[|actions| - 1]);
    }
  }

  /** A commit's gates are all of one company. */
  ghost predicate CommitsAreOneCompanys(s: System) {
    forall t | t in s.txns && s.txns[t].job.Admit? :: OneCompany(s.txns[t].job.intents)
  }

  lemma {:induction false} CommitsStayOneCompanys(lockOf: ChannelGateKey -> LockId, init: map<ChannelGateKey, ChannelRow>, actions: seq<Action>)
    ensures CommitsAreOneCompanys(Run(lockOf, Start(init), actions))
    decreases |actions|
  {
    if actions != [] {
      CommitsStayOneCompanys(lockOf, init, actions[..|actions| - 1]);
      StepKeepsOneCompany(lockOf, Run(lockOf, Start(init), actions[..|actions| - 1]), actions[|actions| - 1]);
    }
  }

  lemma StepKeepsOneCompany(lockOf: ChannelGateKey -> LockId, s: System, a: Action)
    requires CommitsAreOneCompanys(s)
    ensures CommitsAreOneCompanys(Step(lockOf, s, a))
  {
  }

  ghost predicate Sound(lockOf: ChannelGateKey -> LockId, init: map<ChannelGateKey, ChannelRow>, s: System) {
    Valid(lockOf, init, s) && WaitersAreNew(lockOf, s) && CommitsAreOneCompanys(s)
  }

  // ---------------------------------------------------------------------------------------------
  // Waiting looks ahead

  /** Waiting for a lock further along, or earlier in the queue for the same one. */
  ghost predicate Ahead(lockOf: ChannelGateKey -> LockId, keys: set<ChannelGateKey>, s: System, t: TxnId, u: TxnId) {
    && IsWaiting(s, t) && IsWaiting(s, u)
    && WantedClaim(lockOf, s, t) in s.requests && WantedClaim(lockOf, s, u) in s.requests
    && (|| LeadsTo(lockOf, keys, lockOf(Wants(s, t)), lockOf(Wants(s, u)))
        || (lockOf(Wants(s, t)) == lockOf(Wants(s, u))
            && s.requests[WantedClaim(lockOf, s, u)].ticket < s.requests[WantedClaim(lockOf, s, t)].ticket))
  }

  lemma AheadIsTransitive(lockOf: ChannelGateKey -> LockId, keys: set<ChannelGateKey>, s: System, t: TxnId, u: TxnId, v: TxnId)
    requires Ahead(lockOf, keys, s, t, u) && Ahead(lockOf, keys, s, u, v)
    ensures Ahead(lockOf, keys, s, t, v)
  {
    var l, m, n := lockOf(Wants(s, t)), lockOf(Wants(s, u)), lockOf(Wants(s, v));
    if LeadsTo(lockOf, keys, l, m) && LeadsTo(lockOf, keys, m, n) {
      WalksJoin(lockOf, keys, l, m, n);
    }
  }

  lemma NobodyIsAheadOfItself(lockOf: ChannelGateKey -> LockId, keys: set<ChannelGateKey>, s: System, t: TxnId)
    requires !Tangled(lockOf, keys)
    ensures !Ahead(lockOf, keys, s, t, t)
  {
  }

  /** Who holds one gate and waits for another waits for one further along. */
  lemma HolderWantsALaterLock(lockOf: ChannelGateKey -> LockId, init: map<ChannelGateKey, ChannelRow>, s: System, u: TxnId, l: LockId)
    requires Sound(lockOf, init, s) && IsWaiting(s, u) && Holds(lockOf, s.txns[u], l)
    ensures LeadsTo(lockOf, init.Keys, l, lockOf(Wants(s, u)))
  {
    var txn := s.txns[u];
    assert TxnValid(txn) && Queued(lockOf, s, u);
    var i :| 0 <= i < Depth(txn) && i < |txn.keys| && lockOf(txn.keys[i]) == l;
    assert i < txn.phase.pos;
    assert s.requests[Claim(l, u)].granted;
    assert l != lockOf(Wants(s, u));
    assert txn.keys[i] in txn.keys && Wants(s, u) in txn.keys;
    CommitKeysExist(lockOf, init, s, u);
    SameCompany(s, u, txn.keys[i], Wants(s, u));
    var link := Link(txn.keys[i], Wants(s, u));
    assert IsLink(lockOf, init.Keys, link);
    assert Goes(lockOf, init.Keys, [link], l, lockOf(Wants(s, u)));
  }

  lemma SameCompany(s: System, t: TxnId, a: ChannelGateKey, b: ChannelGateKey)
    requires t in s.txns && s.txns[t].job.Admit? && TxnValid(s.txns[t]) && CommitsAreOneCompanys(s)
    requires a in s.txns[t].keys && b in s.txns[t].keys
    ensures a.company == b.company
  {
    var keys := KeysOf(s.txns[t].job);
    var i :| 0 <= i < |keys| && keys[i] == a;
    var j :| 0 <= j < |keys| && keys[j] == b;
    assert s.txns[t].job.intents[i].key == a && s.txns[t].job.intents[j].key == b;
  }

  lemma WaitingLooksAhead(lockOf: ChannelGateKey -> LockId, init: map<ChannelGateKey, ChannelRow>, s: System, t: TxnId, u: TxnId)
    requires Sound(lockOf, init, s) && WaitsFor(lockOf, s, t, u) && IsWaiting(s, u)
    ensures Ahead(lockOf, init.Keys, s, t, u)
  {
    var theirs := Claim(lockOf(Wants(s, t)), u);
    assert Queued(lockOf, s, t) && Queued(lockOf, s, u);
    assert ClaimValid(lockOf, s, theirs);
    if s.requests[theirs].granted {
      HolderWantsALaterLock(lockOf, init, s, u, theirs.lock);
    } else {
      assert lockOf(Wants(s, u)) == theirs.lock;
    }
  }

  lemma {:induction false} RingLooksAhead(
    lockOf: ChannelGateKey -> LockId, init: map<ChannelGateKey, ChannelRow>, s: System, ring: seq<TxnId>, n: nat)
    requires Sound(lockOf, init, s) && Cycle(lockOf, s, ring)
    requires 0 < n < |ring|
    ensures Ahead(lockOf, init.Keys, s, ring[0], ring[n])
  {
    assert WaitsFor(lockOf, s, ring[n - 1], ring[Next(n - 1, |ring|)]);
    assert WaitsFor(lockOf, s, ring[n], ring[Next(n, |ring|)]);
    WaitingLooksAhead(lockOf, init, s, ring[n - 1], ring[n]);
    if n > 1 {
      RingLooksAhead(lockOf, init, s, ring, n - 1);
      AheadIsTransitive(lockOf, init.Keys, s, ring[0], ring[n - 1], ring[n]);
    }
  }

  lemma SoundRun(lockOf: ChannelGateKey -> LockId, init: map<ChannelGateKey, ChannelRow>, actions: seq<Action>)
    ensures Sound(lockOf, init, Run(lockOf, Start(init), actions))
  {
    RunIsValid(lockOf, init, actions);
    WaitersStayNew(lockOf, init, actions);
    CommitsStayOneCompanys(lockOf, init, actions);
  }

  /** Unless the channels' locks are tangled, no run ever has transactions waiting for each other in a ring. */
  lemma GatesNeverDeadlock(
    lockOf: ChannelGateKey -> LockId, init: map<ChannelGateKey, ChannelRow>, actions: seq<Action>, ring: seq<TxnId>)
    requires !Tangled(lockOf, init.Keys)
    ensures !Cycle(lockOf, Run(lockOf, Start(init), actions), ring)
  {
    SoundRun(lockOf, init, actions);
    var s := Run(lockOf, Start(init), actions);
    if Cycle(lockOf, s, ring) {
      var last := |ring| - 1;
      NobodyIsAheadOfItself(lockOf, init.Keys, s, ring[0]);
      assert WaitsFor(lockOf, s, ring[last], ring[Next(last, |ring|)]);
      assert WaitsFor(lockOf, s, ring[0], ring[Next(0, |ring|)]);
      WaitingLooksAhead(lockOf, init, s, ring[last], ring[0]);
      if last > 0 {
        RingLooksAhead(lockOf, init, s, ring, last);
        AheadIsTransitive(lockOf, init.Keys, s, ring[0], ring[last], ring[0]);
      }
      assert false;
    }
  }

  // ---------------------------------------------------------------------------------------------
  // Progress

  /** A step of a transaction's own work: not giving up, and not starting something new. */
  predicate Progress(a: Action) {
    a.Take? || a.Grant? || a.Verify? || a.Store? || a.LockRow? || a.Write? || a.Save?
  }

  /** A transaction that is neither waiting nor done can take its next step. */
  lemma RunningCanMove(lockOf: ChannelGateKey -> LockId, init: map<ChannelGateKey, ChannelRow>, s: System, t: TxnId) returns (a: Action)
    requires Valid(lockOf, init, s) && t in s.txns
    requires !s.txns[t].phase.Waiting? && !s.txns[t].phase.Ended?
    ensures Progress(a) && Enabled(lockOf, s, a)
  {
    assert TxnValid(s.txns[t]) && Honest(s.channels, s.txns[t]);
    match s.txns[t].phase
    case Taking(pos) =>
      a := if pos < |s.txns[t].keys| then Take(t) else if s.txns[t].job.Admit? then Verify(t) else LockRow(t);
    case Checked => a := Store(t);
    case RowLocked => a := Write(t);
    case Written(_) => a := Save(t);
  }

  lemma BlockedWaitsForSomeone(lockOf: ChannelGateKey -> LockId, s: System, t: TxnId) returns (u: TxnId)
    requires LocksValid(lockOf, s) && t in s.txns && s.txns[t].phase.Waiting?
    requires !Enabled(lockOf, s, Grant(t))
    ensures WaitsFor(lockOf, s, t, u)
  {
    assert Queued(lockOf, s, t);
    var mine := WantedClaim(lockOf, s, t);
    var d :| d in s.requests && d.lock == mine.lock && d.txn != t && d.txn in s.txns
      && s.requests[d].ticket < s.requests[mine].ticket && Conflict(s.txns[t].job, s.txns[d.txn].job);
    u := d.txn;
    assert d == Claim(lockOf(Wants(s, t)), u);
  }

  /** Following who waits for whom, from any waiting transaction, ends at one that can move. */
  lemma {:induction false} WaitersEndAtAMover(
    lockOf: ChannelGateKey -> LockId, init: map<ChannelGateKey, ChannelRow>, s: System, t: TxnId, left: set<TxnId>)
    returns (a: Action)
    requires Sound(lockOf, init, s) && !Tangled(lockOf, init.Keys)
    requires t in s.txns && s.txns[t].phase.Waiting? && t in left
    requires forall u | Ahead(lockOf, init.Keys, s, t, u) :: u in left
    ensures Progress(a) && Enabled(lockOf, s, a)
    decreases left
  {
    if Enabled(lockOf, s, Grant(t)) {
      a := Grant(t);
    } else {
      var u := BlockedWaitsForSomeone(lockOf, s, t);
      var theirs := Claim(lockOf(Wants(s, t)), u);
      assert ClaimValid(lockOf, s, theirs);
      if s.txns[u].phase.Waiting? {
        assert Queued(lockOf, s, u);
        WaitingLooksAhead(lockOf, init, s, t, u);
        forall v | Ahead(lockOf, init.Keys, s, u, v) ensures v in left - {t} {
          AheadIsTransitive(lockOf, init.Keys, s, t, u, v);
          NobodyIsAheadOfItself(lockOf, init.Keys, s, t);
        }
        a := WaitersEndAtAMover(lockOf, init, s, u, left - {t});
      } else {
        a := RunningCanMove(lockOf, init, s, u);
      }
    }
  }

  /**
   So in every reachable state with unfinished transactions somebody can do their next piece of
   work: untangled, the gates never leave the system waiting for a timeout.
   */
  lemma SomeoneCanAlwaysMove(
    lockOf: ChannelGateKey -> LockId, init: map<ChannelGateKey, ChannelRow>, actions: seq<Action>, t: TxnId)
    returns (a: Action)
    requires !Tangled(lockOf, init.Keys)
    requires var s := Run(lockOf, Start(init), actions); t in s.txns && !s.txns[t].phase.Ended?
    ensures Progress(a) && Enabled(lockOf, Run(lockOf, Start(init), actions), a)
  {
    SoundRun(lockOf, init, actions);
    var s := Run(lockOf, Start(init), actions);
    if s.txns[t].phase.Waiting? {
      a := WaitersEndAtAMover(lockOf, init, s, t, s.txns.Keys);
    } else {
      a := RunningCanMove(lockOf, init, s, t);
    }
  }

  // ---------------------------------------------------------------------------------------------
  // One company

  /** Two channels share a lock and a channel between them has another one. */
  predicate Between(lockOf: ChannelGateKey -> LockId, x: ChannelGateKey, y: ChannelGateKey, z: ChannelGateKey) {
    Before(x, y) && Before(y, z) && lockOf(x) == lockOf(z) && lockOf(x) != lockOf(y)
  }

  ghost predicate Interleaved(lockOf: ChannelGateKey -> LockId, keys: set<ChannelGateKey>) {
    exists x, y, z :: x in keys && y in keys && z in keys && Between(lockOf, x, y, z)
  }

  predicate InOrder(lockOf: ChannelGateKey -> LockId, a: ChannelGateKey, b: ChannelGateKey, l: LockId, m: LockId) {
    lockOf(a) == l && lockOf(b) == m && l != m && Before(a, b)
  }

  /** Some key of the first lock comes before some key of the second. */
  ghost predicate LockBelow(lockOf: ChannelGateKey -> LockId, keys: set<ChannelGateKey>, l: LockId, m: LockId) {
    exists a, b :: a in keys && b in keys && InOrder(lockOf, a, b, l, m)
  }

  /** Not interleaved, then every key of the first comes before every key of the second. */
  lemma BelowAltogether(lockOf: ChannelGateKey -> LockId, keys: set<ChannelGateKey>, l: LockId, m: LockId, a: ChannelGateKey, b: ChannelGateKey)
    requires !Interleaved(lockOf, keys) && LockBelow(lockOf, keys, l, m)
    requires a in keys && b in keys && lockOf(a) == l && lockOf(b) == m
    ensures Before(a, b)
  {
    var a0, b0 :| a0 in keys && b0 in keys && InOrder(lockOf, a0, b0, l, m);
    assert a != b && a0 != b;
    assert Before(b, a) && Before(a0, b) ==> Between(lockOf, a0, b, a);
    assert Before(b, a0) ==> Between(lockOf, b, a0, b0);
  }

  lemma BelowIsTransitive(lockOf: ChannelGateKey -> LockId, keys: set<ChannelGateKey>, l: LockId, m: LockId, n: LockId)
    requires !Interleaved(lockOf, keys) && LockBelow(lockOf, keys, l, m) && LockBelow(lockOf, keys, m, n)
    ensures LockBelow(lockOf, keys, l, n)
  {
    var a, b0 :| a in keys && b0 in keys && InOrder(lockOf, a, b0, l, m);
    var b, c :| b in keys && c in keys && InOrder(lockOf, b, c, m, n);
    BelowAltogether(lockOf, keys, l, m, a, b);
    assert l == n ==> Between(lockOf, a, b, c);
    assert InOrder(lockOf, a, c, l, n);
  }

  lemma {:induction false} WalksGoUp(lockOf: ChannelGateKey -> LockId, keys: set<ChannelGateKey>, walk: seq<Link>)
    requires !Interleaved(lockOf, keys) && IsWalk(lockOf, keys, walk)
    ensures LockBelow(lockOf, keys, lockOf(walk[0].first), lockOf(walk[|walk| - 1].second))
  {
    var last := walk[|walk| - 1];
    assert InOrder(lockOf, last.first, last.second, lockOf(last.first), lockOf(last.second));
    if |walk| > 1 {
      var front := walk[..|walk| - 1];
      assert IsWalk(lockOf, keys, front);
      WalksGoUp(lockOf, keys, front);
      BelowIsTransitive(lockOf, keys, lockOf(walk[0].first), lockOf(last.first), lockOf(last.second));
    }
  }

  /** Among the channels of one company the locks are tangled exactly when a channel lies between two that share another lock. */
  lemma OneCompanyIsTangledExactlyWhenInterleaved(lockOf: ChannelGateKey -> LockId, keys: set<ChannelGateKey>)
    requires forall a, b | a in keys && b in keys :: a.company == b.company
    ensures Tangled(lockOf, keys) <==> Interleaved(lockOf, keys)
  {
    if Interleaved(lockOf, keys) {
      var x, y, z :| x in keys && y in keys && z in keys && Between(lockOf, x, y, z);
      assert Goes(lockOf, keys, [Link(x, y), Link(y, z)], lockOf(x), lockOf(x));
      assert LeadsTo(lockOf, keys, lockOf(x), lockOf(x));
    } else {
      forall l ensures !LeadsTo(lockOf, keys, l, l) {
        forall walk ensures !Goes(lockOf, keys, walk, l, l) {
          if IsWalk(lockOf, keys, walk) {
            WalksGoUp(lockOf, keys, walk);
          }
        }
      }
    }
  }
}
