/**
 The channel gate protocol: routers, inbound commits and settings edits as interleaved steps.

 A transaction requests one advisory lock at a time and waits its turn behind every conflicting
 request made earlier. What an edit writes is invisible until it commits; what a commit checks is
 what is committed at the statement that checks. `lockOf` is the hash of a gate key, and nothing
 here assumes that it is free of collisions.
 */
module ChannelGate {
  import opened GateKeys

  type TxnId = nat
  type LockId = int

  datatype AccessMode = Team | Allowlist | Public

  /** What routing decides on. */
  datatype ChannelSettings = ChannelSettings(
    enabled: bool, mode: AccessMode, participants: set<string>, addresses: set<string>)

  datatype ChannelRow = ChannelRow(settings: ChannelSettings, revision: nat)

  /** One channel a message was routed into, and what the routing statement read of it. */
  datatype Intent = Intent(key: ChannelGateKey, seen: ChannelRow)

  datatype Job =
    | Admit(intents: seq<Intent>)
    | ChangeSettings(key: ChannelGateKey, settings: ChannelSettings)

  datatype Outcome = Stored | Superseded | Saved | NotFound | RolledBack

  datatype Phase =
    | Taking(pos: nat)          // holds the first `pos` gates of its list
    | Waiting(pos: nat)         // and is queued for the next one
    | Checked                   // a commit that found every revision current
    | RowLocked                 // an edit that found its channel
    | Written(row: ChannelRow)  // an edit whose write is not committed yet
    | Ended(outcome: Outcome)

  datatype Txn = Txn(job: Job, keys: seq<ChannelGateKey>, phase: Phase)

  /** A lock request: which lock, whose, when it arrived, and whether it has been granted. */
  datatype Claim = Claim(lock: LockId, txn: TxnId)
  datatype Request = Request(ticket: nat, granted: bool)

  datatype Event =
    | SettingsSaved(txn: TxnId, key: ChannelGateKey, settings: ChannelSettings)
    | MessageStored(txn: TxnId, intents: seq<Intent>)

  datatype System = System(
    channels: map<ChannelGateKey, ChannelRow>,
    routers: map<nat, seq<Intent>>,
    txns: map<TxnId, Txn>,
    requests: map<Claim, Request>,
    nextTicket: nat,
    log: seq<Event>)

  datatype Action =
    | Route(router: nat, key: ChannelGateKey)
    | BeginCommit(txn: TxnId, router: nat)
    | BeginEdit(txn: TxnId, key: ChannelGateKey, settings: ChannelSettings)
    | Take(txn: TxnId)
    | Grant(txn: TxnId)
    | Verify(txn: TxnId)
    | Store(txn: TxnId)
    | LockRow(txn: TxnId)
    | Write(txn: TxnId)
    | Save(txn: TxnId)
    | Abort(txn: TxnId)

  function KeysOf(job: Job): seq<ChannelGateKey> {
    match job
    case Admit(intents) => seq(|intents|, i requires 0 <= i < |intents| => intents[i].key)
    case ChangeSettings(key, _) => [key]
  }

  function Begin(job: Job): Txn {
    Txn(job, AcquireOrder(KeysOf(job)), Taking(0))
  }

  /** How many gates of its list a transaction holds. */
  function Depth(txn: Txn): nat {
    match txn.phase
    case Taking(pos) => pos
    case Waiting(pos) => pos
    case Checked => |txn.keys|
    case RowLocked => |txn.keys|
    case Written(_) => |txn.keys|
    case Ended(_) => 0
  }

  ghost predicate Holds(lockOf: ChannelGateKey -> LockId, txn: Txn, lock: LockId) {
    exists i :: 0 <= i < Depth(txn) && i < |txn.keys| && lockOf(txn.keys[i]) == lock
  }

  /** Shared requests get along with each other; everything else excludes. */
  predicate Conflict(a: Job, b: Job) {
    a.ChangeSettings? || b.ChangeSettings?
  }

  /** Whether every channel still stands at the revision the message was routed under. */
  predicate Current(channels: map<ChannelGateKey, ChannelRow>, intents: seq<Intent>) {
    forall i | 0 <= i < |intents| ::
      intents[i].key in channels && channels[intents[i].key].revision == intents[i].seen.revision
  }

  predicate In(s: System, t: TxnId, phase: Phase) {
    t in s.txns && s.txns[t].phase == phase
  }

  /** First come, first served: nothing that conflicts with the request arrived before it. */
  predicate FirstInLine(s: System, c: Claim)
    requires c in s.requests && c.txn in s.txns
  {
    forall d | d in s.requests && d.lock == c.lock && d.txn != c.txn && d.txn in s.txns
            && s.requests[d].ticket < s.requests[c].ticket ::
      !Conflict(s.txns[c.txn].job, s.txns[d.txn].job)
  }

  /** A message is committed for one company, which all its channels belong to. */
  predicate OneCompany(intents: seq<Intent>) {
    forall i, j | 0 <= i < |intents| && 0 <= j < |intents| :: intents[i].key.company == intents[j].key.company
  }

  predicate Enabled(lockOf: ChannelGateKey -> LockId, s: System, a: Action) {
    match a
    case Route(r, k) => k in s.channels
    case BeginCommit(t, r) => t !in s.txns && r in s.routers && OneCompany(s.routers[r])
    case BeginEdit(t, _, _) => t !in s.txns
    case Take(t) => t in s.txns && s.txns[t].phase.Taking? && s.txns[t].phase.pos < |s.txns[t].keys|
    case Grant(t) =>
      && t in s.txns && s.txns[t].phase.Waiting? && s.txns[t].phase.pos < |s.txns[t].keys|
      && var c := Claim(lockOf(s.txns[t].keys[s.txns[t].phase.pos]), t);
         c in s.requests && FirstInLine(s, c)
    case Verify(t) => In(s, t, Taking(if t in s.txns then |s.txns[t].keys| else 0)) && s.txns[t].job.Admit?
    case Store(t) => In(s, t, Checked) && s.txns[t].job.Admit?
    case LockRow(t) => In(s, t, Taking(if t in s.txns then |s.txns[t].keys| else 0)) && s.txns[t].job.ChangeSettings?
    case Write(t) => In(s, t, RowLocked) && s.txns[t].job.ChangeSettings? && s.txns[t].job.key in s.channels
    case Save(t) => t in s.txns && s.txns[t].phase.Written? && s.txns[t].job.ChangeSettings?
    case Abort(t) => t in s.txns && !s.txns[t].phase.Ended?
  }

  function Goto(s: System, t: TxnId, phase: Phase): System
    requires t in s.txns
  {
    s.(txns := s.txns[t := s.txns[t].(phase := phase)])
  }

  /** Commit or roll back: every advisory lock of the transaction goes with it. */
  function End(s: System, t: TxnId, outcome: Outcome): System
    requires t in s.txns
  {
    Goto(s, t, Ended(outcome)).(requests := map c | c in s.requests && c.txn != t :: s.requests[c])
  }

  function Apply(lockOf: ChannelGateKey -> LockId, s: System, a: Action): System
    requires Enabled(lockOf, s, a)
  {
    match a
    case Route(r, k) =>
      var read := if r in s.routers then s.routers[r] else [];
      s.(routers := s.routers[r := read + [Intent(k, s.channels[k])]])
    case BeginCommit(t, r) => s.(txns := s.txns[t := Begin(Admit(s.routers[r]))])
    case BeginEdit(t, k, settings) => s.(txns := s.txns[t := Begin(ChangeSettings(k, settings))])
    case Take(t) =>
      var pos := s.txns[t].phase.pos;
      var c := Claim(lockOf(s.txns[t].keys[pos]), t);
      // A lock the transaction already holds, through a colliding key, is granted again at once.
      if c in s.requests then Goto(s, t, Taking(pos + 1))
      else Goto(s, t, Waiting(pos)).(requests := s.requests[c := Request(s.nextTicket, false)],
                                     nextTicket := s.nextTicket + 1)
    case Grant(t) =>
      var pos := s.txns[t].phase.pos;
      var c := Claim(lockOf(s.txns[t].keys[pos]), t);
      Goto(s, t, Taking(pos + 1)).(requests := s.requests[c := s.requests[c].(granted := true)])
    case Verify(t) =>
      if Current(s.channels, s.txns[t].job.intents) then Goto(s, t, Checked) else End(s, t, Superseded)
    case Store(t) =>
      End(s, t, Stored).(log := s.log + [MessageStored(t, s.txns[t].job.intents)])
    case LockRow(t) =>
      if s.txns[t].job.key in s.channels then Goto(s, t, RowLocked) else End(s, t, NotFound)
    case Write(t) =>
      Goto(s, t, Written(ChannelRow(s.txns[t].job.settings, s.channels[s.txns[t].job.key].revision + 1)))
    case Save(t) =>
      End(s, t, Saved).(channels := s.channels[s.txns[t].job.key := s.txns[t].phase.row],
                        log := s.log + [SettingsSaved(t, s.txns[t].job.key, s.txns[t].job.settings)])
    case Abort(t) => End(s, t, RolledBack)
  }

  function Step(lockOf: ChannelGateKey -> LockId, s: System, a: Action): System {
    if Enabled(lockOf, s, a) then Apply(lockOf, s, a) else s
  }

  function Start(channels: map<ChannelGateKey, ChannelRow>): System {
    System(channels, map[], map[], map[], 0, [])
  }

  /** Any interleaving whatever: an action that is not enabled leaves the system alone. */
  function Run(lockOf: ChannelGateKey -> LockId, s: System, actions: seq<Action>): System
    decreases |actions|
  {
    if actions == [] then s
    else Step(lockOf, Run(lockOf, s, actions[..|actions| - 1]), actions[|actions| - 1])
  }

  // ---------------------------------------------------------------------------------------------
  // The reference: one writer, one event at a time.

  /** The channels after applying the committed edits of a log serially. */
  function Replay(init: map<ChannelGateKey, ChannelRow>, log: seq<Event>): map<ChannelGateKey, ChannelRow>
    decreases |log|
  {
    if log == [] then init
    else
      var before := Replay(init, log[..|log| - 1]);
      match log[|log| - 1]
      case MessageStored(_, _) => before
      case SettingsSaved(_, key, settings) =>
        if key in before then before[key := ChannelRow(settings, before[key].revision + 1)] else before
  }

  /** What routing read of a channel is what the channel is, in settings as well as revision. */
  ghost predicate RoutedUnder(channels: map<ChannelGateKey, ChannelRow>, intents: seq<Intent>) {
    forall i | 0 <= i < |intents| ::
      intents[i].key in channels && channels[intents[i].key] == intents[i].seen
  }

  /** Every stored message was routed under the settings standing when it was stored. */
  ghost predicate Serial(init: map<ChannelGateKey, ChannelRow>, log: seq<Event>) {
    forall i | 0 <= i < |log| && log[i].MessageStored? ::
      RoutedUnder(Replay(init, log[..i]), log[i].intents)
  }

  // ---------------------------------------------------------------------------------------------
  // The invariant

  ghost predicate LocksValid(lockOf: ChannelGateKey -> LockId, s: System) {
    && (forall t | t in s.txns :: TxnValid(s.txns[t]))
    && (forall c | c in s.requests :: ClaimValid(lockOf, s, c))
    && HeldAreGranted(lockOf, s)
    && WaitersAreQueued(lockOf, s)
    && TicketsDiffer(s)
    && GrantedCameFirst(s)
  }

  ghost predicate HeldAreGranted(lockOf: ChannelGateKey -> LockId, s: System) {
    forall t, l | t in s.txns && Holds(lockOf, s.txns[t], l) ::
      Claim(l, t) in s.requests && s.requests[Claim(l, t)].granted
  }

  ghost predicate WaitersAreQueued(lockOf: ChannelGateKey -> LockId, s: System) {
    forall t | t in s.txns && s.txns[t].phase.Waiting? :: Queued(lockOf, s, t)
  }

  ghost predicate Queued(lockOf: ChannelGateKey -> LockId, s: System, t: TxnId)
    requires t in s.txns && s.txns[t].phase.Waiting?
  {
    && s.txns[t].phase.pos < |s.txns[t].keys|
    && Claim(lockOf(s.txns[t].keys[s.txns[t].phase.pos]), t) in s.requests
  }

  ghost predicate TicketsDiffer(s: System) {
    forall c, d | c in s.requests && d in s.requests && c != d ::
      s.requests[c].ticket != s.requests[d].ticket
  }

  ghost predicate GrantedCameFirst(s: System) {
    forall c, d | c in s.requests && d in s.requests && Contend(s, c, d) && s.requests[c].granted ::
      s.requests[c].ticket < s.requests[d].ticket
  }

  ghost predicate TxnValid(txn: Txn) {
    && StrictlyOrdered(txn.keys)
    && (forall k :: k in txn.keys <==> k in KeysOf(txn.job))
    && (txn.phase.Taking? ==> txn.phase.pos <= |txn.keys|)
    && (txn.phase.Waiting? ==> txn.phase.pos < |txn.keys|)
    && (txn.phase.Checked? ==> txn.job.Admit?)
    && (txn.phase.RowLocked? || txn.phase.Written? ==> txn.job.ChangeSettings?)
  }

  ghost predicate ClaimValid(lockOf: ChannelGateKey -> LockId, s: System, c: Claim)
    requires c in s.requests
  {
    && c.txn in s.txns
    && s.requests[c].ticket < s.nextTicket
    && (s.requests[c].granted ==> Holds(lockOf, s.txns[c.txn], c.lock))
    && (!s.requests[c].granted ==>
          && s.txns[c.txn].phase.Waiting?
          && s.txns[c.txn].phase.pos < |s.txns[c.txn].keys|
          && lockOf(s.txns[c.txn].keys[s.txns[c.txn].phase.pos]) == c.lock)
  }

  /** Two requests that can never both be granted. */
  ghost predicate Contend(s: System, c: Claim, d: Claim) {
    && c.lock == d.lock && c.txn != d.txn && c.txn in s.txns && d.txn in s.txns
    && Conflict(s.txns[c.txn].job, s.txns[d.txn].job)
  }

  /** A past reading is of this revision or an older one, and a revision names its settings. */
  ghost predicate Fair(channels: map<ChannelGateKey, ChannelRow>, intents: seq<Intent>) {
    forall i | 0 <= i < |intents| ::
      var k, seen := intents[i].key, intents[i].seen;
      && k in channels
      && seen.revision <= channels[k].revision
      && (seen.revision == channels[k].revision ==> seen.settings == channels[k].settings)
  }

  /** What the data invariant asks of one transaction. */
  ghost predicate Honest(channels: map<ChannelGateKey, ChannelRow>, txn: Txn) {
    && (txn.job.Admit? ==> Fair(channels, txn.job.intents))
    && (txn.job.Admit? && txn.phase.Checked? ==> RoutedUnder(channels, txn.job.intents))
    && (txn.job.ChangeSettings? && (txn.phase.RowLocked? || txn.phase.Written?) ==> txn.job.key in channels)
    && (txn.job.ChangeSettings? && txn.phase.Written? ==>
          txn.phase.row == ChannelRow(txn.job.settings, channels[txn.job.key].revision + 1))
  }

  ghost predicate DataValid(s: System) {
    && (forall r | r in s.routers :: Fair(s.channels, s.routers[r]))
    && (forall t | t in s.txns :: Honest(s.channels, s.txns[t]))
  }

  /** The log holds exactly the transactions that said they succeeded, each one once. */
  ghost predicate LogValid(init: map<ChannelGateKey, ChannelRow>, s: System) {
    && s.channels == Replay(init, s.log)
    && Serial(init, s.log)
    && OnlySuccessesLogged(s)
    && EverySuccessLogged(s)
  }

  ghost predicate OnlySuccessesLogged(s: System) {
    && (forall i | 0 <= i < |s.log| :: In(s, s.log[i].txn, OutcomeOf(s.log[i])))
    && (forall i, j | 0 <= i < j < |s.log| :: s.log[i].txn != s.log[j].txn)
  }

  function OutcomeOf(e: Event): Phase {
    Ended(if e.MessageStored? then Stored else Saved)
  }

  ghost predicate EverySuccessLogged(s: System) {
    forall t | t in s.txns && (s.txns[t].phase == Ended(Stored) || s.txns[t].phase == Ended(Saved)) ::
      exists i :: 0 <= i < |s.log| && s.log[i].txn == t
  }

  ghost predicate Valid(lockOf: ChannelGateKey -> LockId, init: map<ChannelGateKey, ChannelRow>, s: System) {
    LocksValid(lockOf, s) && DataValid(s) && LogValid(init, s)
  }

  // ---------------------------------------------------------------------------------------------
  // Every step keeps the locks honest

  lemma EndKeepsLocks(lockOf: ChannelGateKey -> LockId, s: System, t: TxnId, outcome: Outcome)
    requires LocksValid(lockOf, s) && t in s.txns
    ensures LocksValid(lockOf, End(s, t, outcome))
  {
    var s' := End(s, t, outcome);
    forall u, l | u in s'.txns && Holds(lockOf, s'.txns[u], l)
      ensures Claim(l, u) in s'.requests && s'.requests[Claim(l, u)].granted
    {
      assert u != t;
      assert Holds(lockOf, s.txns[u], l);
    }
    forall c | c in s'.requests ensures ClaimValid(lockOf, s', c) {
      assert ClaimValid(lockOf, s, c);
    }
    forall c, d | c in s'.requests && d in s'.requests && Contend(s', c, d) && s'.requests[c].granted
      ensures s'.requests[c].ticket < s'.requests[d].ticket
    {
      assert Contend(s, c, d);
    }
  }

  /** Moving between phases that hold the same gates changes nothing about the locks. */
  lemma GotoKeepsLocks(lockOf: ChannelGateKey -> LockId, s: System, t: TxnId, phase: Phase)
    requires LocksValid(lockOf, s) && t in s.txns && !s.txns[t].phase.Waiting? && !phase.Waiting?
    requires TxnValid(s.txns[t].(phase := phase))
    requires forall l :: Holds(lockOf, s.txns[t], l) <==> Holds(lockOf, s.txns[t].(phase := phase), l)
    ensures LocksValid(lockOf, Goto(s, t, phase))
  {
    var s' := Goto(s, t, phase);
    forall u, l | u in s'.txns && Holds(lockOf, s'.txns[u], l)
      ensures Claim(l, u) in s'.requests && s'.requests[Claim(l, u)].granted
    {
      assert Holds(lockOf, s.txns[u], l);
    }
    forall c | c in s'.requests ensures ClaimValid(lockOf, s', c) {
      assert ClaimValid(lockOf, s, c);
    }
    forall c, d | c in s'.requests && d in s'.requests && Contend(s', c, d) && s'.requests[c].granted
      ensures s'.requests[c].ticket < s'.requests[d].ticket
    {
      assert Contend(s, c, d);
    }
  }

  lemma BeginKeepsLocks(lockOf: ChannelGateKey -> LockId, s: System, t: TxnId, job: Job)
    requires LocksValid(lockOf, s) && t !in s.txns
    ensures LocksValid(lockOf, s.(txns := s.txns[t := Begin(job)]))
  {
    var s' := s.(txns := s.txns[t := Begin(job)]);
    AcquireOrderIsStrict(KeysOf(job));
    forall u, l | u in s'.txns && Holds(lockOf, s'.txns[u], l)
      ensures Claim(l, u) in s'.requests && s'.requests[Claim(l, u)].granted
    {
      assert u != t;
      assert Holds(lockOf, s.txns[u], l);
    }
    forall c | c in s'.requests ensures ClaimValid(lockOf, s', c) {
      assert ClaimValid(lockOf, s, c);
    }
    forall c, d | c in s'.requests && d in s'.requests && Contend(s', c, d) && s'.requests[c].granted
      ensures s'.requests[c].ticket < s'.requests[d].ticket
    {
      assert ClaimValid(lockOf, s, c) && ClaimValid(lockOf, s, d);
      assert Contend(s, c, d);
    }
  }

  /** Holding one more gate: the locks held are the ones before, and the new one. */
  lemma HoldOneMore(lockOf: ChannelGateKey -> LockId, txn: Txn, pos: nat)
    requires pos < |txn.keys| && (txn.phase == Taking(pos) || txn.phase == Waiting(pos))
    ensures forall l ::
      Holds(lockOf, txn.(phase := Taking(pos + 1)), l) <==> Holds(lockOf, txn, l) || l == lockOf(txn.keys[pos])
  {
    var more := txn.(phase := Taking(pos + 1));
    forall l ensures Holds(lockOf, more, l) <==> Holds(lockOf, txn, l) || l == lockOf(txn.keys[pos]) {
      if Holds(lockOf, txn, l) {
        var i :| 0 <= i < Depth(txn) && i < |txn.keys| && lockOf(txn.keys[i]) == l;
        assert i < Depth(more);
      }
      if l == lockOf(txn.keys[pos]) {
        assert pos < Depth(more);
      }
    }
  }

  lemma HoldingAgain(lockOf: ChannelGateKey -> LockId, txn: Txn, pos: nat)
    requires pos < |txn.keys| && txn.phase == Taking(pos) && Holds(lockOf, txn, lockOf(txn.keys[pos]))
    ensures forall l :: Holds(lockOf, txn, l) <==> Holds(lockOf, txn.(phase := Taking(pos + 1)), l)
  {
    HoldOneMore(lockOf, txn, pos);
  }

  /** Taking a lock the transaction already holds through a colliding key. */
  lemma RetakeKeepsLocks(lockOf: ChannelGateKey -> LockId, s: System, t: TxnId)
    requires LocksValid(lockOf, s) && Enabled(lockOf, s, Take(t))
    requires Claim(lockOf(s.txns[t].keys[s.txns[t].phase.pos]), t) in s.requests
    ensures LocksValid(lockOf, Apply(lockOf, s, Take(t)))
  {
    var txn, pos := s.txns[t], s.txns[t].phase.pos;
    assert TxnValid(txn.(phase := Taking(pos + 1))) by {
      assert TxnValid(txn);
    }
    assert Holds(lockOf, txn, lockOf(txn.keys[pos])) by {
      assert ClaimValid(lockOf, s, Claim(lockOf(txn.keys[pos]), t));
    }
    HoldingAgain(lockOf, txn, pos);
    GotoKeepsLocks(lockOf, s, t, Taking(pos + 1));
    assert Apply(lockOf, s, Take(t)) == Goto(s, t, Taking(pos + 1));
  }

  lemma FirstTakeKeepsLocks(lockOf: ChannelGateKey -> LockId, s: System, t: TxnId)
    requires LocksValid(lockOf, s) && Enabled(lockOf, s, Take(t))
    requires Claim(lockOf(s.txns[t].keys[s.txns[t].phase.pos]), t) !in s.requests
    ensures LocksValid(lockOf, Apply(lockOf, s, Take(t)))
  {
    var pos := s.txns[t].phase.pos;
    SameDepth(lockOf, s.txns[t], Waiting(pos));
    QueueingKeepsLocks(lockOf, s, Apply(lockOf, s, Take(t)), t, Claim(lockOf(s.txns[t].keys[pos]), t));
  }

  lemma TakeKeepsLocks(lockOf: ChannelGateKey -> LockId, s: System, t: TxnId)
    requires LocksValid(lockOf, s) && Enabled(lockOf, s, Take(t))
    ensures LocksValid(lockOf, Apply(lockOf, s, Take(t)))
  {
    if Claim(lockOf(s.txns[t].keys[s.txns[t].phase.pos]), t) in s.requests {
      RetakeKeepsLocks(lockOf, s, t);
    } else {
      FirstTakeKeepsLocks(lockOf, s, t);
    }
  }

  /** `s'` is `s` with the transaction queued for one more lock. */
  ghost predicate JoinsQueue(lockOf: ChannelGateKey -> LockId, s: System, s': System, t: TxnId, wanted: Claim) {
    && t in s.txns && s.txns[t].phase.Taking? && s.txns[t].phase.pos < |s.txns[t].keys|
    && wanted == Claim(lockOf(s.txns[t].keys[s.txns[t].phase.pos]), t) && wanted !in s.requests
    && s' == Goto(s, t, Waiting(s.txns[t].phase.pos)).(
               requests := s.requests[wanted := Request(s.nextTicket, false)], nextTicket := s.nextTicket + 1)
    && (forall l :: Holds(lockOf, s.txns[t], l) <==> Holds(lockOf, s'.txns[t], l))
  }

  lemma QueueingKeepsLocks(lockOf: ChannelGateKey -> LockId, s: System, s': System, t: TxnId, wanted: Claim)
    requires LocksValid(lockOf, s) && JoinsQueue(lockOf, s, s', t, wanted)
    ensures LocksValid(lockOf, s')
  {
    QueueingKeepsHolders(lockOf, s, s', t, wanted);
    QueueingKeepsTickets(lockOf, s, s', t, wanted);
    forall u | u in s'.txns ensures TxnValid(s'.txns[u]) { assert TxnValid(s.txns[u]); }
  }

  lemma QueueingKeepsHolders(lockOf: ChannelGateKey -> LockId, s: System, s': System, t: TxnId, wanted: Claim)
    requires LocksValid(lockOf, s) && JoinsQueue(lockOf, s, s', t, wanted)
    ensures HeldAreGranted(lockOf, s') && WaitersAreQueued(lockOf, s')
    ensures forall c | c in s'.requests :: ClaimValid(lockOf, s', c)
  {
    forall u, l | u in s'.txns && Holds(lockOf, s'.txns[u], l)
      ensures Claim(l, u) in s'.requests && s'.requests[Claim(l, u)].granted
    {
      assert Holds(lockOf, s.txns[u], l);
      assert Claim(l, u) in s.requests;
    }
    forall u | u in s'.txns && s'.txns[u].phase.Waiting? ensures Queued(lockOf, s', u) {
      assert u != t ==> Queued(lockOf, s, u);
    }
    forall c | c in s'.requests ensures ClaimValid(lockOf, s', c) {
      assert c != wanted ==> ClaimValid(lockOf, s, c);
    }
  }

  lemma QueueingKeepsTickets(lockOf: ChannelGateKey -> LockId, s: System, s': System, t: TxnId, wanted: Claim)
    requires LocksValid(lockOf, s) && JoinsQueue(lockOf, s, s', t, wanted)
    ensures TicketsDiffer(s') && GrantedCameFirst(s')
  {
    assert forall c | c in s.requests :: s.requests[c].ticket < s.nextTicket by {
      forall c | c in s.requests ensures s.requests[c].ticket < s.nextTicket { assert ClaimValid(lockOf, s, c); }
    }
    forall c, d | c in s'.requests && d in s'.requests && Contend(s', c, d) && s'.requests[c].granted
      ensures s'.requests[c].ticket < s'.requests[d].ticket
    {
      assert c != wanted;
      assert d != wanted ==> Contend(s, c, d);
    }
  }

  lemma GrantKeepsLocks(lockOf: ChannelGateKey -> LockId, s: System, t: TxnId)
    requires LocksValid(lockOf, s) && Enabled(lockOf, s, Grant(t))
    ensures LocksValid(lockOf, Apply(lockOf, s, Grant(t)))
  {
    var s' := Apply(lockOf, s, Grant(t));
    GrantKeepsHolders(lockOf, s, t);
    GrantKeepsTickets(lockOf, s, t);
    forall u | u in s'.txns ensures TxnValid(s'.txns[u]) { assert TxnValid(s.txns[u]); }
  }

  lemma GrantKeepsHolders(lockOf: ChannelGateKey -> LockId, s: System, t: TxnId)
    requires LocksValid(lockOf, s) && Enabled(lockOf, s, Grant(t))
    ensures var s' := Apply(lockOf, s, Grant(t));
      && HeldAreGranted(lockOf, s') && WaitersAreQueued(lockOf, s')
      && forall c | c in s'.requests :: ClaimValid(lockOf, s', c)
  {
    var s' := Apply(lockOf, s, Grant(t));
    var pos := s.txns[t].phase.pos;
    var wanted := Claim(lockOf(s.txns[t].keys[pos]), t);
    HoldOneMore(lockOf, s.txns[t], pos);
    forall u, l | u in s'.txns && Holds(lockOf, s'.txns[u], l)
      ensures Claim(l, u) in s'.requests && s'.requests[Claim(l, u)].granted
    {
      assert Claim(l, u) != wanted ==> Holds(lockOf, s.txns[u], l);
    }
    forall u | u in s'.txns && s'.txns[u].phase.Waiting? ensures Queued(lockOf, s', u) {
      assert u != t && Queued(lockOf, s, u);
    }
    forall c | c in s'.requests ensures ClaimValid(lockOf, s', c) {
      assert ClaimValid(lockOf, s, c);
    }
  }

  lemma GrantKeepsTickets(lockOf: ChannelGateKey -> LockId, s: System, t: TxnId)
    requires LocksValid(lockOf, s) && Enabled(lockOf, s, Grant(t))
    ensures var s' := Apply(lockOf, s, Grant(t)); TicketsDiffer(s') && GrantedCameFirst(s')
  {
    var s' := Apply(lockOf, s, Grant(t));
    var wanted := Claim(lockOf(s.txns[t].keys[s.txns[t].phase.pos]), t);
    forall c, d | c in s'.requests && d in s'.requests && Contend(s', c, d) && s'.requests[c].granted
      ensures s'.requests[c].ticket < s'.requests[d].ticket
    {
      assert Contend(s, c, d);
      assert s.requests[c].ticket != s.requests[d].ticket;
      if c != wanted {
        assert s.requests[c].granted;
      }
    }
  }

  lemma StepKeepsLocks(lockOf: ChannelGateKey -> LockId, s: System, a: Action)
    requires LocksValid(lockOf, s)
    ensures LocksValid(lockOf, Step(lockOf, s, a))
  {
    if Enabled(lockOf, s, a) {
      match a
      case Route(_, _) => RouteKeepsLocks(lockOf, s, Apply(lockOf, s, a));
      case BeginCommit(t, r) => BeginKeepsLocks(lockOf, s, t, Admit(s.routers[r]));
      case BeginEdit(t, k, settings) => BeginKeepsLocks(lockOf, s, t, ChangeSettings(k, settings));
      case Take(t) => TakeKeepsLocks(lockOf, s, t);
      case Grant(t) => GrantKeepsLocks(lockOf, s, t);
      case Verify(t) =>
        if Current(s.channels, s.txns[t].job.intents) {
          SameDepth(lockOf, s.txns[t], Checked);
          GotoKeepsLocks(lockOf, s, t, Checked);
        } else {
          EndKeepsLocks(lockOf, s, t, Superseded);
        }
      case Store(t) =>
        EndKeepsLocks(lockOf, s, t, Stored);
        RouteKeepsLocks(lockOf, End(s, t, Stored), Apply(lockOf, s, a));
      case LockRow(t) =>
        if s.txns[t].job.key in s.channels {
          SameDepth(lockOf, s.txns[t], RowLocked);
          GotoKeepsLocks(lockOf, s, t, RowLocked);
        } else {
          EndKeepsLocks(lockOf, s, t, NotFound);
        }
      case Write(t) =>
        var phase := Apply(lockOf, s, a).txns[t].phase;
        SameDepth(lockOf, s.txns[t], phase);
        GotoKeepsLocks(lockOf, s, t, phase);
      case Save(t) =>
        EndKeepsLocks(lockOf, s, t, Saved);
        RouteKeepsLocks(lockOf, End(s, t, Saved), Apply(lockOf, s, a));
      case Abort(t) => EndKeepsLocks(lockOf, s, t, RolledBack);
    }
  }

  lemma SameDepth(lockOf: ChannelGateKey -> LockId, txn: Txn, phase: Phase)
    requires Depth(txn) == Depth(txn.(phase := phase))
    ensures forall l :: Holds(lockOf, txn, l) <==> Holds(lockOf, txn.(phase := phase), l)
  {
    forall l ensures Holds(lockOf, txn, l) <==> Holds(lockOf, txn.(phase := phase), l) {
      var other := txn.(phase := phase);
      assert Holds(lockOf, txn, l) ==>
        exists i :: 0 <= i < Depth(other) && i < |other.keys| && lockOf(other.keys[i]) == l;
    }
  }

  /** The lock invariant reads the transactions and the requests, and nothing else. */
  lemma RouteKeepsLocks(lockOf: ChannelGateKey -> LockId, s: System, s': System)
    requires LocksValid(lockOf, s)
    requires s'.txns == s.txns && s'.requests == s.requests && s'.nextTicket == s.nextTicket
    ensures LocksValid(lockOf, s')
  {
    forall c | c in s'.requests ensures ClaimValid(lockOf, s', c) {
      assert ClaimValid(lockOf, s, c);
    }
    forall c, d | c in s'.requests && d in s'.requests && Contend(s', c, d) && s'.requests[c].granted
      ensures s'.requests[c].ticket < s'.requests[d].ticket
    {
      assert Contend(s, c, d);
    }
  }

  // ---------------------------------------------------------------------------------------------
  // Every step keeps the data honest

  /** Nobody else holds the gate of a channel whose edit is past its own. */
  lemma ExclusiveHolder(lockOf: ChannelGateKey -> LockId, s: System, t: TxnId, u: TxnId)
    requires LocksValid(lockOf, s) && t in s.txns && u in s.txns && t != u
    requires s.txns[t].job.ChangeSettings? && s.txns[t].phase.Written?
    requires s.txns[u].phase.Checked? || s.txns[u].phase.RowLocked? || s.txns[u].phase.Written?
    ensures s.txns[t].job.key !in KeysOf(s.txns[u].job)
  {
    var key := s.txns[t].job.key;
    if key in KeysOf(s.txns[u].job) {
      assert key in KeysOf(s.txns[t].job) && key in s.txns[t].keys;
      var i :| 0 <= i < |s.txns[t].keys| && s.txns[t].keys[i] == key;
      assert key in s.txns[u].keys;
      var j :| 0 <= j < |s.txns[u].keys| && s.txns[u].keys[j] == key;
      var c, d := Claim(lockOf(key), t), Claim(lockOf(key), u);
      assert Holds(lockOf, s.txns[t], lockOf(key)) && Holds(lockOf, s.txns[u], lockOf(key));
      assert c in s.requests && d in s.requests && s.requests[c].granted && s.requests[d].granted;
      assert Contend(s, c, d) && Contend(s, d, c);
    }
  }

  lemma SaveKeepsData(lockOf: ChannelGateKey -> LockId, s: System, t: TxnId)
    requires LocksValid(lockOf, s) && DataValid(s) && Enabled(lockOf, s, Save(t))
    ensures DataValid(Apply(lockOf, s, Save(t)))
  {
    var s' := Apply(lockOf, s, Save(t));
    var key := s.txns[t].job.key;
    forall intents: seq<Intent> | Fair(s.channels, intents) ensures Fair(s'.channels, intents) {}
    forall u | u in s'.txns ensures Honest(s'.channels, s'.txns[u]) {
      assert Honest(s.channels, s.txns[u]);
      if u != t && (s.txns[u].phase.Checked? || s.txns[u].phase.RowLocked? || s.txns[u].phase.Written?) {
        ExclusiveHolder(lockOf, s, t, u);
        if s.txns[u].job.Admit? {
          var intents := s.txns[u].job.intents;
          forall i | 0 <= i < |intents| ensures intents[i].key != key {
            assert KeysOf(s.txns[u].job)[i] == intents[i].key;
          }
        } else {
          assert KeysOf(s.txns[u].job)[0] == s.txns[u].job.key;
        }
      }
    }
  }

  lemma VerifiedIsRouted(channels: map<ChannelGateKey, ChannelRow>, intents: seq<Intent>)
    requires Fair(channels, intents)
    ensures Current(channels, intents) <==> RoutedUnder(channels, intents)
  {
  }

  lemma StepKeepsData(lockOf: ChannelGateKey -> LockId, s: System, a: Action)
    requires LocksValid(lockOf, s) && DataValid(s)
    ensures DataValid(Step(lockOf, s, a))
  {
    if a.Save? && Enabled(lockOf, s, a) {
      SaveKeepsData(lockOf, s, a.txn);
    } else if a.Route? && Enabled(lockOf, s, a) {
      assert Fair(s.channels, Step(lockOf, s, a).routers[a.router]);
    } else if Enabled(lockOf, s, a) {
      QuietStepKeepsData(lockOf, s, a);
    }
  }

  lemma QuietStepKeepsData(lockOf: ChannelGateKey -> LockId, s: System, a: Action)
    requires DataValid(s) && Enabled(lockOf, s, a) && !a.Save? && !a.Route?
    ensures DataValid(Apply(lockOf, s, a))
  {
    var s' := Apply(lockOf, s, a);
    assert s'.channels == s.channels && s'.routers == s.routers;
    assert forall u | u in s'.txns && u != a.txn :: u in s.txns && s'.txns[u] == s.txns[u];
    assert a.txn in s'.txns;
    if a.Verify? {
      VerifiedIsRouted(s.channels, s.txns[a.txn].job.intents);
    }
    assert Honest(s'.channels, s'.txns[a.txn]);
  }

  // ---------------------------------------------------------------------------------------------
  // Every step keeps the log serial

  lemma LogGrows(init: map<ChannelGateKey, ChannelRow>, log: seq<Event>, e: Event)
    requires Serial(init, log)
    requires e.MessageStored? ==> RoutedUnder(Replay(init, log), e.intents)
    ensures Serial(init, log + [e])
  {
    var longer := log + [e];
    forall i | 0 <= i < |longer| && longer[i].MessageStored?
      ensures RoutedUnder(Replay(init, longer[..i]), longer[i].intents)
    {
      assert longer[..i] == if i < |log| then log[..i] else log;
    }
  }

  lemma StepKeepsLog(lockOf: ChannelGateKey -> LockId, init: map<ChannelGateKey, ChannelRow>, s: System, a: Action)
    requires Valid(lockOf, init, s)
    ensures LogValid(init, Step(lockOf, s, a))
  {
    if Enabled(lockOf, s, a) {
      if a.Save? || a.Store? {
        CommitKeepsLog(lockOf, init, s, a);
      } else {
        QuietStepKeepsLog(lockOf, init, s, a);
      }
    }
  }

  /** `s'` is `s` with one transaction's success at the end of the log and its effect on the channels. */
  lemma SuccessKeepsLog(init: map<ChannelGateKey, ChannelRow>, s: System, s': System, e: Event)
    requires LogValid(init, s) && e.txn in s.txns && !s.txns[e.txn].phase.Ended?
    requires e.MessageStored? ==> RoutedUnder(s.channels, e.intents)
    requires s'.log == s.log + [e] && s'.txns == s.txns[e.txn := s.txns[e.txn].(phase := OutcomeOf(e))]
    requires s'.channels == Replay(init, s.log + [e])
    ensures LogValid(init, s')
  {
    LogGrows(init, s.log, e);
    SuccessJoinsLog(s, s', e);
  }

  lemma CommitKeepsLog(lockOf: ChannelGateKey -> LockId, init: map<ChannelGateKey, ChannelRow>, s: System, a: Action)
    requires DataValid(s) && LogValid(init, s) && Enabled(lockOf, s, a) && (a.Save? || a.Store?)
    ensures LogValid(init, Apply(lockOf, s, a))
  {
    var t := a.txn;
    assert Honest(s.channels, s.txns[t]);
    var e := if a.Save? then SettingsSaved(t, s.txns[t].job.key, s.txns[t].job.settings)
             else MessageStored(t, s.txns[t].job.intents);
    ReplayGrows(init, s.log, e);
    SuccessKeepsLog(init, s, Apply(lockOf, s, a), e);
  }

  lemma ReplayGrows(init: map<ChannelGateKey, ChannelRow>, log: seq<Event>, e: Event)
    ensures Replay(init, log + [e]) ==
      if e.SettingsSaved? && e.key in Replay(init, log)
      then Replay(init, log)[e.key := ChannelRow(e.settings, Replay(init, log)[e.key].revision + 1)]
      else Replay(init, log)
  {
    assert (log + [e])[..|log|] == log;
  }

  lemma SuccessJoinsLog(s: System, s': System, e: Event)
    requires OnlySuccessesLogged(s) && EverySuccessLogged(s)
    requires e.txn in s.txns && !s.txns[e.txn].phase.Ended?
    requires s'.log == s.log + [e] && s'.txns == s.txns[e.txn := s.txns[e.txn].(phase := OutcomeOf(e))]
    ensures OnlySuccessesLogged(s') && EverySuccessLogged(s')
  {
    forall i | 0 <= i < |s.log| ensures s.log[i].txn != e.txn {
      assert In(s, s.log[i].txn, OutcomeOf(s.log[i]));
    }
    forall i | 0 <= i < |s'.log| ensures In(s', s'.log[i].txn, OutcomeOf(s'.log[i])) {
      assert i < |s.log| ==> In(s, s.log[i].txn, OutcomeOf(s.log[i]));
    }
    forall u | u in s'.txns && (s'.txns[u].phase == Ended(Stored) || s'.txns[u].phase == Ended(Saved))
      ensures exists i :: 0 <= i < |s'.log| && s'.log[i].txn == u
    {
      if u == e.txn {
        assert s'.log[|s.log|].txn == u;
      } else {
        var i :| 0 <= i < |s.log| && s.log[i].txn == u;
        assert s'.log[i].txn == u;
      }
    }
  }

  lemma QuietStepKeepsLog(lockOf: ChannelGateKey -> LockId, init: map<ChannelGateKey, ChannelRow>, s: System, a: Action)
    requires LogValid(init, s) && Enabled(lockOf, s, a) && !a.Save? && !a.Store?
    ensures LogValid(init, Apply(lockOf, s, a))
  {
    var s' := Apply(lockOf, s, a);
    assert s'.log == s.log && s'.channels == s.channels;
    if !a.Route? {
      QuietStepSucceedsAtNothing(lockOf, s, a);
      forall i | 0 <= i < |s'.log| ensures In(s', s'.log[i].txn, OutcomeOf(s'.log[i])) {
        assert In(s, s.log[i].txn, OutcomeOf(s.log[i]));
      }
    } else {
      assert s'.txns == s.txns;
      forall i | 0 <= i < |s'.log| ensures In(s', s'.log[i].txn, OutcomeOf(s'.log[i])) {
        assert In(s, s.log[i].txn, OutcomeOf(s.log[i]));
      }
    }
  }

  /** A transaction that has ended never moves again, and only storing and saving succeed. */
  lemma QuietStepSucceedsAtNothing(lockOf: ChannelGateKey -> LockId, s: System, a: Action)
    requires Enabled(lockOf, s, a) && !a.Save? && !a.Store? && !a.Route?
    ensures a.txn in s.txns ==> !s.txns[a.txn].phase.Ended?
    ensures var s' := Apply(lockOf, s, a);
      && a.txn in s'.txns && s'.txns[a.txn].phase != Ended(Stored) && s'.txns[a.txn].phase != Ended(Saved)
      && s.txns.Keys <= s'.txns.Keys
      && (forall u | u in s'.txns && u != a.txn :: u in s.txns && s'.txns[u] == s.txns[u])
  {
  }

  lemma {:induction false} RunIsValid(
    lockOf: ChannelGateKey -> LockId, init: map<ChannelGateKey, ChannelRow>, actions: seq<Action>)
    ensures Valid(lockOf, init, Run(lockOf, Start(init), actions))
    decreases |actions|
  {
    if actions == [] {
    } else {
      var front := actions[..|actions| - 1];
      RunIsValid(lockOf, init, front);
      var s := Run(lockOf, Start(init), front);
      StepKeepsLocks(lockOf, s, actions[|actions| - 1]);
      StepKeepsData(lockOf, s, actions[|actions| - 1]);
      StepKeepsLog(lockOf, init, s, actions[|actions| - 1]);
    }
  }

  // ---------------------------------------------------------------------------------------------
  // What the gate is for

  /**
   In every interleaving of any number of routings, commits and edits, the channels stand as a
   serial replay of the committed edits leaves them, and every stored message was routed, on all of
   its channels, under exactly the settings that replay had reached when it was stored.
   */
  lemma StoredUnderTheSettingsItWasRoutedUnder(
    lockOf: ChannelGateKey -> LockId, init: map<ChannelGateKey, ChannelRow>, actions: seq<Action>, i: nat)
    requires var s := Run(lockOf, Start(init), actions); i < |s.log| && s.log[i].MessageStored?
    ensures var s := Run(lockOf, Start(init), actions);
      && s.channels == Replay(init, s.log)
      && RoutedUnder(Replay(init, s.log[..i]), s.log[i].intents)
  {
    RunIsValid(lockOf, init, actions);
  }

  lemma {:induction false} RunsCompose(lockOf: ChannelGateKey -> LockId, s: System, first: seq<Action>, more: seq<Action>)
    ensures Run(lockOf, s, first + more) == Run(lockOf, Run(lockOf, s, first), more)
    decreases |more|
  {
    if more == [] {
      assert first + more == first;
    } else {
      RunsCompose(lockOf, s, first, more[..|more| - 1]);
      assert (first + more)[..|first + more| - 1] == first + more[..|more| - 1];
    }
  }

  lemma OthersStand(lockOf: ChannelGateKey -> LockId, s: System, t: TxnId, a: Action)
    requires t in s.txns && (a.Route? || a.txn != t)
    ensures t in Step(lockOf, s, a).txns && Step(lockOf, s, a).txns[t] == s.txns[t]
  {
  }

  lemma StepKeepsJobs(lockOf: ChannelGateKey -> LockId, s: System, t: TxnId, a: Action)
    requires t in s.txns
    ensures var s' := Step(lockOf, s, a);
      && t in s'.txns && s'.txns[t].job == s.txns[t].job
      && (s.txns[t].phase.Ended? ==> s'.txns[t] == s.txns[t])
  {
    if a.Route? || a.txn != t {
      OthersStand(lockOf, s, t, a);
    }
  }

  lemma {:induction false} EndedIsFinal(lockOf: ChannelGateKey -> LockId, s: System, t: TxnId, more: seq<Action>)
    requires t in s.txns && s.txns[t].phase.Ended?
    ensures t in Run(lockOf, s, more).txns && Run(lockOf, s, more).txns[t] == s.txns[t]
    decreases |more|
  {
    if more != [] {
      EndedIsFinal(lockOf, s, t, more[..|more| - 1]);
      StepKeepsJobs(lockOf, Run(lockOf, s, more[..|more| - 1]), t, more[|more| - 1]);
    }
  }

  /**
   A message refused as superseded, and an edit that failed, timed out or was rolled back, has
   changed no channel, no revision and no stored message, and never will: nothing in the log, of
   which the channels are the replay, is its doing.
   */
  lemma FailureLeavesNothing(
    lockOf: ChannelGateKey -> LockId, init: map<ChannelGateKey, ChannelRow>,
    actions: seq<Action>, t: TxnId, more: seq<Action>)
    requires var s := Run(lockOf, Start(init), actions);
      t in s.txns && s.txns[t].phase.Ended? && s.txns[t].phase.outcome !in {Stored, Saved}
    ensures var s := Run(lockOf, Start(init), actions + more);
      && s.channels == Replay(init, s.log)
      && forall i | 0 <= i < |s.log| :: s.log[i].txn != t
  {
    var early := Run(lockOf, Start(init), actions);
    EndedIsFinal(lockOf, early, t, more);
    RunsCompose(lockOf, Start(init), actions, more);
    RunIsValid(lockOf, init, actions + more);
    var s := Run(lockOf, Start(init), actions + more);
    forall i | 0 <= i < |s.log| ensures s.log[i].txn != t {
      assert In(s, s.log[i].txn, OutcomeOf(s.log[i]));
    }
  }

  /**
   Once it holds its gates, a commit passes exactly when every one of its channels still has the
   settings it was routed under; stale on any one of them, it is refused whole.
   */
  lemma StaleOnOneChannelIsRefusedWhole(
    lockOf: ChannelGateKey -> LockId, init: map<ChannelGateKey, ChannelRow>, actions: seq<Action>, t: TxnId)
    requires Enabled(lockOf, Run(lockOf, Start(init), actions), Verify(t))
    ensures var s := Run(lockOf, Start(init), actions);
      var s' := Step(lockOf, s, Verify(t));
      && s'.txns[t].phase == (if RoutedUnder(s.channels, s.txns[t].job.intents) then Checked else Ended(Superseded))
      && s'.channels == s.channels && s'.log == s.log
  {
    RunIsValid(lockOf, init, actions);
    var s := Run(lockOf, Start(init), actions);
    assert Honest(s.channels, s.txns[t]);
    VerifiedIsRouted(s.channels, s.txns[t].job.intents);
  }

  /** And until it has stored its message no edit lands on any of those channels. */
  lemma EditsWaitForTheCommit(
    lockOf: ChannelGateKey -> LockId, init: map<ChannelGateKey, ChannelRow>,
    actions: seq<Action>, t: TxnId, more: seq<Action>)
    requires In(Run(lockOf, Start(init), actions), t, Checked)
    requires In(Run(lockOf, Start(init), actions + more), t, Checked)
    ensures Run(lockOf, Start(init), actions).txns[t].job.Admit?
    ensures var s, s' := Run(lockOf, Start(init), actions), Run(lockOf, Start(init), actions + more);
      forall i | 0 <= i < |s.txns[t].job.intents| ::
        var k := s.txns[t].job.intents[i].key;
        k in s.channels && k in s'.channels && s'.channels[k] == s.channels[k]
  {
    RunIsValid(lockOf, init, actions);
    RunIsValid(lockOf, init, actions + more);
    RunsCompose(lockOf, Start(init), actions, more);
    JobsAreFixed(lockOf, Run(lockOf, Start(init), actions), t, more);
    assert TxnValid(Run(lockOf, Start(init), actions).txns[t]);
  }

  lemma {:induction false} JobsAreFixed(lockOf: ChannelGateKey -> LockId, s: System, t: TxnId, more: seq<Action>)
    requires t in s.txns
    ensures t in Run(lockOf, s, more).txns && Run(lockOf, s, more).txns[t].job == s.txns[t].job
    decreases |more|
  {
    if more != [] {
      JobsAreFixed(lockOf, s, t, more[..|more| - 1]);
      StepKeepsJobs(lockOf, Run(lockOf, s, more[..|more| - 1]), t, more[|more| - 1]);
    }
  }
}
