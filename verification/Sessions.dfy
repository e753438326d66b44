/**
 Browser sessions: signed claims backed by a revocable, revision-fenced row.

 Signing is trusted: a token presented is a set of claims that was issued. Time is in seconds.
 */
module Sessions {
  import opened Rows

  const EXPIRED_BATCH := 100
  const REVOKED_BATCH := 100
  const BACKLOG_LIMIT := 1001

  type UserId = nat
  type SessionId = nat

  const NIL_USER: UserId := 0

  datatype Record = Record(id: SessionId, user: UserId, revision: int, issuedAt: int, expiresAt: int)

  datatype Row = Row(record: Record, revokedAt: Option<int>)

  datatype Store = Store(accounts: map<UserId, int>, rows: map<SessionId, Row>)

  // ---------------------------------------------------------------------------------------------
  // The durable store

  predicate MayCreate(s: Store, r: Record) {
    r.user in s.accounts && s.accounts[r.user] == r.revision && r.id !in s.rows && r.issuedAt < r.expiresAt
  }

  function Created(s: Store, r: Record): Store {
    if MayCreate(s, r) then s.(rows := s.rows[r.id := Row(r, None)]) else s
  }

  predicate Live(s: Store, r: Record, now: int) {
    && r.id in s.rows && s.rows[r.id].record == r
    && r.user in s.accounts && s.accounts[r.user] == r.revision
    && s.rows[r.id].revokedAt == None && r.expiresAt > now
  }

  function RevokedRow(row: Row, at: int): Row {
    if row.revokedAt == None then row.(revokedAt := Some(at)) else row
  }

  function Revoked(s: Store, user: UserId, id: SessionId, at: int): Store {
    if id in s.rows && s.rows[id].record.user == user then s.(rows := s.rows[id := RevokedRow(s.rows[id], at)]) else s
  }

  /** A new password or address: the revision advances and the account's sessions are revoked with it. */
  function Secured(s: Store, user: UserId, at: int): Store {
    if user in s.accounts
    then Store(
      s.accounts[user := s.accounts[user] + 1],
      map id | id in s.rows :: if s.rows[id].record.user == user then RevokedRow(s.rows[id], at) else s.rows[id])
    else s
  }

  ghost function ExpiredIds(s: Store, now: int): set<SessionId> {
    set id | id in s.rows && s.rows[id].record.expiresAt <= now
  }

  ghost function RevokedIds(s: Store): set<SessionId> {
    set id | id in s.rows && s.rows[id].revokedAt.Some?
  }

  ghost function DeadIds(s: Store, now: int): set<SessionId> {
    ExpiredIds(s, now) + RevokedIds(s)
  }

  // ---------------------------------------------------------------------------------------------
  // Tokens

  /** The claims' own checks, by the server's clock. */
  predicate Decodes(r: Record, now: int, lifetime: int) {
    && r.user != NIL_USER && r.revision >= 0
    && r.issuedAt <= now < r.expiresAt
    && 0 < r.expiresAt - r.issuedAt <= lifetime
  }

  predicate Verifies(s: Store, r: Record, now: int, lifetime: int) {
    Decodes(r, now, lifetime) && Live(s, r, now)
  }

  /** The claims a cookie is issued with. */
  function Claims(id: SessionId, user: UserId, revision: int, now: int, lifetime: int): Record {
    Record(id, user, revision, now, now + lifetime)
  }

  // ---------------------------------------------------------------------------------------------
  // Runs

  datatype Op =
    | Register(user: UserId)
    | Issue(id: SessionId, user: UserId, revision: int, at: int)
    | Revoke(user: UserId, id: SessionId, at: int)
    | Secure(user: UserId, at: int)
    | Cleanup(at: int, gone: set<SessionId>)

  function Step(s: Store, op: Op, lifetime: int): Store {
    match op
    case Register(user) => if user in s.accounts || user == NIL_USER then s else s.(accounts := s.accounts[user := 0])
    case Issue(id, user, revision, at) => Created(s, Claims(id, user, revision, at, lifetime))
    case Revoke(user, id, at) => Revoked(s, user, id, at)
    case Secure(user, at) => Secured(s, user, at)
    case Cleanup(at, gone) => s.(rows := s.rows - gone)
  }

  function Run(ops: seq<Op>, lifetime: int): Store
    decreases |ops|
  {
    if ops == [] then Store(map[], map[]) else Step(Run(ops[..|ops| - 1], lifetime), ops[|ops| - 1], lifetime)
  }

  /**
   What a cleanup may delete: up to a hundred expired rows and up to a hundred revoked ones. It may
   pass over rows that someone else has locked.
   */
  ghost predicate MayDelete(s: Store, now: int, gone: set<SessionId>) {
    exists e, v :: gone == e + v && SomeOf(e, ExpiredIds(s, now), EXPIRED_BATCH) && SomeOf(v, RevokedIds(s), REVOKED_BATCH)
  }

  ghost predicate SomeOf(part: set<SessionId>, whole: set<SessionId>, n: nat) {
    part <= whole && |part| <= n
  }

  ghost predicate Legal(ops: seq<Op>, lifetime: int)
    decreases |ops|
  {
    ops == [] ||
    var front, last := ops[..|ops| - 1], ops[|ops| - 1];
    Legal(front, lifetime) && (last.Cleanup? ==> MayDelete(Run(front, lifetime), last.at, last.gone))
  }

  /** No identifier is issued twice. */
  predicate FreshIds(ops: seq<Op>) {
    forall i, j | 0 <= i < j < |ops| && ops[i].Issue? && ops[j].Issue? :: ops[i].id != ops[j].id
  }

  /** Everything happened by `now`. */
  predicate By(ops: seq<Op>, now: int) {
    forall i | 0 <= i < |ops| && !ops[i].Register? :: ops[i].at <= now
  }

  // ---------------------------------------------------------------------------------------------
  // The reference: a memory store that forgets nothing and compares no revisions

  datatype MemoryRow = MemoryRow(record: Record, revoked: bool)

  predicate MemoryLive(rows: map<SessionId, MemoryRow>, r: Record, now: int) {
    r.id in rows && !rows[r.id].revoked && rows[r.id].record == r && r.expiresAt > now
  }

  predicate MemoryDead(row: MemoryRow, now: int) {
    row.revoked || row.record.expiresAt <= now
  }

  datatype Memory = Memory(accounts: map<UserId, int>, rows: map<SessionId, MemoryRow>)

  function MemoryStep(m: Memory, op: Op, lifetime: int): Memory {
    match op
    case Register(user) => if user in m.accounts || user == NIL_USER then m else m.(accounts := m.accounts[user := 0])
    case Issue(id, user, revision, at) =>
      if user in m.accounts && m.accounts[user] == revision && lifetime > 0
      then m.(rows := m.rows[id := MemoryRow(Claims(id, user, revision, at, lifetime), false)]) else m
    case Revoke(user, id, at) =>
      if id in m.rows && m.rows[id].record.user == user then m.(rows := m.rows[id := m.rows[id].(revoked := true)]) else m
    case Secure(user, at) =>
      if user !in m.accounts then m
      else Memory(
        m.accounts[user := m.accounts[user] + 1],
        map id | id in m.rows :: if m.rows[id].record.user == user then m.rows[id].(revoked := true) else m.rows[id])
    case Cleanup(at, gone) => m
  }

  function Reference(ops: seq<Op>, lifetime: int): Memory
    decreases |ops|
  {
    if ops == [] then Memory(map[], map[]) else MemoryStep(Reference(ops[..|ops| - 1], lifetime), ops[|ops| - 1], lifetime)
  }

  /** The durable rows are the reference's, and what is missing is dead. */
  ghost predicate Forgets(s: Store, m: Memory, now: int) {
    && s.accounts == m.accounts
    && (forall id | id in s.rows :: id in m.rows && m.rows[id] == MemoryRow(s.rows[id].record, s.rows[id].revokedAt.Some?))
    && (forall id | id in m.rows && id !in s.rows :: MemoryDead(m.rows[id], now))
  }

  /** The two fences agree: a row that is not revoked is at its account's revision. */
  ghost predicate Fenced(m: Memory, now: int, lifetime: int) {
    && (forall user | user in m.accounts :: user != NIL_USER && m.accounts[user] >= 0)
    && forall id | id in m.rows :: FencedRow(m, id, now, lifetime)
  }

  ghost predicate FencedRow(m: Memory, id: SessionId, now: int, lifetime: int)
    requires id in m.rows
  {
    var row := m.rows[id];
    && row.record.id == id && row.record.user in m.accounts
    && 0 <= row.record.revision <= m.accounts[row.record.user]
    && (!row.revoked ==> row.record.revision == m.accounts[row.record.user])
    && row.record.issuedAt <= now && row.record.expiresAt == row.record.issuedAt + lifetime && lifetime > 0
  }

  ghost predicate OnlyIssued(m: Memory, ops: seq<Op>) {
    forall id | id in m.rows :: exists i :: 0 <= i < |ops| && ops[i].Issue? && ops[i].id == id
  }

  lemma IssuedLonger(m: Memory, ops: seq<Op>, op: Op, lifetime: int)
    requires OnlyIssued(m, ops)
    ensures OnlyIssued(MemoryStep(m, op, lifetime), ops + [op])
  {
    var longer, m' := ops + [op], MemoryStep(m, op, lifetime);
    forall id | id in m'.rows ensures exists i :: 0 <= i < |longer| && longer[i].Issue? && longer[i].id == id {
      if id in m.rows {
        var i :| 0 <= i < |ops| && ops[i].Issue? && ops[i].id == id;
        assert longer[i] == ops[i];
      } else {
        assert longer[|ops|] == op;
      }
    }
  }

  lemma StepForgets(s: Store, m: Memory, op: Op, now: int, lifetime: int)
    requires Forgets(s, m, now) && !op.Cleanup? && (op.Issue? ==> op.id !in m.rows)
    ensures Forgets(Step(s, op, lifetime), MemoryStep(m, op, lifetime), now)
  {
  }

  lemma CleanupForgets(s: Store, m: Memory, op: Op, now: int, lifetime: int)
    requires Forgets(s, m, now) && op.Cleanup? && op.at <= now && MayDelete(s, op.at, op.gone)
    ensures Forgets(Step(s, op, lifetime), m, now)
  {
    assert op.gone <= DeadIds(s, op.at);
    forall id | id in m.rows && id !in s.rows - op.gone ensures MemoryDead(m.rows[id], now) {
      if id in s.rows {
        assert id in DeadIds(s, op.at);
      }
    }
  }

  lemma StepKeepsFence(m: Memory, op: Op, now: int, lifetime: int)
    requires Fenced(m, now, lifetime) && (!op.Register? ==> op.at <= now)
    ensures Fenced(MemoryStep(m, op, lifetime), now, lifetime)
  {
    var m' := MemoryStep(m, op, lifetime);
    forall id | id in m'.rows ensures FencedRow(m', id, now, lifetime) {
      if id in m.rows {
        assert FencedRow(m, id, now, lifetime);
      }
    }
  }

  lemma {:induction false} RunFollowsReference(ops: seq<Op>, now: int, lifetime: int)
    requires Legal(ops, lifetime) && FreshIds(ops) && By(ops, now)
    ensures Forgets(Run(ops, lifetime), Reference(ops, lifetime), now)
    ensures Fenced(Reference(ops, lifetime), now, lifetime)
    ensures OnlyIssued(Reference(ops, lifetime), ops)
    decreases |ops|
  {
    if ops != [] {
      var front, op := ops[..|ops| - 1], ops[|ops| - 1];
      assert ops == front + [op];
      RunFollowsReference(front, now, lifetime);
      var s, m := Run(front, lifetime), Reference(front, lifetime);
      IssuedLonger(m, front, op, lifetime);
      StepKeepsFence(m, op, now, lifetime);
      if op.Cleanup? {
        CleanupForgets(s, m, op, now, lifetime);
      } else {
        StepForgets(s, m, op, now, lifetime);
      }
    }
  }

  /**
   Across issues, revocations, security changes and cleanups, a token verifies exactly when a memory
   store that is never cleaned and knows no revisions calls it live: the revision fence and the
   revocation of an account's sessions refuse the same tokens, and cleanup changes no answer.
   */
  lemma VerifiesExactlyWhileLive(ops: seq<Op>, r: Record, now: int, lifetime: int)
    requires Legal(ops, lifetime) && FreshIds(ops) && By(ops, now)
    ensures Verifies(Run(ops, lifetime), r, now, lifetime) <==> MemoryLive(Reference(ops, lifetime).rows, r, now)
  {
    RunFollowsReference(ops, now, lifetime);
    var m := Reference(ops, lifetime);
    if r.id in m.rows {
      assert FencedRow(m, r.id, now, lifetime);
    }
  }

  // ---------------------------------------------------------------------------------------------
  // From the history alone

  predicate Registered(ops: seq<Op>, user: UserId) {
    user != NIL_USER && Register(user) in ops
  }

  /** How many security changes the account has made. */
  function Changes(ops: seq<Op>, user: UserId): nat
    decreases |ops|
  {
    if ops == [] then 0
    else
      var front, op := ops[..|ops| - 1], ops[|ops| - 1];
      Changes(front, user) + if op.Secure? && op.user == user && Registered(front, user) then 1 else 0
  }

  /** `ops[i]` issues the record, to an account at the revision it names. */
  predicate Issues(ops: seq<Op>, i: nat, r: Record, lifetime: int)
    requires i < |ops|
  {
    && ops[i] == Issue(r.id, r.user, r.revision, r.issuedAt) && r.expiresAt == r.issuedAt + lifetime && lifetime > 0
    && Registered(ops[..i], r.user) && r.revision == Changes(ops[..i], r.user)
  }

  predicate Ends(op: Op, r: Record) {
    (op.Secure? && op.user == r.user) || (op.Revoke? && op.user == r.user && op.id == r.id)
  }

  /** It is issued at `i` and nothing ends it afterwards. */
  predicate StandsFrom(ops: seq<Op>, i: nat, r: Record, lifetime: int) {
    i < |ops| && Issues(ops, i, r, lifetime) && forall j | i < j < |ops| :: !Ends(ops[j], r)
  }

  ghost predicate Stands(ops: seq<Op>, r: Record, lifetime: int) {
    exists i: nat :: StandsFrom(ops, i, r, lifetime)
  }

  /** What the reference knows of accounts and of one record. */
  ghost predicate IsTheHistory(m: Memory, ops: seq<Op>, user: UserId) {
    && (user in m.accounts <==> Registered(ops, user))
    && (user in m.accounts ==> m.accounts[user] == Changes(ops, user))
  }

  ghost predicate Unrevoked(m: Memory, r: Record) {
    r.id in m.rows && m.rows[r.id] == MemoryRow(r, false)
  }

  lemma {:induction false} NoChangesBeforeRegistering(ops: seq<Op>, user: UserId)
    requires !Registered(ops, user)
    ensures Changes(ops, user) == 0
    decreases |ops|
  {
    if ops != [] {
      NoChangesBeforeRegistering(ops[..|ops| - 1], user);
    }
  }

  lemma {:induction false} AccountsAreTheHistory(ops: seq<Op>, user: UserId, lifetime: int)
    ensures IsTheHistory(Reference(ops, lifetime), ops, user)
    decreases |ops|
  {
    if ops != [] {
      var front, op := ops[..|ops| - 1], ops[|ops| - 1];
      assert ops == front + [op];
      AccountsAreTheHistory(front, user, lifetime);
      if !Registered(front, user) {
        NoChangesBeforeRegistering(front, user);
      }
    } else {
      assert !Registered(ops, user) && Reference(ops, lifetime).accounts == map[];
    }
  }

  lemma OneMoreStands(ops: seq<Op>, op: Op, r: Record, lifetime: int)
    ensures Stands(ops + [op], r, lifetime) <==>
      Issues(ops + [op], |ops|, r, lifetime) || (Stands(ops, r, lifetime) && !Ends(op, r))
  {
    var longer := ops + [op];
    assert forall i | 0 <= i < |ops| :: longer[i] == ops[i] && longer[..i] == ops[..i];
    assert longer[|ops|] == op;
    if Stands(longer, r, lifetime) {
      var i: nat :| StandsFrom(longer, i, r, lifetime);
      assert i < |ops| ==> StandsFrom(ops, i, r, lifetime);
    }
    if Issues(longer, |ops|, r, lifetime) {
      assert StandsFrom(longer, |ops|, r, lifetime);
    }
    if Stands(ops, r, lifetime) && !Ends(op, r) {
      var i: nat :| StandsFrom(ops, i, r, lifetime);
      assert StandsFrom(longer, i, r, lifetime);
    }
  }

  lemma HistoryStep(m: Memory, ops: seq<Op>, op: Op, r: Record, lifetime: int)
    requires IsTheHistory(m, ops, r.user) && (Unrevoked(m, r) <==> Stands(ops, r, lifetime))
    requires forall id | id in m.rows :: m.rows[id].record.user in m.accounts
    requires op.Issue? ==> op.id !in m.rows
    ensures Unrevoked(MemoryStep(m, op, lifetime), r) <==> Stands(ops + [op], r, lifetime)
  {
    OneMoreStands(ops, op, r, lifetime);
    assert (ops + [op])[..|ops|] == ops;
  }

  lemma {:induction false} RowsAreTheHistory(ops: seq<Op>, r: Record, now: int, lifetime: int)
    requires Legal(ops, lifetime) && FreshIds(ops) && By(ops, now)
    ensures Unrevoked(Reference(ops, lifetime), r) <==> Stands(ops, r, lifetime)
    decreases |ops|
  {
    if ops != [] {
      var front, op := ops[..|ops| - 1], ops[|ops| - 1];
      assert ops == front + [op];
      RowsAreTheHistory(front, r, now, lifetime);
      RunFollowsReference(front, now, lifetime);
      AccountsAreTheHistory(front, r.user, lifetime);
      var m := Reference(front, lifetime);
      assert forall id | id in m.rows :: FencedRow(m, id, now, lifetime);
      HistoryStep(m, front, op, r, lifetime);
    } else {
      assert !Stands(ops, r, lifetime);
    }
  }

  /**
   A token verifies exactly when its claims were issued, for the lifetime in force, to a registered
   account at the number of security changes it had made, and since then the account has made no other
   and has not signed that session out, and its time is not up.
   */
  lemma VerifiesExactlyWhenTheHistorySays(ops: seq<Op>, r: Record, now: int, lifetime: int)
    requires Legal(ops, lifetime) && FreshIds(ops) && By(ops, now)
    ensures Verifies(Run(ops, lifetime), r, now, lifetime) <==> Stands(ops, r, lifetime) && now < r.expiresAt
  {
    VerifiesExactlyWhileLive(ops, r, now, lifetime);
    RowsAreTheHistory(ops, r, now, lifetime);
  }

  /** A row that no cleanup took stands as it was, dated by the first step that ended it. */
  lemma RevocationIsDatedOnce(ops: seq<Op>, op: Op, id: SessionId, now: int, lifetime: int)
    requires Legal(ops, lifetime) && FreshIds(ops) && By(ops, now) && id in Run(ops, lifetime).rows
    ensures var row, s' := Run(ops, lifetime).rows[id], Run(ops + [op], lifetime);
      if op.Cleanup? && id in op.gone then id !in s'.rows
      else id in s'.rows && s'.rows[id] == if row.revokedAt == None && Ends(op, row.record) then Row(row.record, Some(op.at)) else row
  {
    assert (ops + [op])[..|ops|] == ops;
    RunFollowsReference(ops, now, lifetime);
    assert FencedRow(Reference(ops, lifetime), id, now, lifetime);
  }

  // ---------------------------------------------------------------------------------------------
  // Once dead

  lemma {:induction false} DeadStaysDead(m: Memory, id: SessionId, op: Op, lifetime: int)
    requires id in m.rows && (op.Issue? ==> op.id != id)
    ensures var m' := MemoryStep(m, op, lifetime);
      id in m'.rows && m'.rows[id].record == m.rows[id].record && (m.rows[id].revoked ==> m'.rows[id].revoked)
  {
  }

  lemma {:induction false} DeadThroughRun(ops: seq<Op>, more: seq<Op>, id: SessionId, lifetime: int)
    requires FreshIds(ops + more) && id in Reference(ops, lifetime).rows && OnlyIssued(Reference(ops, lifetime), ops)
    ensures var m, m' := Reference(ops, lifetime), Reference(ops + more, lifetime);
      id in m'.rows && m'.rows[id].record == m.rows[id].record && (m.rows[id].revoked ==> m'.rows[id].revoked)
    decreases |more|
  {
    if more == [] {
      assert ops + more == ops;
    } else {
      var front, op := more[..|more| - 1], more[|more| - 1];
      var all := ops + more;
      assert all[..|all| - 1] == ops + front && all[|all| - 1] == op;
      assert FreshIds(ops + front) by {
        assert forall i | 0 <= i < |ops + front| :: (ops + front)[i] == all[i];
      }
      DeadThroughRun(ops, front, id, lifetime);
      var i :| 0 <= i < |ops| && ops[i].Issue? && ops[i].id == id;
      assert all[i] == ops[i];
      DeadStaysDead(Reference(ops + front, lifetime), id, op, lifetime);
    }
  }

  /** Once a token whose identifier has been issued does not verify, it never verifies again. */
  lemma OnceDeadNeverVerifies(ops: seq<Op>, more: seq<Op>, r: Record, now: int, later: int, lifetime: int)
    requires Legal(ops, lifetime) && Legal(ops + more, lifetime) && FreshIds(ops + more)
    requires By(ops, now) && By(ops + more, later) && now <= later
    requires r.id in Reference(ops, lifetime).rows && !Verifies(Run(ops, lifetime), r, now, lifetime)
    ensures !Verifies(Run(ops + more, lifetime), r, later, lifetime)
  {
    assert FreshIds(ops) by {
      assert forall i | 0 <= i < |ops| :: (ops + more)[i] == ops[i];
    }
    RunFollowsReference(ops, now, lifetime);
    VerifiesExactlyWhileLive(ops, r, now, lifetime);
    VerifiesExactlyWhileLive(ops + more, r, later, lifetime);
    DeadThroughRun(ops, more, r.id, lifetime);
  }

  lemma SecuredIsDead(ops: seq<Op>, user: UserId, at: int, r: Record, lifetime: int)
    requires Legal(ops, lifetime) && FreshIds(ops) && By(ops, at) && user in Run(ops, lifetime).accounts && r.user == user
    ensures var all := ops + [Secure(user, at)];
      Legal(all, lifetime) && FreshIds(all) && By(all, at) && !Verifies(Run(all, lifetime), r, at, lifetime)
    ensures r.id in Reference(ops, lifetime).rows ==> r.id in Reference(ops + [Secure(user, at)], lifetime).rows
  {
    var all := ops + [Secure(user, at)];
    assert all[..|all| - 1] == ops;
    VerifiesExactlyWhileLive(all, r, at, lifetime);
    RunFollowsReference(ops, at, lifetime);
  }

  /** A security change ends, for good, every session the account had by then. */
  lemma SecurityChangeEndsSessions(ops: seq<Op>, user: UserId, at: int, more: seq<Op>, r: Record, later: int, lifetime: int)
    requires Legal(ops, lifetime) && By(ops, at) && user in Run(ops, lifetime).accounts
    requires r.user == user && r.id in Reference(ops, lifetime).rows
    requires var all := ops + [Secure(user, at)] + more; Legal(all, lifetime) && FreshIds(all) && By(all, later) && at <= later
    ensures !Verifies(Run(ops + [Secure(user, at)] + more, lifetime), r, later, lifetime)
  {
    var secured := ops + [Secure(user, at)];
    assert FreshIds(ops) by {
      assert forall i | 0 <= i < |ops| :: (secured + more)[i] == ops[i];
    }
    SecuredIsDead(ops, user, at, r, lifetime);
    OnceDeadNeverVerifies(secured, more, r, at, later, lifetime);
  }

  // ---------------------------------------------------------------------------------------------
  // Cleanup

  ghost predicate Fills(part: set<SessionId>, whole: set<SessionId>, n: nat) {
    SomeOf(part, whole, n) && (|part| < n ==> part == whole)
  }

  /** The first `n` of a set of identifiers by a key and then by identifier, or all of them. */
  ghost predicate FirstOf(part: set<SessionId>, whole: set<SessionId>, key: map<SessionId, int>, n: nat) {
    && Fills(part, whole, n)
    && (forall a, b | a in part && b in whole - part && a in key && b in key :: key[a] < key[b] || (key[a] == key[b] && a < b))
  }

  ghost function Expiries(s: Store): map<SessionId, int> {
    map id | id in s.rows :: s.rows[id].record.expiresAt
  }

  ghost function Revocations(s: Store): map<SessionId, int> {
    map id | id in s.rows && s.rows[id].revokedAt.Some? :: s.rows[id].revokedAt.value
  }

  /** A cleanup that finds no row locked takes the earliest. */
  ghost predicate Deletes(s: Store, now: int, gone: set<SessionId>) {
    exists e, v :: gone == e + v
      && FirstOf(e, ExpiredIds(s, now), Expiries(s), EXPIRED_BATCH)
      && FirstOf(v, RevokedIds(s), Revocations(s), REVOKED_BATCH)
  }

  ghost function Least(a: nat, b: nat): nat { if a < b then a else b }

  lemma SubsetIsSmaller(a: set<SessionId>, b: set<SessionId>)
    requires a <= b
    ensures |a| <= |b| && |b - a| == |b| - |a|
  {
    assert b == a + (b - a);
  }

  lemma TwoBatches(e: set<SessionId>, expired: set<SessionId>, v: set<SessionId>, revoked: set<SessionId>, n: nat)
    requires Fills(e, expired, n) && Fills(v, revoked, n)
    ensures e + v <= expired + revoked
    ensures Least(n, |expired + revoked|) <= |e + v| <= 2 * n
  {
    SubsetIsSmaller(e, e + v);
    SubsetIsSmaller(v, e + v);
    assert e + v == e + (v - e);
    SubsetIsSmaller(v - e, v);
  }

  /** A cleanup removes only dead rows, at most 200 of them, and at least 100 while there are as many. */
  lemma CleanupIsBounded(s: Store, now: int, gone: set<SessionId>)
    requires Deletes(s, now, gone)
    ensures MayDelete(s, now, gone)
    ensures gone <= DeadIds(s, now) && Least(100, |DeadIds(s, now)|) <= |gone| <= 200
  {
    var e, v :| gone == e + v
      && FirstOf(e, ExpiredIds(s, now), Expiries(s), EXPIRED_BATCH)
      && FirstOf(v, RevokedIds(s), Revocations(s), REVOKED_BATCH);
    TwoBatches(e, ExpiredIds(s, now), v, RevokedIds(s), 100);
  }

  /** Cleanups one after another at the same instant, each deleting what it finds. */
  ghost predicate Drains(s: Store, now: int, batches: seq<set<SessionId>>)
    decreases |batches|
  {
    batches == [] || (Deletes(s, now, batches[0]) && Drains(s.(rows := s.rows - batches[0]), now, batches[1..]))
  }

  function AfterAll(s: Store, batches: seq<set<SessionId>>): Store
    decreases |batches|
  {
    if batches == [] then s else AfterAll(s.(rows := s.rows - batches[0]), batches[1..])
  }

  lemma DeadWithout(s: Store, now: int, gone: set<SessionId>)
    ensures DeadIds(s.(rows := s.rows - gone), now) == DeadIds(s, now) - gone
  {
  }

  lemma OneBatchDrains(s: Store, now: int, gone: set<SessionId>)
    requires Deletes(s, now, gone)
    ensures var s' := s.(rows := s.rows - gone);
      |DeadIds(s', now)| <= if |DeadIds(s, now)| <= 100 then 0 else |DeadIds(s, now)| - 100
  {
    CleanupIsBounded(s, now, gone);
    DeadWithout(s, now, gone);
    SubsetIsSmaller(gone, DeadIds(s, now));
  }

  lemma OneBatchKeepsTheLiving(s: Store, now: int, gone: set<SessionId>, r: Record)
    requires Deletes(s, now, gone)
    ensures Live(s.(rows := s.rows - gone), r, now) <==> Live(s, r, now)
  {
    CleanupIsBounded(s, now, gone);
    assert r.id in gone ==> r.id in DeadIds(s, now);
  }

  /** Repeating the cleanup drains the backlog, a hundred rows or more at a time, and keeps every live row. */
  lemma {:induction false} RepeatingDrains(s: Store, now: int, batches: seq<set<SessionId>>)
    requires Drains(s, now, batches)
    ensures |DeadIds(AfterAll(s, batches), now)| <= if |DeadIds(s, now)| <= 100 * |batches| then 0 else |DeadIds(s, now)| - 100 * |batches|
    ensures forall r :: Live(AfterAll(s, batches), r, now) <==> Live(s, r, now)
    decreases |batches|
  {
    if batches != [] {
      OneBatchDrains(s, now, batches[0]);
      forall r ensures Live(s.(rows := s.rows - batches[0]), r, now) <==> Live(s, r, now) {
        OneBatchKeepsTheLiving(s, now, batches[0], r);
      }
      RepeatingDrains(s.(rows := s.rows - batches[0]), now, batches[1..]);
    }
  }

  /**
   The backlog is read from two bounded scans, at most 1001 rows each, and is still the number of dead
   rows up to 1001.
   */
  lemma BacklogIsExactUpToItsBound(s: Store, now: int, e: set<SessionId>, v: set<SessionId>)
    requires FirstOf(e, ExpiredIds(s, now), Expiries(s), BACKLOG_LIMIT) && FirstOf(v, RevokedIds(s), Revocations(s), BACKLOG_LIMIT)
    ensures Least(BACKLOG_LIMIT, |e + v|) == Least(BACKLOG_LIMIT, |DeadIds(s, now)|)
  {
    TwoBatches(e, ExpiredIds(s, now), v, RevokedIds(s), BACKLOG_LIMIT);
    SubsetIsSmaller(e + v, DeadIds(s, now));
  }

  // ---------------------------------------------------------------------------------------------
  // The memory store

  ghost function MemoryDeadIds(rows: map<SessionId, MemoryRow>, now: int): set<SessionId> {
    set id | id in rows && MemoryDead(rows[id], now)
  }

  class MemorySessions {
    var rows: map<SessionId, MemoryRow>

    constructor ()
      ensures rows == map[]
    {
      rows := map[];
    }

    method CreateSession(r: Record)
      modifies this
      ensures rows == old(rows)[r.id := MemoryRow(r, false)]
    {
      rows := rows[r.id := MemoryRow(r, false)];
    }

    method SessionIsLive(r: Record, now: int) returns (live: bool)
      ensures live == MemoryLive(rows, r, now)
    {
      live := false;
      if r.id in rows {
        var row := rows[r.id];
        live := !row.revoked && row.record == r && row.record.expiresAt > now;
      }
    }

    method RevokeSession(user: UserId, id: SessionId)
      modifies this
      ensures rows.Keys == old(rows).Keys
      ensures forall i | i in rows ::
        rows[i] == old(rows)[i].(revoked := old(rows)[i].revoked || (i == id && old(rows)[i].record.user == user))
    {
      if id in rows && rows[id].record.user == user {
        rows := rows[id := rows[id].(revoked := true)];
      }
    }

    /** Remove up to 200 dead rows and count those that are left, up to 1001. */
    method CleanupSessions(now: int) returns (removed: nat, backlog: nat)
      modifies this
      ensures forall id | id in rows :: id in old(rows) && rows[id] == old(rows)[id]
      ensures forall id | id in old(rows) && id !in rows :: MemoryDead(old(rows)[id], now)
      ensures removed == Least(200, |MemoryDeadIds(old(rows), now)|) == |old(rows)| - |rows|
      ensures backlog == Least(BACKLOG_LIMIT, |MemoryDeadIds(rows, now)|)
      ensures forall r :: MemoryLive(rows, r, now) <==> MemoryLive(old(rows), r, now)
    {
      var ids := SomeDead(now, 200);
      removed := |ids|;
      var left := ids;
      while left != {}
        invariant left <= ids <= old(rows).Keys
        invariant rows == map id | id in old(rows) && id !in ids - left :: old(rows)[id]
        decreases |left|
      {
        var id :| id in left;
        rows := rows - {id};
        left := left - {id};
      }
      assert rows.Keys == old(rows).Keys - ids;
      SubsetIsSmaller(ids, old(rows).Keys);
      var rest := SomeDead(now, BACKLOG_LIMIT);
      backlog := |rest|;
    }

    /** Dead rows in no particular order, as many as there are up to `n`. */
    method SomeDead(now: int, n: nat) returns (ids: set<SessionId>)
      ensures ids <= MemoryDeadIds(rows, now) && |ids| == Least(n, |MemoryDeadIds(rows, now)|)
    {
      ids := {};
      var unread := rows.Keys;
      while unread != {} && |ids| < n
        invariant unread <= rows.Keys && ids !! unread
        invariant ids <= MemoryDeadIds(rows, now) && |ids| <= n
        invariant forall id | id in MemoryDeadIds(rows, now) && id !in unread :: id in ids
        decreases |unread|
      {
        var id :| id in unread;
        unread := unread - {id};
        if MemoryDead(rows[id], now) {
          ids := ids + {id};
        }
      }
      SubsetIsSmaller(ids, MemoryDeadIds(rows, now));
      assert unread == {} ==> ids == MemoryDeadIds(rows, now);
    }
  }
}
