/**
 Durable authentication budgets shared by every instance: one counter row for each key.

 Each statement is one step. `span` is the length of a window: one hour for codes, two minutes for
 logins.
 */
module AuthAttempts {
  import opened FixedWindows

  const CODE_WINDOW := 3600
  const MAX_ATTEMPTS := 5
  const CLEANUP_BATCH := 64

  type Key = nat

  datatype Row = Row(attempts: nat, endsAt: int)

  type Table = map<Key, Row>

  /** Whether a reservation at `now` is granted. */
  predicate Grants(t: Table, k: Key, now: int) {
    k !in t || t[k].endsAt <= now || t[k].attempts < MAX_ATTEMPTS
  }

  function Bumped(t: Table, k: Key, now: int, span: int): Row {
    if k !in t || t[k].endsAt <= now then Row(1, now + span) else Row(t[k].attempts + 1, t[k].endsAt)
  }

  function Reserved(t: Table, k: Key, now: int, span: int): Table {
    if Grants(t, k, now) then t[k := Bumped(t, k, now, span)] else t
  }

  ghost function ExpiredKeys(t: Table, now: int): set<Key> {
    set k | k in t && t[k].endsAt <= now
  }

  /** `gone` is one of the batches a cleanup may delete: up to 64 expired rows, earliest first. */
  ghost predicate IsBatch(t: Table, now: int, gone: set<Key>) {
    && gone <= ExpiredKeys(t, now)
    && |gone| <= CLEANUP_BATCH
    && (|gone| < CLEANUP_BATCH ==> gone == ExpiredKeys(t, now))
    && (forall a, b | a in gone && b in ExpiredKeys(t, now) - gone :: t[a].endsAt <= t[b].endsAt)
  }

  // ---------------------------------------------------------------------------------------------
  // Runs of any number of instances

  datatype Op = Reserve(key: Key, at: int) | Clear(key: Key) | Cleanup(at: int, gone: set<Key>)

  /** What callers saw: each answer with the end of the key's window after it, and each clearing. */
  datatype Entry = Answered(key: Key, at: int, granted: bool, endsAt: int) | Cleared(key: Key)

  datatype Ledger = Ledger(table: Table, log: seq<Entry>)

  function Step(s: Ledger, op: Op, span: int): Ledger {
    match op
    case Reserve(k, at) =>
      var t := Reserved(s.table, k, at, span);
      Ledger(t, s.log + [Answered(k, at, Grants(s.table, k, at), t[k].endsAt)])
    case Clear(k) => Ledger(s.table - {k}, s.log + [Cleared(k)])
    case Cleanup(at, gone) => s.(table := s.table - gone)
  }

  function Run(ops: seq<Op>, span: int): Ledger
    decreases |ops|
  {
    if ops == [] then Ledger(map[], []) else Step(Run(ops[..|ops| - 1], span), ops[|ops| - 1], span)
  }

  /** Every cleanup deletes a batch it may delete. */
  ghost predicate Legal(ops: seq<Op>, span: int)
    decreases |ops|
  {
    ops == [] ||
    var front, last := ops[..|ops| - 1], ops[|ops| - 1];
    Legal(front, span) && (last.Cleanup? ==> IsBatch(Run(front, span).table, last.at, last.gone))
  }

  function WithoutCleanups(ops: seq<Op>): seq<Op>
    decreases |ops|
  {
    if ops == [] then []
    else if ops[|ops| - 1].Cleanup? then WithoutCleanups(ops[..|ops| - 1])
    else WithoutCleanups(ops[..|ops| - 1]) + [ops[|ops| - 1]]
  }

  /** No reservation reads a clock older than a cleanup made before it. */
  predicate NoneOvertaken(ops: seq<Op>) {
    forall i, j | 0 <= i < j < |ops| && ops[i].Cleanup? && ops[j].Reserve? :: ops[i].at <= ops[j].at
  }

  /** Time never runs backwards over the whole run. */
  predicate InOrder(ops: seq<Op>) {
    forall i, j | 0 <= i < j < |ops| && !ops[i].Clear? && !ops[j].Clear? :: ops[i].at <= ops[j].at
  }

  // ---------------------------------------------------------------------------------------------
  // Cleanup

  /** `r` is `s` with every row that cleanups deleted, each of which had ended by a cleanup that ran. */
  ghost predicate Forgets(s: Ledger, r: Ledger, ops: seq<Op>) {
    && s.log == r.log
    && (forall k | k in s.table :: k in r.table && r.table[k] == s.table[k])
    && (forall k | k in r.table && k !in s.table :: exists i :: 0 <= i < |ops| && ops[i].Cleanup? && r.table[k].endsAt <= ops[i].at)
  }

  lemma ForgetsLonger(s: Ledger, r: Ledger, ops: seq<Op>, op: Op)
    requires Forgets(s, r, ops)
    ensures Forgets(s, r, ops + [op])
  {
    forall k | k in r.table && k !in s.table
      ensures exists i :: 0 <= i < |ops + [op]| && (ops + [op])[i].Cleanup? && r.table[k].endsAt <= (ops + [op])[i].at
    {
      var i :| 0 <= i < |ops| && ops[i].Cleanup? && r.table[k].endsAt <= ops[i].at;
      assert (ops + [op])[i] == ops[i];
    }
  }

  lemma ReserveForgets(s: Ledger, r: Ledger, ops: seq<Op>, k: Key, at: int, span: int)
    requires Forgets(s, r, ops) && forall i | 0 <= i < |ops| && ops[i].Cleanup? :: ops[i].at <= at
    ensures Forgets(Step(s, Reserve(k, at), span), Step(r, Reserve(k, at), span), ops)
  {
    assert Grants(s.table, k, at) == Grants(r.table, k, at);
    if Grants(s.table, k, at) {
      assert Bumped(s.table, k, at, span) == Bumped(r.table, k, at, span);
    }
  }

  lemma CleanupForgets(s: Ledger, r: Ledger, ops: seq<Op>, op: Op, span: int)
    requires Forgets(s, r, ops) && op.Cleanup? && IsBatch(s.table, op.at, op.gone)
    ensures Forgets(Step(s, op, span), r, ops + [op])
  {
    ForgetsLonger(s, r, ops, op);
    var s' := Step(s, op, span);
    forall k | k in r.table && k !in s'.table
      ensures exists i :: 0 <= i < |ops + [op]| && (ops + [op])[i].Cleanup? && r.table[k].endsAt <= (ops + [op])[i].at
    {
      if k in s.table {
        assert (ops + [op])[|ops|] == op && k in ExpiredKeys(s.table, op.at);
      }
    }
  }

  lemma {:induction false} CleanedRunForgets(ops: seq<Op>, span: int)
    requires Legal(ops, span) && NoneOvertaken(ops)
    ensures Forgets(Run(ops, span), Run(WithoutCleanups(ops), span), ops)
    decreases |ops|
  {
    if ops != [] {
      var front, op := ops[..|ops| - 1], ops[|ops| - 1];
      assert ops == front + [op];
      CleanedRunForgets(front, span);
      var s, r := Run(front, span), Run(WithoutCleanups(front), span);
      if op.Cleanup? {
        CleanupForgets(s, r, front, op, span);
      } else {
        assert (WithoutCleanups(front) + [op])[..|WithoutCleanups(front)|] == WithoutCleanups(front);
        if op.Reserve? {
          ReserveForgets(s, r, front, op.key, op.at, span);
        }
        ForgetsLonger(Step(s, op, span), Step(r, op, span), front, op);
      }
    }
  }

  /**
   Under any interleaving, cleanup changes no answer: every caller hears what it would have heard had
   nothing ever been cleaned up.
   */
  lemma CleanupNeverChangesAnAnswer(ops: seq<Op>, span: int)
    requires Legal(ops, span) && NoneOvertaken(ops)
    ensures Run(ops, span).log == Run(WithoutCleanups(ops), span).log
  {
    CleanedRunForgets(ops, span);
  }

  // ---------------------------------------------------------------------------------------------
  // Reservations that a cleanup overtakes
  //
  // A statement reads the time its transaction began, so a reservation that began before a cleanup can
  // run after it.

  /** A continuation from any table; a cleanup in it deletes what it names. */
  function RunFrom(s: Ledger, ops: seq<Op>, span: int): Ledger
    decreases |ops|
  {
    if ops == [] then s else Step(RunFrom(s, ops[..|ops| - 1], span), ops[|ops| - 1], span)
  }

  /** The answers its callers hear, one for each reservation. */
  function Answers(log: seq<Entry>): seq<bool> {
    if log == [] then []
    else Answers(log[..|log| - 1]) + (if log[|log| - 1].Answered? then [log[|log| - 1].granted] else [])
  }

  function AnswersFrom(t: Table, ops: seq<Op>, span: int): seq<bool> {
    Answers(RunFrom(Ledger(t, []), ops, span).log)
  }

  /** No reservation reads a clock before `b`. */
  predicate ClocksFrom(ops: seq<Op>, b: int) {
    forall i | 0 <= i < |ops| && ops[i].Reserve? :: b <= ops[i].at
  }

  /** `s` is `r` without some rows that end by `b`. */
  ghost predicate Lacks(s: Ledger, r: Ledger, b: int) {
    && s.log == r.log
    && (forall k | k in s.table :: k in r.table && r.table[k] == s.table[k])
    && (forall k | k in r.table && k !in s.table :: r.table[k].endsAt <= b)
  }

  lemma StepLacks(s: Ledger, r: Ledger, op: Op, b: int, span: int)
    requires Lacks(s, r, b) && (op.Reserve? ==> b <= op.at)
    ensures Lacks(Step(s, op, span), Step(r, op, span), b)
  {
    if op.Reserve? {
      assert Grants(s.table, op.key, op.at) == Grants(r.table, op.key, op.at);
      assert Grants(s.table, op.key, op.at) ==> Bumped(s.table, op.key, op.at, span) == Bumped(r.table, op.key, op.at, span);
    }
  }

  lemma {:induction false} RunLacks(s: Ledger, r: Ledger, ops: seq<Op>, b: int, span: int)
    requires Lacks(s, r, b) && ClocksFrom(ops, b)
    ensures Lacks(RunFrom(s, ops, span), RunFrom(r, ops, span), b)
    decreases |ops|
  {
    if ops != [] {
      RunLacks(s, r, ops[..|ops| - 1], b, span);
      StepLacks(RunFrom(s, ops[..|ops| - 1], span), RunFrom(r, ops[..|ops| - 1], span), ops[|ops| - 1], b, span);
    }
  }

  /** The same key reserved over and over at one reading of the clock. */
  function Again(k: Key, b: int, n: nat): seq<Op> {
    if n == 0 then [] else Again(k, b, n - 1) + [Reserve(k, b)]
  }

  lemma {:induction false} AgainReads(k: Key, b: int, n: nat)
    ensures |Again(k, b, n)| == n && ClocksFrom(Again(k, b, n), b)
  {
    if n > 0 {
      AgainReads(k, b, n - 1);
    }
  }

  lemma OneMoreAnswer(s: Ledger, ops: seq<Op>, k: Key, b: int, span: int)
    ensures var before := RunFrom(s, ops, span);
      Answers(RunFrom(s, ops + [Reserve(k, b)], span).log) == Answers(before.log) + [Grants(before.table, k, b)]
    ensures RunFrom(s, ops + [Reserve(k, b)], span) == Step(RunFrom(s, ops, span), Reserve(k, b), span)
  {
    assert (ops + [Reserve(k, b)])[..|ops|] == ops;
    var before := RunFrom(s, ops, span);
    var after := Step(before, Reserve(k, b), span);
    assert after.log[..|after.log| - 1] == before.log;
  }

  lemma {:induction false} AgainAnswers(t: Table, k: Key, b: int, n: nat, span: int)
    ensures |AnswersFrom(t, Again(k, b, n), span)| == n
  {
    if n > 0 {
      AgainAnswers(t, k, b, n - 1, span);
      OneMoreAnswer(Ledger(t, []), Again(k, b, n - 1), k, b, span);
    }
  }

  /** A window that is still open at `b` runs out after what is left of its five attempts. */
  lemma {:induction false} OpenWindowRunsOut(t: Table, k: Key, b: int, n: nat, span: int)
    requires k in t && b < t[k].endsAt && t[k].attempts + n <= MAX_ATTEMPTS
    ensures var s := RunFrom(Ledger(t, []), Again(k, b, n), span);
      k in s.table && s.table[k] == Row(t[k].attempts + n, t[k].endsAt)
  {
    if n > 0 {
      OpenWindowRunsOut(t, k, b, n - 1, span);
      StepInWindow(RunFrom(Ledger(t, []), Again(k, b, n - 1), span), k, b, span);
      OneMoreAnswer(Ledger(t, []), Again(k, b, n - 1), k, b, span);
    }
  }

  lemma StepInWindow(s: Ledger, k: Key, b: int, span: int)
    requires k in s.table && b < s.table[k].endsAt && s.table[k].attempts < MAX_ATTEMPTS
    ensures var s' := Step(s, Reserve(k, b), span);
      k in s'.table && s'.table[k] == Row(s.table[k].attempts + 1, s.table[k].endsAt)
  {
  }

  /** Without its row a key is granted five times at `b`, whatever the length of a window. */
  lemma {:induction false} ForgottenWindowStartsOver(t: Table, k: Key, b: int, n: nat, span: int)
    requires k !in t && n <= MAX_ATTEMPTS
    ensures var s := RunFrom(Ledger(t, []), Again(k, b, n), span);
      && (n > 0 ==> k in s.table && s.table[k].attempts <= n)
      && |Answers(s.log)| == n && (n > 0 ==> Answers(s.log)[n - 1])
      && (n == 0 ==> s.table == t)
  {
    if n > 0 {
      ForgottenWindowStartsOver(t, k, b, n - 1, span);
      var before := RunFrom(Ledger(t, []), Again(k, b, n - 1), span);
      assert Grants(before.table, k, b) && Bumped(before.table, k, b, span).attempts <= n;
      OneMoreAnswer(Ledger(t, []), Again(k, b, n - 1), k, b, span);
      assert RunFrom(Ledger(t, []), Again(k, b, n), span).table == Reserved(before.table, k, b, span);
    }
  }

  lemma OverrunDiffers(t: Table, gone: set<Key>, k: Key, b: int, span: int)
    requires k in gone && k in t && t[k].attempts >= 1 && b < t[k].endsAt
    ensures var n := if t[k].attempts >= MAX_ATTEMPTS then 1 else MAX_ATTEMPTS + 1 - t[k].attempts;
      AnswersFrom(t - gone, Again(k, b, n), span) != AnswersFrom(t, Again(k, b, n), span)
  {
    var n := if t[k].attempts >= MAX_ATTEMPTS then 1 else MAX_ATTEMPTS + 1 - t[k].attempts;
    ForgottenWindowStartsOver(t - gone, k, b, n, span);
    OneMoreAnswer(Ledger(t, []), Again(k, b, n - 1), k, b, span);
    AgainAnswers(t, k, b, n - 1, span);
    if t[k].attempts < MAX_ATTEMPTS {
      OpenWindowRunsOut(t, k, b, n - 1, span);
    }
    assert |AnswersFrom(t, Again(k, b, n), span)| == n && !AnswersFrom(t, Again(k, b, n), span)[n - 1];
  }

  /** Deleting `gone` changes no answer, whatever follows, as long as reservations read clocks from `b` on. */
  ghost predicate Harmless(t: Table, gone: set<Key>, b: int, span: int) {
    forall ops | ClocksFrom(ops, b) :: AnswersFrom(t - gone, ops, span) == AnswersFrom(t, ops, span)
  }

  /**
   Exactly when a deletion is harmless: no reservation after it reads a clock before the end of a
   deleted window. A cleanup deletes windows that have ended by its own clock, so what harms is a
   reservation that it overtakes, exhausted window or not.
   */
  lemma HarmlessExactlyWhenEnded(t: Table, gone: set<Key>, b: int, span: int)
    requires gone <= t.Keys && forall k | k in t :: t[k].attempts >= 1
    ensures Harmless(t, gone, b, span) <==> forall k | k in gone :: t[k].endsAt <= b
  {
    if forall k | k in gone :: t[k].endsAt <= b {
      forall ops | ClocksFrom(ops, b) ensures AnswersFrom(t - gone, ops, span) == AnswersFrom(t, ops, span) {
        RunLacks(Ledger(t - gone, []), Ledger(t, []), ops, b, span);
      }
    } else {
      var k :| k in gone && t[k].endsAt > b;
      OverrunDiffers(t, gone, k, b, span);
      var n := if t[k].attempts >= MAX_ATTEMPTS then 1 else MAX_ATTEMPTS + 1 - t[k].attempts;
      AgainReads(k, b, n);
    }
  }

  /** Every row of a table that a run leaves has at least one attempt. */
  lemma {:induction false} RowsHaveAttempts(ops: seq<Op>, span: int)
    ensures forall k | k in Run(ops, span).table :: Run(ops, span).table[k].attempts >= 1
    decreases |ops|
  {
    if ops != [] {
      RowsHaveAttempts(ops[..|ops| - 1], span);
    }
  }

  /** Such a run: five grants, a cleanup once the window has ended, and a sixth from a transaction that began before. */
  lemma AnOvertakenReservationIsGranted()
    ensures var ops := Again(0, 0, 5) + [Cleanup(CODE_WINDOW, {0})] + [Reserve(0, CODE_WINDOW - 1)];
      && Legal(ops, CODE_WINDOW)
      && Run(ops, CODE_WINDOW).log != Run(WithoutCleanups(ops), CODE_WINDOW).log
  {
    var five, late := Again(0, 0, 5), Reserve(0, CODE_WINDOW - 1);
    var cleaned := five + [Cleanup(CODE_WINDOW, {0})];
    var ops := cleaned + [late];
    FiveAttempts(5);
    PlainAttempts(5);
    var s := Run(five, CODE_WINDOW);
    assert ExpiredKeys(s.table, CODE_WINDOW) == {0};
    assert cleaned[..|five|] == five;
    var s' := Run(cleaned, CODE_WINDOW);
    assert s' == s.(table := s.table - {0}) && Legal(cleaned, CODE_WINDOW);
    assert ops[..|cleaned|] == cleaned;
    assert Run(ops, CODE_WINDOW) == Step(s', late, CODE_WINDOW);
    assert WithoutCleanups(ops) == five + [late];
    assert (five + [late])[..|five|] == five;
    assert Run(five + [late], CODE_WINDOW) == Step(s, late, CODE_WINDOW);
    assert Step(s', late, CODE_WINDOW).log[5] == Answered(0, CODE_WINDOW - 1, true, 2 * CODE_WINDOW - 1);
    assert Step(s, late, CODE_WINDOW).log[5] == Answered(0, CODE_WINDOW - 1, false, CODE_WINDOW);
  }

  lemma {:induction false} FiveAttempts(n: nat)
    requires n <= 5
    ensures Run(Again(0, 0, n), CODE_WINDOW).table == (if n == 0 then map[] else map[0 := Row(n, CODE_WINDOW)])
    ensures |Run(Again(0, 0, n), CODE_WINDOW).log| == n
  {
    if n > 0 {
      FiveAttempts(n - 1);
      RunOneMore(Again(0, 0, n - 1), Reserve(0, 0), CODE_WINDOW);
      OneMoreAttempt(Run(Again(0, 0, n - 1), CODE_WINDOW), n);
    }
  }

  lemma RunOneMore(ops: seq<Op>, op: Op, span: int)
    ensures Run(ops + [op], span) == Step(Run(ops, span), op, span)
  {
    assert (ops + [op])[..|ops|] == ops;
  }

  lemma OneMoreAttempt(s: Ledger, n: nat)
    requires 0 < n <= 5 && s.table == (if n == 1 then map[] else map[0 := Row(n - 1, CODE_WINDOW)])
    ensures var s' := Step(s, Reserve(0, 0), CODE_WINDOW); s'.table == map[0 := Row(n, CODE_WINDOW)] && |s'.log| == |s.log| + 1
  {
  }

  lemma {:induction false} PlainAttempts(n: nat)
    ensures Legal(Again(0, 0, n), CODE_WINDOW) && WithoutCleanups(Again(0, 0, n)) == Again(0, 0, n)
  {
    if n > 0 {
      PlainAttempts(n - 1);
      var ops, before := Again(0, 0, n), Again(0, 0, n - 1);
      assert ops[..|before|] == before && ops[|before|] == Reserve(0, 0);
    }
  }

  /** A refused reservation neither counts nor moves the window, and a granted one touches one key. */
  lemma ReserveIsLocal(t: Table, k: Key, now: int, span: int)
    ensures !Grants(t, k, now) ==> Reserved(t, k, now, span) == t
    ensures forall j | j != k :: (j in Reserved(t, k, now, span) <==> j in t) && (j in t ==> Reserved(t, k, now, span)[j] == t[j])
    ensures Grants(t, k, now) && k in t && now < t[k].endsAt ==> Reserved(t, k, now, span)[k].endsAt == t[k].endsAt
  {
  }

  // ---------------------------------------------------------------------------------------------
  // How much a key is granted

  /** The ends of the windows in which `k` was granted, one for each grant since it was last cleared. */
  function WindowEnds(log: seq<Entry>, k: Key): seq<int> {
    if log == [] then []
    else
      var before, e := WindowEnds(log[..|log| - 1], k), log[|log| - 1];
      if e.key != k then before
      else if e.Cleared? then []
      else if e.granted then before + [e.endsAt] else before
  }

  /** When `k` was granted since it was last cleared. */
  function GrantTimes(log: seq<Entry>, k: Key): seq<int> {
    if log == [] then []
    else
      var before, e := GrantTimes(log[..|log| - 1], k), log[|log| - 1];
      if e.key != k then before
      else if e.Cleared? then []
      else if e.granted then before + [e.at] else before
  }

  /** What the row of a key says of the windows of its grants. */
  ghost predicate EndsKept(s: Ledger, k: Key) {
    if k in s.table then CountsEnds(WindowEnds(s.log, k), s.table[k]) else WindowEnds(s.log, k) == []
  }

  /** And of their times. */
  ghost predicate TimesKept(s: Ledger, k: Key, span: int) {
    if k in s.table
    then Counts(GrantTimes(s.log, k), Window(s.table[k].endsAt - span, s.table[k].attempts), span, MAX_ATTEMPTS)
    else GrantTimes(s.log, k) == []
  }

  ghost predicate CountsEnds(ends: seq<int>, row: Row) {
    && ends != [] && ends[|ends| - 1] == row.endsAt
    && (forall e | e in ends :: e <= row.endsAt)
    && multiset(ends)[row.endsAt] == row.attempts <= MAX_ATTEMPTS
    && (forall e :: multiset(ends)[e] <= MAX_ATTEMPTS)
  }

  lemma EndsCount(ends: seq<int>, t: Table, k: Key, at: int, span: int)
    requires if k in t then CountsEnds(ends, t[k]) else ends == []
    requires Grants(t, k, at) && span > 0
    ensures CountsEnds(ends + [Bumped(t, k, at, span).endsAt], Bumped(t, k, at, span))
  {
    var row := Bumped(t, k, at, span);
    var longer := ends + [row.endsAt];
    assert multiset(longer) == multiset(ends) + multiset{row.endsAt};
    if k in t && t[k].endsAt <= at {
      assert row.endsAt !in ends;
      assert row.endsAt !in multiset(ends);
    }
    forall e ensures multiset(longer)[e] <= MAX_ATTEMPTS {
      assert multiset(ends)[e] <= MAX_ATTEMPTS;
    }
  }

  /** The window a grant at `at` falls in, before it is counted. */
  function LiveWindow(t: Table, k: Key, at: int, span: int): Window {
    Refresh(if k in t then Window(t[k].endsAt - span, t[k].attempts) else Window(at, 0), span, at)
  }

  lemma BumpedIsOneMore(t: Table, k: Key, at: int, span: int)
    requires Grants(t, k, at) && span > 0 && (k in t ==> t[k].endsAt <= at + span)
    ensures var row, w := Bumped(t, k, at, span), LiveWindow(t, k, at, span);
      && Window(row.endsAt - span, row.attempts) == Window(w.openedAt, w.count + 1)
      && w.openedAt <= at < w.openedAt + span && w.count < MAX_ATTEMPTS
  {
  }

  lemma TimesCount(times: seq<int>, t: Table, k: Key, at: int, span: int)
    requires if k in t then Counts(times, Window(t[k].endsAt - span, t[k].attempts), span, MAX_ATTEMPTS) else times == []
    requires Grants(t, k, at) && span > 0 && (k in t ==> t[k].endsAt <= at + span)
    ensures var row := Bumped(t, k, at, span);
      Counts(times + [at], Window(row.endsAt - span, row.attempts), span, MAX_ATTEMPTS)
  {
    BumpedIsOneMore(t, k, at, span);
    var w := LiveWindow(t, k, at, span);
    assert Counts(times, w, span, MAX_ATTEMPTS) by {
      if k in t {
        RefreshCounts(times, Window(t[k].endsAt - span, t[k].attempts), span, MAX_ATTEMPTS, at);
      } else {
        NewCounter(at, span, MAX_ATTEMPTS);
      }
    }
    GrantCounts(times, w, span, MAX_ATTEMPTS, at);
  }

  /** The two readings of a longer log. */
  lemma LogGrows(log: seq<Entry>, e: Entry, k: Key)
    ensures WindowEnds(log + [e], k)
         == (if e.key != k then WindowEnds(log, k) else if e.Cleared? then [] else if e.granted then WindowEnds(log, k) + [e.endsAt] else WindowEnds(log, k))
    ensures GrantTimes(log + [e], k)
         == (if e.key != k then GrantTimes(log, k) else if e.Cleared? then [] else if e.granted then GrantTimes(log, k) + [e.at] else GrantTimes(log, k))
  {
    assert (log + [e])[..|log|] == log;
  }

  /** A step that grants `k` nothing and does not clear it leaves what is known of it. */
  ghost predicate Untouched(s: Ledger, s': Ledger, k: Key) {
    && WindowEnds(s'.log, k) == WindowEnds(s.log, k) && GrantTimes(s'.log, k) == GrantTimes(s.log, k)
    && (k in s'.table <==> k in s.table) && (k in s.table ==> s'.table[k] == s.table[k])
  }

  /** A step that grants `k`. */
  ghost predicate Granted(s: Ledger, s': Ledger, k: Key, at: int, span: int) {
    && Grants(s.table, k, at) && k in s'.table && s'.table[k] == Bumped(s.table, k, at, span)
    && WindowEnds(s'.log, k) == WindowEnds(s.log, k) + [s'.table[k].endsAt]
    && GrantTimes(s'.log, k) == GrantTimes(s.log, k) + [at]
  }

  ghost predicate Emptied(s': Ledger, k: Key) {
    k !in s'.table && WindowEnds(s'.log, k) == [] && GrantTimes(s'.log, k) == []
  }

  lemma StepTouches(s: Ledger, op: Op, k: Key, span: int)
    requires !op.Cleanup?
    ensures var s' := Step(s, op, span);
      if op.key == k && op.Clear? then Emptied(s', k)
      else if op.key == k && Grants(s.table, k, op.at) then Granted(s, s', k, op.at, span)
      else Untouched(s, s', k)
  {
    var s' := Step(s, op, span);
    LogGrows(s.log, s'.log[|s.log|], k);
  }

  lemma GrantKeepsEnds(s: Ledger, s': Ledger, k: Key, at: int, span: int)
    requires EndsKept(s, k) && Granted(s, s', k, at, span) && span > 0
    ensures EndsKept(s', k)
  {
    EndsCount(WindowEnds(s.log, k), s.table, k, at, span);
  }

  lemma GrantKeepsTimes(s: Ledger, s': Ledger, k: Key, at: int, span: int)
    requires TimesKept(s, k, span) && Granted(s, s', k, at, span) && span > 0
    requires s'.table[k].endsAt <= at + span
    ensures TimesKept(s', k, span)
  {
    TimesCount(GrantTimes(s.log, k), s.table, k, at, span);
  }

  lemma UntouchedKeeps(s: Ledger, s': Ledger, k: Key, span: int)
    requires Untouched(s, s', k)
    ensures EndsKept(s, k) ==> EndsKept(s', k)
    ensures TimesKept(s, k, span) ==> TimesKept(s', k, span)
  {
  }

  /** Clocks may be read in any order: a window that is opened again ends later than the one before it. */
  lemma {:induction false} EndsAreKept(ops: seq<Op>, k: Key, span: int)
    requires CleanupFree(ops) && span > 0
    ensures EndsKept(Run(ops, span), k)
    decreases |ops|
  {
    if ops != [] {
      var s, op := Run(ops[..|ops| - 1], span), ops[|ops| - 1];
      EndsAreKept(ops[..|ops| - 1], k, span);
      StepTouches(s, op, k, span);
      if op.Reserve? && op.key == k && Grants(s.table, k, op.at) {
        GrantKeepsEnds(s, Step(s, op, span), k, op.at, span);
      } else if op.key != k || op.Reserve? {
        UntouchedKeeps(s, Step(s, op, span), k, span);
      }
    }
  }

  /** Every grant of a key reads a clock that its window has reached. */
  ghost predicate InTheirWindows(log: seq<Entry>, k: Key, span: int) {
    forall i | 0 <= i < |log| && log[i].key == k && log[i].Answered? && log[i].granted :: log[i].endsAt - span <= log[i].at
  }

  lemma {:induction false} TimesAreKept(ops: seq<Op>, k: Key, span: int)
    requires CleanupFree(ops) && span > 0 && InTheirWindows(Run(ops, span).log, k, span)
    ensures TimesKept(Run(ops, span), k, span)
    decreases |ops|
  {
    if ops != [] {
      var s, op := Run(ops[..|ops| - 1], span), ops[|ops| - 1];
      var s' := Step(s, op, span);
      assert forall i | 0 <= i < |s.log| :: s.log[i] == s'.log[i];
      TimesAreKept(ops[..|ops| - 1], k, span);
      StepTouches(s, op, k, span);
      if op.Reserve? && op.key == k && Grants(s.table, k, op.at) {
        assert s'.log[|s.log|].endsAt - span <= op.at;
        GrantKeepsTimes(s, s', k, op.at, span);
      } else if op.key != k || op.Reserve? {
        UntouchedKeeps(s, s', k, span);
      }
    }
  }

  predicate CleanupFree(ops: seq<Op>) {
    forall i | 0 <= i < |ops| :: !ops[i].Cleanup?
  }

  lemma {:induction false} KeptIsCleanupFree(ops: seq<Op>)
    ensures CleanupFree(WithoutCleanups(ops))
    decreases |ops|
  {
    if ops != [] {
      KeptIsCleanupFree(ops[..|ops| - 1]);
    }
  }

  /**
   Over any interleaving of reservations, clearings and cleanups by any number of instances, in
   whatever order their clocks are read, a key is granted at most five times in one window unless it
   is cleared, as long as no cleanup overtakes a reservation.
   */
  lemma AtMostFivePerWindow(ops: seq<Op>, k: Key, span: int, end: int)
    requires Legal(ops, span) && NoneOvertaken(ops) && span > 0
    ensures multiset(WindowEnds(Run(ops, span).log, k))[end] <= MAX_ATTEMPTS
  {
    var kept := WithoutCleanups(ops);
    CleanupNeverChangesAnAnswer(ops, span);
    KeptIsCleanupFree(ops);
    EndsAreKept(kept, k, span);
    if k in Run(kept, span).table {
      assert CountsEnds(WindowEnds(Run(kept, span).log, k), Run(kept, span).table[k]);
    }
  }

  /** A reservation is granted when the key's last window has ended or was granted fewer than five times, or it has none. */
  predicate LeavesRoom(ends: seq<int>, at: int) {
    ends == [] || ends[|ends| - 1] <= at || multiset(ends)[ends[|ends| - 1]] < 5
  }

  /** The window it is granted in: a new one, or the last. */
  function GrantedUntil(ends: seq<int>, at: int, span: int): int {
    if ends == [] || ends[|ends| - 1] <= at then at + span else ends[|ends| - 1]
  }

  lemma EndsDecide(s: Ledger, k: Key, at: int, span: int)
    requires EndsKept(s, k)
    ensures var ends, s' := WindowEnds(s.log, k), Step(s, Reserve(k, at), span);
      && s'.log[|s.log|].granted == LeavesRoom(ends, at)
      && (LeavesRoom(ends, at) ==> s'.log[|s.log|].endsAt == GrantedUntil(ends, at, span))
  {
  }

  /**
   Over the same runs every answer follows from the log: it is a grant exactly when the windows logged
   for the key leave room, and then in the window they call for.
   */
  lemma AnswersFollowTheLog(ops: seq<Op>, k: Key, at: int, span: int)
    requires Legal(ops, span) && NoneOvertaken(ops + [Reserve(k, at)]) && span > 0
    ensures var before, log := Run(ops, span).log, Run(ops + [Reserve(k, at)], span).log;
      var ends := WindowEnds(before, k);
      && |log| == |before| + 1 && log[..|before|] == before
      && log[|before|].Answered? && log[|before|].key == k && log[|before|].at == at
      && log[|before|].granted == LeavesRoom(ends, at)
      && (LeavesRoom(ends, at) ==> log[|before|].endsAt == GrantedUntil(ends, at, span))
  {
    var longer, kept := ops + [Reserve(k, at)], WithoutCleanups(ops);
    assert longer[..|ops|] == ops;
    assert NoneOvertaken(ops) by { assert forall i | 0 <= i < |ops| :: longer[i] == ops[i]; }
    CleanupNeverChangesAnAnswer(ops, span);
    CleanupNeverChangesAnAnswer(longer, span);
    KeptIsCleanupFree(ops);
    EndsAreKept(kept, k, span);
    RunOneMore(kept, Reserve(k, at), span);
    EndsDecide(Run(kept, span), k, at, span);
  }

  /** And if each of its grants reads a clock its window has reached, at most ten in any stretch of a window's length. */
  lemma AtMostTenPerStretch(ops: seq<Op>, k: Key, span: int, from: int)
    requires Legal(ops, span) && NoneOvertaken(ops) && span > 0 && InTheirWindows(Run(ops, span).log, k, span)
    ensures InSpan(GrantTimes(Run(ops, span).log, k), from, span) <= 2 * MAX_ATTEMPTS
  {
    var kept := WithoutCleanups(ops);
    CleanupNeverChangesAnAnswer(ops, span);
    KeptIsCleanupFree(ops);
    TimesAreKept(kept, k, span);
    var r := Run(kept, span);
    if k in r.table {
      assert InSpan(GrantTimes(r.log, k), from, span) <= 2 * MAX_ATTEMPTS;
    }
  }

  /** The windows of a table end by `now` and a window's length. */
  ghost predicate OpenedBy(t: Table, now: int, span: int) {
    forall k | k in t :: t[k].endsAt <= now + span
  }

  /** Clocks read in order have reached every window they are granted in. */
  lemma {:induction false} InOrderIsInTheirWindows(ops: seq<Op>, now: int, k: Key, span: int)
    requires InOrder(ops) && span > 0 && forall i | 0 <= i < |ops| && !ops[i].Clear? :: ops[i].at <= now
    ensures InTheirWindows(Run(ops, span).log, k, span) && OpenedBy(Run(ops, span).table, now, span)
    decreases |ops|
  {
    if ops != [] {
      var front, op := ops[..|ops| - 1], ops[|ops| - 1];
      InOrderIsInTheirWindows(front, if op.Clear? then now else op.at, k, span);
      var s, s' := Run(front, span), Run(ops, span);
      forall i | 0 <= i < |s'.log| && s'.log[i].key == k && s'.log[i].Answered? && s'.log[i].granted
        ensures s'.log[i].endsAt - span <= s'.log[i].at
      {
        assert i < |s.log| ==> s'.log[i] == s.log[i];
      }
    }
  }

  // ---------------------------------------------------------------------------------------------
  // The table as the statements change it

  class AttemptTable {
    const span: int
    var rows: Table

    constructor (span: int)
      ensures this.span == span && rows == map[]
    {
      this.span := span;
      rows := map[];
    }

    method Reserve(k: Key, now: int) returns (granted: bool)
      modifies this
      ensures granted == Grants(old(rows), k, now)
      ensures rows == Reserved(old(rows), k, now, span)
    {
      granted := true;
      if k !in rows || rows[k].endsAt <= now {
        rows := rows[k := Row(1, now + span)];
      } else if rows[k].attempts < MAX_ATTEMPTS {
        rows := rows[k := rows[k].(attempts := rows[k].attempts + 1)];
      } else {
        granted := false;
      }
    }

    method Clear(k: Key)
      modifies this
      ensures rows == old(rows) - {k}
    {
      rows := rows - {k};
    }

    /** Delete up to a batch of expired rows, earliest end first. */
    method PurgeExpired(now: int) returns (ghost gone: set<Key>)
      modifies this
      ensures IsBatch(old(rows), now, gone)
      ensures rows == old(rows) - gone
    {
      var n := 0;
      gone := {};
      while n < CLEANUP_BATCH
        invariant n == |gone| <= CLEANUP_BATCH && gone <= ExpiredKeys(old(rows), now)
        invariant rows == old(rows) - gone
        invariant forall a, b | a in gone && b in ExpiredKeys(rows, now) :: old(rows)[a].endsAt <= rows[b].endsAt
      {
        var found, k := EarliestExpired(now);
        if !found {
          assert ExpiredKeys(old(rows), now) <= gone;
          break;
        }
        rows := rows - {k};
        gone := gone + {k};
        n := n + 1;
      }
      assert ExpiredKeys(old(rows), now) - gone == ExpiredKeys(rows, now);
    }

    method EarliestExpired(now: int) returns (found: bool, k: Key)
      ensures found <==> ExpiredKeys(rows, now) != {}
      ensures found ==> k in ExpiredKeys(rows, now) && forall b | b in ExpiredKeys(rows, now) :: rows[k].endsAt <= rows[b].endsAt
    {
      found, k := false, 0;
      var unread := rows.Keys;
      while unread != {}
        invariant unread <= rows.Keys
        invariant found ==> k in ExpiredKeys(rows, now)
        invariant forall b | b in ExpiredKeys(rows, now) && b !in unread :: found && rows[k].endsAt <= rows[b].endsAt
        decreases |unread|
      {
        var j :| j in unread;
        unread := unread - {j};
        if rows[j].endsAt <= now && (!found || rows[j].endsAt < rows[k].endsAt) {
          found, k := true, j;
        }
      }
    }

    /** A login attempt cleans up before it reserves, which never changes its own answer. */
    method ReserveLogin(k: Key, now: int) returns (granted: bool)
      modifies this
      ensures granted == Grants(old(rows), k, now)
      ensures k in rows && (granted ==> rows[k] == Bumped(old(rows), k, now, span))
      ensures forall j | j in rows && j != k :: j in old(rows) && rows[j] == old(rows)[j]
      ensures forall j | j in old(rows) && j !in rows :: old(rows)[j].endsAt <= now
      ensures !granted ==> rows[k] == old(rows)[k]
    {
      ghost var gone := PurgeExpired(now);
      granted := Reserve(k, now);
    }
  }
}
