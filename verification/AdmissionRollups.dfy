/** What the limiter's rollups count: stretches of calls, one after another, each shorter than a window. */
module AdmissionRollups {
  import opened Rows
  import opened FixedWindows
  import opened AuthAdmission
  import opened AdmissionBounds

  /** The calls `from` to `until` of the log, counted by a window that opened at `openedAt`. */
  datatype Stretch = Stretch(openedAt: int, from: nat, until: nat)

  ghost predicate InLog(log: seq<Entry>, st: Stretch) {
    && st.from <= st.until <= |log|
    && forall j | st.from <= j < st.until :: st.openedAt <= log[j].at < st.openedAt + 60
  }

  /** The second window opens with a call, once the first has run its sixty seconds. */
  ghost predicate Follows(log: seq<Entry>, a: Stretch, b: Stretch) {
    a.until == b.from < b.until && b.from < |log| && b.openedAt == log[b.from].at && b.openedAt - a.openedAt >= 60
  }

  /** The stretches divide the log, in order. */
  ghost predicate Divides(log: seq<Entry>, start: int, stretches: seq<Stretch>) {
    && stretches != [] && stretches[0].openedAt == start && stretches[0].from == 0
    && stretches[|stretches| - 1].until == |log|
    && (forall i | 0 <= i < |stretches| :: InLog(log, stretches[i]))
    && (forall i | 0 < i < |stretches| :: Follows(log, stretches[i - 1], stretches[i]))
  }

  /** A snapshot counts exactly the calls of a stretch, by kind and outcome. */
  ghost predicate CountsStretch(counts: Snapshot, log: seq<Entry>, st: Stretch)
    requires st.from <= st.until <= |log|
  {
    forall kind, accepted :: Counted(counts, kind, accepted) == CallsOf(log[st.from..st.until], kind, accepted)
  }

  /** Every rollup handed over counts its stretch, and the open window counts the last one. */
  ghost predicate RolledUp(s: Limiter, start: int, stretches: seq<Stretch>) {
    && Divides(s.log, start, stretches) && |s.budget.emitted| == |stretches| - 1
    && s.budget.metrics.openedAt == stretches[|stretches| - 1].openedAt
    && (forall i | 0 <= i < |stretches| - 1 :: InLog(s.log, stretches[i]) && CountsStretch(s.budget.emitted[i], s.log, stretches[i]))
    && CountsStretch(s.budget.metrics.counts, s.log, stretches[|stretches| - 1])
  }

  /** The stretches after one more call at `at`. */
  function Extended(log: seq<Entry>, stretches: seq<Stretch>, at: int): seq<Stretch>
    requires stretches != []
  {
    var last := stretches[|stretches| - 1];
    if at - last.openedAt >= 60 then stretches + [Stretch(at, |log|, |log| + 1)]
    else stretches[|stretches| - 1 := last.(until := |log| + 1)]
  }

  lemma ExtendedDivides(log: seq<Entry>, start: int, stretches: seq<Stretch>, e: Entry)
    requires Divides(log, start, stretches) && stretches[|stretches| - 1].openedAt <= e.at
    ensures Divides(log + [e], start, Extended(log, stretches, e.at))
  {
    var longer, more := log + [e], Extended(log, stretches, e.at);
    forall i | 0 <= i < |more| ensures InLog(longer, more[i]) {
      assert i < |stretches| ==> InLog(log, stretches[i]);
    }
    forall i | 0 < i < |more| ensures Follows(longer, more[i - 1], more[i]) {
      assert i < |stretches| ==> Follows(log, stretches[i - 1], stretches[i]);
      assert InLog(log, stretches[i - 1]);
    }
  }

  /** One call counted into a snapshot. */
  lemma BumpCounts(counts: Snapshot, kind: Kind, accepted: bool, k: Kind, a: bool)
    requires Counted(counts, kind, accepted) < U64_MAX
    ensures var counts' := if accepted then counts.(accepted := SaturatingBump(counts.accepted, kind))
                           else counts.(limited := SaturatingBump(counts.limited, kind));
      Counted(counts', k, a) == Counted(counts, k, a) + if k == kind && a == accepted then 1 else 0
  {
  }

  /** What the call leaves of the metrics, as `Record` does it. */
  lemma RecordedMetrics(b: Budget, kind: Kind, accepted: bool, now: int, k: Kind, a: bool)
    requires Counted(b.metrics.counts, kind, accepted) < U64_MAX
    ensures var b', over, one := Record(b, kind, accepted, now), now - b.metrics.openedAt >= 60, if k == kind && a == accepted then 1 else 0;
      && b'.emitted == (if over then b.emitted + [b.metrics.counts] else b.emitted)
      && b'.metrics.openedAt == (if over then now else b.metrics.openedAt)
      && Counted(b'.metrics.counts, k, a) == (if over then one else Counted(b.metrics.counts, k, a) + one)
  {
    BumpCounts(b.metrics.counts, kind, accepted, k, a);
    BumpCounts(NoCounts(), kind, accepted, k, a);
  }

  lemma CallsOfOneMore(log: seq<Entry>, from: nat, until: nat, e: Entry, kind: Kind, accepted: bool)
    requires from <= until == |log|
    ensures CallsOf((log + [e])[from..until + 1], kind, accepted)
         == CallsOf(log[from..until], kind, accepted) + if Matches(e, kind, accepted) then 1 else 0
  {
    assert (log + [e])[from..until + 1] == log[from..until] + [e];
    OneMoreCall(log[from..until], e, kind, accepted);
  }

  lemma SameStretch(log: seq<Entry>, e: Entry, counts: Snapshot, st: Stretch)
    requires st.from <= st.until <= |log| && CountsStretch(counts, log, st)
    ensures CountsStretch(counts, log + [e], st)
  {
    assert (log + [e])[st.from..st.until] == log[st.from..st.until];
  }

  lemma OpenWindowCounts(s: Limiter, start: int, stretches: seq<Stretch>, k: Source, at: int)
    requires RolledUp(s, start, stretches) && |s.log| < U64_MAX
    ensures var s', more := Step(s, Call(k, at)), Extended(s.log, stretches, at);
      more[|more| - 1].until == |s'.log| && more[|more| - 1].from <= |s'.log|
      && CountsStretch(s'.budget.metrics.counts, s'.log, more[|more| - 1])
  {
    var s', more := Step(s, Call(k, at)), Extended(s.log, stretches, at);
    var e, last := Entry(k, at, Decide(s.budget, k, at)), stretches[|stretches| - 1];
    var taken := Decide(s.budget, k, at) == Admitted;
    SpendCountsNothing(s.budget, k, at);
    CallsAreCalls(s.log[last.from..last.until], k.kind, taken);
    assert InLog(s.log, last);
    forall kind, accepted
      ensures Counted(s'.budget.metrics.counts, kind, accepted)
           == CallsOf(s'.log[more[|more| - 1].from..more[|more| - 1].until], kind, accepted)
    {
      RecordedMetrics(Spend(s.budget, k, at), k.kind, taken, at, kind, accepted);
      assert Matches(e, kind, accepted) <==> kind == k.kind && accepted == taken;
      CallsOfOneMore(s.log, more[|more| - 1].from, |s.log|, e, kind, accepted);
    }
  }

  lemma HandedOver(s: Limiter, start: int, stretches: seq<Stretch>, k: Source, at: int)
    requires RolledUp(s, start, stretches) && |s.log| < U64_MAX
    ensures var s', over := Step(s, Call(k, at)), at - stretches[|stretches| - 1].openedAt >= 60;
      && s'.budget.emitted == (if over then s.budget.emitted + [s.budget.metrics.counts] else s.budget.emitted)
      && s'.budget.metrics.openedAt == (if over then at else s.budget.metrics.openedAt)
  {
    var taken, last := Decide(s.budget, k, at) == Admitted, stretches[|stretches| - 1];
    SpendCountsNothing(s.budget, k, at);
    assert InLog(s.log, last);
    CallsAreCalls(s.log[last.from..last.until], k.kind, taken);
    RecordedMetrics(Spend(s.budget, k, at), k.kind, taken, at, k.kind, taken);
  }

  lemma CallRollsUp(s: Limiter, start: int, stretches: seq<Stretch>, k: Source, at: int)
    requires RolledUp(s, start, stretches) && |s.log| < U64_MAX && stretches[|stretches| - 1].openedAt <= at
    ensures RolledUp(Step(s, Call(k, at)), start, Extended(s.log, stretches, at))
  {
    var s', more := Step(s, Call(k, at)), Extended(s.log, stretches, at);
    var e := Entry(k, at, Decide(s.budget, k, at));
    assert s'.log == s.log + [e];
    ExtendedDivides(s.log, start, stretches, e);
    OpenWindowCounts(s, start, stretches, k, at);
    HandedOver(s, start, stretches, k, at);
    forall i | 0 <= i < |more| - 1 ensures InLog(s'.log, more[i]) && CountsStretch(s'.budget.emitted[i], s'.log, more[i]) {
      assert InLog(s'.log, more[i]) && InLog(s.log, stretches[i]);
      SameStretch(s.log, e, s'.budget.emitted[i], stretches[i]);
    }
  }

  lemma OtherStepsRollUp(s: Limiter, start: int, stretches: seq<Stretch>, op: Op)
    requires RolledUp(s, start, stretches) && !op.Call?
    ensures RolledUp(Step(s, op), start, stretches)
  {
    var s' := Step(s, op);
    assert s'.log == s.log && s'.budget.metrics == s.budget.metrics && s'.budget.emitted == s.budget.emitted;
  }

  /**
   Over every run with a clock that never runs backwards, and from the log alone: the calls divide into
   stretches, the first from the start and each later one from the first call sixty seconds or more
   after the one before it opened; every rollup handed over counts one stretch, in order, and the open
   window counts the last.
   */
  lemma {:induction false} RollupsCountStretches(start: int, ops: seq<Op>) returns (stretches: seq<Stretch>)
    requires InOrder(start, ops) && |Run(Start(start), ops).log| <= U64_MAX
    ensures RolledUp(Run(Start(start), ops), start, stretches)
    ensures stretches[|stretches| - 1].openedAt <= LastAt(start, ops)
    decreases |ops|
  {
    if ops == [] {
      stretches := [Stretch(start, 0, 0)];
    } else {
      var front, op := ops[..|ops| - 1], ops[|ops| - 1];
      var s := Run(Start(start), front);
      LogIsKept(s, op);
      stretches := RollupsCountStretches(start, front);
      if op.Call? {
        LastIsNoLater(start, front, op.at);
        CallRollsUp(s, start, stretches, op.source, op.at);
        stretches := Extended(s.log, stretches, op.at);
      } else {
        OtherStepsRollUp(s, start, stretches, op);
      }
    }
  }

  /** So after a call the open window is less than sixty seconds old. */
  lemma OpenWindowIsYoung(start: int, ops: seq<Op>)
    requires InOrder(start, ops) && ops != [] && ops[|ops| - 1].Call? && |Run(Start(start), ops).log| <= U64_MAX
    ensures var s := Run(Start(start), ops); s.budget.metrics.openedAt <= ops[|ops| - 1].at < s.budget.metrics.openedAt + 60
  {
    var stretches := RollupsCountStretches(start, ops);
    var s := Run(Start(start), ops);
    assert InLog(s.log, stretches[|stretches| - 1]);
    assert s.log[|s.log| - 1].at == ops[|ops| - 1].at;
    if |stretches| > 1 {
      assert Follows(s.log, stretches[|stretches| - 2], stretches[|stretches| - 1]);
    }
  }
}
