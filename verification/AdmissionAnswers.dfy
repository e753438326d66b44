/** Why the limiter answers each call as it does, from the calls it has logged. */
module AdmissionAnswers {
  import opened Rows
  import opened FixedWindows
  import opened AuthAdmission
  import opened AdmissionBounds

  // ---------------------------------------------------------------------------------------------
  // Windows, from the times alone

  /** The open window: when it opened, and the first of the times that falls in it. */
  datatype Opening = Opening(at: int, from: nat)

  /** Windows of sixty seconds, the first from `start` and each later one from the first time past the one before it. */
  function OpeningOf(start: int, times: seq<int>): (o: Opening)
    ensures o.from <= |times|
  {
    if times == [] then Opening(start, 0)
    else
      var o, t := OpeningOf(start, times[..|times| - 1]), times[|times| - 1];
      if t - o.at >= 60 then Opening(t, |times| - 1) else o
  }

  /** When every call was made, whatever its answer. */
  function CallTimes(log: seq<Entry>): (times: seq<int>)
    ensures |times| == |log|
  {
    if log == [] then [] else CallTimes(log[..|log| - 1]) + [log[|log| - 1].at]
  }

  /** 600 calls have been admitted since the window of all calls opened. */
  predicate InstanceSpent(start: int, log: seq<Entry>, at: int) {
    |AllTimes(log[OpeningOf(start, CallTimes(log) + [at]).from..])| >= 600
  }

  /** The source's limit for its kind has been admitted since the window of its own admissions opened. */
  predicate SourceSpent(log: seq<Entry>, k: Source, at: int) {
    var times := TimesOf(log, k);
    times != [] &&
    |times| - OpeningOf(times[0], times + [at]).from >=
      if k.kind == Login || k.kind == Oauth then 30 else 12
  }

  /** The source is new, and 4096 others are either inside their minute or at work. */
  ghost predicate NoRoom(s: Limiter, k: Source, at: int) {
    k !in s.budget.sources && |Unevictable(s, at)| >= 4096
  }

  ghost function Unevictable(s: Limiter, at: int): set<Source> {
    set j | j in s.budget.sources && (at - s.budget.sources[j].openedAt < 60 || Living(s.guards, j.ip) != {})
  }

  // ---------------------------------------------------------------------------------------------
  // The windows stand where the log puts them

  lemma OpeningGrows(start: int, times: seq<int>, t: int)
    ensures var o := OpeningOf(start, times);
      OpeningOf(start, times + [t]) == if t - o.at >= 60 then Opening(t, |times|) else o
  {
    assert (times + [t])[..|times|] == times;
  }

  lemma CallTimesGrow(log: seq<Entry>, e: Entry)
    ensures CallTimes(log + [e]) == CallTimes(log) + [e.at]
  {
    assert (log + [e])[..|log|] == log;
  }

  function InstanceWindow(start: int, log: seq<Entry>): Window {
    var o := OpeningOf(start, CallTimes(log));
    Window(o.at, |AllTimes(log[o.from..])|)
  }

  lemma AdmissionsGrow(log: seq<Entry>, e: Entry, from: nat)
    requires from <= |log|
    ensures |AllTimes((log + [e])[from..])| == |AllTimes(log[from..])| + if e.answer == Admitted then 1 else 0
    ensures |AllTimes((log + [e])[|log|..])| == if e.answer == Admitted then 1 else 0
  {
    assert (log + [e])[from..] == log[from..] + [e] && (log + [e])[|log|..] == [] + [e];
    LogGrows(log[from..], e, e.source);
    LogGrows([], e, e.source);
  }

  lemma InstanceWindowGrows(start: int, log: seq<Entry>, e: Entry)
    ensures var w := Refresh(InstanceWindow(start, log), 60, e.at);
      InstanceWindow(start, log + [e]) == if e.answer == Admitted then OneMore(w) else w
  {
    var o := OpeningOf(start, CallTimes(log));
    CallTimesGrow(log, e);
    OpeningGrows(start, CallTimes(log), e.at);
    AdmissionsGrow(log, e, o.from);
  }

  /** A source's window, from the times it was admitted at. */
  function WindowOf(times: seq<int>): Window
    requires times != []
  {
    var o := OpeningOf(times[0], times);
    Window(o.at, |times| - o.from)
  }

  lemma WindowGrows(times: seq<int>, t: int)
    requires times != []
    ensures WindowOf(times + [t]) == OneMore(Refresh(WindowOf(times), 60, t))
  {
    OpeningGrows(times[0], times, t);
  }

  lemma FirstWindow(t: int)
    ensures WindowOf([t]) == Window(t, 1)
  {
    OpeningGrows(t, [], t);
    assert [] + [t] == [t];
  }

  ghost predicate SourceStands(r: Limiter, k: Source) {
    && (k in r.budget.sources <==> TimesOf(r.log, k) != [])
    && (k in r.budget.sources ==> r.budget.sources[k] == WindowOf(TimesOf(r.log, k)))
  }

  ghost predicate Stands(r: Limiter, start: int) {
    r.budget.global == InstanceWindow(start, r.log) && forall k :: SourceStands(r, k)
  }

  lemma SourceStandsStep(r: Limiter, r': Limiter, k: Source, at: int, granted: bool, j: Source)
    requires SourceStands(r, j) && Effect(r, r', k, at, granted, j)
    ensures SourceStands(r', j)
  {
    if granted && j == k {
      var times := TimesOf(r.log, k);
      if times == [] {
        assert times + [at] == [at];
        FirstWindow(at);
      } else {
        WindowGrows(times, at);
      }
    }
  }

  lemma StandsStep(r: Limiter, start: int, k: Source, at: int, full: bool)
    requires Stands(r, start)
    ensures Stands(RememberingStep(r, Call(k, at), full), start)
  {
    var r', granted := RememberingStep(r, Call(k, at), full), !full && Remembered(r.budget, k, at) == Admitted;
    RememberedGlobally(r, k, at, full);
    InstanceWindowGrows(start, r.log, r'.log[|r.log|]);
    forall j ensures SourceStands(r', j) {
      RememberedCall(r, k, at, full, j);
      SourceStandsStep(r, r', k, at, granted, j);
    }
  }

  lemma OtherStepsStand(r: Limiter, start: int, op: Op)
    requires Stands(r, start) && !op.Call?
    ensures Stands(RememberingStep(r, op, false), start)
  {
    var r' := RememberingStep(r, op, false);
    assert r'.log == r.log && r'.budget.global == r.budget.global && r'.budget.sources == r.budget.sources;
    forall k ensures SourceStands(r', k) {
      assert SourceStands(r, k);
    }
  }

  lemma {:induction false} ShadowStands(start: int, ops: seq<Op>)
    ensures Stands(Shadow(start, ops), start)
    decreases |ops|
  {
    if ops != [] {
      var front, op := ops[..|ops| - 1], ops[|ops| - 1];
      ShadowStands(start, front);
      if op.Call? {
        StandsStep(Shadow(start, front), start, op.source, op.at,
                   Decide(Run(Start(start), front).budget, op.source, op.at) == TableFull);
      } else {
        OtherStepsStand(Shadow(start, front), start, op);
      }
    }
  }

  // ---------------------------------------------------------------------------------------------
  // Every answer

  lemma InstanceSpentIsTheWindow(start: int, log: seq<Entry>, at: int)
    ensures Refresh(InstanceWindow(start, log), 60, at).count >= 600 <==> InstanceSpent(start, log, at)
  {
    OpeningGrows(start, CallTimes(log), at);
  }

  lemma SourceSpentIsTheWindow(r: Limiter, k: Source, at: int)
    requires SourceStands(r, k)
    ensures SourceWindow(r.budget.sources, k, at).count >= (if k.kind == Login || k.kind == Oauth then 30 else 12)
       <==> SourceSpent(r.log, k, at)
  {
    var times := TimesOf(r.log, k);
    if times != [] {
      OpeningGrows(times[0], times, at);
    }
  }

  lemma RoomIsWhatCannotBeEvicted(s: Limiter, k: Source, at: int)
    requires PlacesCounted(s)
    ensures var sources := Swept(s.budget.sources, s.budget.active, k, at);
      k !in sources && |sources| >= 4096 <==> NoRoom(s, k, at)
  {
    var kept := Unevictable(s, at);
    assert Evict(s.budget.sources, s.budget.active, at).Keys == kept by {
      forall j | j in s.budget.sources ensures j.ip in s.budget.active <==> Living(s.guards, j.ip) != {} {
        assert Active(s.budget, j.ip) == |Living(s.guards, j.ip)|;
      }
    }
    SubsetIsSmaller(kept, s.budget.sources.Keys);
    assert |s.budget.sources.Keys| == |s.budget.sources|;
  }

  /** The answer a call gets after a run, and the one it ought to get. */
  function AnswerTo(s: Limiter, k: Source, at: int): Answer {
    Step(s, Call(k, at)).log[|s.log|].answer
  }

  ghost function Due(start: int, s: Limiter, k: Source, at: int): Answer {
    if InstanceSpent(start, s.log, at) then GloballyLimited
    else if |Living(s.guards, k.ip)| >= 2 then Busy
    else if NoRoom(s, k, at) then TableFull
    else if SourceSpent(s.log, k, at) then SourceLimited
    else Admitted
  }

  /**
   Over every run with a clock that never runs backwards, each call gets the answer the log and the
   live lifetimes call for, and no other: it is refused for the instance after 600 admissions in the
   window, for its source at two lifetimes, for want of room at 4096 sources, and for its kind at 30
   or 12 admissions of that source; otherwise it is admitted.
   */
  lemma AnswersFollowTheLog(start: int, ops: seq<Op>, k: Source, at: int)
    requires InOrder(start, ops + [Call(k, at)])
    ensures var s := Run(Start(start), ops); AnswerTo(s, k, at) == Due(start, s, k, at)
  {
    var s, r := Run(Start(start), ops), Shadow(start, ops);
    InOrderSoFar(start, ops, k, at);
    ShadowFollows(start, ops);
    ShadowStands(start, ops);
    LastIsNoLater(start, ops, at);
    ActiveIsTheLivingLifetimes(start, ops);
    assert SourceStands(r, k);
    DecidesAsDue(start, s, r, k, LastAt(start, ops), at);
  }

  lemma DecidesAsDue(start: int, s: Limiter, r: Limiter, k: Source, last: int, at: int)
    requires Forgets(s, r, last) && last <= at && PlacesCounted(s)
    requires r.budget.global == InstanceWindow(start, r.log) && SourceStands(r, k)
    ensures AnswerTo(s, k, at) == Due(start, s, k, at)
  {
    var swept := Swept(s.budget.sources, s.budget.active, k, at);
    SweepingForgets(s.budget.sources, r.budget.sources, s.budget.active, k, last, at);
    InstanceSpentIsTheWindow(start, s.log, at);
    SourceSpentIsTheWindow(r, k, at);
    RoomIsWhatCannotBeEvicted(s, k, at);
    assert Active(s.budget, k.ip) == |Living(s.guards, k.ip)|;
    assert AnswerTo(s, k, at) == Decide(s.budget, k, at);
  }

  lemma InOrderSoFar(start: int, ops: seq<Op>, k: Source, at: int)
    requires InOrder(start, ops + [Call(k, at)])
    ensures InOrder(start, ops) && start <= at && forall i | 0 <= i < |ops| && ops[i].Call? :: ops[i].at <= at
  {
    var longer := ops + [Call(k, at)];
    assert longer[|ops|] == Call(k, at);
    assert forall i | 0 <= i < |ops| :: longer[i] == ops[i];
  }

  /** The table never holds a source but with the window of its admissions, and forgets only what has expired. */
  lemma TableIsTheLogs(start: int, ops: seq<Op>, k: Source)
    requires InOrder(start, ops)
    ensures var s, times := Run(Start(start), ops), TimesOf(Run(Start(start), ops).log, k);
      && (k in s.budget.sources ==> times != [] && s.budget.sources[k] == WindowOf(times))
      && (times != [] && k !in s.budget.sources ==> LastAt(start, ops) - WindowOf(times).openedAt >= 60)
  {
    ShadowFollows(start, ops);
    ShadowStands(start, ops);
    assert SourceStands(Shadow(start, ops), k);
  }

  // ---------------------------------------------------------------------------------------------
  // Lifetimes

  function Clones(ops: seq<Op>, g: nat): nat {
    if ops == [] then 0 else Clones(ops[..|ops| - 1], g) + if ops[|ops| - 1] == CloneLifetime(g) then 1 else 0
  }

  function Drops(ops: seq<Op>, g: nat): nat {
    if ops == [] then 0 else Drops(ops[..|ops| - 1], g) + if ops[|ops| - 1] == DropLifetime(g) then 1 else 0
  }

  /** A lifetime handed out before `ops`, not yet dropped as often as it was made. */
  ghost predicate Outlives(ops: seq<Op>, g: nat) {
    forall j | 0 <= j <= |ops| :: Drops(ops[..j], g) <= Clones(ops[..j], g)
  }

  lemma OutlivesOneMore(ops: seq<Op>, op: Op, g: nat)
    ensures Outlives(ops + [op], g) <==> Outlives(ops, g) && Drops(ops + [op], g) <= Clones(ops + [op], g)
  {
    var longer := ops + [op];
    assert longer[..|longer|] == longer;
    assert forall j | 0 <= j <= |ops| :: longer[..j] == ops[..j];
    if Outlives(ops, g) && Drops(longer, g) <= Clones(longer, g) {
      forall j | 0 <= j <= |longer| ensures Drops(longer[..j], g) <= Clones(longer[..j], g) {
        assert j <= |ops| ==> Drops(ops[..j], g) <= Clones(ops[..j], g);
      }
    }
    if Outlives(longer, g) {
      assert Drops(longer[..|longer|], g) <= Clones(longer[..|longer|], g);
      forall j | 0 <= j <= |ops| ensures Drops(ops[..j], g) <= Clones(ops[..j], g) {
        assert Drops(longer[..j], g) <= Clones(longer[..j], g);
      }
    }
  }

  /** The lifetime is there exactly while it outlives, with as many clones as were made and not dropped. */
  ghost predicate LifetimeStands(s: Limiter, ops: seq<Op>, g: nat, ip: Ip) {
    && g < s.unused
    && (g in s.guards <==> Outlives(ops, g))
    && (g in s.guards ==> s.guards[g].source == ip && s.guards[g].clones == 1 + Clones(ops, g) - Drops(ops, g))
  }

  lemma LifetimeStep(s: Limiter, ops: seq<Op>, op: Op, g: nat, ip: Ip)
    requires LifetimeStands(s, ops, g, ip) && (g in s.guards ==> s.guards[g].clones >= 1)
    ensures LifetimeStands(Step(s, op), ops + [op], g, ip)
  {
    OutlivesOneMore(ops, op, g);
    assert (ops + [op])[..|ops|] == ops;
    assert ops[..|ops|] == ops;
  }

  lemma LifetimeOpens(s: Limiter, k: Source, at: int)
    requires AnswerTo(s, k, at) == Admitted
    ensures LifetimeStands(Step(s, Call(k, at)), [], s.unused, k.ip)
  {
  }

  lemma RunEndsWith(s: Limiter, ops: seq<Op>, front: seq<Op>, op: Op)
    requires ops == front + [op]
    ensures Run(s, ops) == Step(Run(s, front), op)
  {
    assert ops[..|ops| - 1] == front;
  }

  lemma LastLifetimeStep(start: int, upTo: seq<Op>, after: seq<Op>, g: nat, ip: Ip)
    requires after != [] && LifetimeStands(Run(Start(start), upTo + after[..|after| - 1]), after[..|after| - 1], g, ip)
    ensures LifetimeStands(Run(Start(start), upTo + after), after, g, ip)
  {
    var front, op := after[..|after| - 1], after[|after| - 1];
    var s := Run(Start(start), upTo + front);
    assert PlacesCounted(s) by { ActiveIsTheLivingLifetimes(start, upTo + front); }
    assert g in s.guards ==> s.guards[g].clones >= 1;
    assert LifetimeStands(Step(s, op), front + [op], g, ip) by { LifetimeStep(s, front, op, g, ip); }
    assert front + [op] == after && upTo + after == upTo + front + [op];
    RunEndsWith(Start(start), upTo + after, upTo + front, op);
  }

  /**
   An admitted call takes a place of its source, and that place is given back by the drop that makes
   the drops of its lifetime outnumber the clones, and by nothing else.
   */
  lemma {:induction false} PlaceIsHeldByTheLastClone(start: int, before: seq<Op>, k: Source, at: int, after: seq<Op>)
    requires AnswerTo(Run(Start(start), before), k, at) == Admitted
    ensures var g := Run(Start(start), before).unused;
      LifetimeStands(Run(Start(start), before + [Call(k, at)] + after), after, g, k.ip)
    decreases |after|
  {
    var s := Run(Start(start), before);
    var upTo := before + [Call(k, at)];
    assert upTo[..|before|] == before;
    if after == [] {
      assert upTo + after == upTo;
      LifetimeOpens(s, k, at);
    } else {
      var front := after[..|after| - 1];
      PlaceIsHeldByTheLastClone(start, before, k, at, front);
      LastLifetimeStep(start, upTo, after, s.unused, k.ip);
    }
  }
}
