/** What the operational summary counts, said of the tables alone. */
module AttentionCounts {
  import opened Rows
  import opened Attention
  import opened AttentionSummary

  /** Where in a table the rows stand that meet a condition. */
  ghost function Places<A>(s: seq<A>, p: A -> bool): set<nat> {
    set i: nat | i < |s| && p(s[i])
  }

  lemma {:induction false} TallyOneMore<A>(s: seq<A>, a: A, p: A -> bool)
    ensures Tally(s + [a], p) == Tally(s, p) + if p(a) then 1 else 0
  {
    if s == [] {
      assert [a][1..] == [];
      assert Tally([a], p) == (if p(a) then 1 else 0) + Tally([a][1..], p);
      assert s + [a] == [a];
    } else {
      assert (s + [a])[1..] == s[1..] + [a];
      TallyOneMore(s[1..], a, p);
    }
  }

  lemma {:induction false} TallyCountsPlaces<A>(s: seq<A>, p: A -> bool)
    ensures Tally(s, p) == |Places(s, p)|
    decreases |s|
  {
    if s == [] {
      assert Places(s, p) == {};
    } else {
      var front, last := s[..|s| - 1], s[|s| - 1];
      assert s == front + [last];
      TallyCountsPlaces(front, p);
      TallyOneMore(front, last, p);
      assert Places(s, p) == if p(last) then Places(front, p) + {|front|} else Places(front, p);
    }
  }

  // ---------------------------------------------------------------------------------------------
  // The conditions

  /** A readable channel, or the company's own. */
  predicate Shown(visible: set<nat>, channel: Option<nat>) {
    channel == None || channel.value in visible
  }

  ghost predicate Waits(db: Database, company: nat, visible: set<nat>, d: Decision, w: Wait, r: WorkflowRun) {
    && w in db.waits && w.key == Key(company, d.wait) && w.waiting
    && r in db.runs && r.key == Key(company, d.run) && Shown(visible, r.channel)
  }

  /** A decision not submitted, whose wait still waits, on a run that is shown. */
  ghost function Awaited(db: Database, company: nat, visible: set<nat>): Decision -> bool {
    (d: Decision) => d.key.company == company && !d.submitted && exists w, r :: Waits(db, company, visible, d, w, r)
  }

  ghost function Stuck(company: nat, visible: set<nat>): WorkflowRun -> bool {
    (r: WorkflowRun) => r.key.company == company && r.state == WaitingState && r.reconciling && Shown(visible, r.channel)
  }

  /** Failed within seven days and not run again. */
  ghost function FailedAlone(db: Database, company: nat, visible: set<nat>, asOf: int): WorkflowRun -> bool {
    (r: WorkflowRun) =>
      && r.key.company == company && r.state == Failed && r.created >= asOf - 604_800_000_000 && Shown(visible, r.channel)
      && forall other | other in db.runs && other.key.company == company :: other.rerunOf != Some(r.key.id)
  }

  ghost predicate BindingIsShown(db: Database, company: nat, visible: set<nat>, binding: nat) {
    exists b :: b in db.bindings && b.key == Key(company, binding) && Shown(visible, b.channel)
  }

  ghost function RefusedLately(db: Database, company: nat, visible: set<nat>, asOf: int): IntentBinding -> bool {
    (i: IntentBinding) => i.company == company && !i.admitted && i.created >= asOf - 604_800_000_000 && BindingIsShown(db, company, visible, i.binding)
  }

  ghost function MissedLately(db: Database, company: nat, visible: set<nat>, asOf: int): ScheduleRun -> bool {
    (s: ScheduleRun) => s.company == company && s.failed && s.created >= asOf - 604_800_000_000 && BindingIsShown(db, company, visible, s.binding)
  }

  ghost function Dead(company: nat, visible: set<nat>): Delivery -> bool {
    (d: Delivery) =>
      d.key.company == company && d.status == DeadLetter && !d.superseded && d.channel.Some? && d.channel.value in visible
  }

  // ---------------------------------------------------------------------------------------------
  // Decisions

  lemma OpenedIsAwaited(db: Database, company: nat, visible: set<nat>, d: Decision)
    requires WellFormed(db) && d in db.decisions
    ensures OpenedAt(db, company, visible)(d) == if Awaited(db, company, visible)(d) then [d.created] else []
  {
    if d.key.company == company && !d.submitted {
      var waits, runs := At(db.waits, WaitKey, Key(company, d.wait)), At(db.runs, RunKey, Key(company, d.run));
      Resolves(db.waits, WaitKey, Key(company, d.wait));
      Resolves(db.runs, RunKey, Key(company, d.run));
      var w, r := waits[0], runs[0];
      assert waits == [w] && runs == [r];
      CollectOne(w, OpenedOnWait(db, visible, d));
      CollectOne(r, OpenedOnRun(visible, d));
      OneWaitsForIt(db, company, visible, d, w, r);
    }
  }

  lemma OneWaitsForIt(db: Database, company: nat, visible: set<nat>, d: Decision, w: Wait, r: WorkflowRun)
    requires At(db.waits, WaitKey, Key(company, d.wait)) == [w] && At(db.runs, RunKey, Key(company, d.run)) == [r]
    ensures (exists v, s :: Waits(db, company, visible, d, v, s)) <==> w.waiting && Shown(visible, r.channel)
  {
    forall v ensures v in db.waits && v.key == Key(company, d.wait) <==> v == w {
      InAt(db.waits, WaitKey, Key(company, d.wait), v);
    }
    forall s ensures s in db.runs && s.key == Key(company, d.run) <==> s == r {
      InAt(db.runs, RunKey, Key(company, d.run), s);
    }
    if w.waiting && Shown(visible, r.channel) {
      assert Waits(db, company, visible, d, w, r);
    }
  }

  lemma {:induction false} OpeningsAreCounted(s: seq<Decision>, f: Decision -> seq<int>, p: Decision -> bool)
    requires forall d | d in s :: f(d) == if p(d) then [d.created] else []
    ensures |Collect(s, f)| == Tally(s, p)
    ensures forall t :: t in Collect(s, f) <==> exists d :: d in s && p(d) && d.created == t
  {
    if s != [] {
      assert s[0] in s && forall d | d in s[1..] :: d in s;
      OpeningsAreCounted(s[1..], f, p);
      forall t ensures t in Collect(s, f) <==> exists d :: d in s && p(d) && d.created == t {
        if d :| d in s && p(d) && d.created == t {
          assert d == s[0] || d in s[1..];
        }
      }
    }
  }

  lemma {:induction false} EarliestIsTheLeast(times: seq<int>)
    ensures Earliest(times) == None <==> times == []
    ensures Earliest(times).Some? ==> Earliest(times).value in times && forall t | t in times :: Earliest(times).value <= t
  {
    if times != [] {
      EarliestIsTheLeast(times[1..]);
      assert forall t | t in times :: t == times[0] || t in times[1..];
    }
  }

  /** How long ago the oldest of the decisions that meet a condition was made. */
  ghost predicate IsOldestAge(s: seq<Decision>, p: Decision -> bool, asOf: int, age: Option<int>) {
    match age
    case None => forall d | d in s :: !p(d)
    case Some(a) =>
      && (exists d :: d in s && p(d) && asOf - d.created == a)
      && (forall d | d in s && p(d) :: asOf - d.created <= a)
  }

  lemma AgeIsTheOldest(s: seq<Decision>, p: Decision -> bool, openings: seq<int>, asOf: int)
    requires forall t :: t in openings <==> exists d :: d in s && p(d) && d.created == t
    ensures IsOldestAge(s, p, asOf, Age(openings, asOf))
  {
    EarliestIsTheLeast(openings);
    forall d | d in s && p(d) ensures openings != [] && Earliest(openings).value <= d.created {
      assert d.created in openings;
    }
    if openings != [] {
      var d :| d in s && p(d) && d.created == Earliest(openings).value;
      assert asOf - d.created == Age(openings, asOf).value;
    }
  }

  lemma DecisionsAreCounted(db: Database, company: nat, visible: set<nat>, asOf: int)
    requires WellFormed(db)
    ensures var openings, p := Collect(db.decisions, OpenedAt(db, company, visible)), Awaited(db, company, visible);
      |openings| == |Places(db.decisions, p)| && IsOldestAge(db.decisions, p, asOf, Age(openings, asOf))
  {
    var f, p := OpenedAt(db, company, visible), Awaited(db, company, visible);
    forall d | d in db.decisions ensures f(d) == if p(d) then [d.created] else [] {
      OpenedIsAwaited(db, company, visible, d);
    }
    OpeningsAreCounted(db.decisions, f, p);
    TallyCountsPlaces(db.decisions, p);
    AgeIsTheOldest(db.decisions, p, Collect(db.decisions, f), asOf);
  }

  // ---------------------------------------------------------------------------------------------
  // Refusals

  lemma JoinedIsShown(db: Database, company: nat, visible: set<nat>, binding: nat)
    requires WellFormed(db)
    ensures JoinedBindings(db, company, visible, binding) == if BindingIsShown(db, company, visible, binding) then 1 else 0
  {
    var found := At(db.bindings, BindingKey, Key(company, binding));
    AtMostOne(db.bindings, BindingKey, Key(company, binding));
    forall b ensures b in found <==> b in db.bindings && b.key == Key(company, binding) {
      InAt(db.bindings, BindingKey, Key(company, binding), b);
    }
    if found != [] {
      assert found == [found[0]];
      KeepOne(found[0], BindingShown(visible));
    }
  }

  ghost function OneFor<A>(p: A -> bool): A -> nat {
    (a: A) => if p(a) then 1 else 0
  }

  lemma OneBindingEach<A>(s: seq<A>, f: A -> seq<nat>, w: nat -> nat, p: A -> bool)
    requires forall a | a in s :: Total(f(a), w) == if p(a) then 1 else 0
    ensures Total(Collect(s, f), w) == |Places(s, p)|
  {
    TotalOfCollect(s, f, w, OneFor(p));
    TallyIsTotal(s, p, OneFor(p));
    TallyCountsPlaces(s, p);
  }

  lemma RefusedAreCounted(db: Database, company: nat, visible: set<nat>, asOf: int)
    requires WellFormed(db)
    ensures Summarize(db, company, visible, asOf).refusals
         == |Places(db.intents, RefusedLately(db, company, visible, asOf))| + |Places(db.schedules, MissedLately(db, company, visible, asOf))|
  {
    var w := BindingWeight(db, company, visible);
    forall i | i in db.intents
      ensures Total(NotAdmitted(company, asOf)(i), w) == if RefusedLately(db, company, visible, asOf)(i) then 1 else 0
    {
      JoinedIsShown(db, company, visible, i.binding);
      TotalOne(i.binding, w);
    }
    forall s | s in db.schedules
      ensures Total(NotMaterialized(company, asOf)(s), w) == if MissedLately(db, company, visible, asOf)(s) then 1 else 0
    {
      JoinedIsShown(db, company, visible, s.binding);
      TotalOne(s.binding, w);
    }
    OneBindingEach(db.intents, NotAdmitted(company, asOf), w, RefusedLately(db, company, visible, asOf));
    OneBindingEach(db.schedules, NotMaterialized(company, asOf), w, MissedLately(db, company, visible, asOf));
    TotalConcat(Collect(db.intents, NotAdmitted(company, asOf)), Collect(db.schedules, NotMaterialized(company, asOf)), w);
  }

  // ---------------------------------------------------------------------------------------------
  // Runs, deliveries and the whole

  lemma {:induction false} TallyAgrees<A>(s: seq<A>, p: A -> bool, p': A -> bool)
    requires forall a | a in s :: p(a) == p'(a)
    ensures Tally(s, p) == Tally(s, p')
  {
    if s != [] {
      assert s[0] in s;
      TallyAgrees(s[1..], p, p');
    }
  }

  lemma RunsAreCounted(db: Database, company: nat, visible: set<nat>, asOf: int)
    ensures var s := Summarize(db, company, visible, asOf);
      && s.reconciling == |Places(db.runs, Stuck(company, visible))|
      && s.failedRuns == |Places(db.runs, FailedAlone(db, company, visible, asOf))|
  {
    TallyAgrees(db.runs, Reconciling(company, visible), Stuck(company, visible));
    TallyAgrees(db.runs, FailedLately(db, company, visible, asOf), FailedAlone(db, company, visible, asOf));
    TallyCountsPlaces(db.runs, Stuck(company, visible));
    TallyCountsPlaces(db.runs, FailedAlone(db, company, visible, asOf));
  }

  lemma DeadAreCounted(db: Database, company: nat, visible: set<nat>, asOf: int)
    ensures Summarize(db, company, visible, asOf).deadLetters == |Places(db.deliveries, Dead(company, visible))|
  {
    TallyAgrees(db.deliveries, DeadLettered(company, visible), Dead(company, visible));
    TallyCountsPlaces(db.deliveries, Dead(company, visible));
  }

  /**
   For every database the schema admits, each figure of the summary is the number of table rows that
   meet its condition, and the age is that of the oldest decision still awaited.
   */
  lemma SummaryCountsTheTables(db: Database, company: nat, visible: set<nat>, asOf: int)
    requires WellFormed(db)
    ensures var s := Summarize(db, company, visible, asOf);
      && s.openDecisions == |Places(db.decisions, Awaited(db, company, visible))|
      && IsOldestAge(db.decisions, Awaited(db, company, visible), asOf, s.oldestAge)
      && s.reconciling == |Places(db.runs, Stuck(company, visible))|
      && s.failedRuns == |Places(db.runs, FailedAlone(db, company, visible, asOf))|
      && s.refusals == |Places(db.intents, RefusedLately(db, company, visible, asOf))| + |Places(db.schedules, MissedLately(db, company, visible, asOf))|
      && s.deadLetters == |Places(db.deliveries, Dead(company, visible))|
  {
    DecisionsAreCounted(db, company, visible, asOf);
    RunsAreCounted(db, company, visible, asOf);
    RefusedAreCounted(db, company, visible, asOf);
    DeadAreCounted(db, company, visible, asOf);
  }
}
