/** The operational summary, counted by its own queries, against the list it summarizes. */
module AttentionSummary {
  import opened Rows
  import opened Attention

  datatype Summary = Summary(
    openDecisions: nat, oldestAge: Option<int>, reconciling: nat, failedRuns: nat, refusals: nat, deadLetters: nat)

  // ---------------------------------------------------------------------------------------------
  // The summary's own queries. A manager reads them, so company rows are always included.

  predicate ForManager(visible: set<nat>, channel: Option<nat>) {
    channel.None? || channel.value in visible
  }

  function OpenedAt(db: Database, company: nat, visible: set<nat>): Decision -> seq<int> {
    (d: Decision) =>
      if d.key.company != company || d.submitted then []
      else Collect(At(db.waits, WaitKey, Key(d.key.company, d.wait)), OpenedOnWait(db, visible, d))
  }

  function OpenedOnWait(db: Database, visible: set<nat>, d: Decision): Wait -> seq<int> {
    (w: Wait) =>
      if !w.waiting then [] else Collect(At(db.runs, RunKey, Key(d.key.company, d.run)), OpenedOnRun(visible, d))
  }

  function OpenedOnRun(visible: set<nat>, d: Decision): WorkflowRun -> seq<int> {
    (r: WorkflowRun) => if ForManager(visible, r.channel) then [d.created] else []
  }

  function Earliest(times: seq<int>): Option<int> {
    if times == [] then None
    else match Earliest(times[1..])
      case None => Some(times[0])
      case Some(t) => Some(if times[0] < t then times[0] else t)
  }

  function Reconciling(company: nat, visible: set<nat>): WorkflowRun -> bool {
    (r: WorkflowRun) =>
      r.key.company == company && r.state.WaitingState? && r.reconciling && ForManager(visible, r.channel)
  }

  function FailedLately(db: Database, company: nat, visible: set<nat>, asOf: int): WorkflowRun -> bool {
    (r: WorkflowRun) =>
      && r.key.company == company && r.state.Failed? && r.created >= asOf - 7 * DAY
      && !(exists rerun :: rerun in db.runs && rerun.key.company == r.key.company && rerun.rerunOf == Some(r.key.id))
      && ForManager(visible, r.channel)
  }

  function BindingShown(visible: set<nat>): Binding -> bool {
    (b: Binding) => ForManager(visible, b.channel)
  }

  /** The bindings of refused admissions and of failed materializations, once for each. */
  function RecentlyRefused(db: Database, company: nat, asOf: int): seq<nat> {
    Collect(db.intents, NotAdmitted(company, asOf)) + Collect(db.schedules, NotMaterialized(company, asOf))
  }

  function NotAdmitted(company: nat, asOf: int): IntentBinding -> seq<nat> {
    (i: IntentBinding) => if i.company == company && !i.admitted && i.created >= asOf - 7 * DAY then [i.binding] else []
  }

  function NotMaterialized(company: nat, asOf: int): ScheduleRun -> seq<nat> {
    (s: ScheduleRun) => if s.company == company && s.failed && s.created >= asOf - 7 * DAY then [s.binding] else []
  }

  /** How many visible bindings an identifier joins to. */
  function JoinedBindings(db: Database, company: nat, visible: set<nat>, binding: nat): nat {
    |Keep(At(db.bindings, BindingKey, Key(company, binding)), BindingShown(visible))|
  }

  function BindingWeight(db: Database, company: nat, visible: set<nat>): nat -> nat {
    (binding: nat) => JoinedBindings(db, company, visible, binding)
  }

  function DeadLettered(company: nat, visible: set<nat>): Delivery -> bool {
    (d: Delivery) =>
      d.key.company == company && d.channel.Some? && d.channel.value in visible && d.status.DeadLetter? && !d.superseded
  }

  function Summarize(db: Database, company: nat, visible: set<nat>, asOf: int): Summary {
    var openings := Collect(db.decisions, OpenedAt(db, company, visible));
    Summary(
      |openings|,
      Age(openings, asOf),
      Tally(db.runs, Reconciling(company, visible)),
      Tally(db.runs, FailedLately(db, company, visible, asOf)),
      Total(RecentlyRefused(db, company, asOf), BindingWeight(db, company, visible)),
      Tally(db.deliveries, DeadLettered(company, visible)))
  }

  // ---------------------------------------------------------------------------------------------
  // What the schema guarantees

  /** Primary keys and unique indexes. */
  ghost predicate KeysUnique(db: Database) {
    && Unique(db.decisions, DecisionKey) && Unique(db.waits, WaitKey) && Unique(db.runs, RunKey)
    && Unique(db.versions, VersionKey) && Unique(db.principals, AccountKey) && Unique(db.bindings, BindingKey)
    && Unique(db.revisions, RevisionKey) && Unique(db.deliveries, DeliveryKey) && Unique(db.messages, MessageKey)
    && Unique(db.destinations, DestinationKey) && Unique(db.reviewers, ReviewerKey)
  }

  /** Foreign keys. */
  ghost predicate KeysResolve(db: Database) {
    && (forall d | d in db.decisions :: exists w :: w in db.waits && WaitKey(w) == Key(d.key.company, d.wait))
    && (forall d | d in db.decisions :: exists r :: r in db.runs && RunKey(r) == Key(d.key.company, d.run))
    && (forall r | r in db.runs :: exists v :: v in db.versions && VersionKey(v) == Key(r.key.company, r.version))
    && (forall d | d in db.deliveries :: exists m :: m in db.messages && MessageKey(m) == Key(d.key.company, d.message))
  }

  /** What the results about the list and the summary need of the schema. */
  ghost predicate WellFormed(db: Database) {
    KeysUnique(db) && KeysResolve(db)
  }

  /** The schema's constraints on bindings as well, which those results do without. */
  ghost predicate SchemaAdmits(db: Database) {
    WellFormed(db) && BindingsResolve(db)
  }

  ghost predicate BindingsResolve(db: Database) {
    && (forall b | b in db.bindings :: b.configuration > 0 && exists r :: r in db.revisions && RevisionKey(r) == (b.key, b.configuration))
    && (forall r | r in db.revisions :: r.revision > 0 && exists b :: b in db.bindings && BindingKey(b) == r.binding)
    && (forall r | r in db.revisions :: exists v :: v in db.versions && VersionKey(v) == Key(r.binding.company, r.version))
    && (forall i | i in db.intents :: exists b :: b in db.bindings && BindingKey(b) == Key(i.company, i.binding))
    && (forall s | s in db.schedules :: exists b :: b in db.bindings && BindingKey(b) == Key(s.company, s.binding))
  }

  // ---------------------------------------------------------------------------------------------
  // The list split by source

  function OfKind(kind: SourceKind): Row -> bool {
    (row: Row) => row.kind == kind
  }

  ghost predicate AllOf(rows: seq<Row>, kind: SourceKind) {
    forall row | row in rows :: row.kind == kind
  }

  lemma {:induction false} KeepKind(rows: seq<Row>, kind: SourceKind, wanted: SourceKind)
    requires AllOf(rows, kind)
    ensures Keep(rows, OfKind(wanted)) == if kind == wanted then rows else []
  {
    if rows == [] {
    } else {
      assert rows[0] in rows;
      forall row | row in rows[1..] ensures row in rows {}
      KeepKind(rows[1..], kind, wanted);
    }
  }

  lemma {:induction false} CollectKind<A>(s: seq<A>, f: A -> seq<Row>, kind: SourceKind)
    requires forall a | a in s :: AllOf(f(a), kind)
    ensures AllOf(Collect(s, f), kind)
  {
    if s == [] {
    } else {
      assert s[0] in s;
      CollectKind(s[1..], f, kind);
    }
  }

  lemma {:induction false} EachKind<A>(s: seq<A>, rows: seq<Row>, kind: SourceKind)
    requires AllOf(rows, kind)
    ensures AllOf(Each(s, rows), kind)
  {
    if s != [] {
      EachKind(s[1..], rows, kind);
    }
  }

  lemma OpenDecisionKind(db: Database, q: Query, d: Decision, whose: Responsibility, who: Option<nat>)
    ensures AllOf(OpenDecision(db, q, d, whose, who), DecisionSource)
  {
    var waits := At(db.waits, WaitKey, Key(d.key.company, d.wait));
    forall w | w in waits ensures AllOf(OnWait(db, q, d, whose, who)(w), DecisionSource) {
      var runs := At(db.runs, RunKey, Key(d.key.company, d.run));
      forall r | r in runs ensures AllOf(OnRun(db, q, d, w, whose, who)(r), DecisionSource) {
        EachKind(At(db.versions, VersionKey, Key(r.key.company, r.version)), [DecisionRow(d, w, r, whose, who)], DecisionSource);
      }
      CollectKind(runs, OnRun(db, q, d, w, whose, who), DecisionSource);
    }
    CollectKind(waits, OnWait(db, q, d, whose, who), DecisionSource);
  }

  lemma DecisionsKind(db: Database, q: Query)
    ensures AllOf(Decisions(db, q, true), DecisionSource)
  {
    forall d | d in db.decisions
      ensures AllOf(MyDecisionRows(db, q)(d), DecisionSource) && AllOf(TeamDecisionRows(db, q, true)(d), DecisionSource)
    {
      OpenDecisionKind(db, q, d, ToChannelTeam, None);
      OpenDecisionKind(db, q, d, ToPrincipal, Some(q.viewer));
      var reviews := Keep(db.reviewers, ReviewMatch(q, d));
      forall r | r in reviews ensures AllOf(OnReview(db, q, d)(r), DecisionSource) {
        EachKind(Keep(db.principals, ViewerMatch(q, r)), OpenDecision(db, q, d, ToPrincipal, Some(q.viewer)), DecisionSource);
      }
      CollectKind(reviews, OnReview(db, q, d), DecisionSource);
    }
    CollectKind(db.decisions, MyDecisionRows(db, q), DecisionSource);
    CollectKind(db.decisions, TeamDecisionRows(db, q, true), DecisionSource);
  }

  lemma RefusedBindingsKind(db: Database, q: Query, narrow: bool)
    ensures AllOf(RefusedBindings(db, q, narrow), BindingRefusal)
  {
    var groups := Groups(Refusals(db, q));
    forall g | g in groups ensures AllOf(RefusalRows(db, q, narrow)(g), BindingRefusal) {
      var bindings := At(db.bindings, BindingKey, Key(q.company, g));
      forall b | b in bindings ensures AllOf(OnBinding(db, q, g)(b), BindingRefusal) {
        EachKind(BindingVersions(db, b), [RefusalRow(b, At(Refusals(db, q), RefusalBinding, g))], BindingRefusal);
      }
      CollectKind(bindings, OnBinding(db, q, g), BindingRefusal);
    }
    CollectKind(groups, RefusalRows(db, q, narrow), BindingRefusal);
  }

  lemma RunSourcesKind(db: Database, q: Query)
    ensures AllOf(Reconciliations(db, q, true), RunReconciliation) && AllOf(Failures(db, q, true), RunFailure)
  {
    forall r | r in db.runs
      ensures AllOf(ReconciliationRows(db, q, true)(r), RunReconciliation) && AllOf(FailureRows(db, q, true)(r), RunFailure)
    {
      var versions := At(db.versions, VersionKey, Key(r.key.company, r.version));
      EachKind(versions, [ReconciliationRow(r)], RunReconciliation);
      CollectKind(Actors(db, r.key.company, r.actor), FailureFor(q, r, true), RunFailure);
      EachKind(versions, Collect(Actors(db, r.key.company, r.actor), FailureFor(q, r, true)), RunFailure);
    }
    CollectKind(db.runs, ReconciliationRows(db, q, true), RunReconciliation);
    CollectKind(db.runs, FailureRows(db, q, true), RunFailure);
  }

  lemma DeliveriesKind(db: Database, q: Query)
    ensures AllOf(Deliveries(db, q, true), DeliveryFailure)
  {
    forall d | d in db.deliveries ensures AllOf(DeliveryRows(db, q, true)(d), DeliveryFailure) {
      forall run | run in DestinationRuns(db, d) ensures AllOf(OnDelivery(db, q, d, true)(run), DeliveryFailure) {
        CollectKind(RunActors(db, run), DeliveryFor(q, d, run, true), DeliveryFailure);
      }
      CollectKind(DestinationRuns(db, d), OnDelivery(db, q, d, true), DeliveryFailure);
      EachKind(At(db.messages, MessageKey, Key(d.key.company, d.message)),
               Collect(DestinationRuns(db, d), OnDelivery(db, q, d, true)), DeliveryFailure);
    }
    CollectKind(db.deliveries, DeliveryRows(db, q, true), DeliveryFailure);
  }

  /** The list's rows of one kind are that source's rows that pass the responsibility filter. */
  function Source(db: Database, q: Query, kind: SourceKind): seq<Row> {
    match kind
    case DecisionSource => Decisions(db, q, true)
    case BindingRefusal => RefusedBindings(db, q, true)
    case RunReconciliation => Reconciliations(db, q, true)
    case RunFailure => Failures(db, q, true)
    case DeliveryFailure => Deliveries(db, q, true)
  }

  lemma {:induction false} KeepTrue(rows: seq<Row>, q: Query)
    requires q.view.TeamWork?
    ensures Keep(rows, Ranked(q)) == rows
  {
    if rows != [] {
      KeepTrue(rows[1..], q);
    }
  }

  lemma KeepOfFive(d: seq<Row>, b: seq<Row>, r: seq<Row>, f: seq<Row>, m: seq<Row>, p: Row -> bool)
    ensures Keep(d + b + (r + f + m), p) == Keep(d, p) + Keep(b, p) + (Keep(r, p) + Keep(f, p) + Keep(m, p))
  {
    KeepConcat(d + b, r + f + m, p);
    KeepConcat(d, b, p);
    KeepConcat(r + f, m, p);
    KeepConcat(r, f, p);
  }

  /** Of five sources, each all of its own kind, the rows of one kind are one source. */
  lemma KindOfFive(d: seq<Row>, b: seq<Row>, r: seq<Row>, f: seq<Row>, m: seq<Row>, kind: SourceKind)
    requires AllOf(d, DecisionSource) && AllOf(b, BindingRefusal) && AllOf(r, RunReconciliation)
    requires AllOf(f, RunFailure) && AllOf(m, DeliveryFailure)
    ensures Keep(d + b + (r + f + m), OfKind(kind)) == match kind
      case DecisionSource => d
      case BindingRefusal => b
      case RunReconciliation => r
      case RunFailure => f
      case DeliveryFailure => m
  {
    KeepOfFive(d, b, r, f, m, OfKind(kind));
    KeepKind(d, DecisionSource, kind);
    KeepKind(b, BindingRefusal, kind);
    KeepKind(r, RunReconciliation, kind);
    KeepKind(f, RunFailure, kind);
    KeepKind(m, DeliveryFailure, kind);
  }

  lemma TeamListBySource(db: Database, q: Query, kind: SourceKind)
    requires q.view.TeamWork?
    ensures Keep(List(db, q), OfKind(kind)) == Source(db, q, kind)
  {
    var d, b, r, f, m := Decisions(db, q, true), RefusedBindings(db, q, true), Reconciliations(db, q, true),
      Failures(db, q, true), Deliveries(db, q, true);
    KeepTrue(d + b + (r + f + m), q);
    DecisionsKind(db, q);
    RefusedBindingsKind(db, q, true);
    RunSourcesKind(db, q);
    DeliveriesKind(db, q);
    KindOfFive(d, b, r, f, m, kind);
  }

  // ---------------------------------------------------------------------------------------------
  // Each joined row is one row

  function ManagerQuery(company: nat, visible: set<nat>, viewer: nat, asOf: int): Query {
    Query(company, visible, viewer, true, TeamWork, asOf)
  }

  function CreatedOf(row: Row): seq<int> { [row.created] }

  lemma OpenDecisionIsOneRow(db: Database, q: Query, d: Decision, whose: Responsibility, who: Option<nat>)
    requires WellFormed(db) && d in db.decisions
    ensures |OpenDecision(db, q, d, whose, who)| <= 1
    ensures q.manager ==> Collect(OpenDecision(db, q, d, whose, who), CreatedOf) == OpenedAt(db, q.company, q.visible)(d)
    ensures forall row | row in OpenDecision(db, q, d, whose, who) :: row.id == d.key.id && d.key.company == q.company
  {
    Resolves(db.waits, WaitKey, Key(d.key.company, d.wait));
    Resolves(db.runs, RunKey, Key(d.key.company, d.run));
    var w := At(db.waits, WaitKey, Key(d.key.company, d.wait))[0];
    var r := At(db.runs, RunKey, Key(d.key.company, d.run))[0];
    assert At(db.waits, WaitKey, Key(d.key.company, d.wait)) == [w];
    assert At(db.runs, RunKey, Key(d.key.company, d.run)) == [r];
    Resolves(db.versions, VersionKey, Key(r.key.company, r.version));
    var row := DecisionRow(d, w, r, whose, who);
    EachOne(At(db.versions, VersionKey, Key(r.key.company, r.version)), [row]);
    CollectOne(w, OnWait(db, q, d, whose, who));
    CollectOne(r, OnRun(db, q, d, w, whose, who));
    CollectOne(w, OpenedOnWait(db, q.visible, d));
    CollectOne(r, OpenedOnRun(q.visible, d));
    CollectOne(row, CreatedOf);
  }

  lemma OpenDecisionsAreListed(db: Database, company: nat, visible: set<nat>, viewer: nat, asOf: int)
    requires WellFormed(db)
    ensures Collect(Decisions(db, ManagerQuery(company, visible, viewer, asOf), true), CreatedOf)
         == Collect(db.decisions, OpenedAt(db, company, visible))
  {
    var q := ManagerQuery(company, visible, viewer, asOf);
    forall d | d in db.decisions
      ensures Collect(MyDecisionRows(db, q)(d) + TeamDecisionRows(db, q, true)(d), CreatedOf) == OpenedAt(db, company, visible)(d)
      ensures Collect(TeamDecisionRows(db, q, true)(d), CreatedOf) == OpenedAt(db, company, visible)(d)
    {
      assert MyDecisionRows(db, q)(d) == [];
      assert MyDecisionRows(db, q)(d) + TeamDecisionRows(db, q, true)(d) == TeamDecisionRows(db, q, true)(d);
      OpenDecisionIsOneRow(db, q, d, ToChannelTeam, None);
    }
    NothingCollected(db.decisions, MyDecisionRows(db, q));
    CollectOfCollect(db.decisions, TeamDecisionRows(db, q, true), CreatedOf, OpenedAt(db, company, visible));
    assert Decisions(db, q, true) == Collect(db.decisions, TeamDecisionRows(db, q, true));
  }

  lemma {:induction false} OneEach<A, B>(s: seq<A>, f: A -> seq<B>, p: A -> bool)
    requires forall a | a in s :: |f(a)| == if p(a) then 1 else 0
    ensures |Collect(s, f)| == Tally(s, p)
  {
    if s == [] {
    } else {
      assert s[0] in s;
      OneEach(s[1..], f, p);
    }
  }

  lemma ReconciliationsAreCounted(db: Database, company: nat, visible: set<nat>, viewer: nat, asOf: int)
    requires WellFormed(db)
    ensures |Reconciliations(db, ManagerQuery(company, visible, viewer, asOf), true)|
         == Tally(db.runs, Reconciling(company, visible))
  {
    var q := ManagerQuery(company, visible, viewer, asOf);
    forall r | r in db.runs
      ensures |ReconciliationRows(db, q, true)(r)| == if Reconciling(company, visible)(r) then 1 else 0
    {
      Resolves(db.versions, VersionKey, Key(r.key.company, r.version));
      EachOne(At(db.versions, VersionKey, Key(r.key.company, r.version)), [ReconciliationRow(r)]);
    }
    OneEach(db.runs, ReconciliationRows(db, q, true), Reconciling(company, visible));
  }

  lemma OuterOfFew<A>(matches: seq<A>)
    requires |matches| <= 1
    ensures |Outer(matches)| == 1
  {
  }

  /** A run has one actor row: its member, or nobody. */
  lemma OneActor(db: Database, company: nat, user: nat)
    requires KeysUnique(db)
    ensures |Actors(db, company, user)| == 1
  {
    AtMostOneKept(db.principals, ActorMatch(db, company, user), AccountKey, (company, Some(user), 0));
    OuterOfFew(Keep(db.principals, ActorMatch(db, company, user)));
  }

  lemma FailuresAreCounted(db: Database, company: nat, visible: set<nat>, viewer: nat, asOf: int)
    requires WellFormed(db)
    ensures |Failures(db, ManagerQuery(company, visible, viewer, asOf), true)|
         == Tally(db.runs, FailedLately(db, company, visible, asOf))
  {
    var q := ManagerQuery(company, visible, viewer, asOf);
    forall r | r in db.runs
      ensures |FailureRows(db, q, true)(r)| == if FailedLately(db, company, visible, asOf)(r) then 1 else 0
    {
      Resolves(db.versions, VersionKey, Key(r.key.company, r.version));
      OneActor(db, r.key.company, r.actor);
      var actor := Actors(db, r.key.company, r.actor)[0];
      assert Actors(db, r.key.company, r.actor) == [actor];
      CollectOne(actor, FailureFor(q, r, true));
      EachOne(At(db.versions, VersionKey, Key(r.key.company, r.version)), [FailureRow(r, actor)]);
    }
    OneEach(db.runs, FailureRows(db, q, true), FailedLately(db, company, visible, asOf));
  }

  /** A delivery's message, destination, run and actor join to one row. */
  lemma DeliveryIsOneRow(db: Database, q: Query, d: Delivery) returns (run: Option<WorkflowRun>, actor: Option<Principal>)
    requires WellFormed(db) && d in db.deliveries
    ensures DeliveryRows(db, q, true)(d) ==
      if Undelivered(q, d) && ActorFits(q, actor) then [DeliveryRow(d, run, actor)] else []
  {
    Resolves(db.messages, MessageKey, Key(d.key.company, d.message));
    AtMostOne(db.destinations, DestinationKey, d.key);
    OuterOfFew(At(db.destinations, DestinationKey, d.key));
    var target := Outer(At(db.destinations, DestinationKey, d.key))[0];
    assert Outer(At(db.destinations, DestinationKey, d.key)) == [target];
    CollectOne(target, OnDestination(db, d));
    if target.Some? {
      AtMostOne(db.runs, RunKey, Key(d.key.company, target.value.run));
      OuterOfFew(At(db.runs, RunKey, Key(d.key.company, target.value.run)));
    }
    run := DestinationRuns(db, d)[0];
    assert DestinationRuns(db, d) == [run];
    if run.Some? {
      OneActor(db, run.value.key.company, run.value.actor);
    }
    actor := RunActors(db, run)[0];
    assert RunActors(db, run) == [actor];
    CollectOne(run, OnDelivery(db, q, d, true));
    CollectOne(actor, DeliveryFor(q, d, run, true));
    EachOne(At(db.messages, MessageKey, Key(d.key.company, d.message)),
            Collect(DestinationRuns(db, d), OnDelivery(db, q, d, true)));
  }

  function IsDeadLetter(row: Row): bool { row.state == OfDelivery(DeadLetter) }
  function DeadWeight(row: Row): nat { if IsDeadLetter(row) then 1 else 0 }
  function DeadDelivery(company: nat, visible: set<nat>): Delivery -> nat {
    (d: Delivery) => if DeadLettered(company, visible)(d) then 1 else 0
  }

  lemma DeadLettersAreCounted(db: Database, company: nat, visible: set<nat>, viewer: nat, asOf: int)
    requires WellFormed(db)
    ensures Tally(Deliveries(db, ManagerQuery(company, visible, viewer, asOf), true), IsDeadLetter)
         == Tally(db.deliveries, DeadLettered(company, visible))
  {
    var q := ManagerQuery(company, visible, viewer, asOf);
    forall d | d in db.deliveries
      ensures Total(DeliveryRows(db, q, true)(d), DeadWeight) == DeadDelivery(company, visible)(d)
    {
      var run, actor := DeliveryIsOneRow(db, q, d);
      TotalOne(DeliveryRow(d, run, actor), DeadWeight);
      assert ActorFits(q, actor);
      assert DeadLettered(company, visible)(d) <==> Undelivered(q, d) && d.status.DeadLetter?;
      if Undelivered(q, d) {
        assert Total(DeliveryRows(db, q, true)(d), DeadWeight) == DeadWeight(DeliveryRow(d, run, actor));
      }
    }
    TotalOfCollect(db.deliveries, DeliveryRows(db, q, true), DeadWeight, DeadDelivery(company, visible));
    TallyIsTotal(Deliveries(db, q, true), IsDeadLetter, DeadWeight);
    TallyIsTotal(db.deliveries, DeadLettered(company, visible), DeadDelivery(company, visible));
  }

  // ---------------------------------------------------------------------------------------------
  // Refusals: grouped by binding in the list, one by one in the summary

  function RowVersion(row: Row): nat { row.version }

  /** What a binding's refusals count for: all of them when it is shown, none otherwise. */
  function GroupWeight(refusals: seq<Refusal>, weight: Refusal -> nat): nat -> nat {
    (binding: nat) => Total(At(refusals, RefusalBinding, binding), weight)
  }

  lemma {:induction false} GroupsAreTheBindings(refusals: seq<Refusal>)
    ensures forall g :: g in Groups(refusals) <==> exists i :: 0 <= i < |refusals| && refusals[i].binding == g
    ensures forall i, j | 0 <= i < j < |Groups(refusals)| :: Groups(refusals)[i] != Groups(refusals)[j]
  {
    if refusals == [] {
    } else {
      var rest := refusals[1..];
      GroupsAreTheBindings(rest);
      forall g ensures g in Groups(refusals) <==> exists i :: 0 <= i < |refusals| && refusals[i].binding == g {
        if g in Groups(rest) {
          var i :| 0 <= i < |rest| && rest[i].binding == g;
          assert refusals[i + 1].binding == g;
        }
        if g in Groups(refusals) && g !in Groups(rest) {
          assert refusals[0].binding == g;
        }
        if i :| 0 <= i < |refusals| && refusals[i].binding == g {
          if i > 0 {
            assert rest[i - 1].binding == g;
          }
        }
      }
    }
  }

  /** Adding one refusal adds its weight to its own group and to no other. */
  lemma {:induction false} OneGroupGains(groups: seq<nat>, r: Refusal, rest: seq<Refusal>, weight: Refusal -> nat)
    requires forall i, j | 0 <= i < j < |groups| :: groups[i] != groups[j]
    ensures Total(groups, GroupWeight([r] + rest, weight))
         == Total(groups, GroupWeight(rest, weight)) + (if r.binding in groups then weight(r) else 0)
  {
    if groups == [] {
    } else {
      OneGroupGains(groups[1..], r, rest, weight);
      assert ([r] + rest)[1..] == rest;
      assert r.binding == groups[0] ==> r.binding !in groups[1..];
      var own := if r.binding == groups[0] then [r] else [];
      assert At([r] + rest, RefusalBinding, groups[0]) == own + At(rest, RefusalBinding, groups[0]);
      TotalConcat(own, At(rest, RefusalBinding, groups[0]), weight);
      assert [r][1..] == [];
    }
  }

  lemma {:induction false} GroupingKeepsTheSum(refusals: seq<Refusal>, weight: Refusal -> nat)
    ensures Total(Groups(refusals), GroupWeight(refusals, weight)) == Total(refusals, weight)
  {
    if refusals == [] {
    } else {
      var r, rest := refusals[0], refusals[1..];
      assert refusals == [r] + rest;
      GroupingKeepsTheSum(rest, weight);
      GroupsAreTheBindings(rest);
      GroupsAreTheBindings(refusals);
      OneGroupGains(Groups(refusals), r, rest, weight);
      if r.binding !in Groups(rest) {
        assert Groups(refusals)[1..] == Groups(rest);
        NothingInGroup(rest, r.binding);
      }
    }
  }

  lemma {:induction false} NothingInGroup(refusals: seq<Refusal>, g: nat)
    requires forall i | 0 <= i < |refusals| :: refusals[i].binding != g
    ensures At(refusals, RefusalBinding, g) == []
  {
    if refusals != [] {
      NothingInGroup(refusals[1..], g);
    }
  }

  lemma {:induction false} SameWeightTotal(group: seq<Refusal>, weight: Refusal -> nat, each: nat)
    requires forall r | r in group :: weight(r) == each
    requires each <= 1
    ensures Total(group, weight) == if each == 1 then |group| else 0
  {
    if group == [] {
    } else {
      assert group[0] in group;
      SameWeightTotal(group[1..], weight, each);
    }
  }

  lemma OneVersion(db: Database, b: Binding)
    requires KeysUnique(db)
    ensures |BindingVersions(db, b)| == 1
  {
    AtMostOne(db.revisions, RevisionKey, (b.key, b.configuration));
    OuterOfFew(At(db.revisions, RevisionKey, (b.key, b.configuration)));
    var revision := Outer(At(db.revisions, RevisionKey, (b.key, b.configuration)))[0];
    assert Outer(At(db.revisions, RevisionKey, (b.key, b.configuration))) == [revision];
    CollectOne(revision, OnRevision(db, b));
    if revision.Some? {
      AtMostOne(db.versions, VersionKey, Key(b.key.company, revision.value.version));
      OuterOfFew(At(db.versions, VersionKey, Key(b.key.company, revision.value.version)));
    }
  }

  lemma GroupRowCountsItsRefusals(db: Database, company: nat, visible: set<nat>, viewer: nat, asOf: int, g: nat)
    requires WellFormed(db)
    ensures var q := ManagerQuery(company, visible, viewer, asOf);
      Total(RefusalRows(db, q, true)(g), RowVersion)
      == GroupWeight(Refusals(db, q), RefusalWeight(db, company, visible))(g)
  {
    var q := ManagerQuery(company, visible, viewer, asOf);
    var group := At(Refusals(db, q), RefusalBinding, g);
    var bindings := At(db.bindings, BindingKey, Key(company, g));
    AtMostOne(db.bindings, BindingKey, Key(company, g));
    forall r | r in group ensures r.binding == g {
      InAt(Refusals(db, q), RefusalBinding, g, r);
    }
    if bindings == [] {
      SameWeightTotal(group, RefusalWeight(db, company, visible), 0);
    } else {
      var b := bindings[0];
      assert bindings == [b];
      CollectOne(b, OnBinding(db, q, g));
      OneVersion(db, b);
      var row := RefusalRow(b, group);
      EachOne(BindingVersions(db, b), [row]);
      TotalOne(row, RowVersion);
      KeepOne(b, BindingShown(visible));
      SameWeightTotal(group, RefusalWeight(db, company, visible), if ForManager(visible, b.channel) then 1 else 0);
    }
  }

  /** What a refusal of the list counts for in the summary. */
  function RefusalWeight(db: Database, company: nat, visible: set<nat>): Refusal -> nat {
    (r: Refusal) => JoinedBindings(db, company, visible, r.binding)
  }

  /** What one admission or materialization counts for, in either query. */
  function IntentWeight(db: Database, q: Query): IntentBinding -> nat {
    (i: IntentBinding) =>
      if i.company == q.company && !i.admitted && i.created >= q.asOf - 7 * DAY then JoinedBindings(db, q.company, q.visible, i.binding) else 0
  }

  function ScheduleWeight(db: Database, q: Query): ScheduleRun -> nat {
    (s: ScheduleRun) =>
      if s.company == q.company && s.failed && s.created >= q.asOf - 7 * DAY then JoinedBindings(db, q.company, q.visible, s.binding) else 0
  }

  lemma SameIntents(db: Database, q: Query)
    ensures Total(Collect(db.intents, NotAdmitted(q.company, q.asOf)), BindingWeight(db, q.company, q.visible))
         == Total(Collect(db.intents, RefusedIntent(q)), RefusalWeight(db, q.company, q.visible))
  {
    var w, v := BindingWeight(db, q.company, q.visible), RefusalWeight(db, q.company, q.visible);
    forall i | i in db.intents
      ensures Total(NotAdmitted(q.company, q.asOf)(i), w) == IntentWeight(db, q)(i) == Total(RefusedIntent(q)(i), v)
    {
      TotalOne(i.binding, w);
      TotalOne(Refusal(i.binding, i.created), v);
    }
    TotalOfCollect(db.intents, NotAdmitted(q.company, q.asOf), w, IntentWeight(db, q));
    TotalOfCollect(db.intents, RefusedIntent(q), v, IntentWeight(db, q));
  }

  lemma SameSchedules(db: Database, q: Query)
    ensures Total(Collect(db.schedules, NotMaterialized(q.company, q.asOf)), BindingWeight(db, q.company, q.visible))
         == Total(Collect(db.schedules, FailedSchedule(q)), RefusalWeight(db, q.company, q.visible))
  {
    var w, v := BindingWeight(db, q.company, q.visible), RefusalWeight(db, q.company, q.visible);
    forall s | s in db.schedules
      ensures Total(NotMaterialized(q.company, q.asOf)(s), w) == ScheduleWeight(db, q)(s) == Total(FailedSchedule(q)(s), v)
    {
      TotalOne(s.binding, w);
      TotalOne(Refusal(s.binding, s.created), v);
    }
    TotalOfCollect(db.schedules, NotMaterialized(q.company, q.asOf), w, ScheduleWeight(db, q));
    TotalOfCollect(db.schedules, FailedSchedule(q), v, ScheduleWeight(db, q));
  }

  /** The two queries find the same refusals. */
  lemma SameRefusals(db: Database, q: Query)
    ensures Total(RecentlyRefused(db, q.company, q.asOf), BindingWeight(db, q.company, q.visible))
         == Total(Refusals(db, q), RefusalWeight(db, q.company, q.visible))
  {
    SameIntents(db, q);
    SameSchedules(db, q);
    TotalConcat(Collect(db.intents, NotAdmitted(q.company, q.asOf)), Collect(db.schedules, NotMaterialized(q.company, q.asOf)),
                BindingWeight(db, q.company, q.visible));
    TotalConcat(Collect(db.intents, RefusedIntent(q)), Collect(db.schedules, FailedSchedule(q)), RefusalWeight(db, q.company, q.visible));
  }

  lemma RefusalsAreCounted(db: Database, company: nat, visible: set<nat>, viewer: nat, asOf: int)
    requires WellFormed(db)
    ensures var q := ManagerQuery(company, visible, viewer, asOf);
      Total(RefusedBindings(db, q, true), RowVersion)
      == Total(RecentlyRefused(db, company, asOf), BindingWeight(db, company, visible))
  {
    var q := ManagerQuery(company, visible, viewer, asOf);
    var refusals := Refusals(db, q);
    var groups := Groups(refusals);
    var weight := RefusalWeight(db, company, visible);
    forall g | g in groups ensures Total(RefusalRows(db, q, true)(g), RowVersion) == GroupWeight(refusals, weight)(g) {
      GroupRowCountsItsRefusals(db, company, visible, viewer, asOf, g);
    }
    TotalOfCollect(groups, RefusalRows(db, q, true), RowVersion, GroupWeight(refusals, weight));
    GroupingKeepsTheSum(refusals, weight);
    SameRefusals(db, q);
  }

  // ---------------------------------------------------------------------------------------------

  lemma {:induction false} CollectCreated(rows: seq<Row>)
    ensures |Collect(rows, CreatedOf)| == |rows|
  {
    if rows != [] {
      CollectCreated(rows[1..]);
    }
  }

  function Age(times: seq<int>, asOf: int): Option<int> {
    match Earliest(times) case None => None case Some(t) => Some(asOf - t)
  }

  function Aggregates(
    decisions: seq<Row>, reconciliations: seq<Row>, failures: seq<Row>, refusals: seq<Row>, deliveries: seq<Row>,
    asOf: int): Summary
  {
    Summary(|decisions|, Age(Collect(decisions, CreatedOf), asOf), |reconciliations|, |failures|,
            Total(refusals, RowVersion), Tally(deliveries, IsDeadLetter))
  }

  /** The aggregates of a list of rows that the summary claims to be. */
  function Aggregate(rows: seq<Row>, asOf: int): Summary {
    Aggregates(Keep(rows, OfKind(DecisionSource)), Keep(rows, OfKind(RunReconciliation)),
               Keep(rows, OfKind(RunFailure)), Keep(rows, OfKind(BindingRefusal)), Keep(rows, OfKind(DeliveryFailure)),
               asOf)
  }

  function AggregateOfSources(db: Database, q: Query): Summary {
    Aggregates(Decisions(db, q, true), Reconciliations(db, q, true), Failures(db, q, true),
               RefusedBindings(db, q, true), Deliveries(db, q, true), q.asOf)
  }

  lemma AggregateBySource(db: Database, q: Query)
    requires q.view.TeamWork?
    ensures Aggregate(List(db, q), q.asOf) == AggregateOfSources(db, q)
  {
    TeamListBySource(db, q, DecisionSource);
    TeamListBySource(db, q, RunReconciliation);
    TeamListBySource(db, q, RunFailure);
    TeamListBySource(db, q, BindingRefusal);
    TeamListBySource(db, q, DeliveryFailure);
  }

  lemma SourcesAreCounted(db: Database, company: nat, visible: set<nat>, viewer: nat, asOf: int)
    requires WellFormed(db)
    ensures Summarize(db, company, visible, asOf) == AggregateOfSources(db, ManagerQuery(company, visible, viewer, asOf))
  {
    var q := ManagerQuery(company, visible, viewer, asOf);
    var summary, counted := Summarize(db, company, visible, asOf), AggregateOfSources(db, q);
    assert summary.openDecisions == counted.openDecisions && summary.oldestAge == counted.oldestAge by {
      OpenDecisionsAreListed(db, company, visible, viewer, asOf);
      CollectCreated(Decisions(db, q, true));
    }
    assert summary.reconciling == counted.reconciling by {
      ReconciliationsAreCounted(db, company, visible, viewer, asOf);
    }
    assert summary.failedRuns == counted.failedRuns by {
      FailuresAreCounted(db, company, visible, viewer, asOf);
    }
    assert summary.refusals == counted.refusals by {
      RefusalsAreCounted(db, company, visible, viewer, asOf);
    }
    assert summary.deadLetters == counted.deadLetters by {
      DeadLettersAreCounted(db, company, visible, viewer, asOf);
    }
  }

  /**
   For every database the schema admits, a manager's summary is the aggregate of the team's work
   list at the same instant: row counts of the decisions, reconciliations and failed runs, the age
   of the oldest decision row, the sum of the bindings' refusal counts, and the dead letters among
   the delivery rows.
   */
  lemma SummaryCountsWhatTeamWorkLists(db: Database, company: nat, visible: set<nat>, viewer: nat, asOf: int)
    requires WellFormed(db)
    ensures Summarize(db, company, visible, asOf)
         == Aggregate(List(db, ManagerQuery(company, visible, viewer, asOf)), asOf)
  {
    AggregateBySource(db, ManagerQuery(company, visible, viewer, asOf));
    SourcesAreCounted(db, company, visible, viewer, asOf);
  }
}
