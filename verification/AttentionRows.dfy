/** Which rows the work list holds, said of the tables alone. */
module AttentionRows {
  import opened Rows
  import opened Attention
  import opened AttentionSummary

  /** A readable channel, or the company's own row for a manager. */
  predicate Sees(q: Query, channel: Option<nat>) {
    if channel.Some? then channel.value in q.visible else q.manager
  }

  // ---------------------------------------------------------------------------------------------
  // Membership in joins

  lemma InJoin<A, B>(s: seq<A>, f: A -> seq<B>, a: A, b: B)
    requires a in s && b in f(a)
    ensures b in Collect(s, f)
  {
    var i :| 0 <= i < |s| && s[i] == a;
    assert b in f(s[i]);
    InCollect(s, f, b);
  }

  lemma OfJoin<A, B>(s: seq<A>, f: A -> seq<B>, b: B) returns (a: A)
    requires b in Collect(s, f)
    ensures a in s && b in f(a)
  {
    InCollect(s, f, b);
    var i :| 0 <= i < |s| && b in f(s[i]);
    a := s[i];
  }

  lemma {:induction false} InEachOf<A, B>(matches: seq<A>, rows: seq<B>, b: B)
    ensures b in Each(matches, rows) <==> matches != [] && b in rows
  {
    if matches != [] {
      InEachOf(matches[1..], rows, b);
    }
  }

  // ---------------------------------------------------------------------------------------------
  // Decisions

  /** An open, waiting decision on a run the viewer sees. */
  ghost predicate IsOpen(db: Database, q: Query, d: Decision, w: Wait, r: WorkflowRun) {
    && d in db.decisions && w in db.waits && r in db.runs
    && d.key.company == q.company && !d.submitted
    && w.key == Key(q.company, d.wait) && w.waiting
    && r.key == Key(q.company, d.run) && Sees(q, r.channel)
  }

  /** The viewer, a person of the company, is named a reviewer of the decision. */
  ghost predicate Reviews(db: Database, q: Query, d: Decision, rv: Reviewer, p: Principal) {
    && rv in db.reviewers && p in db.principals
    && rv.company == q.company && rv.decision == d.key.id && rv.principal == q.viewer
    && p.key == Key(q.company, q.viewer) && p.kind == Person && p.user == Some(rv.user)
  }

  ghost predicate IsDecisionRow(db: Database, q: Query, row: Row, d: Decision, w: Wait, r: WorkflowRun, whose: Responsibility, who: Option<nat>) {
    && IsOpen(db, q, d, w, r)
    && row == Row(DecisionSource, d.key.id, q.company, r.channel, Some(d.run), Open, who, whose, Normal, w.deadline, d.revision, d.created)
  }

  ghost predicate IsReviewed(db: Database, q: Query, d: Decision) {
    exists rv, p :: Reviews(db, q, d, rv, p)
  }

  /** The decision rows of each view. */
  ghost predicate DecisionListed(db: Database, q: Query, row: Row) {
    match q.view
    case MyWork => exists d, w, r :: IsDecisionRow(db, q, row, d, w, r, ToPrincipal, Some(q.viewer)) && IsReviewed(db, q, d)
    case TeamWork => exists d, w, r :: IsDecisionRow(db, q, row, d, w, r, ToChannelTeam, None)
    case Unassigned => false
  }

  lemma OpenDecisionHas(db: Database, q: Query, d: Decision, whose: Responsibility, who: Option<nat>, row: Row) returns (w: Wait, r: WorkflowRun)
    requires d in db.decisions && row in OpenDecision(db, q, d, whose, who)
    ensures IsDecisionRow(db, q, row, d, w, r, whose, who)
  {
    var waits := At(db.waits, WaitKey, Key(d.key.company, d.wait));
    w := OfJoin(waits, OnWait(db, q, d, whose, who), row);
    InAt(db.waits, WaitKey, Key(d.key.company, d.wait), w);
    var runs := At(db.runs, RunKey, Key(d.key.company, d.run));
    r := OfJoin(runs, OnRun(db, q, d, w, whose, who), row);
    InAt(db.runs, RunKey, Key(d.key.company, d.run), r);
    InEachOf(At(db.versions, VersionKey, Key(r.key.company, r.version)), [DecisionRow(d, w, r, whose, who)], row);
  }

  lemma OpenDecisionHolds(db: Database, q: Query, d: Decision, w: Wait, r: WorkflowRun, whose: Responsibility, who: Option<nat>, row: Row)
    requires WellFormed(db) && IsDecisionRow(db, q, row, d, w, r, whose, who)
    ensures row in OpenDecision(db, q, d, whose, who)
  {
    Resolves(db.versions, VersionKey, Key(r.key.company, r.version));
    InEachOf(At(db.versions, VersionKey, Key(r.key.company, r.version)), [DecisionRow(d, w, r, whose, who)], row);
    assert row in OnRun(db, q, d, w, whose, who)(r);
    InAt(db.runs, RunKey, Key(d.key.company, d.run), r);
    InJoin(At(db.runs, RunKey, Key(d.key.company, d.run)), OnRun(db, q, d, w, whose, who), r, row);
    assert row in OnWait(db, q, d, whose, who)(w);
    InAt(db.waits, WaitKey, Key(d.key.company, d.wait), w);
    InJoin(At(db.waits, WaitKey, Key(d.key.company, d.wait)), OnWait(db, q, d, whose, who), w, row);
  }

  lemma MyDecisionHas(db: Database, q: Query, d: Decision, row: Row)
    requires d in db.decisions && row in MyDecisionRows(db, q)(d)
    ensures q.view.MyWork? && row in OpenDecision(db, q, d, ToPrincipal, Some(q.viewer)) && IsReviewed(db, q, d)
  {
    var reviews := Keep(db.reviewers, ReviewMatch(q, d));
    var rv := OfJoin(reviews, OnReview(db, q, d), row);
    InKeep(db.reviewers, ReviewMatch(q, d), rv);
    var viewers := Keep(db.principals, ViewerMatch(q, rv));
    InEachOf(viewers, OpenDecision(db, q, d, ToPrincipal, Some(q.viewer)), row);
    var p := viewers[0];
    InKeep(db.principals, ViewerMatch(q, rv), p);
    var w, r := OpenDecisionHas(db, q, d, ToPrincipal, Some(q.viewer), row);
    assert Reviews(db, q, d, rv, p);
  }

  lemma MyDecisionHolds(db: Database, q: Query, d: Decision, row: Row)
    requires d in db.decisions && d.key.company == q.company && q.view.MyWork?
    requires row in OpenDecision(db, q, d, ToPrincipal, Some(q.viewer)) && IsReviewed(db, q, d)
    ensures row in MyDecisionRows(db, q)(d)
  {
    var rv, p :| Reviews(db, q, d, rv, p);
    InKeep(db.principals, ViewerMatch(q, rv), p);
    InEachOf(Keep(db.principals, ViewerMatch(q, rv)), OpenDecision(db, q, d, ToPrincipal, Some(q.viewer)), row);
    assert row in OnReview(db, q, d)(rv);
    InKeep(db.reviewers, ReviewMatch(q, d), rv);
    InJoin(Keep(db.reviewers, ReviewMatch(q, d)), OnReview(db, q, d), rv, row);
  }

  lemma DecisionsAreListed(db: Database, q: Query, row: Row)
    requires WellFormed(db)
    ensures row in Decisions(db, q, true) <==> DecisionListed(db, q, row)
  {
    if row in Collect(db.decisions, MyDecisionRows(db, q)) {
      var d := OfJoin(db.decisions, MyDecisionRows(db, q), row);
      MyDecisionHas(db, q, d, row);
      var w, r := OpenDecisionHas(db, q, d, ToPrincipal, Some(q.viewer), row);
    }
    if row in Collect(db.decisions, TeamDecisionRows(db, q, true)) {
      var d := OfJoin(db.decisions, TeamDecisionRows(db, q, true), row);
      var w, r := OpenDecisionHas(db, q, d, ToChannelTeam, None, row);
    }
    if DecisionListed(db, q, row) {
      DecisionListedHolds(db, q, row);
    }
  }

  lemma DecisionListedHolds(db: Database, q: Query, row: Row)
    requires WellFormed(db) && DecisionListed(db, q, row)
    ensures row in Decisions(db, q, true)
  {
    if q.view.MyWork? {
      var d, w, r :| IsDecisionRow(db, q, row, d, w, r, ToPrincipal, Some(q.viewer)) && IsReviewed(db, q, d);
      OpenDecisionHolds(db, q, d, w, r, ToPrincipal, Some(q.viewer), row);
      MyDecisionHolds(db, q, d, row);
      InJoin(db.decisions, MyDecisionRows(db, q), d, row);
    } else {
      var d, w, r :| IsDecisionRow(db, q, row, d, w, r, ToChannelTeam, None);
      OpenDecisionHolds(db, q, d, w, r, ToChannelTeam, None, row);
      assert row in TeamDecisionRows(db, q, true)(d);
      InJoin(db.decisions, TeamDecisionRows(db, q, true), d, row);
    }
  }

  // ---------------------------------------------------------------------------------------------
  // Runs

  ghost predicate IsReconciling(db: Database, q: Query, row: Row, r: WorkflowRun) {
    && r in db.runs && r.key.company == q.company && r.state == WaitingState && r.reconciling && Sees(q, r.channel)
    && row == Row(RunReconciliation, r.key.id, q.company, r.channel, Some(r.key.id), OfRun(WaitingState), None, ToChannelTeam, Normal,
                  r.deadline, r.revision, r.created)
  }

  ghost predicate ReconciliationListed(db: Database, q: Query, row: Row) {
    !q.view.MyWork? && exists r :: IsReconciling(db, q, row, r)
  }

  lemma ReconciliationsAreListed(db: Database, q: Query, row: Row)
    requires WellFormed(db)
    ensures row in Reconciliations(db, q, true) <==> ReconciliationListed(db, q, row)
  {
    if row in Reconciliations(db, q, true) {
      var r := OfJoin(db.runs, ReconciliationRows(db, q, true), row);
      InEachOf(At(db.versions, VersionKey, Key(r.key.company, r.version)), [ReconciliationRow(r)], row);
      assert IsReconciling(db, q, row, r);
    }
    if ReconciliationListed(db, q, row) {
      var r :| IsReconciling(db, q, row, r);
      Resolves(db.versions, VersionKey, Key(r.key.company, r.version));
      InEachOf(At(db.versions, VersionKey, Key(r.key.company, r.version)), [ReconciliationRow(r)], row);
      assert row in ReconciliationRows(db, q, true)(r);
      InJoin(db.runs, ReconciliationRows(db, q, true), r, row);
    }
  }

  /** A person of the company with this account, which is still a member. */
  ghost predicate IsActor(db: Database, company: nat, user: nat, p: Principal) {
    p in db.principals && p.key.company == company && p.kind == Person && p.user == Some(user) && Member(company, user) in db.members
  }

  /** Whose a run's work is: its actor's while they are a member, otherwise nobody's. */
  ghost predicate ActedBy(db: Database, company: nat, user: nat, who: Option<nat>) {
    match who
    case Some(id) => exists p :: IsActor(db, company, user, p) && p.key.id == id
    case None => forall p :: !IsActor(db, company, user, p)
  }

  /** What each view keeps of work that is someone's or nobody's. */
  predicate Fits(q: Query, who: Option<nat>) {
    match q.view
    case TeamWork => true
    case MyWork => who == Some(q.viewer)
    case Unassigned => who == None
  }

  function Bearer(who: Option<nat>): Responsibility {
    if who.Some? then ToPrincipal else ToChannelTeam
  }

  lemma ActorsAre(db: Database, company: nat, user: nat) returns (actor: Option<Principal>)
    requires WellFormed(db)
    ensures Actors(db, company, user) == [actor]
    ensures actor.Some? ==> IsActor(db, company, user, actor.value)
    ensures forall p | IsActor(db, company, user, p) :: actor == Some(p)
  {
    OneActor(db, company, user);
    actor := Actors(db, company, user)[0];
    var kept := Keep(db.principals, ActorMatch(db, company, user));
    AtMostOneKept(db.principals, ActorMatch(db, company, user), AccountKey, (company, Some(user), 0));
    forall p ensures p in kept <==> IsActor(db, company, user, p) {
      InKeep(db.principals, ActorMatch(db, company, user), p);
    }
    if kept != [] {
      assert kept[0] in kept && actor == Some(kept[0]);
    }
  }

  lemma WhoActs(db: Database, company: nat, user: nat, actor: Option<Principal>, who: Option<nat>)
    requires actor.Some? ==> IsActor(db, company, user, actor.value)
    requires forall p | IsActor(db, company, user, p) :: actor == Some(p)
    ensures ActedBy(db, company, user, who) <==> who == IdOf(actor)
  {
  }

  ghost predicate IsFailure(db: Database, q: Query, row: Row, r: WorkflowRun, who: Option<nat>) {
    && r in db.runs && r.key.company == q.company && r.state == Failed && r.created >= q.asOf - 604_800_000_000 && Sees(q, r.channel)
    && (forall other | other in db.runs && other.key.company == q.company :: other.rerunOf != Some(r.key.id))
    && ActedBy(db, q.company, r.actor, who) && Fits(q, who)
    && row == Row(RunFailure, r.key.id, q.company, r.channel, Some(r.key.id), OfRun(Failed), who, Bearer(who), Normal, None, r.revision, r.created)
  }

  ghost predicate FailureListed(db: Database, q: Query, row: Row) {
    exists r, who :: IsFailure(db, q, row, r, who)
  }

  lemma NoRerun(db: Database, r: WorkflowRun)
    ensures Rerun(db, r) <==> exists other :: other in db.runs && other.key.company == r.key.company && other.rerunOf == Some(r.key.id)
  {
  }

  lemma FailureRowIs(db: Database, q: Query, r: WorkflowRun, row: Row)
    requires WellFormed(db) && r in db.runs
    ensures row in FailureRows(db, q, true)(r) <==> exists who :: IsFailure(db, q, row, r, who)
  {
    var actor := ActorsAre(db, r.key.company, r.actor);
    var versions := At(db.versions, VersionKey, Key(r.key.company, r.version));
    Resolves(db.versions, VersionKey, Key(r.key.company, r.version));
    CollectOne(actor, FailureFor(q, r, true));
    EachOne(versions, FailureFor(q, r, true)(actor));
    NoRerun(db, r);
    forall who ensures ActedBy(db, r.key.company, r.actor, who) <==> who == IdOf(actor) {
      WhoActs(db, r.key.company, r.actor, actor, who);
    }
    if row in FailureRows(db, q, true)(r) {
      assert IsFailure(db, q, row, r, IdOf(actor));
    }
  }

  lemma FailuresAreListed(db: Database, q: Query, row: Row)
    requires WellFormed(db)
    ensures row in Failures(db, q, true) <==> FailureListed(db, q, row)
  {
    if row in Failures(db, q, true) {
      var r := OfJoin(db.runs, FailureRows(db, q, true), row);
      FailureRowIs(db, q, r, row);
    }
    if FailureListed(db, q, row) {
      var r, who :| IsFailure(db, q, row, r, who);
      FailureRowIs(db, q, r, row);
      InJoin(db.runs, FailureRows(db, q, true), r, row);
    }
  }

  // ---------------------------------------------------------------------------------------------
  // Deliveries

  ghost predicate IsSentFor(db: Database, d: Delivery, t: Destination, r: WorkflowRun) {
    t in db.destinations && r in db.runs && t.delivery == d.key && r.key == Key(d.key.company, t.run)
  }

  /** The run a delivery was sent for, if it was sent for one. */
  ghost predicate SentFor(db: Database, d: Delivery, run: Option<WorkflowRun>) {
    match run
    case Some(r) => exists t :: IsSentFor(db, d, t, r)
    case None => forall t, r :: !IsSentFor(db, d, t, r)
  }

  /** Whose a delivery is: its run's actor's, and the team's when it was sent for no run. */
  ghost predicate ActsFor(db: Database, run: Option<WorkflowRun>, who: Option<nat>) {
    if run.Some? then ActedBy(db, run.value.key.company, run.value.actor, who) else who == None
  }

  ghost predicate IsUndelivered(db: Database, q: Query, row: Row, d: Delivery, run: Option<WorkflowRun>, who: Option<nat>) {
    && d in db.deliveries && d.key.company == q.company && d.channel.Some? && d.channel.value in q.visible
    && (d.status == OutcomeUnknown || d.status == DeadLetter) && !d.superseded
    && SentFor(db, d, run)
    && ActsFor(db, run, who) && Fits(q, who)
    && row == Row(DeliveryFailure, d.key.id, q.company, d.channel, if run.Some? then Some(run.value.key.id) else None, OfDelivery(d.status),
                  who, Bearer(who), Normal, None, if d.attempts > 1 then d.attempts else 1, d.created)
  }

  ghost predicate DeliveryListed(db: Database, q: Query, row: Row) {
    exists d, run, who :: IsUndelivered(db, q, row, d, run, who)
  }

  lemma DestinationIs(db: Database, d: Delivery) returns (run: Option<WorkflowRun>)
    requires WellFormed(db)
    ensures DestinationRuns(db, d) == [run]
    ensures forall other :: SentFor(db, d, other) <==> other == run
  {
    var targets := At(db.destinations, DestinationKey, d.key);
    AtMostOne(db.destinations, DestinationKey, d.key);
    OuterOfFew(targets);
    var target := Outer(targets)[0];
    assert Outer(targets) == [target];
    CollectOne(target, OnDestination(db, d));
    forall t ensures t in targets <==> t in db.destinations && t.delivery == d.key {
      InAt(db.destinations, DestinationKey, d.key, t);
    }
    if target.None? {
      run := None;
    } else {
      assert target.value == targets[0] && targets[0] in targets;
      run := TargetIs(db, d, target.value);
    }
    forall other ensures SentFor(db, d, other) <==> other == run {
      OnlyTarget(db, d, targets, run, other);
    }
  }

  lemma TargetIs(db: Database, d: Delivery, t: Destination) returns (run: Option<WorkflowRun>)
    requires WellFormed(db)
    ensures OnDestination(db, d)(Some(t)) == [run]
    ensures forall r :: (r in db.runs && r.key == Key(d.key.company, t.run)) <==> run == Some(r)
  {
    var runs := At(db.runs, RunKey, Key(d.key.company, t.run));
    AtMostOne(db.runs, RunKey, Key(d.key.company, t.run));
    OuterOfFew(runs);
    run := Outer(runs)[0];
    forall r ensures r in runs <==> r in db.runs && r.key == Key(d.key.company, t.run) {
      InAt(db.runs, RunKey, Key(d.key.company, t.run), r);
    }
  }

  lemma OnlyTarget(db: Database, d: Delivery, targets: seq<Destination>, run: Option<WorkflowRun>, other: Option<WorkflowRun>)
    requires |targets| <= 1 && forall t :: t in targets <==> t in db.destinations && t.delivery == d.key
    requires targets == [] ==> run == None
    requires targets != [] ==> forall r :: (r in db.runs && r.key == Key(d.key.company, targets[0].run)) <==> run == Some(r)
    ensures SentFor(db, d, other) <==> other == run
  {
    if run.Some? {
      assert IsSentFor(db, d, targets[0], run.value);
    }
    forall t, r | IsSentFor(db, d, t, r) ensures run == Some(r) {
      assert t in targets && t == targets[0];
    }
  }

  lemma RunActorIs(db: Database, run: Option<WorkflowRun>) returns (actor: Option<Principal>)
    requires WellFormed(db)
    ensures RunActors(db, run) == [actor]
    ensures forall who :: ActsFor(db, run, who) <==> who == IdOf(actor)
  {
    if run.Some? {
      actor := ActorsAre(db, run.value.key.company, run.value.actor);
      forall who ensures ActsFor(db, run, who) <==> who == IdOf(actor) {
        WhoActs(db, run.value.key.company, run.value.actor, actor, who);
      }
    } else {
      actor := None;
    }
  }

  lemma DeliveryRowsAre(db: Database, q: Query, d: Delivery) returns (run: Option<WorkflowRun>, actor: Option<Principal>)
    requires WellFormed(db) && d in db.deliveries
    ensures DeliveryRows(db, q, true)(d) == if Undelivered(q, d) && ActorFits(q, actor) then [DeliveryRow(d, run, actor)] else []
    ensures forall other :: SentFor(db, d, other) <==> other == run
    ensures forall who :: ActsFor(db, run, who) <==> who == IdOf(actor)
  {
    run := DestinationIs(db, d);
    actor := RunActorIs(db, run);
    Resolves(db.messages, MessageKey, Key(d.key.company, d.message));
    EachOne(At(db.messages, MessageKey, Key(d.key.company, d.message)), Collect(DestinationRuns(db, d), OnDelivery(db, q, d, true)));
    CollectOne(run, OnDelivery(db, q, d, true));
    CollectOne(actor, DeliveryFor(q, d, run, true));
  }

  lemma DeliveryRowIs(db: Database, q: Query, d: Delivery, row: Row)
    requires WellFormed(db) && d in db.deliveries
    ensures row in DeliveryRows(db, q, true)(d) <==> exists run, who :: IsUndelivered(db, q, row, d, run, who)
  {
    var run, actor := DeliveryRowsAre(db, q, d);
    assert SentFor(db, d, run) && ActsFor(db, run, IdOf(actor));
    assert ActorFits(q, actor) <==> Fits(q, IdOf(actor));
    if row in DeliveryRows(db, q, true)(d) {
      assert IsUndelivered(db, q, row, d, run, IdOf(actor));
    }
    if r, who :| IsUndelivered(db, q, row, d, r, who) {
      assert r == run && who == IdOf(actor);
    }
  }

  lemma DeliveriesAreListed(db: Database, q: Query, row: Row)
    requires WellFormed(db)
    ensures row in Deliveries(db, q, true) <==> DeliveryListed(db, q, row)
  {
    if row in Deliveries(db, q, true) {
      var d := OfJoin(db.deliveries, DeliveryRows(db, q, true), row);
      DeliveryRowIs(db, q, d, row);
    }
    if DeliveryListed(db, q, row) {
      var d, run, who :| IsUndelivered(db, q, row, d, run, who);
      DeliveryRowIs(db, q, d, row);
      InJoin(db.deliveries, DeliveryRows(db, q, true), d, row);
    }
  }

  // ---------------------------------------------------------------------------------------------
  // Refusals

  function RefusedOn(q: Query, b: Binding): IntentBinding -> bool {
    (i: IntentBinding) => i.company == q.company && i.binding == b.key.id && !i.admitted && i.created >= q.asOf - 604_800_000_000
  }

  function FailedOn(q: Query, b: Binding): ScheduleRun -> bool {
    (s: ScheduleRun) => s.company == q.company && s.binding == b.key.id && s.failed && s.created >= q.asOf - 604_800_000_000
  }

  /** When a binding was refused: an admission that was not admitted, or a materialization that failed, of the last seven days. */
  ghost predicate RefusedAt(db: Database, q: Query, b: Binding, at: int) {
    || (exists i :: i in db.intents && RefusedOn(q, b)(i) && i.created == at)
    || (exists s :: s in db.schedules && FailedOn(q, b)(s) && s.created == at)
  }

  ghost predicate IsRefused(db: Database, q: Query, row: Row, b: Binding) {
    && b in db.bindings && b.key.company == q.company && Sees(q, b.channel)
    && row.version == Tally(db.intents, RefusedOn(q, b)) + Tally(db.schedules, FailedOn(q, b))
    && RefusedAt(db, q, b, row.created) && (forall at | RefusedAt(db, q, b, at) :: at <= row.created)
    && row == Row(BindingRefusal, b.key.id, q.company, b.channel, None, Refused, None, ToChannelTeam, Normal, None, row.version, row.created)
  }

  ghost predicate RefusalListed(db: Database, q: Query, row: Row) {
    q.view.TeamWork? && exists b :: IsRefused(db, q, row, b)
  }

  /** The refusals of one binding, as the list groups them. */
  function GroupOf(db: Database, q: Query, b: Binding): seq<Refusal> {
    At(Refusals(db, q), RefusalBinding, b.key.id)
  }

  lemma {:induction false} AtConcat(s: seq<Refusal>, t: seq<Refusal>, g: nat)
    ensures At(s + t, RefusalBinding, g) == At(s, RefusalBinding, g) + At(t, RefusalBinding, g)
  {
    if s == [] {
      assert s + t == t;
    } else {
      var first, rest, more := if s[0].binding == g then [s[0]] else [], At(s[1..], RefusalBinding, g), At(t, RefusalBinding, g);
      assert (s + t)[1..] == s[1..] + t;
      assert At(s + t, RefusalBinding, g) == first + (rest + more) by {
        AtConcat(s[1..], t, g);
      }
      assert At(s, RefusalBinding, g) == first + rest;
      assert first + (rest + more) == (first + rest) + more;
    }
  }

  lemma {:induction false} IntentsOfGroup(intents: seq<IntentBinding>, q: Query, b: Binding)
    ensures |At(Collect(intents, RefusedIntent(q)), RefusalBinding, b.key.id)| == Tally(intents, RefusedOn(q, b))
  {
    if intents != [] {
      IntentsOfGroup(intents[1..], q, b);
      AtConcat(RefusedIntent(q)(intents[0]), Collect(intents[1..], RefusedIntent(q)), b.key.id);
      AtOne(Refusal(intents[0].binding, intents[0].created), b.key.id);
    }
  }

  lemma {:induction false} SchedulesOfGroup(schedules: seq<ScheduleRun>, q: Query, b: Binding)
    ensures |At(Collect(schedules, FailedSchedule(q)), RefusalBinding, b.key.id)| == Tally(schedules, FailedOn(q, b))
  {
    if schedules != [] {
      SchedulesOfGroup(schedules[1..], q, b);
      AtConcat(FailedSchedule(q)(schedules[0]), Collect(schedules[1..], FailedSchedule(q)), b.key.id);
      AtOne(Refusal(schedules[0].binding, schedules[0].created), b.key.id);
    }
  }

  lemma AtOne(r: Refusal, g: nat)
    ensures |At([r], RefusalBinding, g)| == if r.binding == g then 1 else 0
    ensures At([], RefusalBinding, g) == []
  {
    assert [r][1..] == [];
  }

  lemma GroupSize(db: Database, q: Query, b: Binding)
    ensures |GroupOf(db, q, b)| == Tally(db.intents, RefusedOn(q, b)) + Tally(db.schedules, FailedOn(q, b))
  {
    AtConcat(Collect(db.intents, RefusedIntent(q)), Collect(db.schedules, FailedSchedule(q)), b.key.id);
    IntentsOfGroup(db.intents, q, b);
    SchedulesOfGroup(db.schedules, q, b);
  }

  lemma InGroup(db: Database, q: Query, b: Binding, r: Refusal)
    requires r in GroupOf(db, q, b)
    ensures RefusedAt(db, q, b, r.created)
  {
    InAt(Refusals(db, q), RefusalBinding, b.key.id, r);
    if r in Collect(db.intents, RefusedIntent(q)) {
      var i := OfJoin(db.intents, RefusedIntent(q), r);
      assert RefusedOn(q, b)(i);
    } else {
      var s := OfJoin(db.schedules, FailedSchedule(q), r);
      assert FailedOn(q, b)(s);
    }
  }

  lemma GroupHas(db: Database, q: Query, b: Binding, at: int)
    requires RefusedAt(db, q, b, at)
    ensures Refusal(b.key.id, at) in GroupOf(db, q, b)
  {
    var r := Refusal(b.key.id, at);
    if i :| i in db.intents && RefusedOn(q, b)(i) && i.created == at {
      assert r in RefusedIntent(q)(i);
      InJoin(db.intents, RefusedIntent(q), i, r);
    } else {
      var s :| s in db.schedules && FailedOn(q, b)(s) && s.created == at;
      assert r in FailedSchedule(q)(s);
      InJoin(db.schedules, FailedSchedule(q), s, r);
    }
    InAt(Refusals(db, q), RefusalBinding, b.key.id, r);
  }

  lemma {:induction false} LatestIsTheGreatest(group: seq<Refusal>)
    requires group != []
    ensures (exists r :: r in group && r.created == Latest(group)) && forall r | r in group :: r.created <= Latest(group)
  {
    if |group| == 1 {
      assert group[0] in group;
    } else {
      var rest := group[1..];
      LatestIsTheGreatest(rest);
      var r :| r in rest && r.created == Latest(rest);
      assert r in group && group[0] in group && group == [group[0]] + rest;
    }
  }

  /** The row that a binding's group makes is the one the tables describe. */
  lemma GroupRowIs(db: Database, q: Query, b: Binding, row: Row)
    requires b in db.bindings && b.key.company == q.company && Sees(q, b.channel)
    ensures GroupOf(db, q, b) != [] && row == RefusalRow(b, GroupOf(db, q, b)) <==> IsRefused(db, q, row, b)
  {
    var group := GroupOf(db, q, b);
    GroupSize(db, q, b);
    if group != [] {
      LatestIsTheGreatest(group);
      var r :| r in group && r.created == Latest(group);
      InGroup(db, q, b, r);
      forall at | RefusedAt(db, q, b, at) ensures at <= Latest(group) {
        GroupHas(db, q, b, at);
      }
    }
    if IsRefused(db, q, row, b) {
      GroupHas(db, q, b, row.created);
    }
  }

  lemma RefusalRowHas(db: Database, q: Query, g: nat, row: Row) returns (b: Binding)
    requires row in RefusalRows(db, q, true)(g) && g in Groups(Refusals(db, q))
    ensures q.view.TeamWork? && IsRefused(db, q, row, b)
  {
    b := OfJoin(At(db.bindings, BindingKey, Key(q.company, g)), OnBinding(db, q, g), row);
    InAt(db.bindings, BindingKey, Key(q.company, g), b);
    InEachOf(BindingVersions(db, b), [RefusalRow(b, GroupOf(db, q, b))], row);
    GroupsAreTheBindings(Refusals(db, q));
    var i :| 0 <= i < |Refusals(db, q)| && Refusals(db, q)[i].binding == g;
    InAt(Refusals(db, q), RefusalBinding, g, Refusals(db, q)[i]);
    GroupRowIs(db, q, b, row);
  }

  lemma RefusalRowHolds(db: Database, q: Query, row: Row, b: Binding)
    requires WellFormed(db) && q.view.TeamWork? && IsRefused(db, q, row, b)
    ensures row in RefusedBindings(db, q, true)
  {
    var g := b.key.id;
    GroupRowIs(db, q, b, row);
    OneVersion(db, b);
    InEachOf(BindingVersions(db, b), [RefusalRow(b, GroupOf(db, q, b))], row);
    assert row in OnBinding(db, q, g)(b);
    InAt(db.bindings, BindingKey, Key(q.company, g), b);
    InJoin(At(db.bindings, BindingKey, Key(q.company, g)), OnBinding(db, q, g), b, row);
    var r := GroupOf(db, q, b)[0];
    assert r in GroupOf(db, q, b);
    InAt(Refusals(db, q), RefusalBinding, g, r);
    var i :| 0 <= i < |Refusals(db, q)| && Refusals(db, q)[i] == r;
    GroupsAreTheBindings(Refusals(db, q));
    assert row in RefusalRows(db, q, true)(g);
    InJoin(Groups(Refusals(db, q)), RefusalRows(db, q, true), g, row);
  }

  lemma RefusalsAreListed(db: Database, q: Query, row: Row)
    requires WellFormed(db)
    ensures row in RefusedBindings(db, q, true) <==> RefusalListed(db, q, row)
  {
    if row in RefusedBindings(db, q, true) {
      var g := OfJoin(Groups(Refusals(db, q)), RefusalRows(db, q, true), row);
      var b := RefusalRowHas(db, q, g, row);
    }
    if RefusalListed(db, q, row) {
      var b :| IsRefused(db, q, row, b);
      RefusalRowHolds(db, q, row, b);
    }
  }

  // ---------------------------------------------------------------------------------------------
  // The list

  /** What the tables say the list of a view holds. */
  ghost predicate Listed(db: Database, q: Query, row: Row) {
    match row.kind
    case DecisionSource => DecisionListed(db, q, row)
    case BindingRefusal => RefusalListed(db, q, row)
    case RunReconciliation => ReconciliationListed(db, q, row)
    case RunFailure => FailureListed(db, q, row)
    case DeliveryFailure => DeliveryListed(db, q, row)
  }

  lemma ListedIsRanked(db: Database, q: Query, row: Row)
    requires Listed(db, q, row)
    ensures Ranked(q)(row)
  {
  }

  /** For every database the schema admits, every viewer and every view, a row is in the list exactly when the tables say so. */
  lemma ListHoldsExactly(db: Database, q: Query, row: Row)
    requires WellFormed(db)
    ensures row in List(db, q) <==> Listed(db, q, row)
  {
    DecisionsAreListed(db, q, row);
    RefusalsAreListed(db, q, row);
    ReconciliationsAreListed(db, q, row);
    FailuresAreListed(db, q, row);
    DeliveriesAreListed(db, q, row);
    var d, b, r, f, m := Decisions(db, q, true), RefusedBindings(db, q, true), Reconciliations(db, q, true),
      Failures(db, q, true), Deliveries(db, q, true);
    InKeep(d + b + (r + f + m), Ranked(q), row);
    if Listed(db, q, row) {
      ListedIsRanked(db, q, row);
    }
  }
}
