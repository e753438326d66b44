/**
 The work list and the operational summary, as queries over the tables they read.

 Times are microseconds. A nullable column is an `Option`. Titles, labels, thread and correlation
 identifiers are left out: no filter, rank or count reads them.
 */
module Attention {
  import opened Rows

  const DAY := 86_400_000_000

  datatype Key = Key(company: nat, id: nat)

  datatype RunState = Running | WaitingState | Failed | OtherRunState
  datatype DeliveryStatus = OutcomeUnknown | DeadLetter | OtherStatus
  datatype PrincipalKind = Person | Agent | ExternalActor | System

  datatype Decision = Decision(key: Key, run: nat, wait: nat, submitted: bool, created: int, revision: nat)
  datatype Reviewer = Reviewer(company: nat, decision: nat, user: nat, principal: nat)
  datatype Wait = Wait(key: Key, waiting: bool, deadline: Option<int>)
  datatype WorkflowRun = WorkflowRun(
    key: Key, version: nat, channel: Option<nat>, state: RunState, reconciling: bool,
    deadline: Option<int>, revision: nat, created: int, actor: nat, rerunOf: Option<nat>)
  datatype Version = Version(key: Key)
  datatype Principal = Principal(key: Key, kind: PrincipalKind, user: Option<nat>)
  datatype Member = Member(company: nat, user: nat)
  datatype IntentBinding = IntentBinding(company: nat, binding: nat, admitted: bool, created: int)
  datatype ScheduleRun = ScheduleRun(company: nat, binding: nat, failed: bool, created: int)
  datatype Binding = Binding(key: Key, channel: Option<nat>, configuration: nat)
  datatype BindingRevision = BindingRevision(binding: Key, revision: nat, version: nat)
  datatype Delivery = Delivery(
    key: Key, message: nat, channel: Option<nat>, status: DeliveryStatus, superseded: bool,
    attempts: nat, created: int, updated: int)
  datatype Message = Message(key: Key)
  datatype Destination = Destination(delivery: Key, run: nat)

  datatype Database = Database(
    decisions: seq<Decision>, reviewers: seq<Reviewer>, waits: seq<Wait>, runs: seq<WorkflowRun>,
    versions: seq<Version>, principals: seq<Principal>, members: seq<Member>,
    intents: seq<IntentBinding>, schedules: seq<ScheduleRun>, bindings: seq<Binding>,
    revisions: seq<BindingRevision>, deliveries: seq<Delivery>, messages: seq<Message>,
    destinations: seq<Destination>)

  datatype View = MyWork | Unassigned | TeamWork

  /** One reading of the list: whose, of which company, through which channels, at what instant. */
  datatype Query = Query(
    company: nat, visible: set<nat>, viewer: nat, manager: bool, view: View, asOf: int)

  datatype SourceKind = DecisionSource | RunReconciliation | RunFailure | BindingRefusal | DeliveryFailure
  datatype Responsibility = ToPrincipal | ToChannelTeam | ToExternal
  datatype Priority = Normal | High | Urgent
  datatype RowState = Open | OfRun(run: RunState) | Refused | OfDelivery(delivery: DeliveryStatus)

  datatype Row = Row(
    kind: SourceKind, id: nat, company: nat, channel: Option<nat>, run: Option<nat>, state: RowState,
    responsible: Option<nat>, responsibility: Responsibility, priority: Priority, due: Option<int>,
    version: nat, created: int)

  // ---------------------------------------------------------------------------------------------
  // Keys of the joined tables

  function WaitKey(w: Wait): Key { w.key }
  function RunKey(r: WorkflowRun): Key { r.key }
  function VersionKey(v: Version): Key { v.key }
  function BindingKey(b: Binding): Key { b.key }
  function MessageKey(m: Message): Key { m.key }
  function DecisionKey(d: Decision): Key { d.key }
  function DeliveryKey(d: Delivery): Key { d.key }
  function DestinationKey(d: Destination): Key { d.delivery }
  function ReviewerKey(r: Reviewer): (nat, nat, nat) { (r.company, r.decision, r.principal) }
  function RevisionKey(r: BindingRevision): (Key, nat) { (r.binding, r.revision) }

  /** A company's people are one principal each; every other principal is keyed by itself. */
  function AccountKey(p: Principal): (nat, Option<nat>, nat) {
    (p.key.company, p.user, if p.user.Some? then 0 else p.key.id)
  }

  /** Channels the viewer reads, and the company's own rows for a manager. */
  predicate Visible(q: Query, channel: Option<nat>) {
    match channel
    case Some(c) => c in q.visible
    case None => q.manager
  }

  /** The run actor as a person of the company, while they are a member. */
  function ActorMatch(db: Database, company: nat, user: nat): Principal -> bool {
    (p: Principal) => p.key.company == company && p.user == Some(user) && p.kind.Person?
                      && Member(company, user) in db.members
  }

  function Actors(db: Database, company: nat, user: nat): seq<Option<Principal>> {
    Outer(Keep(db.principals, ActorMatch(db, company, user)))
  }

  function IdOf(p: Option<Principal>): Option<nat> {
    match p case None => None case Some(a) => Some(a.key.id)
  }

  function Whose(p: Option<Principal>): Responsibility {
    if p.None? then ToChannelTeam else ToPrincipal
  }

  /** The view filter the run-failure and delivery-failure branches carry. */
  predicate ActorFits(q: Query, actor: Option<Principal>) {
    && (!q.view.MyWork? || IdOf(actor) == Some(q.viewer))
    && (!q.view.Unassigned? || actor.None?)
  }

  // ---------------------------------------------------------------------------------------------
  // The branches. `narrow` is whether a branch keeps its own view filter, as production does.

  function DecisionRow(d: Decision, w: Wait, r: WorkflowRun, whose: Responsibility, who: Option<nat>): Row {
    Row(DecisionSource, d.key.id, d.key.company, r.channel, Some(r.key.id), Open, who, whose, Normal,
        w.deadline, d.revision, d.created)
  }

  /** An open, visible decision joined to its wait, run and version. */
  function OpenDecision(db: Database, q: Query, d: Decision, whose: Responsibility, who: Option<nat>): seq<Row> {
    if d.key.company != q.company || d.submitted then []
    else Collect(At(db.waits, WaitKey, Key(d.key.company, d.wait)), OnWait(db, q, d, whose, who))
  }

  function OnWait(db: Database, q: Query, d: Decision, whose: Responsibility, who: Option<nat>): Wait -> seq<Row> {
    (w: Wait) =>
      if !w.waiting then []
      else Collect(At(db.runs, RunKey, Key(d.key.company, d.run)), OnRun(db, q, d, w, whose, who))
  }

  function OnRun(db: Database, q: Query, d: Decision, w: Wait, whose: Responsibility, who: Option<nat>): WorkflowRun -> seq<Row> {
    (r: WorkflowRun) =>
      if !Visible(q, r.channel) then []
      else Each(At(db.versions, VersionKey, Key(r.key.company, r.version)), [DecisionRow(d, w, r, whose, who)])
  }

  function TeamDecisionRows(db: Database, q: Query, narrow: bool): Decision -> seq<Row> {
    (d: Decision) => if narrow && !q.view.TeamWork? then [] else OpenDecision(db, q, d, ToChannelTeam, None)
  }

  function ReviewMatch(q: Query, d: Decision): Reviewer -> bool {
    (r: Reviewer) => r.company == d.key.company && r.decision == d.key.id && r.principal == q.viewer
  }

  function ViewerMatch(q: Query, r: Reviewer): Principal -> bool {
    (p: Principal) => p.key == Key(q.company, q.viewer) && p.kind.Person? && p.user == Some(r.user)
  }

  /** The viewer's own open decisions: once for each time they are named a reviewer. */
  function MyDecisionRows(db: Database, q: Query): Decision -> seq<Row> {
    (d: Decision) =>
      if !q.view.MyWork? then [] else Collect(Keep(db.reviewers, ReviewMatch(q, d)), OnReview(db, q, d))
  }

  function OnReview(db: Database, q: Query, d: Decision): Reviewer -> seq<Row> {
    (r: Reviewer) =>
      Each(Keep(db.principals, ViewerMatch(q, r)), OpenDecision(db, q, d, ToPrincipal, Some(q.viewer)))
  }

  function ReconciliationRow(r: WorkflowRun): Row {
    Row(RunReconciliation, r.key.id, r.key.company, r.channel, Some(r.key.id), OfRun(r.state), None, ToChannelTeam,
        Normal, r.deadline, r.revision, r.created)
  }

  predicate AwaitsReconciliation(q: Query, r: WorkflowRun) {
    r.key.company == q.company && r.state.WaitingState? && r.reconciling
  }

  function ReconciliationRows(db: Database, q: Query, narrow: bool): WorkflowRun -> seq<Row> {
    (r: WorkflowRun) =>
      if (narrow && q.view.MyWork?) || !AwaitsReconciliation(q, r) || !Visible(q, r.channel) then [] else
        Each(At(db.versions, VersionKey, Key(r.key.company, r.version)), [ReconciliationRow(r)])
  }

  predicate Rerun(db: Database, r: WorkflowRun) {
    exists i :: 0 <= i < |db.runs| && db.runs[i].key.company == r.key.company && db.runs[i].rerunOf == Some(r.key.id)
  }

  predicate RecentlyFailed(db: Database, q: Query, r: WorkflowRun) {
    && r.key.company == q.company && r.state.Failed? && r.created >= q.asOf - 7 * DAY
    && !Rerun(db, r)
  }

  function FailureRow(r: WorkflowRun, actor: Option<Principal>): Row {
    Row(RunFailure, r.key.id, r.key.company, r.channel, Some(r.key.id), OfRun(r.state), IdOf(actor), Whose(actor),
        Normal, None, r.revision, r.created)
  }

  function FailureRows(db: Database, q: Query, narrow: bool): WorkflowRun -> seq<Row> {
    (r: WorkflowRun) =>
      if !RecentlyFailed(db, q, r) || !Visible(q, r.channel) then [] else
        Each(At(db.versions, VersionKey, Key(r.key.company, r.version)),
             Collect(Actors(db, r.key.company, r.actor), FailureFor(q, r, narrow)))
  }

  function FailureFor(q: Query, r: WorkflowRun, narrow: bool): Option<Principal> -> seq<Row> {
    (actor: Option<Principal>) => if narrow && !ActorFits(q, actor) then [] else [FailureRow(r, actor)]
  }

  /** One refused admission or failed schedule materialization of the last seven days. */
  datatype Refusal = Refusal(binding: nat, created: int)

  function RefusedIntent(q: Query): IntentBinding -> seq<Refusal> {
    (i: IntentBinding) =>
      if i.company == q.company && !i.admitted && i.created >= q.asOf - 7 * DAY then [Refusal(i.binding, i.created)] else []
  }

  function FailedSchedule(q: Query): ScheduleRun -> seq<Refusal> {
    (s: ScheduleRun) =>
      if s.company == q.company && s.failed && s.created >= q.asOf - 7 * DAY then [Refusal(s.binding, s.created)] else []
  }

  function Refusals(db: Database, q: Query): seq<Refusal> {
    Collect(db.intents, RefusedIntent(q)) + Collect(db.schedules, FailedSchedule(q))
  }

  function RefusalBinding(r: Refusal): nat { r.binding }

  /** The groups of `GROUP BY binding_id`. */
  function Groups(refusals: seq<Refusal>): seq<nat> {
    if refusals == [] then []
    else
      var rest := Groups(refusals[1..]);
      if refusals[0].binding in rest then rest else [refusals[0].binding] + rest
  }

  function Latest(refusals: seq<Refusal>): int
    requires refusals != []
  {
    if |refusals| == 1 then refusals[0].created
    else
      var rest := Latest(refusals[1..]);
      if refusals[0].created > rest then refusals[0].created else rest
  }

  function RefusalRow(b: Binding, group: seq<Refusal>): Row {
    Row(BindingRefusal, b.key.id, b.key.company, b.channel, None, Refused, None, ToChannelTeam, Normal, None,
        |group|, if group == [] then 0 else Latest(group))
  }

  /** The configured revision of a binding and its version, either of which may be missing. */
  function BindingVersions(db: Database, b: Binding): seq<Option<Version>> {
    Collect(Outer(At(db.revisions, RevisionKey, (b.key, b.configuration))), OnRevision(db, b))
  }

  function OnRevision(db: Database, b: Binding): Option<BindingRevision> -> seq<Option<Version>> {
    (r: Option<BindingRevision>) =>
      if r.None? then [None] else Outer(At(db.versions, VersionKey, Key(b.key.company, r.value.version)))
  }

  function RefusalRows(db: Database, q: Query, narrow: bool): nat -> seq<Row> {
    (binding: nat) =>
      if narrow && !q.view.TeamWork? then []
      else Collect(At(db.bindings, BindingKey, Key(q.company, binding)), OnBinding(db, q, binding))
  }

  function OnBinding(db: Database, q: Query, binding: nat): Binding -> seq<Row> {
    (b: Binding) =>
      if !Visible(q, b.channel) then []
      else Each(BindingVersions(db, b), [RefusalRow(b, At(Refusals(db, q), RefusalBinding, binding))])
  }

  predicate Undelivered(q: Query, d: Delivery) {
    && d.key.company == q.company && d.channel.Some? && d.channel.value in q.visible
    && (d.status.OutcomeUnknown? || d.status.DeadLetter?) && !d.superseded
  }

  function DeliveryRow(d: Delivery, run: Option<WorkflowRun>, actor: Option<Principal>): Row {
    Row(DeliveryFailure, d.key.id, d.key.company, d.channel, if run.None? then None else Some(run.value.key.id),
        OfDelivery(d.status), IdOf(actor), Whose(actor), Normal, None, if d.attempts < 1 then 1 else d.attempts, d.created)
  }

  /** The run a delivery was sent for, when it was sent for one. */
  function DestinationRuns(db: Database, d: Delivery): seq<Option<WorkflowRun>> {
    Collect(Outer(At(db.destinations, DestinationKey, d.key)), OnDestination(db, d))
  }

  function OnDestination(db: Database, d: Delivery): Option<Destination> -> seq<Option<WorkflowRun>> {
    (t: Option<Destination>) =>
      if t.None? then [None] else Outer(At(db.runs, RunKey, Key(d.key.company, t.value.run)))
  }

  function RunActors(db: Database, run: Option<WorkflowRun>): seq<Option<Principal>> {
    match run
    case None => [None]
    case Some(r) => Actors(db, r.key.company, r.actor)
  }

  function DeliveryRows(db: Database, q: Query, narrow: bool): Delivery -> seq<Row> {
    (d: Delivery) =>
      if !Undelivered(q, d) then [] else
        Each(At(db.messages, MessageKey, Key(d.key.company, d.message)),
             Collect(DestinationRuns(db, d), OnDelivery(db, q, d, narrow)))
  }

  function OnDelivery(db: Database, q: Query, d: Delivery, narrow: bool): Option<WorkflowRun> -> seq<Row> {
    (run: Option<WorkflowRun>) => Collect(RunActors(db, run), DeliveryFor(q, d, run, narrow))
  }

  function DeliveryFor(q: Query, d: Delivery, run: Option<WorkflowRun>, narrow: bool): Option<Principal> -> seq<Row> {
    (actor: Option<Principal>) => if narrow && !ActorFits(q, actor) then [] else [DeliveryRow(d, run, actor)]
  }

  /** The authoritative responsibility filter. */
  function Ranked(q: Query): Row -> bool {
    (row: Row) =>
      match q.view
      case TeamWork => true
      case MyWork => row.responsibility.ToPrincipal? && row.responsible == Some(q.viewer)
      case Unassigned => row.responsibility.ToChannelTeam?
  }

  function Reconciliations(db: Database, q: Query, narrow: bool): seq<Row> {
    Collect(db.runs, ReconciliationRows(db, q, narrow))
  }

  function Failures(db: Database, q: Query, narrow: bool): seq<Row> {
    Collect(db.runs, FailureRows(db, q, narrow))
  }

  function Deliveries(db: Database, q: Query, narrow: bool): seq<Row> {
    Collect(db.deliveries, DeliveryRows(db, q, narrow))
  }

  function RefusedBindings(db: Database, q: Query, narrow: bool): seq<Row> {
    Collect(Groups(Refusals(db, q)), RefusalRows(db, q, narrow))
  }

  function Decisions(db: Database, q: Query, narrow: bool): seq<Row> {
    Collect(db.decisions, MyDecisionRows(db, q)) + Collect(db.decisions, TeamDecisionRows(db, q, narrow))
  }

  /** The three sources whose branch filter only saves work. */
  function ActedOn(db: Database, q: Query, narrow: bool): seq<Row> {
    Reconciliations(db, q, narrow) + Failures(db, q, narrow) + Deliveries(db, q, narrow)
  }

  /** Every row of the list, before it is ordered. */
  function List(db: Database, q: Query): seq<Row> {
    Keep(Decisions(db, q, true) + RefusedBindings(db, q, true) + ActedOn(db, q, true), Ranked(q))
  }
}
