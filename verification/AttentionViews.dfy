/** What the views of the work list have to do with each other. */
module AttentionViews {
  import opened Rows
  import opened Attention
  import AttentionSummary

  // ---------------------------------------------------------------------------------------------
  // A branch filter of these three sources may be removed without changing a row

  /** Both forms filtered alike row by row are filtered alike as a whole. */
  lemma {:induction false} BranchFilterIsRedundant<A>(s: seq<A>, narrow: A -> seq<Row>, wide: A -> seq<Row>, p: Row -> bool)
    requires forall a | a in s :: Keep(narrow(a), p) == Keep(wide(a), p)
    ensures Keep(Collect(s, narrow), p) == Keep(Collect(s, wide), p)
  {
    if s == [] {
    } else {
      assert s[0] in s;
      KeepConcat(narrow(s[0]), Collect(s[1..], narrow), p);
      KeepConcat(wide(s[0]), Collect(s[1..], wide), p);
      BranchFilterIsRedundant(s[1..], narrow, wide, p);
    }
  }

  lemma ReconciliationFilter(db: Database, q: Query)
    ensures Keep(Reconciliations(db, q, true), Ranked(q)) == Keep(Reconciliations(db, q, false), Ranked(q))
  {
    forall r | r in db.runs
      ensures Keep(ReconciliationRows(db, q, true)(r), Ranked(q)) == Keep(ReconciliationRows(db, q, false)(r), Ranked(q))
    {
      KeepOne(ReconciliationRow(r), Ranked(q));
      var versions := At(db.versions, VersionKey, Key(r.key.company, r.version));
      KeepOfEach(versions, [ReconciliationRow(r)], Ranked(q));
      if q.view.MyWork? {
        NoneOfEach<Version, Row>(versions);
      }
    }
    BranchFilterIsRedundant(db.runs, ReconciliationRows(db, q, true), ReconciliationRows(db, q, false), Ranked(q));
  }

  lemma {:induction false} NoneOfEach<A, B>(matches: seq<A>)
    ensures Each<A, B>(matches, []) == []
  {
    if matches != [] {
      NoneOfEach<A, B>(matches[1..]);
    }
  }

  lemma FailureFilter(db: Database, q: Query)
    ensures Keep(Failures(db, q, true), Ranked(q)) == Keep(Failures(db, q, false), Ranked(q))
  {
    forall r | r in db.runs
      ensures Keep(FailureRows(db, q, true)(r), Ranked(q)) == Keep(FailureRows(db, q, false)(r), Ranked(q))
    {
      var versions := At(db.versions, VersionKey, Key(r.key.company, r.version));
      var actors := Actors(db, r.key.company, r.actor);
      forall actor | actor in actors
        ensures Keep(FailureFor(q, r, true)(actor), Ranked(q)) == Keep(FailureFor(q, r, false)(actor), Ranked(q))
      {
        KeepOne(FailureRow(r, actor), Ranked(q));
      }
      BranchFilterIsRedundant(actors, FailureFor(q, r, true), FailureFor(q, r, false), Ranked(q));
      KeepOfEach(versions, Collect(actors, FailureFor(q, r, true)), Ranked(q));
      KeepOfEach(versions, Collect(actors, FailureFor(q, r, false)), Ranked(q));
    }
    BranchFilterIsRedundant(db.runs, FailureRows(db, q, true), FailureRows(db, q, false), Ranked(q));
  }

  lemma DeliveryFilterOf(db: Database, q: Query, d: Delivery)
    ensures Keep(DeliveryRows(db, q, true)(d), Ranked(q)) == Keep(DeliveryRows(db, q, false)(d), Ranked(q))
  {
    forall run | run in DestinationRuns(db, d)
      ensures Keep(OnDelivery(db, q, d, true)(run), Ranked(q)) == Keep(OnDelivery(db, q, d, false)(run), Ranked(q))
    {
      forall actor | actor in RunActors(db, run)
        ensures Keep(DeliveryFor(q, d, run, true)(actor), Ranked(q)) == Keep(DeliveryFor(q, d, run, false)(actor), Ranked(q))
      {
        KeepOne(DeliveryRow(d, run, actor), Ranked(q));
      }
      BranchFilterIsRedundant(RunActors(db, run), DeliveryFor(q, d, run, true), DeliveryFor(q, d, run, false), Ranked(q));
    }
    BranchFilterIsRedundant(DestinationRuns(db, d), OnDelivery(db, q, d, true), OnDelivery(db, q, d, false), Ranked(q));
    var messages := At(db.messages, MessageKey, Key(d.key.company, d.message));
    KeepOfEach(messages, Collect(DestinationRuns(db, d), OnDelivery(db, q, d, true)), Ranked(q));
    KeepOfEach(messages, Collect(DestinationRuns(db, d), OnDelivery(db, q, d, false)), Ranked(q));
  }

  lemma DeliveryFilter(db: Database, q: Query)
    ensures Keep(Deliveries(db, q, true), Ranked(q)) == Keep(Deliveries(db, q, false), Ranked(q))
  {
    forall d | d in db.deliveries
      ensures Keep(DeliveryRows(db, q, true)(d), Ranked(q)) == Keep(DeliveryRows(db, q, false)(d), Ranked(q))
    {
      DeliveryFilterOf(db, q, d);
    }
    BranchFilterIsRedundant(db.deliveries, DeliveryRows(db, q, true), DeliveryRows(db, q, false), Ranked(q));
  }

  /**
   For every database, viewer, instant and view: reconciliations, failed runs and failed deliveries
   are listed as if their branches had no view filter at all.
   */
  lemma BranchFiltersOnlySaveWork(db: Database, q: Query)
    ensures Keep(ActedOn(db, q, true), Ranked(q)) == Keep(ActedOn(db, q, false), Ranked(q))
  {
    ReconciliationFilter(db, q);
    FailureFilter(db, q);
    DeliveryFilter(db, q);
    var a, b := Reconciliations(db, q, true), Failures(db, q, true);
    KeepConcat(a + b, Deliveries(db, q, true), Ranked(q));
    KeepConcat(a, b, Ranked(q));
    var c, d := Reconciliations(db, q, false), Failures(db, q, false);
    KeepConcat(c + d, Deliveries(db, q, false), Ranked(q));
    KeepConcat(c, d, Ranked(q));
  }

  // ---------------------------------------------------------------------------------------------
  // So the views divide the team's rows

  /** Without view filters a branch does not depend on whose list it is. */
  lemma WideBranchesIgnoreTheView(db: Database, q: Query, view: View, viewer: nat)
    ensures ActedOn(db, q.(view := view, viewer := viewer), false) == ActedOn(db, q, false)
  {
    var q' := q.(view := view, viewer := viewer);
    CollectAgrees(db.runs, ReconciliationRows(db, q', false), ReconciliationRows(db, q, false));
    forall r | r in db.runs ensures FailureRows(db, q', false)(r) == FailureRows(db, q, false)(r) {
      CollectAgrees(Actors(db, r.key.company, r.actor), FailureFor(q', r, false), FailureFor(q, r, false));
    }
    CollectAgrees(db.runs, FailureRows(db, q', false), FailureRows(db, q, false));
    forall d | d in db.deliveries ensures DeliveryRows(db, q', false)(d) == DeliveryRows(db, q, false)(d) {
      forall run | run in DestinationRuns(db, d)
        ensures OnDelivery(db, q', d, false)(run) == OnDelivery(db, q, d, false)(run)
      {
        CollectAgrees(RunActors(db, run), DeliveryFor(q', d, run, false), DeliveryFor(q, d, run, false));
      }
      CollectAgrees(DestinationRuns(db, d), OnDelivery(db, q', d, false), OnDelivery(db, q, d, false));
    }
    CollectAgrees(db.deliveries, DeliveryRows(db, q', false), DeliveryRows(db, q, false));
  }

  lemma {:induction false} KeepAll<A>(s: seq<A>, p: A -> bool)
    requires forall a :: p(a)
    ensures Keep(s, p) == s
  {
    if s != [] {
      KeepAll(s[1..], p);
    }
  }

  /** The rows of these sources that a query lists. */
  function Listed(db: Database, q: Query): seq<Row> {
    Keep(ActedOn(db, q, true), Ranked(q))
  }

  /** Every view of them is the team's list, in its order, with the other views' rows left out. */
  lemma EveryViewIsTheTeamsFiltered(db: Database, q: Query, view: View, viewer: nat)
    ensures var q' := q.(view := view, viewer := viewer);
      Listed(db, q') == Keep(Listed(db, q.(view := TeamWork)), Ranked(q'))
  {
    var q' := q.(view := view, viewer := viewer);
    var team := q.(view := TeamWork);
    BranchFiltersOnlySaveWork(db, q');
    BranchFiltersOnlySaveWork(db, team);
    WideBranchesIgnoreTheView(db, q, view, viewer);
    WideBranchesIgnoreTheView(db, q, TeamWork, q.viewer);
    KeepAll(ActedOn(db, team, false), Ranked(team));
  }

  ghost predicate Assigned(row: Row) {
    if row.responsible.None? then row.responsibility.ToChannelTeam? else row.responsibility.ToPrincipal?
  }

  lemma FailureRowsAreAssigned(db: Database, q: Query, r: WorkflowRun, row: Row)
    requires row in FailureRows(db, q, true)(r)
    ensures Assigned(row)
  {
    var actors := Actors(db, r.key.company, r.actor);
    InEach(At(db.versions, VersionKey, Key(r.key.company, r.version)), Collect(actors, FailureFor(q, r, true)), row);
    InCollect(actors, FailureFor(q, r, true), row);
  }

  lemma OnDeliveryIsAssigned(db: Database, q: Query, d: Delivery, run: Option<WorkflowRun>, row: Row)
    requires row in OnDelivery(db, q, d, true)(run)
    ensures Assigned(row)
  {
    InCollect(RunActors(db, run), DeliveryFor(q, d, run, true), row);
  }

  lemma DeliveryRowsAreAssigned(db: Database, q: Query, d: Delivery, row: Row)
    requires row in DeliveryRows(db, q, true)(d)
    ensures Assigned(row)
  {
    InEach(At(db.messages, MessageKey, Key(d.key.company, d.message)),
           Collect(DestinationRuns(db, d), OnDelivery(db, q, d, true)), row);
    InCollect(DestinationRuns(db, d), OnDelivery(db, q, d, true), row);
    var i :| 0 <= i < |DestinationRuns(db, d)| && row in OnDelivery(db, q, d, true)(DestinationRuns(db, d)[i]);
    OnDeliveryIsAssigned(db, q, d, DestinationRuns(db, d)[i], row);
  }

  lemma ListedRowsAreAssigned(db: Database, q: Query, row: Row)
    requires row in Listed(db, q)
    ensures Assigned(row)
  {
    InKeep(ActedOn(db, q, true), Ranked(q), row);
    InCollect(db.runs, ReconciliationRows(db, q, true), row);
    InCollect(db.runs, FailureRows(db, q, true), row);
    InCollect(db.deliveries, DeliveryRows(db, q, true), row);
    if row in Reconciliations(db, q, true) {
      var i :| 0 <= i < |db.runs| && row in ReconciliationRows(db, q, true)(db.runs[i]);
      var r := db.runs[i];
      InEach(At(db.versions, VersionKey, Key(r.key.company, r.version)), [ReconciliationRow(r)], row);
    } else if row in Failures(db, q, true) {
      var i :| 0 <= i < |db.runs| && row in FailureRows(db, q, true)(db.runs[i]);
      FailureRowsAreAssigned(db, q, db.runs[i], row);
    } else {
      var i :| 0 <= i < |db.deliveries| && row in DeliveryRows(db, q, true)(db.deliveries[i]);
      DeliveryRowsAreAssigned(db, q, db.deliveries[i], row);
    }
  }

  /**
   With visibility fixed, a row of the team's list is unassigned and in nobody's own work, or it is
   not unassigned and in exactly one person's.
   */
  lemma EachTeamRowHasOnePlace(db: Database, q: Query, row: Row)
    requires row in Listed(db, q.(view := TeamWork))
    ensures row in Listed(db, q.(view := Unassigned)) <==> row.responsible.None?
    ensures forall p: nat :: row in Listed(db, q.(view := MyWork, viewer := p)) <==> row.responsible == Some(p)
  {
    ListedRowsAreAssigned(db, q.(view := TeamWork), row);
    EveryViewIsTheTeamsFiltered(db, q, Unassigned, q.viewer);
    InKeep(Listed(db, q.(view := TeamWork)), Ranked(q.(view := Unassigned)), row);
    forall p: nat ensures row in Listed(db, q.(view := MyWork, viewer := p)) <==> row.responsible == Some(p) {
      EveryViewIsTheTeamsFiltered(db, q, MyWork, p);
      InKeep(Listed(db, q.(view := TeamWork)), Ranked(q.(view := MyWork, viewer := p)), row);
    }
  }

  // ---------------------------------------------------------------------------------------------
  // Binding refusals are narrower than the responsibility filter, in one view

  /** A refusal of the last seven days on a binding the viewer may see. */
  ghost predicate HasVisibleRefusal(db: Database, q: Query) {
    exists r, b :: r in Refusals(db, q) && b in db.bindings && b.key == Key(q.company, r.binding) && Visible(q, b.channel)
  }

  lemma {:induction false} BindingOfARefusalIsAGroup(refusals: seq<Refusal>, r: Refusal)
    requires r in refusals
    ensures r.binding in Groups(refusals)
  {
    if refusals[0] != r {
      BindingOfARefusalIsAGroup(refusals[1..], r);
    }
  }

  lemma {:induction false} AGroupHasARefusal(refusals: seq<Refusal>, g: nat) returns (r: Refusal)
    requires g in Groups(refusals)
    ensures r in refusals && r.binding == g
  {
    if refusals[0].binding == g {
      r := refusals[0];
    } else {
      r := AGroupHasARefusal(refusals[1..], g);
    }
  }

  lemma BindingVersionsExist(db: Database, b: Binding)
    ensures BindingVersions(db, b) != []
  {
    var outer := Outer(At(db.revisions, RevisionKey, (b.key, b.configuration)));
    assert outer != [];
    assert OnRevision(db, b)(outer[0]) != [];
  }

  lemma RefusalRowsExist(db: Database, q: Query)
    ensures RefusedBindings(db, q, false) != [] <==> HasVisibleRefusal(db, q)
  {
    var groups := Groups(Refusals(db, q));
    if HasVisibleRefusal(db, q) {
      var r, b :| r in Refusals(db, q) && b in db.bindings && b.key == Key(q.company, r.binding) && Visible(q, b.channel);
      BindingOfARefusalIsAGroup(Refusals(db, q), r);
      var i :| 0 <= i < |groups| && groups[i] == r.binding;
      var bindings := At(db.bindings, BindingKey, Key(q.company, r.binding));
      InAt(db.bindings, BindingKey, Key(q.company, r.binding), b);
      var j :| 0 <= j < |bindings| && bindings[j] == b;
      BindingVersionsExist(db, b);
      var row := RefusalRow(b, At(Refusals(db, q), RefusalBinding, r.binding));
      assert row in Each(BindingVersions(db, b), [row]);
      InCollect(bindings, OnBinding(db, q, r.binding), row);
      assert row in OnBinding(db, q, r.binding)(bindings[j]);
      InCollect(groups, RefusalRows(db, q, false), row);
      assert row in RefusalRows(db, q, false)(groups[i]);
    }
    if RefusedBindings(db, q, false) != [] {
      var row := RefusedBindings(db, q, false)[0];
      InCollect(groups, RefusalRows(db, q, false), row);
      var i :| 0 <= i < |groups| && row in RefusalRows(db, q, false)(groups[i]);
      var bindings := At(db.bindings, BindingKey, Key(q.company, groups[i]));
      InCollect(bindings, OnBinding(db, q, groups[i]), row);
      var j :| 0 <= j < |bindings| && row in OnBinding(db, q, groups[i])(bindings[j]);
      InAt(db.bindings, BindingKey, Key(q.company, groups[i]), bindings[j]);
      var r := AGroupHasARefusal(Refusals(db, q), groups[i]);
      assert r in Refusals(db, q) && bindings[j] in db.bindings;
    }
  }

  ghost predicate TeamRows(rows: seq<Row>) {
    forall row | row in rows :: row.responsibility.ToChannelTeam?
  }

  lemma RefusalRowsAreTheTeams(db: Database, q: Query)
    ensures TeamRows(RefusedBindings(db, q, false))
  {
    var groups := Groups(Refusals(db, q));
    forall row | row in RefusedBindings(db, q, false) ensures row.responsibility.ToChannelTeam? {
      InCollect(groups, RefusalRows(db, q, false), row);
      var i :| 0 <= i < |groups| && row in RefusalRows(db, q, false)(groups[i]);
      var bindings := At(db.bindings, BindingKey, Key(q.company, groups[i]));
      InCollect(bindings, OnBinding(db, q, groups[i]), row);
      var j :| 0 <= j < |bindings| && row in OnBinding(db, q, groups[i])(bindings[j]);
      InEach(BindingVersions(db, bindings[j]),
             [RefusalRow(bindings[j], At(Refusals(db, q), RefusalBinding, groups[i]))], row);
    }
  }

  lemma {:induction false} TeamRowsInAView(rows: seq<Row>, q: Query)
    requires TeamRows(rows)
    ensures Keep(rows, Ranked(q)) == if q.view.MyWork? then [] else rows
  {
    if rows != [] {
      assert rows[0] in rows;
      forall row | row in rows[1..] ensures row in rows {}
      TeamRowsInAView(rows[1..], q);
    }
  }

  /**
   A binding refusal is the channel team's, so the responsibility filter alone would list it as
   unassigned work; its branch keeps it out. The branch filter changes the list exactly for a
   reader of unassigned work who may see a refused binding.
   */
  lemma RefusalFilterHidesUnassignedWork(db: Database, q: Query)
    ensures Keep(RefusedBindings(db, q, true), Ranked(q)) != Keep(RefusedBindings(db, q, false), Ranked(q))
       <==> q.view.Unassigned? && HasVisibleRefusal(db, q)
  {
    RefusalRowsExist(db, q);
    RefusalRowsAreTheTeams(db, q);
    TeamRowsInAView(RefusedBindings(db, q, false), q);
    var groups := Groups(Refusals(db, q));
    if q.view.TeamWork? {
      CollectAgrees(groups, RefusalRows(db, q, true), RefusalRows(db, q, false));
    } else {
      NothingCollected(groups, RefusalRows(db, q, true));
    }
  }

  /** Such a database: one refused admission on a binding of a channel that the reader sees. */
  function OneRefusal(): Database {
    Database([], [], [], [], [Version(Key(1, 9))], [], [], [IntentBinding(1, 5, false, 0)], [],
             [Binding(Key(1, 5), Some(2), 1)], [BindingRevision(Key(1, 5), 1, 9)], [], [], [])
  }

  lemma OneRefusalIsWellFormed()
    ensures AttentionSummary.WellFormed(OneRefusal())
  {
    var db := OneRefusal();
    assert |db.versions| == |db.bindings| == |db.revisions| == 1;
  }

  lemma OneRefusalResolves()
    ensures AttentionSummary.BindingsResolve(OneRefusal())
  {
    var db := OneRefusal();
    var v, b, r := Version(Key(1, 9)), Binding(Key(1, 5), Some(2), 1), BindingRevision(Key(1, 5), 1, 9);
    assert db.versions == [v] && db.bindings == [b] && db.revisions == [r] && db.schedules == [];
    assert v in db.versions && b in db.bindings && r in db.revisions;
    assert RevisionKey(r) == (b.key, 1) && BindingKey(b) == Key(1, 5) && VersionKey(v) == Key(1, 9);
  }

  lemma OneRefusalIsSeen(q: Query)
    requires q.company == 1 && 2 in q.visible && q.asOf == 0
    ensures HasVisibleRefusal(OneRefusal(), q)
  {
    var db := OneRefusal();
    var refusal, binding := Refusal(5, 0), Binding(Key(1, 5), Some(2), 1);
    CollectOne(db.intents[0], RefusedIntent(q));
    assert Refusals(db, q) == [refusal] && db.bindings[0] == binding;
    assert refusal in Refusals(db, q) && binding in db.bindings && Visible(q, binding.channel);
  }

  lemma ARefusalIsHidden()
    ensures AttentionSummary.SchemaAdmits(OneRefusal())
    ensures var db, q := OneRefusal(), Query(1, {2}, 7, false, Unassigned, 0);
      Keep(RefusedBindings(db, q, true), Ranked(q)) != Keep(RefusedBindings(db, q, false), Ranked(q))
  {
    var q := Query(1, {2}, 7, false, Unassigned, 0);
    OneRefusalIsWellFormed();
    OneRefusalResolves();
    OneRefusalIsSeen(q);
    RefusalFilterHidesUnassignedWork(OneRefusal(), q);
  }
}
