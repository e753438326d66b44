/** Reading the work list page by page. */
module AttentionPaging {
  import opened Rows
  import opened Attention
  import opened AttentionSummary

  // ---------------------------------------------------------------------------------------------
  // The five-part order

  datatype SortKey = SortKey(due: nat, priority: nat, created: int, kind: nat, id: nat)

  function DueRank(due: Option<int>, asOf: int): nat {
    if due.Some? && due.value < asOf then 0
    else if due.Some? && due.value <= asOf + DAY then 1
    else 2
  }

  function PriorityRank(p: Priority): nat {
    match p case Urgent => 0 case High => 1 case Normal => 2
  }

  /** The source kinds are compared as text, so in the alphabetical order of their names. */
  function KindRank(kind: SourceKind): nat {
    match kind
    case BindingRefusal => 0
    case DecisionSource => 1
    case DeliveryFailure => 2
    case RunFailure => 3
    case RunReconciliation => 4
  }

  function KeyAt(row: Row, asOf: int): SortKey {
    SortKey(DueRank(row.due, asOf), PriorityRank(row.priority), row.created, KindRank(row.kind), row.id)
  }

  predicate Below(a: SortKey, b: SortKey) {
    || a.due < b.due
    || (a.due == b.due
        && (|| a.priority < b.priority
            || (a.priority == b.priority
                && (|| a.created < b.created
                    || (a.created == b.created
                        && (a.kind < b.kind || (a.kind == b.kind && a.id < b.id)))))))
  }

  // What the order says of rows

  predicate Overdue(row: Row, asOf: int) {
    row.due.Some? && row.due.value < asOf
  }

  predicate DueWithinADay(row: Row, asOf: int) {
    row.due.Some? && asOf <= row.due.value <= asOf + 86_400_000_000
  }

  /** The name of a source kind, by which kinds are compared. */
  function KindName(kind: SourceKind): string {
    match kind
    case DecisionSource => "decision"
    case BindingRefusal => "binding_refusal"
    case RunReconciliation => "run_reconciliation"
    case RunFailure => "run_failure"
    case DeliveryFailure => "delivery_failure"
  }

  /** Two texts that differ at some place, where the first has the earlier letter. */
  ghost predicate EarlierText(a: string, b: string) {
    exists i :: 0 <= i < |a| && i < |b| && a[..i] == b[..i] && a[i] < b[i]
  }

  lemma EarlierAt(a: string, b: string, i: nat)
    requires i < |a| && i < |b| && a[..i] == b[..i] && a[i] < b[i]
    ensures EarlierText(a, b)
  {
  }

  /** The kinds are in the alphabetical order of their names. */
  lemma KindsAreAlphabetical(a: SourceKind, b: SourceKind)
    requires KindRank(a) < KindRank(b)
    ensures EarlierText(KindName(a), KindName(b))
  {
    var i := if a == DecisionSource && b == DeliveryFailure then 2 else if a == RunFailure && b == RunReconciliation then 4 else 0;
    EarlierAt(KindName(a), KindName(b), i);
  }

  /** The first thing in which two rows differ decides which is read first. */
  lemma OrderOfRows(a: Row, b: Row, asOf: int)
    ensures var before := Below(KeyAt(a, asOf), KeyAt(b, asOf));
      var sameDue := (Overdue(a, asOf) <==> Overdue(b, asOf)) && (DueWithinADay(a, asOf) <==> DueWithinADay(b, asOf));
      && (Overdue(a, asOf) && !Overdue(b, asOf) ==> before)
      && (DueWithinADay(a, asOf) && !Overdue(b, asOf) && !DueWithinADay(b, asOf) ==> before)
      && (sameDue && a.priority == Urgent && b.priority != Urgent ==> before)
      && (sameDue && a.priority == High && b.priority == Normal ==> before)
      && (sameDue && a.priority == b.priority && a.created < b.created ==> before)
      && (sameDue && a.priority == b.priority && a.created == b.created && KindRank(a.kind) < KindRank(b.kind) ==> before)
      && (sameDue && a.priority == b.priority && a.created == b.created && a.kind == b.kind ==> (before <==> a.id < b.id))
    ensures !(Below(KeyAt(a, asOf), KeyAt(b, asOf)) && Below(KeyAt(b, asOf), KeyAt(a, asOf)))
  {
  }

  ghost predicate Ascending(rows: seq<Row>, asOf: int) {
    forall i, j | 0 <= i < j < |rows| :: Below(KeyAt(rows[i], asOf), KeyAt(rows[j], asOf))
  }

  /** No two rows are the same source. */
  ghost predicate Distinct(rows: seq<Row>) {
    forall i, j | 0 <= i < j < |rows| :: rows[i].kind != rows[j].kind || rows[i].id != rows[j].id
  }

  function InsertRow(row: Row, rows: seq<Row>, asOf: int): seq<Row> {
    if rows == [] then [row]
    else if Below(KeyAt(rows[0], asOf), KeyAt(row, asOf)) then [rows[0]] + InsertRow(row, rows[1..], asOf)
    else [row] + rows
  }

  /** `ORDER BY due_rank, priority_rank, created_at, source_kind, source_id`. */
  function Ordered(rows: seq<Row>, asOf: int): seq<Row> {
    if rows == [] then [] else InsertRow(rows[0], Ordered(rows[1..], asOf), asOf)
  }

  ghost predicate Apart(row: Row, rows: seq<Row>) {
    forall r | r in rows :: r.kind != row.kind || r.id != row.id
  }

  lemma BelowIsTransitive(a: SortKey, b: SortKey, c: SortKey)
    requires Below(a, b) && Below(b, c)
    ensures Below(a, c)
  {
  }

  /** Different sources are never tied. */
  lemma BelowIsTotal(a: Row, b: Row, asOf: int)
    requires a.kind != b.kind || a.id != b.id
    ensures Below(KeyAt(a, asOf), KeyAt(b, asOf)) || Below(KeyAt(b, asOf), KeyAt(a, asOf))
  {
  }

  lemma {:induction false} InsertAdds(row: Row, rows: seq<Row>, asOf: int)
    ensures multiset(InsertRow(row, rows, asOf)) == multiset{row} + multiset(rows)
  {
    if rows == [] {
    } else {
      assert rows == [rows[0]] + rows[1..];
      InsertAdds(row, rows[1..], asOf);
    }
  }

  /** `row` comes before every row of `rows`. */
  ghost predicate Heads(row: Row, rows: seq<Row>, asOf: int) {
    forall r | r in rows :: Below(KeyAt(row, asOf), KeyAt(r, asOf))
  }

  lemma HeadAscends(row: Row, rows: seq<Row>, asOf: int)
    requires Ascending(rows, asOf) && Heads(row, rows, asOf)
    ensures Ascending([row] + rows, asOf)
  {
    var longer := [row] + rows;
    forall i, j | 0 <= i < j < |longer| ensures Below(KeyAt(longer[i], asOf), KeyAt(longer[j], asOf)) {
      assert longer[j] == rows[j - 1];
      assert i > 0 ==> longer[i] == rows[i - 1];
    }
  }

  lemma {:induction false} InsertAscends(row: Row, rows: seq<Row>, asOf: int)
    requires Ascending(rows, asOf) && Apart(row, rows)
    ensures Ascending(InsertRow(row, rows, asOf), asOf)
  {
    if rows == [] {
    } else {
      assert rows[0] in rows;
      forall r | r in rows[1..] ensures r in rows && Below(KeyAt(rows[0], asOf), KeyAt(r, asOf)) {
        var i :| 0 <= i < |rows[1..]| && rows[1..][i] == r;
        assert rows[i + 1] == r;
      }
      if Below(KeyAt(rows[0], asOf), KeyAt(row, asOf)) {
        InsertAscends(row, rows[1..], asOf);
        InsertAdds(row, rows[1..], asOf);
        var rest := InsertRow(row, rows[1..], asOf);
        forall r | r in rest ensures Below(KeyAt(rows[0], asOf), KeyAt(r, asOf)) {
          assert r in multiset(rest);
          assert r == row || r in rows[1..];
        }
        HeadAscends(rows[0], rest, asOf);
      } else {
        BelowIsTotal(row, rows[0], asOf);
        forall r | r in rows ensures Below(KeyAt(row, asOf), KeyAt(r, asOf)) {
          if r != rows[0] {
            assert r in rows[1..];
            BelowIsTransitive(KeyAt(row, asOf), KeyAt(rows[0], asOf), KeyAt(r, asOf));
          }
        }
        HeadAscends(row, rows, asOf);
      }
    }
  }

  lemma {:induction false} OrderedAscends(rows: seq<Row>, asOf: int)
    requires Distinct(rows)
    ensures Ascending(Ordered(rows, asOf), asOf)
    ensures multiset(Ordered(rows, asOf)) == multiset(rows)
  {
    if rows == [] {
    } else {
      assert rows == [rows[0]] + rows[1..];
      OrderedAscends(rows[1..], asOf);
      var rest := Ordered(rows[1..], asOf);
      forall r | r in rest ensures r.kind != rows[0].kind || r.id != rows[0].id {
        assert r in multiset(rest);
        var i :| 0 <= i < |rows[1..]| && rows[1..][i] == r;
        assert rows[i + 1] == r;
      }
      InsertAscends(rows[0], rest, asOf);
      InsertAdds(rows[0], rest, asOf);
    }
  }

  lemma SameHead(a: seq<Row>, b: seq<Row>, asOf: int)
    requires Ascending(a, asOf) && Ascending(b, asOf) && multiset(a) == multiset(b) && a != [] && b != []
    ensures a[0] == b[0]
  {
    assert a[0] in multiset(b) && b[0] in multiset(a);
    var i :| 0 <= i < |b| && b[i] == a[0];
    var j :| 0 <= j < |a| && a[j] == b[0];
    assert i > 0 ==> Below(KeyAt(b[0], asOf), KeyAt(b[i], asOf));
    assert j > 0 ==> Below(KeyAt(a[0], asOf), KeyAt(a[j], asOf));
  }

  /** The order leaves no freedom: it is the only ascending arrangement of its rows. */
  lemma {:induction false} AscendingIsUnique(a: seq<Row>, b: seq<Row>, asOf: int)
    requires Ascending(a, asOf) && Ascending(b, asOf) && multiset(a) == multiset(b)
    ensures a == b
  {
    assert |a| == |multiset(a)| == |multiset(b)| == |b|;
    if a != [] {
      SameHead(a, b, asOf);
      assert a == [a[0]] + a[1..] && b == [b[0]] + b[1..];
      assert multiset(a[1..]) == multiset(a) - multiset{a[0]};
      assert multiset(b[1..]) == multiset(b) - multiset{b[0]};
      AscendingIsUnique(a[1..], b[1..], asOf);
    }
  }

  // ---------------------------------------------------------------------------------------------
  // One page

  datatype Cursor = Cursor(asOf: int, after: SortKey)

  datatype Href = DecisionPage(id: nat) | DeliveriesPage(company: nat) | RunPage(company: nat, run: nat)
                | BindingPage(id: nat, company: nat)

  datatype Item = Item(row: Row, href: Option<Href>)

  datatype Page = Page(items: seq<Item>, next: Option<Cursor>, asOf: int, workingSet: nat, truncated: bool)

  const MAX_LIMIT := 100
  const MAX_WORKING_SET := 1000

  function ClampedLimit(limit: nat): nat {
    if limit < 1 then 1 else if limit > MAX_LIMIT then MAX_LIMIT else limit
  }

  function After(cursor: Option<Cursor>, asOf: int): Row -> bool {
    (row: Row) => cursor.None? || Below(cursor.value.after, KeyAt(row, asOf))
  }

  function Take<A>(s: seq<A>, n: nat): seq<A> {
    if |s| <= n then s else s[..n]
  }

  /** The rows the statement examines after the cursor, one more than the working set at most. */
  function Examined(rows: seq<Row>, cursor: Option<Cursor>, asOf: int, bound: nat): seq<Row> {
    Take(Ordered(Keep(rows, After(cursor, asOf)), asOf), bound + 1)
  }

  /** Where an item leads. Runs and bindings have pages for managers only. */
  function HrefOf(row: Row, manager: bool): Option<Href> {
    match row.kind
    case DecisionSource => Some(DecisionPage(row.id))
    case DeliveryFailure => Some(DeliveriesPage(row.company))
    case RunReconciliation => if manager && row.run.Some? then Some(RunPage(row.company, row.run.value)) else None
    case RunFailure => if manager && row.run.Some? then Some(RunPage(row.company, row.run.value)) else None
    case BindingRefusal => if manager then Some(BindingPage(row.id, row.company)) else None
  }

  /** Every link names its row and company; only a manager gets one to a run or a binding. */
  lemma LinksAreTheRows(row: Row, manager: bool)
    ensures HrefOf(row, manager) ==
      if row.kind == DecisionSource then Some(DecisionPage(row.id))
      else if row.kind == DeliveryFailure then Some(DeliveriesPage(row.company))
      else if !manager then None
      else if row.kind == BindingRefusal then Some(BindingPage(row.id, row.company))
      else if row.run == None then None else Some(RunPage(row.company, row.run.value))
  {
  }

  function RowsOf(items: seq<Item>): seq<Row> {
    seq(|items|, i requires 0 <= i < |items| => items[i].row)
  }

  /** What a page of `rows` after `cursor` holds. */
  ghost predicate IsPage(page: Page, rows: seq<Row>, manager: bool, cursor: Option<Cursor>, asOf: int, limit: nat, bound: nat) {
    && RowsOf(page.items) == PageRows(rows, cursor, asOf, limit, bound)
    && (forall i | 0 <= i < |page.items| :: page.items[i].href == HrefOf(page.items[i].row, manager))
    && page.asOf == asOf
    && page.next == NextCursor(rows, cursor, asOf, limit, bound)
    && page.workingSet == |Examined(rows, cursor, asOf, bound)|
    && page.truncated == (page.workingSet > bound)
  }

  /** One page of the list: a page after a cursor is read at the cursor's instant, a first page now. */
  method AttentionPage(db: Database, query: Query, cursor: Option<Cursor>, now: int, requested: nat, bound: nat)
    returns (page: Page)
    ensures var asOf := if cursor.Some? then cursor.value.asOf else now;
      IsPage(page, List(db, query.(asOf := asOf)), query.manager, cursor, asOf, ClampedLimit(requested), bound)
  {
    var asOf := if cursor.Some? then cursor.value.asOf else now;
    page := Paginate(List(db, query.(asOf := asOf)), query.manager, cursor, asOf, ClampedLimit(requested), bound);
  }

  /** The rows as items, each with where it leads. */
  method ItemsOf(rows: seq<Row>, manager: bool) returns (items: seq<Item>)
    ensures RowsOf(items) == rows
    ensures forall i | 0 <= i < |items| :: items[i].href == HrefOf(items[i].row, manager)
  {
    items := [];
    for i := 0 to |rows|
      invariant |items| == i
      invariant forall j | 0 <= j < i :: items[j] == Item(rows[j], HrefOf(rows[j], manager))
    {
      items := items + [Item(rows[i], HrefOf(rows[i], manager))];
    }
  }

  method Paginate(rows: seq<Row>, manager: bool, cursor: Option<Cursor>, asOf: int, limit: nat, bound: nat)
    returns (page: Page)
    requires limit >= 1
    ensures IsPage(page, rows, manager, cursor, asOf, limit, bound)
  {
    var examined := Examined(rows, cursor, asOf, bound);
    var fetched := Take(examined, limit + 1);
    var bounded := if fetched == [] then 0 else |examined|;
    var hasNext := |fetched| > limit;
    var kept := Take(fetched, limit);
    var items := ItemsOf(kept, manager);
    var next := if hasNext && items != [] then Some(Cursor(asOf, KeyAt(items[|items| - 1].row, asOf))) else None;
    page := Page(items, next, asOf, bounded, bounded > bound);
  }

  /** The page of the rows examined, and the cursor after it when one more was fetched than it holds. */
  function PageOf(examined: seq<Row>, limit: nat): seq<Row> {
    Take(Take(examined, limit + 1), limit)
  }

  function NextOf(examined: seq<Row>, asOf: int, limit: nat): Option<Cursor> {
    var page := PageOf(examined, limit);
    if |Take(examined, limit + 1)| > limit && page != [] then Some(Cursor(asOf, KeyAt(page[|page| - 1], asOf))) else None
  }

  function PageRows(rows: seq<Row>, cursor: Option<Cursor>, asOf: int, limit: nat, bound: nat): seq<Row> {
    PageOf(Examined(rows, cursor, asOf, bound), limit)
  }

  function NextCursor(rows: seq<Row>, cursor: Option<Cursor>, asOf: int, limit: nat, bound: nat): Option<Cursor> {
    NextOf(Examined(rows, cursor, asOf, bound), asOf, limit)
  }

  // ---------------------------------------------------------------------------------------------
  // A cursor is a position in the order

  /** The cursor a reader holds after the first `i` rows of the ordered list. */
  function CursorAt(rows: seq<Row>, asOf: int, i: nat): Option<Cursor>
    requires i <= |Ordered(rows, asOf)|
  {
    CursorIn(Ordered(rows, asOf), asOf, i)
  }

  function CursorIn(sorted: seq<Row>, asOf: int, i: nat): Option<Cursor>
    requires i <= |sorted|
  {
    if i == 0 then None else Some(Cursor(asOf, KeyAt(sorted[i - 1], asOf)))
  }

  lemma {:induction false} KeepSuffix(sorted: seq<Row>, asOf: int, i: nat, cursor: Option<Cursor>)
    requires Ascending(sorted, asOf) && i <= |sorted|
    requires cursor == if i == 0 then None else Some(Cursor(asOf, KeyAt(sorted[i - 1], asOf)))
    ensures Keep(sorted, After(cursor, asOf)) == sorted[i..]
  {
    forall j | 0 <= j < |sorted| ensures After(cursor, asOf)(sorted[j]) <==> j >= i {}
    KeepFrom(sorted, After(cursor, asOf), i);
  }

  lemma {:induction false} KeepFrom(s: seq<Row>, p: Row -> bool, i: nat)
    requires i <= |s| && forall j | 0 <= j < |s| :: p(s[j]) <==> j >= i
    ensures Keep(s, p) == s[i..]
  {
    if s == [] {
    } else if i == 0 {
      KeepFrom(s[1..], p, 0);
    } else {
      KeepFrom(s[1..], p, i - 1);
      assert s[1..][i - 1..] == s[i..];
    }
  }

  lemma {:induction false} KeepKeepsMultisets(a: seq<Row>, b: seq<Row>, p: Row -> bool)
    requires multiset(a) == multiset(b)
    ensures multiset(Keep(a, p)) == multiset(Keep(b, p))
  {
    forall row ensures multiset(Keep(a, p))[row] == multiset(Keep(b, p))[row] {
      KeepCounts(a, p, row);
      KeepCounts(b, p, row);
    }
  }

  lemma {:induction false} KeepCounts(s: seq<Row>, p: Row -> bool, row: Row)
    ensures multiset(Keep(s, p))[row] == if p(row) then multiset(s)[row] else 0
  {
    if s == [] {
    } else {
      assert s == [s[0]] + s[1..];
      KeepCounts(s[1..], p, row);
    }
  }

  lemma {:induction false} KeepDistinct(rows: seq<Row>, p: Row -> bool)
    requires Distinct(rows)
    ensures Distinct(Keep(rows, p))
  {
    if rows == [] {
    } else {
      KeepDistinct(rows[1..], p);
      forall r | r in Keep(rows[1..], p) ensures r.kind != rows[0].kind || r.id != rows[0].id {
        InKeep(rows[1..], p, r);
        var i :| 0 <= i < |rows[1..]| && rows[1..][i] == r;
        assert rows[i + 1] == r;
      }
    }
  }

  /** What remains after a position is the rest of the ordered list. */
  lemma RemainingIsTheSuffix(rows: seq<Row>, asOf: int, i: nat)
    requires Distinct(rows) && i <= |Ordered(rows, asOf)|
    ensures Ordered(Keep(rows, After(CursorAt(rows, asOf, i), asOf)), asOf) == Ordered(rows, asOf)[i..]
  {
    var cursor := CursorAt(rows, asOf, i);
    var p := After(cursor, asOf);
    var sorted := Ordered(rows, asOf);
    OrderedAscends(rows, asOf);
    KeepDistinct(rows, p);
    OrderedAscends(Keep(rows, p), asOf);
    KeepSuffix(sorted, asOf, i, cursor);
    KeepKeepsMultisets(rows, sorted, p);
    AscendingIsUnique(Ordered(Keep(rows, p), asOf), sorted[i..], asOf);
  }

  /** The size and truncation a page reports, in terms of the rows that remain. */
  lemma WorkingSetIsBounded(rows: seq<Row>, asOf: int, i: nat, bound: nat)
    requires Distinct(rows) && i <= |Ordered(rows, asOf)|
    ensures var remaining := |Ordered(rows, asOf)| - i;
      var examined := |Examined(rows, CursorAt(rows, asOf, i), asOf, bound)|;
      && examined == (if remaining < bound + 1 then remaining else bound + 1)
      && (examined > bound <==> remaining > bound)
  {
    RemainingIsTheSuffix(rows, asOf, i);
  }

  // ---------------------------------------------------------------------------------------------
  // Following the cursors

  /** Whether a page that starts at position `i` is followed by another. */
  predicate HasMore(total: nat, i: nat, limit: nat, bound: nat) {
    i + limit < total && limit <= bound
  }

  /** Up to `n` rows from position `i` on. */
  function Slice<A>(s: seq<A>, i: nat, n: nat): seq<A>
    requires i <= |s|
  {
    if i + n <= |s| then s[i..i + n] else s[i..]
  }

  /** How many rows a page holds when there are enough. */
  function PageSize(limit: nat, bound: nat): nat {
    if limit <= bound then limit else bound + 1
  }

  lemma FetchedFrom<A>(sorted: seq<A>, i: nat, limit: nat, bound: nat)
    requires i <= |sorted| && limit >= 1
    ensures var fetched := Take(Take(sorted[i..], bound + 1), limit + 1);
      && (|fetched| > limit <==> HasMore(|sorted|, i, limit, bound))
      && Take(fetched, limit) == Slice(sorted, i, PageSize(limit, bound))
  {
  }

  lemma ExaminedAt(rows: seq<Row>, asOf: int, i: nat, bound: nat)
    requires Distinct(rows) && i <= |Ordered(rows, asOf)|
    ensures Examined(rows, CursorAt(rows, asOf, i), asOf, bound) == Take(Ordered(rows, asOf)[i..], bound + 1)
  {
    RemainingIsTheSuffix(rows, asOf, i);
  }

  /** The page and the next cursor at position `i` are what the ordered list says. */
  ghost predicate PagesAs(rows: seq<Row>, asOf: int, sorted: seq<Row>, i: nat, limit: nat, bound: nat)
    requires i <= |sorted|
  {
    && PageRows(rows, CursorIn(sorted, asOf, i), asOf, limit, bound) == Slice(sorted, i, PageSize(limit, bound))
    && NextCursor(rows, CursorIn(sorted, asOf, i), asOf, limit, bound)
       == (if HasMore(|sorted|, i, limit, bound) then CursorIn(sorted, asOf, i + limit) else None)
  }

  lemma PageOfExamined(sorted: seq<Row>, asOf: int, i: nat, limit: nat, bound: nat)
    requires i <= |sorted| && limit >= 1
    ensures var examined := Take(sorted[i..], bound + 1);
      && PageOf(examined, limit) == Slice(sorted, i, PageSize(limit, bound))
      && NextOf(examined, asOf, limit) == (if HasMore(|sorted|, i, limit, bound) then CursorIn(sorted, asOf, i + limit) else None)
  {
    FetchedFrom(sorted, i, limit, bound);
    if HasMore(|sorted|, i, limit, bound) {
      var page := sorted[i..i + limit];
      assert page[|page| - 1] == sorted[i + limit - 1];
    }
  }

  lemma PageAt(rows: seq<Row>, asOf: int, i: nat, limit: nat, bound: nat)
    requires Distinct(rows) && i <= |Ordered(rows, asOf)| && limit >= 1
    ensures PagesAs(rows, asOf, Ordered(rows, asOf), i, limit, bound)
  {
    ExaminedAt(rows, asOf, i, bound);
    PageOfExamined(Ordered(rows, asOf), asOf, i, limit, bound);
  }

  /** The pages of a plain sequence, one after another. */
  function Slices<A>(s: seq<A>, i: nat, limit: nat, bound: nat): seq<A>
    requires i <= |s| && limit >= 1
    decreases |s| - i
  {
    var page := Slice(s, i, PageSize(limit, bound));
    if HasMore(|s|, i, limit, bound) then page + Slices(s, i + limit, limit, bound) else page
  }

  lemma {:induction false} KeepsFewer(rows: seq<Row>, p: Row -> bool, q: Row -> bool, row: Row)
    requires (forall r | r in rows && p(r) :: q(r)) && row in rows && q(row) && !p(row)
    ensures |Keep(rows, p)| < |Keep(rows, q)|
  {
    if rows[0] == row {
      KeepsNoMore(rows[1..], p, q);
    } else {
      assert rows[0] in rows;
      KeepsFewer(rows[1..], p, q, row);
    }
  }

  lemma {:induction false} KeepsNoMore(rows: seq<Row>, p: Row -> bool, q: Row -> bool)
    requires forall r | r in rows && p(r) :: q(r)
    ensures |Keep(rows, p)| <= |Keep(rows, q)|
  {
    if rows != [] {
      assert rows[0] in rows;
      KeepsNoMore(rows[1..], p, q);
    }
  }

  lemma {:induction false} InsertHolds(row: Row, rows: seq<Row>, asOf: int, r: Row)
    ensures r in InsertRow(row, rows, asOf) ==> r == row || r in rows
  {
    if rows != [] {
      InsertHolds(row, rows[1..], asOf, r);
    }
  }

  lemma {:induction false} OrderedHolds(rows: seq<Row>, asOf: int, r: Row)
    requires r in Ordered(rows, asOf)
    ensures r in rows
  {
    if rows != [] {
      InsertHolds(rows[0], Ordered(rows[1..], asOf), asOf, r);
      if r in Ordered(rows[1..], asOf) {
        OrderedHolds(rows[1..], asOf, r);
      }
    }
  }

  /** The rows still to read after a cursor. */
  function Remaining(rows: seq<Row>, cursor: Option<Cursor>, asOf: int): nat {
    |Keep(rows, After(cursor, asOf))|
  }

  /** A next cursor leaves fewer rows to read than the cursor it came after. */
  lemma NextLeavesFewer(rows: seq<Row>, cursor: Option<Cursor>, asOf: int, limit: nat, bound: nat)
    requires NextCursor(rows, cursor, asOf, limit, bound).Some?
    ensures Remaining(rows, NextCursor(rows, cursor, asOf, limit, bound), asOf) < Remaining(rows, cursor, asOf)
  {
    var page := PageRows(rows, cursor, asOf, limit, bound);
    var last, next := page[|page| - 1], NextCursor(rows, cursor, asOf, limit, bound);
    var left := Keep(rows, After(cursor, asOf));
    assert last in Ordered(left, asOf);
    OrderedHolds(left, asOf, last);
    InKeep(rows, After(cursor, asOf), last);
    forall r | r in rows && After(next, asOf)(r) ensures After(cursor, asOf)(r) {
      if cursor.Some? {
        BelowIsTransitive(cursor.value.after, KeyAt(last, asOf), KeyAt(r, asOf));
      }
    }
    KeepsFewer(rows, After(next, asOf), After(cursor, asOf), last);
  }

  /** Every row a reader sees who starts at a cursor and follows each page's own next cursor until there is none. */
  function Follow(rows: seq<Row>, asOf: int, cursor: Option<Cursor>, limit: nat, bound: nat): seq<Row>
    decreases Remaining(rows, cursor, asOf)
  {
    var page := PageRows(rows, cursor, asOf, limit, bound);
    var next := NextCursor(rows, cursor, asOf, limit, bound);
    if next.None? then page
    else
      NextLeavesFewer(rows, cursor, asOf, limit, bound);
      page + Follow(rows, asOf, next, limit, bound)
  }

  lemma FollowUnfolds(rows: seq<Row>, asOf: int, sorted: seq<Row>, i: nat, limit: nat, bound: nat)
    requires i <= |sorted| && PagesAs(rows, asOf, sorted, i, limit, bound)
    ensures var page := Slice(sorted, i, PageSize(limit, bound));
      Follow(rows, asOf, CursorIn(sorted, asOf, i), limit, bound)
      == if HasMore(|sorted|, i, limit, bound) then page + Follow(rows, asOf, CursorIn(sorted, asOf, i + limit), limit, bound) else page
  {
  }

  ghost predicate PagesThroughout(rows: seq<Row>, asOf: int, sorted: seq<Row>, limit: nat, bound: nat) {
    forall j: nat | j <= |sorted| :: PagesAs(rows, asOf, sorted, j, limit, bound)
  }

  lemma FollowUnfoldsAt(rows: seq<Row>, asOf: int, sorted: seq<Row>, i: nat, limit: nat, bound: nat)
    requires i <= |sorted| && PagesThroughout(rows, asOf, sorted, limit, bound)
    ensures var page := Slice(sorted, i, PageSize(limit, bound));
      Follow(rows, asOf, CursorIn(sorted, asOf, i), limit, bound)
      == if HasMore(|sorted|, i, limit, bound) then page + Follow(rows, asOf, CursorIn(sorted, asOf, i + limit), limit, bound) else page
  {
    assert PagesAs(rows, asOf, sorted, i, limit, bound);
    FollowUnfolds(rows, asOf, sorted, i, limit, bound);
  }

  /** `walk` gives the page at a position and then whatever it gives after that page. */
  ghost predicate Walks<A>(walk: nat -> seq<A>, s: seq<A>, i: nat, limit: nat, bound: nat)
    requires i <= |s|
  {
    var page := Slice(s, i, PageSize(limit, bound));
    walk(i) == if HasMore(|s|, i, limit, bound) then page + walk(i + limit) else page
  }

  lemma {:induction false} WalkIsSlices<A>(walk: nat -> seq<A>, s: seq<A>, i: nat, limit: nat, bound: nat)
    requires i <= |s| && limit >= 1 && forall j: nat | j <= |s| :: Walks(walk, s, j, limit, bound)
    ensures walk(i) == Slices(s, i, limit, bound)
    decreases |s| - i
  {
    assert Walks(walk, s, i, limit, bound);
    if HasMore(|s|, i, limit, bound) {
      WalkIsSlices(walk, s, i + limit, limit, bound);
    }
  }

  ghost function FollowFrom(rows: seq<Row>, asOf: int, sorted: seq<Row>, limit: nat, bound: nat): nat -> seq<Row> {
    (i: nat) => if i <= |sorted| then Follow(rows, asOf, CursorIn(sorted, asOf, i), limit, bound) else []
  }

  lemma FollowFromIs(rows: seq<Row>, asOf: int, sorted: seq<Row>, i: nat, limit: nat, bound: nat)
    requires i <= |sorted|
    ensures FollowFrom(rows, asOf, sorted, limit, bound)(i) == Follow(rows, asOf, CursorIn(sorted, asOf, i), limit, bound)
  {
  }

  lemma FollowGoesOn(rows: seq<Row>, asOf: int, sorted: seq<Row>, i: nat, limit: nat, bound: nat)
    requires i <= |sorted| && PagesThroughout(rows, asOf, sorted, limit, bound) && HasMore(|sorted|, i, limit, bound)
    ensures Follow(rows, asOf, CursorIn(sorted, asOf, i), limit, bound)
         == Slice(sorted, i, PageSize(limit, bound)) + Follow(rows, asOf, CursorIn(sorted, asOf, i + limit), limit, bound)
  {
    FollowUnfoldsAt(rows, asOf, sorted, i, limit, bound);
  }

  lemma FollowStops(rows: seq<Row>, asOf: int, sorted: seq<Row>, i: nat, limit: nat, bound: nat)
    requires i <= |sorted| && PagesThroughout(rows, asOf, sorted, limit, bound) && !HasMore(|sorted|, i, limit, bound)
    ensures Follow(rows, asOf, CursorIn(sorted, asOf, i), limit, bound) == Slice(sorted, i, PageSize(limit, bound))
  {
    FollowUnfoldsAt(rows, asOf, sorted, i, limit, bound);
  }

  lemma FollowWalks(rows: seq<Row>, asOf: int, sorted: seq<Row>, i: nat, limit: nat, bound: nat)
    requires i <= |sorted| && PagesThroughout(rows, asOf, sorted, limit, bound)
    ensures Walks(FollowFrom(rows, asOf, sorted, limit, bound), sorted, i, limit, bound)
  {
    FollowFromIs(rows, asOf, sorted, i, limit, bound);
    if HasMore(|sorted|, i, limit, bound) {
      FollowFromIs(rows, asOf, sorted, i + limit, limit, bound);
      FollowGoesOn(rows, asOf, sorted, i, limit, bound);
    } else {
      FollowStops(rows, asOf, sorted, i, limit, bound);
    }
  }

  lemma FollowStarts(rows: seq<Row>, asOf: int, sorted: seq<Row>, limit: nat, bound: nat)
    ensures FollowFrom(rows, asOf, sorted, limit, bound)(0) == Follow(rows, asOf, None, limit, bound)
  {
  }

  lemma FollowIsSlices(rows: seq<Row>, asOf: int, sorted: seq<Row>, limit: nat, bound: nat)
    requires limit >= 1 && PagesThroughout(rows, asOf, sorted, limit, bound)
    ensures FollowFrom(rows, asOf, sorted, limit, bound)(0) == Slices(sorted, 0, limit, bound)
  {
    var walk := FollowFrom(rows, asOf, sorted, limit, bound);
    forall j: nat | j <= |sorted| ensures Walks(walk, sorted, j, limit, bound) {
      FollowWalks(rows, asOf, sorted, j, limit, bound);
    }
    WalkIsSlices(walk, sorted, 0, limit, bound);
  }

  lemma {:induction false} SlicesAreTheRest<A>(s: seq<A>, i: nat, limit: nat, bound: nat)
    requires i <= |s| && 1 <= limit <= bound
    ensures Slices(s, i, limit, bound) == s[i..]
    decreases |s| - i
  {
    if HasMore(|s|, i, limit, bound) {
      SlicesAreTheRest(s, i + limit, limit, bound);
      assert s[i..] == s[i..i + limit] + s[i + limit..];
    }
  }

  /**
   Following the cursors from the start reads every row, once each and in order, if and only if a
   page fits the working set or the whole list does.
   */
  lemma FollowIsCompleteExactlyWhenPagesFit(rows: seq<Row>, asOf: int, limit: nat, bound: nat)
    requires Distinct(rows) && limit >= 1
    ensures Follow(rows, asOf, None, limit, bound) == Ordered(rows, asOf) <==> limit <= bound || |rows| <= bound + 1
  {
    var sorted := Ordered(rows, asOf);
    OrderedAscends(rows, asOf);
    assert |sorted| == |multiset(sorted)| == |rows|;
    assert sorted[0..] == sorted;
    forall j: nat | j <= |sorted| ensures PagesAs(rows, asOf, sorted, j, limit, bound) {
      PageAt(rows, asOf, j, limit, bound);
    }
    FollowIsSlices(rows, asOf, sorted, limit, bound);
    FollowStarts(rows, asOf, sorted, limit, bound);
    if limit <= bound {
      SlicesAreTheRest(sorted, 0, limit, bound);
    }
  }

  // ---------------------------------------------------------------------------------------------
  // The list's rows are distinct

  ghost predicate OnePerId(rows: seq<Row>, kind: SourceKind) {
    && AllOf(rows, kind)
    && forall i, j | 0 <= i < j < |rows| :: rows[i].id != rows[j].id
  }

  /** Each driving row gives at most one row, with its identifier, kind and company. */
  ghost predicate OneRowEach<A>(s: seq<A>, f: A -> seq<Row>, idOf: A -> nat, kind: SourceKind, company: nat, companyOf: A -> nat) {
    && (forall i, j | 0 <= i < j < |s| :: companyOf(s[i]) != companyOf(s[j]) || idOf(s[i]) != idOf(s[j]))
    && (forall a | a in s :: OneRow(f(a), idOf(a), kind, company, companyOf(a)))
  }

  ghost predicate OneRow(rows: seq<Row>, id: nat, kind: SourceKind, company: nat, of: nat) {
    |rows| <= 1 && forall row | row in rows :: row.id == id && of == company && row.kind == kind
  }

  lemma OneRowEachOfTheRest<A>(s: seq<A>, f: A -> seq<Row>, idOf: A -> nat, kind: SourceKind, company: nat, companyOf: A -> nat)
    requires OneRowEach(s, f, idOf, kind, company, companyOf) && s != []
    ensures OneRowEach(s[1..], f, idOf, kind, company, companyOf)
  {
    forall a | a in s[1..] ensures a in s {}
  }

  lemma HeadIdDiffers<A>(s: seq<A>, f: A -> seq<Row>, idOf: A -> nat, kind: SourceKind, company: nat, companyOf: A -> nat, row: Row)
    requires OneRowEach(s, f, idOf, kind, company, companyOf) && s != [] && f(s[0]) != [] && row in Collect(s[1..], f)
    ensures row.id != f(s[0])[0].id && row.kind == kind
  {
    InCollect(s[1..], f, row);
    var i :| 0 <= i < |s[1..]| && row in f(s[1..][i]);
    assert s[1..][i] == s[i + 1] && s[i + 1] in s && s[0] in s;
    assert f(s[0])[0] in f(s[0]);
  }

  /** Driving rows with different identifiers that give at most one row each give distinct rows. */
  lemma {:induction false} CollectDistinct<A>(s: seq<A>, f: A -> seq<Row>, idOf: A -> nat, kind: SourceKind, company: nat, companyOf: A -> nat)
    requires OneRowEach(s, f, idOf, kind, company, companyOf)
    ensures OnePerId(Collect(s, f), kind)
  {
    if s != [] {
      OneRowEachOfTheRest(s, f, idOf, kind, company, companyOf);
      CollectDistinct(s[1..], f, idOf, kind, company, companyOf);
      assert s[0] in s;
      if f(s[0]) == [] {
        assert Collect(s, f) == Collect(s[1..], f);
      } else {
        var head := f(s[0])[0];
        assert f(s[0]) == [head] && head in f(s[0]);
        forall row | row in Collect(s[1..], f) ensures row.id != head.id {
          HeadIdDiffers(s, f, idOf, kind, company, companyOf, row);
        }
        OneMoreId(head, Collect(s[1..], f), kind);
      }
    }
  }

  lemma OneMoreId(head: Row, rows: seq<Row>, kind: SourceKind)
    requires OnePerId(rows, kind) && head.kind == kind && forall row | row in rows :: row.id != head.id
    ensures OnePerId([head] + rows, kind)
  {
  }

  lemma {:induction false} ConcatDistinct(a: seq<Row>, b: seq<Row>)
    requires Distinct(a) && Distinct(b)
    requires forall x, y | x in a && y in b :: x.kind != y.kind || x.id != y.id
    ensures Distinct(a + b)
  {
  }

  function DecisionId(d: Decision): nat { d.key.id }
  function DecisionCompany(d: Decision): nat { d.key.company }
  function RunId(r: WorkflowRun): nat { r.key.id }
  function RunCompany(r: WorkflowRun): nat { r.key.company }
  function DeliveryId(d: Delivery): nat { d.key.id }
  function DeliveryCompany(d: Delivery): nat { d.key.company }

  lemma MyDecisionIsOneRow(db: Database, q: Query, d: Decision)
    requires WellFormed(db) && d in db.decisions
    ensures |MyDecisionRows(db, q)(d)| <= 1
    ensures forall row | row in MyDecisionRows(db, q)(d) ::
      row.id == d.key.id && d.key.company == q.company && row.kind == DecisionSource
  {
    OpenDecisionIsOneRow(db, q, d, ToPrincipal, Some(q.viewer));
    OpenDecisionKind(db, q, d, ToPrincipal, Some(q.viewer));
    var reviews := Keep(db.reviewers, ReviewMatch(q, d));
    AtMostOneKept(db.reviewers, ReviewMatch(q, d), ReviewerKey, (d.key.company, d.key.id, q.viewer));
    if |reviews| == 1 {
      var r := reviews[0];
      assert reviews == [r];
      CollectOne(r, OnReview(db, q, d));
      var viewers := Keep(db.principals, ViewerMatch(q, r));
      AtMostOneKept(db.principals, ViewerMatch(q, r), AccountKey, (q.company, Some(r.user), 0));
      if |viewers| == 1 {
        EachOne(viewers, OpenDecision(db, q, d, ToPrincipal, Some(q.viewer)));
      }
    }
  }

  lemma DecisionKeysDiffer(db: Database)
    requires WellFormed(db)
    ensures forall i, j | 0 <= i < j < |db.decisions| ::
      DecisionCompany(db.decisions[i]) != DecisionCompany(db.decisions[j]) || DecisionId(db.decisions[i]) != DecisionId(db.decisions[j])
  {
    forall i, j | 0 <= i < j < |db.decisions|
      ensures DecisionCompany(db.decisions[i]) != DecisionCompany(db.decisions[j])
           || DecisionId(db.decisions[i]) != DecisionId(db.decisions[j])
    {
      assert DecisionKey(db.decisions[i]) != DecisionKey(db.decisions[j]);
    }
  }

  lemma TeamDecisionsDistinct(db: Database, q: Query)
    requires WellFormed(db)
    ensures OnePerId(Collect(db.decisions, TeamDecisionRows(db, q, true)), DecisionSource)
  {
    DecisionKeysDiffer(db);
    forall d | d in db.decisions
      ensures OneRow(TeamDecisionRows(db, q, true)(d), DecisionId(d), DecisionSource, q.company, DecisionCompany(d))
    {
      OpenDecisionIsOneRow(db, q, d, ToChannelTeam, None);
      OpenDecisionKind(db, q, d, ToChannelTeam, None);
    }
    CollectDistinct(db.decisions, TeamDecisionRows(db, q, true), DecisionId, DecisionSource, q.company, DecisionCompany);
  }

  lemma MyDecisionsDistinct(db: Database, q: Query)
    requires WellFormed(db)
    ensures OnePerId(Collect(db.decisions, MyDecisionRows(db, q)), DecisionSource)
  {
    DecisionKeysDiffer(db);
    forall d | d in db.decisions
      ensures OneRow(MyDecisionRows(db, q)(d), DecisionId(d), DecisionSource, q.company, DecisionCompany(d))
    {
      MyDecisionIsOneRow(db, q, d);
    }
    CollectDistinct(db.decisions, MyDecisionRows(db, q), DecisionId, DecisionSource, q.company, DecisionCompany);
  }

  lemma DecisionsDistinct(db: Database, q: Query)
    requires WellFormed(db)
    ensures OnePerId(Decisions(db, q, true), DecisionSource)
  {
    TeamDecisionsDistinct(db, q);
    MyDecisionsDistinct(db, q);
    var team, mine := Collect(db.decisions, TeamDecisionRows(db, q, true)), Collect(db.decisions, MyDecisionRows(db, q));
    if q.view.MyWork? {
      NothingCollected(db.decisions, TeamDecisionRows(db, q, true));
    } else {
      NothingCollected(db.decisions, MyDecisionRows(db, q));
    }
    assert Decisions(db, q, true) == if q.view.MyWork? then mine else team;
  }

  lemma RunKeysDiffer(db: Database)
    requires WellFormed(db)
    ensures forall i, j | 0 <= i < j < |db.runs| ::
      RunCompany(db.runs[i]) != RunCompany(db.runs[j]) || RunId(db.runs[i]) != RunId(db.runs[j])
  {
    forall i, j | 0 <= i < j < |db.runs|
      ensures RunCompany(db.runs[i]) != RunCompany(db.runs[j]) || RunId(db.runs[i]) != RunId(db.runs[j])
    {
      assert RunKey(db.runs[i]) != RunKey(db.runs[j]);
    }
  }

  lemma RunIsAtMostOneRow(db: Database, q: Query, r: WorkflowRun)
    requires WellFormed(db) && r in db.runs
    ensures |ReconciliationRows(db, q, true)(r)| <= 1 && |FailureRows(db, q, true)(r)| <= 1
    ensures forall row | row in ReconciliationRows(db, q, true)(r) ::
      row.id == r.key.id && r.key.company == q.company && row.kind == RunReconciliation
    ensures forall row | row in FailureRows(db, q, true)(r) ::
      row.id == r.key.id && r.key.company == q.company && row.kind == RunFailure
  {
    Resolves(db.versions, VersionKey, Key(r.key.company, r.version));
    var versions := At(db.versions, VersionKey, Key(r.key.company, r.version));
    EachOne(versions, [ReconciliationRow(r)]);
    OneActor(db, r.key.company, r.actor);
    var actor := Actors(db, r.key.company, r.actor)[0];
    assert Actors(db, r.key.company, r.actor) == [actor];
    CollectOne(actor, FailureFor(q, r, true));
    EachOne(versions, FailureFor(q, r, true)(actor));
  }

  lemma RunSourcesDistinct(db: Database, q: Query)
    requires WellFormed(db)
    ensures OnePerId(Reconciliations(db, q, true), RunReconciliation) && OnePerId(Failures(db, q, true), RunFailure)
  {
    RunKeysDiffer(db);
    assert OneRowEach(db.runs, ReconciliationRows(db, q, true), RunId, RunReconciliation, q.company, RunCompany) by {
      forall r | r in db.runs
        ensures OneRow(ReconciliationRows(db, q, true)(r), RunId(r), RunReconciliation, q.company, RunCompany(r))
      {
        RunIsAtMostOneRow(db, q, r);
      }
    }
    assert OneRowEach(db.runs, FailureRows(db, q, true), RunId, RunFailure, q.company, RunCompany) by {
      forall r | r in db.runs
        ensures OneRow(FailureRows(db, q, true)(r), RunId(r), RunFailure, q.company, RunCompany(r))
      {
        RunIsAtMostOneRow(db, q, r);
      }
    }
    CollectDistinct(db.runs, ReconciliationRows(db, q, true), RunId, RunReconciliation, q.company, RunCompany);
    CollectDistinct(db.runs, FailureRows(db, q, true), RunId, RunFailure, q.company, RunCompany);
  }

  lemma DeliveryKeysDiffer(db: Database)
    requires WellFormed(db)
    ensures forall i, j | 0 <= i < j < |db.deliveries| ::
      DeliveryCompany(db.deliveries[i]) != DeliveryCompany(db.deliveries[j]) || DeliveryId(db.deliveries[i]) != DeliveryId(db.deliveries[j])
  {
    forall i, j | 0 <= i < j < |db.deliveries|
      ensures DeliveryCompany(db.deliveries[i]) != DeliveryCompany(db.deliveries[j])
           || DeliveryId(db.deliveries[i]) != DeliveryId(db.deliveries[j])
    {
      assert DeliveryKey(db.deliveries[i]) != DeliveryKey(db.deliveries[j]);
    }
  }

  lemma DeliveryIsAtMostOneRow(db: Database, q: Query, d: Delivery)
    requires WellFormed(db) && d in db.deliveries
    ensures |DeliveryRows(db, q, true)(d)| <= 1
    ensures forall row | row in DeliveryRows(db, q, true)(d) ::
      row.id == d.key.id && d.key.company == q.company && row.kind == DeliveryFailure
  {
    var run, actor := DeliveryIsOneRow(db, q, d);
  }

  lemma DeliveriesAreOneRowEach(db: Database, q: Query)
    requires WellFormed(db)
    ensures OneRowEach(db.deliveries, DeliveryRows(db, q, true), DeliveryId, DeliveryFailure, q.company, DeliveryCompany)
  {
    DeliveryKeysDiffer(db);
    forall d | d in db.deliveries
      ensures OneRow(DeliveryRows(db, q, true)(d), DeliveryId(d), DeliveryFailure, q.company, DeliveryCompany(d))
    {
      DeliveryIsAtMostOneRow(db, q, d);
    }
  }

  lemma DeliveriesDistinct(db: Database, q: Query)
    requires WellFormed(db)
    ensures OnePerId(Deliveries(db, q, true), DeliveryFailure)
  {
    DeliveriesAreOneRowEach(db, q);
    CollectDistinct(db.deliveries, DeliveryRows(db, q, true), DeliveryId, DeliveryFailure, q.company, DeliveryCompany);
  }

  function GroupId(g: nat): nat { g }
  function GroupCompany(q: Query): nat -> nat { (g: nat) => q.company }

  lemma RefusalsDistinct(db: Database, q: Query)
    requires WellFormed(db)
    ensures OnePerId(RefusedBindings(db, q, true), BindingRefusal)
  {
    var groups := Groups(Refusals(db, q));
    GroupsAreTheBindings(Refusals(db, q));
    forall g | g in groups
      ensures OneRow(RefusalRows(db, q, true)(g), GroupId(g), BindingRefusal, q.company, GroupCompany(q)(g))
    {
      var bindings := At(db.bindings, BindingKey, Key(q.company, g));
      AtMostOne(db.bindings, BindingKey, Key(q.company, g));
      if |bindings| == 1 {
        var b := bindings[0];
        assert bindings == [b];
        InAt(db.bindings, BindingKey, Key(q.company, g), b);
        CollectOne(b, OnBinding(db, q, g));
        OneVersion(db, b);
        EachOne(BindingVersions(db, b), [RefusalRow(b, At(Refusals(db, q), RefusalBinding, g))]);
      }
    }
    CollectDistinct(groups, RefusalRows(db, q, true), GroupId, BindingRefusal, q.company, GroupCompany(q));
  }

  lemma FiveSourcesDistinct(d: seq<Row>, b: seq<Row>, r: seq<Row>, f: seq<Row>, m: seq<Row>)
    requires OnePerId(d, DecisionSource) && OnePerId(b, BindingRefusal) && OnePerId(r, RunReconciliation)
    requires OnePerId(f, RunFailure) && OnePerId(m, DeliveryFailure)
    ensures Distinct(d + b + (r + f + m))
  {
    ConcatDistinct(d, b);
    ConcatDistinct(r, f);
    ConcatDistinct(r + f, m);
    ConcatDistinct(d + b, r + f + m);
  }

  lemma ListIsDistinct(db: Database, q: Query)
    requires WellFormed(db)
    ensures Distinct(List(db, q))
  {
    DecisionsDistinct(db, q);
    RefusalsDistinct(db, q);
    RunSourcesDistinct(db, q);
    DeliveriesDistinct(db, q);
    var d, b, r, f, m := Decisions(db, q, true), RefusedBindings(db, q, true), Reconciliations(db, q, true),
      Failures(db, q, true), Deliveries(db, q, true);
    FiveSourcesDistinct(d, b, r, f, m);
    KeepDistinct(d + b + (r + f + m), Ranked(q));
  }

  /**
   For every database the schema admits, every viewer, view and page limit: with the tables and the
   instant fixed, following the cursors reads exactly the list's rows, each once, in the five-part
   order, and stops.
   */
  lemma PagingReadsTheWholeList(db: Database, q: Query, limit: nat)
    requires WellFormed(db)
    ensures Distinct(List(db, q))
    ensures Follow(List(db, q), q.asOf, None, ClampedLimit(limit), MAX_WORKING_SET) == Ordered(List(db, q), q.asOf)
    ensures Ascending(Ordered(List(db, q), q.asOf), q.asOf)
    ensures multiset(Ordered(List(db, q), q.asOf)) == multiset(List(db, q))
  {
    ListIsDistinct(db, q);
    OrderedAscends(List(db, q), q.asOf);
    FollowIsCompleteExactlyWhenPagesFit(List(db, q), q.asOf, ClampedLimit(limit), MAX_WORKING_SET);
  }

  /** As many rows as were asked for, between one and a hundred, while there are as many, and a cursor exactly when more remain. */
  ghost predicate HoldsWhatIsAsked(rows: seq<Row>, asOf: int, sorted: seq<Row>, requested: nat, i: nat)
    requires i <= |sorted|
  {
    var n := if requested == 0 then 1 else if requested > 100 then 100 else requested;
    && PageRows(rows, CursorIn(sorted, asOf, i), asOf, ClampedLimit(requested), MAX_WORKING_SET) == Slice(sorted, i, n)
    && NextCursor(rows, CursorIn(sorted, asOf, i), asOf, ClampedLimit(requested), MAX_WORKING_SET)
       == (if i + n < |sorted| then CursorIn(sorted, asOf, i + n) else None)
  }

  lemma AskedPage(rows: seq<Row>, asOf: int, sorted: seq<Row>, requested: nat, i: nat)
    requires i <= |sorted| && PagesAs(rows, asOf, sorted, i, ClampedLimit(requested), MAX_WORKING_SET)
    ensures HoldsWhatIsAsked(rows, asOf, sorted, requested, i)
  {
  }

  lemma PageHoldsWhatIsAsked(rows: seq<Row>, asOf: int, requested: nat, i: nat)
    requires Distinct(rows) && i <= |Ordered(rows, asOf)|
    ensures HoldsWhatIsAsked(rows, asOf, Ordered(rows, asOf), requested, i)
  {
    PageAt(rows, asOf, i, ClampedLimit(requested), MAX_WORKING_SET);
    AskedPage(rows, asOf, Ordered(rows, asOf), requested, i);
  }
}
