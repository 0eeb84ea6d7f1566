/** The filter and the order of task listings. */
module TaskOrder {
  import opened Prelude

  datatype Priority = Low | Medium | High | Urgent

  datatype Stage = Todo | InProgress | Blocked | InReview | Completed | Cancelled

  /** Titles stand for their rank in the collation, identifiers for their value. */
  datatype Task = Task(
    id: nat,
    org: nat,
    project: nat,
    title: int,
    stage: Stage,
    priority: Priority,
    assignee: Option<nat>,
    due: Option<int>,
    createdAt: int,
    updatedAt: int)

  datatype Filter = Filter(
    org: nat,
    project: Option<nat>,
    stage: Option<Stage>,
    priority: Option<Priority>,
    assignee: Option<nat>,
    unassigned: bool)

  predicate Matches(t: Task, f: Filter) {
    && t.org == f.org
    && (f.project.None? || t.project == f.project.value)
    && (f.stage.None? || t.stage == f.stage.value)
    && (f.priority.None? || t.priority == f.priority.value)
    && (|| (f.assignee.Some? && t.assignee == f.assignee)
        || (f.assignee.None? && f.unassigned && t.assignee.None?)
        || (f.assignee.None? && !f.unassigned))
  }

  function Filtered(rows: seq<Task>, f: Filter): seq<Task> {
    if rows == [] then []
    else
      var rest := Filtered(rows[1..], f);
      if Matches(rows[0], f) then [rows[0]] + rest else rest
  }

  datatype SortBy = ByTitle | ByCreated | ByUpdated | ByDue | ByPriority | ByStage | Unsorted(name: string)

  datatype Order = Order(key: SortBy, desc: bool)

  function PriorityRank(p: Priority): int {
    match p
    case Low => 1
    case Medium => 2
    case High => 3
    case Urgent => 4
  }

  function StageRank(s: Stage): int {
    match s
    case Todo => 1
    case InProgress => 2
    case Blocked => 3
    case InReview => 4
    case Completed => 5
    case Cancelled => 6
  }

  /** The sort key named by the request; a missing value is SQL's NULL. */
  function KeyOf(t: Task, sort: SortBy): Option<int> {
    match sort
    case ByTitle => Some(t.title)
    case ByCreated => Some(t.createdAt)
    case ByUpdated => Some(t.updatedAt)
    case ByDue => t.due
    case ByPriority => Some(PriorityRank(t.priority))
    case ByStage => Some(StageRank(t.stage))
    case Unsorted(_) => None
  }

  /** One `CASE WHEN sort = key AND desc = ... THEN key END` of the ORDER BY list. */
  datatype Column = Column(key: SortBy, desc: bool, nullsLast: bool)

  /** Ascending columns put NULL last by default and descending ones first; due dates always last. */
  const COLUMNS: seq<Column> := [
    Column(ByTitle, false, true), Column(ByTitle, true, false),
    Column(ByCreated, false, true), Column(ByCreated, true, false),
    Column(ByUpdated, false, true), Column(ByUpdated, true, false),
    Column(ByDue, false, true), Column(ByDue, true, true),
    Column(ByPriority, false, true), Column(ByPriority, true, false),
    Column(ByStage, false, true), Column(ByStage, true, false)]

  function CaseKey(t: Task, c: Column, o: Order): Option<int> {
    if c.key == o.key && c.desc == o.desc then KeyOf(t, o.key) else None
  }

  /** SQL's comparison of two values of one column. */
  predicate Before(a: Option<int>, b: Option<int>, desc: bool, nullsLast: bool) {
    match (a, b)
    case (Some(x), Some(y)) => if desc then x > y else x < y
    case (Some(_), None) => nullsLast
    case (None, Some(_)) => !nullsLast
    case (None, None) => false
  }

  /** Compares column by column; the identifier decides last. */
  predicate LexLess(columns: seq<Column>, a: Task, b: Task, o: Order) {
    if columns == [] then a.id < b.id
    else
      var c := columns[0];
      var x, y := CaseKey(a, c, o), CaseKey(b, c, o);
      Before(x, y, c.desc, c.nullsLast) || (x == y && LexLess(columns[1..], a, b, o))
  }

  /** The order of `ListTasks`. */
  predicate CaseLess(a: Task, b: Task, o: Order) {
    LexLess(COLUMNS, a, b, o)
  }

  /** The order that is meant: the selected key, tasks without a due date last, then the identifier. */
  predicate KeyLess(a: Task, b: Task, o: Order) {
    var x, y := KeyOf(a, o.key), KeyOf(b, o.key);
    if x == y then a.id < b.id
    else if x.Some? && y.Some? then (if o.desc then x.value > y.value else x.value < y.value)
    else x.Some?
  }

  /** One priority is more pressing than another. */
  predicate Outranks(p: Priority, q: Priority) {
    match p
    case Urgent => q != Urgent
    case High => q == Medium || q == Low
    case Medium => q == Low
    case Low => false
  }

  /** One stage of the workflow comes after another. */
  predicate Follows(s: Stage, t: Stage) {
    match s
    case Todo => false
    case InProgress => t == Todo
    case Blocked => t == Todo || t == InProgress
    case InReview => t == Todo || t == InProgress || t == Blocked
    case Completed => t != Completed && t != Cancelled
    case Cancelled => t != Cancelled
  }

  /** The first task goes before the second by the field that the request names, tasks without a due date last. */
  predicate GoesBefore(a: Task, b: Task, o: Order) {
    match o.key
    case ByTitle => if o.desc then a.title > b.title else a.title < b.title
    case ByCreated => if o.desc then a.createdAt > b.createdAt else a.createdAt < b.createdAt
    case ByUpdated => if o.desc then a.updatedAt > b.updatedAt else a.updatedAt < b.updatedAt
    case ByDue =>
      a.due.Some? && (b.due.None? || if o.desc then a.due.value > b.due.value else a.due.value < b.due.value)
    case ByPriority => if o.desc then Outranks(a.priority, b.priority) else Outranks(b.priority, a.priority)
    case ByStage => if o.desc then Follows(a.stage, b.stage) else Follows(b.stage, a.stage)
    case Unsorted(_) => false
  }

  /** The comparison of keys is the comparison of the fields they stand for; the identifier decides between equals. */
  lemma KeyOrderIsMeant(a: Task, b: Task, o: Order)
    ensures KeyLess(a, b, o) <==> GoesBefore(a, b, o) || (!GoesBefore(b, a, o) && a.id < b.id)
  {
  }

  /** Every criterion given narrows the listing, and nothing else does: one filter at a time, down to the organization. */
  lemma CriteriaNarrow(t: Task, f: Filter)
    ensures Matches(t, f) <==> Matches(t, f.(project := None)) && (f.project.Some? ==> t.project == f.project.value)
    ensures Matches(t, f) <==> Matches(t, f.(stage := None)) && (f.stage.Some? ==> t.stage == f.stage.value)
    ensures Matches(t, f) <==> Matches(t, f.(priority := None)) && (f.priority.Some? ==> t.priority == f.priority.value)
    ensures Matches(t, f) <==> (Matches(t, f.(assignee := None, unassigned := false))
                                && (f.assignee.Some? ==> t.assignee == f.assignee)
                                && (f.assignee.None? && f.unassigned ==> t.assignee == None))
    ensures Matches(t, Filter(f.org, None, None, None, None, false)) <==> t.org == f.org
  {
  }

  // ---- The CASE list selects one key ----

  predicate Selects(c: Column, o: Order) {
    c.key == o.key && c.desc == o.desc
  }

  lemma {:induction false} NoneSelected(columns: seq<Column>, a: Task, b: Task, o: Order)
    requires forall i | 0 <= i < |columns| :: !Selects(columns[i], o)
    ensures LexLess(columns, a, b, o) <==> a.id < b.id
  {
    if columns != [] {
      assert !Selects(columns[0], o);
      NoneSelected(columns[1..], a, b, o);
    }
  }

  lemma {:induction false} OneSelected(columns: seq<Column>, k: nat, a: Task, b: Task, o: Order)
    requires k < |columns| && (forall i | 0 <= i < |columns| :: Selects(columns[i], o) <==> i == k)
    ensures var x, y := KeyOf(a, o.key), KeyOf(b, o.key);
            LexLess(columns, a, b, o) <==> Before(x, y, o.desc, columns[k].nullsLast) || (x == y && a.id < b.id)
  {
    assert Selects(columns[0], o) <==> k == 0;
    if k == 0 {
      NoneSelected(columns[1..], a, b, o);
    } else {
      OneSelected(columns[1..], k - 1, a, b, o);
    }
  }

  function ColumnIndex(o: Order): nat {
    (match o.key
     case ByTitle => 0
     case ByCreated => 2
     case ByUpdated => 4
     case ByDue => 6
     case ByPriority => 8
     case ByStage => 10
     case Unsorted(_) => 12) + if o.desc then 1 else 0
  }

  lemma ColumnSelected(i: nat, o: Order)
    requires i < |COLUMNS|
    ensures Selects(COLUMNS[i], o) <==> i == ColumnIndex(o)
    ensures COLUMNS[i].nullsLast == (!COLUMNS[i].desc || COLUMNS[i].key == ByDue)
  {
  }

  /** For every pair of tasks the CASE list orders them as the field named by the request and the identifier do. */
  lemma CaseOrderIsKeyOrder(a: Task, b: Task, o: Order)
    ensures CaseLess(a, b, o) <==> KeyLess(a, b, o)
    ensures CaseLess(a, b, o) <==> GoesBefore(a, b, o) || (!GoesBefore(b, a, o) && a.id < b.id)
  {
    KeyOrderIsMeant(a, b, o);
    forall i | 0 <= i < |COLUMNS| ensures Selects(COLUMNS[i], o) <==> i == ColumnIndex(o) {
      ColumnSelected(i, o);
    }
    if o.key.Unsorted? {
      NoneSelected(COLUMNS, a, b, o);
    } else {
      OneSelected(COLUMNS, ColumnIndex(o), a, b, o);
    }
  }

  /** A strict total order on tasks with distinct identifiers, so no two pages can disagree about ties. */
  lemma CaseOrderIsTotal(a: Task, b: Task, c: Task, o: Order)
    ensures !CaseLess(a, a, o)
    ensures CaseLess(a, b, o) && CaseLess(b, c, o) ==> CaseLess(a, c, o)
    ensures a.id != b.id ==> CaseLess(a, b, o) != CaseLess(b, a, o)
    ensures a.id == b.id && KeyOf(a, o.key) == KeyOf(b, o.key) ==> !CaseLess(a, b, o)
  {
    CaseOrderIsKeyOrder(a, a, o);
    CaseOrderIsKeyOrder(a, b, o);
    CaseOrderIsKeyOrder(b, a, o);
    CaseOrderIsKeyOrder(b, c, o);
    CaseOrderIsKeyOrder(a, c, o);
  }

  // ---- Sorted listings ----

  ghost predicate Distinct(rows: seq<Task>) {
    forall i, j | 0 <= i < j < |rows| :: rows[i].id != rows[j].id
  }

  ghost predicate Sorted(rows: seq<Task>, o: Order) {
    forall i, j | 0 <= i < j < |rows| :: KeyLess(rows[i], rows[j], o)
  }

  function Insert(t: Task, rows: seq<Task>, o: Order): seq<Task> {
    if rows == [] then [t]
    else if CaseLess(t, rows[0], o) then [t] + rows
    else [rows[0]] + Insert(t, rows[1..], o)
  }

  function SortRows(rows: seq<Task>, o: Order): seq<Task> {
    if rows == [] then [] else Insert(rows[0], SortRows(rows[1..], o), o)
  }

  /** `ListTasks` without its window. */
  function Listing(table: seq<Task>, f: Filter, o: Order): seq<Task> {
    SortRows(Filtered(table, f), o)
  }

  lemma {:induction false} InsertHolds(t: Task, rows: seq<Task>, o: Order, r: Task)
    ensures r in Insert(t, rows, o) <==> r == t || r in rows
    ensures |Insert(t, rows, o)| == |rows| + 1
  {
    if rows != [] && !CaseLess(t, rows[0], o) {
      InsertHolds(t, rows[1..], o, r);
    }
  }

  lemma {:induction false} InsertIsSorted(t: Task, rows: seq<Task>, o: Order)
    requires Sorted(rows, o) && (forall r | r in rows :: r.id != t.id)
    ensures Sorted(Insert(t, rows, o), o)
  {
    if rows != [] {
      CaseOrderIsKeyOrder(t, rows[0], o);
      if KeyLess(t, rows[0], o) {
        HeadFirst(t, rows, o);
      } else {
        InsertIsSorted(t, rows[1..], o);
        var rest := Insert(t, rows[1..], o);
        forall r | r in rest ensures KeyLess(rows[0], r, o) {
          InsertHolds(t, rows[1..], o, r);
        }
        HeadOn(rows[0], rest, o);
      }
    }
  }

  lemma HeadOn(t: Task, rows: seq<Task>, o: Order)
    requires Sorted(rows, o) && (forall r | r in rows :: KeyLess(t, r, o))
    ensures Sorted([t] + rows, o)
  {
  }

  lemma HeadFirst(t: Task, rows: seq<Task>, o: Order)
    requires Sorted(rows, o) && rows != [] && KeyLess(t, rows[0], o)
    ensures Sorted([t] + rows, o)
  {
    forall i | 0 <= i < |rows| ensures KeyLess(t, rows[i], o) {
      assert i > 0 ==> KeyLess(rows[0], rows[i], o);
    }
    HeadOn(t, rows, o);
  }

  lemma {:induction false} SortHolds(rows: seq<Task>, o: Order, r: Task)
    ensures r in SortRows(rows, o) <==> r in rows
    ensures |SortRows(rows, o)| == |rows|
  {
    if rows != [] {
      SortHolds(rows[1..], o, r);
      InsertHolds(rows[0], SortRows(rows[1..], o), o, r);
    }
  }

  lemma {:induction false} SortIsSorted(rows: seq<Task>, o: Order)
    requires Distinct(rows)
    ensures Sorted(SortRows(rows, o), o)
  {
    if rows != [] {
      SortIsSorted(rows[1..], o);
      var rest := SortRows(rows[1..], o);
      forall r | r in rest ensures r.id != rows[0].id {
        SortHolds(rows[1..], o, r);
      }
      InsertIsSorted(rows[0], rest, o);
    }
  }

  /** The database has no choice: any sorted arrangement of the same rows is the same sequence. */
  lemma {:induction false} SortedIsUnique(a: seq<Task>, b: seq<Task>, o: Order)
    requires Sorted(a, o) && Sorted(b, o) && (forall t :: t in a <==> t in b)
    ensures a == b
  {
    if a != [] {
      assert a[0] in b;
    }
    if b != [] {
      assert b[0] in a;
      SameHead(a, b, o);
      forall t ensures t in a[1..] <==> t in b[1..] {
        HeadOnce(a, o);
        HeadOnce(b, o);
      }
      SortedIsUnique(a[1..], b[1..], o);
    }
  }

  lemma SameHead(a: seq<Task>, b: seq<Task>, o: Order)
    requires Sorted(a, o) && Sorted(b, o) && a != [] && b != [] && a[0] in b && b[0] in a
    ensures a[0] == b[0]
  {
    assert a[0] == b[0] || KeyLess(a[0], b[0], o);
    assert a[0] == b[0] || KeyLess(b[0], a[0], o);
  }

  lemma HeadOnce(a: seq<Task>, o: Order)
    requires Sorted(a, o) && a != []
    ensures forall t :: t in a[1..] <==> t in a && t != a[0]
  {
    forall i | 0 < i < |a| ensures a[i] != a[0] {
      assert KeyLess(a[0], a[i], o);
    }
  }

  lemma {:induction false} FilteredExactly(rows: seq<Task>, f: Filter, t: Task)
    ensures t in Filtered(rows, f) <==> t in rows && Matches(t, f)
    ensures Distinct(rows) ==> Distinct(Filtered(rows, f))
  {
    if rows != [] {
      FilteredExactly(rows[1..], f, t);
      if Distinct(rows) {
        var rest := Filtered(rows[1..], f);
        forall r | r in rest ensures r.id != rows[0].id {
          FilteredExactly(rows[1..], f, r);
        }
      }
    }
  }

  /** What a listing holds: exactly the matching rows, each once, in the order that is meant, and no other answer is possible. */
  lemma ListingIsTheAnswer(table: seq<Task>, f: Filter, o: Order, answer: seq<Task>)
    requires Distinct(table)
    ensures Sorted(Listing(table, f, o), o) && |Listing(table, f, o)| == |Filtered(table, f)|
    ensures forall t :: t in Listing(table, f, o) <==> t in table && Matches(t, f)
    ensures Sorted(answer, o) && (forall t :: t in answer <==> t in table && Matches(t, f)) ==> answer == Listing(table, f, o)
  {
    var rows := Filtered(table, f);
    forall t ensures t in rows <==> t in table && Matches(t, f) {
      FilteredExactly(table, f, t);
    }
    if table != [] {
      FilteredExactly(table, f, table[0]);
    }
    SortIsSorted(rows, o);
    var listing := Listing(table, f, o);
    assert |listing| == |rows| && forall t :: t in listing <==> t in rows by {
      forall t ensures (t in listing <==> t in rows) && |listing| == |rows| {
        SortHolds(rows, o, t);
      }
      if rows != [] {
        SortHolds(rows, o, rows[0]);
      }
    }
    if Sorted(answer, o) && (forall t :: t in answer <==> t in table && Matches(t, f)) {
      SortedIsUnique(answer, listing, o);
    }
  }
}
