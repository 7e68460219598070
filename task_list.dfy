/** The filter and sort behind the TaskList view: tasks are kept by
    priority, then a copy is sorted by due date, by priority weight or by
    title. The due date is given as its resolved time value. */
module TaskList {
  import opened Common
  import opened Sorting

  datatype ListTask = ListTask(priority: Option<string>, title: Option<string>, dueTime: Option<int>)

  datatype SortBy = ByDate | ByPriority | ByTitle

  const AllPriorities := "all"

  predicate Keeps(filter: string, t: ListTask) {
    filter == AllPriorities || t.priority == Some(filter)
  }

  /** `tasks.filter(task => task.priority === filterPriority)` unless 'all'. */
  function Filtered(tasks: seq<ListTask>, filter: string): (r: seq<ListTask>)
    ensures |r| <= |tasks|
    ensures forall t :: multiset(r)[t] == if Keeps(filter, t) then multiset(tasks)[t] else 0
    ensures filter == AllPriorities ==> r == tasks
  {
    if tasks == [] then []
    else
      assert tasks == [tasks[0]] + tasks[1..];
      (if Keeps(filter, tasks[0]) then [tasks[0]] else []) + Filtered(tasks[1..], filter)
  }

  /** A missing (falsy) due date counts as time 0. */
  function DueKey(t: ListTask): int {
    if t.dueTime.Some? then t.dueTime.value else 0
  }

  /** high 3, medium 2, low 1, anything else 0. */
  function Weight(t: ListTask): (w: int)
    ensures 0 <= w <= 3
    ensures w == 3 <==> t.priority == Some("high")
    ensures w == 0 <==> t.priority !in {Some("high"), Some("medium"), Some("low")}
  {
    match t.priority
    case Some(p) => if p == "high" then 3 else if p == "medium" then 2 else if p == "low" then 1 else 0
    case None => 0
  }

  function TitleOf(t: ListTask): string {
    OrElse(t.title, "")
  }

  /** Code-unit lexicographic order on strings. */
  predicate LexLeq(a: string, b: string)
    decreases |a|
  {
    a == [] || (b != [] && (a[0] < b[0] || (a[0] == b[0] && LexLeq(a[1..], b[1..]))))
  }

  lemma {:induction false} LexLeqTotal(a: string, b: string)
    ensures LexLeq(a, b) || LexLeq(b, a)
    decreases |a|
  {
    if a != [] && b != [] && a[0] == b[0] {
      LexLeqTotal(a[1..], b[1..]);
    }
  }

  lemma {:induction false} LexLeqTransitive(a: string, b: string, c: string)
    requires LexLeq(a, b) && LexLeq(b, c)
    ensures LexLeq(a, c)
    decreases |a|
  {
    if a != [] && b != [] && c != [] && a[0] == b[0] && b[0] == c[0] {
      LexLeqTransitive(a[1..], b[1..], c[1..]);
    }
  }

  /** The comparator of each sort mode, as "may come first". */
  function Order(sortBy: SortBy): (leq: (ListTask, ListTask) -> bool)
  {
    match sortBy
    case ByDate => ByKey(DueKey)
    case ByPriority => ByKey((t: ListTask) => -Weight(t))
    case ByTitle => (a: ListTask, b: ListTask) => LexLeq(TitleOf(a), TitleOf(b))
  }

  lemma OrderIsPreorder(sortBy: SortBy)
    ensures Total(Order(sortBy)) && Transitive(Order(sortBy))
  {
    match sortBy
    case ByDate => ByKeyIsPreorder(DueKey);
    case ByPriority => ByKeyIsPreorder((t: ListTask) => -Weight(t));
    case ByTitle =>
      forall a: ListTask, b: ListTask ensures Order(sortBy)(a, b) || Order(sortBy)(b, a) {
        LexLeqTotal(TitleOf(a), TitleOf(b));
      }
      forall a: ListTask, b: ListTask, c: ListTask | Order(sortBy)(a, b) && Order(sortBy)(b, c)
        ensures Order(sortBy)(a, c)
      {
        LexLeqTransitive(TitleOf(a), TitleOf(b), TitleOf(c));
      }
  }

  /** `sortedAndFilteredTasks`: the kept tasks, reordered; `tasks` itself is
      a value here, so the copy the view sorts leaves it as it was. */
  function SortedAndFiltered(tasks: seq<ListTask>, sortBy: SortBy, filter: string): (r: seq<ListTask>)
    ensures multiset(r) == multiset(Filtered(tasks, filter))
    ensures |r| <= |tasks|
    ensures SortedBy(r, Order(sortBy))
  {
    OrderIsPreorder(sortBy);
    Sort(Filtered(tasks, filter), Order(sortBy))
  }

  /** Sorting by date puts earlier due dates first. */
  lemma SortByDateOrders(tasks: seq<ListTask>, filter: string)
    ensures var r := SortedAndFiltered(tasks, ByDate, filter);
      forall i, j | 0 <= i < j < |r| :: DueKey(r[i]) <= DueKey(r[j])
  {
    var d := SortedAndFiltered(tasks, ByDate, filter);
    assert forall i, j | 0 <= i < j < |d| :: Order(ByDate)(d[i], d[j]);
  }

  /** Sorting by priority puts heavier priorities first. */
  lemma SortByPriorityOrders(tasks: seq<ListTask>, filter: string)
    ensures var r := SortedAndFiltered(tasks, ByPriority, filter);
      forall i, j | 0 <= i < j < |r| :: Weight(r[i]) >= Weight(r[j])
  {
    var p := SortedAndFiltered(tasks, ByPriority, filter);
    assert forall i, j | 0 <= i < j < |p| :: Order(ByPriority)(p[i], p[j]);
  }

  /** Sorting by title puts titles in lexicographic order. */
  lemma SortByTitleOrders(tasks: seq<ListTask>, filter: string)
    ensures var r := SortedAndFiltered(tasks, ByTitle, filter);
      forall i, j | 0 <= i < j < |r| :: LexLeq(TitleOf(r[i]), TitleOf(r[j]))
  {
    var t := SortedAndFiltered(tasks, ByTitle, filter);
    assert forall i, j | 0 <= i < j < |t| :: Order(ByTitle)(t[i], t[j]);
  }

  /** Tasks that tie under the chosen order stay in their input order. */
  lemma TiesKeepInputOrder(tasks: seq<ListTask>, sortBy: SortBy, filter: string, y: ListTask)
    ensures EqualTo(SortedAndFiltered(tasks, sortBy, filter), Order(sortBy), y)
         == EqualTo(Filtered(tasks, filter), Order(sortBy), y)
  {
    OrderIsPreorder(sortBy);
    SortIsStable(Filtered(tasks, filter), Order(sortBy), y);
  }
}
