/**
 * The board page: its columns and their point totals, derived from the task
 * list, and its three pieces of state (the task list, the new-task title and
 * the hovered column) with the handlers that change them. The initial GET's
 * reply is the list the page installs; every other remote call is reduced to
 * whether its promise resolved, and its reply is never read.
 */
module Board {
  import opened Wrappers
  import opened Tasks
  import opened ArrayOps
  import JsString
  import TaskCard

  /** How a `fetch` promise settled. It resolves on any HTTP reply, error codes included. */
  datatype Outcome = Resolved | Rejected

  datatype Column = Column(status: Status, tasks: seq<Task>)

  /** The filter test of one column. */
  function HasStatus(s: Status): Task -> bool {
    (t: Task) => t.status == s
  }

  /** The find test of a drop. */
  function HasId(id: string): Task -> bool {
    (t: Task) => t.id == id
  }

  /** The filter test of a delete. */
  function HasOtherId(id: string): Task -> bool {
    (t: Task) => t.id != id
  }

  /**
   * `columns`: one column per status, in status order; a column holds exactly
   * the tasks with its status, and nothing from outside the list.
   */
  function Columns(tasks: seq<Task>): (r: seq<Column>)
    ensures |r| == |Statuses|
    ensures forall i :: 0 <= i < |r| ==> r[i].status == Statuses[i]
    ensures forall i, t :: 0 <= i < |r| && t in tasks ==> (t in r[i].tasks <==> t.status == Statuses[i])
    ensures forall i, t :: 0 <= i < |r| && t in r[i].tasks ==> t in tasks
  {
    var r := seq(|Statuses|, i requires 0 <= i < |Statuses| => Column(Statuses[i], Filter(HasStatus(Statuses[i]), tasks)));
    assert forall i, t :: 0 <= i < |r| ==> (t in r[i].tasks <==> multiset(r[i].tasks)[t] > 0);
    r
  }

  /**
   * Every task lands in exactly one column, as often as it occurs in the list:
   * the three columns together are the list, with no duplicate and no omission.
   */
  lemma ColumnsPartition(tasks: seq<Task>)
    ensures var cs := Columns(tasks);
      multiset(cs[0].tasks) + multiset(cs[1].tasks) + multiset(cs[2].tasks) == multiset(tasks)
  {
    var cs := Columns(tasks);
    forall t
      ensures (multiset(cs[0].tasks) + multiset(cs[1].tasks) + multiset(cs[2].tasks))[t] == multiset(tasks)[t]
    {
      assert cs[0].tasks == Filter(HasStatus(Todo), tasks);
      assert cs[1].tasks == Filter(HasStatus(InProgress), tasks);
      assert cs[2].tasks == Filter(HasStatus(Done), tasks);
    }
  }

  /** A task appended to the list goes to the end of its own column and leaves the other columns as they were. */
  lemma {:induction false} AppendToColumn(tasks: seq<Task>, t: Task, i: nat)
    requires i < |Statuses|
    ensures Columns(tasks + [t])[i].tasks ==
      Columns(tasks)[i].tasks + (if t.status == Statuses[i] then [t] else [])
  {
    FilterAppend(HasStatus(Statuses[i]), tasks, [t]);
    assert Filter(HasStatus(Statuses[i]), [t]) == if t.status == Statuses[i] then [t] else [];
  }

  /**
   * The point sum a column header shows,
   * `reduce((total, task) => total + (task?.points || 0), 0)`: an empty
   * column shows 0, one task shows its own points, and the total is never
   * negative when no task's points are.
   */
  function PointsTotal(tasks: seq<Task>): (total: int)
    ensures tasks == [] ==> total == 0
    ensures |tasks| == 1 ==> total == EffectivePoints(tasks[0])
    ensures (forall i :: 0 <= i < |tasks| ==> EffectivePoints(tasks[i]) >= 0) ==> total >= 0
  {
    if tasks == [] then 0
    else PointsTotal(tasks[..|tasks| - 1]) + EffectivePoints(tasks[|tasks| - 1])
  }

  /** The point sum of two lists joined is the sum of their sums. */
  lemma {:induction false} PointsTotalAppend(a: seq<Task>, b: seq<Task>)
    ensures PointsTotal(a + b) == PointsTotal(a) + PointsTotal(b)
    decreases |b|
  {
    if b == [] {
      assert a + b == a;
    } else {
      assert (a + b)[..|a + b| - 1] == a + b[..|b| - 1];
      PointsTotalAppend(a, b[..|b| - 1]);
    }
  }

  /** Tasks whose points are within [0, 20] sum to between 0 and 20 per task. */
  lemma {:induction false} PointsTotalBounds(tasks: seq<Task>)
    requires forall i :: 0 <= i < |tasks| ==> 0 <= EffectivePoints(tasks[i]) <= TaskCard.MaxPoints
    ensures 0 <= PointsTotal(tasks) <= TaskCard.MaxPoints * |tasks|
  {
    if tasks != [] {
      PointsTotalBounds(tasks[..|tasks| - 1]);
    }
  }

  /** The three column totals add up to the points of the whole list: no task is counted twice or left out. */
  lemma {:induction false} ColumnTotalsSum(tasks: seq<Task>)
    ensures var cs := Columns(tasks);
      PointsTotal(cs[0].tasks) + PointsTotal(cs[1].tasks) + PointsTotal(cs[2].tasks) == PointsTotal(tasks)
    decreases |tasks|
  {
    if tasks != [] {
      var init, t := tasks[..|tasks| - 1], tasks[|tasks| - 1];
      assert tasks == init + [t];
      ColumnTotalsSum(init);
      ColumnTotalAppend(init, t, 0);
      ColumnTotalAppend(init, t, 1);
      ColumnTotalAppend(init, t, 2);
    }
  }

  /** Appending a task adds its points to its own column's total and to no other. */
  lemma ColumnTotalAppend(tasks: seq<Task>, t: Task, i: nat)
    requires i < |Statuses|
    ensures PointsTotal(Columns(tasks + [t])[i].tasks) ==
      PointsTotal(Columns(tasks)[i].tasks) + (if t.status == Statuses[i] then EffectivePoints(t) else 0)
  {
    AppendToColumn(tasks, t, i);
    PointsTotalAppend(Columns(tasks)[i].tasks, if t.status == Statuses[i] then [t] else []);
    assert PointsTotal([t]) == EffectivePoints(t) by {
      assert [t][..0] == [];
    }
  }

  /**
   * `tasks.map(t => t.id === task.id ? task : t)`: same length and ids, every
   * entry with the task's id becomes the task, every other entry is kept in place.
   */
  function ReplaceById(tasks: seq<Task>, task: Task): (r: seq<Task>)
    ensures |r| == |tasks|
    ensures forall i :: 0 <= i < |r| ==> r[i].id == tasks[i].id
    ensures forall i :: 0 <= i < |r| && tasks[i].id == task.id ==> r[i] == task
    ensures forall i :: 0 <= i < |r| && tasks[i].id != task.id ==> r[i] == tasks[i]
  {
    seq(|tasks|, i requires 0 <= i < |tasks| => if tasks[i].id == task.id then task else tasks[i])
  }

  /** An update whose id matches no entry leaves the list as it was. */
  lemma ReplaceWithoutMatch(tasks: seq<Task>, task: Task)
    requires forall i :: 0 <= i < |tasks| ==> tasks[i].id != task.id
    ensures ReplaceById(tasks, task) == tasks
  {
  }

  /** Applying the same update twice is applying it once. */
  lemma ReplaceIdempotent(tasks: seq<Task>, task: Task)
    ensures ReplaceById(ReplaceById(tasks, task), task) == ReplaceById(tasks, task)
  {
  }

  /**
   * `tasks.filter(task => task.id !== id)`: no entry with the id is left, every
   * other entry is kept as often as before and in its order.
   */
  function RemoveById(tasks: seq<Task>, id: string): (r: seq<Task>)
    ensures forall i :: 0 <= i < |r| ==> r[i].id != id
    ensures forall t: Task :: t.id != id ==> multiset(r)[t] == multiset(tasks)[t]
    ensures forall t: Task :: t.id == id ==> t !in r
  {
    var r := Filter(HasOtherId(id), tasks);
    assert forall t :: t in r ==> multiset(r)[t] > 0;
    r
  }

  /** A delete whose id matches no entry leaves the list as it was. */
  lemma RemoveWithoutMatch(tasks: seq<Task>, id: string)
    requires forall i :: 0 <= i < |tasks| ==> tasks[i].id != id
    ensures RemoveById(tasks, id) == tasks
  {
    FilterAll(HasOtherId(id), tasks);
  }

  /** Removing is order-preserving: it can be done piece by piece. */
  lemma RemoveAppend(a: seq<Task>, b: seq<Task>, id: string)
    ensures RemoveById(a + b, id) == RemoveById(a, id) + RemoveById(b, id)
  {
    FilterAppend(HasOtherId(id), a, b);
  }

  /**
   * The task `addNewTask` builds from the title: id `TASK-` followed by the
   * list length plus one, status todo, priority medium, 0 points.
   */
  function NewTask(title: string, count: nat): (t: Task)
    ensures t.title == title && t.status == Todo
    ensures t.priority == Some(Medium) && t.points == Some(0)
    ensures EffectivePriority(t) == Medium && EffectivePoints(t) == 0
    ensures t.id == "TASK-" + JsString.NatToString(count + 1)
  {
    Task("TASK-" + JsString.NatToString(count + 1), title, Todo, Some(Medium), Some(0))
  }

  /** A new task's card shows the number `count + 1` as its id. */
  lemma NewTaskDisplayId(title: string, count: nat)
    ensures TaskCard.DisplayId(NewTask(title, count).id) == JsString.NatToString(count + 1)
    ensures JsString.DigitsValue(TaskCard.DisplayId(NewTask(title, count).id)) == count + 1
  {
    var digits := JsString.NatToString(count + 1);
    assert "TASK-" + digits == "TASK" + ['-'] + digits;
    JsString.SplitAtSep("TASK", digits, '-');
    JsString.SplitWithoutSep(digits, '-');
    JsString.NatToStringRoundTrip(count + 1);
  }

  /**
   * The update a drop issues: the first task with the dragged id, with only
   * its status changed to the column's; nothing when no task has that id.
   */
  function DropUpdate(tasks: seq<Task>, id: string, status: Status): (call: Option<Task>)
    ensures call.None? <==> forall i :: 0 <= i < |tasks| ==> tasks[i].id != id
    ensures call.Some? ==>
      exists i :: (0 <= i < |tasks| && tasks[i].id == id && ChangesOnly(tasks[i], call.value, StatusField) &&
                   forall j :: 0 <= j < i ==> tasks[j].id != id)
    ensures call.Some? ==> call.value.id == id && call.value.status == status
  {
    match Find(HasId(id), tasks)
    case None => None
    case Some(t) => Some(t.(status := status))
  }

  /**
   * After a drop that finds its task, every entry with the dragged id is the
   * moved copy, and that copy sits in the target column.
   */
  lemma DropMovesTask(tasks: seq<Task>, id: string, status: Status, i: nat)
    requires DropUpdate(tasks, id, status).Some?
    requires i < |Statuses| && Statuses[i] == status
    ensures var moved := DropUpdate(tasks, id, status).value;
      var after := ReplaceById(tasks, moved);
      && (forall k :: 0 <= k < |after| && after[k].id == id ==> after[k] == moved)
      && moved in Columns(after)[i].tasks
  {
    var moved := DropUpdate(tasks, id, status).value;
    var after := ReplaceById(tasks, moved);
    var k :| 0 <= k < |tasks| && tasks[k].id == id;
    assert after[k] == moved;
  }

  /** The board page's state. */
  class BoardState {
    var tasks: seq<Task>
    var newTaskTitle: string
    var hoveringOver: Option<Status>

    constructor ()
      ensures tasks == [] && newTaskTitle == "" && hoveringOver == None
    {
      tasks := [];
      newTaskTitle := "";
      hoveringOver := None;
    }

    /** The initial load replaces the list with the fetched one; a failed fetch changes nothing. */
    method Load(outcome: Outcome, fetched: seq<Task>)
      modifies this`tasks
      ensures tasks == if outcome == Resolved then fetched else old(tasks)
    {
      if outcome == Resolved {
        tasks := fetched;
      }
    }

    /**
     * `updateTask`: the PUT is sent and not awaited; the list is updated at
     * once, whatever becomes of the request.
     */
    method UpdateTask(task: Task)
      modifies this`tasks
      ensures tasks == ReplaceById(old(tasks), task)
    {
      tasks := ReplaceById(tasks, task);
    }

    /** `deleteTask`: the list loses the id's entries only once the DELETE has resolved. */
    method DeleteTask(id: string, outcome: Outcome)
      modifies this`tasks
      ensures tasks == if outcome == Resolved then RemoveById(old(tasks), id) else old(tasks)
    {
      if outcome == Resolved {
        tasks := RemoveById(tasks, id);
      }
    }

    /** The title input's change handler. */
    method SetNewTaskTitle(value: string)
      modifies this`newTaskTitle
      ensures newTaskTitle == value
    {
      newTaskTitle := value;
    }

    /**
     * `addNewTask`: a title that trims to nothing is refused outright;
     * otherwise, once the POST resolves, the task built on the client is
     * appended and the input cleared. A rejected POST changes nothing.
     */
    method AddNewTask(outcome: Outcome)
      modifies this`tasks, this`newTaskTitle
      ensures JsString.AllWhitespace(old(newTaskTitle)) || outcome == Rejected ==>
        tasks == old(tasks) && newTaskTitle == old(newTaskTitle)
      ensures !JsString.AllWhitespace(old(newTaskTitle)) && outcome == Resolved ==>
        tasks == old(tasks) + [NewTask(old(newTaskTitle), |old(tasks)|)] && newTaskTitle == ""
    {
      if JsString.Trim(newTaskTitle) == [] {
        return;
      }
      var newTask := NewTask(newTaskTitle, |tasks|);
      if outcome == Resolved {
        tasks := tasks + [newTask];
        newTaskTitle := "";
      }
    }

    method HandleDragEnter(status: Status)
      modifies this`hoveringOver
      ensures hoveringOver == Some(status)
    {
      hoveringOver := Some(status);
    }

    method HandleDragLeave()
      modifies this`hoveringOver
      ensures hoveringOver == None
    {
      hoveringOver := None;
    }

    /**
     * `handleDrop`: the hover mark is cleared; if some task has the dragged
     * id, its status-only update goes through `updateTask`.
     */
    method HandleDrop(id: string, status: Status)
      modifies this`tasks, this`hoveringOver
      ensures hoveringOver == None
      ensures tasks == match DropUpdate(old(tasks), id, status)
        case None => old(tasks)
        case Some(moved) => ReplaceById(old(tasks), moved)
    {
      hoveringOver := None;
      var call := DropUpdate(tasks, id, status);
      if call.Some? {
        UpdateTask(call.value);
      }
    }
  }
}
