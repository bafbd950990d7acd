/** The Kanban board: three status columns built from the task list, and the drag-end
    handler that turns a drop into an `updateTaskStatus` action. */
module Kanban {
  import opened JsValues
  import opened Collection
  import opened EntitySlices

  /** A status the board has a column for. A column's droppable id is its name. */
  predicate IsColumn(v: Value) {
    v == Str("To Do") || v == Str("In Progress") || v == Str("Done")
  }

  predicate HasStatus(task: Object, name: string) {
    Get(task, "status") == Str(name)
  }

  /** A task that the board shows in one of its columns. */
  predicate OnBoard(task: Object) {
    IsColumn(Get(task, "status"))
  }

  /** `tasks.filter(task => task.status === name)`: one column, in list order. */
  function Column(tasks: seq<Object>, name: string): (c: seq<Object>)
    ensures forall t :: t in c <==> t in tasks && HasStatus(t, name)
  {
    Filter(tasks, t => HasStatus(t, name))
  }

  /** The number of cards the three columns show together. */
  function BoardSize(tasks: seq<Object>): nat {
    |Column(tasks, "To Do")| + |Column(tasks, "In Progress")| + |Column(tasks, "Done")|
  }

  /** The columns partition the tasks on the board: each such task is in the column of its
      status and in no other, a task with any other status is in none, and the columns hold
      exactly as many cards as there are tasks on the board. So the board never shows more
      cards than there are tasks, and it shows every task exactly when every status is a
      column. */
  lemma {:induction false} ColumnsPartition(tasks: seq<Object>)
    ensures BoardSize(tasks) == Count(tasks, OnBoard)
    ensures forall t, n :: t in tasks && t in Column(tasks, n) ==> Get(t, "status") == Str(n)
    ensures forall t :: t in tasks && !OnBoard(t) ==>
      t !in Column(tasks, "To Do") && t !in Column(tasks, "In Progress") && t !in Column(tasks, "Done")
    ensures BoardSize(tasks) <= |tasks|
    ensures BoardSize(tasks) == |tasks| <==> forall j :: 0 <= j < |tasks| ==> OnBoard(tasks[j])
    decreases |tasks|
  {
    if tasks != [] {
      ColumnsPartition(tasks[1..]);
    }
    CountAll(tasks, OnBoard);
  }

  /** The card count alone, without the rest of the partition. */
  lemma BoardSizeIsCount(tasks: seq<Object>)
    ensures BoardSize(tasks) == Count(tasks, OnBoard)
  {
    ColumnsPartition(tasks);
  }

  /** The action `handleDragEnd` dispatches. */
  datatype StatusChange = StatusChange(taskId: Value, newStatus: Value)

  /** `handleDragEnd`: `over` is the id of the droppable under the pointer, if any; it may
      be a column or, since every card is sortable under its task id, another card. Nothing
      is dispatched without a target, for a drop on the dragged card itself, for an unknown
      task, or when the task's status already equals the target id; otherwise the target
      id itself becomes the new status. */
  function DragEnd(tasks: seq<Object>, activeId: Value, over: Option<Value>): (d: Option<StatusChange>)
    ensures d.Some? <==>
      && over.Some? && over.value != activeId
      && FindIndex(tasks, activeId) != -1
      && Get(tasks[FindIndex(tasks, activeId)], "status") != over.value
    ensures d.Some? ==> d.value.taskId == activeId && d.value.newStatus == over.value
  {
    if over.None? || activeId == over.value then None
    else
      var i := FindIndex(tasks, activeId);
      if i == -1 || Get(tasks[i], "status") == over.value then None
      else Some(StatusChange(activeId, over.value))
  }

  /** The task list after a drop has been handled by the tasks slice. */
  function Dropped(tasks: seq<Object>, d: Option<StatusChange>): seq<Object> {
    if d.None? then tasks else SetStatus(tasks, d.value.taskId, d.value.newStatus)
  }

  /** A drop that changes the status of the task at `a` rewrites that task only. */
  lemma DroppedAt(tasks: seq<Object>, a: nat, target: Value)
    requires a < |tasks| && FindIndex(tasks, IdOf(tasks[a])) == a
    requires target != IdOf(tasks[a]) && Get(tasks[a], "status") != target
    ensures Dropped(tasks, DragEnd(tasks, IdOf(tasks[a]), Some(target)))
      == tasks[a := tasks[a]["status" := target]]
  {
  }

  /** Dropping a board task onto a different column moves it into that column, and the
      board keeps showing the same number of cards. */
  lemma DropOnColumnMoves(tasks: seq<Object>, a: nat, name: string)
    requires a < |tasks| && FindIndex(tasks, IdOf(tasks[a])) == a
    requires OnBoard(tasks[a]) && IsColumn(Str(name)) && !HasStatus(tasks[a], name)
    requires IdOf(tasks[a]) != Str(name)
    ensures var after := Dropped(tasks, DragEnd(tasks, IdOf(tasks[a]), Some(Str(name))));
      && after[a] in Column(after, name)
      && BoardSize(after) == BoardSize(tasks)
  {
    var moved := tasks[a]["status" := Str(name)];
    DroppedAt(tasks, a, Str(name));
    assert HasStatus(moved, name) && OnBoard(moved);
    InColumn(tasks[a := moved], a, name);
    CountUpdate(tasks, a, moved, OnBoard);
    BoardSizeIsCount(tasks);
    BoardSizeIsCount(tasks[a := moved]);
  }

  /** A task with a column's status is among that column's cards. */
  lemma InColumn(tasks: seq<Object>, i: nat, name: string)
    requires i < |tasks| && HasStatus(tasks[i], name)
    ensures tasks[i] in Column(tasks, name)
  {
  }

  /** Dropping a board task onto a card whose id is not a column name (every generated
      task id) sets the task's status to that card's id: the task leaves the board and
      the columns show one card fewer. */
  lemma DropOnCardLeavesBoard(tasks: seq<Object>, a: nat, b: nat)
    requires a < |tasks| && b < |tasks| && FindIndex(tasks, IdOf(tasks[a])) == a
    requires IdOf(tasks[b]) != IdOf(tasks[a]) && !IsColumn(IdOf(tasks[b]))
    requires OnBoard(tasks[a])
    ensures var after := Dropped(tasks, DragEnd(tasks, IdOf(tasks[a]), Some(IdOf(tasks[b]))));
      && Get(after[a], "status") == IdOf(tasks[b])
      && !OnBoard(after[a])
      && BoardSize(after) == BoardSize(tasks) - 1
  {
    var after := Dropped(tasks, DragEnd(tasks, IdOf(tasks[a]), Some(IdOf(tasks[b]))));
    DroppedAt(tasks, a, IdOf(tasks[b]));
    CountUpdate(tasks, a, after[a], OnBoard);
    BoardSizeIsCount(tasks);
    BoardSizeIsCount(after);
  }

  /** Two new tasks in "To Do"; dragging the first onto the second card. */
  lemma DropOnCardExample()
    ensures var t1 := map["id" := Str("task-1"), "status" := Str("To Do")];
      var t2 := map["id" := Str("task-2"), "status" := Str("To Do")];
      var after := Dropped([t1, t2], DragEnd([t1, t2], Str("task-1"), Some(Str("task-2"))));
      && Get(after[0], "status") == Str("task-2")
      && BoardSize([t1, t2]) == 2 && BoardSize(after) == 1
  {
    var t1 := map["id" := Str("task-1"), "status" := Str("To Do")];
    var t2 := map["id" := Str("task-2"), "status" := Str("To Do")];
    assert FindIndex([t1, t2], Str("task-1")) == 0;
    DropOnCardLeavesBoard([t1, t2], 0, 1);
    ColumnsPartition([t1, t2]);
    assert OnBoard(t1) && OnBoard(t2);
    assert [t2][1..] == [];
    assert Count([t2], OnBoard) == 1;
    assert [t1, t2][1..] == [t2];
    assert Count([t1, t2], OnBoard) == 2;
  }

  /** The column a drop aims at: a column's own id, or the column of the card dropped
      on; an id that is neither names no target. */
  function DropTarget(tasks: seq<Object>, overId: Value): (target: Option<Value>)
    ensures IsColumn(overId) ==> target == Some(overId)
    ensures target.Some? && (forall j :: 0 <= j < |tasks| ==> OnBoard(tasks[j])) ==> IsColumn(target.value)
    ensures !IsColumn(overId) && target.Some? ==>
      FindIndex(tasks, overId) != -1 && HasStatusValue(tasks[FindIndex(tasks, overId)], target.value)
    ensures !IsColumn(overId) && FindIndex(tasks, overId) != -1 ==>
      target == Some(Get(tasks[FindIndex(tasks, overId)], "status"))
    ensures !IsColumn(overId) && FindIndex(tasks, overId) == -1 ==> target.None?
  {
    if IsColumn(overId) then Some(overId)
    else
      var k := FindIndex(tasks, overId);
      if k == -1 then None else Some(Get(tasks[k], "status"))
  }

  predicate HasStatusValue(task: Object, v: Value) {
    Get(task, "status") == v
  }

  /** `handleDragEnd` as evidently intended: the new status is the column the drop aims at. */
  function DragEndResolved(tasks: seq<Object>, activeId: Value, over: Option<Value>): (d: Option<StatusChange>)
    ensures d.Some? ==>
      && over.Some? && over.value != activeId
      && FindIndex(tasks, activeId) != -1
      && d.value.taskId == activeId
      && DropTarget(tasks, over.value) == Some(d.value.newStatus)
      && Get(tasks[FindIndex(tasks, activeId)], "status") != d.value.newStatus
  {
    if over.None? || activeId == over.value then None
    else
      match DropTarget(tasks, over.value)
      case None => None
      case Some(target) =>
        var i := FindIndex(tasks, activeId);
        if i == -1 || Get(tasks[i], "status") == target then None
        else Some(StatusChange(activeId, target))
  }

  /** For a drop on a column the corrected handler does what the original does. */
  lemma ResolvedAgreesOnColumns(tasks: seq<Object>, activeId: Value, over: Value)
    requires IsColumn(over)
    ensures DragEndResolved(tasks, activeId, Some(over)) == DragEnd(tasks, activeId, Some(over))
  {
  }

  /** With the corrected handler every drop keeps every task on the board, so the columns
      always show every task. */
  lemma ResolvedDropKeepsBoard(tasks: seq<Object>, activeId: Value, over: Option<Value>)
    requires forall j :: 0 <= j < |tasks| ==> OnBoard(tasks[j])
    ensures var after := Dropped(tasks, DragEndResolved(tasks, activeId, over));
      && |after| == |tasks|
      && (forall j :: 0 <= j < |after| ==> OnBoard(after[j]))
      && BoardSize(after) == |tasks|
  {
    var after := Dropped(tasks, DragEndResolved(tasks, activeId, over));
    assert forall j :: 0 <= j < |after| ==> OnBoard(after[j]);
    FilterKeepsAll(after, OnBoard);
    ColumnsPartition(after);
  }

  /** With the corrected handler a drop onto a card in another column moves the task into
      that card's column. */
  lemma ResolvedDropOnCard(tasks: seq<Object>, a: nat, b: nat)
    requires a < |tasks| && b < |tasks| && FindIndex(tasks, IdOf(tasks[a])) == a
    requires FindIndex(tasks, IdOf(tasks[b])) == b && !IsColumn(IdOf(tasks[b]))
    requires IdOf(tasks[b]) != IdOf(tasks[a])
    requires OnBoard(tasks[b]) && Get(tasks[a], "status") != Get(tasks[b], "status")
    ensures var after := Dropped(tasks, DragEndResolved(tasks, IdOf(tasks[a]), Some(IdOf(tasks[b]))));
      Get(after[a], "status") == Get(tasks[b], "status") && OnBoard(after[a])
  {
  }
}
