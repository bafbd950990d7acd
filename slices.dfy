/** The task, project and user slices of the store. All three hold
    `{ items, status, error }` and handle the fetch / create / update / delete thunks
    the same way; the task slice has three more reducers of its own. */
module EntitySlices {
  import opened JsValues
  import opened Collection

  /** The `status` field of a slice. */
  datatype FetchStatus = Idle | Loading | Succeeded | Failed

  /** The comment `addCommentToTask` pushes: `{ id: 'com-' + stamp, ...comment, date: iso }`.
      An `id` in the payload replaces the generated one; the date is always the current one. */
  function NewComment(comment: Object, stamp: string, iso: string): (c: Object)
    ensures c.Keys == comment.Keys + {"id", "date"}
    ensures c["date"] == Str(iso)
    ensures c["id"] == if "id" in comment then comment["id"] else Str("com-" + stamp)
    ensures forall k :: k in comment && k != "date" ==> c[k] == comment[k]
  {
    Spread(Spread(map["id" := Str("com-" + stamp)], comment), map["date" := Str(iso)])
  }

  /** The attachment `addAttachmentToTask` pushes: `{ id: 'att-' + stamp, ...attachment }`. */
  function NewAttachment(attachment: Object, stamp: string): (a: Object)
    ensures a.Keys == attachment.Keys + {"id"}
    ensures a["id"] == if "id" in attachment then attachment["id"] else Str("att-" + stamp)
    ensures forall k :: k in attachment ==> a[k] == attachment[k]
  {
    Spread(map["id" := Str("att-" + stamp)], attachment)
  }

  /** `if (!task[field]) task[field] = []; task[field].push(entry)`. `None` when the push
      throws: the property holds a truthy value that is not an array. Otherwise exactly one
      entry is added at the end of the list and no other property changes. */
  function PushEntry(task: Object, field: string, entry: Value): (r: Option<Object>)
    ensures r.None? <==> Truthy(Get(task, field)) && !Get(task, field).Arr?
    ensures r.Some? ==>
      && r.value.Keys == task.Keys + {field}
      && r.value[field].Arr?
      && r.value[field].elems == (if Truthy(Get(task, field)) then Get(task, field).elems else []) + [entry]
      && forall k :: k in task && k != field ==> r.value[k] == task[k]
  {
    var list := Get(task, field);
    if !Truthy(list) then Some(task[field := Arr([entry])])
    else if list.Arr? then Some(task[field := Arr(list.elems + [entry])])
    else None
  }

  /** `updateTaskStatus`: the first task with `taskId` gets `status = newStatus`. Nothing
      else changes, and an unknown id leaves the list as it was. */
  function SetStatus(items: seq<Object>, taskId: Value, newStatus: Value): (r: seq<Object>)
    ensures |r| == |items|
    ensures FindIndex(items, taskId) == -1 ==> r == items
    ensures forall j :: 0 <= j < |items| && j != FindIndex(items, taskId) ==> r[j] == items[j]
    ensures FindIndex(items, taskId) != -1 ==>
      var i := FindIndex(items, taskId);
      && r[i].Keys == items[i].Keys + {"status"}
      && r[i]["status"] == newStatus
      && forall k :: k in items[i] && k != "status" ==> r[i][k] == items[i][k]
  {
    var i := FindIndex(items, taskId);
    if i == -1 then items else items[i := items[i]["status" := newStatus]]
  }

  /** One slice: `{ items: [], status: 'idle', error: null }` initially. */
  class EntitySlice {
    const kind: EntityKind
    var items: seq<Object>
    var status: FetchStatus
    var error: Option<string>

    constructor (kind: EntityKind)
      ensures this.kind == kind && items == [] && status == Idle && error == None
    {
      this.kind := kind;
      items, status, error := [], Idle, None;
    }

    /** `fetch*.pending` */
    method FetchPending()
      modifies this
      ensures status == Loading
      ensures items == old(items) && error == old(error)
    {
      status := Loading;
    }

    /** `fetch*.fulfilled`: the list becomes the payload. */
    method FetchFulfilled(payload: seq<Object>)
      modifies this
      ensures status == Succeeded && items == payload
      ensures error == old(error)
    {
      status := Succeeded;
      items := payload;
    }

    /** `fetch*.rejected`: the message is recorded and the list is kept. */
    method FetchRejected(message: string)
      modifies this
      ensures status == Failed && error == Some(message)
      ensures items == old(items)
    {
      status := Failed;
      error := Some(message);
    }

    /** `create*.fulfilled`: `state.items.push(action.payload)` */
    method CreateFulfilled(row: Object)
      modifies this
      ensures items == old(items) + [row]
      ensures |items| == |old(items)| + 1 && items[|items| - 1] == row
      ensures status == old(status) && error == old(error)
    {
      items := items + [row];
    }

    /** `update*.fulfilled`: the first record with the payload's id is replaced by the
        payload; positions and length are kept, and no match changes nothing. */
    method UpdateFulfilled(row: Object)
      modifies this
      ensures |items| == |old(items)|
      ensures FindIndex(old(items), IdOf(row)) == -1 ==> items == old(items)
      ensures FindIndex(old(items), IdOf(row)) != -1 ==>
        items == old(items)[FindIndex(old(items), IdOf(row)) := row]
      ensures status == old(status) && error == old(error)
    {
      var index := FindIndex(items, IdOf(row));
      if index != -1 {
        items := items[index := row];
      }
    }

    /** `delete*.fulfilled`: every record with the id goes, the rest keep their order. */
    method DeleteFulfilled(id: Value)
      modifies this
      ensures items == Without(old(items), id)
      ensures status == old(status) && error == old(error)
    {
      items := Without(items, id);
    }

    /** `updateTaskStatus({ taskId, newStatus })` */
    method UpdateTaskStatus(taskId: Value, newStatus: Value)
      requires kind == Tasks
      modifies this
      ensures items == SetStatus(old(items), taskId, newStatus)
      ensures status == old(status) && error == old(error)
    {
      items := SetStatus(items, taskId, newStatus);
    }

    /** `addCommentToTask({ taskId, comment })`. `thrown` reports the TypeError of pushing
        onto a non-array `comments`; the reducer then changes nothing. */
    method AddCommentToTask(taskId: Value, comment: Object, stamp: string, iso: string)
      returns (thrown: bool)
      requires kind == Tasks
      modifies this
      ensures var i := FindIndex(old(items), taskId);
        && thrown == (i != -1 && PushEntry(old(items)[i], "comments", Obj(NewComment(comment, stamp, iso))).None?)
        && items == if i == -1 || thrown then old(items)
                    else old(items)[i := PushEntry(old(items)[i], "comments", Obj(NewComment(comment, stamp, iso))).value]
      ensures status == old(status) && error == old(error)
    {
      thrown := false;
      var i := FindIndex(items, taskId);
      if i != -1 {
        var pushed := PushEntry(items[i], "comments", Obj(NewComment(comment, stamp, iso)));
        if pushed.Some? {
          items := items[i := pushed.value];
        } else {
          thrown := true;
        }
      }
    }

    /** `addAttachmentToTask({ taskId, attachment })`, with the same failure as above. */
    method AddAttachmentToTask(taskId: Value, attachment: Object, stamp: string)
      returns (thrown: bool)
      requires kind == Tasks
      modifies this
      ensures var i := FindIndex(old(items), taskId);
        && thrown == (i != -1 && PushEntry(old(items)[i], "attachments", Obj(NewAttachment(attachment, stamp))).None?)
        && items == if i == -1 || thrown then old(items)
                    else old(items)[i := PushEntry(old(items)[i], "attachments", Obj(NewAttachment(attachment, stamp))).value]
      ensures status == old(status) && error == old(error)
    {
      thrown := false;
      var i := FindIndex(items, taskId);
      if i != -1 {
        var pushed := PushEntry(items[i], "attachments", Obj(NewAttachment(attachment, stamp)));
        if pushed.Some? {
          items := items[i := pushed.value];
        } else {
          thrown := true;
        }
      }
    }
  }
}
