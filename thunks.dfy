/** The entity thunks: each calls its service, posts a notification when it creates,
    updates or deletes, and then lets the slice's fulfilled case update the list. */
module Thunks {
  import opened JsValues
  import opened Collection
  import opened EntitySlices
  import opened Notifications
  import opened MockServices

  /** The property a notification names the record by: a task's title, otherwise the name. */
  function LabelField(kind: EntityKind): string {
    if kind == Tasks then "title" else "name"
  }

  function CreatedPrefix(kind: EntityKind): string {
    match kind
    case Tasks => "New task added: "
    case Projects => "New project created: "
    case Users => "New user created: "
  }

  function UpdatedPrefix(kind: EntityKind): string {
    match kind
    case Tasks => "Task updated: "
    case Projects => "Project updated: "
    case Users => "User updated: "
  }

  function DeletedPrefix(kind: EntityKind): string {
    match kind
    case Tasks => "Task deleted: "
    case Projects => "Project deleted: "
    case Users => "User deleted: "
  }

  /** `${record.title}` (or `.name`): the label written into a message. */
  function Label(kind: EntityKind, record: Object): string {
    Display(Get(record, LabelField(kind)))
  }

  /** `${found?.title || ''}` for the record the thunk looks up in the slice before the
      delete: empty when no record has the id or its label is falsy. */
  function DeletedLabel(kind: EntityKind, items: seq<Object>, id: Value): (text: string)
    ensures FindIndex(items, id) == -1 ==> text == ""
    ensures FindIndex(items, id) != -1 && Truthy(Get(items[FindIndex(items, id)], LabelField(kind))) ==>
      text == Label(kind, items[FindIndex(items, id)])
    ensures FindIndex(items, id) != -1 && !Truthy(Get(items[FindIndex(items, id)], LabelField(kind))) ==>
      text == ""
  {
    var i := FindIndex(items, id);
    if i == -1 then ""
    else
      var v := Get(items[i], LabelField(kind));
      if Truthy(v) then Display(v) else ""
  }

  /** `addNotification({ message })` */
  function MessagePayload(message: string): Object {
    map["message" := Str(message)]
  }

  /** One entity kind's service table, its slice, and the shared notifications slice. */
  class Store {
    const service: MockTable
    const slice: EntitySlice
    const notes: NotificationsSlice

    /** The notifications slice is passed in, so the task, project and user stores can
        share one, as the application's store does. */
    constructor (kind: EntityKind, seed: seq<Object>, notes: NotificationsSlice)
      ensures service.kind == kind && slice.kind == kind
      ensures service.rows == seed && slice.items == [] && slice.status == Idle && slice.error == None
      ensures this.notes == notes && fresh(service) && fresh(slice)
    {
      service := new MockTable(kind, seed);
      slice := new EntitySlice(kind);
      this.notes := notes;
    }

    /** The slice shows exactly what the service holds. */
    predicate InSync()
      reads this, service, slice
    {
      slice.items == service.rows
    }

    /** `fetch*`: pending, the service's list, fulfilled. Afterwards the slice is in sync. */
    method Fetch()
      modifies slice
      ensures slice.status == Succeeded && slice.error == old(slice.error)
      ensures slice.items == service.rows
      ensures InSync()
    {
      slice.FetchPending();
      var rows := service.GetAll();
      slice.FetchFulfilled(rows);
    }

    /** `createNew*(data)`: the service creates the record, a notification names it, and
        the slice appends it; a slice in sync stays in sync. `iso` is the service's reading
        of the clock (a user's `lastActivity`) and `noteIso` the notification's own. */
    method Create(data: Object, stamp: string, iso: string, noteIso: string) returns (row: Object)
      requires service.kind == slice.kind
      modifies service, slice, notes
      ensures row == NewRecord(service.kind, data, stamp, iso)
      ensures service.rows == old(service.rows) + [row]
      ensures slice.items == old(slice.items) + [row]
      ensures slice.status == old(slice.status) && slice.error == old(slice.error)
      ensures notes.items ==
        [NewNotification(MessagePayload(CreatedPrefix(slice.kind) + Label(slice.kind, row)), noteIso)] + old(notes.items)
      ensures old(InSync()) ==> InSync()
    {
      row := service.Create(data, stamp, iso);
      notes.AddNotification(MessagePayload(CreatedPrefix(slice.kind) + Label(slice.kind, row)), noteIso);
      slice.CreateFulfilled(row);
    }

    /** `update*(data)`: the service merges the data into every record with its id, and the
        slice puts the data itself in place of the first such record. With ids unique and
        data carrying every field of the record (the edit forms send the whole record),
        a slice in sync stays in sync. */
    method Update(data: Object, iso: string)
      requires service.kind == slice.kind
      modifies service, slice, notes
      ensures service.rows == MergeMatching(old(service.rows), data)
      ensures |slice.items| == |old(slice.items)|
      ensures FindIndex(old(slice.items), IdOf(data)) != -1 ==>
        slice.items == old(slice.items)[FindIndex(old(slice.items), IdOf(data)) := data]
      ensures FindIndex(old(slice.items), IdOf(data)) == -1 ==> slice.items == old(slice.items)
      ensures notes.items ==
        [NewNotification(MessagePayload(UpdatedPrefix(slice.kind) + Label(slice.kind, data)), iso)] + old(notes.items)
      ensures old(InSync()) && Count(old(service.rows), HasId(IdOf(data))) <= 1
        && (FindIndex(old(service.rows), IdOf(data)) != -1 ==>
            old(service.rows)[FindIndex(old(service.rows), IdOf(data))].Keys <= data.Keys)
        ==> InSync()
    {
      var i := FindIndex(service.rows, IdOf(data));
      if i == -1 {
        MergeAbsent(service.rows, data);
      } else if Count(service.rows, HasId(IdOf(data))) <= 1 && service.rows[i].Keys <= data.Keys {
        MergeUnique(service.rows, data);
      }
      var updated := service.Update(data);
      notes.AddNotification(MessagePayload(UpdatedPrefix(slice.kind) + Label(slice.kind, updated)), iso);
      slice.UpdateFulfilled(updated);
    }

    /** `delete*(id)`: the label is looked up in the slice first, then the service and the
        slice both drop every record with the id; a slice in sync stays in sync. */
    method Delete(id: Value, iso: string)
      requires service.kind == slice.kind
      modifies service, slice, notes
      ensures service.rows == Without(old(service.rows), id)
      ensures slice.items == Without(old(slice.items), id)
      ensures notes.items ==
        [NewNotification(MessagePayload(DeletedPrefix(slice.kind) + DeletedLabel(slice.kind, old(slice.items), id)), iso)]
        + old(notes.items)
      ensures old(InSync()) ==> InSync()
    {
      var name := DeletedLabel(slice.kind, slice.items, id);
      var _ := service.Delete(id);
      notes.AddNotification(MessagePayload(DeletedPrefix(slice.kind) + name), iso);
      slice.DeleteFulfilled(id);
    }
  }

  /** A project created with a requested status still starts in "Planning", and after the
      create it is the last project in the slice. */
  lemma CreatedProjectIsPlanningAndLast(items: seq<Object>, data: Object, stamp: string, iso: string)
    ensures var row := NewRecord(Projects, data, stamp, iso);
      && Get(row, "status") == Str("Planning")
      && (items + [row])[|items|] == row
  {
  }
}
