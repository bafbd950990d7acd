/** The mock data services for tasks, projects and users: each keeps a module-level list
    (`mockTasks`, `mockProjects`, `mockUsers`) seeded from bundled JSON and offers get-all,
    create (server-side defaults override the caller's data), merge-update and delete. */
module MockServices {
  import opened JsValues
  import opened Collection

  /** `createTask`: `{ id: 'task-' + stamp, ...data, status: 'To Do', comments: [],
      attachments: [], projectId: 'proj-1' }`. The four defaults win over the caller's data;
      every other property of the data is kept, its `id` included. */
  function NewTask(data: Object, stamp: string): (t: Object)
    ensures t.Keys == data.Keys + {"id", "status", "comments", "attachments", "projectId"}
    ensures t["status"] == Str("To Do") && t["comments"] == Arr([]) && t["attachments"] == Arr([])
    ensures t["projectId"] == Str("proj-1")
    ensures t["id"] == if "id" in data then data["id"] else Str("task-" + stamp)
    ensures forall k :: k in data && k !in {"status", "comments", "attachments", "projectId"} ==> t[k] == data[k]
  {
    Spread(Spread(map["id" := Str("task-" + stamp)], data),
      map["status" := Str("To Do"), "comments" := Arr([]), "attachments" := Arr([]), "projectId" := Str("proj-1")])
  }

  /** `createProject`: `{ id: 'proj-' + stamp, ...data, status: 'Planning' }` */
  function NewProject(data: Object, stamp: string): (p: Object)
    ensures p.Keys == data.Keys + {"id", "status"}
    ensures p["status"] == Str("Planning")
    ensures p["id"] == if "id" in data then data["id"] else Str("proj-" + stamp)
    ensures forall k :: k in data && k != "status" ==> p[k] == data[k]
  {
    Spread(Spread(map["id" := Str("proj-" + stamp)], data), map["status" := Str("Planning")])
  }

  /** `createUser`: `{ id: 'user-' + stamp, ...data, status: 'Active', lastActivity: iso }` */
  function NewUser(data: Object, stamp: string, iso: string): (u: Object)
    ensures u.Keys == data.Keys + {"id", "status", "lastActivity"}
    ensures u["status"] == Str("Active") && u["lastActivity"] == Str(iso)
    ensures u["id"] == if "id" in data then data["id"] else Str("user-" + stamp)
    ensures forall k :: k in data && k != "status" && k != "lastActivity" ==> u[k] == data[k]
  {
    Spread(Spread(map["id" := Str("user-" + stamp)], data),
      map["status" := Str("Active"), "lastActivity" := Str(iso)])
  }

  /** The record the service of `kind` creates. `stamp` stands for `Date.now()` and `iso`
      for `new Date().toISOString()`. */
  function NewRecord(kind: EntityKind, data: Object, stamp: string, iso: string): Object {
    match kind
    case Tasks => NewTask(data, stamp)
    case Projects => NewProject(data, stamp)
    case Users => NewUser(data, stamp, iso)
  }

  /** One service module and its in-memory list. */
  class MockTable {
    const kind: EntityKind
    var rows: seq<Object>

    /** `let mock = [...seed]` */
    constructor (kind: EntityKind, seed: seq<Object>)
      ensures this.kind == kind && rows == seed
    {
      this.kind := kind;
      rows := seed;
    }

    /** `get*()`: a copy of the list, equal in content. */
    method GetAll() returns (r: seq<Object>)
      ensures r == rows
    {
      r := rows;
    }

    /** `create*(data)`: the new record is appended and returned. */
    method Create(data: Object, stamp: string, iso: string) returns (row: Object)
      modifies this
      ensures row == NewRecord(kind, data, stamp, iso)
      ensures rows == old(rows) + [row]
    {
      row := NewRecord(kind, data, stamp, iso);
      rows := rows + [row];
    }

    /** `update*(data)`: the data is merged into every record with its id, and the
        caller's data itself is returned, not the merged record. */
    method Update(data: Object) returns (r: Object)
      modifies this
      ensures rows == MergeMatching(old(rows), data)
      ensures r == data
    {
      rows := MergeMatching(rows, data);
      r := data;
    }

    /** `delete*(id)`: every record with the id goes; success is reported even when
        no record matched. */
    method Delete(id: Value) returns (r: Object)
      modifies this
      ensures rows == Without(old(rows), id)
      ensures r == map["success" := Bool(true)]
    {
      rows := Without(rows, id);
      r := map["success" := Bool(true)];
    }
  }
}
