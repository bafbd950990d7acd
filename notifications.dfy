/** The notifications slice: a newest-first list of `{ id, message, read }` records. */
module Notifications {
  import opened JsValues

  /** The record `addNotification` inserts: `{ id: iso, ...payload, read: false }`.
      It is unread whatever the payload says; a payload `id` replaces the timestamp id. */
  function NewNotification(payload: Object, iso: string): (n: Object)
    ensures n.Keys == payload.Keys + {"id", "read"}
    ensures n["read"] == Bool(false)
    ensures n["id"] == if "id" in payload then payload["id"] else Str(iso)
    ensures forall k :: k in payload && k != "read" ==> n[k] == payload[k]
  {
    Spread(Spread(map["id" := Str(iso)], payload), map["read" := Bool(false)])
  }

  /** A record after `item.read = true`. */
  function MarkRead(item: Object): (r: Object)
    ensures r.Keys == item.Keys + {"read"} && r["read"] == Bool(true)
    ensures forall k :: k in item && k != "read" ==> r[k] == item[k]
  {
    item["read" := Bool(true)]
  }

  /** The list after `markAllAsRead`: every record read, nothing else different. */
  function AllRead(items: seq<Object>): (r: seq<Object>)
    ensures |r| == |items|
    ensures forall j :: 0 <= j < |r| ==> Get(r[j], "read") == Bool(true)
    ensures forall j, k :: 0 <= j < |r| && k != "read" ==> Get(r[j], k) == Get(items[j], k)
  {
    seq(|items|, j requires 0 <= j < |items| => MarkRead(items[j]))
  }

  /** Marking everything read a second time changes nothing. */
  lemma AllReadIdempotent(items: seq<Object>)
    ensures AllRead(AllRead(items)) == AllRead(items)
  {
    var once := AllRead(items);
    forall j | 0 <= j < |once|
      ensures AllRead(once)[j] == once[j]
    {
      assert once[j] == MarkRead(items[j]);
      assert MarkRead(once[j]) == once[j];
    }
  }

  class NotificationsSlice {
    var items: seq<Object>

    /** `initialState = { items: [] }` */
    constructor ()
      ensures items == []
    {
      items := [];
    }

    /** `addNotification(payload)`: `state.items.unshift(...)`: the new record goes to
        index 0 and the others move one place right, unchanged. */
    method AddNotification(payload: Object, iso: string)
      modifies this
      ensures items == [NewNotification(payload, iso)] + old(items)
      ensures |items| == |old(items)| + 1 && items[1..] == old(items)
    {
      items := [NewNotification(payload, iso)] + items;
    }

    /** `markAllAsRead()`: `state.items.forEach(item => { item.read = true })` */
    method MarkAllAsRead()
      modifies this
      ensures items == AllRead(old(items))
    {
      var i := 0;
      while i < |items|
        invariant 0 <= i <= |items| == |old(items)|
        invariant forall j :: 0 <= j < i ==> items[j] == MarkRead(old(items)[j])
        invariant forall j :: i <= j < |items| ==> items[j] == old(items)[j]
      {
        items := items[i := MarkRead(items[i])];
        i := i + 1;
      }
    }
  }
}
