/** The dashboard's figures: four task and project statistics, and the unread
    notifications with the first three of them listed. */
module Dashboard {
  import opened JsValues
  import opened Collection
  import opened Kanban
  import opened Notifications

  /** The four statistics cards, in display order. */
  datatype Stats = Stats(totalProjects: nat, totalTasks: nat, completedTasks: nat, pendingTasks: int)

  /** The statistics: completed tasks are those with status `Done`, and pending is total
      minus completed, so every task not done (including one outside the board) is pending. */
  function DashboardStats(projects: seq<Object>, tasks: seq<Object>): (s: Stats)
    ensures s.totalProjects == |projects| && s.totalTasks == |tasks|
    ensures s.completedTasks == Count(tasks, t => HasStatus(t, "Done"))
    ensures 0 <= s.pendingTasks == Count(tasks, t => !HasStatus(t, "Done"))
    ensures s.completedTasks + s.pendingTasks == s.totalTasks
  {
    var completed := |Column(tasks, "Done")|;
    CountComplement(tasks, t => HasStatus(t, "Done"), t => !HasStatus(t, "Done"));
    Stats(|projects|, |tasks|, completed, |tasks| - completed)
  }

  /** `notifications.filter(n => !n.read)` */
  function Unread(items: seq<Object>): (r: seq<Object>)
    ensures forall n :: n in r <==> n in items && !Truthy(Get(n, "read"))
  {
    Filter(items, n => !Truthy(Get(n, "read")))
  }

  /** `unread.slice(0, 3)`: at most the first three unread notifications. */
  function ShownUnread(items: seq<Object>): (r: seq<Object>)
    ensures |r| == if |Unread(items)| < 3 then |Unread(items)| else 3
    ensures r <= Unread(items)
  {
    var unread := Unread(items);
    if |unread| < 3 then unread else unread[..3]
  }

  /** After "mark all as read" the dashboard lists no unread notification. */
  lemma NothingUnreadAfterMarkAll(items: seq<Object>)
    ensures Unread(AllRead(items)) == []
    ensures ShownUnread(AllRead(items)) == []
  {
    var all := AllRead(items);
    FilterKeepsAll(all, n => Truthy(Get(n, "read")));
    CountComplement(all, n => Truthy(Get(n, "read")), n => !Truthy(Get(n, "read")));
  }

  /** A newly added notification is unread, heads the unread list, and is the first one
      the dashboard lists; the unread count grows by one. */
  lemma NewNotificationShownFirst(items: seq<Object>, payload: Object, iso: string)
    ensures var n := NewNotification(payload, iso);
      && Unread([n] + items) == [n] + Unread(items)
      && |Unread([n] + items)| == |Unread(items)| + 1
      && ShownUnread([n] + items)[0] == n
  {
    var n := NewNotification(payload, iso);
    assert ([n] + items)[1..] == items;
  }
}
