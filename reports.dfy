/** The reports page: tasks grouped by a property (status or priority) into chart
    entries `{ name, value }`. */
module Reports {
  import opened JsValues
  import opened Collection
  import opened Kanban
  import opened Dashboard

  /** One chart entry: a group's name and its number of tasks. */
  datatype Entry = Entry(name: string, value: nat)

  /** The object key `acc[task[field]]` uses: the property's value converted to a string. */
  function KeyOf(task: Object, field: string): string {
    Display(Get(task, field))
  }

  /** The number of tasks whose key for `field` is `name`. */
  function Tally(tasks: seq<Object>, field: string, name: string): nat {
    Count(tasks, t => KeyOf(t, field) == name)
  }

  predicate Distinct(names: seq<string>) {
    forall i, j :: 0 <= i < j < |names| ==> names[i] != names[j]
  }

  /** The sum of the counts of the listed keys. */
  function SumOver(names: seq<string>, counts: map<string, nat>): nat
    requires forall i :: 0 <= i < |names| ==> names[i] in counts
  {
    if names == [] then 0 else SumOver(names[..|names| - 1], counts) + counts[names[|names| - 1]]
  }

  function Total(entries: seq<Entry>): nat {
    if entries == [] then 0 else Total(entries[..|entries| - 1]) + entries[|entries| - 1].value
  }

  /** Raising the count of one listed key by one raises the sum by one. */
  lemma {:induction false} SumBump(names: seq<string>, counts: map<string, nat>, key: string)
    requires Distinct(names) && key in names
    requires forall i :: 0 <= i < |names| ==> names[i] in counts
    ensures SumOver(names, counts[key := counts[key] + 1]) == SumOver(names, counts) + 1
    decreases |names|
  {
    var last := names[|names| - 1];
    var front := names[..|names| - 1];
    if last == key {
      SumFrame(front, counts, key, counts[key] + 1);
    } else {
      assert key in front by { var i :| 0 <= i < |names| && names[i] == key; assert front[i] == key; }
      SumBump(front, counts, key);
    }
  }

  /** Setting the count of a key that is not listed leaves the sum as it was. */
  lemma {:induction false} SumFrame(names: seq<string>, counts: map<string, nat>, key: string, c: nat)
    requires key !in names
    requires forall i :: 0 <= i < |names| ==> names[i] in counts
    ensures SumOver(names, counts[key := c]) == SumOver(names, counts)
    decreases |names|
  {
    if names != [] {
      SumFrame(names[..|names| - 1], counts, key, c);
    }
  }

  /** The entries' total equals the sum of the counts they were built from. */
  lemma {:induction false} TotalOfEntries(names: seq<string>, counts: map<string, nat>, entries: seq<Entry>)
    requires forall i :: 0 <= i < |names| ==> names[i] in counts
    requires |entries| == |names|
    requires forall i :: 0 <= i < |names| ==> entries[i] == Entry(names[i], counts[names[i]])
    ensures Total(entries) == SumOver(names, counts)
    decreases |names|
  {
    if names != [] {
      TotalOfEntries(names[..|names| - 1], counts, entries[..|entries| - 1]);
    }
  }

  /** The accumulator after the first `n` tasks: `order` lists its keys once each, in
      insertion order, and every key counts the tasks so far that carry it. */
  predicate Tallied(tasks: seq<Object>, field: string, n: nat, order: seq<string>, counts: map<string, nat>)
    requires n <= |tasks|
  {
    && Distinct(order)
    && (forall i :: 0 <= i < |order| ==> order[i] in counts)
    && (forall k :: k in counts ==> k in order)
    && (forall k :: k in counts ==> counts[k] == Tally(tasks[..n], field, k) && counts[k] >= 1)
    && (forall j :: 0 <= j < n ==> KeyOf(tasks[j], field) in counts)
    && SumOver(order, counts) == n
  }

  /** Reading one more task adds one to its own key's tally and nothing to the others. */
  lemma TallyAppend(tasks: seq<Object>, field: string, n: nat, k: string)
    requires n < |tasks|
    ensures Tally(tasks[..n + 1], field, k) == Tally(tasks[..n], field, k) + (if k == KeyOf(tasks[n], field) then 1 else 0)
  {
    assert tasks[..n + 1] == tasks[..n] + [tasks[n]];
    CountAppend(tasks[..n], tasks[n], t => KeyOf(t, field) == k);
  }

  /** A key no task read so far carries has tally zero. */
  lemma TallyAbsent(tasks: seq<Object>, field: string, n: nat, k: string)
    requires n <= |tasks|
    requires forall j :: 0 <= j < n ==> KeyOf(tasks[j], field) != k
    ensures Tally(tasks[..n], field, k) == 0
  {
    CountNone(tasks[..n], t => KeyOf(t, field) == k);
  }

  /** One step of the reduction for a key seen before: its count goes up by one. */
  lemma TallyStepSeen(tasks: seq<Object>, field: string, n: nat, order: seq<string>, counts: map<string, nat>)
    requires n < |tasks| && Tallied(tasks, field, n, order, counts)
    requires KeyOf(tasks[n], field) in counts
    ensures var key := KeyOf(tasks[n], field);
      Tallied(tasks, field, n + 1, order, counts[key := counts[key] + 1])
  {
    var key := KeyOf(tasks[n], field);
    forall k { TallyAppend(tasks, field, n, k); }
    SumBump(order, counts, key);
  }

  /** One step of the reduction for a new key: it is listed last with count one. */
  lemma TallyStepNew(tasks: seq<Object>, field: string, n: nat, order: seq<string>, counts: map<string, nat>)
    requires n < |tasks| && Tallied(tasks, field, n, order, counts)
    requires KeyOf(tasks[n], field) !in counts
    ensures var key := KeyOf(tasks[n], field);
      Tallied(tasks, field, n + 1, order + [key], counts[key := 1])
  {
    var key := KeyOf(tasks[n], field);
    forall k { TallyAppend(tasks, field, n, k); }
    TallyAbsent(tasks, field, n, key);
    SumFrame(order, counts, key, 1);
    var order' := order + [key];
    assert order'[..|order'| - 1] == order;
  }

  /** The chart entries of an accumulator, in its key order. */
  function EntriesOf(order: seq<string>, counts: map<string, nat>): (entries: seq<Entry>)
    requires forall i :: 0 <= i < |order| ==> order[i] in counts
    ensures |entries| == |order|
    ensures forall i :: 0 <= i < |order| ==> entries[i] == Entry(order[i], counts[order[i]])
  {
    seq(|order|, i requires 0 <= i < |order| => Entry(order[i], counts[order[i]]))
  }

  /** `Object.entries(tasks.reduce((acc, task) => { acc[key] = (acc[key] || 0) + 1 }, {}))`
      mapped to entries: one entry per distinct key, whose value is the number of tasks with
      that key, so the values add up to the number of tasks and there is an entry exactly
      when there is a task. */
  method CountBy(tasks: seq<Object>, field: string) returns (entries: seq<Entry>)
    ensures forall i, j :: 0 <= i < j < |entries| ==> entries[i].name != entries[j].name
    ensures forall i :: 0 <= i < |entries| ==>
      entries[i].value == Tally(tasks, field, entries[i].name) && entries[i].value >= 1
    ensures forall t :: t in tasks ==> exists i :: 0 <= i < |entries| && entries[i].name == KeyOf(t, field)
    ensures Total(entries) == |tasks|
    ensures |entries| > 0 <==> |tasks| > 0
  {
    var counts: map<string, nat> := map[];
    var order: seq<string> := [];
    for n := 0 to |tasks|
      invariant Tallied(tasks, field, n, order, counts)
    {
      var key := KeyOf(tasks[n], field);
      if key in counts {
        TallyStepSeen(tasks, field, n, order, counts);
        counts := counts[key := counts[key] + 1];
      } else {
        TallyStepNew(tasks, field, n, order, counts);
        counts := counts[key := 1];
        order := order + [key];
      }
    }
    entries := EntriesOf(order, counts);
    ReportOfTally(tasks, field, order, counts);
  }

  /** What the finished accumulator says about its entries. */
  lemma ReportOfTally(tasks: seq<Object>, field: string, order: seq<string>, counts: map<string, nat>)
    requires Tallied(tasks, field, |tasks|, order, counts)
    ensures var entries := EntriesOf(order, counts);
      && (forall i, j :: 0 <= i < j < |entries| ==> entries[i].name != entries[j].name)
      && (forall i :: 0 <= i < |entries| ==>
           entries[i].value == Tally(tasks, field, entries[i].name) && entries[i].value >= 1)
      && (forall t :: t in tasks ==> exists i :: 0 <= i < |entries| && entries[i].name == KeyOf(t, field))
      && Total(entries) == |tasks|
      && (|entries| > 0 <==> |tasks| > 0)
  {
    var entries := EntriesOf(order, counts);
    assert tasks[..|tasks|] == tasks;
    TotalOfEntries(order, counts, entries);
    forall t | t in tasks
      ensures exists i :: 0 <= i < |entries| && entries[i].name == KeyOf(t, field)
    {
      var j :| 0 <= j < |tasks| && tasks[j] == t;
      var k := KeyOf(t, field);
      assert k in order;
      var i :| 0 <= i < |order| && order[i] == k;
      assert entries[i].name == k;
    }
  }

  /** For tasks whose statuses are strings, the report's `Done` group counts the same tasks
      as the dashboard's "Tasks Completed" card. */
  lemma ReportMatchesDashboard(projects: seq<Object>, tasks: seq<Object>)
    requires forall j :: 0 <= j < |tasks| ==> Get(tasks[j], "status").Str?
    ensures Tally(tasks, "status", "Done") == DashboardStats(projects, tasks).completedTasks
  {
    CountSame(tasks, t => KeyOf(t, "status") == "Done", t => HasStatus(t, "Done"));
  }
}
