/** `buildContextMessage`: the text that seeds the model's conversation with
    the project's current lists and tasks. A list's tasks are found by
    filtering all tasks of the project on the list's uid, not by reading the
    list's own task array. */
module Context {
  import opened Values
  import opened Store
  import opened Text

  const Head := "Here is the current state of the project:\n\n"

  const NoLists := "No lists exist yet.\n"

  const Tail := "\nYou can help me create new lists and tasks, " + "update existing ones, or answer questions about the project."

  /** `tasks.filter(t => t.list_uid === uid)` */
  function TasksOf(tasks: seq<Task>, uid: string): (r: seq<Task>)
    ensures |r| <= |tasks|
    ensures forall t :: t in r <==> t in tasks && t.listUid == uid
  {
    if tasks == [] then []
    else (if tasks[0].listUid == uid then [tasks[0]] else []) + TasksOf(tasks[1..], uid)
  }

  /** Each task that names the list is kept as often as it occurs, and
      no other task is kept. */
  lemma {:induction false} TasksOfCounts(tasks: seq<Task>, uid: string)
    ensures forall t :: multiset(TasksOf(tasks, uid))[t] == if t.listUid == uid then multiset(tasks)[t] else 0
  {
    if tasks != [] {
      TasksOfCounts(tasks[1..], uid);
      var head := if tasks[0].listUid == uid then [tasks[0]] else [];
      assert tasks == [tasks[0]] + tasks[1..];
      assert multiset(tasks) == multiset([tasks[0]]) + multiset(tasks[1..]);
      assert multiset(TasksOf(tasks, uid)) == multiset(head) + multiset(TasksOf(tasks[1..], uid));
    }
  }

  /** The line of one task, indented under its list. */
  function TaskLine(t: Task): string {
    "  • \"" + t.title + "\" (UID: " + t.taskUid + ", Status: " + t.status + ", Priority: " + t.priority + ")\n"
  }

  function TaskLines(ts: seq<Task>): (lines: seq<string>)
    ensures |lines| == |ts|
    ensures forall k :: 0 <= k < |ts| ==> lines[k] == TaskLine(ts[k])
  {
    seq(|ts|, k requires 0 <= k < |ts| => TaskLine(ts[k]))
  }

  /** The line of one list with the number of its tasks. */
  function ListLine(l: List, count: nat): string {
    "- \"" + l.name + "\" (UID: " + l.listUid + ", Color: " + l.color + ", " + NatText(count) + " tasks)\n"
  }

  /** A list's line followed by the lines of its tasks. */
  function ListBlock(l: List, tasks: seq<Task>): string {
    var own := TasksOf(tasks, l.listUid);
    ListLine(l, |own|) + Concat(TaskLines(own))
  }

  function ListBlocks(lists: seq<List>, tasks: seq<Task>): (blocks: seq<string>)
    ensures |blocks| == |lists|
    ensures forall k :: 0 <= k < |lists| ==> blocks[k] == ListBlock(lists[k], tasks)
  {
    seq(|lists|, k requires 0 <= k < |lists| => ListBlock(lists[k], tasks))
  }

  /** The line announcing how many lists follow. */
  function ListsHeader(count: nat): string {
    "Lists (" + NatText(count) + " total):\n"
  }

  /** The body between the head and the tail: a notice when there are no
      lists, otherwise the count of lists and a block per list. */
  function Body(lists: seq<List>, tasks: seq<Task>): string {
    if lists == [] then NoLists
    else ListsHeader(|lists|) + Concat(ListBlocks(lists, tasks))
  }

  predicate EndsWith(s: string, suffix: string) {
    |suffix| <= |s| && s[|s| - |suffix|..] == suffix
  }

  /** `buildContextMessage(lists, tasks)` */
  function ContextMessage(lists: seq<List>, tasks: seq<Task>): (m: string)
    ensures Head <= m && EndsWith(m, Tail)
    ensures lists == [] ==> m == Head + NoLists + Tail
    ensures lists != [] ==> Head + ListsHeader(|lists|) <= m
  {
    PrefixThrough(Head, ListsHeader(|lists|), Concat(ListBlocks(lists, tasks)), Tail);
    Head + Body(lists, tasks) + Tail
  }

  /** Whatever the list blocks contain, the message contains. */
  lemma BlocksInMessage(lists: seq<List>, tasks: seq<Task>, x: string)
    requires lists != [] && Contains(Concat(ListBlocks(lists, tasks)), x)
    ensures Contains(ContextMessage(lists, tasks), x)
  {
    var header := ListsHeader(|lists|);
    var blocks := Concat(ListBlocks(lists, tasks));
    ContainsWithin(header, blocks, "", x);
    assert header + blocks + "" == Body(lists, tasks);
    ContainsWithin(Head, Body(lists, tasks), Tail, x);
  }

  /** Whatever one list's block contains, the message contains. */
  lemma BlockInMessage(lists: seq<List>, tasks: seq<Task>, k: nat, x: string)
    requires k < |lists| && Contains(ListBlock(lists[k], tasks), x)
    ensures Contains(ContextMessage(lists, tasks), x)
  {
    var pre, post := ConcatHasPiece(ListBlocks(lists, tasks), k);
    ContainsWithin(pre, ListBlock(lists[k], tasks), post, x);
    BlocksInMessage(lists, tasks, x);
  }

  /** Every list is announced with the number of tasks that name it. */
  lemma ListsAnnounced(lists: seq<List>, tasks: seq<Task>, k: nat)
    requires k < |lists|
    ensures Contains(ContextMessage(lists, tasks), ListLine(lists[k], |TasksOf(tasks, lists[k].listUid)|))
  {
    var l := lists[k];
    var line := ListLine(l, |TasksOf(tasks, l.listUid)|);
    assert StartsAt(ListBlock(l, tasks), line, 0);
    BlockInMessage(lists, tasks, k, line);
  }

  /** Every task that names one of the lists is shown under that list. */
  lemma TasksShown(lists: seq<List>, tasks: seq<Task>, k: nat, t: Task)
    requires k < |lists| && t in tasks && t.listUid == lists[k].listUid
    ensures Contains(ContextMessage(lists, tasks), TaskLine(t))
  {
    var l := lists[k];
    var own := TasksOf(tasks, l.listUid);
    var j :| 0 <= j < |own| && own[j] == t;
    var p, q := ConcatHasPiece(TaskLines(own), j);
    Occurs(p, TaskLine(t), q);
    ContainsWithin(ListLine(l, |own|), Concat(TaskLines(own)), "", TaskLine(t));
    assert ListLine(l, |own|) + Concat(TaskLines(own)) + "" == ListBlock(l, tasks);
    BlockInMessage(lists, tasks, k, TaskLine(t));
  }

  /** Filtering distributes over concatenation. */
  lemma {:induction false} TasksOfAppend(a: seq<Task>, b: seq<Task>, uid: string)
    ensures TasksOf(a + b, uid) == TasksOf(a, uid) + TasksOf(b, uid)
  {
    if a == [] {
      assert a + b == b;
    } else {
      assert (a + b)[0] == a[0];
      assert (a + b)[1..] == a[1..] + b;
      TasksOfAppend(a[1..], b, uid);
    }
  }

  /** A project is consistent when every list's tasks name that list and no
      two lists share a uid. */
  predicate Consistent(lists: seq<List>) {
    && (forall k :: 0 <= k < |lists| ==> forall t :: t in lists[k].tasks ==> t.listUid == lists[k].listUid)
    && (forall k, m :: 0 <= k < m < |lists| ==> lists[k].listUid != lists[m].listUid)
  }

  lemma {:induction false} TasksOfAll(ts: seq<Task>, uid: string)
    requires forall t :: t in ts ==> t.listUid == uid
    ensures TasksOf(ts, uid) == ts
  {
    if ts != [] {
      TasksOfAll(ts[1..], uid);
      assert [ts[0]] + ts[1..] == ts;
    }
  }

  lemma TasksOfNone(ts: seq<Task>, uid: string)
    requires forall t :: t in ts ==> t.listUid != uid
    ensures TasksOf(ts, uid) == []
  {
  }

  lemma ConsistentTail(lists: seq<List>)
    requires lists != [] && Consistent(lists)
    ensures Consistent(lists[1..])
    ensures forall k :: 0 <= k < |lists[1..]| ==> lists[1..][k].listUid != lists[0].listUid
  {
    var rest := lists[1..];
    forall k | 0 <= k < |rest|
      ensures forall t :: t in rest[k].tasks ==> t.listUid == rest[k].listUid
      ensures rest[k].listUid != lists[0].listUid
    {
      assert rest[k] == lists[k + 1];
    }
    forall k, m | 0 <= k < m < |rest|
      ensures rest[k].listUid != rest[m].listUid
    {
      assert rest[k] == lists[k + 1] && rest[m] == lists[m + 1];
    }
  }

  /** On a consistent project, the filter over all tasks of the project
      (what `getProjectData` returns) finds exactly each list's own tasks, so
      the count the context shows is the size of the list's task array; a
      uid no list has finds nothing. */
  lemma {:induction false} OwnTasksRecovered(lists: seq<List>, uid: string)
    requires Consistent(lists)
    ensures forall k :: 0 <= k < |lists| && lists[k].listUid == uid ==> TasksOf(AllTasks(lists), uid) == lists[k].tasks
    ensures (forall k :: 0 <= k < |lists| ==> lists[k].listUid != uid) ==> TasksOf(AllTasks(lists), uid) == []
  {
    if lists != [] {
      var rest := lists[1..];
      ConsistentTail(lists);
      OwnTasksRecovered(rest, uid);
      assert AllTasks(lists) == lists[0].tasks + AllTasks(rest);
      TasksOfAppend(lists[0].tasks, AllTasks(rest), uid);
      assert forall k :: 1 <= k < |lists| ==> lists[k] == rest[k - 1];
      if lists[0].listUid == uid {
        TasksOfAll(lists[0].tasks, uid);
        assert TasksOf(AllTasks(rest), uid) == [];
      } else {
        TasksOfNone(lists[0].tasks, uid);
      }
    }
  }
}
