/** The list edits the view-model applies to its task list when a service
    call succeeds: `findIndex` by id, replacement at that index, and
    `filter` by id. */
module TaskList {
  import opened TaskModel

  /** `tasks.findIndex(t => t._id === id)`: the first index whose task has the
      given id, or -1 when there is none. Ids compare as `===` does, so an
      absent id matches exactly the tasks that have no id. */
  function FindIndex(tasks: seq<Task>, id: Option<string>): (r: int)
    ensures -1 <= r < |tasks|
    ensures r == -1 <==> forall i :: 0 <= i < |tasks| ==> tasks[i].id != id
    ensures r != -1 ==> tasks[r].id == id && forall j :: 0 <= j < r ==> tasks[j].id != id
  {
    if tasks == [] then -1
    else if tasks[0].id == id then 0
    else
      var k := FindIndex(tasks[1..], id);
      if k == -1 then -1 else k + 1
  }

  /** The edit made on a successful update or toggle: the first task with the
      same id as `t` is replaced by `t` at its index; with no such task the
      list is left as it was. */
  function ReplaceFirst(tasks: seq<Task>, t: Task): (r: seq<Task>)
    ensures |r| == |tasks|
    ensures forall i :: 0 <= i < |r| ==> r[i].id == tasks[i].id
    ensures (forall i :: 0 <= i < |tasks| ==> tasks[i].id != t.id) ==> r == tasks
    ensures forall k :: 0 <= k < |tasks| && tasks[k].id == t.id && (forall j :: 0 <= j < k ==> tasks[j].id != t.id)
              ==> r == tasks[k := t]
  {
    var k := FindIndex(tasks, t.id);
    if k == -1 then tasks else tasks[k := t]
  }

  /** `tasks.filter(t => t._id !== id)`: every task whose id is `id` is
      dropped, every other task is kept. */
  function RemoveAll(tasks: seq<Task>, id: string): (r: seq<Task>)
    ensures |r| <= |tasks|
    ensures forall x :: x in r <==> x in tasks && x.id != Some(id)
  {
    if tasks == [] then []
    else if tasks[0].id == Some(id) then RemoveAll(tasks[1..], id)
    else [tasks[0]] + RemoveAll(tasks[1..], id)
  }

  /** The number of tasks in the list with the given id. */
  function CountId(tasks: seq<Task>, id: Option<string>): nat
  {
    if tasks == [] then 0
    else (if tasks[0].id == id then 1 else 0) + CountId(tasks[1..], id)
  }

  /** Removal keeps the relative order of the remaining tasks: filtering a
      concatenation is concatenating the filtered parts. */
  lemma {:induction false} RemoveAllAppend(a: seq<Task>, b: seq<Task>, id: string)
    ensures RemoveAll(a + b, id) == RemoveAll(a, id) + RemoveAll(b, id)
  {
    if a == [] {
      assert a + b == b;
    } else {
      assert (a + b)[1..] == a[1..] + b;
      RemoveAllAppend(a[1..], b, id);
    }
  }

  /** Removal drops exactly the tasks that carry the id. */
  lemma {:induction false} RemoveAllLength(tasks: seq<Task>, id: string)
    ensures |RemoveAll(tasks, id)| == |tasks| - CountId(tasks, Some(id))
  {
    if tasks != [] {
      RemoveAllLength(tasks[1..], id);
    }
  }

  /** Deleting an id that no task carries leaves the list unchanged. */
  lemma {:induction false} RemoveAllAbsent(tasks: seq<Task>, id: string)
    requires forall i :: 0 <= i < |tasks| ==> tasks[i].id != Some(id)
    ensures RemoveAll(tasks, id) == tasks
  {
    if tasks != [] {
      RemoveAllAbsent(tasks[1..], id);
      assert [tasks[0]] + tasks[1..] == tasks;
    }
  }

  /** When exactly one task carries the id, a delete shortens the list by one. */
  lemma RemoveUniqueShrinksByOne(tasks: seq<Task>, id: string)
    requires CountId(tasks, Some(id)) == 1
    ensures |RemoveAll(tasks, id)| == |tasks| - 1
  {
    RemoveAllLength(tasks, id);
  }

  /** Replacing a task by one with the same id does not change how many tasks
      carry any given id. */
  lemma {:induction false} CountIdUpdate(tasks: seq<Task>, k: nat, t: Task, id: Option<string>)
    requires k < |tasks| && tasks[k].id == t.id
    ensures CountId(tasks[k := t], id) == CountId(tasks, id)
  {
    if k == 0 {
      assert tasks[k := t][1..] == tasks[1..];
    } else {
      assert tasks[k := t][1..] == tasks[1..][k - 1 := t];
      CountIdUpdate(tasks[1..], k - 1, t, id);
    }
  }

  /** An update never changes the number of tasks that carry any id. */
  lemma ReplaceFirstKeepsCounts(tasks: seq<Task>, t: Task, id: Option<string>)
    ensures CountId(ReplaceFirst(tasks, t), id) == CountId(tasks, id)
  {
    var k := FindIndex(tasks, t.id);
    if k != -1 {
      CountIdUpdate(tasks, k, t, id);
    }
  }

  /** Applying the same successful update twice is the same as applying it once. */
  lemma ReplaceFirstIdempotent(tasks: seq<Task>, t: Task)
    ensures ReplaceFirst(ReplaceFirst(tasks, t), t) == ReplaceFirst(tasks, t)
  {
  }

  /** After a delete, an update carrying the deleted id finds nothing to replace. */
  lemma UpdateAfterRemoveIsNoop(tasks: seq<Task>, id: string, t: Task)
    requires t.id == Some(id)
    ensures ReplaceFirst(RemoveAll(tasks, id), t) == RemoveAll(tasks, id)
  {
  }

  /** With duplicate ids, update and delete differ: the update leaves a later
      task with the same id untouched, while the delete removes it too. */
  lemma DuplicateIds(tasks: seq<Task>, t: Task, i: nat, j: nat)
    requires i < j < |tasks|
    requires tasks[i].id == t.id && tasks[j].id == t.id
    ensures ReplaceFirst(tasks, t)[j] == tasks[j]
    ensures t.id.Some? ==> tasks[j] !in RemoveAll(tasks, t.id.value)
  {
  }
}
