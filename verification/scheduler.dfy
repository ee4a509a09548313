// Scheduler: tasks by id, and for strict tasks an expiry that outlives the process.
module Scheduling {
  import opened Wrappers
  import opened DateTime
  import opened TaskStore

  datatype Execution = Relaxed | Strict

  // What the strict policy does with the saved records: the new records, everything written to
  // the file on the way, the expiry the task is armed with, and whether no exception was thrown.
  datatype Processed = Processed(ok: bool, tasks: seq<TaskEntity>, written: seq<seq<TaskEntity>>, expiry: Ticks)

  function Record(id: TaskId, owner: string, expiry: Ticks): TaskEntity {
    SaveAndRestore(expiry);
    TaskEntity(id, owner, ToTimestamp(expiry))
  }

  function ProcessStrict(tasks: seq<TaskEntity>, id: TaskId, owner: string, expiry: Ticks): (r: Processed) {
    match Find(tasks, id)
    case None =>
      var added := tasks + [Record(id, owner, expiry)];
      Processed(true, added, [added], expiry)
    case Some(saved) =>
      var restored := FromTimestamp(saved.timestamp);
      var removed := Without(tasks, id);
      if Find(removed, id).Some? then Processed(false, removed, [removed], restored) else
      var added := removed + [Record(id, owner, restored)];
      Processed(true, added, [removed, added], restored)
  }

  // What add_task does: nothing to a duplicate, which throws; only activation to a relaxed task.
  function Adding(duplicate: bool, tasks: seq<TaskEntity>, id: TaskId, owner: string, expiry: Ticks, policy: Execution)
    : (r: Processed)
  {
    if duplicate then Processed(false, tasks, [], expiry)
    else if policy.Relaxed? then Processed(true, tasks, [], expiry)
    else ProcessStrict(tasks, id, owner, expiry)
  }

  // What get_active_tasks tells about a task.
  datatype TaskInfo = TaskInfo(id: TaskId, owner: string, expiry: Ticks)

  class Task {
    const id: TaskId
    const owner: string
    var expiry: Ticks

    constructor (id: TaskId, owner: string, expiry: Ticks)
      ensures this.id == id && this.owner == owner && this.expiry == expiry
    {
      this.id := id;
      this.owner := owner;
      this.expiry := expiry;
    }

    function Info(): TaskInfo
      reads this
    {
      TaskInfo(id, owner, expiry)
    }
  }

  function Infos(tasks: seq<Task>): (infos: seq<TaskInfo>)
    reads tasks
    ensures |infos| == |tasks|
    ensures forall i :: 0 <= i < |tasks| ==> infos[i] == tasks[i].Info()
  {
    if tasks == [] then [] else Infos(tasks[..|tasks| - 1]) + [tasks[|tasks| - 1].Info()]
  }

  function Contents(written: seq<seq<TaskEntity>>): seq<Content> {
    seq(|written|, i requires 0 <= i < |written| => Serialize(written[i]))
  }

  lemma ContentsOfFew(written: seq<seq<TaskEntity>>)
    ensures |written| == 1 ==> Contents(written) == [Serialize(written[0])]
    ensures |written| == 2 ==> Contents(written) == [Serialize(written[0]), Serialize(written[1])]
  {
  }

  lemma InfosOfMore(tasks: seq<Task>, t: Task)
    ensures Infos(tasks + [t]) == Infos(tasks) + [t.Info()]
  {
    assert (tasks + [t])[..|tasks|] == tasks;
  }

  class Scheduler {
    const store: FileTaskStore
    var active: seq<Task>

    ghost predicate IsActive(id: TaskId)
      reads this
    {
      exists i :: 0 <= i < |active| && active[i].id == id
    }

    constructor (store: FileTaskStore)
      ensures this.store == store && active == []
    {
      this.store := store;
      this.active := [];
    }

    method IsTaskActive(id: TaskId) returns (found: bool)
      ensures found <==> IsActive(id)
    {
      for i := 0 to |active|
        invariant forall j :: 0 <= j < i ==> active[j].id != id
      {
        if active[i].id == id { return true; }
      }
      return false;
    }

    method GetActiveTasks() returns (infos: seq<TaskInfo>)
      ensures infos == Infos(active)
    {
      infos := [];
      for i := 0 to |active|
        invariant |infos| == i && forall j :: 0 <= j < i ==> infos[j] == active[j].Info()
      {
        infos := infos + [active[i].Info()];
      }
    }

    // False stands for an exception.
    method AddTask(task: Task, policy: Execution) returns (ok: bool)
      requires store.Valid()
      modifies this, task, store, store.file
      ensures store.Valid()
      ensures
        var p := Adding(old(IsActive(task.id)), old(store.cached), task.id, task.owner, old(task.expiry), policy);
        ok == p.ok && active == old(active) + (if ok then [task] else []) && task.expiry == p.expiry
        && store.cached == p.tasks && store.file.written == old(store.file.written) + Contents(p.written)
    {
      var duplicate := IsTaskActive(task.id);
      if duplicate { return false; }
      if policy.Strict? {
        ok := ProcessStrictPolicyTask(task);
        if !ok { return false; }
      }
      Activate(task);
      return true;
    }

    method Activate(task: Task)
      modifies this
      ensures active == old(active) + [task]
    {
      active := active + [task];
    }

    method ProcessStrictPolicyTask(task: Task) returns (ok: bool)
      requires store.Valid()
      modifies task, store, store.file
      ensures store.Valid()
      ensures
        var p := ProcessStrict(old(store.cached), task.id, task.owner, old(task.expiry));
        ok == p.ok && task.expiry == p.expiry && store.cached == p.tasks
        && store.file.written == old(store.file.written) + Contents(p.written)
    {
      ghost var p := ProcessStrict(store.cached, task.id, task.owner, task.expiry);
      var existing := store.FindTask(task.id);
      if existing.Some? {
        task.expiry := FromTimestamp(existing.value.timestamp);
        var removed := store.Remove(task.id);
      }
      ok := store.Add(Record(task.id, task.owner, task.expiry));
      ContentsOfFew(p.written);
    }
  }
}
