// A process run: the store opened on a file, and a list of tasks added.
module Processes {
  import opened Wrappers
  import opened DateTime
  import opened TaskStore
  import opened Scheduling

  // One call of add_task in a process run.
  datatype Request = Request(id: TaskId, owner: string, expiry: Ticks, policy: Execution)

  // What one call leaves: the records, the ids that are active, what it wrote, what it activated.
  datatype Served = Served(
    tasks: seq<TaskEntity>, active: set<TaskId>, written: seq<seq<TaskEntity>>, activated: seq<TaskInfo>)

  function Serve(tasks: seq<TaskEntity>, active: set<TaskId>, q: Request): Served {
    var p := Adding(q.id in active, tasks, q.id, q.owner, q.expiry, q.policy);
    if p.ok then Served(p.tasks, active + {q.id}, p.written, [TaskInfo(q.id, q.owner, p.expiry)])
    else Served(p.tasks, active, p.written, [])
  }

  // What a process run does to the file, write by write, starting from these records; `active`
  // are the ids already added. A request that throws leaves the later ones to be made or not.
  function Writes(tasks: seq<TaskEntity>, active: set<TaskId>, requests: seq<Request>): (w: seq<seq<TaskEntity>>)
    decreases |requests|
  {
    if requests == [] then [] else
    var o := Serve(tasks, active, requests[0]);
    o.written + Writes(o.tasks, o.active, requests[1..])
  }

  // The tasks a run activates, in order.
  function Activated(tasks: seq<TaskEntity>, active: set<TaskId>, requests: seq<Request>): seq<TaskInfo>
    decreases |requests|
  {
    if requests == [] then [] else
    var o := Serve(tasks, active, requests[0]);
    o.activated + Activated(o.tasks, o.active, requests[1..])
  }

  // The expiries with which tasks of a given id are armed.
  function ArmedFor(infos: seq<TaskInfo>, id: TaskId): seq<Ticks> {
    if infos == [] then [] else (if infos[0].id == id then [infos[0].expiry] else []) + ArmedFor(infos[1..], id)
  }

  function Armed(tasks: seq<TaskEntity>, requests: seq<Request>, id: TaskId): seq<Ticks> {
    ArmedFor(Activated(tasks, {}, requests), id)
  }

  lemma ContentsJoin(v: seq<seq<TaskEntity>>, w: seq<seq<TaskEntity>>)
    ensures Contents(v + w) == Contents(v) + Contents(w)
  {
  }

  function Ids(infos: seq<TaskInfo>): set<TaskId> { set t | t in infos :: t.id }

  // The whole is this part and what is left.
  ghost predicate Follows<T>(whole: seq<T>, part: seq<T>, left: seq<T>) { whole == part + left }

  lemma ActiveIds(scheduler: Scheduler, id: TaskId)
    ensures id in Ids(Infos(scheduler.active)) <==> scheduler.IsActive(id)
  {
    var infos := Infos(scheduler.active);
    if scheduler.IsActive(id) {
      var i :| 0 <= i < |scheduler.active| && scheduler.active[i].id == id;
      assert infos[i] in infos;
    }
  }

  lemma FollowsOn<T>(whole: seq<T>, part: seq<T>, next: seq<T>, left: seq<T>)
    requires Follows(whole, part, next + left)
    ensures Follows(whole, part + next, left)
  {
    assert part + (next + left) == (part + next) + left;
  }

  lemma FollowsAll<T>(whole: seq<T>, part: seq<T>)
    requires Follows(whole, part, [])
    ensures whole == part
  {
    assert part + [] == part;
  }

  lemma ServeActive(tasks: seq<TaskEntity>, infos: seq<TaskInfo>, q: Request)
    ensures var o := Serve(tasks, Ids(infos), q);
      Ids(infos + o.activated) == o.active
  {
    var p := Adding(q.id in Ids(infos), tasks, q.id, q.owner, q.expiry, q.policy);
    IdsOfMore(infos, TaskInfo(q.id, q.owner, p.expiry));
    assert infos + [] == infos;
  }

  lemma IdsOfMore(infos: seq<TaskInfo>, t: TaskInfo)
    ensures Ids(infos + [t]) == Ids(infos) + {t.id}
  {
    assert t in infos + [t];
  }

  lemma OneServed(tasks: seq<TaskEntity>, active: set<TaskId>, requests: seq<Request>, i: nat)
    requires i < |requests|
    ensures var o := Serve(tasks, active, requests[i]);
      && Writes(tasks, active, requests[i..]) == o.written + Writes(o.tasks, o.active, requests[i + 1..])
      && Activated(tasks, active, requests[i..]) == o.activated + Activated(o.tasks, o.active, requests[i + 1..])
  {
    assert requests[i..][1..] == requests[i + 1..] && requests[i..][0] == requests[i];
  }

  // How far a run has come after i requests.
  ghost predicate Progress(
    found: seq<TaskEntity>, requests: seq<Request>, i: nat, tasks: seq<TaskEntity>,
    w: seq<seq<TaskEntity>>, infos: seq<TaskInfo>)
    requires i <= |requests|
  {
    && Follows(Writes(found, {}, requests), w, Writes(tasks, Ids(infos), requests[i..]))
    && Follows(Activated(found, {}, requests), infos, Activated(tasks, Ids(infos), requests[i..]))
  }

  lemma ProgressStart(found: seq<TaskEntity>, requests: seq<Request>)
    ensures Progress(found, requests, 0, found, [], [])
  {
    assert requests[0..] == requests && Ids([]) == {};
  }

  lemma ProgressStep(
    found: seq<TaskEntity>, requests: seq<Request>, i: nat, tasks: seq<TaskEntity>,
    w: seq<seq<TaskEntity>>, infos: seq<TaskInfo>)
    requires i < |requests| && Progress(found, requests, i, tasks, w, infos)
    ensures var o := Serve(tasks, Ids(infos), requests[i]);
      Progress(found, requests, i + 1, o.tasks, w + o.written, infos + o.activated)
  {
    var o, rest := Serve(tasks, Ids(infos), requests[i]), requests[i + 1..];
    ServeActive(tasks, infos, requests[i]);
    OneServed(tasks, Ids(infos), requests, i);
    FollowsOn(Writes(found, {}, requests), w, o.written, Writes(o.tasks, o.active, rest));
    FollowsOn(Activated(found, {}, requests), infos, o.activated, Activated(o.tasks, o.active, rest));
  }

  lemma ProgressEnd(
    found: seq<TaskEntity>, requests: seq<Request>, tasks: seq<TaskEntity>,
    w: seq<seq<TaskEntity>>, infos: seq<TaskInfo>)
    requires Progress(found, requests, |requests|, tasks, w, infos)
    ensures w == Writes(found, {}, requests) && infos == Activated(found, {}, requests)
  {
    FollowsAll(Writes(found, {}, requests), w);
    FollowsAll(Activated(found, {}, requests), infos);
  }

  ghost function Plan(scheduler: Scheduler, q: Request): Processed
    reads scheduler, scheduler.store
  {
    Adding(scheduler.IsActive(q.id), scheduler.store.cached, q.id, q.owner, q.expiry, q.policy)
  }

  // One request: a new task is built and added.
  method AddRequest(scheduler: Scheduler, q: Request, ghost p: Processed)
    requires scheduler.store.Valid()
    requires p == Plan(scheduler, q)
    modifies scheduler, scheduler.store, scheduler.store.file
    ensures scheduler.store.Valid() && scheduler.store.cached == p.tasks
    ensures scheduler.store.file.written == old(scheduler.store.file.written) + Contents(p.written)
    ensures Infos(scheduler.active) ==
      old(Infos(scheduler.active)) + if p.ok then [TaskInfo(q.id, q.owner, p.expiry)] else []
  {
    var task := new Task(q.id, q.owner, q.expiry);
    ghost var active, infos := scheduler.active, Infos(scheduler.active);
    var added := scheduler.AddTask(task, q.policy);
    assert Infos(active) == infos;
    if added {
      InfosOfMore(active, task);
    } else {
      assert active + [] == active && infos + [] == infos;
    }
  }

  lemma PlanIsServed(scheduler: Scheduler, q: Request)
    ensures var p, o := Plan(scheduler, q), Serve(scheduler.store.cached, Ids(Infos(scheduler.active)), q);
      && o.tasks == p.tasks && o.written == p.written
      && o.activated == if p.ok then [TaskInfo(q.id, q.owner, p.expiry)] else []
  {
    ActiveIds(scheduler, q.id);
  }

  // All requests on a new scheduler.
  method AddAll(scheduler: Scheduler, requests: seq<Request>)
    requires scheduler.store.Valid() && scheduler.active == []
    modifies scheduler, scheduler.store, scheduler.store.file
    ensures scheduler.store.Valid()
    ensures scheduler.store.file.written ==
      old(scheduler.store.file.written) + Contents(Writes(old(scheduler.store.cached), {}, requests))
    ensures Infos(scheduler.active) == Activated(old(scheduler.store.cached), {}, requests)
  {
    ghost var found, before := scheduler.store.cached, scheduler.store.file.written;
    ghost var w: seq<seq<TaskEntity>> := [];
    ProgressStart(found, requests);
    for i := 0 to |requests|
      invariant scheduler.store.Valid()
      invariant Written(scheduler.store.file, before, w)
      invariant Progress(found, requests, i, scheduler.store.cached, w, Infos(scheduler.active))
    {
      w := AddNext(scheduler, found, requests, i, before, w);
    }
    ProgressEnd(found, requests, scheduler.store.cached, w, Infos(scheduler.active));
  }

  ghost predicate Written(file: File, before: seq<Content>, w: seq<seq<TaskEntity>>)
    reads file
  {
    file.written == before + Contents(w)
  }

  lemma WrittenMore(written: seq<Content>, before: seq<Content>, w: seq<seq<TaskEntity>>, v: seq<seq<TaskEntity>>)
    requires written == before + Contents(w)
    ensures written + Contents(v) == before + Contents(w + v)
  {
    ContentsJoin(w, v);
    assert before + (Contents(w) + Contents(v)) == (before + Contents(w)) + Contents(v);
  }

  method AddNext(
    scheduler: Scheduler, ghost found: seq<TaskEntity>, requests: seq<Request>, i: nat,
    ghost before: seq<Content>, ghost w: seq<seq<TaskEntity>>)
    returns (ghost v: seq<seq<TaskEntity>>)
    requires scheduler.store.Valid() && i < |requests| && Written(scheduler.store.file, before, w)
    requires Progress(found, requests, i, scheduler.store.cached, w, Infos(scheduler.active))
    modifies scheduler, scheduler.store, scheduler.store.file
    ensures scheduler.store.Valid() && Written(scheduler.store.file, before, v)
    ensures Progress(found, requests, i + 1, scheduler.store.cached, v, Infos(scheduler.active))
  {
    ghost var p := Plan(scheduler, requests[i]);
    PlanIsServed(scheduler, requests[i]);
    ProgressStep(found, requests, i, scheduler.store.cached, w, Infos(scheduler.active));
    WrittenMore(scheduler.store.file.written, before, w, p.written);
    AddRequest(scheduler, requests[i], p);
    v := w + p.written;
  }

  // A process run on a file: the store is opened, which throws on a file it cannot read, and the
  // requests are served one by one. What ends up on the file and in the list of active tasks is
  // what Writes and Activated say of the records found.
  method Run(file: File, requests: seq<Request>) returns (ok: bool, scheduler: Scheduler)
    modifies file
    ensures ok <==> old(file.content).Absent? || Parse(old(file.content)).Some?
    ensures ok ==>
      var found := if old(file.content).Absent? then [] else Parse(old(file.content)).value;
      && file.written == old(file.written) + (if old(file.content).Absent? then [Serialize([])] else [])
                         + Contents(Writes(found, {}, requests))
      && Infos(scheduler.active) == Activated(found, {}, requests)
      && scheduler.store.file == file && scheduler.store.Valid()
  {
    var store;
    store, ok := FileTaskStore.Open(file);
    scheduler := new Scheduler(store);
    if ok { AddAll(scheduler, requests); }
  }
}
