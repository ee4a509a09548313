// Strict tasks across any number of process runs, each of which may be cut short.
module RestartProps {
  import opened Wrappers
  import opened DateTime
  import opened TaskStore
  import opened Scheduling
  import opened Processes
  import Timers

  // The file after a run has been cut short behind its n-th write.
  function Cut(tasks: seq<TaskEntity>, w: seq<seq<TaskEntity>>, n: nat): seq<TaskEntity>
    requires n <= |w|
  {
    if n == 0 then tasks else w[n - 1]
  }

  ghost predicate Holds(tasks: seq<TaskEntity>, id: TaskId, stamp: int) {
    Find(tasks, id).Some? && Find(tasks, id).value.timestamp == stamp
  }

  // ---- One strict add ----

  // What one strict add does to the record of any id: its own is missing behind the first of two
  // writes and has its old timestamp behind the second, and those of other ids are not touched.
  lemma StrictAddKeeps(tasks: seq<TaskEntity>, q: Request, id: TaskId, stamp: int)
    requires UniqueIds(tasks) && Holds(tasks, id, stamp) && InRange(stamp)
    ensures var p := ProcessStrict(tasks, q.id, q.owner, q.expiry);
      && p.ok && UniqueIds(p.tasks) && Holds(p.tasks, id, stamp)
      && p.written != [] && p.tasks == p.written[|p.written| - 1]
      && (q.id != id ==> forall i :: 0 <= i < |p.written| ==> Find(p.written[i], id) == Find(tasks, id))
      && (q.id == id ==> |p.written| == 2 && Find(p.written[0], id).None? && p.expiry == FromTimestamp(stamp))
  {
    if Find(tasks, q.id).Some? {
      var saved := Find(tasks, q.id).value;
      var removed := Without(tasks, q.id);
      FindWithout(tasks, q.id, q.id);
      FindWithout(tasks, q.id, id);
      var e := Record(q.id, q.owner, FromTimestamp(saved.timestamp));
      AddRefinesMap(removed, e);
      FindAppended(removed, e, id);
      if q.id == id { RestoreAndSave(stamp); }
    } else {
      var e := Record(q.id, q.owner, q.expiry);
      AddRefinesMap(tasks, e);
      FindAppended(tasks, e, id);
    }
  }

  // The first strict add of an id saves its expiry to the millisecond.
  lemma FirstAddSaves(tasks: seq<TaskEntity>, q: Request)
    requires UniqueIds(tasks) && Find(tasks, q.id).None?
    ensures var p := ProcessStrict(tasks, q.id, q.owner, q.expiry);
      && p.ok && p.expiry == q.expiry && UniqueIds(p.tasks) && InRange(ToTimestamp(q.expiry))
      && Find(p.tasks, q.id) == Some(TaskEntity(q.id, q.owner, ToTimestamp(q.expiry)))
  {
    var e := Record(q.id, q.owner, q.expiry);
    AddRefinesMap(tasks, e);
    FindAppended(tasks, e, q.id);
    SaveAndRestore(q.expiry);
  }

  // ---- One run, cut anywhere ----

  function First(requests: seq<Request>, id: TaskId): Option<Request> {
    if requests == [] then None
    else if requests[0].id == id then Some(requests[0])
    else First(requests[1..], id)
  }

  function Later(k: nat, removal: Option<nat>): Option<nat> {
    if removal.None? then None else Some(k + removal.value)
  }

  // The number of the write that removes the record of this id, if the run has one.
  function RemovalAt(tasks: seq<TaskEntity>, active: set<TaskId>, requests: seq<Request>, id: TaskId): Option<nat>
    decreases |requests|
  {
    if requests == [] || id in active then None else
    var q, o := requests[0], Serve(tasks, active, requests[0]);
    if q.id == id && q.policy.Strict? && Find(tasks, id).Some? then Some(1) else
    Later(|o.written|, RemovalAt(o.tasks, o.active, requests[1..], id))
  }

  lemma CutJoin(tasks: seq<TaskEntity>, v: seq<seq<TaskEntity>>, w: seq<seq<TaskEntity>>, n: nat)
    requires v != [] && n <= |v + w|
    ensures Cut(tasks, v + w, n) == if n <= |v| then Cut(tasks, v, n) else Cut(v[|v| - 1], w, n - |v|)
  {
  }

  // The state of the record behind the n-th write, given the number of the write that removes it.
  ghost predicate CutIs(cut: seq<TaskEntity>, removal: Option<nat>, n: nat, id: TaskId, stamp: int) {
    if removal == Some(n) then Find(cut, id).None? else Holds(cut, id, stamp)
  }

  // A strict add of the task itself, and whatever the run writes then.
  lemma OwnCut(tasks: seq<TaskEntity>, v: seq<seq<TaskEntity>>, w: seq<seq<TaskEntity>>, n: nat, id: TaskId, stamp: int)
    requires Holds(tasks, id, stamp) && |v| == 2 && Find(v[0], id).None? && Holds(v[1], id, stamp)
    requires n <= |v + w| && (2 < n ==> Holds(Cut(v[1], w, n - 2), id, stamp))
    ensures CutIs(Cut(tasks, v + w, n), Some(1), n, id, stamp)
  {
    CutJoin(tasks, v, w, n);
  }

  // An add that leaves the record alone, and whatever the run writes then.
  lemma OtherCut(
    tasks: seq<TaskEntity>, v: seq<seq<TaskEntity>>, w: seq<seq<TaskEntity>>, removal: Option<nat>,
    n: nat, id: TaskId, stamp: int)
    requires Holds(tasks, id, stamp) && v != [] && forall i :: 0 <= i < |v| ==> Holds(v[i], id, stamp)
    requires n <= |v + w| && (removal.Some? ==> 1 <= removal.value)
    requires |v| < n ==> CutIs(Cut(v[|v| - 1], w, n - |v|), removal, n - |v|, id, stamp)
    ensures CutIs(Cut(tasks, v + w, n), Later(|v|, removal), n, id, stamp)
  {
    CutJoin(tasks, v, w, n);
  }

  // The call is the first for this id, and strict: it rewrites the record.
  predicate Rewrites(active: set<TaskId>, q: Request, id: TaskId) {
    q.id == id && id !in active && q.policy.Strict?
  }

  // What one call writes, seen from the record of a saved task.
  ghost predicate OneCall(tasks: seq<TaskEntity>, o: Served, own: bool, id: TaskId, stamp: int) {
    var v := o.written;
    && Holds(tasks, id, stamp) && Holds(o.tasks, id, stamp) && UniqueIds(o.tasks)
    && o.tasks == (if v == [] then tasks else v[|v| - 1])
    && (if own then |v| == 2 && Find(v[0], id).None? else forall i :: 0 <= i < |v| ==> Holds(v[i], id, stamp))
  }

  lemma ServeKeeps(tasks: seq<TaskEntity>, active: set<TaskId>, q: Request, id: TaskId, stamp: int)
    requires UniqueIds(tasks) && Holds(tasks, id, stamp) && InRange(stamp)
    ensures OneCall(tasks, Serve(tasks, active, q), Rewrites(active, q, id), id, stamp)
  {
    if q.id !in active && q.policy.Strict? { StrictAddKeeps(tasks, q, id, stamp); }
  }

  // The number of the removing write, one call on.
  ghost predicate OneCallLater(removal: Option<nat>, o: Served, own: bool, rest: Option<nat>) {
    if own then removal == Some(1) && rest.None? else removal == Later(|o.written|, rest)
  }

  lemma RemovalStep(tasks: seq<TaskEntity>, active: set<TaskId>, requests: seq<Request>, id: TaskId, stamp: int)
    requires requests != [] && UniqueIds(tasks) && Holds(tasks, id, stamp) && InRange(stamp)
    ensures var o := Serve(tasks, active, requests[0]);
      OneCallLater(RemovalAt(tasks, active, requests, id), o, Rewrites(active, requests[0], id),
                   RemovalAt(o.tasks, o.active, requests[1..], id))
  {
    var q := requests[0];
    if q.id == id && q.policy.Strict? && id !in active { StrictAddKeeps(tasks, q, id, stamp); }
  }

  // Behind the n-th of these writes the record is there, or n is the removing write.
  ghost predicate Kept(
    tasks: seq<TaskEntity>, w: seq<seq<TaskEntity>>, removal: Option<nat>, n: nat, id: TaskId, stamp: int)
  {
    n <= |w| && CutIs(Cut(tasks, w, n), removal, n, id, stamp) && (removal.Some? ==> 1 <= removal.value < |w|)
  }

  lemma StepCut(
    tasks: seq<TaskEntity>, o: Served, w: seq<seq<TaskEntity>>, own: bool,
    removal: Option<nat>, rest: Option<nat>, n: nat, id: TaskId, stamp: int)
    requires OneCall(tasks, o, own, id, stamp) && OneCallLater(removal, o, own, rest) && n <= |o.written + w|
    requires Kept(o.tasks, w, rest, if n <= |o.written| then 0 else n - |o.written|, id, stamp)
    ensures Kept(tasks, o.written + w, removal, n, id, stamp)
  {
    if o.written == [] {
      assert o.written + w == w;
    } else if own {
      OwnCut(tasks, o.written, w, n, id, stamp);
    } else {
      OtherCut(tasks, o.written, w, rest, n, id, stamp);
    }
  }

  // Behind every write of a run a saved record has its timestamp, except that it is missing
  // behind the one write that removes it, which is never the last.
  lemma {:induction false} CutKeeps(
    tasks: seq<TaskEntity>, active: set<TaskId>, requests: seq<Request>, id: TaskId, stamp: int, n: nat)
    requires UniqueIds(tasks) && Holds(tasks, id, stamp) && InRange(stamp)
    requires n <= |Writes(tasks, active, requests)|
    ensures Kept(tasks, Writes(tasks, active, requests), RemovalAt(tasks, active, requests, id), n, id, stamp)
    decreases |requests|
  {
    if requests != [] {
      var o := Serve(tasks, active, requests[0]);
      var w, rest := Writes(o.tasks, o.active, requests[1..]), RemovalAt(o.tasks, o.active, requests[1..], id);
      ServeKeeps(tasks, active, requests[0], id, stamp);
      RemovalStep(tasks, active, requests, id, stamp);
      CutKeeps(o.tasks, o.active, requests[1..], id, stamp, if n <= |o.written| then 0 else n - |o.written|);
      var removal := RemovalAt(tasks, active, requests, id);
      StepCut(tasks, o, w, Rewrites(active, requests[0], id), removal, rest, n, id, stamp);
    }
  }

  ghost predicate AllUnique(w: seq<seq<TaskEntity>>) { forall i :: 0 <= i < |w| ==> UniqueIds(w[i]) }

  lemma StrictAddUnique(tasks: seq<TaskEntity>, q: Request)
    requires UniqueIds(tasks)
    ensures var p := ProcessStrict(tasks, q.id, q.owner, q.expiry);
      p.ok && UniqueIds(p.tasks) && AllUnique(p.written)
  {
    if Find(tasks, q.id).Some? {
      var removed := Without(tasks, q.id);
      var e := Record(q.id, q.owner, FromTimestamp(Find(tasks, q.id).value.timestamp));
      FindWithout(tasks, q.id, q.id);
      AddRefinesMap(removed, e);
      assert AllUnique([removed, removed + [e]]);
    } else {
      var e := Record(q.id, q.owner, q.expiry);
      AddRefinesMap(tasks, e);
      assert AllUnique([tasks + [e]]);
    }
  }

  lemma {:induction false} WritesUnique(tasks: seq<TaskEntity>, active: set<TaskId>, requests: seq<Request>)
    requires UniqueIds(tasks)
    ensures AllUnique(Writes(tasks, active, requests))
    decreases |requests|
  {
    if requests != [] {
      StrictAddUnique(tasks, requests[0]);
      var o := Serve(tasks, active, requests[0]);
      assert UniqueIds(o.tasks) && AllUnique(o.written);
      WritesUnique(o.tasks, o.active, requests[1..]);
    }
  }

  // ---- What the next run arms a task with ----

  lemma {:induction false} ArmedJoin(a: seq<TaskInfo>, b: seq<TaskInfo>, id: TaskId)
    ensures ArmedFor(a + b, id) == ArmedFor(a, id) + ArmedFor(b, id)
  {
    if a == [] {
      assert a + b == b;
    } else {
      var c, rest := a + b, a[1..] + b;
      assert c[0] == a[0] && c[1..] == rest;
      ArmedJoin(a[1..], b, id);
      var first: seq<Ticks> := if a[0].id == id then [a[0].expiry] else [];
      Regroup(first, ArmedFor(a[1..], id), ArmedFor(b, id));
      assert ArmedFor(c, id) == first + ArmedFor(rest, id);
    }
  }

  lemma {:induction false} NotArmedAgain(
    tasks: seq<TaskEntity>, active: set<TaskId>, requests: seq<Request>, id: TaskId)
    requires id in active
    ensures ArmedFor(Activated(tasks, active, requests), id) == []
    decreases |requests|
  {
    if requests != [] {
      var o := Serve(tasks, active, requests[0]);
      NotArmedAgain(o.tasks, o.active, requests[1..], id);
      ArmedJoin(o.activated, Activated(o.tasks, o.active, requests[1..]), id);
    }
  }

  lemma ServeArms(tasks: seq<TaskEntity>, active: set<TaskId>, q: Request, id: TaskId)
    requires id !in active
    ensures var o, p := Serve(tasks, active, q), Adding(false, tasks, q.id, q.owner, q.expiry, q.policy);
      && (q.id != id ==> ArmedFor(o.activated, id) == [] && id !in o.active)
      && (q.id == id && p.ok ==> ArmedFor(o.activated, id) == [p.expiry] && id in o.active)
  {
    var t := TaskInfo(q.id, q.owner, Adding(q.id in active, tasks, q.id, q.owner, q.expiry, q.policy).expiry);
    assert [t][1..] == [] && ArmedFor([t], q.id) == [t.expiry] + [] == [t.expiry];
    assert q.id != id ==> ArmedFor([t], id) == [] + [] == [];
  }

  // A run arms a task once, when its first request comes: with the saved expiry if that request
  // is strict and there is a record, and in every other case with the expiry the task came with.
  lemma {:induction false} RunArms(tasks: seq<TaskEntity>, active: set<TaskId>, requests: seq<Request>, id: TaskId)
    requires UniqueIds(tasks) && id !in active
    ensures ArmedFor(Activated(tasks, active, requests), id) ==
      match First(requests, id)
      case None => []
      case Some(q) =>
        [if q.policy.Strict? && Find(tasks, id).Some? then FromTimestamp(Find(tasks, id).value.timestamp) else q.expiry]
    decreases |requests|
  {
    if requests != [] {
      var q, o, rest := requests[0], Serve(tasks, active, requests[0]), requests[1..];
      ArmedJoin(o.activated, Activated(o.tasks, o.active, rest), id);
      ServeArms(tasks, active, q, id);
      if q.id == id {
        if q.policy.Strict? { OwnRecord(tasks, q); }
        NotArmedAgain(o.tasks, o.active, rest, id);
      } else {
        ServeSpares(tasks, active, q, id);
        RunArms(o.tasks, o.active, rest, id);
      }
    }
  }

  // A strict add of a task, with or without a record, leaves one with its owner and its expiry.
  lemma OwnRecord(tasks: seq<TaskEntity>, q: Request)
    requires UniqueIds(tasks)
    ensures var p, saved := ProcessStrict(tasks, q.id, q.owner, q.expiry), Find(tasks, q.id);
      && p.ok && UniqueIds(p.tasks)
      && p.expiry == (if saved.Some? then FromTimestamp(saved.value.timestamp) else q.expiry)
      && Find(p.tasks, q.id) == Some(TaskEntity(q.id, q.owner, ToTimestamp(p.expiry)))
  {
    StrictAddUnique(tasks, q);
    var saved := Find(tasks, q.id);
    if saved.Some? {
      var removed := Without(tasks, q.id);
      FindWithout(tasks, q.id, q.id);
      FindAppended(removed, Record(q.id, q.owner, FromTimestamp(saved.value.timestamp)), q.id);
    } else {
      FindAppended(tasks, Record(q.id, q.owner, q.expiry), q.id);
    }
  }

  // The records at the end of a run.
  function AfterRun(tasks: seq<TaskEntity>, active: set<TaskId>, requests: seq<Request>): seq<TaskEntity>
    decreases |requests|
  {
    if requests == [] then tasks else
    var o := Serve(tasks, active, requests[0]);
    AfterRun(o.tasks, o.active, requests[1..])
  }

  // No request of the run gets as far as the store for this id.
  predicate NoStrict(active: set<TaskId>, requests: seq<Request>, id: TaskId) {
    id in active || First(requests, id).None? || First(requests, id).value.policy.Relaxed?
  }

  // A run leaves the record of an id as it was, unless its first request is strict: then with the
  // owner of that request and the expiry with which the task is armed.
  lemma {:induction false} RunLeaves(tasks: seq<TaskEntity>, active: set<TaskId>, requests: seq<Request>, id: TaskId)
    requires UniqueIds(tasks)
    ensures Find(AfterRun(tasks, active, requests), id) ==
      if NoStrict(active, requests, id) then Find(tasks, id)
      else
        var q, saved := First(requests, id).value, Find(tasks, id);
        Some(TaskEntity(id, q.owner,
               ToTimestamp(if saved.Some? then FromTimestamp(saved.value.timestamp) else q.expiry)))
    decreases |requests|
  {
    if requests != [] {
      var q, o, rest := requests[0], Serve(tasks, active, requests[0]), requests[1..];
      if q.id != id {
        ServeSpares(tasks, active, q, id);
      } else if id !in active && q.policy.Strict? {
        OwnRecord(tasks, q);
      }
      RunLeaves(o.tasks, o.active, rest, id);
    }
  }

  // The last write of a run leaves what the run leaves.
  lemma {:induction false} LastWrite(tasks: seq<TaskEntity>, active: set<TaskId>, requests: seq<Request>)
    requires UniqueIds(tasks)
    ensures var w := Writes(tasks, active, requests);
      Cut(tasks, w, |w|) == AfterRun(tasks, active, requests)
    decreases |requests|
  {
    if requests != [] {
      var o := Serve(tasks, active, requests[0]);
      ServeLeaves(tasks, active, requests[0]);
      LastWrite(o.tasks, o.active, requests[1..]);
      CutAll(tasks, o, Writes(o.tasks, o.active, requests[1..]));
    }
  }

  lemma ServeLeaves(tasks: seq<TaskEntity>, active: set<TaskId>, q: Request)
    requires UniqueIds(tasks)
    ensures var o := Serve(tasks, active, q);
      UniqueIds(o.tasks) && o.tasks == (if o.written == [] then tasks else o.written[|o.written| - 1])
  {
    StrictAddUnique(tasks, q);
  }

  lemma CutAll(tasks: seq<TaskEntity>, o: Served, w: seq<seq<TaskEntity>>)
    requires o.tasks == (if o.written == [] then tasks else o.written[|o.written| - 1])
    ensures Cut(tasks, o.written + w, |o.written + w|) == Cut(o.tasks, w, |w|)
  {
    if o.written == [] { assert o.written + w == w; }
  }

  lemma ServeSpares(tasks: seq<TaskEntity>, active: set<TaskId>, q: Request, other: TaskId)
    requires UniqueIds(tasks) && q.id != other
    ensures var o := Serve(tasks, active, q);
      && UniqueIds(o.tasks) && Find(o.tasks, other) == Find(tasks, other)
      && (other in o.active <==> other in active)
  {
    StrictAddSpares(tasks, q, other);
  }

  // ---- Any number of runs ----

  // A run of a process, and how many of its writes reached the file.
  datatype Session = Session(requests: seq<Request>, reached: nat)

  function Reached(s: Session, w: seq<seq<TaskEntity>>): (n: nat)
    ensures n <= |w|
  {
    if s.reached < |w| then s.reached else |w|
  }

  function AfterSession(tasks: seq<TaskEntity>, s: Session): seq<TaskEntity> {
    var w := Writes(tasks, {}, s.requests);
    Cut(tasks, w, Reached(s, w))
  }

  // The file behind the n-th of these writes.
  function LeftBehind(content: Content, w: seq<seq<TaskEntity>>, n: nat): Content
    requires n <= |w|
  {
    if n == 0 then content else Contents(w)[n - 1]
  }

  // A process that opens the file a session has left behind finds these records.
  lemma NextProcessFinds(content: Content, tasks: seq<TaskEntity>, s: Session)
    requires Parse(content) == Some(tasks)
    ensures var w := Writes(tasks, {}, s.requests);
      Parse(LeftBehind(content, w, Reached(s, w))) == Some(AfterSession(tasks, s))
  {
    var w := Writes(tasks, {}, s.requests);
    FileAfter(content, tasks, w, Reached(s, w));
  }

  lemma FileAfter(content: Content, tasks: seq<TaskEntity>, w: seq<seq<TaskEntity>>, n: nat)
    requires n <= |w| && Parse(content) == Some(tasks)
    ensures Parse(LeftBehind(content, w, n)) == Some(Cut(tasks, w, n))
  {
    if n > 0 {
      ContentsAt(w, n - 1);
      ParseSerialize(w[n - 1]);
    }
  }

  lemma ContentsAt(w: seq<seq<TaskEntity>>, i: nat)
    requires i < |w|
    ensures Contents(w)[i] == Serialize(w[i])
  {
  }

  // The last write of the session that reached the file is the one that removes the record.
  predicate InWindow(tasks: seq<TaskEntity>, s: Session, id: TaskId) {
    RemovalAt(tasks, {}, s.requests, id) == Some(s.reached)
  }

  // What Kept says about a session, whatever its writes are.
  lemma KeptMeans(
    tasks: seq<TaskEntity>, w: seq<seq<TaskEntity>>, removal: Option<nat>, s: Session, id: TaskId, stamp: int)
    requires Kept(tasks, w, removal, Reached(s, w), id, stamp)
    ensures var cut := Cut(tasks, w, Reached(s, w));
      if removal == Some(s.reached) then Find(cut, id).None? else Holds(cut, id, stamp)
  {
  }

  lemma SessionKeeps(tasks: seq<TaskEntity>, s: Session, id: TaskId, stamp: int)
    requires UniqueIds(tasks) && Holds(tasks, id, stamp) && InRange(stamp)
    ensures var cut := AfterSession(tasks, s);
      if InWindow(tasks, s, id) then Find(cut, id).None? else Holds(cut, id, stamp)
    ensures UniqueIds(AfterSession(tasks, s))
  {
    var w := Writes(tasks, {}, s.requests);
    CutKeeps(tasks, {}, s.requests, id, stamp, Reached(s, w));
    KeptMeans(tasks, w, RemovalAt(tasks, {}, s.requests, id), s, id, stamp);
    WritesUnique(tasks, {}, s.requests);
  }

  // The record is missing after a session exactly when it was cut at that write; one write more
  // or less and it is there.
  lemma WindowIsOneWrite(tasks: seq<TaskEntity>, s: Session, id: TaskId, stamp: int)
    requires UniqueIds(tasks) && Holds(tasks, id, stamp) && InRange(stamp)
    ensures Find(AfterSession(tasks, s), id).None? <==> InWindow(tasks, s, id)
    ensures !InWindow(tasks, s, id) ==> Holds(AfterSession(tasks, s), id, stamp)
    ensures InWindow(tasks, s, id) ==>
      && Holds(AfterSession(tasks, s.(reached := s.reached + 1)), id, stamp)
      && s.reached > 0 && Holds(AfterSession(tasks, s.(reached := s.reached - 1)), id, stamp)
    ensures UniqueIds(AfterSession(tasks, s))
  {
    SessionKeeps(tasks, s, id, stamp);
    SessionKeeps(tasks, s.(reached := s.reached + 1), id, stamp);
    assert s.reached == 0 ==> AfterSession(tasks, s) == tasks;
    if s.reached > 0 { SessionKeeps(tasks, s.(reached := s.reached - 1), id, stamp); }
  }

  // A run of which every write reaches the file.
  function Uncut(tasks: seq<TaskEntity>, requests: seq<Request>): Session {
    Session(requests, |Writes(tasks, {}, requests)|)
  }

  // A session not cut short leaves the records of its run.
  lemma WholeSession(tasks: seq<TaskEntity>, s: Session)
    requires UniqueIds(tasks) && |Writes(tasks, {}, s.requests)| <= s.reached
    ensures AfterSession(tasks, s) == AfterRun(tasks, {}, s.requests)
  {
    LastWrite(tasks, {}, s.requests);
  }

  // A strict restart after any session: the saved expiry, unless the session was cut in the
  // window; then the new one. That expiry is what the file of the restart holds at its end, under
  // the owner of the restart.
  lemma RestartArms(tasks: seq<TaskEntity>, s: Session, next: seq<Request>, id: TaskId, stamp: int)
    requires UniqueIds(tasks) && Holds(tasks, id, stamp) && InRange(stamp)
    requires First(next, id).Some? && First(next, id).value.policy.Strict?
    ensures var cut, q := AfterSession(tasks, s), First(next, id).value;
      && Armed(cut, next, id) == [if InWindow(tasks, s, id) then q.expiry else FromTimestamp(stamp)]
      && Find(AfterSession(cut, Uncut(cut, next)), id) ==
           Some(TaskEntity(id, q.owner, if InWindow(tasks, s, id) then ToTimestamp(q.expiry) else stamp))
  {
    SessionKeeps(tasks, s, id, stamp);
    var cut := AfterSession(tasks, s);
    WholeSession(cut, Uncut(cut, next));
    RunArms(cut, {}, next, id);
    RunLeaves(cut, {}, next, id);
    RestoreAndSave(stamp);
  }

  // A run with a single strict request.
  lemma OneStrict(tasks: seq<TaskEntity>, q: Request)
    requires q.policy.Strict?
    ensures var p := ProcessStrict(tasks, q.id, q.owner, q.expiry);
      && Writes(tasks, {}, [q]) == p.written
      && (p.ok ==> Armed(tasks, [q], q.id) == [p.expiry])
  {
    assert [q][1..] == [];
    var o := Serve(tasks, {}, q);
    assert Writes(tasks, {}, [q]) == o.written + [] == o.written;
    assert Activated(tasks, {}, [q]) == o.activated + [] == o.activated;
    var t := TaskInfo(q.id, q.owner, ProcessStrict(tasks, q.id, q.owner, q.expiry).expiry);
    assert [t][1..] == [] && ArmedFor([t], q.id) == [t.expiry] + [] == [t.expiry];
  }

  // In the window the first expiry is lost: a task saved for the epoch, restarted and cut short
  // behind one write, is saved a day later by the next run.
  lemma WindowLoses(id: TaskId, owner: string)
    ensures var tasks := [TaskEntity(id, owner, 0)];
      var cut := AfterSession(tasks, Session([Request(id, owner, 0, Strict)], 1));
      var next := [Request(id, owner, NS_PER_DAY, Strict)];
      && cut == [] && Armed(cut, next, id) == [NS_PER_DAY]
      && Find(AfterSession(cut, Session(next, 1)), id) == Some(TaskEntity(id, owner, 86_400_000))
  {
    var tasks, next := [TaskEntity(id, owner, 0)], [Request(id, owner, NS_PER_DAY, Strict)];
    OneStrict(tasks, Request(id, owner, 0, Strict));
    var cut := AfterSession(tasks, Session([Request(id, owner, 0, Strict)], 1));
    assert cut == [];
    OneStrict(cut, next[0]);
    var after := AfterSession(cut, Session(next, 1));
    assert after == [] + [Record(id, owner, NS_PER_DAY)] == [TaskEntity(id, owner, 86_400_000)];
    assert Find(after, id) == Some(after[0]);
  }

  // No session is cut in the window of this id.
  predicate Spared(tasks: seq<TaskEntity>, sessions: seq<Session>, id: TaskId)
    decreases |sessions|
  {
    sessions == [] ||
    (!InWindow(tasks, sessions[0], id) && Spared(AfterSession(tasks, sessions[0]), sessions[1..], id))
  }

  function AfterSessions(tasks: seq<TaskEntity>, sessions: seq<Session>): seq<TaskEntity>
    decreases |sessions|
  {
    if sessions == [] then tasks else AfterSessions(AfterSession(tasks, sessions[0]), sessions[1..])
  }

  // However often the process is restarted or cut short, outside that window, the timestamp
  // stays the one first saved, and a strict restart arms the task once, with it.
  lemma {:induction false} FirstExpirySurvives(
    tasks: seq<TaskEntity>, sessions: seq<Session>, next: seq<Request>, id: TaskId, stamp: int)
    requires UniqueIds(tasks) && Holds(tasks, id, stamp) && InRange(stamp)
    requires Spared(tasks, sessions, id)
    ensures UniqueIds(AfterSessions(tasks, sessions)) && Holds(AfterSessions(tasks, sessions), id, stamp)
    ensures Armed(AfterSessions(tasks, sessions), next, id) ==
      match First(next, id)
      case None => []
      case Some(q) => [if q.policy.Strict? then FromTimestamp(stamp) else q.expiry]
    decreases |sessions|
  {
    if sessions != [] {
      SessionKeeps(tasks, sessions[0], id, stamp);
      FirstExpirySurvives(AfterSession(tasks, sessions[0]), sessions[1..], next, id, stamp);
    } else {
      RunArms(tasks, {}, next, id);
    }
  }

  // ---- Records of other tasks ----

  ghost predicate Spares(w: seq<seq<TaskEntity>>, tasks: seq<TaskEntity>, other: TaskId) {
    forall i :: 0 <= i < |w| ==> UniqueIds(w[i]) && Find(w[i], other) == Find(tasks, other)
  }

  lemma SparesJoin(v: seq<seq<TaskEntity>>, w: seq<seq<TaskEntity>>, tasks: seq<TaskEntity>, other: TaskId)
    requires Spares(v, tasks, other) && Spares(w, tasks, other)
    ensures Spares(v + w, tasks, other)
  {
  }

  // Records of tasks that no request names, or none but as relaxed, are the same at every write,
  // windows included.
  lemma {:induction false} OthersUntouched(
    tasks: seq<TaskEntity>, active: set<TaskId>, requests: seq<Request>, other: TaskId)
    requires UniqueIds(tasks) && NoStrict(active, requests, other)
    ensures Spares(Writes(tasks, active, requests), tasks, other)
    decreases |requests|
  {
    if requests != [] {
      var o, rest := Serve(tasks, active, requests[0]), requests[1..];
      CallSpares(tasks, active, requests, other);
      OthersUntouched(o.tasks, o.active, rest, other);
      var w := Writes(o.tasks, o.active, rest);
      assert Spares(w, tasks, other);
      SparesJoin(o.written, w, tasks, other);
    }
  }

  lemma CallSpares(tasks: seq<TaskEntity>, active: set<TaskId>, requests: seq<Request>, other: TaskId)
    requires UniqueIds(tasks) && requests != [] && NoStrict(active, requests, other)
    ensures var o := Serve(tasks, active, requests[0]);
      && UniqueIds(o.tasks) && Find(o.tasks, other) == Find(tasks, other) && Spares(o.written, tasks, other)
      && NoStrict(o.active, requests[1..], other)
  {
    if requests[0].id != other { StrictAddSpares(tasks, requests[0], other); }
  }

  lemma StrictAddSpares(tasks: seq<TaskEntity>, q: Request, other: TaskId)
    requires UniqueIds(tasks) && q.id != other
    ensures var p := ProcessStrict(tasks, q.id, q.owner, q.expiry);
      p.ok && UniqueIds(p.tasks) && Find(p.tasks, other) == Find(tasks, other) && Spares(p.written, tasks, other)
  {
    if Find(tasks, q.id).Some? {
      var removed := Without(tasks, q.id);
      FindWithout(tasks, q.id, q.id);
      FindWithout(tasks, q.id, other);
      var e := Record(q.id, q.owner, FromTimestamp(Find(tasks, q.id).value.timestamp));
      AddRefinesMap(removed, e);
      FindAppended(removed, e, other);
    } else {
      var e := Record(q.id, q.owner, q.expiry);
      AddRefinesMap(tasks, e);
      FindAppended(tasks, e, other);
    }
  }

  // Since firing never updates the store, a daily task restarted at time t runs again for every
  // period since its first saved expiry e0: as often as if it had never run, give or take the
  // lost fraction of a millisecond.
  lemma RestartReplays(e0: Ticks, period: int, t: int)
    requires period > 0
    ensures Timers.RunsBy(e0, period, t - NS_PER_MS + 1)
         <= Timers.RunsBy(FromTimestamp(ToTimestamp(e0)), period, t)
         <= Timers.RunsBy(e0, period, t + NS_PER_MS - 1)
  {
    SaveAndRestore(e0);
    var restored := FromTimestamp(ToTimestamp(e0));
    RunsMonotone(e0, restored, period, t - NS_PER_MS + 1, t);
    RunsMonotone(restored, e0, period, t, t + NS_PER_MS - 1);
  }

  // The daily task itself: given the expiry saved for e0, as the scheduler does to a strict task it
  // restores, and its event loop run until t.
  method Replay(task: Timers.EverydayAtTask, e0: Ticks, t: int)
    requires task.Valid()
    modifies task
    ensures task.Valid() && t < task.expiry
    ensures Timers.RunsBy(e0, task.period, t - NS_PER_MS + 1) <= task.runs
         <= Timers.RunsBy(e0, task.period, t + NS_PER_MS - 1)
  {
    task.SetExpiry(FromTimestamp(ToTimestamp(e0)));
    task.Elapse(t);
    RestartReplays(e0, task.period, t);
  }

  lemma RunsMonotone(e: int, f: int, d: int, t: int, u: int)
    requires d > 0 && t - e <= u - f
    ensures Timers.RunsBy(e, d, t) <= Timers.RunsBy(f, d, u)
  {
    if e <= t {
      var p, q := (t - e) / d, (u - f) / d;
      assert d * p <= t - e && u - f < d * q + d;
      assert d * (q + 1) == d * q + d;
      if q < p {
        Timers.Scale(d, q + 1, p);
        assert false;
      }
    }
  }
}
