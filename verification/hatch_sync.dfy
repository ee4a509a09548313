// A hatch polled for changes, and its state topic.
module HatchSync {
  datatype HatchState = Undefined | Open | Closed | ChangingPosition | Faulty

  // The hash of an enumerator is its number.
  function Hash(s: HatchState): nat {
    match s
    case Undefined => 0
    case Open => 1
    case Closed => 2
    case ChangingPosition => 3
    case Faulty => 4
  }

  // Different states have different hashes, and a poller's first hash is that of Undefined.
  lemma HashTellsStatesApart(s: HatchState, t: HatchState)
    ensures Hash(s) == Hash(t) <==> s == t
    ensures Hash(s) == 0 <==> s == Undefined
  {
  }

  datatype Topic = Empty | Shows(text: string)

  // What a sync publishes: only an open or closed hatch has a state for its cover.
  function Synced(topic: Topic, s: HatchState): Topic {
    match s
    case Open => Shows("open")
    case Closed => Shows("closed")
    case _ => topic
  }

  class HatchPoller {
    var hash: nat
    var published: nat

    constructor ()
      ensures hash == 0 && published == 0
    {
      hash := 0;
      published := 0;
    }

    // One event exactly when the status read differs, by its hash, from the one before.
    method Poll(status: HatchState) returns (event: bool)
      modifies this
      ensures hash == Hash(status)
      ensures event <==> Hash(status) != old(hash)
      ensures published == old(published) + if event then 1 else 0
    {
      var current := Hash(status);
      event := current != hash;
      if event {
        hash := current;
        published := published + 1;
      }
    }
  }

  class HatchEventHandler {
    var hatches: seq<int>    // the hardware ids of the hatches it serves
    var topics: map<int, Topic>

    ghost predicate Valid()
      reads this
    {
      forall d :: d in hatches ==> d in topics
    }

    constructor ()
      ensures Valid() && hatches == [] && topics == map[]
    {
      hatches := [];
      topics := map[];
    }

    method Created(device: int, initialised: bool, status: HatchState)
      requires Valid()
      modifies this
      ensures Valid()
      ensures hatches == old(hatches) + if initialised then [device] else []
      ensures topics ==
        if initialised then old(topics)[device := Synced(TopicOf(old(topics), device), status)] else old(topics)
    {
      if !initialised { return; }
      hatches := hatches + [device];
      topics := topics[device := Synced(TopicOf(topics, device), status)];
    }

    // Every hatch of that id goes; false stands for the exception when there is none.
    method Removed(device: int) returns (ok: bool)
      requires Valid()
      modifies this
      ensures Valid() && topics == old(topics)
      ensures ok <==> device in old(hatches)
      ensures device !in hatches && forall d :: d != device ==> (d in hatches <==> d in old(hatches))
    {
      ghost var before := hatches;
      var kept := [];
      for i := 0 to |hatches|
        invariant hatches == before && topics == old(topics)
        invariant |kept| <= i && (|kept| == i <==> device !in hatches[..i])
        invariant forall d :: d in kept <==> d in hatches[..i] && d != device
      {
        assert hatches[..i + 1] == hatches[..i] + [hatches[i]];
        if hatches[i] != device { kept := kept + [hatches[i]]; }
      }
      assert hatches[..|hatches|] == hatches;
      ok := |kept| != |hatches|;
      hatches := kept;
    }

    method StateChanged(device: int, status: HatchState)
      requires Valid()
      modifies this`topics
      ensures Valid()
      ensures topics ==
        if device in hatches then old(topics)[device := Synced(old(topics)[device], status)] else old(topics)
    {
      var i := 0;
      while i < |hatches| && hatches[i] != device
        invariant i <= |hatches| && device !in hatches[..i]
      {
        i := i + 1;
      }
      if i == |hatches| { return; }
      assert hatches[i] in hatches;
      topics := topics[device := Synced(topics[device], status)];
    }
  }

  function TopicOf(topics: map<int, Topic>, device: int): Topic {
    if device in topics then topics[device] else Empty
  }

  // ---- Runs of polls, each event handled before the hatch moves again ----

  datatype Watch = Watch(hash: nat, topic: Topic, events: nat)

  function PollOnce(w: Watch, s: HatchState): Watch {
    if Hash(s) != w.hash then Watch(Hash(s), Synced(w.topic, s), w.events + 1) else w
  }

  function PollAll(w: Watch, polls: seq<HatchState>): Watch {
    if polls == [] then w else PollOnce(PollAll(w, polls[..|polls| - 1]), polls[|polls| - 1])
  }

  // The text for the last open or closed status polled, if there was one.
  function LastShown(topic: Topic, polls: seq<HatchState>): Topic {
    if polls == [] then topic else Synced(LastShown(topic, polls[..|polls| - 1]), polls[|polls| - 1])
  }

  // Changes of status along the polls, counting from the given status.
  function Changes(first: HatchState, polls: seq<HatchState>): nat {
    if polls == [] then 0
    else
      var before := polls[..|polls| - 1];
      Changes(first, before) + if polls[|polls| - 1] == Latest(first, before) then 0 else 1
  }

  function Latest(first: HatchState, polls: seq<HatchState>): HatchState {
    if polls == [] then first else polls[|polls| - 1]
  }

  // As many events as changes of status; the first hash stands for a status as well, that of a
  // new poller for Undefined.
  lemma {:induction false} OneEventPerChange(w: Watch, first: HatchState, polls: seq<HatchState>)
    requires w.hash == Hash(first)
    ensures PollAll(w, polls).hash == Hash(Latest(first, polls))
    ensures PollAll(w, polls).events == w.events + Changes(first, polls)
    decreases |polls|
  {
    if polls != [] {
      OneEventPerChange(w, first, polls[..|polls| - 1]);
      HashTellsStatesApart(polls[|polls| - 1], Latest(first, polls[..|polls| - 1]));
    }
  }

  // The topic is that of the hashed status, whenever that status has one.
  predicate Agrees(w: Watch) {
    (w.hash == Hash(Open) ==> w.topic == Shows("open")) && (w.hash == Hash(Closed) ==> w.topic == Shows("closed"))
  }

  lemma {:induction false} TopicFollows(w: Watch, polls: seq<HatchState>)
    requires Agrees(w)
    ensures Agrees(PollAll(w, polls)) && PollAll(w, polls).topic == LastShown(w.topic, polls)
    decreases |polls|
  {
    if polls != [] { TopicFollows(w, polls[..|polls| - 1]); }
  }

  // From the first event on, whatever was on the topic before, it shows the last open or closed
  // status polled; until then nothing is published.
  lemma TopicShowsLastStatus(w: Watch, quiet: seq<HatchState>, first: HatchState, later: seq<HatchState>)
    requires forall s :: s in quiet ==> Hash(s) == w.hash
    requires Hash(first) != w.hash
    ensures PollAll(w, quiet) == w
    ensures PollAll(PollOnce(w, first), later).topic == LastShown(Synced(w.topic, first), later)
  {
    NothingChanges(w, quiet);
    TopicFollows(PollOnce(w, first), later);
  }

  lemma {:induction false} NothingChanges(w: Watch, polls: seq<HatchState>)
    requires forall s :: s in polls ==> Hash(s) == w.hash
    ensures PollAll(w, polls) == w
    decreases |polls|
  {
    if polls != [] {
      NothingChanges(w, polls[..|polls| - 1]);
      assert polls[|polls| - 1] in polls;
    }
  }

  // The poller and the handler at work on one hatch, the handler serving each event before the
  // next poll. What they do to the hash, the topic and the number of events is PollAll.
  method Follow(poller: HatchPoller, handler: HatchEventHandler, device: int, polls: seq<HatchState>)
    requires handler.Valid() && device in handler.hatches
    modifies poller, handler`topics
    ensures handler.Valid()
    ensures Watch(poller.hash, handler.topics[device], poller.published)
         == PollAll(Watch(old(poller.hash), old(handler.topics[device]), old(poller.published)), polls)
    ensures forall first :: old(poller.hash) == Hash(first) ==>
      poller.published == old(poller.published) + Changes(first, polls)
    ensures forall d :: d != device ==> TopicOf(handler.topics, d) == TopicOf(old(handler.topics), d)
  {
    ghost var w := Watch(poller.hash, handler.topics[device], poller.published);
    for i := 0 to |polls|
      invariant handler.Valid()
      invariant Watch(poller.hash, handler.topics[device], poller.published) == PollAll(w, polls[..i])
      invariant forall d :: d != device ==> TopicOf(handler.topics, d) == TopicOf(old(handler.topics), d)
    {
      assert polls[..i + 1][..i] == polls[..i];
      var event := poller.Poll(polls[i]);
      if event { handler.StateChanged(device, polls[i]); }
    }
    assert polls[..|polls|] == polls;
    forall first | w.hash == Hash(first)
      ensures PollAll(w, polls).events == w.events + Changes(first, polls)
    {
      OneEventPerChange(w, first, polls);
    }
  }
}
