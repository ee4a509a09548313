// The packet stream seen through Entity::async_receive, and the bookkeeping of PUBACKs.
module EntityProps {
  import opened Wrappers
  import opened MqttWire
  import opened MqttError
  import opened EntitySpec
  import opened QuietProps
  import C = ClientSpec

  // ---- The packet stream ----

  // What a packet is to the caller of async_receive: at most one result.
  function Image(p: Packet): seq<Expected<Packet>> {
    match p
    case Message(_, _) => [Value(p)]
    case SubAck(_, granted) => if false in granted then [Unexpected(SUBSCRIPTION_FAILURE)] else []
    case Untyped => [Unexpected(UNKNOWN_PACKET)]
    case _ => []
  }

  function Images(ps: seq<Packet>): seq<Expected<Packet>> {
    if ps == [] then [] else Image(ps[0]) + Images(ps[1..])
  }

  // These packets arrive, and then the rest happens.
  function Arriving(ps: seq<Packet>, rest: Script): Script {
    if ps == [] then rest else Ev(Received(ps[0]), Arriving(ps[1..], rest))
  }

  function Stream(ps: seq<Packet>): Script { Arriving(ps, End) }

  // The results of calling async_receive again and again until it no longer returns.
  function ReceiveAll(s: EntityState, max: int): seq<Expected<Packet>>
    requires s.c.connected
    decreases s.c.script
  {
    var r := AsyncReceive(s, max);
    if r.flow.Done? && r.st.c.connected then [r.flow.value] + ReceiveAll(r.st, max) else []
  }

  // One PUBLISH in, one PUBLISH out, in order; failing SUBACKs and untyped packets give one
  // error each; every other packet passes unseen.
  lemma {:induction false} StreamImage(s: EntityState, max: int, ps: seq<Packet>)
    requires s.c.connected && s.c.script == Stream(ps)
    ensures ReceiveAll(s, max) == Images(ps)
    decreases |ps|
  {
    if ps != [] {
      var s1 := s.(c := s.c.Next().Note(Got(ps[0])));
      SkipOne(s, max, ps[0]);
      if ps[0].PubAck? {
        StreamImage(Settle(s1, ps[0].id), max, ps[1..]);
      } else {
        StreamImage(s1, max, ps[1..]);
      }
    }
  }

  lemma SkipOne(s: EntityState, max: int, p: Packet)
    requires s.c.connected && s.c.script.Ev? && s.c.script.head == Received(p)
    ensures var s1 := s.(c := s.c.Next().Note(Got(p)));
      AsyncReceive(s, max) ==
        if p.PubAck? then AsyncReceive(Settle(s1, p.id), max)
        else if Image(p) == [] then AsyncReceive(s1, max)
        else Step(Done(Image(p)[0]), s1)
  {
  }

  function Messages(ps: seq<Packet>): seq<Packet> {
    if ps == [] then [] else (if ps[0].Message? then [ps[0]] else []) + Messages(ps[1..])
  }

  function Values(rs: seq<Expected<Packet>>): seq<Packet> {
    if rs == [] then [] else (if rs[0].Value? then [rs[0].value] else []) + Values(rs[1..])
  }

  lemma {:induction false} ValuesOfImages(ps: seq<Packet>)
    ensures Values(Images(ps)) == Messages(ps)
  {
    if ps != [] {
      ValuesOfImages(ps[1..]);
      var rest := Images(ps[1..]);
      if Image(ps[0]) == [] {
        assert Images(ps) == rest;
      } else {
        ValuesOfMore(Image(ps[0])[0], rest);
        assert Images(ps) == [Image(ps[0])[0]] + rest;
      }
    }
  }

  lemma ValuesOfMore(r: Expected<Packet>, rs: seq<Expected<Packet>>)
    ensures Values([r] + rs) == (if r.Value? then [r.value] else []) + Values(rs)
  {
    assert ([r] + rs)[1..] == rs;
  }

  // No PUBLISH is lost, duplicated or reordered.
  lemma NoMessageLost(s: EntityState, max: int, ps: seq<Packet>)
    requires s.c.connected && s.c.script == Stream(ps)
    ensures Values(ReceiveAll(s, max)) == Messages(ps)
  {
    StreamImage(s, max, ps);
    ValuesOfImages(ps);
  }

  // ---- Commands ----

  // Packets of which the caller of async_receive sees nothing.
  predicate Unseen(ps: seq<Packet>) { ps == [] || (Image(ps[0]) == [] && Unseen(ps[1..])) }

  lemma {:induction false} UnseenPass(kind: Kind, s: EntityState, max: int, ps: seq<Packet>, rest: Script)
    returns (t: EntityState)
    requires s.c.connected && Unseen(ps) && s.c.script == Arriving(ps, rest)
    ensures t.c.connected && t.c.script == rest
    ensures AsyncReceiveCommand(kind, s, max) == AsyncReceiveCommand(kind, t, max)
    decreases |ps|
  {
    if ps == [] {
      t := s;
    } else {
      SkipOne(s, max, ps[0]);
      var s1 := s.(c := s.c.Next().Note(Got(ps[0])));
      t := UnseenPass(kind, if ps[0].PubAck? then Settle(s1, ps[0].id) else s1, max, ps[1..], rest);
    }
  }

  // What the next PUBLISH is read as, whatever unseen packets come before it.
  lemma CommandRead(kind: Kind, s: EntityState, max: int, before: seq<Packet>, topic: Topic, text: string, rest: Script)
    requires s.c.connected && Unseen(before)
    requires s.c.script == Arriving(before, Ev(Received(Message(topic, text)), rest))
    ensures var r := AsyncReceiveCommand(kind, s, max);
      && r.st.c.connected && r.st.c.script == rest
      && (kind.Cover? && topic == CommandTopic ==>
            && (text == "open" ==> r.flow == Done(Value(Open)))
            && (text == "close" ==> r.flow == Done(Value(Close)))
            && (text == "stop" ==> r.flow == Done(Value(Stop)))
            && (text != "open" && text != "close" && text != "stop" ==> r.flow == Thrown))
      && (kind.Cover? && topic != CommandTopic ==> r.flow == Done(Unexpected(UNKNOWN_PACKET)))
      && (kind.Button? ==> r.flow == Done(if text == "press" then Value(Press) else Unexpected(UNKNOWN_PACKET)))
      && (kind.Sensor? || kind.BinarySensor? ==> r.flow == Done(Unexpected(0)))
  {
    var t := UnseenPass(kind, s, max, before, Ev(Received(Message(topic, text)), rest));
    SkipOne(t, max, Message(topic, text));
  }

  // ---- Unacknowledged publishes ----

  predicate PublishedQos1(e: Entry) { e.Sent? && e.out.Publish? && e.out.qos > 0 }

  // Ids whose latest QoS 1 publish has no later PUBACK taken by async_receive.
  function Unsettled(log: Log): set<nat> {
    match log
    case Start => {}
    case Then(past, e) =>
      if PublishedQos1(e) then Unsettled(past) + {e.out.id}
      else if e.Taken? then Unsettled(past) - {e.id}
      else Unsettled(past)
  }

  // Ids whose latest QoS 1 publish has no later PUBACK at all.
  function Unacknowledged(log: Log): set<nat> {
    match log
    case Start => {}
    case Then(past, e) =>
      if PublishedQos1(e) then Unacknowledged(past) + {e.out.id}
      else if e.Got? && e.p.PubAck? then Unacknowledged(past) - {e.p.id}
      else Unacknowledged(past)
  }

  ghost predicate Ids(s: set<nat>) { forall id :: id in s ==> 1 <= id <= MAX_PACKET_ID }

  ghost predicate Tracks(s: EntityState) {
    && s.pending == Unsettled(s.c.log)
    && Unacknowledged(s.c.log) <= s.pending
    && Ids(s.pending)
  }

  lemma {:induction false} QuietKeeps(a: Log, b: Log)
    requires Quiet(a, b)
    ensures Unsettled(a) == Unsettled(b) && Unacknowledged(b) <= Unacknowledged(a)
  {
    if a != b { QuietKeeps(a, b.past); }
  }

  lemma ConnectTracks(s: EntityState, max: int)
    requires Tracks(s)
    ensures Tracks(AsyncConnect(s, max).st)
  {
    ConnectQuiet(s.c, max);
    QuietKeeps(s.c.log, AsyncConnect(s, max).st.c.log);
  }

  lemma ClientReceiveTracks(s: EntityState, max: int)
    requires Tracks(s)
    ensures Tracks(Lift(s, C.AsyncReceive(s.c, max)).st)
  {
    ReceiveQuiet(s.c, max);
    QuietKeeps(s.c.log, C.AsyncReceive(s.c, max).st.log);
  }

  lemma {:induction false} ReceiveTracks(s: EntityState, max: int)
    requires Tracks(s)
    ensures Tracks(AsyncReceive(s, max).st)
    decreases s.c.script
  {
    ClientReceiveTracks(s, max);
    var r := Lift(s, C.AsyncReceive(s.c, max));
    if r.flow.Done? && r.flow.value.Value? {
      var p := r.flow.value.value;
      if p.SubAck? && !AnyFailure(p) {
        ReceiveTracks(r.st, max);
      } else if p.PubAck? {
        assert p.id !in Unacknowledged(r.st.c.log);
        ReceiveTracks(Settle(r.st, p.id), max);
      }
    }
  }

  lemma PublishTracks(s: EntityState, topic: Topic, payload: string, qos: nat)
    requires Tracks(s)
    ensures Tracks(AsyncPublish(s, topic, payload, qos).st)
  {
  }

  lemma SetConfigTracks(s: EntityState, config: string, qos: nat, max: int)
    requires Tracks(s)
    ensures Tracks(AsyncSetConfig(s, config, qos, max).st)
  {
    PublishTracks(s, DiscoveryTopic, config, qos);
    var r := AsyncPublish(s, DiscoveryTopic, config, qos);
    if r.flow == Done(NO_ERROR) { ClientReceiveTracks(r.st, max); }
  }

  lemma SubscribeTracks(s: EntityState, topics: seq<Topic>, max: int)
    requires Tracks(s)
    ensures Tracks(AsyncSubscribe(s, topics, max).st)
  {
    var r := Lift(s, C.AsyncSubscribe(s.c, topics));
    assert Tracks(r.st);
    if r.flow.Done? && r.flow.value.Value? { ClientReceiveTracks(r.st, max); }
  }

  lemma ConfigureTracks(kind: Kind, s: EntityState, config: string, qos: nat, max: int)
    requires Tracks(s)
    ensures Tracks(AsyncConfigure(kind, s, config, qos, max).st)
  {
    SetConfigTracks(s, config, qos, max);
    var r := AsyncSetConfig(s, config, qos, max);
    if r.flow == Done(NO_ERROR) && kind.Subscribes() { SubscribeTracks(r.st, [CommandTopic], max); }
  }

  // The calls an owner of an entity can make.
  datatype Call =
    | CallConnect
    | CallReceive
    | CallConfigure(config: string, configQos: nat)
    | CallAvailability(online: bool, availabilityQos: nat)
    | CallState(payload: Option<string>, stateQos: nat)

  function Perform(kind: Kind, s: EntityState, max: int, call: Call): EntityState {
    match call
    case CallConnect => AsyncConnect(s, max).st
    case CallReceive => AsyncReceiveCommand(kind, s, max).st
    case CallConfigure(config, qos) => AsyncConfigure(kind, s, config, qos, max).st
    case CallAvailability(online, qos) => AsyncSetAvailability(s, online, qos).st
    case CallState(payload, qos) => AsyncSetState(s, payload, qos).st
  }

  function PerformAll(kind: Kind, s: EntityState, max: int, calls: seq<Call>): EntityState
    decreases |calls|
  {
    if calls == [] then s else PerformAll(kind, Perform(kind, s, max, calls[0]), max, calls[1..])
  }

  lemma PerformTracks(kind: Kind, s: EntityState, max: int, call: Call)
    requires Tracks(s)
    ensures Tracks(Perform(kind, s, max, call))
  {
    match call
    case CallConnect => ConnectTracks(s, max);
    case CallReceive => ReceiveTracks(s, max);
    case CallConfigure(config, qos) => ConfigureTracks(kind, s, config, qos, max);
    case CallAvailability(online, qos) =>
      PublishTracks(s, AvailabilityTopic, if online then "online" else "offline", qos);
    case CallState(payload, qos) =>
      if payload.Some? { PublishTracks(s, StateTopic, payload.value, qos); }
  }

  lemma {:induction false} IdsAreFew(s: set<nat>, n: nat)
    requires forall id :: id in s ==> 1 <= id <= n
    ensures |s| <= n
    decreases n
  {
    if n > 0 {
      IdsAreFew(s - {n}, n - 1);
      assert n in s ==> |s - {n}| == |s| - 1;
      assert n !in s ==> s - {n} == s;
    }
  }

  lemma {:induction false} PerformAllTracks(kind: Kind, s: EntityState, max: int, calls: seq<Call>)
    requires Tracks(s)
    ensures Tracks(PerformAll(kind, s, max, calls))
    decreases |calls|
  {
    if calls != [] {
      PerformTracks(kind, s, max, calls[0]);
      PerformAllTracks(kind, Perform(kind, s, max, calls[0]), max, calls[1..]);
    }
  }

  // Whatever calls are made on an entity, and wherever in them the run stands still: the
  // pending ids are exactly the unsettled ones, none that is truly unacknowledged is missing,
  // and there are never more than 65535.
  lemma PendingIsExact(kind: Kind, category: nat, script: Script, max: int, calls: seq<Call>)
    ensures var t := PerformAll(kind, Fresh(category, script), max, calls);
      && t.pending == Unsettled(t.c.log)
      && Unacknowledged(t.c.log) <= t.pending
      && |t.pending| <= MAX_PACKET_ID
  {
    PerformAllTracks(kind, Fresh(category, script), max, calls);
    IdsAreFew(PerformAll(kind, Fresh(category, script), max, calls).pending, MAX_PACKET_ID);
  }

  // ---- When the pending set is what the broker still owes ----

  // What has become of the latest QoS 1 publish with an id: its PUBACK is awaited; it has come
  // and something other than async_receive has consumed it; async_receive has taken it.
  datatype Fate = Unused | Awaited | Overlooked | Settled

  function FateOf(log: Log, id: nat): Fate {
    match log
    case Start => Unused
    case Then(past, e) =>
      if PublishedQos1(e) && e.out.id == id then Awaited
      else if e == Taken(id) then Settled
      else if e == Got(PubAck(id)) && FateOf(past, id).Awaited? then Overlooked
      else FateOf(past, id)
  }

  ghost predicate NoneOverlooked(log: Log) { forall id: nat :: !FateOf(log, id).Overlooked? }

  lemma {:induction false} FateDecides(log: Log, id: nat)
    ensures id in Unsettled(log) <==> FateOf(log, id).Awaited? || FateOf(log, id).Overlooked?
    ensures FateOf(log, id).Awaited? ==> id in Unacknowledged(log)
    ensures FateOf(log, id).Overlooked? ==> id !in Unacknowledged(log)
  {
    if log.Then? { FateDecides(log.past, id); }
  }

  // In every run the pending ids are exactly those the broker has not acknowledged if and only
  // if no PUBACK was overlooked.
  lemma PendingIsUnacknowledged(kind: Kind, category: nat, script: Script, max: int, calls: seq<Call>)
    ensures var t := PerformAll(kind, Fresh(category, script), max, calls);
      t.pending == Unacknowledged(t.c.log) <==> NoneOverlooked(t.c.log)
  {
    var t := PerformAll(kind, Fresh(category, script), max, calls);
    PerformAllTracks(kind, Fresh(category, script), max, calls);
    PendingDecided(t.c.log);
  }

  lemma PendingDecided(log: Log)
    requires Unacknowledged(log) <= Unsettled(log)
    ensures Unsettled(log) == Unacknowledged(log) <==> NoneOverlooked(log)
  {
    forall id: nat
      ensures FateOf(log, id).Overlooked? <==> id in Unsettled(log) && id !in Unacknowledged(log)
    {
      FateDecides(log, id);
    }
    if NoneOverlooked(log) {
      assert Unsettled(log) <= Unacknowledged(log);
    } else {
      var id: nat :| FateOf(log, id).Overlooked?;
      assert id in Unsettled(log) && id !in Unacknowledged(log);
    }
  }

  lemma {:induction false} QuietKeepsOpen(a: Log, b: Log, id: nat)
    requires Quiet(a, b) && id in Unsettled(a)
    ensures FateOf(b, id).Awaited? || FateOf(b, id).Overlooked?
  {
    QuietKeeps(a, b);
    FateDecides(b, id);
  }

  // The PUBACK that confirms a config is overlooked, always: the id granted for the config stays
  // pending although the broker has acknowledged it.
  lemma ConfigIdStaysPending(s: EntityState, config: string, qos: nat, max: int, id: PacketId)
    requires qos > 0 && s.c.script.Ev? && s.c.script.head == IdGranted(id)
    requires var r := AsyncSetConfig(s, config, qos, max);
      r.flow == Done(NO_ERROR) && r.st.c.log.Then? && r.st.c.log.last == Got(PubAck(id))
    ensures var t := AsyncSetConfig(s, config, qos, max).st;
      && t.pending == s.pending + {id} && id in t.pending
      && id !in Unacknowledged(t.c.log) && FateOf(t.c.log, id).Overlooked?
  {
    var p := AsyncPublish(s, DiscoveryTopic, config, qos);
    assert p.st.c.log == Then(s.c.log, Sent(Publish(id, DiscoveryTopic, config, qos)));
    ReceiveQuiet(p.st.c, max);
    QuietKeepsOpen(p.st.c.log, C.AsyncReceive(p.st.c, max).st.log, id);
    FateDecides(AsyncSetConfig(s, config, qos, max).st.c.log, id);
  }
}
