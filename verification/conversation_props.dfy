// A configuration that is answered: what the broker and the device do in it, and what the adapter
// says.
module ConversationProps {
  import opened Wrappers
  import opened MqttWire
  import opened MqttError
  import opened EntitySpec
  import opened AdapterSpec
  import opened QuietProps
  import opened OnlineProps
  import opened AnswerProps
  import C = ClientSpec

  // ---- The broker's side of a configuration ----

  // The ids granted, the number of packets of no concern before either answer, the device's state.
  datatype Talk = Talk(
    config: PacketId, subscription: PacketId, online: PacketId, state: PacketId,
    before: nat, between: nat, device: Option<string>)

  function Others(n: nat, rest: Script): Script {
    if n == 0 then rest else Ev(Received(Other), Others(n - 1, rest))
  }

  function Exchange(id: PacketId, others: nat, answer: Packet, rest: Script): Script {
    Ev(IdGranted(id), Ev(SendDone(0), Others(others, Ev(Received(answer), rest))))
  }

  function StateRead(kind: Kind, t: Talk, rest: Script): Script {
    if kind.Button? then rest
    else Ev(DeviceState(t.device), if t.device.None? then rest else Ev(IdGranted(t.state), Ev(SendDone(0), rest)))
  }

  function Announcement(kind: Kind, t: Talk, rest: Script): Script {
    Ev(TimerFired(0), Ev(IdGranted(t.online), Ev(SendDone(0), StateRead(kind, t, rest))))
  }

  function Conversation(kind: Kind, t: Talk, rest: Script): Script {
    var announcement := Announcement(kind, t, rest);
    Exchange(t.config, t.before, PubAck(t.config),
      if kind.Subscribes()
      then Exchange(t.subscription, t.between, SubAck(t.subscription, [true]), announcement)
      else announcement)
  }

  lemma {:induction false} OthersSkipped(n: nat, p: Packet, rest: Script)
    requires C.Delivered(p)
    ensures NextDelivered(Others(n, Ev(Received(p), rest))) == Delivery(p, rest)
  {
    if n > 0 { OthersSkipped(n - 1, p, rest); }
  }

  lemma ConversationAnswers(kind: Kind, t: Talk, rest: Script)
    ensures Answered(kind, Conversation(kind, t, rest)) == Some(Announcement(kind, t, rest))
    ensures Configured(kind, Conversation(kind, t, rest)) == Some(rest)
  {
    var announcement := Announcement(kind, t, rest);
    var subscription := Exchange(t.subscription, t.between, SubAck(t.subscription, [true]), announcement);
    OthersSkipped(t.between, SubAck(t.subscription, [true]), announcement);
    OthersSkipped(t.before, PubAck(t.config), if kind.Subscribes() then subscription else announcement);
    assert AfterSubscription(subscription) == Some(announcement);
  }

  // ---- What is said ----

  // The packets sent in a run, in order.
  function Said(log: Log): seq<Outgoing> {
    match log
    case Start => []
    case Then(past, e) => Said(past) + if e.Sent? then [e.out] else []
  }

  // What the adapter says while it is configured: its config, for a cover or a button the
  // subscription to its commands, that it is online and, if there is one, the state it is in.
  function Spoken(a: Setup, t: Talk): seq<Outgoing> {
    [Publish(t.config, DiscoveryTopic, a.config, 1)]
    + (if a.kind.Cover? || a.kind.Button? then [Subscribe(t.subscription, [CommandTopic])] else [])
    + SpokenLast(a, t)
  }

  function SpokenLast(a: Setup, t: Talk): seq<Outgoing> {
    [Publish(t.online, AvailabilityTopic, "online", 1)]
    + if a.kind.Button? || t.device.None? then [] else [Publish(t.state, StateTopic, t.device.value, 1)]
  }

  // r has come to an end with this left of the script, having said this.
  ghost predicate Ends<T>(r: EntitySpec.Run<T>, value: T, rest: Script, said: seq<Outgoing>) {
    r.flow == Done(value) && r.st.c.connected && r.st.c.script == rest && Said(r.st.c.log) == said
  }

  // A publish at QoS 1 whose send succeeds.
  lemma PublishSays(s: EntityState, topic: Topic, payload: string, id: PacketId, rest: Script)
    requires s.c.connected && s.c.script == Ev(IdGranted(id), Ev(SendDone(0), rest))
    ensures Ends(AsyncPublish(s, topic, payload, QOS), NO_ERROR, rest,
                 Said(s.c.log) + [Publish(id, topic, payload, 1)])
  {
  }

  // "online" or "offline".
  lemma AvailabilitySays(s: EntityState, online: bool, id: PacketId, rest: Script)
    requires s.c.connected && s.c.script == Ev(IdGranted(id), Ev(SendDone(0), rest))
    ensures Ends(AsyncSetAvailability(s, online, QOS), NO_ERROR, rest,
                 Said(s.c.log) + [Publish(id, AvailabilityTopic, if online then "online" else "offline", 1)])
  {
    PublishSays(s, AvailabilityTopic, if online then "online" else "offline", id, rest);
  }

  lemma {:induction false} DeliverySays(s: C.ClientState, max: int)
    requires s.connected && NextDelivered(s.script).Delivery?
    ensures Said(C.AsyncReceive(s, max).st.log) == Said(s.log)
    decreases s.script
  {
    var e := C.Recv(s);
    assert Said(e.st.log) == Said(s.log);
    if !C.Delivered(e.flow.value.value) { DeliverySays(e.st, max); }
  }

  lemma SetConfigSays(s: EntityState, config: string, max: int, id: PacketId, others: nat, rest: Script)
    requires s.c.connected && s.c.script == Exchange(id, others, PubAck(id), rest)
    ensures Ends(AsyncSetConfig(s, config, QOS, max), NO_ERROR, rest,
                 Said(s.c.log) + [Publish(id, DiscoveryTopic, config, 1)])
  {
    var answer := Others(others, Ev(Received(PubAck(id)), rest));
    PublishSays(s, DiscoveryTopic, config, id, answer);
    OthersSkipped(others, PubAck(id), rest);
    var p := AsyncPublish(s, DiscoveryTopic, config, QOS);
    ReceiveExactly(p.st.c, max);
    DeliverySays(p.st.c, max);
  }

  lemma SubscribeSays(s: EntityState, max: int, id: PacketId, others: nat, rest: Script)
    requires s.c.connected && s.c.script == Exchange(id, others, SubAck(id, [true]), rest)
    ensures Ends(AsyncSubscribe(s, [CommandTopic], max), NO_ERROR, rest,
                 Said(s.c.log) + [Subscribe(id, [CommandTopic])])
  {
    var p := C.AsyncSubscribe(s.c, [CommandTopic]);
    assert Said(p.st.log) == Said(s.c.log) + [Subscribe(id, [CommandTopic])];
    OthersSkipped(others, SubAck(id, [true]), rest);
    ReceiveExactly(p.st, max);
    DeliverySays(p.st, max);
  }

  lemma AnnounceSays(a: Setup, s: EntityState, t: Talk, rest: Script)
    requires s.c.connected && s.c.script == Announcement(a.kind, t, rest)
    ensures Ends(Announce(a, s), true, rest, Said(s.c.log) + SpokenLast(a, t))
  {
    var w := AsyncWait(s);
    AvailabilitySays(w.st, true, t.online, StateRead(a.kind, t, rest));
    var v := AsyncSetAvailability(w.st, true, QOS);
    if !a.kind.Button? && t.device.Some? {
      var d := Lift(v.st, C.ReadDevice(v.st.c));
      PublishSays(d.st, StateTopic, t.device.value, t.state, rest);
      Regroup(Said(s.c.log), [Publish(t.online, AvailabilityTopic, "online", 1)],
              [Publish(t.state, StateTopic, t.device.value, 1)]);
    } else {
      assert SpokenLast(a, t) == [Publish(t.online, AvailabilityTopic, "online", 1)];
    }
  }

  // A configuration that meets with such answers succeeds, uses them up, has said what it should,
  // and makes a new connection ready.
  lemma ConversationConfigures(a: Setup, s: EntityState, t: Talk, rest: Script)
    requires s.c.connected && s.c.script == Conversation(a.kind, t, rest)
    ensures Ends(Configure(a, s), true, rest, Said(s.c.log) + Spoken(a, t))
    ensures Blank(a.config, s.c.log) ==> Ready(a, Configure(a, s).st.c.log)
  {
    ConversationAnswers(a.kind, t, rest);
    ConversationSays(a, s, t, rest);
    if Blank(a.config, s.c.log) { ConfiguresExactly(a, s); }
  }

  lemma ConversationSays(a: Setup, s: EntityState, t: Talk, rest: Script)
    requires s.c.connected && s.c.script == Conversation(a.kind, t, rest)
    ensures Ends(Configure(a, s), true, rest, Said(s.c.log) + Spoken(a, t))
  {
    var last := Announcement(a.kind, t, rest);
    var said, x := Said(s.c.log), [Publish(t.config, DiscoveryTopic, a.config, 1)];
    var r := AsyncSetConfig(s, a.config, QOS, a.max);
    if a.kind.Subscribes() {
      var y := [Subscribe(t.subscription, [CommandTopic])];
      SetConfigSays(s, a.config, a.max, t.config, t.before,
                    Exchange(t.subscription, t.between, SubAck(t.subscription, [true]), last));
      SubscribeSays(r.st, a.max, t.subscription, t.between, last);
      AnnounceSays(a, AsyncSubscribe(r.st, [CommandTopic], a.max).st, t, rest);
      Regroup(said, x, y);
      Regroup(said, x + y, SpokenLast(a, t));
    } else {
      SetConfigSays(s, a.config, a.max, t.config, t.before, last);
      AnnounceSays(a, r.st, t, rest);
      assert x + [] == x;
      Regroup(said, x, SpokenLast(a, t));
    }
  }
}
