// The adapter against a broker that accepts and answers in order: nothing it does can fail or
// throw, so it succeeds unless the broker falls silent; and how many connects an initialisation
// can cost.
module BrokerProps {
  import opened Wrappers
  import opened MqttWire
  import opened MqttError
  import opened EntitySpec
  import opened AdapterSpec
  import opened AnswerProps
  import opened QuietProps
  import opened ReconnectProps
  import C = ClientSpec

  // ---- An orderly broker ----

  function Grants(n: nat): seq<bool> { seq(n, _ => true) }

  // The answer a packet calls for (sections 3.2, 3.4 and 3.9 of MQTT 3.1.1).
  function Answer(out: Outgoing): seq<Packet> {
    match out
    case Connect => [ConnAck(0)]
    case Publish(id, _, _, qos) => if qos > 0 then [PubAck(id)] else []
    case Subscribe(id, topics) => [SubAck(id, Grants(|topics|))]
  }

  // The answers still owed on the connection in use, oldest first. A new session owes nothing.
  function Owed(log: Log): seq<Packet> {
    match log
    case Start => []
    case Then(past, e) =>
      if e.TcpUp? then []
      else if e.Sent? then Owed(past) + Answer(e.out)
      else if e.Got? && !e.p.Other? && Owed(past) != [] then Owed(past)[1..]
      else Owed(past)
  }

  // What may happen next while the broker is orderly and nothing fails: packets of no concern
  // to an entity at any time after CONNACK, otherwise only the oldest answer owed.
  predicate Orderly(log: Log, e: Entry) {
    match e
    case Got(p) =>
      if p.Other? then Owed(log) == [] || !Owed(log)[0].ConnAck? else Owed(log) != [] && p == Owed(log)[0]
    case SendLost(_) => false
    case RecvLost(_) => false
    case TimerLost(_) => false
    case DeviceLost => false
    case _ => true
  }

  // b is a, followed by orderly entries only.
  ghost predicate OrderlySince(a: Log, b: Log) {
    a == b || (b.Then? && OrderlySince(a, b.past) && Orderly(b.past, b.last))
  }

  ghost predicate Extends(a: Log, b: Log) { a == b || (b.Then? && Extends(a, b.past)) }

  function Length(log: Log): nat { if log.Start? then 0 else 1 + Length(log.past) }

  lemma {:induction false} ExtendsLonger(a: Log, b: Log)
    requires Extends(a, b)
    ensures Length(a) <= Length(b) && (Length(a) == Length(b) ==> a == b)
  {
    if a != b { ExtendsLonger(a, b.past); }
  }

  lemma {:induction false} ExtendsTrans(a: Log, b: Log, c: Log)
    requires Extends(a, b) && Extends(b, c)
    ensures Extends(a, c)
  {
    if b != c { ExtendsTrans(a, b, c.past); }
  }

  // An orderly stretch is orderly in each of its parts.
  lemma {:induction false} OrderlyParts(a: Log, b: Log, c: Log)
    requires Extends(a, b) && Extends(b, c) && OrderlySince(a, c)
    ensures OrderlySince(a, b) && OrderlySince(b, c)
  {
    if b != c {
      ExtendsTrans(a, b, c.past);
      ExtendsLonger(a, c.past);
      assert a != c;
      OrderlyParts(a, b, c.past);
    }
  }

  lemma {:induction false} QuietExtends(a: Log, b: Log)
    requires Quiet(a, b)
    ensures Extends(a, b)
  {
    if a != b { QuietExtends(a, b.past); }
  }

  // Without the packets of no concern.
  function Essence(log: Log): Log {
    match log
    case Start => Start
    case Then(past, e) => if e.Got? && e.p.Other? then Essence(past) else Then(Essence(past), e)
  }

  // ---- Configuration against an orderly broker ----

  lemma NotOrderly(log: Log, e: Entry)
    requires OrderlySince(log, Then(log, e))
    ensures Orderly(log, e)
  {
    assert Length(Then(log, e)) == Length(log) + 1;
  }

  // With one answer owed, a receive yields exactly that answer, if it returns at all.
  lemma {:induction false} ReceiveAnswer(s: C.ClientState, max: int, p: Packet)
    requires s.connected && Owed(s.log) == [p] && C.Delivered(p)
    requires OrderlySince(s.log, C.AsyncReceive(s, max).st.log)
    ensures var r := C.AsyncReceive(s, max);
      && !r.flow.Thrown? && r.st.connected && Extends(s.log, r.st.log)
      && (r.flow.Done? ==> r.flow.value == Value(p) && Owed(r.st.log) == []
                           && Essence(r.st.log) == Then(Essence(s.log), Got(p)))
    decreases s.script
  {
    var r := C.AsyncReceive(s, max);
    ReceiveQuiet(s, max);
    QuietExtends(s.log, r.st.log);
    var e := C.Recv(s);
    if e.flow.Done? {
      assert Extends(s.log, e.st.log);
      if e.flow.value.Unexpected? {
        RecvErrorQuiet(e.st, e.flow.value.error, max);
        QuietExtends(e.st.log, r.st.log);
        OrderlyParts(s.log, e.st.log, r.st.log);
        NotOrderly(s.log, e.st.log.last);
        assert false;
      } else if e.flow.value.value.Other? {
        ReceiveQuiet(e.st, max);
        QuietExtends(e.st.log, r.st.log);
        OrderlyParts(s.log, e.st.log, r.st.log);
        ReceiveAnswer(e.st, max, p);
      } else {
        assert !C.Delivered(e.flow.value.value) ==> Extends(e.st.log, r.st.log) by {
          ReceiveQuiet(e.st, max);
          if !C.Delivered(e.flow.value.value) && !e.flow.value.value.Untyped? { QuietExtends(e.st.log, r.st.log); }
        }
        OrderlyParts(s.log, e.st.log, r.st.log);
      }
    }
  }

  predicate Settled(s: EntityState) { s.c.connected && Owed(s.c.log) == [] }

  lemma PublishExtends(s: EntityState, topic: Topic, payload: string, qos: nat)
    ensures Extends(s.c.log, AsyncPublish(s, topic, payload, qos).st.c.log)
    ensures s.c.connected == AsyncPublish(s, topic, payload, qos).st.c.connected
  {
  }

  ghost predicate Publishes(a: EntityState, b: EntityState, id: nat, topic: Topic, payload: string) {
    b.pending == a.pending + {id} && b.c.log == Then(a.c.log, Sent(Publish(id, topic, payload, QOS)))
  }

  ghost predicate Exchanged(a: Log, b: Log, out: Outgoing, answer: Packet) {
    Essence(b) == Then(Then(Essence(a), Sent(out)), Got(answer))
  }

  // Nothing lost: the publish goes out.
  lemma PublishSucceeds(s: EntityState, topic: Topic, payload: string)
    requires s.c.connected && OrderlySince(s.c.log, AsyncPublish(s, topic, payload, QOS).st.c.log)
    ensures var r := AsyncPublish(s, topic, payload, QOS);
      && !r.flow.Thrown? && (r.flow.Done? ==> r.flow.value == NO_ERROR)
      && (r.flow.Done? ==> exists id :: Publishes(s, r.st, id, topic, payload))
  {
    var r := C.AsyncPublish(s.c, topic, payload, QOS);
    if !r.flow.Pending? {
      NotOrderly(s.c.log, r.st.log.last);
      if r.flow.Done? {
        assert Publishes(s, AsyncPublish(s, topic, payload, QOS).st, r.flow.value.value, topic, payload);
      }
    }
  }

  lemma SetConfigExtends(s: EntityState, config: string, max: int)
    ensures Extends(s.c.log, AsyncSetConfig(s, config, QOS, max).st.c.log)
  {
    PublishExtends(s, DiscoveryTopic, config, QOS);
    var p := AsyncPublish(s, DiscoveryTopic, config, QOS);
    if p.flow == Done(NO_ERROR) {
      ReceiveQuiet(p.st.c, max);
      QuietExtends(p.st.c.log, C.AsyncReceive(p.st.c, max).st.log);
      ExtendsTrans(s.c.log, p.st.c.log, C.AsyncReceive(p.st.c, max).st.log);
    }
  }

  // The config is accepted, and the PUBACK taken for it carries its own id.
  lemma SetConfigSucceeds(s: EntityState, config: string, max: int)
    requires Settled(s) && OrderlySince(s.c.log, AsyncSetConfig(s, config, QOS, max).st.c.log)
    ensures var r := AsyncSetConfig(s, config, QOS, max);
      && !r.flow.Thrown?
      && (r.flow.Done? ==> r.flow.value == NO_ERROR && Settled(r.st))
      && (r.flow.Done? ==>
            exists id :: Exchanged(s.c.log, r.st.c.log, Publish(id, DiscoveryTopic, config, QOS), PubAck(id)))
  {
    var r := AsyncSetConfig(s, config, QOS, max);
    var p := AsyncPublish(s, DiscoveryTopic, config, QOS);
    PublishExtends(s, DiscoveryTopic, config, QOS);
    if p.flow == Done(NO_ERROR) {
      ReceiveQuiet(p.st.c, max);
      QuietExtends(p.st.c.log, r.st.c.log);
      OrderlyParts(s.c.log, p.st.c.log, r.st.c.log);
    }
    PublishSucceeds(s, DiscoveryTopic, config);
    if p.flow == Done(NO_ERROR) {
      var id :| Publishes(s, p.st, id, DiscoveryTopic, config);
      ReceiveAnswer(p.st.c, max, PubAck(id));
      assert r.flow.Done? ==>
        Exchanged(s.c.log, r.st.c.log, Publish(id, DiscoveryTopic, config, QOS), PubAck(id));
    }
  }

  // The subscription is granted, and the SUBACK taken for it carries its own id.
  lemma SubscribeSucceeds(s: EntityState, topics: seq<Topic>, max: int)
    requires Settled(s) && OrderlySince(s.c.log, AsyncSubscribe(s, topics, max).st.c.log)
    ensures var r := AsyncSubscribe(s, topics, max);
      && !r.flow.Thrown?
      && (r.flow.Done? ==> r.flow.value == NO_ERROR && Settled(r.st))
      && (r.flow.Done? ==>
            exists id :: Exchanged(s.c.log, r.st.c.log, Subscribe(id, topics), SubAck(id, Grants(|topics|))))
  {
    var r := AsyncSubscribe(s, topics, max);
    var p := C.AsyncSubscribe(s.c, topics);
    if p.flow.Done? && p.flow.value.Value? {
      var id := p.flow.value.value;
      assert p.st.log == Then(s.c.log, Sent(Subscribe(id, topics)));
      ReceiveQuiet(p.st, max);
      QuietExtends(p.st.log, r.st.c.log);
      OrderlyParts(s.c.log, p.st.log, r.st.c.log);
      ReceiveAnswer(p.st, max, SubAck(id, Grants(|topics|)));
      assert r.flow.Done? ==> Exchanged(s.c.log, r.st.c.log, Subscribe(id, topics), SubAck(id, Grants(|topics|)));
    } else if !p.flow.Pending? {
      NotOrderly(s.c.log, p.st.log.last);
    }
  }

  lemma SubscribeExtends(s: EntityState, topics: seq<Topic>, max: int)
    ensures Extends(s.c.log, AsyncSubscribe(s, topics, max).st.c.log)
  {
    var p := C.AsyncSubscribe(s.c, topics);
    assert Extends(s.c.log, p.st.log);
    if p.flow.Done? && p.flow.value.Value? {
      ReceiveQuiet(p.st, max);
      QuietExtends(p.st.log, C.AsyncReceive(p.st, max).st.log);
      ExtendsTrans(s.c.log, p.st.log, C.AsyncReceive(p.st, max).st.log);
    }
  }

  lemma EntityConfigureSucceeds(a: Setup, s: EntityState)
    requires Settled(s) && OrderlySince(s.c.log, AsyncConfigure(a.kind, s, a.config, QOS, a.max).st.c.log)
    ensures var r := AsyncConfigure(a.kind, s, a.config, QOS, a.max);
      !r.flow.Thrown? && (r.flow.Done? ==> r.flow.value == NO_ERROR && Settled(r.st))
  {
    SetConfigExtends(s, a.config, a.max);
    var r := AsyncSetConfig(s, a.config, QOS, a.max);
    if r.flow == Done(NO_ERROR) && a.kind.Subscribes() {
      SubscribeExtends(r.st, [CommandTopic], a.max);
      OrderlyParts(s.c.log, r.st.c.log, AsyncSubscribe(r.st, [CommandTopic], a.max).st.c.log);
      SetConfigSucceeds(s, a.config, a.max);
      SubscribeSucceeds(r.st, [CommandTopic], a.max);
    } else {
      SetConfigSucceeds(s, a.config, a.max);
    }
  }

  lemma EntityConfigureExtends(a: Setup, s: EntityState)
    ensures Extends(s.c.log, AsyncConfigure(a.kind, s, a.config, QOS, a.max).st.c.log)
  {
    SetConfigExtends(s, a.config, a.max);
    var r := AsyncSetConfig(s, a.config, QOS, a.max);
    if r.flow == Done(NO_ERROR) && a.kind.Subscribes() {
      SubscribeExtends(r.st, [CommandTopic], a.max);
      ExtendsTrans(s.c.log, r.st.c.log, AsyncSubscribe(r.st, [CommandTopic], a.max).st.c.log);
    }
  }

  lemma SyncExtends(a: Setup, s: EntityState)
    ensures Extends(s.c.log, AsyncSyncState(a, s).st.c.log)
  {
    if !a.kind.Button? {
      var d := Lift(s, C.ReadDevice(s.c));
      if d.flow.Done? && d.flow.value.Some? {
        PublishExtends(d.st, StateTopic, d.flow.value.value, QOS);
      }
    }
  }

  lemma AnnounceExtends(a: Setup, s: EntityState)
    ensures Extends(s.c.log, Announce(a, s).st.c.log)
  {
    var w := AsyncWait(s);
    if w.flow.Done? {
      PublishExtends(w.st, AvailabilityTopic, "online", QOS);
      var v := AsyncSetAvailability(w.st, true, QOS);
      if v.flow.Done? {
        SyncExtends(a, v.st);
        ExtendsTrans(s.c.log, v.st.c.log, AsyncSyncState(a, v.st).st.c.log);
      }
    }
  }

  lemma SyncSucceeds(a: Setup, s: EntityState)
    requires s.c.connected && OrderlySince(s.c.log, AsyncSyncState(a, s).st.c.log)
    ensures !AsyncSyncState(a, s).flow.Thrown?
  {
    if !a.kind.Button? {
      var d := Lift(s, C.ReadDevice(s.c));
      if d.flow.Thrown? { NotOrderly(s.c.log, DeviceLost); }
      if d.flow.Done? && d.flow.value.Some? {
        PublishSucceeds(d.st, StateTopic, d.flow.value.value);
      }
    }
  }

  lemma AnnounceSucceeds(a: Setup, s: EntityState)
    requires s.c.connected && OrderlySince(s.c.log, Announce(a, s).st.c.log)
    ensures !Announce(a, s).flow.Thrown?
  {
    var w := AsyncWait(s);
    if w.flow.Thrown? { NotOrderly(s.c.log, w.st.c.log.last); }
    if w.flow.Done? {
      var v := AsyncSetAvailability(w.st, true, QOS);
      PublishExtends(w.st, AvailabilityTopic, "online", QOS);
      if v.flow.Done? {
        SyncExtends(a, v.st);
        OrderlyParts(s.c.log, v.st.c.log, AsyncSyncState(a, v.st).st.c.log);
        PublishSucceeds(w.st, AvailabilityTopic, "online");
        SyncSucceeds(a, v.st);
      } else {
        PublishSucceeds(w.st, AvailabilityTopic, "online");
      }
    }
  }

  // A configuration started on a settled connection does not fail and does not throw.
  lemma ConfigureSucceeds(a: Setup, s: EntityState)
    requires Settled(s) && OrderlySince(s.c.log, Configure(a, s).st.c.log)
    ensures Configure(a, s).flow in {Done(true), Pending}
  {
    EntityConfigureExtends(a, s);
    var r := AsyncConfigure(a.kind, s, a.config, QOS, a.max);
    if r.flow == Done(NO_ERROR) {
      AnnounceExtends(a, r.st);
      OrderlyParts(s.c.log, r.st.c.log, Announce(a, r.st).st.c.log);
      EntityConfigureSucceeds(a, s);
      AnnounceSucceeds(a, r.st);
    } else {
      EntityConfigureSucceeds(a, s);
    }
  }

  // A connection just accepted owes nothing.
  lemma AcceptedOwesNothing(log: Log)
    requires Accepted(log)
    ensures Owed(log) == []
  {
    assert Owed(log.past.past) == [];
    assert Owed(log.past) == [ConnAck(0)];
  }

  lemma ConnectAccepted(s: EntityState, max: int)
    ensures var r := EntitySpec.AsyncConnect(s, max);
      r.flow == Done(NO_ERROR) && Accepted(r.st.c.log) ==> Settled(r.st)
  {
    ConnectQuiet(s.c, max);
    var log := EntitySpec.AsyncConnect(s, max).st.c.log;
    if Accepted(log) { AcceptedOwesNothing(log); }
  }

  lemma InitConnectAccepted(s: EntityState, max: int)
    ensures var r := InitConnect(s, max, 0, NO_ERROR);
      r.flow == Done(NO_ERROR) && Accepted(r.st.c.log) ==> Settled(r.st)
  {
    var r := InitConnect(s, max, 0, NO_ERROR);
    if r.flow == Done(NO_ERROR) {
      var t := SuccessfulConnect(s, max, 0, NO_ERROR, r);
      ConnectAccepted(t, max);
    }
  }

  // Once a connect has been accepted, initialisation cannot fail or throw.
  lemma InitSucceeds(a: Setup, s: EntityState)
    requires var c := InitConnect(s, a.max, 0, NO_ERROR);
      c.flow == Done(NO_ERROR) && Accepted(c.st.c.log) && OrderlySince(c.st.c.log, AsyncInit(a, s).st.c.log)
    ensures AsyncInit(a, s).flow in {Done(true), Pending}
  {
    InitConnectAccepted(s, a.max);
    ConfigureSucceeds(a, InitConnect(s, a.max, 0, NO_ERROR).st);
  }

  // After a disconnection, neither can what follows an accepted connect.
  lemma DisconnectionRecovered(a: Setup, s: EntityState)
    requires var c := EntitySpec.AsyncConnect(s, a.max);
      c.flow == Done(NO_ERROR) && Accepted(c.st.c.log) &&
      OrderlySince(c.st.c.log, HandleError(a, s, DISCONNECTED).st.c.log)
    ensures HandleError(a, s, DISCONNECTED).flow in {Done(true), Pending}
  {
    ConnectAccepted(s, a.max);
    ConfigureSucceeds(a, EntitySpec.AsyncConnect(s, a.max).st);
  }

  // Nor can the handling of a Reconnected error that reaches the run loop.
  lemma ReconnectionRecovered(a: Setup, s: EntityState)
    requires var e := AsyncReceiveCommand(a.kind, s, a.max);
      e.flow == Done(Unexpected(RECONNECTED)) && Accepted(e.st.c.log) &&
      OrderlySince(e.st.c.log, HandleError(a, e.st, RECONNECTED).st.c.log)
    ensures var e := AsyncReceiveCommand(a.kind, s, a.max);
      HandleError(a, e.st, RECONNECTED).flow in {Done(true), Pending}
  {
    var e := AsyncReceiveCommand(a.kind, s, a.max);
    ReceivedReconnected(a, s);
    AcceptedOwesNothing(e.st.c.log);
    ConfigureSucceeds(a, e.st);
  }

  // ---- The cost of an initialisation ----

  lemma TurnCredit(s: EntityState, max: int)
    ensures var c := EntitySpec.AsyncConnect(s, max);
      && Credit(s.c.log, max) - 1 <= Credit(c.st.c.log, max)
      && Credit(AsyncWait(c.st).st.c.log, max) == Credit(c.st.c.log, max)
  {
    ConnectBound(s.c, max);
  }

  lemma {:induction false} InitConnectCredit(
    s: EntityState, max: int, attempt: nat, error: int, outcome: EntitySpec.Run<int>)
    requires Leads(s, max, attempt, error, outcome) && attempt <= INIT_RETRY_ATTEMPTS
    ensures Credit(s.c.log, max) - (INIT_RETRY_ATTEMPTS - attempt) <= Credit(outcome.st.c.log, max)
    decreases INIT_RETRY_ATTEMPTS - attempt
  {
    if attempt == INIT_RETRY_ATTEMPTS {
      LeadsEnd(s, max, error, outcome);
    } else {
      var c := EntitySpec.AsyncConnect(s, max);
      var w := AsyncWait(c.st);
      TurnCredit(s, max);
      LeadsOn(s, max, attempt, error, outcome, c, w);
      if c.flow.Done? && c.flow.value != NO_ERROR && w.flow.Done? {
        InitConnectCredit(w.st, max, attempt + 1, c.flow.value, outcome);
      }
    }
  }

  // A receive costs nothing when it yields a packet.
  lemma {:induction false} ReceiveCredit(s: C.ClientState, max: int)
    ensures var r := C.AsyncReceive(s, max);
      && Credit(s.log, max) - Cap(max) <= Credit(r.st.log, max)
      && (r.flow.Done? && r.flow.value.Value? ==> Credit(s.log, max) <= Credit(r.st.log, max))
    decreases s.script
  {
    var e := C.Recv(s);
    if s.connected && e.flow.Done? {
      if e.flow.value.Unexpected? {
        RecvErrorCredit(e.st, e.flow.value.error, max);
      } else if !e.flow.value.value.Untyped? && !C.Delivered(e.flow.value.value) {
        ReceiveCredit(e.st, max);
      }
    }
  }

  lemma PublishCredit(s: EntityState, topic: Topic, payload: string, max: int)
    ensures Credit(AsyncPublish(s, topic, payload, QOS).st.c.log, max) == Credit(s.c.log, max)
  {
  }

  lemma SetConfigCredit(s: EntityState, config: string, max: int)
    ensures var r := AsyncSetConfig(s, config, QOS, max);
      && Credit(s.c.log, max) - Cap(max) <= Credit(r.st.c.log, max)
      && (r.flow == Done(NO_ERROR) ==> Credit(s.c.log, max) <= Credit(r.st.c.log, max))
  {
    PublishCredit(s, DiscoveryTopic, config, max);
    var p := AsyncPublish(s, DiscoveryTopic, config, QOS);
    if p.flow == Done(NO_ERROR) { ReceiveCredit(p.st.c, max); }
  }

  lemma SubscribeCredit(s: EntityState, topics: seq<Topic>, max: int)
    ensures var r := AsyncSubscribe(s, topics, max);
      && Credit(s.c.log, max) - Cap(max) <= Credit(r.st.c.log, max)
      && (r.flow == Done(NO_ERROR) ==> Credit(s.c.log, max) <= Credit(r.st.c.log, max))
  {
    var q := C.AsyncSubscribe(s.c, topics);
    assert Credit(q.st.log, max) == Credit(s.c.log, max);
    if q.flow.Done? && q.flow.value.Value? { ReceiveCredit(q.st, max); }
  }

  lemma ConfigureCredit(a: Setup, s: EntityState)
    ensures Credit(s.c.log, a.max) - Cap(a.max) <= Credit(Configure(a, s).st.c.log, a.max)
  {
    SetConfigCredit(s, a.config, a.max);
    var r := AsyncSetConfig(s, a.config, QOS, a.max);
    if r.flow == Done(NO_ERROR) && a.kind.Subscribes() { SubscribeCredit(r.st, [CommandTopic], a.max); }
    var t := AsyncConfigure(a.kind, s, a.config, QOS, a.max);
    if t.flow == Done(NO_ERROR) { AnnounceCredit(a, t.st); }
  }

  lemma AnnounceCredit(a: Setup, s: EntityState)
    ensures Credit(Announce(a, s).st.c.log, a.max) == Credit(s.c.log, a.max)
  {
    var w := AsyncWait(s);
    PublishCredit(w.st, AvailabilityTopic, "online", a.max);
    var v := AsyncSetAvailability(w.st, true, QOS);
    var d := Lift(v.st, C.ReadDevice(v.st.c));
    if d.flow.Done? && d.flow.value.Some? {
      PublishCredit(d.st, StateTopic, d.flow.value.value, a.max);
    }
  }

  // A whole initialisation makes at most 10 + max * (1 + k) connects, k being the CONNACKs lost.
  lemma InitBound(a: Setup, category: nat, script: Script)
    ensures var log := AsyncInit(a, Fresh(category, script)).st.c.log;
      Connects(log) <= INIT_RETRY_ATTEMPTS + Cap(a.max) * (1 + LostConnAcks(log))
  {
    var s := Fresh(category, script);
    var c := InitConnect(s, a.max, 0, NO_ERROR);
    InitConnectCredit(s, a.max, 0, NO_ERROR, c);
    if c.flow == Done(NO_ERROR) { ConfigureCredit(a, c.st); }
    var log := AsyncInit(a, s).st.c.log;
    CreditIsBalance(log, a.max);
    Distribute(Cap(a.max), LostConnAcks(log), 0);
  }
}
