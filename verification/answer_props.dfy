// Exactly when the operations of an entity and its adapter succeed, read off the events to come,
// and exactly when the connection in use ends up configured.
module AnswerProps {
  import opened Wrappers
  import opened MqttWire
  import opened MqttError
  import opened EntitySpec
  import opened AdapterSpec
  import opened QuietProps
  import opened OnlineProps
  import opened ReconnectProps
  import C = ClientSpec

  // ---- The events an operation needs ----

  datatype Delivery = NoDelivery | Delivery(p: Packet, rest: Script)

  // The next packet the client hands on, if it comes before anything else than packets it skips.
  function NextDelivered(script: Script): Delivery {
    if !script.Ev? || !script.head.Received? || script.head.p.Untyped? then NoDelivery
    else if C.Delivered(script.head.p) then Delivery(script.head.p, script.tail)
    else NextDelivered(script.tail)
  }

  // An id granted and a packet sent, with this outcome.
  predicate IdAndSend(script: Script) {
    script.Ev? && script.head.IdGranted? && script.tail.Ev? && script.tail.head.SendDone?
  }

  function SendOutcome(script: Script): int
    requires IdAndSend(script)
  {
    script.tail.head.ec
  }

  predicate Granting(p: Packet) { p.SubAck? && !AnyFailure(p) }

  // What is left of a script that has the config accepted.
  function AfterConfig(script: Script): Option<Script> {
    if !IdAndSend(script) || SendOutcome(script) != 0 then None else
    var d := NextDelivered(script.tail.tail);
    if d.Delivery? && d.p.PubAck? then Some(d.rest) else None
  }

  function AfterSubscription(script: Script): Option<Script> {
    if !IdAndSend(script) || SendOutcome(script) != 0 then None else
    var d := NextDelivered(script.tail.tail);
    if d.Delivery? && Granting(d.p) then Some(d.rest) else None
  }

  function Answered(kind: Kind, script: Script): Option<Script> {
    var configured := AfterConfig(script);
    if configured.Some? && kind.Subscribes() then AfterSubscription(configured.value) else configured
  }

  // A publish whose outcome nobody looks at: it must end, and not by an exception.
  function AfterPublish(script: Script): Option<Script> {
    if IdAndSend(script) && (SendOutcome(script) == 0 || Mapped(SendOutcome(script)))
    then Some(script.tail.tail) else None
  }

  function AfterSync(kind: Kind, script: Script): Option<Script> {
    if kind.Button? then Some(script)
    else if !script.Ev? || !script.head.DeviceState? then None
    else if script.head.payload.None? then Some(script.tail)
    else AfterPublish(script.tail)
  }

  function Announced(kind: Kind, script: Script): Option<Script> {
    if !script.Ev? || script.head != TimerFired(0) then None else
    var online := AfterPublish(script.tail);
    if online.None? then None else AfterSync(kind, online.value)
  }

  function Configured(kind: Kind, script: Script): Option<Script> {
    var answered := Answered(kind, script);
    if answered.None? then None else Announced(kind, answered.value)
  }

  // ---- They are all it needs, and all of them ----

  lemma {:induction false} ReceiveExactly(s: C.ClientState, max: int)
    requires s.connected
    ensures var r, d := C.AsyncReceive(s, max), NextDelivered(s.script);
      if d.Delivery? then r.flow == Done(Value(d.p)) && r.st.script == d.rest && r.st.connected
      else !(r.flow.Done? && r.flow.value.Value?)
    decreases s.script
  {
    var e := C.Recv(s);
    if e.flow.Done? && e.flow.value.Value? && !e.flow.value.value.Untyped? && !C.Delivered(e.flow.value.value) {
      ReceiveExactly(e.st, max);
    }
  }

  // The config is accepted if and only if an id is granted, it is sent, and the next packet
  // handed on is a PUBACK.
  lemma SetConfigExactly(s: EntityState, config: string, max: int)
    ensures var r, left := AsyncSetConfig(s, config, QOS, max), AfterConfig(s.c.script);
      && (r.flow == Done(NO_ERROR) <==> s.c.connected && left.Some?)
      && (r.flow == Done(NO_ERROR) ==> r.st.c.connected && r.st.c.script == left.value)
  {
    var p := AsyncPublish(s, DiscoveryTopic, config, QOS);
    if s.c.connected && IdAndSend(s.c.script) && SendOutcome(s.c.script) == 0 {
      assert p.flow == Done(NO_ERROR) && p.st.c.script == s.c.script.tail.tail;
      ReceiveExactly(p.st.c, max);
    }
  }

  // The subscription is granted if and only if an id is granted, it is sent, and the next packet
  // handed on is a SUBACK without failure.
  lemma SubscribeExactly(s: EntityState, max: int)
    ensures var r, left := AsyncSubscribe(s, [CommandTopic], max), AfterSubscription(s.c.script);
      && (r.flow == Done(NO_ERROR) <==> s.c.connected && left.Some?)
      && (r.flow == Done(NO_ERROR) ==> r.st.c.connected && r.st.c.script == left.value)
  {
    var p := C.AsyncSubscribe(s.c, [CommandTopic]);
    if s.c.connected && IdAndSend(s.c.script) && SendOutcome(s.c.script) == 0 {
      assert p.flow.Done? && p.flow.value.Value? && p.st.script == s.c.script.tail.tail;
      ReceiveExactly(p.st, max);
    }
  }

  lemma EntityConfigureExactly(a: Setup, s: EntityState)
    ensures var r, left := AsyncConfigure(a.kind, s, a.config, QOS, a.max), Answered(a.kind, s.c.script);
      && (r.flow == Done(NO_ERROR) <==> s.c.connected && left.Some?)
      && (r.flow == Done(NO_ERROR) ==> r.st.c.connected && r.st.c.script == left.value)
  {
    SetConfigExactly(s, a.config, a.max);
    var r := AsyncSetConfig(s, a.config, QOS, a.max);
    if r.flow == Done(NO_ERROR) && a.kind.Subscribes() { SubscribeExactly(r.st, a.max); }
  }

  lemma PublishExactly(s: EntityState, topic: Topic, payload: string)
    requires s.c.connected
    ensures var r, left := AsyncPublish(s, topic, payload, QOS), AfterPublish(s.c.script);
      && (r.flow.Done? <==> left.Some?)
      && (r.flow.Done? ==> r.st.c.connected && r.st.c.script == left.value)
  {
  }

  lemma AnnounceExactly(a: Setup, s: EntityState)
    requires s.c.connected
    ensures var r, left := Announce(a, s), Announced(a.kind, s.c.script);
      && (r.flow == Done(true) <==> left.Some?)
      && (r.flow == Done(true) ==> r.st.c.connected && r.st.c.script == left.value)
  {
    var w := AsyncWait(s);
    if w.flow.Done? {
      PublishExactly(w.st, AvailabilityTopic, "online");
      var v := AsyncSetAvailability(w.st, true, QOS);
      if v.flow.Done? && !a.kind.Button? {
        var d := Lift(v.st, C.ReadDevice(v.st.c));
        if d.flow.Done? && d.flow.value.Some? {
          PublishExactly(d.st, StateTopic, d.flow.value.value);
        }
      }
    }
  }

  // A configuration succeeds if and only if the client is connected and the events to come
  // answer the config and the subscription and let the announcement end.
  lemma ConfigureExactly(a: Setup, s: EntityState)
    ensures var r, left := Configure(a, s), Configured(a.kind, s.c.script);
      && (r.flow == Done(true) <==> s.c.connected && left.Some?)
      && (r.flow == Done(true) ==> r.st.c.connected && r.st.c.script == left.value)
  {
    EntityConfigureExactly(a, s);
    var r := AsyncConfigure(a.kind, s, a.config, QOS, a.max);
    if r.flow == Done(NO_ERROR) { AnnounceExactly(a, r.st); }
  }

  // ---- Exactly when the connection in use ends up configured ----

  // Nothing has been done yet on the connection in use.
  predicate Blank(config: string, log: Log) {
    && !ConfigSent(config, log) && !ConfigConfirmed(config, log)
    && !SubscriptionSent(config, log) && !SubscriptionGranted(config, log)
  }

  predicate Unconfirmed(config: string, log: Log) {
    !ConfigConfirmed(config, log) && !SubscriptionSent(config, log) && !SubscriptionGranted(config, log)
  }

  lemma {:induction false} QuietStaysBlank(config: string, a: Log, b: Log)
    requires Quiet(a, b) && Blank(config, a)
    ensures Blank(config, b)
  {
    if a != b { QuietStaysBlank(config, a, b.past); }
  }

  lemma JustConnectedIsBlank(config: string, log: Log)
    requires JustConnected(log)
    ensures Blank(config, log)
  {
    assert Blank(config, log.past.past);
    assert Blank(config, log.past);
  }

  lemma ConnectBlank(config: string, s: C.ClientState, max: int)
    ensures Blank(config, C.AsyncConnect(s, max).st.log)
  {
    var s0 := s.Note(ConnectCall);
    assert Blank(config, s0.log);
    DialQuiet(s0);
    var d := C.Dial(s0);
    QuietStaysBlank(config, s0.log, d.st.log);
    if d.flow == Done(NO_ERROR) {
      ConnAckQuiet(d.st, max);
      QuietStaysBlank(config, d.st.log, C.RecvConnAck(d.st, max).st.log);
    }
  }

  // What handling a receive error leaves: the log as it was, a failed timer behind it, or a new
  // connection with nothing done on it.
  ghost predicate SameOrBlank(config: string, a: Log, b: Log) {
    b == a || (b.Then? && b.past == a && b.last.TimerLost?) || Blank(config, b)
  }

  lemma {:induction false} LoopSameOrBlank(config: string, s: C.ClientState, max: int, outcome: C.Run<bool>)
    requires C.Leads(s, max, outcome)
    ensures SameOrBlank(config, s.log, outcome.st.log)
    decreases s.script
  {
    if s.attempt >= max {
      C.LeadsEnd(s, max, outcome);
    } else {
      var w := C.Wait(s.(attempt := s.attempt + 1));
      var c := C.AsyncConnect(w.st, max);
      C.LeadsOn(s, max, outcome, w, c);
      ConnectBlank(config, w.st, max);
      if w.flow == Done(0) && c.flow.Done? && c.flow.value != NO_ERROR {
        LoopSameOrBlank(config, c.st, max, outcome);
      }
    }
  }

  lemma RecvErrorSameOrBlank(config: string, s: C.ClientState, ec: int, max: int)
    ensures SameOrBlank(config, s.log, C.HandleRecvError(s, ec, max).st.log)
  {
    if s.connected && max != 0 {
      var s0 := s.(attempt := 0);
      LoopSameOrBlank(config, s0, max, C.ReconnectLoop(s0, max));
    }
  }

  // A receive confirms nothing and grants nothing unless it hands on the packet that does.
  lemma {:induction false} ReceiveConfirms(config: string, s: C.ClientState, max: int)
    requires s.connected
    ensures var log, d := C.AsyncReceive(s, max).st.log, NextDelivered(s.script);
      && (Unconfirmed(config, s.log) && !(d.Delivery? && d.p.PubAck?) ==> Unconfirmed(config, log))
      && (!SubscriptionGranted(config, s.log) && !(d.Delivery? && Granting(d.p)) ==> !SubscriptionGranted(config, log))
    decreases s.script
  {
    var e := C.Recv(s);
    if e.flow.Done? {
      if e.flow.value.Unexpected? {
        RecvErrorSameOrBlank(config, e.st, e.flow.value.error, max);
      } else if !e.flow.value.value.Untyped? && !C.Delivered(e.flow.value.value) {
        ReceiveConfirms(config, e.st, max);
      }
    }
  }

  lemma SetConfigConfirms(config: string, s: EntityState, max: int)
    requires Blank(config, s.c.log)
    ensures var r := AsyncSetConfig(s, config, QOS, max);
      if r.flow == Done(NO_ERROR) then ConfigConfirmed(config, r.st.c.log) && !SubscriptionGranted(config, r.st.c.log)
      else Unconfirmed(config, r.st.c.log)
  {
    SetConfigReady(s, config, max);
    SetConfigExactly(s, config, max);
    var p := AsyncPublish(s, DiscoveryTopic, config, QOS);
    assert Unconfirmed(config, p.st.c.log);
    if p.flow == Done(NO_ERROR) { ReceiveConfirms(config, p.st.c, max); }
  }

  lemma SubscribeGrants(config: string, s: EntityState, max: int)
    requires ConfigConfirmed(config, s.c.log) && !SubscriptionGranted(config, s.c.log)
    ensures var r := AsyncSubscribe(s, [CommandTopic], max);
      r.flow == Done(NO_ERROR) <==> SubscriptionGranted(config, r.st.c.log)
  {
    SubscribeReady(config, s, max);
    SubscribeExactly(s, max);
    var p := C.AsyncSubscribe(s.c, [CommandTopic]);
    assert !SubscriptionGranted(config, p.st.log);
    if p.flow.Done? && p.flow.value.Value? { ReceiveConfirms(config, p.st, max); }
  }

  lemma PublishKeepsReady(a: Setup, s: EntityState, topic: Topic, payload: string)
    requires Ready(a, s.c.log)
    ensures Ready(a, AsyncPublish(s, topic, payload, QOS).st.c.log)
  {
  }

  lemma AnnounceKeepsReady(a: Setup, s: EntityState)
    requires Ready(a, s.c.log)
    ensures Ready(a, Announce(a, s).st.c.log)
  {
    var w := AsyncWait(s);
    assert Ready(a, w.st.c.log);
    if w.flow.Done? {
      PublishKeepsReady(a, w.st, AvailabilityTopic, "online");
      var v := AsyncSetAvailability(w.st, true, QOS);
      if v.flow.Done? && !a.kind.Button? {
        var d := Lift(v.st, C.ReadDevice(v.st.c));
        assert Ready(a, d.st.c.log);
        if d.flow.Done? && d.flow.value.Some? {
          PublishKeepsReady(a, d.st, StateTopic, d.flow.value.value);
        }
      }
    }
  }

  // On a connection on which nothing has been done, configuration makes it ready if and only if
  // the client is connected and the config and the subscription are answered next.
  lemma ConfiguresExactly(a: Setup, s: EntityState)
    requires Blank(a.config, s.c.log)
    ensures Ready(a, Configure(a, s).st.c.log) <==> s.c.connected && Answered(a.kind, s.c.script).Some?
  {
    SetConfigConfirms(a.config, s, a.max);
    EntityConfigureExactly(a, s);
    var r := AsyncSetConfig(s, a.config, QOS, a.max);
    if r.flow == Done(NO_ERROR) && a.kind.Subscribes() { SubscribeGrants(a.config, r.st, a.max); }
    var t := AsyncConfigure(a.kind, s, a.config, QOS, a.max);
    if t.flow == Done(NO_ERROR) { AnnounceKeepsReady(a, t.st); }
  }

  // A Reconnected error means a connection made just then.
  lemma {:induction false} ReconnectedIsConnected(s: EntityState, max: int)
    ensures var r := EntitySpec.AsyncReceive(s, max);
      r.flow == Done(Unexpected(RECONNECTED)) ==> r.st.c.connected && JustConnected(r.st.c.log)
    decreases s.c.script
  {
    ReceiveQuiet(s.c, max);
    var r := Lift(s, C.AsyncReceive(s.c, max));
    if r.flow.Done? && r.flow.value.Value? {
      var p := r.flow.value.value;
      if p.SubAck? && !AnyFailure(p) {
        ReconnectedIsConnected(r.st, max);
      } else if p.PubAck? {
        ReconnectedIsConnected(Settle(r.st, p.id), max);
      }
    }
  }

  // Whatever run a Reconnected error comes from: once it is handled, the connection in use is
  // configured if and only if the events that come next answer the config and the subscription.
  lemma ReconnectionConfigures(a: Setup, s: EntityState)
    requires AsyncReceiveCommand(a.kind, s, a.max).flow == Done(Unexpected(RECONNECTED))
    ensures var e := AsyncReceiveCommand(a.kind, s, a.max);
      var h := HandleError(a, e.st, RECONNECTED);
      && (Ready(a, h.st.c.log) <==> Answered(a.kind, e.st.c.script).Some?)
      && (h.flow == Done(true) <==> Configured(a.kind, e.st.c.script).Some?)
  {
    var e := AsyncReceiveCommand(a.kind, s, a.max);
    ReceivedReconnected(a, s);
    JustConnectedIsBlank(a.config, e.st.c.log);
    ConfiguresExactly(a, e.st);
    ConfigureExactly(a, e.st);
  }

  lemma ReceivedReconnected(a: Setup, s: EntityState)
    requires AsyncReceiveCommand(a.kind, s, a.max).flow == Done(Unexpected(RECONNECTED))
    ensures var t := AsyncReceiveCommand(a.kind, s, a.max).st;
      t.c.connected && JustConnected(t.c.log)
  {
    ReconnectedIsConnected(s, a.max);
  }

  // The same after a Disconnected error, once a connect has returned without error; any packet
  // may have come in place of the CONNACK then, so the client need not be marked connected.
  lemma DisconnectionConfigures(a: Setup, s: EntityState)
    requires EntitySpec.AsyncConnect(s, a.max).flow == Done(NO_ERROR)
    ensures var c, h := EntitySpec.AsyncConnect(s, a.max), HandleError(a, s, DISCONNECTED);
      && (Ready(a, h.st.c.log) <==> c.st.c.connected && Answered(a.kind, c.st.c.script).Some?)
      && (h.flow == Done(true) <==> c.st.c.connected && Configured(a.kind, c.st.c.script).Some?)
  {
    var c := EntitySpec.AsyncConnect(s, a.max);
    ConnectQuiet(s.c, a.max);
    JustConnectedIsBlank(a.config, c.st.c.log);
    ConfiguresExactly(a, c.st);
    ConfigureExactly(a, c.st);
  }

  // A retry loop that succeeds ends with a connect that does.
  lemma {:induction false} SuccessfulConnect(
    s: EntityState, max: int, attempt: nat, error: int, outcome: EntitySpec.Run<int>)
    returns (t: EntityState)
    requires Leads(s, max, attempt, error, outcome) && attempt <= INIT_RETRY_ATTEMPTS
    requires outcome.flow == Done(NO_ERROR) && (error != NO_ERROR || attempt == 0)
    ensures outcome == EntitySpec.AsyncConnect(t, max)
    decreases INIT_RETRY_ATTEMPTS - attempt
  {
    if attempt == INIT_RETRY_ATTEMPTS {
      LeadsEnd(s, max, error, outcome);
      assert false;
    }
    var c := EntitySpec.AsyncConnect(s, max);
    LeadsOn(s, max, attempt, error, outcome, c, AsyncWait(c.st));
    if c.flow == Done(NO_ERROR) {
      t := s;
    } else {
      t := SuccessfulConnect(AsyncWait(c.st).st, max, attempt + 1, c.flow.value, outcome);
    }
  }

  // And at the start.
  lemma InitConfigures(a: Setup, s: EntityState)
    requires InitConnect(s, a.max, 0, NO_ERROR).flow == Done(NO_ERROR)
    ensures var c, r := InitConnect(s, a.max, 0, NO_ERROR), AsyncInit(a, s);
      && (Ready(a, r.st.c.log) <==> c.st.c.connected && Answered(a.kind, c.st.c.script).Some?)
      && (r.flow == Done(true) <==> c.st.c.connected && Configured(a.kind, c.st.c.script).Some?)
  {
    var c := InitConnect(s, a.max, 0, NO_ERROR);
    var t := SuccessfulConnect(s, a.max, 0, NO_ERROR, c);
    ConnectQuiet(t.c, a.max);
    JustConnectedIsBlank(a.config, c.st.c.log);
    ConfiguresExactly(a, c.st);
    ConfigureExactly(a, c.st);
  }

  // A run in which it is not: the connection is lost while the PUBACK of the config is awaited,
  // and the client reconnects at the first attempt. This is reported as a bad config, and the
  // new connection, which is in use from now on, stays without one.
  lemma ReconnectionSwallowedRun(a: Setup, s: EntityState)
    requires a.max == 1 && s.c.connected
    requires s.c.script ==
      Ev(IdGranted(1), Ev(SendDone(0), Ev(RecvFailed(5), Ev(TimerFired(0), Ev(Resolved(0),
        Ev(TcpConnected(0), Ev(SendDone(0), Ev(Received(ConnAck(0)), End))))))))
    ensures var r := HandleError(a, s, RECONNECTED);
      r.flow == Done(false) && r.st.c.connected && JustConnected(r.st.c.log) && !Ready(a, r.st.c.log)
  {
    var p := AsyncPublish(s, DiscoveryTopic, a.config, QOS);
    assert p.flow == Done(NO_ERROR);
    var lost, attempts := C.Recv(p.st.c).st, [Succeeds(ConnAck(0))];
    assert attempts[1..] == [];
    assert lost.script == Scripted(attempts, End);
    RecvErrorVerdict(lost, 5, 1, attempts, End);
    assert attempts[0].Succeeds?;
    ReconnectionSwallowed(a, s);
  }

  // Nor is it when the connection is lost while the SUBACK is awaited: the reconnection is then
  // reported as a failed subscription.
  lemma ReconnectionSwallowedLater(a: Setup, s: EntityState)
    requires a.kind.Subscribes() && AsyncSetConfig(s, a.config, QOS, a.max).flow == Done(NO_ERROR)
    requires var p := C.AsyncSubscribe(AsyncSetConfig(s, a.config, QOS, a.max).st.c, [CommandTopic]);
      && p.flow.Done? && p.flow.value.Value?
      && C.AsyncReceive(p.st, a.max).flow == Done(Unexpected(RECONNECTED))
    ensures var r := HandleError(a, s, RECONNECTED);
      r.flow == Done(false) && r.st.c.connected && JustConnected(r.st.c.log) && !Ready(a, r.st.c.log)
  {
    var p := C.AsyncSubscribe(AsyncSetConfig(s, a.config, QOS, a.max).st.c, [CommandTopic]);
    ReceiveQuiet(p.st, a.max);
    JustConnectedIsBlank(a.config, C.AsyncReceive(p.st, a.max).st.log);
  }

  lemma ReconnectionSwallowedLaterRun(a: Setup, s: EntityState)
    requires a.max == 1 && a.kind.Subscribes() && s.c.connected
    requires s.c.script ==
      Ev(IdGranted(1), Ev(SendDone(0), Ev(Received(PubAck(1)), Ev(IdGranted(2), Ev(SendDone(0), Ev(RecvFailed(5),
        Ev(TimerFired(0), Ev(Resolved(0), Ev(TcpConnected(0), Ev(SendDone(0), Ev(Received(ConnAck(0)), End)))))))))))
    ensures var r := HandleError(a, s, RECONNECTED);
      r.flow == Done(false) && r.st.c.connected && JustConnected(r.st.c.log) && !Ready(a, r.st.c.log)
  {
    SetConfigExactly(s, a.config, a.max);
    var r := AsyncSetConfig(s, a.config, QOS, a.max);
    var p := C.AsyncSubscribe(r.st.c, [CommandTopic]);
    assert p.flow == Done(Value(2));
    var lost, attempts := C.Recv(p.st).st, [Succeeds(ConnAck(0))];
    assert attempts[1..] == [];
    assert lost.script == Scripted(attempts, End);
    RecvErrorVerdict(lost, 5, 1, attempts, End);
    assert attempts[0].Succeeds?;
    ReconnectionSwallowedLater(a, s);
  }
}
