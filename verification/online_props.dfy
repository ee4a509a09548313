// Safety of the adapter: "online" is announced only on a connection whose configuration the
// broker has confirmed, in every run.
module OnlineProps {
  import opened MqttWire
  import opened MqttError
  import opened EntitySpec
  import opened AdapterSpec
  import opened QuietProps
  import C = ClientSpec

  // ---- What has happened on the connection in use, that is since the last connect ----

  predicate NewConnection(e: Entry) { e.ConnectCall? || e.TcpUp? }

  predicate ConfigSent(config: string, log: Log) {
    log.Then? && !NewConnection(log.last) &&
    (ConfigSent(config, log.past) ||
     (log.last.Sent? && log.last.out.Publish? && log.last.out.topic == DiscoveryTopic
      && log.last.out.payload == config && log.last.out.qos > 0))
  }

  predicate ConfigConfirmed(config: string, log: Log) {
    log.Then? && !NewConnection(log.last) &&
    (ConfigConfirmed(config, log.past) || (ConfigSent(config, log.past) && log.last.Got? && log.last.p.PubAck?))
  }

  predicate SubscriptionSent(config: string, log: Log) {
    log.Then? && !NewConnection(log.last) &&
    (SubscriptionSent(config, log.past) ||
     (ConfigConfirmed(config, log.past) && log.last.Sent? && log.last.out.Subscribe?
      && log.last.out.topics == [CommandTopic]))
  }

  predicate SubscriptionGranted(config: string, log: Log) {
    log.Then? && !NewConnection(log.last) &&
    (SubscriptionGranted(config, log.past) ||
     (SubscriptionSent(config, log.past) && log.last.Got? && log.last.p.SubAck? && !AnyFailure(log.last.p)))
  }

  predicate Ready(a: Setup, log: Log) {
    if a.kind.Subscribes() then SubscriptionGranted(a.config, log) else ConfigConfirmed(a.config, log)
  }

  predicate SaysOnline(e: Entry) {
    e.Sent? && e.out.Publish? && e.out.topic == AvailabilityTopic && e.out.payload == "online"
  }

  // Every "online" ever sent was sent on a connection made ready before.
  ghost predicate OnlineOnlyWhenReady(a: Setup, log: Log) {
    log.Start? || (OnlineOnlyWhenReady(a, log.past) && (SaysOnline(log.last) ==> Ready(a, log.past)))
  }

  // ---- Steps that send nothing, and steps that stay on the connection ----

  // b is a, followed by entries that are neither "online" nor, if `still`, a new connection.
  ghost predicate Calm(a: Log, b: Log, still: bool) {
    a == b ||
    (b.Then? && !SaysOnline(b.last) && (still ==> !NewConnection(b.last)) && Calm(a, b.past, still))
  }

  lemma {:induction false} CalmTrans(a: Log, b: Log, c: Log, still: bool)
    requires Calm(a, b, still) && Calm(b, c, still)
    ensures Calm(a, c, still)
  {
    if b != c { CalmTrans(a, b, c.past, still); }
  }

  lemma {:induction false} QuietIsCalm(a: Log, b: Log)
    requires Quiet(a, b)
    ensures Calm(a, b, false)
  {
    if a != b { QuietIsCalm(a, b.past); }
  }

  lemma {:induction false} CalmKeepsSafe(a: Setup, x: Log, y: Log, still: bool)
    requires Calm(x, y, still) && OnlineOnlyWhenReady(a, x)
    ensures OnlineOnlyWhenReady(a, y)
  {
    if x != y { CalmKeepsSafe(a, x, y.past, still); }
  }

  lemma {:induction false} CalmKeepsReady(config: string, a: Log, b: Log)
    requires Calm(a, b, true)
    ensures ConfigSent(config, a) ==> ConfigSent(config, b)
    ensures ConfigConfirmed(config, a) ==> ConfigConfirmed(config, b)
    ensures SubscriptionSent(config, a) ==> SubscriptionSent(config, b)
    ensures SubscriptionGranted(config, a) ==> SubscriptionGranted(config, b)
  {
    if a != b { CalmKeepsReady(config, a, b.past); }
  }

  // A receive that yields a packet stays on the connection.
  lemma {:induction false} DeliveryIsStill(s: C.ClientState, max: int)
    requires C.AsyncReceive(s, max).flow.Done? && C.AsyncReceive(s, max).flow.value.Value?
    ensures var r := C.AsyncReceive(s, max);
      r.st.log.Then? && Calm(s.log, r.st.log.past, true) && r.st.log.last == Got(r.flow.value.value)
    decreases s.script
  {
    var e := C.Recv(s);
    var p := e.flow.value.value;
    if !C.Delivered(p) {
      DeliveryIsStill(e.st, max);
      assert Calm(s.log, e.st.log, true);
      CalmTrans(s.log, e.st.log, C.ReceiveLoop(e.st, max).st.log.past, true);
    }
  }

  lemma ClientReceiveCalm(s: EntityState, max: int)
    ensures Calm(s.c.log, Lift(s, C.AsyncReceive(s.c, max)).st.c.log, false)
  {
    ReceiveQuiet(s.c, max);
    QuietIsCalm(s.c.log, C.AsyncReceive(s.c, max).st.log);
  }

  lemma ConnectCalm(s: EntityState, max: int)
    ensures Calm(s.c.log, EntitySpec.AsyncConnect(s, max).st.c.log, false)
  {
    ConnectQuiet(s.c, max);
    QuietIsCalm(s.c.log, C.AsyncConnect(s.c, max).st.log);
  }

  lemma {:induction false} ReceiveCalm(s: EntityState, max: int)
    ensures Calm(s.c.log, EntitySpec.AsyncReceive(s, max).st.c.log, false)
    decreases s.c.script
  {
    ClientReceiveCalm(s, max);
    var r := Lift(s, C.AsyncReceive(s.c, max));
    if r.flow.Done? && r.flow.value.Value? {
      var p := r.flow.value.value;
      if p.SubAck? && !AnyFailure(p) {
        ReceiveCalm(r.st, max);
        CalmTrans(s.c.log, r.st.c.log, EntitySpec.AsyncReceive(r.st, max).st.c.log, false);
      } else if p.PubAck? {
        var t := Settle(r.st, p.id);
        assert Calm(r.st.c.log, t.c.log, false);
        CalmTrans(s.c.log, r.st.c.log, t.c.log, false);
        ReceiveCalm(t, max);
        CalmTrans(s.c.log, t.c.log, EntitySpec.AsyncReceive(t, max).st.c.log, false);
      }
    }
  }

  // ---- Configuration ----

  lemma SetConfigReady(s: EntityState, config: string, max: int)
    ensures var r := AsyncSetConfig(s, config, QOS, max);
      && Calm(s.c.log, r.st.c.log, false)
      && (r.flow == Done(NO_ERROR) ==> ConfigConfirmed(config, r.st.c.log))
  {
    var p := AsyncPublish(s, DiscoveryTopic, config, QOS);
    assert Calm(s.c.log, p.st.c.log, false);
    if p.flow == Done(NO_ERROR) {
      assert ConfigSent(config, p.st.c.log);
      ClientReceiveCalm(p.st, max);
      var e := C.AsyncReceive(p.st.c, max);
      CalmTrans(s.c.log, p.st.c.log, e.st.log, false);
      if e.flow.Done? && e.flow.value.Value? {
        DeliveryIsStill(p.st.c, max);
        CalmKeepsReady(config, p.st.c.log, e.st.log.past);
      }
    }
  }

  lemma SubscribeReady(config: string, s: EntityState, max: int)
    requires ConfigConfirmed(config, s.c.log)
    ensures var r := AsyncSubscribe(s, [CommandTopic], max);
      && Calm(s.c.log, r.st.c.log, false)
      && (r.flow == Done(NO_ERROR) ==> SubscriptionGranted(config, r.st.c.log))
  {
    var p := C.AsyncSubscribe(s.c, [CommandTopic]);
    assert Calm(s.c.log, p.st.log, false);
    if p.flow.Done? && p.flow.value.Value? {
      assert SubscriptionSent(config, p.st.log);
      var s1 := s.(c := p.st);
      ClientReceiveCalm(s1, max);
      var e := C.AsyncReceive(p.st, max);
      CalmTrans(s.c.log, p.st.log, e.st.log, false);
      if e.flow.Done? && e.flow.value.Value? {
        DeliveryIsStill(p.st, max);
        CalmKeepsReady(config, p.st.log, e.st.log.past);
      }
    }
  }

  lemma EntityConfigureReady(a: Setup, s: EntityState)
    ensures var r := AsyncConfigure(a.kind, s, a.config, QOS, a.max);
      && Calm(s.c.log, r.st.c.log, false)
      && (r.flow == Done(NO_ERROR) ==> Ready(a, r.st.c.log))
  {
    SetConfigReady(s, a.config, a.max);
    var r := AsyncSetConfig(s, a.config, QOS, a.max);
    if r.flow == Done(NO_ERROR) && a.kind.Subscribes() {
      SubscribeReady(a.config, r.st, a.max);
      CalmTrans(s.c.log, r.st.c.log, AsyncSubscribe(r.st, [CommandTopic], a.max).st.c.log, false);
    }
  }

  // Entries of a publish: the packet sent, or its loss.
  lemma PublishOnline(a: Setup, s: EntityState, topic: Topic, payload: string)
    requires OnlineOnlyWhenReady(a, s.c.log) && Ready(a, s.c.log)
    ensures var t := AsyncPublish(s, topic, payload, QOS).st;
      OnlineOnlyWhenReady(a, t.c.log) && Ready(a, t.c.log)
  {
  }

  lemma AnnounceSafe(a: Setup, s: EntityState)
    requires OnlineOnlyWhenReady(a, s.c.log) && Ready(a, s.c.log)
    ensures var t := Announce(a, s).st;
      OnlineOnlyWhenReady(a, t.c.log) && Ready(a, t.c.log)
  {
    var w := AsyncWait(s);
    assert OnlineOnlyWhenReady(a, w.st.c.log) && Ready(a, w.st.c.log);
    if w.flow.Done? {
      PublishOnline(a, w.st, AvailabilityTopic, "online");
      var v := AsyncSetAvailability(w.st, true, QOS);
      if v.flow.Done? && !a.kind.Button? {
        var d := Lift(v.st, C.ReadDevice(v.st.c));
        assert OnlineOnlyWhenReady(a, d.st.c.log) && Ready(a, d.st.c.log);
        if d.flow.Done? && d.flow.value.Some? {
          PublishOnline(a, d.st, StateTopic, d.flow.value.value);
        }
      }
    }
  }

  // Configuring keeps the rule and, when it succeeds, leaves the connection in use ready.
  lemma ConfigureSafe(a: Setup, s: EntityState)
    requires OnlineOnlyWhenReady(a, s.c.log)
    ensures var r := Configure(a, s);
      OnlineOnlyWhenReady(a, r.st.c.log) && (r.flow == Done(true) ==> Ready(a, r.st.c.log))
  {
    EntityConfigureReady(a, s);
    var r := AsyncConfigure(a.kind, s, a.config, QOS, a.max);
    CalmKeepsSafe(a, s.c.log, r.st.c.log, false);
    if r.flow == Done(NO_ERROR) { AnnounceSafe(a, r.st); }
  }

  // ---- Whole runs ----

  lemma {:induction false} InitConnectSafe(a: Setup, s: EntityState, attempt: nat, error: int)
    requires OnlineOnlyWhenReady(a, s.c.log)
    ensures OnlineOnlyWhenReady(a, InitConnect(s, a.max, attempt, error).st.c.log)
    decreases s.c.script
  {
    if attempt < INIT_RETRY_ATTEMPTS {
      ConnectCalm(s, a.max);
      var r := EntitySpec.AsyncConnect(s, a.max);
      CalmKeepsSafe(a, s.c.log, r.st.c.log, false);
      if r.flow.Done? && r.flow.value != NO_ERROR {
        var w := AsyncWait(r.st);
        assert OnlineOnlyWhenReady(a, w.st.c.log);
        if w.flow.Done? { InitConnectSafe(a, w.st, attempt + 1, r.flow.value); }
      }
    }
  }

  // An initialisation that reports success has made its connection ready.
  lemma InitReady(a: Setup, s: EntityState)
    requires OnlineOnlyWhenReady(a, s.c.log)
    ensures var r := AsyncInit(a, s);
      OnlineOnlyWhenReady(a, r.st.c.log) && (r.flow == Done(true) ==> Ready(a, r.st.c.log))
  {
    InitConnectSafe(a, s, 0, NO_ERROR);
    var r := InitConnect(s, a.max, 0, NO_ERROR);
    if r.flow == Done(NO_ERROR) { ConfigureSafe(a, r.st); }
  }

  // An error that is reported as recovered from leaves the connection in use ready.
  lemma RecoveryReady(a: Setup, s: EntityState, code: int)
    requires OnlineOnlyWhenReady(a, s.c.log)
    ensures var r := HandleError(a, s, code);
      OnlineOnlyWhenReady(a, r.st.c.log) && (r.flow == Done(true) ==> Ready(a, r.st.c.log))
  {
    if code == DISCONNECTED {
      ConnectCalm(s, a.max);
      var r := EntitySpec.AsyncConnect(s, a.max);
      CalmKeepsSafe(a, s.c.log, r.st.c.log, false);
      if r.flow == Done(NO_ERROR) { ConfigureSafe(a, r.st); }
    } else if code == RECONNECTED {
      ConfigureSafe(a, s);
    }
  }

  lemma {:induction false} RunSafe(a: Setup, s: EntityState)
    requires OnlineOnlyWhenReady(a, s.c.log)
    ensures OnlineOnlyWhenReady(a, AsyncRun(a, s).st.c.log)
    decreases s.c.script
  {
    ReceiveCalm(s, a.max);
    var e := AsyncReceiveCommand(a.kind, s, a.max);
    CalmKeepsSafe(a, s.c.log, e.st.c.log, false);
    if e.flow.Done? {
      if e.flow.value.Value? {
        RunSafe(a, e.st);
      } else {
        RecoveryReady(a, e.st, e.flow.value.error);
        var h := HandleError(a, e.st, e.flow.value.error);
        if h.flow.Done? { RunSafe(a, h.st); }
      }
    }
  }

  // Whatever the network does, for as long as it does it.
  lemma OnlineImpliesReady(a: Setup, category: nat, script: Script)
    ensures OnlineOnlyWhenReady(a, Life(a, category, script).c.log)
  {
    InitReady(a, Fresh(category, script));
    var init := AsyncInit(a, Fresh(category, script));
    if init.flow == Done(true) { RunSafe(a, init.st); }
  }

  // The converse does not hold: a reconnection that happens while the adapter waits for the
  // PUBACK of its config is reported as a bad config, and the new connection stays without one.
  lemma ReconnectionSwallowed(a: Setup, s: EntityState)
    requires var p := AsyncPublish(s, DiscoveryTopic, a.config, QOS);
      p.flow == Done(NO_ERROR) && C.AsyncReceive(p.st.c, a.max).flow == Done(Unexpected(RECONNECTED))
    ensures var r := HandleError(a, s, RECONNECTED);
      r.flow == Done(false) && r.st.c.connected && JustConnected(r.st.c.log) && !Ready(a, r.st.c.log)
  {
    var p := AsyncPublish(s, DiscoveryTopic, a.config, QOS);
    ReceiveQuiet(p.st.c, a.max);
    var log := C.AsyncReceive(p.st.c, a.max).st.log;
    var up := log.past.past;
    assert !ConfigSent(a.config, up) && !ConfigConfirmed(a.config, up);
    assert !SubscriptionSent(a.config, up) && !SubscriptionGranted(a.config, up);
    assert !ConfigSent(a.config, log.past) && !ConfigConfirmed(a.config, log.past);
    assert !SubscriptionSent(a.config, log.past) && !SubscriptionGranted(a.config, log.past);
  }
}
