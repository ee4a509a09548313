// The pending set over the whole life of an adapter.
module LifeProps {
  import opened MqttWire
  import opened MqttError
  import opened EntitySpec
  import opened AdapterSpec
  import opened EntityProps
  import C = ClientSpec

  lemma WaitTracks(s: EntityState)
    requires Tracks(s)
    ensures Tracks(AsyncWait(s).st)
  {
  }

  lemma SyncTracks(a: Setup, s: EntityState)
    requires Tracks(s)
    ensures Tracks(AsyncSyncState(a, s).st)
  {
    if !a.kind.Button? {
      var d := Lift(s, C.ReadDevice(s.c));
      assert Tracks(d.st);
      if d.flow.Done? && d.flow.value.Some? { PublishTracks(d.st, StateTopic, d.flow.value.value, QOS); }
    }
  }

  lemma AnnounceTracks(a: Setup, s: EntityState)
    requires Tracks(s)
    ensures Tracks(Announce(a, s).st)
  {
    WaitTracks(s);
    var w := AsyncWait(s);
    if w.flow.Done? {
      PublishTracks(w.st, AvailabilityTopic, "online", QOS);
      var v := AsyncSetAvailability(w.st, true, QOS);
      if v.flow.Done? { SyncTracks(a, v.st); }
    }
  }

  lemma AdapterConfigureTracks(a: Setup, s: EntityState)
    requires Tracks(s)
    ensures Tracks(Configure(a, s).st)
  {
    ConfigureTracks(a.kind, s, a.config, QOS, a.max);
    var r := AsyncConfigure(a.kind, s, a.config, QOS, a.max);
    if r.flow == Done(NO_ERROR) { AnnounceTracks(a, r.st); }
  }

  lemma TurnTracks(s: EntityState, max: int)
    requires Tracks(s)
    ensures var c := EntitySpec.AsyncConnect(s, max);
      Tracks(c.st) && Tracks(AsyncWait(c.st).st)
  {
    ConnectTracks(s, max);
    WaitTracks(EntitySpec.AsyncConnect(s, max).st);
  }

  lemma {:induction false} InitConnectTracks(
    s: EntityState, max: int, attempt: nat, error: int, outcome: EntitySpec.Run<int>)
    requires Leads(s, max, attempt, error, outcome) && attempt <= INIT_RETRY_ATTEMPTS && Tracks(s)
    ensures Tracks(outcome.st)
    decreases INIT_RETRY_ATTEMPTS - attempt
  {
    if attempt == INIT_RETRY_ATTEMPTS {
      LeadsEnd(s, max, error, outcome);
    } else {
      var c := EntitySpec.AsyncConnect(s, max);
      var w := AsyncWait(c.st);
      TurnTracks(s, max);
      LeadsOn(s, max, attempt, error, outcome, c, w);
      if c.flow.Done? && c.flow.value != NO_ERROR && w.flow.Done? {
        InitConnectTracks(w.st, max, attempt + 1, c.flow.value, outcome);
      }
    }
  }

  lemma HandleErrorTracks(a: Setup, s: EntityState, code: int)
    requires Tracks(s)
    ensures Tracks(HandleError(a, s, code).st)
  {
    if code == DISCONNECTED {
      ConnectTracks(s, a.max);
      var c := EntitySpec.AsyncConnect(s, a.max);
      if c.flow == Done(NO_ERROR) { AdapterConfigureTracks(a, c.st); }
    } else if code == RECONNECTED {
      AdapterConfigureTracks(a, s);
    }
  }

  lemma {:induction false} RunTracks(a: Setup, s: EntityState)
    requires Tracks(s)
    ensures Tracks(AsyncRun(a, s).st)
    decreases s.c.script
  {
    ReceiveTracks(s, a.max);
    var e := AsyncReceiveCommand(a.kind, s, a.max);
    if e.flow.Done? {
      if e.flow.value.Value? {
        RunTracks(a, e.st);
      } else {
        HandleErrorTracks(a, e.st, e.flow.value.error);
        var h := HandleError(a, e.st, e.flow.value.error);
        if h.flow.Done? { RunTracks(a, h.st); }
      }
    }
  }

  // In every life of an adapter, and wherever it stands still, the pending ids are exactly the
  // unsettled ones, none that is truly unacknowledged is missing, there are never more than 65535,
  // and they are the unacknowledged ones if and only if no PUBACK was overlooked.
  lemma PendingThroughLife(a: Setup, category: nat, script: Script)
    ensures var t := Life(a, category, script);
      && t.pending == Unsettled(t.c.log)
      && Unacknowledged(t.c.log) <= t.pending
      && |t.pending| <= MAX_PACKET_ID
      && (t.pending == Unacknowledged(t.c.log) <==> NoneOverlooked(t.c.log))
  {
    var s := Fresh(category, script);
    var init := AsyncInit(a, s);
    var c := InitConnect(s, a.max, 0, NO_ERROR);
    InitConnectTracks(s, a.max, 0, NO_ERROR, c);
    if c.flow == Done(NO_ERROR) { AdapterConfigureTracks(a, c.st); }
    if init.flow == Done(true) { RunTracks(a, init.st); }
    var t := Life(a, category, script);
    IdsAreFew(t.pending, MAX_PACKET_ID);
    PendingDecided(t.c.log);
  }
}
