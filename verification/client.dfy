// AsyncMqttClient: the client object, each operation proved to do what ClientSpec says.
// The endpoint's next events and the log of the run are fields of the client that owns it.
module Client {
  import opened Wrappers
  import opened MqttWire
  import opened MqttError
  import Spec = ClientSpec

  class AsyncMqttClient {
    const maxAttempts: int
    const category: nat
    var connected: bool
    var attempt: int
    var script: Script
    ghost var log: Log

    ghost function State(): (s: Spec.ClientState)
      reads this
    {
      Spec.ClientState(connected, attempt, script, log, category)
    }

    constructor (maxAttempts: int, category: nat, script: Script)
      ensures this.maxAttempts == maxAttempts
      ensures State() == Spec.ClientState(false, 0, script, Start, category)
    {
      this.maxAttempts := maxAttempts;
      this.category := category;
      this.connected := false;
      this.attempt := 0;
      this.script := script;
      this.log := Start;
    }

    method Resolve() returns (r: Flow<int>)
      modifies this
      ensures Step(r, State()) == Spec.Resolve(old(State()))
    {
      if !script.Ev? || !script.head.Resolved? { return Pending; }
      r := Done(script.head.ec);
      script := script.tail;
    }

    method TcpConnect() returns (r: Flow<int>)
      modifies this
      ensures Step(r, State()) == Spec.TcpConnect(old(State()))
    {
      if !script.Ev? || !script.head.TcpConnected? { return Pending; }
      r := Done(script.head.ec);
      if script.head.ec == 0 { log := Then(log, TcpUp); }
      script := script.tail;
    }

    method Send(p: Outgoing) returns (r: Flow<int>)
      modifies this
      ensures Step(r, State()) == Spec.Send(old(State()), p)
    {
      if !script.Ev? || !script.head.SendDone? { return Pending; }
      var ec := script.head.ec;
      log := Then(log, if ec == 0 then Sent(p) else SendLost(ec));
      script := script.tail;
      r := Done(ec);
    }

    method Recv() returns (r: Flow<Expected<Packet>>)
      modifies this
      ensures Step(r, State()) == Spec.Recv(old(State()))
    {
      if script.Ev? && script.head.Received? {
        log := Then(log, Got(script.head.p));
        r := Done(Value(script.head.p));
      } else if script.Ev? && script.head.RecvFailed? {
        log := Then(log, RecvLost(script.head.ec));
        r := Done(Unexpected(script.head.ec));
      } else {
        return Pending;
      }
      script := script.tail;
    }

    method Wait() returns (r: Flow<int>)
      modifies this
      ensures Step(r, State()) == Spec.Wait(old(State()))
    {
      if !script.Ev? || !script.head.TimerFired? { return Pending; }
      r := Done(script.head.ec);
      if script.head.ec != 0 { log := Then(log, TimerLost(script.head.ec)); }
      script := script.tail;
    }

    method AcquireId() returns (r: Flow<nat>)
      modifies this
      ensures Step(r, State()) == Spec.AcquireId(old(State()))
    {
      if !script.Ev? || !script.head.IdGranted? { return Pending; }
      r := Done(script.head.id);
      script := script.tail;
    }

    method ReadDevice() returns (r: Flow<Option<string>>)
      modifies this
      ensures Step(r, State()) == Spec.ReadDevice(old(State()))
    {
      if script.Ev? && script.head.DeviceFailed? {
        script := script.tail;
        log := Then(log, DeviceLost);
        return Thrown;
      }
      if !script.Ev? || !script.head.DeviceState? { return Pending; }
      r := Done(script.head.payload);
      script := script.tail;
    }

    method Dial() returns (r: Flow<int>)
      modifies this
      ensures Step(r, State()) == Spec.Dial(old(State()))
    {
      var res :- Resolve();
      if res != 0 { return Done(NO_SERVICE); }
      var con :- TcpConnect();
      if con != 0 { return MapErrorCode(con); }
      var snd :- Send(Connect);
      if snd != 0 { return MapErrorCode(snd); }
      return Done(NO_ERROR);
    }

    method AsyncConnect() returns (r: Flow<int>)
      modifies this
      ensures Step(r, State()) == Spec.AsyncConnect(old(State()), maxAttempts)
      decreases script, 3
    {
      log := Then(log, ConnectCall);
      var err :- Dial();
      if err != NO_ERROR { return Done(err); }
      var ack :- RecvConnAck();
      if ack != NO_ERROR { return MapLibraryCode(ack, category); }
      attempt := 0;
      return Done(NO_ERROR);
    }

    method RecvConnAck() returns (r: Flow<int>)
      modifies this
      ensures Step(r, State()) == Spec.RecvConnAck(old(State()), maxAttempts)
      decreases script, 2
    {
      var e :- Recv();
      match e {
        case Value(p) =>
          if p.ConnAck? { connected := true; }
          return Done(NO_ERROR);
        case Unexpected(ec) =>
          log := Then(log, ConnAckLost);
          r := HandleRecvError(ec);
      }
    }

    method HandleRecvError(ec: int) returns (r: Flow<int>)
      modifies this
      ensures Step(r, State()) == Spec.HandleRecvError(old(State()), ec, maxAttempts)
      decreases script, 2
    {
      if connected {
        var ok :- TryReconnect();
        return Done(if ok then RECONNECTED else DISCONNECTED);
      } else {
        return MapErrorCode(ec);
      }
    }

    method TryReconnect() returns (r: Flow<bool>)
      modifies this
      ensures Step(r, State()) == Spec.TryReconnect(old(State()), maxAttempts)
      decreases script, 1
    {
      if maxAttempts == 0 { return Done(false); }
      attempt := 0;
      ghost var s, outcome := State(), Spec.ReconnectLoop(State(), maxAttempts);
      attempt := attempt + 1;
      while attempt <= maxAttempts
        invariant script == old(script) || script < old(script)
        invariant State() == s.(attempt := s.attempt + 1) && Spec.Leads(s, maxAttempts, outcome)
        decreases script
      {
        ghost var w := Spec.Wait(State());
        Spec.LeadsOn(s, maxAttempts, outcome, w, Spec.AsyncConnect(w.st, maxAttempts));
        var ec :- Wait();
        if ec != 0 { return Done(false); }
        var err :- AsyncConnect();
        if err == NO_ERROR { return Done(true); }
        s := State();
        attempt := attempt + 1;
      }
      Spec.LeadsEnd(s, maxAttempts, outcome);
      return Done(false);
    }

    method AsyncReceive() returns (r: Flow<Expected<Packet>>)
      modifies this
      ensures Step(r, State()) == Spec.AsyncReceive(old(State()), maxAttempts)
    {
      if !connected { return Done(Unexpected(DISCONNECTED)); }
      while true
        invariant Spec.ReceiveLoop(State(), maxAttempts) == Spec.ReceiveLoop(old(State()), maxAttempts)
        decreases script
      {
        var e :- Recv();
        match e {
          case Unexpected(ec) =>
            var code :- HandleRecvError(ec);
            return Done(Unexpected(code));
          case Value(p) =>
            if p.Untyped? { return Done(Unexpected(UNKNOWN_PACKET)); }
            if Spec.Delivered(p) { return Done(Value(p)); }
        }
      }
    }

    method AcquireIdFor(qos: nat) returns (r: Flow<nat>)
      modifies this
      ensures Step(r, State()) == Spec.AcquireIdFor(old(State()), qos)
    {
      if qos == 0 { return Done(0); }
      r := AcquireId();
    }

    method AsyncPublish(topic: Topic, payload: string, qos: nat) returns (r: Flow<Expected<nat>>)
      modifies this
      ensures Step(r, State()) == Spec.AsyncPublish(old(State()), topic, payload, qos)
    {
      if !connected { return Done(Unexpected(DISCONNECTED)); }
      if qos > 1 { return Done(Unexpected(QOS_NOT_SUPPORTED)); }
      var id :- AcquireIdFor(qos);
      var ec :- Send(Publish(id, topic, payload, qos));
      if ec != 0 {
        var code :- MapErrorCode(ec);
        return Done(Unexpected(code));
      }
      return Done(Value(id));
    }

    method AsyncSubscribe(topics: seq<Topic>) returns (r: Flow<Expected<nat>>)
      modifies this
      ensures Step(r, State()) == Spec.AsyncSubscribe(old(State()), topics)
    {
      if !connected { return Done(Unexpected(DISCONNECTED)); }
      var id :- AcquireId();
      var ec :- Send(Subscribe(id, topics));
      if ec != 0 {
        var code :- MapErrorCode(ec);
        return Done(Unexpected(code));
      }
      return Done(Value(id));
    }
  }
}
