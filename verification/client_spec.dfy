// What each operation of AsyncMqttClient computes, as functions of the client's state.
module ClientSpec {
  import opened Wrappers
  import opened MqttWire
  import opened MqttError

  // The category is the one of this library's error codes, see MapLibraryCode; it never changes.
  datatype ClientState = ClientState(connected: bool, attempt: int, script: Script, log: Log, category: nat) {
    function Note(e: Entry): ClientState { this.(log := Then(log, e)) }
    function Next(): ClientState requires script.Ev? { this.(script := script.tail) }
  }

  ghost predicate Consumed(a: ClientState, b: ClientState) { b.script < a.script }
  ghost predicate Later(a: ClientState, b: ClientState) { b.script == a.script || b.script < a.script }

  type Run<+T> = Step<T, ClientState>

  // ---- The endpoint and the timer ----

  function Resolve(s: ClientState): (r: Run<int>) {
    if s.script.Ev? && s.script.head.Resolved? then Step(Done(s.script.head.ec), s.Next()) else Step(Pending, s)
  }

  function TcpConnect(s: ClientState): (r: Run<int>) {
    if s.script.Ev? && s.script.head.TcpConnected? then
      var ec := s.script.head.ec;
      Step(Done(ec), if ec == 0 then s.Next().Note(TcpUp) else s.Next())
    else Step(Pending, s)
  }

  function Send(s: ClientState, p: Outgoing): (r: Run<int>) {
    if s.script.Ev? && s.script.head.SendDone? then
      var ec := s.script.head.ec;
      Step(Done(ec), s.Next().Note(if ec == 0 then Sent(p) else SendLost(ec)))
    else Step(Pending, s)
  }

  function Recv(s: ClientState): (r: Run<Expected<Packet>>) {
    if s.script.Ev? && s.script.head.Received? then
      Step(Done(Value(s.script.head.p)), s.Next().Note(Got(s.script.head.p)))
    else if s.script.Ev? && s.script.head.RecvFailed? then
      Step(Done(Unexpected(s.script.head.ec)), s.Next().Note(RecvLost(s.script.head.ec)))
    else Step(Pending, s)
  }

  function Wait(s: ClientState): (r: Run<int>) {
    if s.script.Ev? && s.script.head.TimerFired? then
      var ec := s.script.head.ec;
      Step(Done(ec), if ec == 0 then s.Next() else s.Next().Note(TimerLost(ec)))
    else Step(Pending, s)
  }

  function AcquireId(s: ClientState): (r: Run<nat>)
    ensures r.flow.Done? ==> 1 <= r.flow.value <= MAX_PACKET_ID
  {
    if s.script.Ev? && s.script.head.IdGranted? then Step(Done(s.script.head.id), s.Next()) else Step(Pending, s)
  }

  function AcquireIdFor(s: ClientState, qos: nat): (r: Run<nat>) {
    if qos == 0 then Step(Done(0), s) else AcquireId(s)
  }

  function ReadDevice(s: ClientState): (r: Run<Option<string>>) {
    if s.script.Ev? && s.script.head.DeviceState? then Step(Done(s.script.head.payload), s.Next())
    else if s.script.Ev? && s.script.head.DeviceFailed? then Step(Thrown, s.Next().Note(DeviceLost))
    else Step(Pending, s)
  }

  // ---- Connecting and reconnecting ----

  // Name resolution, the TCP connection and the CONNECT packet; 0 when all three went well.
  function Dial(s: ClientState): (r: Run<int>)
    ensures Later(s, r.st)
    ensures r.flow.Done? ==> Consumed(s, r.st)
  {
    var (res, s1) :- Resolve(s);
    if res != 0 then Step(Done(NO_SERVICE), s1) else
    var (con, s2) :- TcpConnect(s1);
    if con != 0 then Step(MapErrorCode(con), s2) else
    var (snd, s3) :- Send(s2, Connect);
    if snd != 0 then Step(MapErrorCode(snd), s3) else
    Step(Done(NO_ERROR), s3)
  }

  function AsyncConnect(s: ClientState, max: int): (r: Run<int>)
    ensures Later(s, r.st)
    ensures r.flow.Done? ==> Consumed(s, r.st)
    decreases s.script, 3
  {
    var (err, s1) :- Dial(s.Note(ConnectCall));
    if err != NO_ERROR then Step(Done(err), s1) else
    var (ack, s2) :- RecvConnAck(s1, max);
    if ack != NO_ERROR then Step(MapLibraryCode(ack, s.category), s2) else
    Step(Done(NO_ERROR), s2.(attempt := 0))
  }

  // Any CONNACK, whatever its return code, marks the client connected; any other packet is
  // accepted in its place without marking it.
  function RecvConnAck(s: ClientState, max: int): (r: Run<int>)
    ensures Later(s, r.st)
    decreases s.script, 2
  {
    var (e, s1) :- Recv(s);
    match e
    case Value(p) => Step(Done(NO_ERROR), if p.ConnAck? then s1.(connected := true) else s1)
    case Unexpected(ec) => HandleRecvError(s1.Note(ConnAckLost), ec, max)
  }

  function HandleRecvError(s: ClientState, ec: int, max: int): (r: Run<int>)
    ensures Later(s, r.st)
    ensures r.flow.Done? ==> r.flow.value != NO_ERROR
    decreases s.script, 2
  {
    if s.connected then
      var (ok, s1) :- TryReconnect(s, max);
      Step(Done(if ok then RECONNECTED else DISCONNECTED), s1)
    else
      Step(MapErrorCode(ec), s)
  }

  function TryReconnect(s: ClientState, max: int): (r: Run<bool>)
    ensures Later(s, r.st)
    decreases s.script, 1
  {
    if max == 0 then Step(Done(false), s) else ReconnectLoop(s.(attempt := 0), max)
  }

  function ReconnectLoop(s: ClientState, max: int): (r: Run<bool>)
    ensures Later(s, r.st)
    decreases s.script, 0
  {
    var s1 := s.(attempt := s.attempt + 1);
    if s1.attempt > max then Step(Done(false), s1) else
    var (ec, s2) :- Wait(s1);
    if ec != 0 then Step(Done(false), s2) else
    var (err, s3) :- AsyncConnect(s2, max);
    if err == NO_ERROR then Step(Done(true), s3) else ReconnectLoop(s3, max)
  }

  // What is left of that loop leads to this outcome.
  ghost predicate Leads(s: ClientState, max: int, outcome: Run<bool>) { ReconnectLoop(s, max) == outcome }

  // One turn of the loop: it ends with the wait or the connect, or goes on behind them.
  lemma LeadsOn(s: ClientState, max: int, outcome: Run<bool>, w: Run<int>, c: Run<int>)
    requires Leads(s, max, outcome) && s.attempt < max
    requires w == Wait(s.(attempt := s.attempt + 1)) && c == AsyncConnect(w.st, max)
    ensures if !w.flow.Done? then outcome == w.PropagateFailure()
            else if w.flow.value != 0 then outcome == Step(Done(false), w.st)
            else if !c.flow.Done? then outcome == c.PropagateFailure()
            else if c.flow.value == NO_ERROR then outcome == Step(Done(true), c.st)
            else Leads(c.st, max, outcome)
  {
  }

  lemma LeadsEnd(s: ClientState, max: int, outcome: Run<bool>)
    requires Leads(s, max, outcome) && s.attempt >= max
    ensures outcome == Step(Done(false), s.(attempt := s.attempt + 1))
  {
  }

  // ---- Receiving, publishing, subscribing ----

  // The packets the client hands on; others are skipped.
  predicate Delivered(p: Packet) { p.Message? || p.PubAck? || p.SubAck? }

  function AsyncReceive(s: ClientState, max: int): (r: Run<Expected<Packet>>)
    ensures Later(s, r.st)
    ensures r.flow.Done? && s.connected ==> Consumed(s, r.st)
    ensures r.flow.Done? && r.flow.value.Value? ==>
      Delivered(r.flow.value.value) && r.st.log.Then? && r.st.log.last == Got(r.flow.value.value)
  {
    if !s.connected then Step(Done(Unexpected(DISCONNECTED)), s) else ReceiveLoop(s, max)
  }

  function ReceiveLoop(s: ClientState, max: int): (r: Run<Expected<Packet>>)
    ensures Later(s, r.st)
    ensures r.flow.Done? ==> Consumed(s, r.st)
    ensures r.flow.Done? && r.flow.value.Value? ==>
      Delivered(r.flow.value.value) && r.st.log.Then? && r.st.log.last == Got(r.flow.value.value)
    decreases s.script
  {
    var (e, s1) :- Recv(s);
    match e
    case Unexpected(ec) =>
      var (code, s2) :- HandleRecvError(s1, ec, max);
      Step(Done(Unexpected(code)), s2)
    case Value(p) =>
      if p.Untyped? then Step(Done(Unexpected(UNKNOWN_PACKET)), s1)
      else if Delivered(p) then Step(Done(Value(p)), s1)
      else ReceiveLoop(s1, max)
  }

  function MapSendError<T>(ec: int, s: ClientState): (r: Run<Expected<T>>) {
    match MapErrorCode(ec)
    case Done(c) => Step(Done(Unexpected(c)), s)
    case Thrown => Step(Thrown, s)
    case Pending => Step(Pending, s)
  }

  function AsyncPublish(s: ClientState, topic: Topic, payload: string, qos: nat): (r: Run<Expected<nat>>)
    ensures Later(s, r.st)
  {
    if !s.connected then Step(Done(Unexpected(DISCONNECTED)), s) else
    if qos > 1 then Step(Done(Unexpected(QOS_NOT_SUPPORTED)), s) else
    var (id, s1) :- AcquireIdFor(s, qos);
    var (ec, s2) :- Send(s1, Publish(id, topic, payload, qos));
    if ec != 0 then MapSendError(ec, s2) else Step(Done(Value(id)), s2)
  }

  function AsyncSubscribe(s: ClientState, topics: seq<Topic>): (r: Run<Expected<nat>>)
    ensures Later(s, r.st)
  {
    if !s.connected then Step(Done(Unexpected(DISCONNECTED)), s) else
    var (id, s1) :- AcquireId(s);
    var (ec, s2) :- Send(s1, Subscribe(id, topics));
    if ec != 0 then MapSendError(ec, s2) else Step(Done(Value(id)), s2)
  }
}
