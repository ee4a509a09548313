// What each operation of Entity, and of its four subclasses, computes.
module EntitySpec {
  import opened Wrappers
  import opened MqttWire
  import opened MqttError
  import C = ClientSpec

  datatype Kind = Cover | Button | Sensor | BinarySensor {
    predicate Subscribes() { Cover? || Button? }
  }

  datatype Command = Open | Close | Stop | Press

  datatype EntityState = EntityState(c: C.ClientState, pending: set<nat>)

  // An entity that has just been built, with all of the script ahead of it.
  function Fresh(category: nat, script: Script): EntityState {
    EntityState(C.ClientState(false, 0, script, Start, category), {})
  }

  type Run<+T> = Step<T, EntityState>

  function Lift<T>(s: EntityState, r: C.Run<T>): (l: Run<T>) { Step(r.flow, s.(c := r.st)) }

  ghost predicate Consumed(a: EntityState, b: EntityState) { C.Consumed(a.c, b.c) }
  ghost predicate Later(a: EntityState, b: EntityState) { C.Later(a.c, b.c) }

  predicate AnyFailure(p: Packet) requires p.SubAck? { false in p.granted }

  function Settle(s: EntityState, id: nat): EntityState {
    s.(c := s.c.Note(Taken(id)), pending := s.pending - {id})
  }

  function AsyncConnect(s: EntityState, max: int): (r: Run<int>)
    ensures Later(s, r.st)
    ensures r.flow.Done? ==> Consumed(s, r.st)
  {
    Lift(s, C.AsyncConnect(s.c, max))
  }

  // Waits for a PUBLISH, settling acknowledgements on the way.
  function AsyncReceive(s: EntityState, max: int): (r: Run<Expected<Packet>>)
    ensures Later(s, r.st)
    ensures r.flow.Done? && s.c.connected ==> Consumed(s, r.st)
    ensures r.flow.Done? && r.flow.value.Value? ==> r.flow.value.value.Message?
    decreases s.c.script
  {
    var (e, s1) :- Lift(s, C.AsyncReceive(s.c, max));
    match e
    case Unexpected(code) => Step(Done(Unexpected(code)), s1)
    case Value(p) =>
      if p.Message? then Step(Done(Value(p)), s1)
      else if p.SubAck? then
        if AnyFailure(p) then Step(Done(Unexpected(SUBSCRIPTION_FAILURE)), s1) else AsyncReceive(s1, max)
      else AsyncReceive(Settle(s1, p.id), max)
  }

  function AsyncPublish(s: EntityState, topic: Topic, payload: string, qos: nat): (r: Run<int>)
    ensures Later(s, r.st)
  {
    var (e, s1) :- Lift(s, C.AsyncPublish(s.c, topic, payload, qos));
    match e
    case Unexpected(code) => Step(Done(code), s1)
    case Value(id) => Step(Done(NO_ERROR), if qos > 0 then s1.(pending := s1.pending + {id}) else s1)
  }

  // Publishes the discovery config and, at QoS 1, takes the next packet as its PUBACK.
  function AsyncSetConfig(s: EntityState, config: string, qos: nat, max: int): (r: Run<int>)
    ensures Later(s, r.st)
  {
    var (err, s1) :- AsyncPublish(s, DiscoveryTopic, config, qos);
    if err != NO_ERROR then Step(Done(INVALID_CONFIG), s1) else
    if qos == 0 then Step(Done(NO_ERROR), s1) else
    var (e, s2) :- Lift(s1, C.AsyncReceive(s1.c, max));
    Step(Done(if e.Value? && e.value.PubAck? then NO_ERROR else INVALID_CONFIG), s2)
  }

  // Sends the subscription and takes the next packet as its SUBACK.
  function AsyncSubscribe(s: EntityState, topics: seq<Topic>, max: int): (r: Run<int>)
    ensures Later(s, r.st)
  {
    var (id, s1) :- Lift(s, C.AsyncSubscribe(s.c, topics));
    if id.Unexpected? then Step(Done(SUBSCRIPTION_FAILURE), s1) else
    var (e, s2) :- Lift(s1, C.AsyncReceive(s1.c, max));
    Step(Done(if e.Value? && e.value.SubAck? && !AnyFailure(e.value) then NO_ERROR else SUBSCRIPTION_FAILURE), s2)
  }

  function AsyncConfigure(kind: Kind, s: EntityState, config: string, qos: nat, max: int): (r: Run<int>)
    ensures Later(s, r.st)
  {
    var (err, s1) :- AsyncSetConfig(s, config, qos, max);
    if err != NO_ERROR || !kind.Subscribes() then Step(Done(err), s1) else AsyncSubscribe(s1, [CommandTopic], max)
  }

  function AsyncSetAvailability(s: EntityState, online: bool, qos: nat): (r: Run<int>)
    ensures Later(s, r.st)
  {
    AsyncPublish(s, AvailabilityTopic, if online then "online" else "offline", qos)
  }

  // None is the Undefined state, which a cover does not publish.
  function AsyncSetState(s: EntityState, payload: Option<string>, qos: nat): (r: Run<int>)
    ensures Later(s, r.st)
  {
    match payload
    case None => Step(Done(NO_ERROR), s)
    case Some(text) => AsyncPublish(s, StateTopic, text, qos)
  }

  // What a subclass makes of a PUBLISH. A cover command with an unknown payload throws; sensors
  // report "no error" for any PUBLISH.
  function Interpret(kind: Kind, p: Packet): (r: Flow<Expected<Command>>)
    requires p.Message?
  {
    match kind
    case Cover =>
      if p.topic != CommandTopic then Done(Unexpected(UNKNOWN_PACKET))
      else if p.payload == "open" then Done(Value(Open))
      else if p.payload == "close" then Done(Value(Close))
      else if p.payload == "stop" then Done(Value(Stop))
      else Thrown
    case Button => Done(if p.payload == "press" then Value(Press) else Unexpected(UNKNOWN_PACKET))
    case Sensor => Done(Unexpected(NO_ERROR))
    case BinarySensor => Done(Unexpected(NO_ERROR))
  }

  function AsyncReceiveCommand(kind: Kind, s: EntityState, max: int): (r: Run<Expected<Command>>)
    ensures Later(s, r.st)
    ensures r.flow.Done? && s.c.connected ==> Consumed(s, r.st)
    ensures !s.c.connected ==> r == Step(Done(Unexpected(DISCONNECTED)), s)
  {
    var (e, s1) :- AsyncReceive(s, max);
    match e
    case Unexpected(code) => Step(Done(Unexpected(code)), s1)
    case Value(p) => Step(Interpret(kind, p), s1)
  }
}
