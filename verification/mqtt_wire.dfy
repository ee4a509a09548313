// The vocabulary shared by the three layers of the MQTT stack: how an awaited operation ends,
// what travels on the wire, what the network does, and the record kept of a run.
module MqttWire {
  import opened Wrappers

  // How a coroutine ends: with a value, by an exception, or not at all because the
  // operation it awaits never completes.
  datatype Flow<+T> = Done(value: T) | Thrown | Pending {
    predicate IsFailure() { !Done? }
    function PropagateFailure<U>(): Flow<U> requires IsFailure() { if Thrown? then Thrown else Pending }
    function Extract(): T requires Done? { value }
  }

  // The same, together with the state left behind.
  datatype Step<+T, +S> = Step(flow: Flow<T>, st: S) {
    predicate IsFailure() { !flow.Done? }
    function PropagateFailure<U>(): Step<U, S> requires IsFailure() { Step(flow.PropagateFailure(), st) }
    function Extract(): (T, S) requires !IsFailure() { (flow.value, st) }
  }

  // tl::expected<T, Error>, where an error is known by its code.
  datatype Expected<+T> = Value(value: T) | Unexpected(error: int)

  // MQTT packet identifiers: two bytes, never zero (section 2.3.1 of MQTT 3.1.1).
  const MAX_PACKET_ID := 65535
  type PacketId = n: nat | 1 <= n <= MAX_PACKET_ID witness 1

  // The topics an entity uses, each built by one formatting expression.
  datatype Topic = DiscoveryTopic | AvailabilityTopic | StateTopic | CommandTopic | Foreign(name: string)

  datatype Outgoing =
    | Connect
    | Publish(id: nat, topic: Topic, payload: string, qos: nat)
    | Subscribe(id: nat, topics: seq<Topic>)

  datatype Packet =
    | ConnAck(code: nat)
    | Message(topic: Topic, payload: string)
    | PubAck(id: nat)
    | SubAck(id: nat, granted: seq<bool>)
    | Other     // a packet of any other control type, such as PINGRESP
    | Untyped   // a packet whose control type is unknown

  // What the network and the clock do, in the order in which they do it. Code 0 is success.
  datatype Input =
    | Resolved(ec: int)
    | TcpConnected(ec: int)
    | SendDone(ec: int)
    | Received(p: Packet)
    | RecvFailed(ec: int)
    | TimerFired(ec: int)
    | IdGranted(id: PacketId)
    | DeviceState(payload: Option<string>)  // what a state read of the device yields; None is Undefined
    | DeviceFailed

  // What happened in a run.
  datatype Entry =
    | ConnectCall        // async_connect was entered
    | TcpUp              // a TCP connection was established: a new session begins
    | Sent(out: Outgoing)
    | SendLost(ec: int)
    | Got(p: Packet)
    | RecvLost(ec: int)
    | ConnAckLost        // the lost receive was the one for CONNACK
    | TimerLost(ec: int)
    | DeviceLost
    | Taken(id: nat)     // Entity::async_receive consumed the PUBACK with this id

  // What is still to happen, in order.
  datatype Script = End | Ev(head: Input, tail: Script)

  // The record of a run, growing at the end.
  datatype Log = Start | Then(past: Log, last: Entry)
}
