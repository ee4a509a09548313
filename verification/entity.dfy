// Entity, with its four subclasses told apart by a kind: each operation does what EntitySpec says.
module Entities {
  import opened Wrappers
  import opened MqttWire
  import opened MqttError
  import opened Client
  import Spec = EntitySpec

  class Entity {
    const kind: Spec.Kind
    const client: AsyncMqttClient
    var pending: set<nat>

    ghost function State(): (s: Spec.EntityState)
      reads this, client
    {
      Spec.EntityState(client.State(), pending)
    }

    constructor (kind: Spec.Kind, client: AsyncMqttClient)
      ensures this.kind == kind && this.client == client
      ensures State() == Spec.EntityState(client.State(), {})
    {
      this.kind := kind;
      this.client := client;
      this.pending := {};
    }

    method AsyncConnect() returns (r: Flow<int>)
      modifies this, client
      ensures Step(r, State()) == Spec.AsyncConnect(old(State()), client.maxAttempts)
    {
      r := client.AsyncConnect();
    }

    method AsyncReceive() returns (r: Flow<Expected<Packet>>)
      modifies this, client
      ensures Step(r, State()) == Spec.AsyncReceive(old(State()), client.maxAttempts)
    {
      while true
        invariant Spec.AsyncReceive(State(), client.maxAttempts) == Spec.AsyncReceive(old(State()), client.maxAttempts)
        decreases client.script
      {
        var packet :- client.AsyncReceive();
        match packet {
          case Unexpected(code) => return Done(Unexpected(code));
          case Value(p) =>
            if p.Message? {
              return Done(Value(p));
            } else if p.SubAck? {
              if Spec.AnyFailure(p) { return Done(Unexpected(SUBSCRIPTION_FAILURE)); }
            } else {
              client.log := Then(client.log, Taken(p.id));
              assert p.id !in pending ==> pending - {p.id} == pending;
              if p.id in pending {
                pending := pending - {p.id};
              }
            }
        }
      }
    }

    method AsyncPublish(topic: Topic, payload: string, qos: nat) returns (r: Flow<int>)
      modifies this, client
      ensures Step(r, State()) == Spec.AsyncPublish(old(State()), topic, payload, qos)
    {
      var id :- client.AsyncPublish(topic, payload, qos);
      if id.Unexpected? { return Done(id.error); }
      if qos > 0 { pending := pending + {id.value}; }
      return Done(NO_ERROR);
    }

    method AsyncSetConfig(config: string, qos: nat) returns (r: Flow<int>)
      modifies this, client
      ensures Step(r, State()) == Spec.AsyncSetConfig(old(State()), config, qos, client.maxAttempts)
    {
      var err :- AsyncPublish(DiscoveryTopic, config, qos);
      if err != NO_ERROR { return Done(INVALID_CONFIG); }
      if qos > 0 {
        var packet :- client.AsyncReceive();
        if packet.Unexpected? { return Done(INVALID_CONFIG); }
        if !packet.value.PubAck? { return Done(INVALID_CONFIG); }
      }
      return Done(NO_ERROR);
    }

    method AsyncSubscribe(topics: seq<Topic>) returns (r: Flow<int>)
      modifies this, client
      ensures Step(r, State()) == Spec.AsyncSubscribe(old(State()), topics, client.maxAttempts)
    {
      var id :- client.AsyncSubscribe(topics);
      if id.Unexpected? { return Done(SUBSCRIPTION_FAILURE); }
      var packet :- client.AsyncReceive();
      if packet.Unexpected? { return Done(SUBSCRIPTION_FAILURE); }
      if !packet.value.SubAck? { return Done(SUBSCRIPTION_FAILURE); }
      if Spec.AnyFailure(packet.value) { return Done(SUBSCRIPTION_FAILURE); }
      return Done(NO_ERROR);
    }

    method AsyncConfigure(config: string, qos: nat) returns (r: Flow<int>)
      modifies this, client
      ensures Step(r, State()) == Spec.AsyncConfigure(kind, old(State()), config, qos, client.maxAttempts)
    {
      var err :- AsyncSetConfig(config, qos);
      if err != NO_ERROR { return Done(err); }
      if kind.Subscribes() {
        err :- AsyncSubscribe([CommandTopic]);
        if err != NO_ERROR { return Done(err); }
      }
      return Done(NO_ERROR);
    }

    method AsyncSetAvailability(online: bool, qos: nat) returns (r: Flow<int>)
      modifies this, client
      ensures Step(r, State()) == Spec.AsyncSetAvailability(old(State()), online, qos)
    {
      r := AsyncPublish(AvailabilityTopic, if online then "online" else "offline", qos);
    }

    method AsyncSetState(payload: Option<string>, qos: nat) returns (r: Flow<int>)
      modifies this, client
      ensures Step(r, State()) == Spec.AsyncSetState(old(State()), payload, qos)
    {
      if payload.None? { return Done(NO_ERROR); }
      r := AsyncPublish(StateTopic, payload.value, qos);
    }

    method AsyncReceiveCommand() returns (r: Flow<Expected<Spec.Command>>)
      modifies this, client
      ensures Step(r, State()) == Spec.AsyncReceiveCommand(kind, old(State()), client.maxAttempts)
    {
      var packet :- AsyncReceive();
      if packet.Unexpected? { return Done(Unexpected(packet.error)); }
      return Spec.Interpret(kind, packet.value);
    }
  }
}
