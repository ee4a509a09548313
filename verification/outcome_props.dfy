// What publishing, configuring and announcing come to when they do not succeed: which error is
// reported, what is thrown, what stays as it was.
module OutcomeProps {
  import opened Wrappers
  import opened MqttWire
  import opened MqttError
  import opened EntitySpec
  import opened AdapterSpec
  import opened AnswerProps
  import C = ClientSpec

  // The outcome of a publish or a subscription whose send ends with this code.
  function SendError(ec: int): Flow<int> {
    if ec == 110 then Done(1) else if ec == 101 || ec == 2 then Done(2) else if ec == 111 then Done(3) else Thrown
  }

  // A refused publish leaves everything as it was; a failed one only notes the loss; one that is
  // sent is pending if it asks for an acknowledgement.
  lemma PublishOutcome(s: EntityState, topic: Topic, payload: string, qos: nat, id: PacketId, ec: int, rest: Script)
    ensures !s.c.connected ==> AsyncPublish(s, topic, payload, qos) == Step(Done(DISCONNECTED), s)
    ensures s.c.connected && qos >= 2 ==> AsyncPublish(s, topic, payload, qos) == Step(Done(QOS_NOT_SUPPORTED), s)
    ensures s.c.connected && qos == 0 && s.c.script == Ev(SendDone(ec), rest) ==>
      AsyncPublish(s, topic, payload, qos) ==
        if ec == 0
        then Step(Done(NO_ERROR), s.(c := s.c.(
               script := rest, log := Then(s.c.log, Sent(Publish(0, topic, payload, 0))))))
        else Step(SendError(ec), s.(c := s.c.(script := rest, log := Then(s.c.log, SendLost(ec)))))
    ensures s.c.connected && qos == 1 && s.c.script == Ev(IdGranted(id), Ev(SendDone(ec), rest)) ==>
      AsyncPublish(s, topic, payload, qos) ==
        if ec == 0
        then Step(Done(NO_ERROR), EntityState(
               s.c.(script := rest, log := Then(s.c.log, Sent(Publish(id, topic, payload, 1)))), s.pending + {id}))
        else Step(SendError(ec), s.(c := s.c.(script := rest, log := Then(s.c.log, SendLost(ec)))))
  {
  }

  // Whatever goes wrong while the config is sent or answered is reported as InvalidConfig, unless
  // the system's code has no mapping. At QoS 0 no answer is waited for.
  lemma SetConfigOutcome(s: EntityState, config: string, qos: nat, max: int)
    ensures var r := AsyncSetConfig(s, config, qos, max);
      && (r.flow.Done? ==> r.flow.value == NO_ERROR || r.flow.value == INVALID_CONFIG)
      && (!s.c.connected || qos >= 2 ==> r == Step(Done(INVALID_CONFIG), s))
      && (s.c.connected && qos == 0 && s.c.script.Ev? && s.c.script.head == SendDone(0) ==>
            r.flow == Done(NO_ERROR) && r.st.c.script == s.c.script.tail)
      && (s.c.connected && qos == 1 && IdAndSend(s.c.script) && SendOutcome(s.c.script) != 0 ==>
            r.flow == if Mapped(SendOutcome(s.c.script)) then Done(INVALID_CONFIG) else Thrown)
  {
  }

  // And as SubscriptionFailure for the subscription.
  lemma SubscribeOutcome(s: EntityState, topics: seq<Topic>, max: int)
    ensures var r := AsyncSubscribe(s, topics, max);
      && (r.flow.Done? ==> r.flow.value == NO_ERROR || r.flow.value == SUBSCRIPTION_FAILURE)
      && (!s.c.connected ==> r == Step(Done(SUBSCRIPTION_FAILURE), s))
      && (s.c.connected && IdAndSend(s.c.script) && SendOutcome(s.c.script) != 0 ==>
            r.flow == if Mapped(SendOutcome(s.c.script)) then Done(SUBSCRIPTION_FAILURE) else Thrown)
  {
  }

  // An announcement throws when its timer fails, when a send fails with a code without mapping, or
  // when the state of the device cannot be read.
  lemma AnnounceThrows(a: Setup, s: EntityState, id: PacketId, ec: int, rest: Script)
    requires s.c.connected && ec != 0
    requires s.c.script == Ev(TimerFired(ec), rest)
          || (!Mapped(ec) && s.c.script == Ev(TimerFired(0), Ev(IdGranted(id), Ev(SendDone(ec), rest))))
          || (!a.kind.Button? &&
              s.c.script == Ev(TimerFired(0), Ev(IdGranted(id), Ev(SendDone(0), Ev(DeviceFailed, rest)))))
    ensures var r := Announce(a, s);
      r.flow == Thrown && r.st.c.script == rest
  {
  }

  // None of this is looked at when the send fails with a mapped code: the announcement goes on.
  lemma AnnounceGoesOn(a: Setup, s: EntityState, id: PacketId, ec: int, rest: Script)
    requires s.c.connected && Mapped(ec) && a.kind.Button?
    requires s.c.script == Ev(TimerFired(0), Ev(IdGranted(id), Ev(SendDone(ec), rest)))
    ensures Announce(a, s).flow == Done(true) && Announce(a, s).st.c.script == rest
  {
  }
}
