// The texts that one side announces are those that the other side reads or shows.
module TextProps {
  import opened Wrappers
  import opened MqttWire
  import Config = EntityConfigs
  import EntitySpec
  import HatchSync

  // Whatever the user's config says: if a command is offered at all, its payload is read back as
  // that command.
  lemma OfferedCommandsAreRead(user: Config.Object, uid: string, text: string)
    ensures Config.Published(user, uid, Config.PayloadOpen) == Some(Config.Text(text)) ==>
      EntitySpec.Interpret(EntitySpec.Cover, Message(CommandTopic, text)) == Done(Value(EntitySpec.Open))
    ensures Config.Published(user, uid, Config.PayloadClose) == Some(Config.Text(text)) ==>
      EntitySpec.Interpret(EntitySpec.Cover, Message(CommandTopic, text)) == Done(Value(EntitySpec.Close))
    ensures Config.Published(user, uid, Config.PayloadStop) == Some(Config.Text(text)) ==>
      EntitySpec.Interpret(EntitySpec.Cover, Message(CommandTopic, text)) == Done(Value(EntitySpec.Stop))
  {
  }

  // The state that a hatch shows on its topic is the text announced for that state, and no state
  // of the hatch shows anything else.
  lemma ShownStatesAreAnnounced(user: Config.Object, uid: string, topic: HatchSync.Topic, s: HatchSync.HatchState)
    ensures HatchSync.Synced(topic, s) == topic ||
      match s
      case Open => Some(HatchSync.Synced(topic, s)) == Shown(Config.Published(user, uid, Config.StateOpen))
      case Closed => Some(HatchSync.Synced(topic, s)) == Shown(Config.Published(user, uid, Config.StateClosed))
      case _ => false
  {
  }

  function Shown(announced: Option<Config.Json>): Option<HatchSync.Topic> {
    if announced.Some? && announced.value.Text? then Some(HatchSync.Shows(announced.value.s)) else None
  }
}
