// The discovery config of a cover: the user's object, with some keys forced.
module EntityConfigs {
  import opened Wrappers

  // The keys the entity knows, each named after its text; any other key of the user's.
  datatype Key =
    | CommandTopic | StateTopic | AvailabilityTopic | JsonAttributesTopic | JsonAttributesTemplate
    | StateOpening | StateOpen | StateClosing | StateClosed
    | PayloadOpen | PayloadClose | PayloadStop
    | UniqueId
    | UserKey(name: string)

  datatype Json = Null | Text(s: string) | Raw(text: string)

  type Object = map<Key, Json>

  class EntityConfig {
    var fields: Object

    constructor (fields: Object)
      ensures this.fields == fields
    {
      this.fields := fields;
    }

    method Set(key: Key, value: Json)
      modifies this
      ensures fields == if key in old(fields) then old(fields) else old(fields)[key := value]
    {
      if key in fields { return; }
      SetOverride(key, value);
    }

    method SetOverride(key: Key, value: Json)
      modifies this
      ensures fields == old(fields)[key := value]
    {
      fields := fields[key := value];
    }

    method SetOverrideIfNotNull(key: Key, value: Json)
      modifies this
      ensures fields == if key in old(fields) && old(fields)[key].Null? then old(fields) else old(fields)[key := value]
    {
      if key in fields && fields[key].Null? { return; }
      SetOverride(key, value);
    }
  }

  function TopicText(uid: string, topic: string): string { "cover" + "_" + uid + "/" + topic }

  const TEMPLATE := "{{ value_json | tojson }}"

  function Get(o: Object, k: Key): Option<Json> { if k in o then Some(o[k]) else None }

  // Keys that always get the entity's value.
  function Forced(uid: string, k: Key): Option<Json> {
    match k
    case CommandTopic => Some(Text(TopicText(uid, "set")))
    case StateTopic => Some(Text(TopicText(uid, "state")))
    case AvailabilityTopic => Some(Text(TopicText(uid, "availability_topic")))
    case JsonAttributesTopic => Some(Text(TopicText(uid, "json_attributes_topic")))
    case StateOpening => Some(Text("opening"))
    case StateOpen => Some(Text("open"))
    case StateClosing => Some(Text("closing"))
    case StateClosed => Some(Text("closed"))
    case UniqueId => Some(Text(uid))
    case _ => None
  }

  // Keys that get the entity's value unless the user has switched them off with null.
  function Payload(k: Key): Option<Json> {
    match k
    case PayloadOpen => Some(Text("open"))
    case PayloadClose => Some(Text("close"))
    case PayloadStop => Some(Text("stop"))
    case _ => None
  }

  function WithPayloads(user: Object, k: Key): Option<Json> {
    if Payload(k).Some? && Get(user, k) != Some(Null) then Payload(k) else Get(user, k)
  }

  // What is published under each key: forced keys are forced, nulls the user put on a payload
  // stay, a template of the user's stays, and every other key of the user's is untouched.
  function Published(user: Object, uid: string, k: Key): Option<Json> {
    if Forced(uid, k).Some? then Forced(uid, k)
    else if k.JsonAttributesTemplate? && Get(user, k).None? then Some(Text(TEMPLATE))
    else WithPayloads(user, k)
  }

  // Cover::async_configure and the first step of async_set_config, up to the publish.
  method BuildCoverConfig(config: EntityConfig, uid: string)
    modifies config
    ensures forall k :: Get(config.fields, k) == Published(old(config.fields), uid, k)
  {
    ghost var user := config.fields;
    ForceTopicsAndStates(config, uid);
    ghost var forced := config.fields;
    OverridePayloads(config);
    forall k: Key
      ensures Get(config.fields, k) == if Early(k) then Forced(uid, k) else WithPayloads(user, k)
    {
      assert Get(config.fields, k) == WithPayloads(forced, k);
    }
    config.SetOverride(AvailabilityTopic, Text(TopicText(uid, "availability_topic")));
    config.SetOverride(JsonAttributesTopic, Text(TopicText(uid, "json_attributes_topic")));
    config.Set(JsonAttributesTemplate, Text(TEMPLATE));
    config.SetOverride(UniqueId, Text(uid));
  }

  predicate Early(k: Key) {
    k in {CommandTopic, StateTopic, StateOpening, StateOpen, StateClosing, StateClosed}
  }

  method ForceTopicsAndStates(config: EntityConfig, uid: string)
    modifies config
    ensures forall k :: Get(config.fields, k) == if Early(k) then Forced(uid, k) else Get(old(config.fields), k)
  {
    config.SetOverride(CommandTopic, Text(TopicText(uid, "set")));
    config.SetOverride(StateTopic, Text(TopicText(uid, "state")));
    config.SetOverride(StateOpening, Text("opening"));
    config.SetOverride(StateOpen, Text("open"));
    config.SetOverride(StateClosing, Text("closing"));
    config.SetOverride(StateClosed, Text("closed"));
  }

  method OverridePayloads(config: EntityConfig)
    modifies config
    ensures forall k :: Get(config.fields, k) == WithPayloads(old(config.fields), k)
  {
    config.SetOverrideIfNotNull(PayloadOpen, Text("open"));
    config.SetOverrideIfNotNull(PayloadClose, Text("close"));
    config.SetOverrideIfNotNull(PayloadStop, Text("stop"));
  }

  // No two covers share a topic, and no two topics of a cover are the same.
  lemma TopicsDiffer(uid: string, topic: string, other: string, otherTopic: string)
    requires topic == otherTopic || uid == other
    ensures TopicText(uid, topic) == TopicText(other, otherTopic) <==> uid == other && topic == otherTopic
  {
    var p, x, y := "cover" + "_", uid + "/" + topic, other + "/" + otherTopic;
    var h := uid + "/";
    assert TopicText(uid, topic) == p + x && TopicText(other, otherTopic) == p + y;
    assert (p + x)[|p|..] == x && (p + y)[|p|..] == y;
    assert x[|h|..] == topic && x[..|uid|] == uid;
    assert uid == other ==> y[|h|..] == otherTopic;
    assert topic == otherTopic && |uid| == |other| ==> y[..|uid|] == other;
  }

  // What is published for the config that a hatch brings along, with keys of its own and no stop
  // command: everything that a cover needs, under every key.
  lemma HatchConfig(user: Object, uid: string, n: string)
    requires Get(user, PayloadStop) == Some(Null) && forall k :: k in user ==> k.UserKey? || k.PayloadStop?
    ensures Published(user, uid, UserKey(n)) == Get(user, UserKey(n))
    ensures Published(user, uid, PayloadStop) == Some(Null)
    ensures Published(user, uid, PayloadOpen) == Some(Text("open"))
    ensures Published(user, uid, PayloadClose) == Some(Text("close"))
    ensures Published(user, uid, StateOpen) == Some(Text("open"))
    ensures Published(user, uid, StateOpening) == Some(Text("opening"))
    ensures Published(user, uid, StateClosed) == Some(Text("closed"))
    ensures Published(user, uid, StateClosing) == Some(Text("closing"))
    ensures Published(user, uid, JsonAttributesTemplate) == Some(Text("{{ value_json | tojson }}"))
    ensures Published(user, uid, UniqueId) == Some(Text(uid))
  {
  }

  // And the topics, which are the cover's own.
  lemma HatchTopics(user: Object, uid: string)
    ensures Published(user, uid, CommandTopic) == Some(Text("cover_" + uid + "/" + "set"))
    ensures Published(user, uid, StateTopic) == Some(Text("cover_" + uid + "/" + "state"))
    ensures Published(user, uid, AvailabilityTopic) == Some(Text("cover_" + uid + "/" + "availability_topic"))
    ensures Published(user, uid, JsonAttributesTopic) == Some(Text("cover_" + uid + "/" + "json_attributes_topic"))
  {
    assert "cover" + "_" == "cover_";
  }

  // What is the user's to decide: a command is offered unless it is switched off with null, a
  // template of the user's own stays, and so does every key that the entity does not know.
  lemma UserDecides(user: Object, uid: string, n: string)
    ensures Published(user, uid, PayloadOpen) ==
      if Get(user, PayloadOpen) == Some(Null) then Some(Null) else Some(Text("open"))
    ensures Published(user, uid, PayloadClose) ==
      if Get(user, PayloadClose) == Some(Null) then Some(Null) else Some(Text("close"))
    ensures Published(user, uid, PayloadStop) ==
      if Get(user, PayloadStop) == Some(Null) then Some(Null) else Some(Text("stop"))
    ensures Get(user, JsonAttributesTemplate).Some? ==>
      Published(user, uid, JsonAttributesTemplate) == Get(user, JsonAttributesTemplate)
    ensures Published(user, uid, UserKey(n)) == Get(user, UserKey(n))
  {
  }

  // Applying the configuration to its own result changes nothing.
  lemma ConfiguringIsIdempotent(user: Object, once: Object, twice: Object, uid: string)
    requires forall k :: Get(once, k) == Published(user, uid, k)
    requires forall k :: Get(twice, k) == Published(once, uid, k)
    ensures twice == once
  {
    forall k: Key
      ensures Get(twice, k) == Get(once, k)
    {
      assert Get(once, k) == Published(user, uid, k);
    }
    assert forall k: Key :: (k in twice <==> Get(twice, k).Some?) && (k in once <==> Get(once, k).Some?);
  }
}
