/**
 * `MQTTHandler` of 6_proj/mqtt_handler.py once connected. Unlike the later
 * handler it takes no QoS and no callback: every topic is subscribed at
 * the client's default QoS 0 with the built-in `MqttCommon.OnMessage`, and
 * every publish goes out at QoS 0.
 */
module MqttHandler6 {
  import opened Wrappers
  import opened Payloads
  import opened MqttCommon

  /** paho's default QoS for `subscribe(topic)` and `publish(topic, payload)` */
  const DefaultClientQos: int := 0

  class Handler {
    const username: string
    const topic: string
    var subscriptions: seq<Subscription>
    var published: seq<Message>

    /**
     * `__init__(role)` once the connection is made: the settings come from
     * the environment, and a handler exists only when reading them succeeds.
     */
    constructor (role: string, env: map<string, string>, parseInt: string -> Option<int>)
      requires LoadConfig(role, env, parseInt).Success?
      ensures username == env[UsernameKey(role)] && topic == env[TopicKey(role)]
      ensures subscriptions == [] && published == []
    {
      var config := LoadConfig(role, env, parseInt).value;
      username := config.username;
      topic := config.topic;
      subscriptions := [];
      published := [];
    }

    /** `publish(payload)`: stamp in place, then send at QoS 0. */
    method Publish(payload: Dict) returns (sent: map<string, Json>)
      modifies this, payload
      ensures payload.entries == Stamp(old(payload.entries), username)
      ensures sent == payload.entries
      ensures published == old(published) + [Message(topic, sent, DefaultClientQos)]
      ensures subscriptions == old(subscriptions)
    {
      payload.entries := payload.entries["boat" := JStr(username)];
      sent := payload.entries;
      published := published + [Message(topic, sent, DefaultClientQos)];
    }

    /** `subscribe(topic_names)`: what the later handler does with `qos=0` and no callback. */
    method Subscribe(env: map<string, string>, topicNames: TopicNames) returns (error: Option<SubscribeError>)
      modifies this
      ensures var plan := SubscribePlan(env, Names(topicNames), QosValue(DefaultClientQos), BuiltIn);
        subscriptions == old(subscriptions) + plan.subscriptions && error == plan.error
      ensures error.Some? ==> error.value.MissingTopic?
      ensures published == old(published)
    {
      var names := Names(topicNames);
      ghost var done: seq<Subscription> := [];
      var i := 0;
      while i < |names|
        invariant 0 <= i <= |names|
        invariant published == old(published)
        invariant subscriptions == old(subscriptions) + done
        invariant var whole := SubscribeFrom(env, names, 0, QosValue(DefaultClientQos), BuiltIn);
          var rest := SubscribeFrom(env, names, i, QosValue(DefaultClientQos), BuiltIn);
          whole.subscriptions == done + rest.subscriptions && whole.error == rest.error
      {
        SubscribeFromStep(env, names, i, QosValue(DefaultClientQos), BuiltIn, done);
        var name := names[i];
        if !(name in env && env[name] != "") {
          return Some(MissingTopic(name));
        }
        var sub := Subscription(name, env[name], DefaultClientQos, BuiltIn);
        subscriptions := subscriptions + [sub];
        done := done + [sub];
        i := i + 1;
      }
      error := None;
    }
  }
}
