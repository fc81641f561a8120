/**
 * `MQTTHandler` of 7_proj/mqtt_handler.py once connected: what it has
 * subscribed and what it has handed to the broker. The settings come from
 * `MqttCommon.LoadConfig`; the built-in callback is `MqttCommon.OnMessage`.
 */
module MqttHandler7 {
  import opened Wrappers
  import opened Text
  import opened Payloads
  import opened MqttCommon

  class Handler {
    const username: string
    /** `self.topic`, the position topic every publish goes to */
    const topic: string
    /** `client.subscribe` + `message_callback_add`, in call order */
    var subscriptions: seq<Subscription>
    /** `client.publish`, in call order */
    var published: seq<Message>

    /**
     * `__init__(role)` once the connection is made: the settings come from
     * the environment, and a handler exists only when reading them succeeds.
     */
    constructor (role: string, env: map<string, string>, parseInt: string -> Option<int>)
      requires LoadConfig(role, env, parseInt).Success?
      ensures username == env[UsernameKey(role)] && topic == env[TopicKey(role)]
      ensures subscriptions == [] && published == []
    {
      var config := LoadConfig(role, env, parseInt).value;
      username := config.username;
      topic := config.topic;
      subscriptions := [];
      published := [];
    }

    /**
     * `publish(payload, qos)`: the caller's dictionary is stamped in place
     * and the stamped dictionary is what is sent to the position topic.
     */
    method Publish(payload: Dict, qos: int) returns (sent: map<string, Json>)
      modifies this, payload
      ensures payload.entries == Stamp(old(payload.entries), username)
      ensures sent == payload.entries
      ensures published == old(published) + [Message(topic, sent, qos)]
      ensures subscriptions == old(subscriptions)
    {
      payload.entries := payload.entries["boat" := JStr(username)];
      sent := payload.entries;
      published := published + [Message(topic, sent, qos)];
    }

    /**
     * `subscribe(topic_names, callback, qos)`: the names in order, each
     * looked up in `env`, until the first one that raises.
     */
    method Subscribe(env: map<string, string>, topicNames: TopicNames, callback: Callback, qos: QosArg)
      returns (error: Option<SubscribeError>)
      modifies this
      ensures var plan := SubscribePlan(env, Names(topicNames), qos, callback);
        subscriptions == old(subscriptions) + plan.subscriptions && error == plan.error
      ensures published == old(published)
    {
      var names := Names(topicNames);
      ghost var done: seq<Subscription> := [];
      var i := 0;
      while i < |names|
        invariant 0 <= i <= |names|
        invariant published == old(published)
        invariant subscriptions == old(subscriptions) + done
        invariant var whole := SubscribeFrom(env, names, 0, qos, callback);
          var rest := SubscribeFrom(env, names, i, qos, callback);
          whole.subscriptions == done + rest.subscriptions && whole.error == rest.error
      {
        SubscribeFromStep(env, names, i, qos, callback, done);
        var failed := SubscribeOne(env, names[i], i, qos, callback);
        if failed.Some? {
          return failed;
        }
        done := done + [subscriptions[|subscriptions| - 1]];
        i := i + 1;
      }
      error := None;
    }

    /** One pass of the `subscribe` loop: the `i`-th name, looked up and subscribed, or the exception. */
    method SubscribeOne(env: map<string, string>, name: string, i: nat, qos: QosArg, callback: Callback)
      returns (error: Option<SubscribeError>)
      modifies this
      ensures published == old(published)
      ensures match Resolve(env, name, i, qos, callback)
        case Success(sub) => subscriptions == old(subscriptions) + [sub] && error.None?
        case Failure(e) => subscriptions == old(subscriptions) && error == Some(e)
    {
      if !(name in env && env[name] != "") {
        return Some(MissingTopic(name));
      }
      var topicQos: int;
      match qos {
        case DefaultQos =>
          topicQos := if Contains(Lower(name), "commands") then 1 else 0;
        case QosList(values) =>
          if i >= |values| {
            return Some(QosIndexError(i));
          }
          topicQos := values[i];
        case QosValue(value) =>
          topicQos := value;
      }
      subscriptions := subscriptions + [Subscription(name, env[name], topicQos, callback)];
      error := None;
    }
  }
}
