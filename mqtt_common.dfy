/**
 * What the two `MQTTHandler` classes (6_proj/mqtt_handler.py and
 * 7_proj/mqtt_handler.py) share: reading the connection settings, the
 * built-in `on_message` / `handle_command` classification, the `boat`
 * stamp of `publish`, and the per-topic plan of `subscribe`.
 */
module MqttCommon {
  import opened Wrappers
  import opened Text
  import opened Payloads

  // ---------------------------------------------------------------- configuration

  datatype Config = Config(broker: string, port: int, username: string, password: string, topic: string)

  /**
   * How `__init__` fails: a TypeError when MQTT_PORT is unset, a ValueError
   * when it is not an integer, and a ValueError when a required setting is
   * missing or empty.
   */
  datatype ConfigError = PortNotSet | PortNotInteger | MissingConfig

  function UsernameKey(role: string): string { Upper(role) + "_MQTT_USERNAME" }
  function PasswordKey(role: string): string { Upper(role) + "_MQTT_PASSWORD" }
  function TopicKey(role: string): string { Upper(role) + "_POSITION_TOPIC" }

  /** An environment variable that is present and not empty (an empty one counts as missing). */
  predicate IsSet(env: map<string, string>, key: string)
  {
    key in env && env[key] != ""
  }

  /**
   * The settings of `__init__` for `role`, from the environment `env`.
   * `parseInt` is Python's `int()` on a string: None where it raises.
   */
  function LoadConfig(role: string, env: map<string, string>, parseInt: string -> Option<int>)
    : (r: Result<Config, ConfigError>)
    ensures r == Failure(PortNotSet) <==> "MQTT_PORT" !in env
    ensures r == Failure(PortNotInteger) <==> "MQTT_PORT" in env && parseInt(env["MQTT_PORT"]).None?
    ensures r.Success? <==>
      && "MQTT_PORT" in env && parseInt(env["MQTT_PORT"]).Some? && parseInt(env["MQTT_PORT"]).value != 0
      && IsSet(env, "MQTT_BROKER") && IsSet(env, UsernameKey(role))
      && IsSet(env, PasswordKey(role)) && IsSet(env, TopicKey(role))
    ensures r.Success? ==>
      && r.value.broker == env["MQTT_BROKER"] && r.value.port == parseInt(env["MQTT_PORT"]).value
      && r.value.username == env[UsernameKey(role)] && r.value.password == env[PasswordKey(role)]
      && r.value.topic == env[TopicKey(role)]
  {
    if "MQTT_PORT" !in env then Failure(PortNotSet)
    else
      var port := parseInt(env["MQTT_PORT"]);
      if port.None? then Failure(PortNotInteger)
      else if port.value == 0 || !IsSet(env, "MQTT_BROKER") || !IsSet(env, UsernameKey(role))
              || !IsSet(env, PasswordKey(role)) || !IsSet(env, TopicKey(role)) then
        Failure(MissingConfig)
      else
        Success(Config(env["MQTT_BROKER"], port.value, env[UsernameKey(role)],
                       env[PasswordKey(role)], env[TopicKey(role)]))
  }

  /** The role is upper-cased before the keys are built: "team1" reads TEAM1_MQTT_USERNAME. */
  lemma Team1Keys()
    ensures UsernameKey("team1") == "TEAM1_MQTT_USERNAME"
    ensures TopicKey("team1") == "TEAM1_POSITION_TOPIC"
  {
    var u := Upper("team1");
    assert u[0] == 'T' && u[1] == 'E' && u[2] == 'A' && u[3] == 'M' && u[4] == '1';
    assert u == "TEAM1";
  }

  // ---------------------------------------------------------------- on_message / handle_command

  datatype Command = Follow | Stop | Unknown(text: string)

  /** `handle_command`: exact match on the (already lower-cased) text. */
  function Classify(command: string): (c: Command)
    ensures c == Follow <==> command == "follow"
    ensures c == Stop <==> command == "stop"
    ensures c.Unknown? ==> c.text == command
  {
    if command == "follow" then Follow
    else if command == "stop" then Stop
    else Unknown(command)
  }

  /** What the built-in callback does with one message; only `Raised` leaves the callback. */
  datatype Outcome =
    | ShowPosition(latitude: Json, longitude: Json)
    | Commanded(command: Command)
    | ShowPayload(payload: Json)
    | InvalidJson(raw: string)
    | Raised(error: PyError)

  /**
   * The built-in `on_message`. Only `json.JSONDecodeError` is caught, so a
   * payload that is not UTF-8, an `in` test on a number, or a missing
   * `.get` or `.lower()` raises out of the callback.
   */
  function OnMessage(topic: string, payload: Payload): (r: Outcome)
    ensures payload.NotUtf8? ==> r == Raised(UnicodeError)
    ensures payload.DecodeError? ==>
      r == if IsCommandTopic(topic) then Commanded(Classify(PlainCommand(payload.raw)))
           else InvalidJson(payload.raw)
    ensures r.ShowPosition? <==>
      payload.Decoded? && payload.value.JObj?
      && "latitude" in payload.value.fields && "longitude" in payload.value.fields
    ensures r.Commanded? && payload.Decoded? ==>
      IsCommandTopic(topic) && payload.value.JObj?
      && !("latitude" in payload.value.fields && "longitude" in payload.value.fields)
    ensures r.ShowPayload? ==> payload.Decoded? && !IsCommandTopic(topic) && r.payload == payload.value
    // a decoded number, boolean or null: the `in` test raises TypeError
    ensures payload.Decoded? && (payload.value.JNum? || payload.value.JBool? || payload.value.JNull?) ==>
      r == Raised(TypeError)
    // a decoded list or text holding both words: indexing it by a word raises TypeError
    ensures payload.Decoded? && (payload.value.JList? || payload.value.JStr?)
            && In("latitude", payload.value) == Success(true) && In("longitude", payload.value) == Success(true) ==>
      r == Raised(TypeError)
    // no position: a command topic hands on the lower-cased `command` field, any other topic shows the payload
    ensures payload.Decoded? && In("latitude", payload.value).Success?
            && !(In("latitude", payload.value) == Success(true) && In("longitude", payload.value) == Success(true)) ==>
      r == if !IsCommandTopic(topic) then ShowPayload(payload.value)
           else match CommandField(payload.value)
                case Failure(e) => Raised(e)
                case Success(c) => Commanded(Classify(c))
  {
    match payload
    case NotUtf8 => Raised(UnicodeError)
    case DecodeError(raw) =>
      if IsCommandTopic(topic) then Commanded(Classify(PlainCommand(raw))) else InvalidJson(raw)
    case Decoded(v) =>
      match In("latitude", v)
      case Failure(e) => Raised(e)
      case Success(hasLat) =>
        if !hasLat then CommandOrPayload(topic, v)
        else
          match In("longitude", v)
          case Failure(e) => Raised(e)
          case Success(hasLon) =>
            if !hasLon then CommandOrPayload(topic, v)
            else
              match GetItem(v, "latitude")
              case Failure(e) => Raised(e)
              case Success(lat) =>
                match GetItem(v, "longitude")
                case Failure(e) => Raised(e)
                case Success(lon) => ShowPosition(lat, lon)
  }

  /** The `elif` / `else` of the decoded case: a command on a command topic, else the payload is shown. */
  function CommandOrPayload(topic: string, v: Json): Outcome
  {
    if IsCommandTopic(topic) then
      match CommandField(v)
      case Failure(e) => Raised(e)
      case Success(c) => Commanded(Classify(c))
    else ShowPayload(v)
  }

  /** A position needs latitude and longitude only: ground speed is not looked at. */
  lemma PositionWithoutSpeed(topic: string, lat: Json, lon: Json)
    ensures OnMessage(topic, Decoded(JObj(map["latitude" := lat, "longitude" := lon])))
            == ShowPosition(lat, lon)
  {
  }

  /** Plain text on a command topic is trimmed and lower-cased before it is classified. */
  lemma PlainTextFollow(topic: string)
    requires IsCommandTopic(topic)
    ensures OnMessage(topic, DecodeError("  Follow\n")) == Commanded(Follow)
  {
    PlainFollow();
  }

  /** A JSON object on a command topic without a `command` field is an unknown, empty command. */
  lemma MissingCommandIsEmpty(topic: string, fields: map<string, Json>)
    requires IsCommandTopic(topic) && "latitude" !in fields && "command" !in fields
    ensures OnMessage(topic, Decoded(JObj(fields))) == Commanded(Unknown(""))
  {
  }

  // ---------------------------------------------------------------- publish

  /** The `boat` key set to the handler's username: the stamp overwrites, and no other key is touched. */
  function Stamp(entries: map<string, Json>, username: string): (r: map<string, Json>)
    ensures "boat" in r && r["boat"] == JStr(username)
    ensures r.Keys == entries.Keys + {"boat"}
    ensures forall k :: k in entries && k != "boat" ==> r[k] == entries[k]
  {
    entries["boat" := JStr(username)]
  }

  /** Stamping twice with the same name is stamping once. */
  lemma StampIdempotent(entries: map<string, Json>, username: string)
    ensures Stamp(Stamp(entries, username), username) == Stamp(entries, username)
  {
    var once := Stamp(entries, username);
    var twice := Stamp(once, username);
    assert twice.Keys == once.Keys;
    assert forall k :: k in once ==> twice[k] == once[k];
  }

  /** The last stamp wins. */
  lemma StampOverwrites(entries: map<string, Json>, first: string, second: string)
    ensures Stamp(Stamp(entries, first), second) == Stamp(entries, second)
  {
    var a := Stamp(Stamp(entries, first), second);
    var b := Stamp(entries, second);
    assert a.Keys == b.Keys;
    assert forall k :: k in a ==> a[k] == b[k];
  }

  /** The caller's dictionary, which `publish` changes in place. */
  class Dict {
    var entries: map<string, Json>

    constructor (entries: map<string, Json>)
      ensures this.entries == entries
    {
      this.entries := entries;
    }
  }

  /** One message handed to the MQTT client: topic, payload dictionary and QoS. */
  datatype Message = Message(topic: string, payload: map<string, Json>, qos: int)

  // ---------------------------------------------------------------- subscribe

  /** `topic_names`: one name, or a list of names. */
  datatype TopicNames = OneName(name: string) | NameList(names: seq<string>)

  /** `qos`: None, a list (indexed by position), or one value for every topic. */
  datatype QosArg = DefaultQos | QosList(values: seq<int>) | QosValue(value: int)

  /** The handler registered for a topic: `self.on_message` or the caller's callback. */
  datatype Callback = BuiltIn | Custom(id: nat)

  datatype Subscription = Subscription(name: string, topic: string, qos: int, callback: Callback)

  /** ValueError for a topic name not set in the environment; IndexError for a short QoS list. */
  datatype SubscribeError = MissingTopic(name: string) | QosIndexError(index: nat)

  /** A single topic name is taken as a list of one; a list is used as it is. */
  function Names(t: TopicNames): (r: seq<string>)
    ensures t.OneName? ==> r == [t.name]
    ensures t.NameList? ==> r == t.names
  {
    match t
    case OneName(n) => [n]
    case NameList(ns) => ns
  }

  /** The default rule: QoS 1 when the lower-cased variable name contains "commands", else 0. */
  function DefaultQosFor(name: string): int
  {
    if Contains(Lower(name), "commands") then 1 else 0
  }

  /** The subscription of the loop's `i`-th pass, or the exception it raises. */
  function Resolve(env: map<string, string>, name: string, i: nat, qos: QosArg, callback: Callback)
    : (r: Result<Subscription, SubscribeError>)
    ensures r == Failure(MissingTopic(name)) <==> !IsSet(env, name)
    ensures r == Failure(QosIndexError(i)) <==> IsSet(env, name) && qos.QosList? && i >= |qos.values|
    ensures r.Success? ==> r.value.name == name && r.value.topic == env[name] && r.value.callback == callback
    ensures r.Success? && qos.DefaultQos? ==> r.value.qos == DefaultQosFor(name)
    ensures r.Success? && qos.QosList? ==> i < |qos.values| && r.value.qos == qos.values[i]
    ensures r.Success? && qos.QosValue? ==> r.value.qos == qos.value
  {
    if !IsSet(env, name) then Failure(MissingTopic(name))
    else
      match qos
      case DefaultQos => Success(Subscription(name, env[name], DefaultQosFor(name), callback))
      case QosList(vs) =>
        if i < |vs| then Success(Subscription(name, env[name], vs[i], callback)) else Failure(QosIndexError(i))
      case QosValue(v) => Success(Subscription(name, env[name], v, callback))
  }

  /** What a `subscribe` call has done once it returns or raises. */
  datatype Subscribed = Subscribed(subscriptions: seq<Subscription>, error: Option<SubscribeError>)

  /** The passes of the loop from the `i`-th name on. */
  function SubscribeFrom(env: map<string, string>, names: seq<string>, i: nat, qos: QosArg, callback: Callback)
    : (r: Subscribed)
    requires i <= |names|
    ensures |r.subscriptions| <= |names| - i
    decreases |names| - i
  {
    if i == |names| then Subscribed([], None)
    else
      match Resolve(env, names[i], i, qos, callback)
      case Failure(e) => Subscribed([], Some(e))
      case Success(sub) =>
        var rest := SubscribeFrom(env, names, i + 1, qos, callback);
        Subscribed([sub] + rest.subscriptions, rest.error)
  }

  /**
   * One pass of the loop against the whole call: when the first `i` passes
   * made `done`, the `i`-th either raises the call's error or adds one
   * subscription ahead of the passes after it.
   */
  lemma SubscribeFromStep(env: map<string, string>, names: seq<string>, i: nat, qos: QosArg, callback: Callback,
                          done: seq<Subscription>)
    requires i < |names|
    requires var whole := SubscribeFrom(env, names, 0, qos, callback);
      var rest := SubscribeFrom(env, names, i, qos, callback);
      whole.subscriptions == done + rest.subscriptions && whole.error == rest.error
    ensures var whole := SubscribeFrom(env, names, 0, qos, callback);
      match Resolve(env, names[i], i, qos, callback)
      case Failure(e) => whole.subscriptions == done && whole.error == Some(e)
      case Success(sub) =>
        var rest := SubscribeFrom(env, names, i + 1, qos, callback);
        whole.subscriptions == (done + [sub]) + rest.subscriptions && whole.error == rest.error
  {
    var rest := SubscribeFrom(env, names, i + 1, qos, callback);
    match Resolve(env, names[i], i, qos, callback)
    case Failure(e) =>
      assert done + [] == done;
    case Success(sub) =>
      assert done + ([sub] + rest.subscriptions) == (done + [sub]) + rest.subscriptions;
  }

  /** A whole `subscribe(topic_names, callback, qos)` call. */
  function SubscribePlan(env: map<string, string>, names: seq<string>, qos: QosArg, callback: Callback)
    : (r: Subscribed)
  {
    SubscribeFrom(env, names, 0, qos, callback)
  }

  /**
   * The passes run in list order and stop at the first failing name; the
   * subscriptions made before it stay (there is no rollback).
   */
  lemma {:induction false} SubscribeFromPrefix(env: map<string, string>, names: seq<string>, i: nat,
                                               qos: QosArg, callback: Callback)
    requires i <= |names|
    ensures var r := SubscribeFrom(env, names, i, qos, callback);
      var n := |r.subscriptions|;
      && (forall k :: 0 <= k < n ==> Resolve(env, names[i + k], i + k, qos, callback) == Success(r.subscriptions[k]))
      && (r.error.None? ==> i + n == |names|)
      && (r.error.Some? ==> i + n < |names| && Resolve(env, names[i + n], i + n, qos, callback) == Failure(r.error.value))
    decreases |names| - i
  {
    if i < |names| {
      var res := Resolve(env, names[i], i, qos, callback);
      if res.Success? {
        SubscribeFromPrefix(env, names, i + 1, qos, callback);
        var rest := SubscribeFrom(env, names, i + 1, qos, callback);
        var r := SubscribeFrom(env, names, i, qos, callback);
        assert r.subscriptions == [res.value] + rest.subscriptions;
        forall k | 1 <= k < |r.subscriptions|
          ensures Resolve(env, names[i + k], i + k, qos, callback) == Success(r.subscriptions[k])
        {
          assert r.subscriptions[k] == rest.subscriptions[k - 1];
          assert i + k == (i + 1) + (k - 1);
        }
      }
    }
  }

  /** `SubscribeFromPrefix` for a whole call. */
  lemma SubscribePlanPrefix(env: map<string, string>, names: seq<string>, qos: QosArg, callback: Callback)
    ensures var r := SubscribePlan(env, names, qos, callback);
      var n := |r.subscriptions|;
      && (forall k :: 0 <= k < n ==> Resolve(env, names[k], k, qos, callback) == Success(r.subscriptions[k]))
      && (r.error.None? ==> n == |names|)
      && (r.error.Some? ==> n < |names| && Resolve(env, names[n], n, qos, callback) == Failure(r.error.value))
  {
    SubscribeFromPrefix(env, names, 0, qos, callback);
    var r := SubscribePlan(env, names, qos, callback);
    forall k | 0 <= k < |r.subscriptions|
      ensures Resolve(env, names[k], k, qos, callback) == Success(r.subscriptions[k])
    {
      assert 0 + k == k;
    }
  }

  /** No name missing and a long enough QoS list: every name gets subscribed, in order. */
  lemma AllSubscribed(env: map<string, string>, names: seq<string>, qos: QosArg, callback: Callback)
    requires forall k :: 0 <= k < |names| ==> IsSet(env, names[k])
    requires qos.QosList? ==> |qos.values| >= |names|
    ensures var r := SubscribePlan(env, names, qos, callback);
      r.error.None? && |r.subscriptions| == |names|
      && forall k :: 0 <= k < |names| ==> names[k] in env && r.subscriptions[k].topic == env[names[k]]
  {
    SubscribePlanPrefix(env, names, qos, callback);
  }

  /**
   * With the default rule a name gets QoS 1 exactly when "commands" occurs
   * in it, in any case and at any place, not only at its end.
   */
  lemma DefaultQosRule(env: map<string, string>, names: seq<string>, callback: Callback)
    ensures var r := SubscribePlan(env, names, DefaultQos, callback);
      forall k :: 0 <= k < |r.subscriptions| ==>
        (r.subscriptions[k].qos == 1 <==> Contains(Lower(names[k]), "commands"))
        && (r.subscriptions[k].qos == 0 <==> !Contains(Lower(names[k]), "commands"))
  {
    SubscribePlanPrefix(env, names, DefaultQos, callback);
  }

  /** A missing name stops the call there, while the names before it stay subscribed. */
  lemma MissingTopicNoRollback(env: map<string, string>, names: seq<string>, j: nat, qos: QosArg, callback: Callback)
    requires j < |names| && !IsSet(env, names[j])
    requires forall k :: 0 <= k < j ==> IsSet(env, names[k])
    requires qos.QosList? ==> |qos.values| >= j
    ensures var r := SubscribePlan(env, names, qos, callback);
      r.error == Some(MissingTopic(names[j])) && |r.subscriptions| == j
  {
    SubscribePlanPrefix(env, names, qos, callback);
  }
}
