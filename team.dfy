/**
 * The follower process of Code/7_proj/team.py: its message callback drives
 * a `VesselController`, and it subscribes to the scout's position topic
 * and its own command topic.
 */
module Team {
  import opened Wrappers
  import opened Text
  import opened Payloads
  import opened Vehicles
  import opened Pursuit
  import opened VesselControl
  import MqttCommon

  /** What `on_message` decides to do with one message. */
  datatype Action =
    | FollowUpdate(scout: Position, speed: real)  // `follow_scout(lat, lon, speed)`
    | PositionIgnored                              // a position while not following
    | Dispatch(command: string)                    // `handle_command(command, ...)`
    | Dropped                                      // decoded, neither a position nor a command
    | ReportInvalid(raw: string)                   // not JSON, and not on a command topic
    | ReportError(error: PyError)                  // caught by `except Exception`

  /**
   * The position fields as numbers. `payload['...']` raises on a list or a
   * string; a non-numeric value is reported as an error (see README).
   */
  function ReadPosition(v: Json): (r: Action)
    ensures r.FollowUpdate? || r.ReportError?
    ensures r.FollowUpdate? ==>
      && v.JObj? && "latitude" in v.fields && "longitude" in v.fields && "ground_speed" in v.fields
      && AsNumber(v.fields["latitude"]) == Some(r.scout.lat)
      && AsNumber(v.fields["longitude"]) == Some(r.scout.lon)
      && AsNumber(v.fields["ground_speed"]) == Some(r.speed)
  {
    match GetItem(v, "latitude")
    case Failure(e) => ReportError(e)
    case Success(lat) =>
      match GetItem(v, "longitude")
      case Failure(e) => ReportError(e)
      case Success(lon) =>
        match GetItem(v, "ground_speed")
        case Failure(e) => ReportError(e)
        case Success(speed) =>
          match (AsNumber(lat), AsNumber(lon), AsNumber(speed))
          case (Some(a), Some(o), Some(g)) => FollowUpdate(Position(a, o), g)
          case _ => ReportError(TypeError)
  }

  /** The `elif` branch: a command topic dispatches the `command` field, anything else is dropped. */
  function CommandOrDrop(topic: string, v: Json): (r: Action)
    ensures r.Dispatch? || r.Dropped? || r.ReportError?
    ensures r.Dropped? <==> !IsCommandTopic(topic)
    ensures IsCommandTopic(topic) && v.JObj? && "command" !in v.fields ==> r == Dispatch("")
    ensures IsCommandTopic(topic) && v.JObj? && "command" in v.fields ==>
      r == if v.fields["command"].JStr? then Dispatch(Lower(v.fields["command"].s)) else ReportError(AttributeError)
    ensures IsCommandTopic(topic) && !v.JObj? ==> r == ReportError(AttributeError)
  {
    if !IsCommandTopic(topic) then Dropped
    else
      match CommandField(v)
      case Failure(e) => ReportError(e)
      case Success(c) => Dispatch(c)
  }

  /**
   * `on_message` of team.py, given whether the controller is following.
   * The three `in` tests short-circuit left to right; every exception is
   * caught, so each outcome is a value.
   */
  function Route(topic: string, payload: Payload, following: bool): (r: Action)
    ensures r.FollowUpdate? ==> following
    ensures payload.NotUtf8? ==> r == ReportError(UnicodeError)
    ensures payload.DecodeError? ==>
      r == if IsCommandTopic(topic) then Dispatch(PlainCommand(payload.raw)) else ReportInvalid(payload.raw)
    ensures r.Dropped? ==> payload.Decoded? && !IsCommandTopic(topic)
    // the controller moves only for a decoded position object
    ensures r.FollowUpdate? ==>
      payload.Decoded? && payload.value.JObj? && IsPosition(payload.value.fields) && r == ReadPosition(payload.value)
    // a command comes only from a command topic: the plain text, or an object's `command` field
    ensures r.Dispatch? ==>
      (IsCommandTopic(topic)
       && ((payload.DecodeError? && r.command == PlainCommand(payload.raw))
           || (payload.Decoded? && payload.value.JObj? && !IsPosition(payload.value.fields)
               && CommandField(payload.value) == Success(r.command))))
    // the `in` test on a decoded number, boolean or null raises, whatever the topic
    ensures payload.Decoded? && (payload.value.JNum? || payload.value.JBool? || payload.value.JNull?) ==>
      r == ReportError(TypeError)
  {
    match payload
    case NotUtf8 => ReportError(UnicodeError)
    case DecodeError(raw) =>
      if IsCommandTopic(topic) then Dispatch(PlainCommand(raw)) else ReportInvalid(raw)
    case Decoded(v) =>
      match In("latitude", v)
      case Failure(e) => ReportError(e)
      case Success(hasLat) =>
        if !hasLat then CommandOrDrop(topic, v)
        else
          match In("longitude", v)
          case Failure(e) => ReportError(e)
          case Success(hasLon) =>
            if !hasLon then CommandOrDrop(topic, v)
            else
              match In("ground_speed", v)
              case Failure(e) => ReportError(e)
              case Success(hasSpeed) =>
                if !hasSpeed then CommandOrDrop(topic, v)
                else if !following then PositionIgnored
                else ReadPosition(v)
  }

  /** A JSON object with the three position keys. */
  predicate IsPosition(fields: map<string, Json>)
  {
    "latitude" in fields && "longitude" in fields && "ground_speed" in fields
  }

  /**
   * The position test comes first: a position-shaped object is never taken
   * as a command, whatever the topic, and is only acted on while following.
   */
  lemma PositionTakesPrecedence(topic: string, fields: map<string, Json>, following: bool)
    requires IsPosition(fields)
    ensures var r := Route(topic, Decoded(JObj(fields)), following);
      && !r.Dispatch? && !r.Dropped?
      && (!following <==> r == PositionIgnored)
  {
  }

  /** A numeric position while following is one `follow_scout` call with those numbers. */
  lemma NumericPositionFollows(topic: string, lat: real, lon: real, speed: real, rest: map<string, Json>)
    ensures var fields := rest["latitude" := JNum(lat)]["longitude" := JNum(lon)]["ground_speed" := JNum(speed)];
      Route(topic, Decoded(JObj(fields)), true) == FollowUpdate(Position(lat, lon), speed)
  {
  }

  /**
   * Any other object on a command topic dispatches its lower-cased
   * `command` field, or the empty command when there is none.
   */
  lemma CommandObjectDispatches(topic: string, fields: map<string, Json>, following: bool)
    requires IsCommandTopic(topic) && !IsPosition(fields)
    requires "command" in fields ==> fields["command"].JStr?
    ensures Route(topic, Decoded(JObj(fields)), following)
            == Dispatch(if "command" in fields then Lower(fields["command"].s) else "")
  {
  }

  /** Any other object on any other topic is dropped without a controller call. */
  lemma OtherObjectDropped(topic: string, fields: map<string, Json>, following: bool)
    requires !IsCommandTopic(topic) && !IsPosition(fields)
    ensures Route(topic, Decoded(JObj(fields)), following) == Dropped
  {
  }

  /** Plain text "  Follow\n" on a command topic starts following. */
  lemma PlainTextFollowDispatches(topic: string, following: bool)
    requires IsCommandTopic(topic)
    ensures Route(topic, DecodeError("  Follow\n"), following) == Dispatch("follow")
  {
    PlainFollow();
  }

  // ---------------------------------------------------------------- handle_command

  /** The controller calls `handle_command` makes, in order. */
  function CommandCalls(command: string): (calls: seq<Call>)
    ensures command == "follow" ==> calls == [ArmCall, GuidedCall]
    ensures command == "stop" ==> calls == [StopCall]
    ensures command != "follow" && command != "stop" ==> calls == []
  {
    if command == "follow" then [ArmCall, GuidedCall]
    else if command == "stop" then [StopCall]
    else []
  }

  /** What `handle_command` does to the controller and its vehicle. */
  function CommandEffect(c: Control, command: string): Control
  {
    if command == "follow" then SetGuidedMode(c.(vehicle := EnsureArmed(c.vehicle)))
    else if command == "stop" then StopFollowing(c)
    else c
  }

  /** The effect is exactly the run of the controller calls the command makes. */
  lemma CommandEffectIsRun(c: Control, command: string, dist: Distance)
    requires Inv(c.state)
    ensures CommandEffect(c, command) == Run(c, CommandCalls(command), dist)
  {
    if command == "follow" {
      var c1 := Apply(c, ArmCall, dist);
      assert Run(c, [ArmCall, GuidedCall], dist) == Run(c1, [GuidedCall], dist);
      assert Run(c1, [GuidedCall], dist) == SetGuidedMode(c1);
    } else if command == "stop" {
      assert Run(c, [StopCall], dist) == StopFollowing(c);
    }
  }

  /** The follower's command handler, run on the controller. */
  method HandleCommand(command: string, vc: VesselController)
    requires vc.Valid()
    modifies vc
    ensures vc.Valid()
    ensures vc.Snapshot() == CommandEffect(old(vc.Snapshot()), command)
  {
    if command == "follow" {
      vc.ArmVehicle();
      vc.SetGuidedMode();
    } else if command == "stop" {
      vc.StopFollowing();
    }
  }

  /**
   * "follow" arms first, only if needed, then asks for GUIDED and starts
   * following; it keeps the throttle fields as they were.
   */
  lemma FollowArmsThenGuides(c: Control)
    ensures var r := CommandEffect(c, "follow");
      && r.vehicle.requests == c.vehicle.requests + (if c.vehicle.armed then [] else [Arm]) + [SetMode(GUIDED)]
      && r.vehicle.armed && r.vehicle.mode == GUIDED
      && r.state == c.state.(following := true)
  {
  }

  /** "stop" clears pursuit whatever came before. */
  lemma StopClears(c: Control)
    ensures var r := CommandEffect(c, "stop");
      !r.state.following && r.state.lastGotoPosition.None? && r.state.speeds == []
      && r.vehicle.mode == LOITER
  {
  }

  /** Anything but "follow" or "stop" leaves the controller exactly as it was. */
  lemma UnknownCommandNoEffect(c: Control, command: string)
    requires command != "follow" && command != "stop"
    ensures CommandEffect(c, command) == c
  {
  }

  // ---------------------------------------------------------------- on_message

  /**
   * `on_message` on the controller: a position while following is one
   * `follow_scout` at `now` with the follower at `own`; a command is
   * `handle_command`; everything else leaves the controller alone.
   */
  method OnMessage(vc: VesselController, topic: string, payload: Payload, now: real, own: Position,
                   dist: Distance)
    returns (action: Action, report: Option<Report>)
    requires vc.Valid()
    modifies vc
    ensures vc.Valid()
    ensures action == Route(topic, payload, old(vc.following))
    ensures action.FollowUpdate? ==>
      var r := FollowStep(old(vc.State()), old(vc.vehicle), action.scout, action.speed, now, own, dist);
      vc.State() == r.state && vc.vehicle == r.vehicle && report == r.report
    ensures action.Dispatch? ==>
      vc.Snapshot() == CommandEffect(old(vc.Snapshot()), action.command) && report.None?
    ensures !action.FollowUpdate? && !action.Dispatch? ==> vc.Snapshot() == old(vc.Snapshot()) && report.None?
  {
    report := None;
    action := Route(topic, payload, vc.following);
    match action {
      case FollowUpdate(scout, speed) =>
        report := vc.FollowScout(scout, speed, now, own, dist);
      case Dispatch(command) =>
        HandleCommand(command, vc);
      case _ =>
    }
  }

  // ---------------------------------------------------------------- subscriptions

  /** The variables the follower subscribes to: the scout's position topic, then its own command topic. */
  function SubscribedTopics(team: string): (names: seq<string>)
    ensures |names| == 2 && names[0] == "SCOUT_POSITION_TOPIC"
    ensures names[1] == Upper(team) + "_COMMANDS"
  {
    ["SCOUT_POSITION_TOPIC", Upper(team) + "_COMMANDS"]
  }

  /**
   * With both variables set, the follower's `subscribe(topics, on_message)`
   * gets the position topic at QoS 0 and its command topic at QoS 1, both
   * on its own callback.
   */
  lemma SubscriptionsQos(env: map<string, string>, team: string, callback: nat)
    requires MqttCommon.IsSet(env, "SCOUT_POSITION_TOPIC") && MqttCommon.IsSet(env, Upper(team) + "_COMMANDS")
    ensures var r := MqttCommon.SubscribePlan(env, SubscribedTopics(team), MqttCommon.DefaultQos,
                                              MqttCommon.Custom(callback));
      && r.error.None? && |r.subscriptions| == 2
      && r.subscriptions[0].qos == 0 && r.subscriptions[1].qos == 1
      && r.subscriptions[0].topic == env["SCOUT_POSITION_TOPIC"]
      && r.subscriptions[1].topic == env[Upper(team) + "_COMMANDS"]
      && r.subscriptions[0].callback == MqttCommon.Custom(callback)
      && r.subscriptions[1].callback == MqttCommon.Custom(callback)
  {
    var names := SubscribedTopics(team);
    MqttCommon.AllSubscribed(env, names, MqttCommon.DefaultQos, MqttCommon.Custom(callback));
    MqttCommon.DefaultQosRule(env, names, MqttCommon.Custom(callback));
    ScoutTopicIsNotCommands();
    CommandTopicIsCommands(team);
    MqttCommon.SubscribePlanPrefix(env, names, MqttCommon.DefaultQos, MqttCommon.Custom(callback));
  }

  lemma ScoutTopicIsNotCommands()
    ensures !Contains(Lower("SCOUT_POSITION_TOPIC"), "commands")
  {
    var s := "SCOUT_POSITION_TOPIC";
    var l := Lower(s);
    forall k | 0 <= k < |s|
      ensures l[k] != 'm'
    {
      assert s[k] != 'M' && s[k] != 'm';
    }
    forall i | 0 <= i <= |l| - 8
      ensures !OccursAt(l, "commands", i)
    {
      assert l[i..i + 8][2] == l[i + 2] != "commands"[2];
    }
    ContainsAt(l, "commands");
  }

  lemma CommandTopicIsCommands(team: string)
    ensures Contains(Lower(Upper(team) + "_COMMANDS"), "commands")
  {
    var l := Lower(Upper(team) + "_COMMANDS");
    LowerAppend(Upper(team), "_COMMANDS");
    var tail := Lower("_COMMANDS");
    assert tail == "_commands";
    assert l[|l| - 8..] == "commands";
    EndsWithContains(l, "commands");
  }
}
