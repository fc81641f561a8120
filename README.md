# A verified model of the follower, MQTT and mission code of the boat project

The repository drives two boats over MQTT: a scout publishes its position,
and a follower chases it with DroneKit. A later project flies a waypoint
mission and reports its progress. This Dafny project models five parts of
that code and proves properties of each:

- **The follower's controller** (`7_proj/vessel_controller.py`).
  - The class `VesselControl.VesselController` keeps the controller's pursuit
    fields and the vehicle it commands, and updates them in place.
  - Most methods are proved equal to a function of module `Pursuit`. `EnsureMode` and
    `ArmVehicle` are tied to the vehicle functions of module `Vehicles`, and `SendGoto`
    states its effect field by field.
  - `Pursuit` states the rules. The status line is printed at most every 3 s.
    The follower loiters within 5 m of the scout. A goto is throttled: it is
    sent only when none was sent yet, the last one is 15 s old, or the scout
    got 5 m further away; and then only when the scout moved more than 4 m or
    its mean speed over the last three samples exceeds 0.5 m/s.
  - `Pursuit` also proves the invariant that keeps `last_scout_distance + 5`
    and `now - last_goto_time` defined on every run.
- **The vehicle** (module `Vehicles`). Its mode, its armed flag, its mission
  items and a log of every request sent to it. A request is treated as
  confirmed at once.
- **The follower process** (`Code/7_proj/team.py`, module `Team`).
  - Its `on_message` routes a position to `follow_scout`, a command to
    `handle_command`, and drops or reports everything else.
  - Its `handle_command` arms and then starts following, or stops following.
  - It subscribes to the scout's position topic and its own command topic.
- **The two MQTT handlers** (`7_proj/mqtt_handler.py` as
  `MqttHandler7.Handler`, `6_proj/mqtt_handler.py` as `MqttHandler6.Handler`).
  Module `MqttCommon` holds what they share:
  - reading the settings from the environment, with the source's three error
    cases;
  - the built-in `on_message` / `handle_command` classification. The 6_proj
    copy of it (lines 82-110) is the same code as the 7_proj one and is
    modelled once.
  - the `boat` stamp of `publish`;
  - the pass-by-pass plan of `subscribe`: which topic, QoS and callback each
    name gets, and where the call raises.
- **The mission manager** (`8_proj/mission_manager.py`, module `Mission`).
  - Parsing the waypoint file.
  - Uploading one `MAV_CMD_NAV_WAYPOINT` per waypoint.
  - Starting the mission.
  - The monitoring loop and the messages it publishes.

JSON payloads are a `Payloads.Json` datatype. `in`, `[...]`, `.get` and
`.lower()` on them either give a value or raise, as Python's built-in types
do.

The clock, the great-circle distance, `float()`/`int()` on strings and the
vehicle's readings are not computed by the model. They come in as
parameters:

- `now` / `clock`: the clock;
- `dist`: the distance;
- `parseFloat` / `parseInt`: the number conversions;
- a sequence of `Observation`s: the vehicle's readings.

## Model

| member | source | states |
|---|---|---|
| VesselControl.VesselController.constructor | 7_proj/vessel_controller.py:13-28 | a fresh controller is not following, has no goto position or distance, no speed samples, report time 0, and its last goto time is the clock at creation |
| VesselControl.VesselController.ReportStatus | 7_proj/vessel_controller.py:74-80 | the controller's new state and the printed line are exactly those of `Pursuit.ReportStatus`; the vehicle is untouched and the invariant is kept |
| VesselControl.VesselController.ScoutHasMoved | 7_proj/vessel_controller.py:82-95 | the answer and the new speed buffer are those of `Pursuit.ScoutHasMoved`; no other field changes |
| VesselControl.VesselController.FollowScout | 7_proj/vessel_controller.py:97-133 | state, vehicle and report after `follow_scout` are exactly `Pursuit.FollowStep` of the state before; the invariant is kept |
| VesselControl.VesselController.EnsureMode | 7_proj/vessel_controller.py:111-113 | the vehicle is asked for the mode only when it is in another one; the pursuit fields do not change |
| VesselControl.VesselController.Pursue | 7_proj/vessel_controller.py:115-133 | the far branch leaves controller and vehicle as `Pursuit.Pursue` says; the invariant is kept |
| VesselControl.VesselController.UpdateGoto | 7_proj/vessel_controller.py:121-133 | the throttled goto leaves controller and vehicle as `Pursuit.UpdateGoto` says |
| VesselControl.VesselController.GotoIfMoved | 7_proj/vessel_controller.py:128-133 | once an update is due, controller and vehicle end as `Pursuit.GotoIfMoved` says |
| VesselControl.VesselController.SendGoto | 7_proj/vessel_controller.py:130-133 | one goto to the scout's position at altitude 0 is sent, and the goto time, position and distance record this update; nothing else changes |
| VesselControl.VesselController.ArmVehicle | 7_proj/vessel_controller.py:52-59 | the vehicle is armed, and an arm request is sent only when it was not armed; the pursuit fields do not change |
| VesselControl.VesselController.SetGuidedMode | 7_proj/vessel_controller.py:135-141 | equals `Pursuit.SetGuidedMode` on the snapshot: GUIDED is requested and following starts |
| VesselControl.VesselController.StopFollowing | 7_proj/vessel_controller.py:143-153 | equals `Pursuit.StopFollowing` on the snapshot: LOITER is requested and every pursuit field is cleared |
| Pursuit.Initial | 7_proj/vessel_controller.py:15-21 | the initial state satisfies the invariant: not following, no goto position, distance or samples, goto time the clock, report time 0 |
| Pursuit.PushSpeed | 7_proj/vessel_controller.py:91 | appending to the three-slot deque keeps the last (at most) three of the old contents plus the new sample |
| Pursuit.PushSpeedIsLatest | 7_proj/vessel_controller.py:21 | one append is exactly the last three samples of the longer history |
| Pursuit.PushAllKeepsLatest | 7_proj/vessel_controller.py:21 | after any number of appends the deque holds exactly the last three samples ever appended, in arrival order |
| Pursuit.FastOnAverageIsMean | 7_proj/vessel_controller.py:92-95 | the division-free speed test holds exactly when the mean of the samples exceeds 0.5 m/s |
| Pursuit.StatusLabel | 7_proj/vessel_controller.py:77-78 | LOITERING exactly when following within 5 m, STOPPED exactly when not following, FOLLOWING exactly when following at 5 m or more |
| Pursuit.ReportStatus | 7_proj/vessel_controller.py:74-80 | a line is printed exactly when 3 s have passed since the last one, and then it carries the distance and label and moves the report time to now; otherwise nothing changes |
| Pursuit.ReportsSpaced | 7_proj/vessel_controller.py:76-80 | over any sequence of clock readings, consecutive printed lines are at least 3 s apart |
| Pursuit.ScoutHasMoved | 7_proj/vessel_controller.py:82-95 | without an earlier goto the scout counts as moved and no sample is recorded; otherwise the speed is appended to the bounded buffer, and the scout counts as moved exactly when it is more than 4 m from the last goto target or the mean of the buffer exceeds 0.5 m/s |
| Pursuit.Pursue | 7_proj/vessel_controller.py:115-133 | the far branch keeps the invariant |
| Pursuit.UpdateGoto | 7_proj/vessel_controller.py:122-133 | the throttled goto keeps the invariant |
| Pursuit.GotoIfMoved | 7_proj/vessel_controller.py:128-133 | recording a sample and possibly a goto keeps the invariant |
| Pursuit.PursueEffect | 7_proj/vessel_controller.py:115-133 | far from the scout: the vehicle goes to GUIDED; one goto to the scout is appended and the throttle fields move to this update exactly when a goto is due, otherwise they stay; a sample is recorded exactly when an update is due after an earlier goto |
| Pursuit.FollowStep | 7_proj/vessel_controller.py:97-133 | `follow_scout` reports first; not following it changes only the report time; within 5 m it only requests LOITER if needed; farther it does what `Pursue` does; `following` never changes and the invariant is kept |
| Pursuit.FirstUpdateSendsGoto | 7_proj/vessel_controller.py:122-130 | the first update after pursuit (re)starts, far from the scout, always sends a goto to the scout's position |
| Pursuit.FastScoutSendsGoto | 7_proj/vessel_controller.py:92-130 | when an update is due and the mean of the last three speeds exceeds 0.5 m/s, a goto is sent whatever the displacement |
| Pursuit.DisplacementSendsGoto | 7_proj/vessel_controller.py:86-95 | when an update is due and the scout is more than 4 m from the last goto target, a goto to the scout is sent after the GUIDED request, and the throttle fields record this update |
| Pursuit.SlowScoutNoGoto | 7_proj/vessel_controller.py:86-95 | when an update is due but the scout is within 4 m of the last goto target and averages at most 0.5 m/s, no goto is sent, the throttle fields stay and only the speed sample is recorded |
| Pursuit.CloseRangeSendsNoGoto | 7_proj/vessel_controller.py:111-114 | within 5 m of the scout no goto is ever sent, whatever the throttle fields say |
| Pursuit.SetGuidedMode | 7_proj/vessel_controller.py:135-141 | GUIDED is requested and following starts; the throttle fields and the armed flag are kept |
| Pursuit.StopFollowing | 7_proj/vessel_controller.py:143-153 | LOITER is requested; following, goto time, position, distance and samples are cleared; the report time is kept; the invariant holds |
| Pursuit.ApplyKeepsInv | 7_proj/vessel_controller.py:122-126 | every public controller call keeps the invariant that makes the update test well defined |
| Pursuit.RunKeepsInv | 7_proj/vessel_controller.py:122-126 | no sequence of controller calls breaks that invariant, so `last_scout_distance + 5` never meets None |
| Pursuit.StopAfterAnyRun | 7_proj/vessel_controller.py:143-153 | arming, starting to follow, any calls, then stopping leaves every pursuit field empty |
| Vehicles.EnsureMode | 7_proj/vessel_controller.py:112-113 | the vehicle ends in the mode; a mode request is logged only when the mode differed, otherwise the vehicle is unchanged |
| Vehicles.EnsureArmed | 7_proj/vessel_controller.py:54-56 | the vehicle ends armed; an arm request is logged only when it was not armed |
| Team.ReadPosition | Code/7_proj/team.py:21-26 | a follow update carries exactly the numeric latitude, longitude and speed fields; anything else is an error |
| Team.CommandOrDrop | Code/7_proj/team.py:28-30 | on a command topic an object dispatches its lower-cased `command` (empty when missing), a non-object is an AttributeError; on any other topic the message is dropped, and only there |
| Team.Route | Code/7_proj/team.py:13-41 | a follow update happens only while following; undecodable bytes are a UnicodeError; non-JSON text is lower-cased, trimmed and dispatched on a command topic; only decoded messages on other topics are dropped; a follow update comes only from a decoded position object with all three keys and is what reading that object gives; a dispatch comes only on a command topic, either as the trimmed lower-cased plain text or as the lower-cased `command` field of a decoded object that is not a position; a decoded number, boolean or null is a TypeError on any topic |
| Team.PositionTakesPrecedence | Code/7_proj/team.py:20-28 | a position-shaped object is never taken as a command on any topic, and is acted on only while following |
| Team.NumericPositionFollows | Code/7_proj/team.py:20-26 | a numeric position while following is one follow update with those numbers |
| Team.CommandObjectDispatches | Code/7_proj/team.py:28-30 | any other object on a command topic dispatches its lower-cased `command` field, or the empty command |
| Team.OtherObjectDropped | Code/7_proj/team.py:27-30 | any other object on any other topic is dropped |
| Team.PlainTextFollowDispatches | Code/7_proj/team.py:32-36 | the plain text "  Follow\n" on a command topic dispatches "follow" |
| Team.CommandCalls | Code/7_proj/team.py:43-57 | "follow" calls arm then GUIDED, "stop" calls stop, anything else calls nothing |
| Team.CommandEffectIsRun | Code/7_proj/team.py:43-57 | the effect of `handle_command` is exactly running those controller calls in order |
| Team.HandleCommand | Code/7_proj/team.py:43-57 | the controller ends as `CommandEffect` of its state before, and its invariant is kept |
| Team.FollowArmsThenGuides | Code/7_proj/team.py:44-49 | "follow" arms only if needed, then requests GUIDED and starts following, keeping the throttle fields |
| Team.StopClears | Code/7_proj/team.py:51-55 | "stop" requests LOITER and clears pursuit, whatever came before |
| Team.UnknownCommandNoEffect | Code/7_proj/team.py:56-57 | any other command leaves controller and vehicle exactly as they were |
| Team.OnMessage | Code/7_proj/team.py:13-41 | the action taken is `Route` under the current following flag; a follow update is `follow_scout`, a dispatch is `handle_command`, and everything else leaves the controller alone and prints no status |
| Team.SubscribedTopics | Code/7_proj/team.py:77 | the follower subscribes to SCOUT_POSITION_TOPIC and then to its upper-cased team name followed by `_COMMANDS` |
| Team.SubscriptionsQos | Code/7_proj/team.py:77-84 | with both variables set, the position topic gets QoS 0 and the command topic QoS 1, both on the follower's callback, and nothing raises |
| Team.ScoutTopicIsNotCommands | 7_proj/mqtt_handler.py:95-98 | the lower-cased position variable name does not contain "commands" |
| Team.CommandTopicIsCommands | 7_proj/mqtt_handler.py:95-98 | the lower-cased command variable name contains "commands" for every team name |
| MqttCommon.LoadConfig | 7_proj/mqtt_handler.py:11-25 | an unset port is a TypeError and a non-integer port a ValueError; the settings are read exactly when broker, port and the role's username, password and topic are all set; then they hold those values |
| MqttCommon.Team1Keys | 7_proj/mqtt_handler.py:12-19 | the role is upper-cased before the variable names are built |
| MqttCommon.Classify | 7_proj/mqtt_handler.py:136-142 | "follow" and "stop" are recognised exactly, anything else is kept as an unknown command |
| MqttCommon.OnMessage | 7_proj/mqtt_handler.py:114-134 | undecodable bytes raise; non-JSON text is trimmed, lower-cased and classified on a command topic, and reported as invalid elsewhere; an object with both latitude and longitude is a position shown; a decoded number, boolean or null raises TypeError at the `in` test, and a list or text holding both words raises TypeError at indexing; any other decoded payload is, on a command topic, its lower-cased `command` field classified (or the error of reading it), and on any other topic shown as it is |
| MqttCommon.PositionWithoutSpeed | 7_proj/mqtt_handler.py:120-121 | a position needs only latitude and longitude |
| MqttCommon.PlainTextFollow | 7_proj/mqtt_handler.py:128-132 | "  Follow\n" as plain text on a command topic is the follow command |
| MqttCommon.MissingCommandIsEmpty | 7_proj/mqtt_handler.py:122-124 | an object without `command` on a command topic is the unknown, empty command |
| MqttCommon.Stamp | 7_proj/mqtt_handler.py:64-66 | the stamped payload has `boat` set to the username, the same other keys and values, and no new key but `boat` |
| MqttCommon.StampIdempotent | 7_proj/mqtt_handler.py:66 | stamping twice with the same name is stamping once |
| MqttCommon.StampOverwrites | 7_proj/mqtt_handler.py:66 | the last stamp wins |
| MqttCommon.Names | 7_proj/mqtt_handler.py:84-85 | one name becomes a one-element list; a list is kept as it is |
| MqttCommon.Resolve | 7_proj/mqtt_handler.py:87-102 | an unset variable is a ValueError; a QoS list too short for the position is an IndexError; otherwise the subscription has the variable's value as topic, the given callback, and the QoS of the list position, the single value, or the default rule |
| MqttCommon.SubscribeFrom | 7_proj/mqtt_handler.py:87-112 | the passes from a position on make at most one subscription per remaining name |
| MqttCommon.SubscribeFromPrefix | 7_proj/mqtt_handler.py:87-90 | the passes run in list order: each subscription made is its name's resolved one, and an error is the first failing name's, with nothing after it |
| MqttCommon.AllSubscribed | 7_proj/mqtt_handler.py:87-104 | with every name set and a long enough QoS list, every name is subscribed, in order, without error |
| MqttCommon.DefaultQosRule | 7_proj/mqtt_handler.py:93-98 | with the default rule a name gets QoS 1 exactly when "commands" occurs anywhere in it, in any case, and 0 otherwise |
| MqttCommon.MissingTopicNoRollback | 7_proj/mqtt_handler.py:88-90 | a missing name stops the call with its ValueError, and the names before it stay subscribed |
| MqttHandler7.Handler.constructor | 7_proj/mqtt_handler.py:11-25 | a handler exists only when the settings read from the environment are valid; it holds the role's username and position topic, and has subscribed and published nothing |
| MqttHandler7.Handler.Publish | 7_proj/mqtt_handler.py:64-80 | the caller's dictionary is stamped in place, and exactly that dictionary is published once to the handler's topic at the given QoS |
| MqttHandler7.Handler.Subscribe | 7_proj/mqtt_handler.py:82-112 | the subscriptions made and the error raised are exactly `SubscribePlan` of the names, QoS and callback; nothing is published |
| MqttHandler7.Handler.SubscribeOne | 7_proj/mqtt_handler.py:88-110 | one pass appends the resolved subscription, or raises its error and changes nothing |
| MqttHandler6.Handler.constructor | 6_proj/mqtt_handler.py:11-24 | a handler exists only when the settings read from the environment are valid; it holds the role's username and position topic, and has subscribed and published nothing |
| MqttHandler6.Handler.Publish | 6_proj/mqtt_handler.py:50-66 | the caller's dictionary is stamped in place, and exactly that dictionary is published once at QoS 0 |
| MqttHandler6.Handler.Subscribe | 6_proj/mqtt_handler.py:68-80 | the subscriptions are the plan at QoS 0 on the built-in callback; the only error is a missing variable |
| Payloads.In | 7_proj/mqtt_handler.py:120 | `key in v`: key membership for an object, element membership for a list, substring for a string, TypeError exactly for a number, boolean or null |
| Payloads.GetItem | 7_proj/mqtt_handler.py:121 | `v[key]` succeeds exactly on an object with that key, giving its value; a missing key is a KeyError |
| Payloads.LowerOf | 7_proj/mqtt_handler.py:123 | `.lower()` succeeds exactly on a string and gives it lower-cased |
| Payloads.CommandField | 7_proj/mqtt_handler.py:123 | `.get('command', '').lower()` is the empty string without the key, the lowered field with it, and an AttributeError on a non-object |
| Payloads.AsNumber | Code/7_proj/team.py:22-26 | numbers and booleans are numbers, each number being its own value, true being 1 and false 0; nothing else is |
| Payloads.PlainCommand | 7_proj/mqtt_handler.py:131 | the plain-text command is the payload text with only surrounding white space removed, lower-cased; it neither starts nor ends with white space |
| Payloads.PlainFollow | 7_proj/mqtt_handler.py:131 | "  Follow\n" reads as "follow" |
| Mission.ParseLine | 8_proj/mission_manager.py:31-39 | a line is skipped exactly when it is blank, a comment, or not three comma fields; accepted lines hold the three converted fields; rejected lines have a field `float` refuses |
| Mission.Step | 8_proj/mission_manager.py:30-39 | one pass adds at most one waypoint |
| Mission.Parse | 8_proj/mission_manager.py:30-39 | at most one waypoint per line |
| Mission.ParseAppend | 8_proj/mission_manager.py:30-39 | reading two pieces of a file is reading the first, then, only if it went through, the second, so waypoints come in file order |
| Mission.ParseOne | 8_proj/mission_manager.py:30-39 | a single line gives nothing, its one waypoint, or a stop |
| Mission.SkippedLineIrrelevant | 8_proj/mission_manager.py:32-33 | a blank, comment or malformed line anywhere in the file changes nothing |
| Mission.ParseStops | 8_proj/mission_manager.py:38 | once a line is rejected, no later line is read |
| Mission.ReadWaypoints | 8_proj/mission_manager.py:28-39 | the read loop returns exactly `Parse` of the lines |
| Mission.WaypointCommand | 8_proj/mission_manager.py:80-87 | each command is a NAV_WAYPOINT (16) in the global relative-altitude frame (3), with zero system, component, sequence, flags and parameters 1-4, and the waypoint's coordinates |
| Mission.Commands | 8_proj/mission_manager.py:78-88 | one command per waypoint, in order |
| Mission.AddRequests | 8_proj/mission_manager.py:88 | one add request per command, in order |
| Mission.CommandsRoundTrip | 8_proj/mission_manager.py:78-88 | the uploaded mission flies exactly the loaded waypoints, in order |
| Mission.ProgressPercent | 8_proj/mission_manager.py:148 | 0 for an empty mission, otherwise the next waypoint as a percentage of the total |
| Mission.ProgressBounds | 8_proj/mission_manager.py:148 | progress lies between 0 and 100 while the next waypoint is within the mission |
| Mission.ProgressMonotone | 8_proj/mission_manager.py:148 | progress never goes down as the next waypoint advances |
| Mission.PassOn | 8_proj/mission_manager.py:146-169 | every pass publishes progress; the loop goes on exactly when the next waypoint is below the total; it completes, adding the completion message, exactly when the total was reached and a start time exists |
| Mission.Monitor | 8_proj/mission_manager.py:142-171 | the loop completes only when a start time was recorded |
| Mission.CompleteAtMostOnceAndLast | 8_proj/mission_manager.py:160-169 | `mission_complete` is published at most once, only as the last message, only when the loop completes, and right after a progress message at the total |
| Mission.ProgressEveryPass | 8_proj/mission_manager.py:144-157 | each AUTO reading before the end publishes exactly one progress message |
| Mission.EmptyMissionCompletesAtOnce | 8_proj/mission_manager.py:148-169 | an empty mission completes on the first AUTO reading, at 0 % progress |
| Mission.MissionManager.constructor | 8_proj/mission_manager.py:8-11 | a new manager has no waypoints, no start time and has published nothing |
| Mission.MissionManager.LoadMissionFromFile | 8_proj/mission_manager.py:15-52 | an unreadable file changes nothing and returns no waypoints; otherwise it returns what was read, replaces the mission only if the whole file went through, and then publishes the count when the distance estimate exists |
| Mission.MissionManager.UploadMissionToVehicle | 8_proj/mission_manager.py:56-99 | the vehicle gets a clear, one add per waypoint in order, and an upload; its mission is the waypoints' commands; the count is published |
| Mission.MissionManager.StartMission | 8_proj/mission_manager.py:103-122 | the vehicle is armed if needed, then AUTO is requested, and the start time is the clock |
| Mission.MissionManager.MonitorMissionProgress | 8_proj/mission_manager.py:126-171 | the messages published and how the loop ends are exactly `Monitor` of the mission size, start time and readings |
| Mission.MissionManager.PublishPass | 8_proj/mission_manager.py:146-169 | one pass publishes exactly the messages of `PassOn` and reports whether and how the loop stops |
| Text.Lower | 7_proj/mqtt_handler.py:95 | same length, every letter A-Z mapped to its lower-case form and every other character kept |
| Text.Upper | 7_proj/mqtt_handler.py:12 | same length, every letter a-z mapped to its upper-case form and every other character kept |
| Text.Strip | 8_proj/mission_manager.py:31 | the result is a slice cut out of the text by removing only white space at both ends, and it neither starts nor ends with white space |
| Text.Split | 8_proj/mission_manager.py:34 | splitting gives at least one piece |
| Text.SplitJoin | 8_proj/mission_manager.py:34 | joining the pieces with the separator gives back the text |

## Left out

- `calculate_distance`, the haversine formula, is floating point. It is the parameter `dist`; the proofs hold for every distance function.
- `time.time()` is the parameter `now` (or an observation's `clock`).
- Every `while ...: time.sleep(1)` wait for the vehicle's confirmation is treated as confirming at once: a requested mode or arming takes effect immediately.
- DroneKit, paho-mqtt, `json`, `dotenv`, TLS and the CA-certificate settings are not modelled. A decoded payload is a `Json` value, and a publish records the stamped dictionary it would serialise with `json.dumps`.
- The MQTT network thread, reconnects and concurrency between callbacks are not modelled; callbacks run one after another.
- Case mapping covers ASCII letters only: A-Z and a-z are mapped, every other character is kept. `strip()` and `Text.IsSpace` use Python's full `str.isspace()` set: tab to carriage return, 0x1C-0x20, 0x85, 0xA0, 0x1680, 0x2000-0x200A, 0x2028, 0x2029, 0x202F, 0x205F and 0x3000.
- `print` output is not modelled; the status line is returned as a `Report` value. `print_command_message`, `get_telemetry`, `close_connection` and `disconnect` only print, read the vehicle or close connections.
- `get_connection_string` and the DroneKit `connect` call are not modelled. The first reads `<ROLE>_CONNECTION_STRING` from the environment and raises ValueError when it is unset or empty. A `VesselController` is modelled only once it is connected, with its vehicle given to the constructor.
- Python floats are modelled as exact `real` numbers: there is no rounding error, NaN or infinity. This affects the mean-speed test against 0.5 m/s, the clock thresholds of 3 s and 15 s, the distance comparisons, the progress division, and JSON numbers such as `NaN` or `Infinity`.
- `follow_scout` reads the clock twice: once itself for the goto throttle, once inside `report_status`. The model uses one reading `now` for both.
- The main loops, the argument parsing and the reconnect logic of the scripts around the core are not part of this model.
- `round(progress, 2)` and `round(total_time)` are not modelled; the published values are unrounded.
- Mission.MissionManager.LoadMissionFromFile: a file is either unreadable or a complete list of lines. A read or decode error part-way through the file is not modelled; there the source returns the waypoints read so far and, as for a bad number, leaves the mission as it was.
- `estimate_mission_distance` is not defined in `8_proj/mission_manager.py`. Calling it raises AttributeError, which the surrounding `except` catches. The model takes its result as an `Option` parameter, where None is the raise; with the source as written the `mission_loaded` message is never published.
- `monitor_mission_progress` reads `vehicle.mode.name` twice per pass and `commands.next` once. The model takes one reading per pass. The loop also stops when the readings run out (`ReadingsExhausted`), where the source would wait for more.
- Team.ReadPosition: a position whose `ground_speed` is not a number (null, text, a list or an object) is reported at once as a TypeError, and the controller is left alone. The source does not check the speed: it passes it on to `follow_scout`. There the speed is used only when the follower is following, at least 5 m from the scout, an update is due and an earlier goto exists. In every other case the source goes on as with a number, and may send a goto. When the speed is used, the source first moves the report time if 3 s have passed, requests GUIDED if the vehicle is not already in it, and appends the bad sample to the speed buffer, and only then raises a TypeError in the sum. The bad sample then stays in the buffer for the next two updates. The model leaves this out because the scout publishes its speed as a rounded float (`get_telemetry` of 7_proj/vessel_controller.py), so a non-numeric speed does not occur between the project's own programs. A non-numeric latitude or longitude is modelled as the source handles it: the distance computation raises before any state changes.
- Team.Route: inherits the `Team.ReadPosition` simplification of a non-numeric `ground_speed`.
- MqttHandler7.Handler.Publish: the return code of `client.publish` and its `rc` check are not modelled.
- MqttHandler6.Handler.Publish: the return code of `client.publish` is not modelled.
- MqttHandler7.Handler.Subscribe: the result codes that `client.subscribe` returns are not modelled.
- MqttHandler6.Handler.Subscribe: the result code that `client.subscribe` returns is not modelled.
