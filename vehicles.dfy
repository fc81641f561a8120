/**
 * The DroneKit vehicle as the controllers see it: its flight mode, whether
 * it is armed, its mission command list, and the log of every request the
 * controllers have sent it, in order. A mode or arm request is taken as
 * confirmed at once (the source polls until the vehicle reports it).
 */
module Vehicles {

  datatype Position = Position(lat: real, lon: real)

  /** `LocationGlobalRelative(lat, lon, alt)` */
  datatype Target = Target(lat: real, lon: real, alt: real)

  const LOITER: string := "LOITER"
  const GUIDED: string := "GUIDED"
  const AUTO: string := "AUTO"

  /** MAVLink `MAV_FRAME_GLOBAL_RELATIVE_ALT` */
  const FrameGlobalRelativeAlt: int := 3
  /** MAVLink `MAV_CMD_NAV_WAYPOINT` */
  const CmdNavWaypoint: int := 16

  /** A DroneKit `Command`: target system, component, sequence, frame, command, current, autocontinue, params 1-7. */
  datatype MissionItem = MissionItem(
    targetSystem: int, targetComponent: int, sequence: int,
    frame: int, command: int, current: int, autocontinue: int,
    param1: real, param2: real, param3: real, param4: real,
    lat: real, lon: real, alt: real)

  datatype Request =
    | Arm
    | SetMode(mode: string)
    | Goto(target: Target)
    | ClearMission
    | AddItem(item: MissionItem)
    | UploadMission

  datatype Vehicle = Vehicle(
    mode: string,
    armed: bool,
    missionItems: seq<MissionItem>,
    uploaded: seq<MissionItem>,
    requests: seq<Request>)

  /** `vehicle.mode = VehicleMode(m)` */
  function RequestMode(v: Vehicle, m: string): Vehicle
  {
    v.(mode := m, requests := v.requests + [SetMode(m)])
  }

  /** `vehicle.armed = True` */
  function RequestArm(v: Vehicle): Vehicle
  {
    v.(armed := true, requests := v.requests + [Arm])
  }

  /** `vehicle.simple_goto(t)` */
  function RequestGoto(v: Vehicle, t: Target): Vehicle
  {
    v.(requests := v.requests + [Goto(t)])
  }

  /** Ask for mode `m` only when the vehicle is in another mode. */
  function EnsureMode(v: Vehicle, m: string): (w: Vehicle)
    ensures w.mode == m
    ensures w.requests == v.requests + (if v.mode == m then [] else [SetMode(m)])
    ensures w.(mode := v.mode, requests := v.requests) == v
  {
    if v.mode != m then RequestMode(v, m) else v
  }

  /** Ask the vehicle to arm only when it is disarmed. */
  function EnsureArmed(v: Vehicle): (w: Vehicle)
    ensures w.armed
    ensures w.requests == v.requests + (if v.armed then [] else [Arm])
    ensures w.(armed := v.armed, requests := v.requests) == v
  {
    if v.armed then v else RequestArm(v)
  }
}
