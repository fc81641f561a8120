/**
 * `VesselController` of 7_proj/vessel_controller.py: the follower's pursuit
 * state, updated in place by each call. Most methods are tied to the
 * function of module Pursuit that specifies them; EnsureMode and ArmVehicle
 * are tied to the functions of module Vehicles, and SendGoto states its
 * effect field by field.
 */
module VesselControl {
  import opened Wrappers
  import opened Vehicles
  import opened Pursuit

  class VesselController {
    var following: bool
    var lastScoutDistance: Option<real>
    var lastGotoTime: Option<real>
    var lastGotoPosition: Option<Position>
    var lastReportTime: real
    /** the last (at most) three scout speeds, oldest first */
    var scoutSpeeds: seq<real>
    var vehicle: Vehicle

    function State(): PursuitState
      reads this
    {
      PursuitState(following, lastGotoTime, lastGotoPosition, lastScoutDistance, lastReportTime, scoutSpeeds)
    }

    function Snapshot(): Control
      reads this
    {
      Control(State(), vehicle)
    }

    ghost predicate Valid()
      reads this
    {
      Inv(State())
    }

    /** `__init__` after the vehicle connection is made, at clock reading `now`. */
    constructor (vehicle: Vehicle, now: real)
      ensures Valid() && State() == Initial(now) && this.vehicle == vehicle
    {
      following := false;
      lastScoutDistance := None;
      lastGotoTime := Some(now);
      lastGotoPosition := None;
      lastReportTime := 0.0;
      scoutSpeeds := [];
      this.vehicle := vehicle;
    }

    method ReportStatus(distance: real, now: real) returns (report: Option<Report>)
      requires Valid()
      modifies this
      ensures Valid() && vehicle == old(vehicle)
      ensures var r := Pursuit.ReportStatus(old(State()), distance, now);
        State() == r.state && report == r.report
    {
      report := None;
      if now - lastReportTime >= ReportInterval {
        report := Some(Report(distance, StatusLabel(following, distance)));
        lastReportTime := now;
      }
    }

    method ScoutHasMoved(scout: Position, speed: real, dist: Distance) returns (moved: bool)
      requires Valid()
      modifies this
      ensures Valid() && vehicle == old(vehicle)
      ensures var m := Pursuit.ScoutHasMoved(old(State()), scout, speed, dist);
        moved == m.moved && State() == old(State()).(speeds := m.speeds)
    {
      if lastGotoPosition.None? {
        return true;
      }
      var distanceMoved := dist(lastGotoPosition.value, scout);
      scoutSpeeds := PushSpeed(scoutSpeeds, speed);
      var avgSpeed := Mean(scoutSpeeds);
      FastOnAverageIsMean(scoutSpeeds);
      moved := distanceMoved > MovedThreshold || avgSpeed > SpeedThreshold;
    }

    method FollowScout(scout: Position, speed: real, now: real, own: Position, dist: Distance)
      returns (report: Option<Report>)
      requires Valid()
      modifies this
      ensures Valid()
      ensures var r := FollowStep(old(State()), old(vehicle), scout, speed, now, own, dist);
        State() == r.state && vehicle == r.vehicle && report == r.report
    {
      var currentDistance := dist(own, scout);
      report := ReportStatus(currentDistance, now);
      if following {
        if currentDistance < CloseRange {
          EnsureMode(LOITER);
        } else {
          Pursue(scout, speed, now, currentDistance, dist);
        }
      }
    }

    /** Request mode `m` only when the vehicle is in another mode. */
    method EnsureMode(m: string)
      modifies this
      ensures State() == old(State()) && vehicle == Vehicles.EnsureMode(old(vehicle), m)
    {
      if vehicle.mode != m {
        vehicle := RequestMode(vehicle, m);
      }
    }

    /** The far branch of `follow_scout`: GUIDED, then a goto when one is due. */
    method Pursue(scout: Position, speed: real, now: real, currentDistance: real, dist: Distance)
      requires Valid()
      modifies this
      ensures Valid()
      ensures Snapshot() == Pursuit.Pursue(old(State()), old(vehicle), scout, speed, now, currentDistance, dist)
    {
      EnsureMode(GUIDED);
      UpdateGoto(scout, speed, now, currentDistance, dist);
    }

    /** The throttle of the far branch: a goto only when one is due and the scout has moved. */
    method UpdateGoto(scout: Position, speed: real, now: real, currentDistance: real, dist: Distance)
      requires Valid()
      modifies this
      ensures Valid()
      ensures Snapshot() == Pursuit.UpdateGoto(old(State()), old(vehicle), scout, speed, now, currentDistance, dist)
    {
      if ShouldUpdate(State(), now, currentDistance) {
        GotoIfMoved(scout, speed, now, currentDistance, dist);
      }
    }

    /** An update is due: record the speed, and send the goto when the scout has moved. */
    method GotoIfMoved(scout: Position, speed: real, now: real, currentDistance: real, dist: Distance)
      requires Valid()
      modifies this
      ensures Valid()
      ensures Snapshot() == Pursuit.GotoIfMoved(old(State()), old(vehicle), scout, speed, now, currentDistance, dist)
    {
      var moved := ScoutHasMoved(scout, speed, dist);
      if moved {
        SendGoto(scout, now, currentDistance);
      }
    }

    /** The goto towards the scout's position at altitude 0, and the throttle fields that record it. */
    method SendGoto(scout: Position, now: real, currentDistance: real)
      modifies this
      ensures vehicle == RequestGoto(old(vehicle), Target(scout.lat, scout.lon, 0.0))
      ensures State() == old(State()).(lastGotoTime := Some(now), lastGotoPosition := Some(scout),
                                       lastScoutDistance := Some(currentDistance))
    {
      vehicle := RequestGoto(vehicle, Target(scout.lat, scout.lon, 0.0));
      lastGotoTime := Some(now);
      lastGotoPosition := Some(scout);
      lastScoutDistance := Some(currentDistance);
    }

    method ArmVehicle()
      requires Valid()
      modifies this
      ensures Valid()
      ensures State() == old(State()) && vehicle == EnsureArmed(old(vehicle))
    {
      if !vehicle.armed {
        vehicle := RequestArm(vehicle);
      }
    }

    method SetGuidedMode()
      requires Valid()
      modifies this
      ensures Valid()
      ensures Snapshot() == Pursuit.SetGuidedMode(old(Snapshot()))
    {
      vehicle := RequestMode(vehicle, GUIDED);
      following := true;
    }

    method StopFollowing()
      requires Valid()
      modifies this
      ensures Valid()
      ensures Snapshot() == Pursuit.StopFollowing(old(Snapshot()))
    {
      vehicle := RequestMode(vehicle, LOITER);
      following := false;
      lastScoutDistance := None;
      lastGotoTime := None;
      lastGotoPosition := None;
      scoutSpeeds := [];
    }
  }
}
