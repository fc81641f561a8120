/**
 * The follower's pursuit decisions (`VesselController` in
 * 7_proj/vessel_controller.py) as functions of the controller's state, the
 * vehicle record and the inputs of one call. Great-circle distance is a
 * parameter `dist`; the clock reading `now` is an input.
 */
module Pursuit {
  import opened Wrappers
  import opened Vehicles

  /** `report_interval`, seconds between two status lines */
  const ReportInterval: real := 3.0
  /** below this distance to the scout the follower loiters */
  const CloseRange: real := 5.0
  /** a goto older than this many seconds is due again */
  const GotoCeiling: real := 15.0
  /** growth of the distance since the last goto that makes a goto due */
  const FallingBehind: real := 5.0
  /** displacement of the scout, in metres, that counts as movement */
  const MovedThreshold: real := 4.0
  /** mean scout speed, in m/s, that counts as movement */
  const SpeedThreshold: real := 0.5
  /** capacity of the speed buffer, a deque bounded to three samples */
  const SpeedSamples: nat := 3

  /** Distance in metres between two positions (`calculate_distance`). */
  type Distance = (Position, Position) -> real

  datatype PursuitState = PursuitState(
    following: bool,
    lastGotoTime: Option<real>,
    lastGotoPosition: Option<Position>,
    lastScoutDistance: Option<real>,
    lastReportTime: real,
    speeds: seq<real>)

  /**
   * What keeps `last_scout_distance + 5` and `now - last_goto_time` away
   * from None: a goto position is recorded exactly when a goto distance is,
   * and then a goto time is known too.
   */
  predicate Inv(s: PursuitState)
  {
    && |s.speeds| <= SpeedSamples
    && (s.lastGotoPosition.None? <==> s.lastScoutDistance.None?)
    && (s.lastGotoPosition.Some? ==> s.lastGotoTime.Some?)
  }

  /** `__init__`: `last_goto_time` starts at the clock, everything else empty. */
  function Initial(now: real): (s: PursuitState)
    ensures Inv(s)
    ensures !s.following && s.lastGotoPosition.None? && s.lastScoutDistance.None?
    ensures s.lastGotoTime == Some(now) && s.lastReportTime == 0.0 && s.speeds == []
  {
    PursuitState(false, Some(now), None, None, 0.0, [])
  }

  // ---------------------------------------------------------------- speeds

  /** Appending to the bounded speed buffer: the oldest sample falls out when it is full. */
  function PushSpeed(buf: seq<real>, x: real): (r: seq<real>)
    requires |buf| <= SpeedSamples
    ensures |r| == if |buf| < SpeedSamples then |buf| + 1 else SpeedSamples
    ensures r == (buf + [x])[|buf| + 1 - |r|..]
  {
    if |buf| < SpeedSamples then buf + [x] else buf[1..] + [x]
  }

  /** The last (at most) three elements of `q`. */
  function LastSamples(q: seq<real>): (r: seq<real>)
    ensures |r| <= SpeedSamples
  {
    if |q| <= SpeedSamples then q else q[|q| - SpeedSamples..]
  }

  /** Several appends in a row. */
  function PushAll(buf: seq<real>, xs: seq<real>): (r: seq<real>)
    requires |buf| <= SpeedSamples
    decreases |xs|
  {
    if xs == [] then buf else PushAll(PushSpeed(buf, xs[0]), xs[1..])
  }

  /** One append is the last three of the longer sequence. */
  lemma PushSpeedIsLatest(buf: seq<real>, x: real)
    requires |buf| <= SpeedSamples
    ensures PushSpeed(buf, x) == LastSamples(buf + [x])
  {
  }

  /** Trimming to the last three before appending more changes nothing about the last three. */
  lemma LastSamplesAbsorb(p: seq<real>, tail: seq<real>)
    ensures LastSamples(LastSamples(p) + tail) == LastSamples(p + tail)
  {
    var b := LastSamples(p);
    if |p| > SpeedSamples {
      var k := |p| - SpeedSamples;
      assert b + tail == (p + tail)[k..];
      var q := p + tail;
      if |b + tail| > SpeedSamples {
        assert (b + tail)[|b + tail| - SpeedSamples..] == q[|q| - SpeedSamples..];
      }
    }
  }

  /** One append followed by the last three of more samples. */
  lemma PushThenLatest(buf: seq<real>, x: real, rest: seq<real>)
    requires |buf| <= SpeedSamples
    ensures LastSamples(PushSpeed(buf, x) + rest) == LastSamples(buf + ([x] + rest))
  {
    PushSpeedIsLatest(buf, x);
    LastSamplesAbsorb(buf + [x], rest);
    assert (buf + [x]) + rest == buf + ([x] + rest);
  }

  /** The buffer always holds the most recent (at most) three samples, in arrival order. */
  lemma {:induction false} PushAllKeepsLatest(buf: seq<real>, xs: seq<real>)
    requires |buf| <= SpeedSamples
    ensures PushAll(buf, xs) == LastSamples(buf + xs)
    decreases |xs|
  {
    if xs == [] {
      assert buf + xs == buf;
    } else {
      var b := PushSpeed(buf, xs[0]);
      PushAllKeepsLatest(b, xs[1..]);
      PushThenLatest(buf, xs[0], xs[1..]);
      assert [xs[0]] + xs[1..] == xs;
    }
  }

  function Sum(xs: seq<real>): real
    decreases |xs|
  {
    if xs == [] then 0.0 else xs[0] + Sum(xs[1..])
  }

  /** The arithmetic mean of the recorded speeds. */
  function Mean(xs: seq<real>): real
    requires |xs| > 0
  {
    Sum(xs) / (|xs| as real)
  }

  /** The mean speed exceeds the threshold, stated without the division. */
  predicate FastOnAverage(xs: seq<real>)
    requires |xs| > 0
  {
    Sum(xs) > SpeedThreshold * (|xs| as real)
  }

  lemma FastOnAverageIsMean(xs: seq<real>)
    requires |xs| > 0
    ensures FastOnAverage(xs) <==> Mean(xs) > SpeedThreshold
  {
    var n := |xs| as real;
    assert Mean(xs) * n == Sum(xs);
  }

  // ---------------------------------------------------------------- report_status

  datatype Label = Loitering | Stopped | Following

  /** The mode word of the status line. */
  function StatusLabel(following: bool, distance: real): (l: Label)
    ensures l == Loitering <==> following && distance < CloseRange
    ensures l == Stopped <==> !following
    ensures l == Following <==> following && distance >= CloseRange
  {
    if following && distance < CloseRange then Loitering
    else if !following then Stopped
    else Following
  }

  datatype Report = Report(distance: real, mode: Label)

  datatype Reported = Reported(state: PursuitState, report: Option<Report>)

  /**
   * `report_status`: a line is printed, and its time recorded, only when at
   * least `ReportInterval` seconds have passed since the last recorded one.
   */
  function ReportStatus(s: PursuitState, distance: real, now: real): (r: Reported)
    ensures r.report.Some? <==> now - s.lastReportTime >= ReportInterval
    ensures r.report.Some? ==>
      r.report.value == Report(distance, StatusLabel(s.following, distance))
      && r.state == s.(lastReportTime := now)
    ensures r.report.None? ==> r.state == s
  {
    if now - s.lastReportTime >= ReportInterval then
      Reported(s.(lastReportTime := now), Some(Report(distance, StatusLabel(s.following, distance))))
    else
      Reported(s, None)
  }

  /** The times of the lines printed over a sequence of calls at clock readings `ts`. */
  function ReportTimes(s: PursuitState, distance: real, ts: seq<real>): seq<real>
    decreases |ts|
  {
    if ts == [] then []
    else
      var r := ReportStatus(s, distance, ts[0]);
      (if r.report.Some? then [ts[0]] else []) + ReportTimes(r.state, distance, ts[1..])
  }

  /** Printed status lines are at least `ReportInterval` apart, whatever the clock does. */
  lemma {:induction false} ReportsSpaced(s: PursuitState, distance: real, ts: seq<real>)
    ensures var rs := ReportTimes(s, distance, ts);
      (|rs| > 0 ==> rs[0] >= s.lastReportTime + ReportInterval)
      && forall i :: 0 < i < |rs| ==> rs[i] >= rs[i - 1] + ReportInterval
    decreases |ts|
  {
    if ts != [] {
      var r := ReportStatus(s, distance, ts[0]);
      ReportsSpaced(r.state, distance, ts[1..]);
      var rest := ReportTimes(r.state, distance, ts[1..]);
      if r.report.Some? {
        assert r.state.lastReportTime == ts[0];
        var rs := [ts[0]] + rest;
        assert forall i :: 0 < i < |rs| ==> rs[i] == rest[i - 1];
      } else {
        assert r.state == s;
      }
    }
  }

  // ---------------------------------------------------------------- follow_scout

  /** The update-due test of `follow_scout`. */
  predicate ShouldUpdate(s: PursuitState, now: real, distance: real)
    requires Inv(s)
  {
    || s.lastGotoPosition.None?
    || now - s.lastGotoTime.value >= GotoCeiling
    || distance > s.lastScoutDistance.value + FallingBehind
  }

  datatype Movement = Movement(moved: bool, speeds: seq<real>)

  /**
   * `scout_has_moved`: true at once when no goto was issued yet; otherwise
   * the speed is recorded and the scout counts as moving when it is more
   * than 4 m from the last goto target or the mean recorded speed is above
   * 0.5 m/s.
   */
  function ScoutHasMoved(s: PursuitState, scout: Position, speed: real, dist: Distance): (m: Movement)
    requires Inv(s)
    ensures |m.speeds| <= SpeedSamples
    ensures s.lastGotoPosition.None? ==> m.moved && m.speeds == s.speeds
    ensures s.lastGotoPosition.Some? ==> |m.speeds| > 0 && m.speeds[|m.speeds| - 1] == speed
    ensures s.lastGotoPosition.Some? ==>
      && m.speeds == PushSpeed(s.speeds, speed)
      && (m.moved <==> dist(s.lastGotoPosition.value, scout) > MovedThreshold || Mean(m.speeds) > SpeedThreshold)
  {
    if s.lastGotoPosition.None? then Movement(true, s.speeds)
    else
      var buf := PushSpeed(s.speeds, speed);
      FastOnAverageIsMean(buf);
      Movement(dist(s.lastGotoPosition.value, scout) > MovedThreshold || FastOnAverage(buf), buf)
  }

  /**
   * Whether a goto is sent, given the state before the call. `and` short-
   * circuits, so `scout_has_moved` only runs when an update is due.
   */
  predicate GotoDue(s: PursuitState, scout: Position, speed: real, now: real, distance: real, dist: Distance)
    requires Inv(s)
  {
    ShouldUpdate(s, now, distance) && ScoutHasMoved(s, scout, speed, dist).moved
  }

  datatype Control = Control(state: PursuitState, vehicle: Vehicle)

  datatype Step = Step(state: PursuitState, vehicle: Vehicle, report: Option<Report>)

  /**
   * The far branch of `follow_scout`, after the status report: GUIDED, and
   * a goto towards the scout exactly when one is due.
   */
  function Pursue(s: PursuitState, v: Vehicle, scout: Position, speed: real, now: real,
                  distance: real, dist: Distance): (r: Control)
    requires Inv(s)
    ensures Inv(r.state)
  {
    UpdateGoto(s, EnsureMode(v, GUIDED), scout, speed, now, distance, dist)
  }

  /** The throttled goto of the far branch, once the vehicle is in GUIDED. */
  function UpdateGoto(s: PursuitState, v: Vehicle, scout: Position, speed: real, now: real,
                      distance: real, dist: Distance): (r: Control)
    requires Inv(s)
    ensures Inv(r.state)
  {
    if !ShouldUpdate(s, now, distance) then Control(s, v)
    else GotoIfMoved(s, v, scout, speed, now, distance, dist)
  }

  /** An update is due: `scout_has_moved` decides whether the goto is sent. */
  function GotoIfMoved(s: PursuitState, v: Vehicle, scout: Position, speed: real, now: real,
                       distance: real, dist: Distance): (r: Control)
    requires Inv(s)
    ensures Inv(r.state)
  {
    var m := ScoutHasMoved(s, scout, speed, dist);
    var s2 := s.(speeds := m.speeds);
    if !m.moved then Control(s2, v)
    else
      Control(s2.(lastGotoTime := Some(now), lastGotoPosition := Some(scout), lastScoutDistance := Some(distance)),
              RequestGoto(v, Target(scout.lat, scout.lon, 0.0)))
  }

  /**
   * What the far branch changes: the mode becomes GUIDED, a goto towards the
   * scout is appended and the throttle fields move to this update exactly
   * when a goto is due, and a speed sample is recorded exactly when an
   * update is due after an earlier goto.
   */
  lemma PursueEffect(s: PursuitState, v: Vehicle, scout: Position, speed: real, now: real,
                     distance: real, dist: Distance)
    requires Inv(s)
    ensures var r := Pursue(s, v, scout, speed, now, distance, dist);
      var due := GotoDue(s, scout, speed, now, distance, dist);
      && r.state.following == s.following && r.state.lastReportTime == s.lastReportTime
      && r.vehicle == EnsureMode(v, GUIDED).(requests := r.vehicle.requests)
      && r.vehicle.requests == EnsureMode(v, GUIDED).requests
           + (if due then [Goto(Target(scout.lat, scout.lon, 0.0))] else [])
      && (due ==> r.state.lastGotoTime == Some(now) && r.state.lastGotoPosition == Some(scout)
                  && r.state.lastScoutDistance == Some(distance))
      && (!due ==> r.state.lastGotoTime == s.lastGotoTime && r.state.lastGotoPosition == s.lastGotoPosition
                   && r.state.lastScoutDistance == s.lastScoutDistance)
      && r.state.speeds ==
           if ShouldUpdate(s, now, distance) && s.lastGotoPosition.Some? then PushSpeed(s.speeds, speed) else s.speeds
  {
  }

  /**
   * `follow_scout(scout, speed)` at clock reading `now` while the follower
   * is at `own`: report, then loiter when close, otherwise pursue.
   */
  function FollowStep(s: PursuitState, v: Vehicle, scout: Position, speed: real, now: real,
                      own: Position, dist: Distance): (r: Step)
    requires Inv(s)
    ensures Inv(r.state)
    ensures r.state.following == s.following
    ensures var rep := ReportStatus(s, dist(own, scout), now);
      r.report == rep.report && r.state.lastReportTime == rep.state.lastReportTime
    // not following: only the report clock may move
    ensures !s.following ==>
      r.vehicle == v && r.state == s.(lastReportTime := r.state.lastReportTime)
    // close to the scout: loiter, no goto, no throttle field touched
    ensures s.following && dist(own, scout) < CloseRange ==>
      r.vehicle == EnsureMode(v, LOITER) && r.state == s.(lastReportTime := r.state.lastReportTime)
    // far from the scout: what the pursuit step does, from the same throttle fields
    ensures s.following && dist(own, scout) >= CloseRange ==>
      var p := Pursue(s, v, scout, speed, now, dist(own, scout), dist);
      r.vehicle == p.vehicle && r.state == p.state.(lastReportTime := r.state.lastReportTime)
  {
    var d := dist(own, scout);
    var rep := ReportStatus(s, d, now);
    var s1 := rep.state;
    if !s1.following then Step(s1, v, rep.report)
    else if d < CloseRange then Step(s1, EnsureMode(v, LOITER), rep.report)
    else
      var p := Pursue(s1, v, scout, speed, now, d, dist);
      assert GotoDue(s1, scout, speed, now, d, dist) == GotoDue(s, scout, speed, now, d, dist);
      Step(p.state, p.vehicle, rep.report)
  }

  /** Sent goto requests in a request log. */
  function Gotos(rs: seq<Request>): seq<Target>
    decreases |rs|
  {
    if rs == [] then [] else (if rs[0].Goto? then [rs[0].target] else []) + Gotos(rs[1..])
  }

  lemma {:induction false} GotosAppend(a: seq<Request>, b: seq<Request>)
    ensures Gotos(a + b) == Gotos(a) + Gotos(b)
    decreases |a|
  {
    if a == [] {
      assert a + b == b;
    } else {
      GotosAppend(a[1..], b);
      assert (a + b)[0] == a[0];
      assert (a + b)[1..] == a[1..] + b;
    }
  }

  /** The first update after (re)starting pursuit, far from the scout, always sends a goto. */
  lemma FirstUpdateSendsGoto(s: PursuitState, v: Vehicle, scout: Position, speed: real, now: real,
                             own: Position, dist: Distance)
    requires Inv(s) && s.following && s.lastGotoPosition.None? && dist(own, scout) >= CloseRange
    ensures Gotos(FollowStep(s, v, scout, speed, now, own, dist).vehicle.requests)
            == Gotos(v.requests) + [Target(scout.lat, scout.lon, 0.0)]
  {
    var r := FollowStep(s, v, scout, speed, now, own, dist);
    var extra := (if v.mode == GUIDED then [] else [SetMode(GUIDED)]) + [Goto(Target(scout.lat, scout.lon, 0.0))];
    assert r.vehicle.requests == v.requests + extra;
    GotosAppend(v.requests, extra);
    var g := [Goto(Target(scout.lat, scout.lon, 0.0))];
    assert Gotos(g) == [Target(scout.lat, scout.lon, 0.0)] by { assert g[1..] == []; }
    if v.mode != GUIDED {
      var m := [SetMode(GUIDED)];
      assert Gotos(m) == [] by { assert m[1..] == []; }
      GotosAppend(m, g);
      assert extra == m + g;
    } else {
      assert extra == g;
    }
  }

  /**
   * A due update sends a goto when the recorded speeds, with this one, average
   * above 0.5 m/s, however little the scout has moved.
   */
  lemma FastScoutSendsGoto(s: PursuitState, v: Vehicle, scout: Position, speed: real, now: real,
                           own: Position, dist: Distance)
    requires Inv(s) && s.following && s.lastGotoPosition.Some? && dist(own, scout) >= CloseRange
    requires ShouldUpdate(s, now, dist(own, scout))
    requires Mean(PushSpeed(s.speeds, speed)) > SpeedThreshold
    ensures |FollowStep(s, v, scout, speed, now, own, dist).vehicle.requests| > |v.requests|
    ensures var rs := FollowStep(s, v, scout, speed, now, own, dist).vehicle.requests;
      rs[|rs| - 1] == Goto(Target(scout.lat, scout.lon, 0.0))
  {
    FastOnAverageIsMean(PushSpeed(s.speeds, speed));
  }

  /** A due update sends a goto when the scout is more than 4 m from the last goto target, whatever its speed. */
  lemma DisplacementSendsGoto(s: PursuitState, v: Vehicle, scout: Position, speed: real, now: real,
                              own: Position, dist: Distance)
    requires Inv(s) && s.following && s.lastGotoPosition.Some? && dist(own, scout) >= CloseRange
    requires ShouldUpdate(s, now, dist(own, scout))
    requires dist(s.lastGotoPosition.value, scout) > MovedThreshold
    ensures var r := FollowStep(s, v, scout, speed, now, own, dist);
      && r.vehicle.requests == EnsureMode(v, GUIDED).requests + [Goto(Target(scout.lat, scout.lon, 0.0))]
      && r.state.lastGotoPosition == Some(scout) && r.state.lastGotoTime == Some(now)
      && r.state.lastScoutDistance == Some(dist(own, scout))
  {
  }

  /**
   * A due update for a scout that stayed within 4 m and averages at most
   * 0.5 m/s sends no goto: only the speed sample is recorded.
   */
  lemma SlowScoutNoGoto(s: PursuitState, v: Vehicle, scout: Position, speed: real, now: real,
                        own: Position, dist: Distance)
    requires Inv(s) && s.following && s.lastGotoPosition.Some? && dist(own, scout) >= CloseRange
    requires ShouldUpdate(s, now, dist(own, scout))
    requires dist(s.lastGotoPosition.value, scout) <= MovedThreshold
    requires Mean(PushSpeed(s.speeds, speed)) <= SpeedThreshold
    ensures var r := FollowStep(s, v, scout, speed, now, own, dist);
      && r.vehicle == EnsureMode(v, GUIDED)
      && r.state.speeds == PushSpeed(s.speeds, speed)
      && r.state.lastGotoPosition == s.lastGotoPosition && r.state.lastGotoTime == s.lastGotoTime
      && r.state.lastScoutDistance == s.lastScoutDistance
  {
  }

  /** Close to the scout no goto is ever sent, whatever the throttle fields say. */
  lemma CloseRangeSendsNoGoto(s: PursuitState, v: Vehicle, scout: Position, speed: real, now: real,
                              own: Position, dist: Distance)
    requires Inv(s) && dist(own, scout) < CloseRange
    ensures Gotos(FollowStep(s, v, scout, speed, now, own, dist).vehicle.requests) == Gotos(v.requests)
  {
    var r := FollowStep(s, v, scout, speed, now, own, dist);
    if s.following && v.mode != LOITER {
      GotosAppend(v.requests, [SetMode(LOITER)]);
      assert Gotos([SetMode(LOITER)]) == [];
    }
  }

  // ---------------------------------------------------------------- commands

  /** `set_guided_mode`: GUIDED, then following; the throttle fields are left as they are. */
  function SetGuidedMode(c: Control): (r: Control)
    ensures r.state == c.state.(following := true)
    ensures r.vehicle.mode == GUIDED && r.vehicle.requests == c.vehicle.requests + [SetMode(GUIDED)]
    ensures r.vehicle.armed == c.vehicle.armed
  {
    Control(c.state.(following := true), RequestMode(c.vehicle, GUIDED))
  }

  /** `stop_following`: LOITER, then every pursuit field back to empty. */
  function StopFollowing(c: Control): (r: Control)
    ensures Inv(r.state)
    ensures !r.state.following && r.state.lastGotoTime.None? && r.state.lastGotoPosition.None?
    ensures r.state.lastScoutDistance.None? && r.state.speeds == []
    ensures r.state.lastReportTime == c.state.lastReportTime
    ensures r.vehicle.mode == LOITER && r.vehicle.requests == c.vehicle.requests + [SetMode(LOITER)]
  {
    Control(
      c.state.(following := false, lastScoutDistance := None, lastGotoTime := None,
               lastGotoPosition := None, speeds := []),
      RequestMode(c.vehicle, LOITER))
  }

  // ---------------------------------------------------------------- runs

  /** One call of a public controller operation. */
  datatype Call =
    | ScoutUpdate(scout: Position, speed: real, now: real, own: Position)
    | ArmCall
    | GuidedCall
    | StopCall

  function Apply(c: Control, call: Call, dist: Distance): Control
    requires Inv(c.state)
  {
    match call
    case ScoutUpdate(scout, speed, now, own) =>
      var r := FollowStep(c.state, c.vehicle, scout, speed, now, own, dist);
      Control(r.state, r.vehicle)
    case ArmCall => c.(vehicle := EnsureArmed(c.vehicle))
    case GuidedCall => SetGuidedMode(c)
    case StopCall => StopFollowing(c)
  }

  lemma ApplyKeepsInv(c: Control, call: Call, dist: Distance)
    requires Inv(c.state)
    ensures Inv(Apply(c, call, dist).state)
  {
  }

  /** The calls of a run, in arrival order. */
  function Run(c: Control, calls: seq<Call>, dist: Distance): Control
    requires Inv(c.state)
    decreases |calls|
  {
    if calls == [] then c
    else
      ApplyKeepsInv(c, calls[0], dist);
      Run(Apply(c, calls[0], dist), calls[1..], dist)
  }

  /** No sequence of calls breaks the invariant. */
  lemma {:induction false} RunKeepsInv(c: Control, calls: seq<Call>, dist: Distance)
    requires Inv(c.state)
    ensures Inv(Run(c, calls, dist).state)
    decreases |calls|
  {
    if calls != [] {
      ApplyKeepsInv(c, calls[0], dist);
      RunKeepsInv(Apply(c, calls[0], dist), calls[1..], dist);
    }
  }

  lemma {:induction false} RunSnoc(c: Control, calls: seq<Call>, last: Call, dist: Distance)
    requires Inv(c.state)
    ensures Inv(Run(c, calls, dist).state)
    ensures Run(c, calls + [last], dist) == Apply(Run(c, calls, dist), last, dist)
    decreases |calls|
  {
    RunKeepsInv(c, calls, dist);
    if calls != [] {
      ApplyKeepsInv(c, calls[0], dist);
      assert (calls + [last])[1..] == calls[1..] + [last];
      RunSnoc(Apply(c, calls[0], dist), calls[1..], last, dist);
    } else {
      assert [last][1..] == [];
    }
  }

  /**
   * Starting pursuit, any number of updates and commands, then stopping,
   * leaves every pursuit field empty.
   */
  lemma StopAfterAnyRun(c: Control, calls: seq<Call>, dist: Distance)
    requires Inv(c.state)
    ensures var r := Run(c, [ArmCall, GuidedCall] + calls + [StopCall], dist).state;
      !r.following && r.lastGotoTime.None? && r.lastGotoPosition.None?
      && r.lastScoutDistance.None? && r.speeds == []
  {
    RunSnoc(c, [ArmCall, GuidedCall] + calls, StopCall, dist);
  }
}
