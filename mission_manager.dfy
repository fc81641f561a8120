/**
 * `MissionManager` of 8_proj/mission_manager.py: it reads a waypoint file,
 * uploads the waypoints to the vehicle as a mission, starts it, and
 * reports progress. What it hands to `mqtt_handler.publish` is kept as a
 * list of messages; the handler's own stamping is `MqttCommon.Stamp`.
 */
module Mission {
  import opened Wrappers
  import opened Text
  import opened Vehicles

  datatype Waypoint = Waypoint(lat: real, lon: real, alt: real)

  /** The mission file: one that cannot be opened, or its lines in order. */
  datatype MissionFile = Unreadable | Lines(lines: seq<string>)

  /** `float()` on a string: None where it raises ValueError. */
  type ParseFloat = string -> Option<real>

  /** The messages the manager publishes (each dictionary's `type`). */
  datatype MissionMessage =
    | MissionLoaded(waypointCount: nat, estimatedDistance: real)
    | MissionUploaded(waypointCount: nat)                       // with `"status": "success"`
    | MissionProgress(currentWaypoint: nat, totalWaypoints: nat, progressPercent: real, mode: string)
    | MissionComplete(totalTime: real, finalPosition: Position)

  // ---------------------------------------------------------------- load_mission_from_file

  datatype LineResult = Skipped | Accepted(waypoint: Waypoint) | Rejected

  /**
   * One line of the file: blank and `#` lines, and lines that do not split
   * into exactly three comma fields, are skipped; otherwise all three
   * fields go through `float`, and one failure rejects the line.
   */
  function ParseLine(line: string, parseFloat: ParseFloat): (r: LineResult)
    ensures r.Skipped? <==>
      var t := Strip(line); t == [] || t[0] == '#' || |Split(t, ',')| != 3
    ensures r.Accepted? ==>
      var parts := Split(Strip(line), ',');
      && |parts| == 3
      && parseFloat(parts[0]) == Some(r.waypoint.lat)
      && parseFloat(parts[1]) == Some(r.waypoint.lon)
      && parseFloat(parts[2]) == Some(r.waypoint.alt)
    ensures r.Rejected? ==>
      var parts := Split(Strip(line), ',');
      |parts| == 3 && (parseFloat(parts[0]).None? || parseFloat(parts[1]).None? || parseFloat(parts[2]).None?)
  {
    var t := Strip(line);
    if t == [] || t[0] == '#' then Skipped
    else
      var parts := Split(t, ',');
      if |parts| != 3 then Skipped
      else
        match (parseFloat(parts[0]), parseFloat(parts[1]), parseFloat(parts[2]))
        case (Some(lat), Some(lon), Some(alt)) => Accepted(Waypoint(lat, lon, alt))
        case _ => Rejected
  }

  /** The waypoints read so far, and whether reading went through without an exception. */
  datatype Parsed = Parsed(waypoints: seq<Waypoint>, complete: bool)

  /** One pass of the parse loop on the result so far; nothing more is read once a line was rejected. */
  function Step(p: Parsed, line: string, parseFloat: ParseFloat): (r: Parsed)
    ensures |r.waypoints| <= |p.waypoints| + 1
  {
    if !p.complete then p
    else
      match ParseLine(line, parseFloat)
      case Skipped => p
      case Accepted(w) => Parsed(p.waypoints + [w], true)
      case Rejected => Parsed(p.waypoints, false)
  }

  /** The parse loop over `lines`, in file order; it stops at the first rejected line. */
  function Parse(lines: seq<string>, parseFloat: ParseFloat): (r: Parsed)
    ensures |r.waypoints| <= |lines|
    decreases |lines|
  {
    if lines == [] then Parsed([], true)
    else Step(Parse(lines[..|lines| - 1], parseFloat), lines[|lines| - 1], parseFloat)
  }

  /**
   * Reading `a` then `b` is reading `a`, then (if `a` went through) reading
   * `b` on its own; so every accepted line adds its waypoint in file order.
   */
  lemma {:induction false} ParseAppend(a: seq<string>, b: seq<string>, parseFloat: ParseFloat)
    ensures var pa := Parse(a, parseFloat);
      var pb := Parse(b, parseFloat);
      Parse(a + b, parseFloat) ==
        if !pa.complete then pa else Parsed(pa.waypoints + pb.waypoints, pb.complete)
    decreases |b|
  {
    if b == [] {
      assert a + b == a;
    } else {
      var b0, last := b[..|b| - 1], b[|b| - 1];
      ParseAppend(a, b0, parseFloat);
      assert (a + b)[..|a + b| - 1] == a + b0;
      assert (a + b)[|a + b| - 1] == last;
      var pa, pb0 := Parse(a, parseFloat), Parse(b0, parseFloat);
      if pa.complete && pb0.complete {
        match ParseLine(last, parseFloat)
        case Accepted(w) =>
          assert pa.waypoints + pb0.waypoints + [w] == pa.waypoints + (pb0.waypoints + [w]);
        case _ =>
      }
    }
  }

  /** One line read on its own. */
  lemma ParseOne(line: string, parseFloat: ParseFloat)
    ensures Parse([line], parseFloat) == match ParseLine(line, parseFloat)
      case Skipped => Parsed([], true)
      case Accepted(w) => Parsed([w], true)
      case Rejected => Parsed([], false)
  {
    assert [line][..0] == [];
  }

  /** A comment or blank line anywhere changes nothing. */
  lemma SkippedLineIrrelevant(a: seq<string>, line: string, b: seq<string>, parseFloat: ParseFloat)
    requires ParseLine(line, parseFloat).Skipped?
    ensures Parse(a + [line] + b, parseFloat) == Parse(a + b, parseFloat)
  {
    ParseOne(line, parseFloat);
    ParseAppend(a, [line], parseFloat);
    ParseAppend(a + [line], b, parseFloat);
    ParseAppend(a, b, parseFloat);
    var pa := Parse(a, parseFloat);
    if pa.complete {
      assert pa.waypoints + [] == pa.waypoints;
    }
  }

  // ---------------------------------------------------------------- upload_mission_to_vehicle

  /** The DroneKit `Command` for one waypoint. */
  function WaypointCommand(w: Waypoint): (c: MissionItem)
    ensures c.frame == FrameGlobalRelativeAlt && c.command == CmdNavWaypoint
    ensures c.targetSystem == 0 && c.targetComponent == 0 && c.sequence == 0
    ensures c.current == 0 && c.autocontinue == 0
    ensures c.param1 == 0.0 && c.param2 == 0.0 && c.param3 == 0.0 && c.param4 == 0.0
    ensures c.lat == w.lat && c.lon == w.lon && c.alt == w.alt
  {
    MissionItem(0, 0, 0, FrameGlobalRelativeAlt, CmdNavWaypoint, 0, 0,
                0.0, 0.0, 0.0, 0.0, w.lat, w.lon, w.alt)
  }

  /** The waypoint a mission command flies to. */
  function CommandTarget(c: MissionItem): Waypoint
  {
    Waypoint(c.lat, c.lon, c.alt)
  }

  function Commands(ws: seq<Waypoint>): (cs: seq<MissionItem>)
    ensures |cs| == |ws|
    ensures forall i :: 0 <= i < |ws| ==> cs[i] == WaypointCommand(ws[i])
  {
    seq(|ws|, i requires 0 <= i < |ws| => WaypointCommand(ws[i]))
  }

  function AddRequests(cs: seq<MissionItem>): (rs: seq<Request>)
    ensures |rs| == |cs|
    ensures forall i :: 0 <= i < |cs| ==> rs[i] == AddItem(cs[i])
  {
    seq(|cs|, i requires 0 <= i < |cs| => AddItem(cs[i]))
  }

  /** The uploaded mission flies exactly the loaded waypoints, in order. */
  lemma CommandsRoundTrip(ws: seq<Waypoint>)
    ensures var cs := Commands(ws);
      |cs| == |ws| && forall i :: 0 <= i < |ws| ==> CommandTarget(cs[i]) == ws[i]
  {
  }

  // ---------------------------------------------------------------- monitor_mission_progress

  /** The next waypoint as a percentage of the mission size; 0 for an empty mission. */
  function ProgressPercent(next: nat, total: nat): (p: real)
    ensures total == 0 ==> p == 0.0
    ensures total > 0 ==> p * (total as real) == (next as real) * 100.0
  {
    if total > 0 then (next as real) / (total as real) * 100.0 else 0.0
  }

  /** Progress lies in [0, 100] while the next waypoint is within the mission. */
  lemma ProgressBounds(next: nat, total: nat)
    requires next <= total
    ensures 0.0 <= ProgressPercent(next, total) <= 100.0
  {
  }

  /** For a fixed mission, progress never goes down as the next waypoint advances. */
  lemma ProgressMonotone(n1: nat, n2: nat, total: nat)
    requires n1 <= n2
    ensures ProgressPercent(n1, total) <= ProgressPercent(n2, total)
  {
  }

  /** What the vehicle reports on one pass of the loop: mode, `commands.next`, clock, position. */
  datatype Observation = Observation(mode: string, next: nat, clock: real, position: Position)

  /**
   * How the loop ends: the mission completed, the vehicle left AUTO, the
   * readings ran out, or `mission_start_time` was never set (`start_mission`
   * not called), which raises AttributeError at the completion message.
   */
  datatype MonitorEnd = Completed | LeftAuto | ReadingsExhausted | StartTimeMissing

  datatype Monitored = Monitored(messages: seq<MissionMessage>, end: MonitorEnd)

  /** What one pass publishes on an AUTO reading, and how the loop ends when it ends there. */
  datatype Pass = Pass(messages: seq<MissionMessage>, stop: Option<MonitorEnd>)

  /**
   * The body of the loop for the reading `o`: the progress message, then,
   * once `commands.next` has reached the total, the completion message
   * (or the AttributeError when no start time was recorded).
   */
  function PassOn(total: nat, start: Option<real>, o: Observation): (p: Pass)
    ensures p.stop.None? <==> o.next < total
    ensures p.stop == Some(Completed) <==> o.next >= total && start.Some?
    ensures var progress := MissionProgress(o.next, total, ProgressPercent(o.next, total), o.mode);
      p.messages == if p.stop == Some(Completed) then [progress, MissionComplete(o.clock - start.value, o.position)]
                    else [progress]
  {
    var progress := MissionProgress(o.next, total, ProgressPercent(o.next, total), o.mode);
    if o.next < total then Pass([progress], None)
    else if start.None? then Pass([progress], Some(StartTimeMissing))
    else Pass([progress, MissionComplete(o.clock - start.value, o.position)], Some(Completed))
  }

  /** The loop from the reading `obs[0]` on, while the vehicle reports AUTO. */
  function Monitor(total: nat, start: Option<real>, obs: seq<Observation>): (r: Monitored)
    ensures r.end == Completed ==> start.Some?
    decreases |obs|
  {
    if obs == [] then Monitored([], ReadingsExhausted)
    else if obs[0].mode != AUTO then Monitored([], LeftAuto)
    else
      var p := PassOn(total, start, obs[0]);
      if p.stop.Some? then Monitored(p.messages, p.stop.value)
      else
        var rest := Monitor(total, start, obs[1..]);
        Monitored(p.messages + rest.messages, rest.end)
  }

  /**
   * One pass of the monitoring loop against the whole run: when the passes
   * before reading `obs[i]` published `sent`, that reading ends the run or
   * adds its pass ahead of the passes after it.
   */
  lemma MonitorStep(total: nat, start: Option<real>, obs: seq<Observation>, i: nat, sent: seq<MissionMessage>)
    requires i < |obs|
    requires var whole, rest := Monitor(total, start, obs), Monitor(total, start, obs[i..]);
      whole.messages == sent + rest.messages && whole.end == rest.end
    ensures var whole, o := Monitor(total, start, obs), obs[i];
      var p := PassOn(total, start, o);
      var rest := Monitor(total, start, obs[i + 1..]);
      && (o.mode != AUTO ==> whole == Monitored(sent, LeftAuto))
      && (o.mode == AUTO && p.stop.Some? ==> whole == Monitored(sent + p.messages, p.stop.value))
      && (o.mode == AUTO && p.stop.None? ==>
            whole.messages == (sent + p.messages) + rest.messages && whole.end == rest.end)
  {
    var o := obs[i];
    assert obs[i..][0] == o;
    assert obs[i..][1..] == obs[i + 1..];
    var p := PassOn(total, start, o);
    if o.mode != AUTO {
      assert sent + [] == sent;
    } else if p.stop.None? {
      var rest := Monitor(total, start, obs[i + 1..]);
      assert sent + (p.messages + rest.messages) == (sent + p.messages) + rest.messages;
    }
  }

  function CountComplete(ms: seq<MissionMessage>): nat
    decreases |ms|
  {
    if ms == [] then 0 else (if ms[0].MissionComplete? then 1 else 0) + CountComplete(ms[1..])
  }

  /**
   * `mission_complete` is published at most once, only as the last message,
   * only when the loop completes, and right after a progress message whose
   * next waypoint has reached the total.
   */
  lemma {:induction false} CompleteAtMostOnceAndLast(total: nat, start: Option<real>, obs: seq<Observation>)
    ensures var r := Monitor(total, start, obs);
      && CountComplete(r.messages) <= 1
      && (CountComplete(r.messages) == 1 <==> r.end == Completed)
      && (forall i :: 0 <= i < |r.messages| - 1 ==> !r.messages[i].MissionComplete?)
      && (r.end == Completed ==>
            |r.messages| >= 2 && r.messages[|r.messages| - 1].MissionComplete?
            && r.messages[|r.messages| - 2].MissionProgress?
            && r.messages[|r.messages| - 2].currentWaypoint >= total)
    decreases |obs|
  {
    if obs != [] && obs[0].mode == AUTO {
      var o := obs[0];
      var progress := MissionProgress(o.next, total, ProgressPercent(o.next, total), o.mode);
      if o.next >= total {
        if start.Some? {
          var ms := [progress, MissionComplete(o.clock - start.value, o.position)];
          assert CountComplete(ms[1..]) == 1 by {
            assert ms[1..][1..] == [];
          }
        } else {
          assert [progress][1..] == [];
        }
      } else {
        CompleteAtMostOnceAndLast(total, start, obs[1..]);
        var rest := Monitor(total, start, obs[1..]);
        var ms := [progress] + rest.messages;
        assert ms[1..] == rest.messages;
        assert forall i :: 1 <= i < |ms| ==> ms[i] == rest.messages[i - 1];
      }
    }
  }

  /** Each pass publishes progress before the completion check: one progress message per AUTO reading. */
  lemma {:induction false} ProgressEveryPass(total: nat, start: Option<real>, obs: seq<Observation>)
    ensures var r := Monitor(total, start, obs);
      forall i :: 0 <= i < |r.messages| ==>
        r.messages[i].MissionProgress? <==> !(r.end == Completed && i == |r.messages| - 1)
    ensures var r := Monitor(total, start, obs);
      forall i :: 0 <= i < |r.messages| && r.messages[i].MissionProgress? ==>
        i < |obs| && r.messages[i].currentWaypoint == obs[i].next && r.messages[i].totalWaypoints == total
        && obs[i].mode == AUTO
    decreases |obs|
  {
    if obs != [] && obs[0].mode == AUTO && obs[0].next < total {
      ProgressEveryPass(total, start, obs[1..]);
      var o := obs[0];
      var progress := MissionProgress(o.next, total, ProgressPercent(o.next, total), o.mode);
      var rest := Monitor(total, start, obs[1..]);
      var ms := [progress] + rest.messages;
      assert forall i :: 1 <= i < |ms| ==> ms[i] == rest.messages[i - 1];
      assert forall i :: 1 <= i < |obs| ==> obs[i] == obs[1..][i - 1];
    }
  }

  /** An empty mission completes on the first AUTO reading, at 0 % progress. */
  lemma EmptyMissionCompletesAtOnce(start: real, obs: seq<Observation>)
    requires obs != [] && obs[0].mode == AUTO
    ensures var r := Monitor(0, Some(start), obs);
      r.end == Completed
      && r.messages == [MissionProgress(obs[0].next, 0, 0.0, AUTO), MissionComplete(obs[0].clock - start, obs[0].position)]
  {
  }

  /**
   * The `for line in file` loop of `load_mission_from_file`: `complete` is
   * false when a `float` conversion raised, and then `waypoints` holds what
   * was read before that line.
   */
  method ReadWaypoints(lines: seq<string>, parseFloat: ParseFloat) returns (waypoints: seq<Waypoint>, complete: bool)
    ensures Parsed(waypoints, complete) == Parse(lines, parseFloat)
  {
    waypoints := [];
    var i := 0;
    while i < |lines|
      invariant 0 <= i <= |lines|
      invariant Parse(lines[..i], parseFloat) == Parsed(waypoints, true)
    {
      assert lines[..i + 1][..i] == lines[..i];
      var line := Strip(lines[i]);
      if line == [] || line[0] == '#' {
        i := i + 1;
        continue;
      }
      var parts := Split(line, ',');
      if |parts| != 3 {
        i := i + 1;
        continue;
      }
      var lat, lon, alt := parseFloat(parts[0]), parseFloat(parts[1]), parseFloat(parts[2]);
      if lat.None? || lon.None? || alt.None? {
        ParseStops(lines, i + 1, parseFloat);
        return waypoints, false;
      }
      waypoints := waypoints + [Waypoint(lat.value, lon.value, alt.value)];
      i := i + 1;
    }
    assert lines[..i] == lines;
    complete := true;
  }

  // ---------------------------------------------------------------- the manager

  class MissionManager {
    var vehicle: Vehicle
    var missionWaypoints: seq<Waypoint>
    /** `self.mission_start_time`, which `__init__` does not create */
    var missionStartTime: Option<real>
    var published: seq<MissionMessage>

    constructor (vehicle: Vehicle)
      ensures this.vehicle == vehicle && missionWaypoints == [] && missionStartTime.None? && published == []
    {
      this.vehicle := vehicle;
      missionWaypoints := [];
      missionStartTime := None;
      published := [];
    }

    /**
     * `load_mission_from_file`. `estimate` is what `estimate_mission_distance()`
     * returns, None where it raises. The waypoints replace the mission only
     * after the whole file went through; the returned list is whatever was
     * read before the loop stopped.
     */
    method LoadMissionFromFile(file: MissionFile, parseFloat: ParseFloat, estimate: Option<real>)
      returns (waypoints: seq<Waypoint>)
      modifies this
      ensures vehicle == old(vehicle) && missionStartTime == old(missionStartTime)
      ensures file.Unreadable? ==>
        waypoints == [] && missionWaypoints == old(missionWaypoints) && published == old(published)
      ensures file.Lines? ==>
        var p := Parse(file.lines, parseFloat);
        && waypoints == p.waypoints
        && missionWaypoints == (if p.complete then p.waypoints else old(missionWaypoints))
        && published == old(published) +
             (if p.complete && estimate.Some? then [MissionLoaded(|p.waypoints|, estimate.value)] else [])
    {
      if file.Unreadable? {
        return [];
      }
      var complete;
      waypoints, complete := ReadWaypoints(file.lines, parseFloat);
      if !complete {
        return;
      }
      missionWaypoints := waypoints;
      if estimate.Some? {
        published := published + [MissionLoaded(|waypoints|, estimate.value)];
      }
    }

    /**
     * `upload_mission_to_vehicle`: clear, one NAV_WAYPOINT command per
     * waypoint in order, upload, then publish the count.
     */
    method UploadMissionToVehicle()
      modifies this
      ensures missionWaypoints == old(missionWaypoints) && missionStartTime == old(missionStartTime)
      ensures vehicle == old(vehicle).(
        missionItems := Commands(missionWaypoints),
        uploaded := Commands(missionWaypoints),
        requests := old(vehicle.requests) + [ClearMission] + AddRequests(Commands(missionWaypoints)) + [UploadMission])
      ensures published == old(published) + [MissionUploaded(|missionWaypoints|)]
    {
      vehicle := vehicle.(missionItems := [], requests := vehicle.requests + [ClearMission]);
      ghost var before := vehicle.requests;
      var i := 0;
      while i < |missionWaypoints|
        invariant 0 <= i <= |missionWaypoints|
        invariant missionWaypoints == old(missionWaypoints) && missionStartTime == old(missionStartTime)
        invariant published == old(published)
        invariant vehicle == old(vehicle).(missionItems := Commands(missionWaypoints[..i]),
                                           requests := before + AddRequests(Commands(missionWaypoints[..i])))
      {
        var cmd := WaypointCommand(missionWaypoints[i]);
        assert Commands(missionWaypoints[..i + 1]) == Commands(missionWaypoints[..i]) + [cmd];
        assert AddRequests(Commands(missionWaypoints[..i + 1]))
               == AddRequests(Commands(missionWaypoints[..i])) + [AddItem(cmd)];
        vehicle := vehicle.(missionItems := vehicle.missionItems + [cmd],
                            requests := vehicle.requests + [AddItem(cmd)]);
        i := i + 1;
      }
      assert missionWaypoints[..i] == missionWaypoints;
      vehicle := vehicle.(uploaded := vehicle.missionItems, requests := vehicle.requests + [UploadMission]);
      published := published + [MissionUploaded(|missionWaypoints|)];
    }

    /** `start_mission` at clock reading `now`: arm if unarmed, then AUTO, then the start time. */
    method StartMission(now: real)
      modifies this
      ensures vehicle == RequestMode(EnsureArmed(old(vehicle)), AUTO)
      ensures missionStartTime == Some(now)
      ensures missionWaypoints == old(missionWaypoints) && published == old(published)
    {
      if !vehicle.armed {
        vehicle := RequestArm(vehicle);
      }
      vehicle := RequestMode(vehicle, AUTO);
      missionStartTime := Some(now);
    }

    /**
     * `monitor_mission_progress` over the vehicle's readings `obs`, one per
     * pass; it returns how the loop ended and how many readings it took.
     */
    method MonitorMissionProgress(obs: seq<Observation>) returns (end: MonitorEnd, passes: nat)
      modifies this`published
      ensures var r := Monitor(|old(missionWaypoints)|, old(missionStartTime), obs);
        published == old(published) + r.messages && end == r.end
      ensures passes <= |obs|
      ensures vehicle == old(vehicle) && missionWaypoints == old(missionWaypoints)
      ensures missionStartTime == old(missionStartTime)
    {
      var total := |missionWaypoints|;
      ghost var whole := Monitor(total, missionStartTime, obs);
      ghost var sent: seq<MissionMessage> := [];
      passes := 0;
      end := ReadingsExhausted;
      while passes < |obs| && obs[passes].mode == AUTO
        invariant passes <= |obs|
        invariant published == old(published) + sent
        invariant var rest := Monitor(total, missionStartTime, obs[passes..]);
          whole.messages == sent + rest.messages && whole.end == rest.end
        decreases |obs| - passes
      {
        MonitorStep(total, missionStartTime, obs, passes, sent);
        var stop := PublishPass(obs[passes], total);
        sent := sent + PassOn(total, missionStartTime, obs[passes]).messages;
        assert published == old(published) + sent;
        passes := passes + 1;
        if stop.Some? {
          end := stop.value;
          break;
        }
      }
      if end == ReadingsExhausted {
        if passes < |obs| {
          MonitorStep(total, missionStartTime, obs, passes, sent);
          end := LeftAuto;
        } else {
          assert obs[passes..] == [];
          assert sent + [] == sent;
        }
      }
      assert whole == Monitored(sent, end);
    }

    /** One pass of the loop on an AUTO reading `o`, publishing through the handler. */
    method PublishPass(o: Observation, total: nat) returns (stop: Option<MonitorEnd>)
      modifies this`published
      ensures var p := PassOn(total, missionStartTime, o);
        published == old(published) + p.messages && stop == p.stop
    {
      var nextWp := o.next;
      var progressPercent := ProgressPercent(nextWp, total);
      published := published + [MissionProgress(nextWp, total, progressPercent, o.mode)];
      if nextWp < total {
        return None;
      }
      if missionStartTime.None? {
        return Some(StartTimeMissing);
      }
      published := published + [MissionComplete(o.clock - missionStartTime.value, o.position)];
      stop := Some(Completed);
    }
  }

  /** Once the parse loop has stopped, later lines are not read. */
  lemma ParseStops(lines: seq<string>, i: nat, parseFloat: ParseFloat)
    requires i <= |lines| && !Parse(lines[..i], parseFloat).complete
    ensures Parse(lines, parseFloat) == Parse(lines[..i], parseFloat)
  {
    var a, b := lines[..i], lines[i..];
    assert a + b == lines;
    ParseAppend(a, b, parseFloat);
  }
}
