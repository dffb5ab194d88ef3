/**
 * The mutable `dashboardState` object and the operations that update it in
 * place: `addEvent`, `simulateSystemUpdates`, the three deferred startup
 * notices, and the `slice(-5)` view the event log displays.
 */
module Dashboard {
  import opened Util
  import opened EventLog
  import opened Telemetry

  /** The notices initializeDashboard schedules at +2 s, +4 s and +6 s. */
  function StartupNotices(t1: string, t2: string, t3: string): seq<Event>
  {
    [Event(t1, "success", "AI model initialized successfully"),
     Event(t2, "info", "Tracking system activated"),
     Event(t3, "success", "All systems operational")]
  }

  /**
   * When no tick logs an event before or between them, the log after the
   * start-up notices holds the two initial records followed by the three
   * notices, in that order, and the display shows all five.
   */
  lemma StartupLog(t1: string, t2: string, t3: string)
    ensures PushAll(InitialEvents, StartupNotices(t1, t2, t3)) == InitialEvents + StartupNotices(t1, t2, t3)
    ensures Recent(PushAll(InitialEvents, StartupNotices(t1, t2, t3))) == InitialEvents + StartupNotices(t1, t2, t3)
  {
    var all := InitialEvents + StartupNotices(t1, t2, t3);
    InitialLogAfterAppends(StartupNotices(t1, t2, t3));
    assert |all| == 5;
    assert Last(all, Capacity) == all;
    assert Recent(all) == all[0..];
  }

  /** Pushing `p + t` onto a log within capacity leaves a log ending in `t` when `t` fits. */
  lemma PushAllEndsWith(log: seq<Event>, p: seq<Event>, t: seq<Event>)
    requires |log| <= Capacity && |t| <= Capacity
    ensures |t| <= |PushAll(log, p + t)|
    ensures PushAll(log, p + t)[|PushAll(log, p + t)| - |t|..] == t
  {
    PushAllKeepsLast(log, p + t);
    ConcatAssociates(log, p, t);
    LastEndsWith(log + p, t, Capacity);
  }

  /** The last `n` of `s + t` end with `t` when `t` is no longer than `n`. */
  lemma LastEndsWith(s: seq<Event>, t: seq<Event>, n: nat)
    requires |t| <= n
    ensures |t| <= |Last(s + t, n)|
    ensures Last(s + t, n)[|Last(s + t, n)| - |t|..] == t
  {
    var all := s + t;
    var k := Min(n, |all|);
    var l := all[|all| - k..];
    assert l == Last(all, n);
    assert l[k - |t|..] == all[|all| - |t|..];
    assert all[|s|..] == t;
  }

  /** Three records with the batches logged before and between them, in order. */
  function Weave(a: seq<Event>, x: Event, b: seq<Event>, y: Event, c: seq<Event>, z: Event): seq<Event>
  {
    a + ([x] + (b + ([y] + (c + [z]))))
  }

  lemma WeaveEndsWithLast(a: seq<Event>, x: Event, b: seq<Event>, y: Event, c: seq<Event>, z: Event)
    ensures var log := PushAll(InitialEvents, Weave(a, x, b, y, c, z));
            |log| >= 1 && log[|log| - 1] == z
  {
    var es := Weave(a, x, b, y, c, z);
    assert es == (a + ([x] + (b + ([y] + c)))) + [z];
    PushAllEndsWith(InitialEvents, a + ([x] + (b + ([y] + c))), [z]);
  }

  lemma WeaveEndsWithMiddle(a: seq<Event>, x: Event, b: seq<Event>, y: Event, c: seq<Event>, z: Event)
    requires |c| + 2 <= Capacity
    ensures var log := PushAll(InitialEvents, Weave(a, x, b, y, c, z));
            |log| >= |c| + 2 && log[|log| - (|c| + 2)..] == [y] + (c + [z])
  {
    var es := Weave(a, x, b, y, c, z);
    assert es == (a + ([x] + b)) + ([y] + (c + [z]));
    PushAllEndsWith(InitialEvents, a + ([x] + b), [y] + (c + [z]));
  }

  lemma WeaveEndsWithFirst(a: seq<Event>, x: Event, b: seq<Event>, y: Event, c: seq<Event>, z: Event)
    requires |b| + |c| + 3 <= Capacity
    ensures var log := PushAll(InitialEvents, Weave(a, x, b, y, c, z));
            |log| >= |b| + |c| + 3 && log[|log| - (|b| + |c| + 3)..] == [x] + (b + ([y] + (c + [z])))
  {
    PushAllEndsWith(InitialEvents, a, [x] + (b + ([y] + (c + [z]))));
  }

  /**
   * The start-up notices `x`, `y`, `z` (three separate timer callbacks) when
   * ticks log events before and between them: `a` before the first notice,
   * `b` between the first and second, `c` between the second and third. The
   * log is the last ten of everything in that order; it ends with the third
   * notice, and with every notice and the events between them for as long as
   * they fit in the capacity. Nothing here depends on the notices' text.
   */
  lemma StartupLogInterleaved(a: seq<Event>, x: Event, b: seq<Event>, y: Event, c: seq<Event>, z: Event)
    ensures var log := PushAll(InitialEvents, Weave(a, x, b, y, c, z));
            && log == Last(InitialEvents + Weave(a, x, b, y, c, z), Capacity)
            && |log| >= 1 && log[|log| - 1] == z
            && (|c| + 2 <= Capacity ==>
                  |log| >= |c| + 2 && log[|log| - (|c| + 2)..] == [y] + (c + [z]))
            && (|b| + |c| + 3 <= Capacity ==>
                  |log| >= |b| + |c| + 3
                  && log[|log| - (|b| + |c| + 3)..] == [x] + (b + ([y] + (c + [z]))))
  {
    PushAllKeepsLast(InitialEvents, Weave(a, x, b, y, c, z));
    WeaveEndsWithLast(a, x, b, y, c, z);
    if |c| + 2 <= Capacity {
      WeaveEndsWithMiddle(a, x, b, y, c, z);
    }
    if |b| + |c| + 3 <= Capacity {
      WeaveEndsWithFirst(a, x, b, y, c, z);
    }
  }

  /** Pushing three records one by one is pushing the three-element batch. */
  lemma PushAllThree(log: seq<Event>, es: seq<Event>)
    requires |es| == 3
    ensures PushAll(log, es) == Push(Push(Push(log, es[0]), es[1]), es[2])
  {
    var p1 := Push(log, es[0]);
    var p2 := Push(p1, es[1]);
    var p3 := Push(p2, es[2]);
    assert es[1..][0] == es[1] && es[1..][1..] == es[2..];
    assert es[2..][0] == es[2] && es[2..][1..] == [];
    assert PushAll(p2, es[2..]) == PushAll(p3, []) == p3;
    assert PushAll(p1, es[1..]) == PushAll(p2, es[2..]);
    assert PushAll(log, es) == PushAll(p1, es[1..]);
  }

  class DashboardState {
    var threatLevel: int
    var batteryLevel: int
    var powerMode: PowerMode
    var peopleCount: int
    var vehiclesCount: int
    var trackingTarget: Target
    var fps: int
    var detectionCount: int
    var sessionStart: int
    /** Latitude and longitude, updated element by element. */
    var gpsPosition: array<real>
    var altitude: real
    var communicationStatus: LinkStatus
    var events: seq<Event>

    /** The shape every dashboard object has. */
    ghost predicate WellFormed()
      reads this
    {
      gpsPosition.Length == 2
    }

    /** The current state as a value. */
    function Snapshot(): Telemetry.Snapshot
      reads this, gpsPosition
      requires WellFormed()
    {
      Telemetry.Snapshot(threatLevel, batteryLevel, powerMode, peopleCount, vehiclesCount,
                         trackingTarget, fps, detectionCount, sessionStart,
                         gpsPosition[0], gpsPosition[1], altitude, communicationStatus, events)
    }

    /** The object invariant: the snapshot invariant of the telemetry model. */
    ghost predicate Valid()
      reads this, gpsPosition
    {
      WellFormed() && Telemetry.Valid(Snapshot())
    }

    /** The initial `dashboardState`; `sessionStart` is the clock at start-up. */
    constructor (start: int)
      ensures WellFormed() && fresh(gpsPosition)
      ensures Snapshot() == Initial(start)
      ensures Valid()
    {
      threatLevel := 0;
      batteryLevel := InitialBattery;
      powerMode := High;
      peopleCount := 0;
      vehiclesCount := 0;
      trackingTarget := NoTarget;
      fps := 0;
      detectionCount := 0;
      sessionStart := start;
      var position := new real[2];
      position[0], position[1] := 12.9716, 77.5946;
      gpsPosition := position;
      altitude := 50.0;
      communicationStatus := Connected;
      events := InitialEvents;
    }

    /** `addEvent`: push the record, then evict the oldest if over capacity. */
    method AddEvent(time: string, kind: string, message: string)
      requires WellFormed()
      modifies this
      ensures WellFormed() && gpsPosition == old(gpsPosition)
      ensures Snapshot() == old(Snapshot()).(events := Push(old(events), Event(time, kind, message)))
      ensures old(Valid()) ==> Valid()
    {
      events := events + [Event(time, kind, message)];
      if |events| > Capacity {
        events := events[1..];
      }
    }

    /** Threat re-draw: `threatLevel = floor(r * 4)`, then its warning. */
    method UpdateThreatLevel(pick: real, time: string)
      requires WellFormed() && Unit(pick)
      modifies this
      ensures WellFormed() && gpsPosition == old(gpsPosition)
      ensures Snapshot() == UpdateThreat(old(Snapshot()), pick, time)
    {
      threatLevel := Bucket(pick, |ThreatMessages|);
      AddEvent(time, "warning", ThreatMessages[threatLevel]);
    }

    /** Battery drain by one step, floored, then the power mode from the new level. */
    method Drain()
      requires WellFormed()
      modifies this
      ensures WellFormed() && gpsPosition == old(gpsPosition)
      ensures Snapshot() == DrainBattery(old(Snapshot()))
    {
      batteryLevel := Max(BatteryFloor, batteryLevel - BatteryStep);
      if batteryLevel > HighAbove {
        powerMode := High;
      } else if batteryLevel > MediumAbove {
        powerMode := Medium;
      } else {
        powerMode := Low;
      }
    }

    /** Detection refresh: new counts, one more detection, new fps and target. */
    method Detect(d: Draws)
      requires WellFormed() && ValidDraws(d)
      modifies this
      ensures WellFormed() && gpsPosition == old(gpsPosition)
      ensures Snapshot() == RefreshDetections(old(Snapshot()), d)
    {
      peopleCount := Bucket(d.peoplePick, 5);
      vehiclesCount := Bucket(d.vehiclesPick, 3);
      detectionCount := detectionCount + 1;
      fps := 20 + Bucket(d.fpsPick, 10);
      trackingTarget := Targets[Bucket(d.targetPick, |Targets|)];
    }

    /** Position drift, written into the position array element by element. */
    method Drift(d: Draws)
      requires WellFormed() && ValidDraws(d)
      modifies this, gpsPosition
      ensures WellFormed() && gpsPosition == old(gpsPosition)
      ensures Snapshot() == DriftPosition(old(Snapshot()), d)
    {
      gpsPosition[0] := gpsPosition[0] + (d.latitudePick - 0.5) * 0.0001;
      gpsPosition[1] := gpsPosition[1] + (d.longitudePick - 0.5) * 0.0001;
      altitude := altitude + (d.altitudePick - 0.5) * 0.5;
    }

    /** Link status update and the event that reports it. */
    method UpdateCommunication(pick: real, time: string)
      requires WellFormed()
      modifies this
      ensures WellFormed() && gpsPosition == old(gpsPosition)
      ensures Snapshot() == UpdateLink(old(Snapshot()), pick, time)
    {
      communicationStatus := if pick < ConnectedChance then Connected else Reconnecting;
      if communicationStatus == Reconnecting {
        AddEvent(time, "warning", "Communication link unstable");
      } else {
        AddEvent(time, "success", "Communication restored");
      }
    }

    /** `simulateSystemUpdates` with its random draws and clock readings given. */
    method SimulateSystemUpdates(input: TickInput)
      requires Valid() && ValidDraws(input.draws)
      modifies this, gpsPosition
      ensures WellFormed() && gpsPosition == old(gpsPosition)
      ensures Snapshot() == Tick(old(Snapshot()), input)
      ensures Valid()
    {
      ghost var s0 := Snapshot();
      var d := input.draws;
      if d.threatTrial < ThreatChance {
        UpdateThreatLevel(d.threatPick, input.threatTime);
      }
      if d.drainTrial < DrainChance {
        Drain();
      }
      if d.detectionTrial < DetectionChance {
        Detect(d);
      }
      if d.driftTrial < DriftChance {
        Drift(d);
      }
      if d.linkTrial < LinkChance {
        UpdateCommunication(d.linkPick, input.linkTime);
      }
      TickPreservesValid(s0, input);
      assert Telemetry.Valid(Tick(s0, input));
    }

    /** The three deferred start-up notices, each routed through AddEvent. */
    method AnnounceStartup(t1: string, t2: string, t3: string)
      requires WellFormed()
      modifies this
      ensures WellFormed() && gpsPosition == old(gpsPosition)
      ensures Snapshot() == old(Snapshot()).(events := PushAll(old(events), StartupNotices(t1, t2, t3)))
      ensures old(Valid()) ==> Valid()
    {
      ghost var before := events;
      AddEvent(t1, "success", "AI model initialized successfully");
      AddEvent(t2, "info", "Tracking system activated");
      AddEvent(t3, "success", "All systems operational");
      PushAllThree(before, StartupNotices(t1, t2, t3));
    }

    /** The records `updateEventsLog` displays: `events.slice(-5)`. */
    method RecentEvents() returns (shown: seq<Event>)
      ensures shown == Recent(events)
    {
      var start := if |events| > Shown then |events| - Shown else 0;
      shown := events[start..];
    }
  }
}
