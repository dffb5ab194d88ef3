/**
 * The telemetry snapshot as a value, and what one simulation tick does to it.
 * Math.random is replaced by explicit draws in [0, 1); the clock is replaced
 * by the formatted time strings the tick's events carry.
 */
module Telemetry {
  import opened Util
  import opened EventLog

  datatype PowerMode = High | Medium | Low

  /** `trackingTarget`: `null` (shown as "None") or one of three labels. */
  datatype Target = NoTarget | Person | Vehicle | MultipleObjects

  datatype LinkStatus = Connected | Reconnecting

  /** Battery levels are in tenths of a percent: 850 stands for 85.0 %. */
  const InitialBattery: int := 850
  const BatteryFloor: int := 50
  const BatteryFull: int := 1000
  const BatteryStep: int := 1
  const HighAbove: int := 700
  const MediumAbove: int := 300

  /** Chance that each trial fires on a tick. */
  const ThreatChance: real := 0.02
  const DrainChance: real := 0.1
  const DetectionChance: real := 0.3
  const DriftChance: real := 0.2
  const LinkChance: real := 0.01
  /** Nested draw below this keeps the link CONNECTED. */
  const ConnectedChance: real := 0.7

  const ThreatMessages: seq<string> := [
    "No threats detected",
    "Single person detected",
    "Multiple people detected",
    "Vehicle detected - elevated threat"
  ]

  const Targets: seq<Target> := [NoTarget, Person, Vehicle, MultipleObjects]

  /** The power mode the dashboard derives from a battery level. */
  function ModeFor(level: int): PowerMode
  {
    if level > HighAbove then High else if level > MediumAbove then Medium else Low
  }

  /** `dashboardState` as a value. */
  datatype Snapshot = Snapshot(
    threatLevel: int,
    batteryLevel: int,
    powerMode: PowerMode,
    peopleCount: int,
    vehiclesCount: int,
    trackingTarget: Target,
    fps: int,
    detectionCount: int,
    sessionStart: int,
    latitude: real,
    longitude: real,
    altitude: real,
    communicationStatus: LinkStatus,
    events: seq<Event>)

  /**
   * What every reachable snapshot satisfies: the ranges of the simulated
   * fields, the battery between its floor and full, the power mode derived
   * from the battery, and the log within capacity. `fps` is 0 until the
   * first detection refresh.
   */
  predicate Valid(s: Snapshot)
  {
    && 0 <= s.threatLevel < |ThreatMessages|
    && BatteryFloor <= s.batteryLevel <= BatteryFull
    && s.powerMode == ModeFor(s.batteryLevel)
    && 0 <= s.peopleCount < 5
    && 0 <= s.vehiclesCount < 3
    && (s.fps == 0 || 20 <= s.fps < 30)
    && 0 <= s.detectionCount
    && |s.events| <= Capacity
  }

  /** The snapshot the dashboard starts from. */
  function Initial(sessionStart: int): (s: Snapshot)
    ensures Valid(s)
    ensures s.powerMode == High && s.batteryLevel == InitialBattery
    ensures s.detectionCount == 0 && s.events == InitialEvents
    ensures s.sessionStart == sessionStart
  {
    Snapshot(0, InitialBattery, High, 0, 0, NoTarget, 0, 0, sessionStart,
             12.9716, 77.5946, 50.0, Connected, InitialEvents)
  }

  /** A value of Math.random(). */
  predicate Unit(r: real) { 0.0 <= r < 1.0 }

  /** `Math.floor(r * n)` for a draw `r`: a uniform pick among 0 .. n-1. */
  function Bucket(r: real, n: nat): (b: int)
    requires Unit(r) && n > 0
    ensures 0 <= b < n
  {
    assert r * n as real < n as real by {
      assert (1.0 - r) * n as real > 0.0;
    }
    (r * n as real).Floor
  }

  /**
   * The draws of one tick, one per call site of Math.random in
   * simulateSystemUpdates; the draws of a trial that does not fire are
   * not consumed.
   */
  datatype Draws = Draws(
    threatTrial: real, threatPick: real,
    drainTrial: real,
    detectionTrial: real, peoplePick: real, vehiclesPick: real, fpsPick: real, targetPick: real,
    driftTrial: real, latitudePick: real, longitudePick: real, altitudePick: real,
    linkTrial: real, linkPick: real)

  predicate ValidDraws(d: Draws)
  {
    && Unit(d.threatTrial) && Unit(d.threatPick)
    && Unit(d.drainTrial)
    && Unit(d.detectionTrial) && Unit(d.peoplePick) && Unit(d.vehiclesPick)
    && Unit(d.fpsPick) && Unit(d.targetPick)
    && Unit(d.driftTrial) && Unit(d.latitudePick) && Unit(d.longitudePick) && Unit(d.altitudePick)
    && Unit(d.linkTrial) && Unit(d.linkPick)
  }

  /** Everything one tick consumes: the draws and the two clock readings. */
  datatype TickInput = TickInput(draws: Draws, threatTime: string, linkTime: string)

  /** The warning a threat re-draw logs. */
  function ThreatEvent(level: int, time: string): Event
    requires 0 <= level < |ThreatMessages|
  {
    Event(time, "warning", ThreatMessages[level])
  }

  /** The event a link-status change logs. */
  function LinkEvent(status: LinkStatus, time: string): Event
  {
    if status == Reconnecting then Event(time, "warning", "Communication link unstable")
    else Event(time, "success", "Communication restored")
  }

  /** Threat re-draw: a new level in 0..3 and one warning naming it. */
  function UpdateThreat(s: Snapshot, pick: real, time: string): (r: Snapshot)
    requires Unit(pick)
    ensures 0 <= r.threatLevel < |ThreatMessages|
    ensures r.events == Push(s.events, Event(time, "warning", ThreatMessages[r.threatLevel]))
    ensures r.(threatLevel := s.threatLevel, events := s.events) == s
    ensures Valid(s) ==> Valid(r)
  {
    var level := Bucket(pick, |ThreatMessages|);
    s.(threatLevel := level, events := Push(s.events, ThreatEvent(level, time)))
  }

  /** Battery drain by a tenth of a percent, floored, then the power mode. */
  function DrainBattery(s: Snapshot): (r: Snapshot)
    ensures r.batteryLevel >= BatteryFloor
    ensures s.batteryLevel >= BatteryFloor ==> r.batteryLevel <= s.batteryLevel
    ensures s.batteryLevel > BatteryFloor ==> r.batteryLevel == s.batteryLevel - BatteryStep
    ensures s.batteryLevel <= BatteryFloor ==> r.batteryLevel == BatteryFloor
    ensures r.powerMode == ModeFor(r.batteryLevel)
    ensures r.(batteryLevel := s.batteryLevel, powerMode := s.powerMode) == s
    ensures Valid(s) ==> Valid(r)
  {
    var level := Max(BatteryFloor, s.batteryLevel - BatteryStep);
    var mode := if level > HighAbove then High else if level > MediumAbove then Medium else Low;
    s.(batteryLevel := level, powerMode := mode)
  }

  /** Detection refresh: new counts, frame rate and target; one more detection. */
  function RefreshDetections(s: Snapshot, d: Draws): (r: Snapshot)
    requires ValidDraws(d)
    ensures 0 <= r.peopleCount < 5 && 0 <= r.vehiclesCount < 3
    ensures 20 <= r.fps < 30
    ensures r.detectionCount == s.detectionCount + 1
    ensures r.(peopleCount := s.peopleCount, vehiclesCount := s.vehiclesCount,
               detectionCount := s.detectionCount, fps := s.fps,
               trackingTarget := s.trackingTarget) == s
    ensures Valid(s) ==> Valid(r)
  {
    s.(peopleCount := Bucket(d.peoplePick, 5),
       vehiclesCount := Bucket(d.vehiclesPick, 3),
       detectionCount := s.detectionCount + 1,
       fps := 20 + Bucket(d.fpsPick, 10),
       trackingTarget := Targets[Bucket(d.targetPick, |Targets|)])
  }

  /** Position drift: each coordinate moves by (r - 0.5) times its step. */
  function DriftPosition(s: Snapshot, d: Draws): (r: Snapshot)
    requires ValidDraws(d)
    ensures -0.00005 <= r.latitude - s.latitude < 0.00005
    ensures -0.00005 <= r.longitude - s.longitude < 0.00005
    ensures -0.25 <= r.altitude - s.altitude < 0.25
    ensures r.(latitude := s.latitude, longitude := s.longitude, altitude := s.altitude) == s
    ensures Valid(s) ==> Valid(r)
  {
    s.(latitude := s.latitude + (d.latitudePick - 0.5) * 0.0001,
       longitude := s.longitude + (d.longitudePick - 0.5) * 0.0001,
       altitude := s.altitude + (d.altitudePick - 0.5) * 0.5)
  }

  /** Link status update: CONNECTED iff the nested draw is below 0.7, and one event. */
  function UpdateLink(s: Snapshot, pick: real, time: string): (r: Snapshot)
    ensures r.communicationStatus == Connected <==> pick < ConnectedChance
    ensures r.communicationStatus == Connected ==>
              r.events == Push(s.events, Event(time, "success", "Communication restored"))
    ensures r.communicationStatus == Reconnecting ==>
              r.events == Push(s.events, Event(time, "warning", "Communication link unstable"))
    ensures r.(communicationStatus := s.communicationStatus, events := s.events) == s
    ensures Valid(s) ==> Valid(r)
  {
    var status := if pick < ConnectedChance then Connected else Reconnecting;
    s.(communicationStatus := status, events := Push(s.events, LinkEvent(status, time)))
  }

  /**
   * The three updates between the threat and link trials (battery drain,
   * detection refresh, position drift), each under its own trial. None of
   * them touches the log.
   */
  function SilentUpdates(s: Snapshot, d: Draws): (r: Snapshot)
    requires ValidDraws(d)
    ensures r.events == s.events
    ensures r.threatLevel == s.threatLevel && r.communicationStatus == s.communicationStatus
    ensures r.sessionStart == s.sessionStart
    ensures r.detectionCount == s.detectionCount + (if d.detectionTrial < DetectionChance then 1 else 0)
    ensures r.batteryLevel ==
              if d.drainTrial < DrainChance then Max(BatteryFloor, s.batteryLevel - BatteryStep)
              else s.batteryLevel
    ensures Valid(s) ==> Valid(r)
  {
    var s2 := if d.drainTrial < DrainChance then DrainBattery(s) else s;
    var s3 := if d.detectionTrial < DetectionChance then RefreshDetections(s2, d) else s2;
    if d.driftTrial < DriftChance then DriftPosition(s3, d) else s3
  }

  /** One call of simulateSystemUpdates: the five guarded updates in order. */
  function Tick(s: Snapshot, input: TickInput): (r: Snapshot)
    requires ValidDraws(input.draws)
    ensures r.sessionStart == s.sessionStart
    ensures s.detectionCount <= r.detectionCount <= s.detectionCount + 1
    ensures s.batteryLevel - BatteryStep <= r.batteryLevel
    ensures s.batteryLevel >= BatteryFloor ==> r.batteryLevel <= s.batteryLevel
  {
    var d := input.draws;
    var s1 := if d.threatTrial < ThreatChance then UpdateThreat(s, d.threatPick, input.threatTime) else s;
    var s4 := SilentUpdates(s1, d);
    if d.linkTrial < LinkChance then UpdateLink(s4, d.linkPick, input.linkTime) else s4
  }

  /**
   * Reference list of the records one tick appends: the threat warning if
   * that trial fires, then the link event if that trial fires.
   */
  function TickEvents(input: TickInput): (es: seq<Event>)
    requires ValidDraws(input.draws)
    ensures |es| <= 2
  {
    var d := input.draws;
    (if d.threatTrial < ThreatChance
     then [ThreatEvent(Bucket(d.threatPick, |ThreatMessages|), input.threatTime)] else [])
    + (if d.linkTrial < LinkChance
       then [LinkEvent(if d.linkPick < ConnectedChance then Connected else Reconnecting, input.linkTime)]
       else [])
  }

  /** Only the threat and link trials append, threat first, nothing else touches the log. */
  lemma TickAppendsOnlyTickEvents(s: Snapshot, input: TickInput)
    requires ValidDraws(input.draws)
    ensures Tick(s, input).events == PushAll(s.events, TickEvents(input))
  {
    var d := input.draws;
    var t := if d.threatTrial < ThreatChance
             then [ThreatEvent(Bucket(d.threatPick, |ThreatMessages|), input.threatTime)] else [];
    var l := if d.linkTrial < LinkChance
             then [LinkEvent(if d.linkPick < ConnectedChance then Connected else Reconnecting, input.linkTime)]
             else [];
    var s1 := if d.threatTrial < ThreatChance then UpdateThreat(s, d.threatPick, input.threatTime) else s;
    var s4 := SilentUpdates(s1, d);
    assert s1.events == PushAll(s.events, t);
    assert Tick(s, input).events == PushAll(s4.events, l);
    assert TickEvents(input) == t + l;
    PushAllConcat(s.events, t, l);
  }

  /** Pushing two batches is pushing their concatenation. */
  lemma {:induction false} PushAllConcat(log: seq<Event>, a: seq<Event>, b: seq<Event>)
    ensures PushAll(log, a + b) == PushAll(PushAll(log, a), b)
    decreases |a|
  {
    if a == [] {
      assert a + b == b;
    } else {
      assert (a + b)[0] == a[0];
      assert (a + b)[1..] == a[1..] + b;
      PushAllConcat(Push(log, a[0]), a[1..], b);
    }
  }

  /** Every tick keeps the snapshot invariant, power-mode consistency included. */
  lemma TickPreservesValid(s: Snapshot, input: TickInput)
    requires Valid(s) && ValidDraws(input.draws)
    ensures Valid(Tick(s, input))
  {
  }

  /**
   * Per tick: the detection count grows by exactly one when that trial fires
   * and is left alone otherwise; the battery loses one step (down to the
   * floor) when the drain fires; the session start never changes.
   */
  lemma TickCounters(s: Snapshot, input: TickInput)
    requires ValidDraws(input.draws)
    ensures Tick(s, input).detectionCount ==
              s.detectionCount + (if input.draws.detectionTrial < DetectionChance then 1 else 0)
    ensures Tick(s, input).batteryLevel ==
              if input.draws.drainTrial < DrainChance then Max(BatteryFloor, s.batteryLevel - BatteryStep)
              else s.batteryLevel
    ensures Tick(s, input).sessionStart == s.sessionStart
  {
  }

  /** The snapshot after running the ticks of `inputs` in order. */
  function Run(s: Snapshot, inputs: seq<TickInput>): (r: Snapshot)
    requires forall i :: 0 <= i < |inputs| ==> ValidDraws(inputs[i].draws)
    ensures r.sessionStart == s.sessionStart
    ensures s.detectionCount <= r.detectionCount <= s.detectionCount + |inputs|
    ensures s.batteryLevel - |inputs| * BatteryStep <= r.batteryLevel
    decreases |inputs|
  {
    if inputs == [] then s else Run(Tick(s, inputs[0]), inputs[1..])
  }

  /** Reference list of every record a run appends: each tick's records, tick by tick. */
  function RunEvents(inputs: seq<TickInput>): (es: seq<Event>)
    requires forall i :: 0 <= i < |inputs| ==> ValidDraws(inputs[i].draws)
    ensures |es| <= 2 * |inputs|
    decreases |inputs|
  {
    if inputs == [] then [] else TickEvents(inputs[0]) + RunEvents(inputs[1..])
  }

  /**
   * Over any run only the ticks' own records reach the log, in tick order;
   * from a log within capacity it ends as the last ten of old and new records.
   */
  lemma {:induction false} RunAppendsOnlyTickEvents(s: Snapshot, inputs: seq<TickInput>)
    requires forall i :: 0 <= i < |inputs| ==> ValidDraws(inputs[i].draws)
    ensures Run(s, inputs).events == PushAll(s.events, RunEvents(inputs))
    ensures |s.events| <= Capacity ==>
              Run(s, inputs).events == Last(s.events + RunEvents(inputs), Capacity)
    decreases |inputs|
  {
    if inputs != [] {
      var s1 := Tick(s, inputs[0]);
      RunAppendsOnlyTickEvents(s1, inputs[1..]);
      TickAppendsOnlyTickEvents(s, inputs[0]);
      PushAllConcat(s.events, TickEvents(inputs[0]), RunEvents(inputs[1..]));
    }
    if |s.events| <= Capacity {
      PushAllKeepsLast(s.events, RunEvents(inputs));
    }
  }

  /**
   * Over any run: the invariant holds throughout, the detection count never
   * decreases, the battery never increases, and the power mode always
   * matches the battery.
   */
  lemma {:induction false} RunPreservesValid(s: Snapshot, inputs: seq<TickInput>)
    requires Valid(s)
    requires forall i :: 0 <= i < |inputs| ==> ValidDraws(inputs[i].draws)
    ensures Valid(Run(s, inputs))
    ensures Run(s, inputs).powerMode == ModeFor(Run(s, inputs).batteryLevel)
    ensures Run(s, inputs).detectionCount >= s.detectionCount
    ensures Run(s, inputs).batteryLevel <= s.batteryLevel
    decreases |inputs|
  {
    if inputs != [] {
      TickPreservesValid(s, inputs[0]);
      TickCounters(s, inputs[0]);
      RunPreservesValid(Tick(s, inputs[0]), inputs[1..]);
    }
  }

  /** The battery after `n` drains. */
  function DrainTimes(s: Snapshot, n: nat): Snapshot
  {
    if n == 0 then s else DrainBattery(DrainTimes(s, n - 1))
  }

  /** n drains leave max(floor, level - n), with the mode derived from it. */
  lemma {:induction false} DrainTimesLevel(s: Snapshot, n: nat)
    requires s.batteryLevel >= BatteryFloor
    ensures DrainTimes(s, n).batteryLevel == Max(BatteryFloor, s.batteryLevel - n * BatteryStep)
    ensures n > 0 ==> DrainTimes(s, n).powerMode == ModeFor(DrainTimes(s, n).batteryLevel)
  {
    if n > 0 {
      DrainTimesLevel(s, n - 1);
    }
  }

  /**
   * From the initial 85 %, draining to 65 % switches the mode from HIGH to
   * MEDIUM without any direct write of the mode.
   */
  lemma DrainToMedium(sessionStart: int)
    ensures Initial(sessionStart).powerMode == High
    ensures DrainTimes(Initial(sessionStart), 200).batteryLevel == 650
    ensures DrainTimes(Initial(sessionStart), 200).powerMode == Medium
  {
    DrainTimesLevel(Initial(sessionStart), 200);
  }

  /** A threat draw of 3 logs exactly one warning about a vehicle. */
  lemma ThreatDrawThree(s: Snapshot, input: TickInput)
    requires ValidDraws(input.draws)
    requires input.draws.threatTrial < ThreatChance && input.draws.threatPick >= 0.75
    requires input.draws.linkTrial >= LinkChance
    ensures Tick(s, input).threatLevel == 3
    ensures Tick(s, input).events ==
              Push(s.events, Event(input.threatTime, "warning", "Vehicle detected - elevated threat"))
  {
  }

  /** A link trial whose nested draw is not below 0.7 logs the unstable-link warning. */
  lemma LinkUnstable(s: Snapshot, input: TickInput)
    requires ValidDraws(input.draws)
    requires input.draws.threatTrial >= ThreatChance
    requires input.draws.linkTrial < LinkChance && input.draws.linkPick >= ConnectedChance
    ensures Tick(s, input).communicationStatus == Reconnecting
    ensures Tick(s, input).events ==
              Push(s.events, Event(input.linkTime, "warning", "Communication link unstable"))
  {
  }
}
