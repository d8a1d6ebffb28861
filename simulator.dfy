/** The simulation engine of `simulator.py`: per-sensor state (stored value
    and sticky fault timer), the pause flag, the command handler, the
    per-tick reading generator, one iteration of the serving loop, and the
    dynamic configuration builder.

    Randomness and time are inputs: each sensor's tick receives a `Draw`
    (the drift draw, the fault/spike check draw, the spike coin and the
    reading's timestamp) and the tick receives the clock value `now` that
    the fault timers are compared against. The value-level functions
    (`StepSensor`, `Tick`, `ApplyCommand`, `ServeStep`) are the
    specification; the `SensorSimulator` class updates its fields in place
    as the source does and is proved to follow them. */
module Simulator {
  import opened Json
  import opened Strings
  import opened SensorConfig

  // ---------------------------------------------------------------------
  // Readings
  // ---------------------------------------------------------------------

  datatype Status = Ok | Faulty

  /** The `status` string on the wire. */
  function StatusText(s: Status): (t: string)
    ensures t == "OK" || t == "Faulty Sensor"
    ensures (t == "OK") <==> s == Ok
  {
    match s
    case Ok => "OK"
    case Faulty => "Faulty Sensor"
  }

  /** One entry of a reading batch. `value` is the value before the
      two-decimal rounding that serialisation applies. */
  datatype Reading = Reading(
    id: string, name: string, kind: string, unit: string,
    value: real, timestamp: real, status: Status)

  /** The random draws and the timestamp clock read of one sensor in one tick:
      `random.random()` for the drift, `random.random()` for the fault/spike
      check, `random.choice([True, False])` for the spike direction, and
      `time.time()` for the reading's timestamp. */
  datatype Draw = Draw(drift: real, check: real, coin: bool, stamp: real)

  predicate ValidDraw(r: Draw) {
    0.0 <= r.drift < 1.0 && 0.0 <= r.check < 1.0
  }

  // ---------------------------------------------------------------------
  // One sensor, one tick
  // ---------------------------------------------------------------------

  function Max(a: real, b: real): real { if a >= b then a else b }
  function Min(a: real, b: real): real { if a <= b then a else b }

  /** `max(lo, min(hi, v))`. */
  function Clamp(v: real, lo: real, hi: real): real { Max(lo, Min(hi, v)) }

  /** The largest change drift can make in one tick: `span * drift_amount`. */
  function DriftBound(d: SensorDef, p: SimParams): real { Span(d) * p.driftAmount }

  /** The signed drift of one tick: `(r - 0.5) * 2 * span * drift_amount`. */
  function DriftOffset(d: SensorDef, p: SimParams, rDrift: real): real {
    ((rDrift - 0.5) * 2.0) * DriftBound(d, p)
  }

  lemma ScaledDrawBounds(x: real, m: real)
    requires -1.0 <= x <= 1.0 && 0.0 <= m
    ensures -m <= x * m <= m
  {
    if x >= 0.0 {
      assert x * m <= 1.0 * m;
    } else {
      assert (-x) * m <= 1.0 * m;
    }
  }

  /** A drift draw in `[0, 1]` moves the value by at most `DriftBound`. */
  lemma DriftOffsetBounded(d: SensorDef, p: SimParams, rDrift: real)
    requires WellFormedDef(d) && 0.0 <= p.driftAmount && 0.0 <= rDrift <= 1.0
    ensures 0.0 <= DriftBound(d, p)
    ensures -DriftBound(d, p) <= DriftOffset(d, p, rDrift) <= DriftBound(d, p)
  {
    var x, m := (rDrift - 0.5) * 2.0, DriftBound(d, p);
    NonNegProduct(Span(d), p.driftAmount);
    ScaledDrawBounds(x, m);
    assert DriftOffset(d, p, rDrift) == x * m;
  }

  lemma NonNegProduct(a: real, b: real)
    requires 0.0 <= a && 0.0 <= b
    ensures 0.0 <= a * b
  {
  }

  /** The stored value after this tick's drift: the previous stored value
      moved by `DriftOffset` and clamped to the band. It always lands in the
      band. */
  function Drifted(d: SensorDef, p: SimParams, cur: real, rDrift: real): (v: real)
    ensures WellFormedDef(d) ==> InBand(d, v)
  {
    Clamp(cur + DriftOffset(d, p, rDrift), BandLow(d), BandHigh(d))
  }

  /** Drift moves a stored value that was in the band by at most
      `span * drift_amount`: clamping only brings it closer. */
  lemma DriftedMovesLittle(d: SensorDef, p: SimParams, cur: real, rDrift: real)
    requires WellFormedDef(d) && 0.0 <= p.driftAmount && 0.0 <= rDrift <= 1.0
    requires InBand(d, cur)
    ensures -DriftBound(d, p) <= Drifted(d, p, cur, rDrift) - cur <= DriftBound(d, p)
  {
    DriftOffsetBounded(d, p, rDrift);
  }

  /** The out-of-range value of a spike: 20% of the span above the high
      limit or below the low limit. */
  function SpikeValue(d: SensorDef, up: bool): real {
    if up then d.high + Span(d) * 0.2 else d.low - Span(d) * 0.2
  }

  datatype SensorStep = SensorStep(value: real, fault: Option<real>, reading: Reading)

  /** One iteration of the loop body of `generate_data` for sensor `d`:
      drift is applied to the stored value first, on every tick; then the
      sticky fault timer is consulted, and only a sensor that was not
      faulty draws the fault/spike check. */
  function StepSensor(d: SensorDef, p: SimParams, cur: real, fault: Option<real>, r: Draw, now: real): (st: SensorStep)
    // the stored value is the drifted value, whatever is emitted
    ensures st.value == Drifted(d, p, cur, r.drift)
    ensures st.reading.id == d.id && st.reading.name == d.name
    ensures st.reading.kind == d.kind && st.reading.unit == d.unit
    ensures st.reading.timestamp == r.stamp
    // an active fault is emitted as 0.0 and keeps its start time
    ensures fault.Some? && now - fault.value < p.faultDuration ==>
              st.fault == fault && st.reading.status == Faulty && st.reading.value == 0.0
    // an expired fault is cleared and the drifted value is emitted; no draw
    ensures fault.Some? && now - fault.value >= p.faultDuration ==>
              st.fault == None && st.reading.status == Ok && st.reading.value == st.value
    // a healthy sensor whose check draw falls in the fault band starts a fault now
    ensures fault.None? && r.check < p.faultProb ==>
              st.fault == Some(now) && st.reading.status == Faulty && st.reading.value == 0.0
    // in the spike band: the spike value is emitted and no timer starts
    ensures fault.None? && p.faultProb <= r.check < p.faultProb + p.spikeProb ==>
              st.fault == None && st.reading.status == Ok && st.reading.value == SpikeValue(d, r.coin)
    // otherwise: the drifted value is emitted
    ensures fault.None? && r.check >= p.faultProb && r.check >= p.faultProb + p.spikeProb ==>
              st.fault == None && st.reading.status == Ok && st.reading.value == st.value
    // after the tick, the timer is set exactly when the reading is faulty
    ensures st.fault.Some? <==> st.reading.status == Faulty
    // a timer is only ever started at `now` or left as it was
    ensures st.fault.Some? ==> st.fault == fault || (fault.None? && st.fault == Some(now))
  {
    var v := Drifted(d, p, cur, r.drift);
    var emit := (val: real, status: Status) => Reading(d.id, d.name, d.kind, d.unit, val, r.stamp, status);
    match fault
    case Some(since) =>
      if now - since < p.faultDuration then SensorStep(v, fault, emit(0.0, Faulty))
      else SensorStep(v, None, emit(v, Ok))
    case None =>
      if r.check < p.faultProb then SensorStep(v, Some(now), emit(0.0, Faulty))
      else if r.check < p.faultProb + p.spikeProb then SensorStep(v, None, emit(SpikeValue(d, r.coin), Ok))
      else SensorStep(v, None, emit(v, Ok))
  }

  // ---------------------------------------------------------------------
  // Engine state and the whole tick
  // ---------------------------------------------------------------------

  /** `current_values`, `fault_states` and `paused`. */
  datatype SimState = SimState(values: map<string, real>, faults: map<string, Option<real>>, paused: bool)

  /** The ids of the sensors from position `i` on. */
  function IdsFrom(cfg: seq<SensorDef>, i: nat): set<string> {
    set k | i <= k < |cfg| :: cfg[k].id
  }

  /** The configured ids: the keys of the engine's dictionaries. */
  function IdSet(cfg: seq<SensorDef>): set<string> {
    IdsFrom(cfg, 0)
  }

  /** Both dictionaries have exactly the configured ids as keys. */
  predicate Shaped(cfg: seq<SensorDef>, s: SimState) {
    s.values.Keys == IdSet(cfg) && s.faults.Keys == IdSet(cfg)
  }

  /** Both dictionaries hold every configured id (and maybe more). */
  predicate Covers(cfg: seq<SensorDef>, s: SimState) {
    forall k :: 0 <= k < |cfg| ==> cfg[k].id in s.values && cfg[k].id in s.faults
  }

  lemma ShapedCovers(cfg: seq<SensorDef>, s: SimState)
    requires Shaped(cfg, s)
    ensures Covers(cfg, s)
  {
    forall k | 0 <= k < |cfg|
      ensures cfg[k].id in IdSet(cfg)
    {
    }
  }

  /** The clamp invariant: every stored value lies in its sensor's band. */
  predicate StoredInBand(cfg: seq<SensorDef>, s: SimState)
    requires Shaped(cfg, s)
  {
    forall k :: 0 <= k < |cfg| ==> InBand(cfg[k], s.values[cfg[k].id])
  }

  datatype TickResult = TickResult(state: SimState, batch: seq<Reading>)

  /** One sensor's step from its definition, stored value, fault timer and
      draw. */
  type Stepper = (SensorDef, real, Option<real>, Draw) -> SensorStep

  /** The step `generate_data` takes for every sensor, with its parameters
      and its clock reading. */
  function StepperAt(p: SimParams, now: real): Stepper {
    (d: SensorDef, cur: real, fault: Option<real>, r: Draw) => StepSensor(d, p, cur, fault, r, now)
  }

  /** The loop of `generate_data` after its first `i` iterations, each
      sensor taking the step `step`: the state so far and the readings
      appended so far. */
  function TickUpTo(cfg: seq<SensorDef>, step: Stepper, s: SimState, draws: seq<Draw>, i: nat): (r: TickResult)
    requires Covers(cfg, s) && |draws| == |cfg| && i <= |cfg|
    ensures Covers(cfg, r.state) && r.state.paused == s.paused && |r.batch| == i
    decreases i
  {
    if i == 0 then TickResult(s, [])
    else
      var prev := TickUpTo(cfg, step, s, draws, i - 1);
      var id := cfg[i - 1].id;
      var st := step(cfg[i - 1], prev.state.values[id], prev.state.faults[id], draws[i - 1]);
      TickResult(SimState(prev.state.values[id := st.value], prev.state.faults[id := st.fault], prev.state.paused),
                 prev.batch + [st.reading])
  }

  /** The loop only overwrites configured ids: both dictionaries keep their keys. */
  lemma {:induction false} TickUpToKeys(cfg: seq<SensorDef>, step: Stepper, s: SimState, draws: seq<Draw>, i: nat)
    requires Covers(cfg, s) && |draws| == |cfg| && i <= |cfg|
    ensures TickUpTo(cfg, step, s, draws, i).state.values.Keys == s.values.Keys
    ensures TickUpTo(cfg, step, s, draws, i).state.faults.Keys == s.faults.Keys
    decreases i
  {
    if i > 0 {
      TickUpToKeys(cfg, step, s, draws, i - 1);
    }
  }

  /** `generate_data`: the new engine state and the batch, one reading per
      configured sensor in configuration order. */
  function Tick(cfg: seq<SensorDef>, p: SimParams, s: SimState, draws: seq<Draw>, now: real): (r: TickResult)
    requires Shaped(cfg, s) && |draws| == |cfg|
    ensures Shaped(cfg, r.state) && r.state.paused == s.paused && |r.batch| == |cfg|
  {
    ShapedCovers(cfg, s);
    TickUpToKeys(cfg, StepperAt(p, now), s, draws, |cfg|);
    TickUpTo(cfg, StepperAt(p, now), s, draws, |cfg|)
  }

  /** Sensor `k`'s own step under `step`, from the state before the tick. */
  function StepAt(cfg: seq<SensorDef>, step: Stepper, s: SimState, draws: seq<Draw>, k: nat): SensorStep
    requires Covers(cfg, s) && |draws| == |cfg| && k < |cfg|
  {
    step(cfg[k], s.values[cfg[k].id], s.faults[cfg[k].id], draws[k])
  }

  /** The sensor's own step, computed from the state before the tick. */
  function StepOf(cfg: seq<SensorDef>, p: SimParams, s: SimState, draws: seq<Draw>, now: real, k: nat): SensorStep
    requires Shaped(cfg, s) && |draws| == |cfg| && k < |cfg|
  {
    StepSensor(cfg[k], p, s.values[cfg[k].id], s.faults[cfg[k].id], draws[k], now)
  }

  /** Sensors not yet reached are untouched. */
  lemma {:induction false} TickUpToLeaves(cfg: seq<SensorDef>, step: Stepper, s: SimState, draws: seq<Draw>, i: nat, j: nat)
    requires UniqueIds(cfg) && Covers(cfg, s) && |draws| == |cfg|
    requires i <= j < |cfg|
    ensures TickUpTo(cfg, step, s, draws, i).state.values[cfg[j].id] == s.values[cfg[j].id]
    ensures TickUpTo(cfg, step, s, draws, i).state.faults[cfg[j].id] == s.faults[cfg[j].id]
    decreases i
  {
    if i > 0 {
      TickUpToLeaves(cfg, step, s, draws, i - 1, j);
      assert cfg[i - 1].id != cfg[j].id;
    }
  }

  /** Each sensor already reached holds its own step's state and contributed
      its own step's reading, computed from the state before the tick. */
  lemma {:induction false} TickUpToAt(cfg: seq<SensorDef>, step: Stepper, s: SimState, draws: seq<Draw>, i: nat, k: nat)
    requires UniqueIds(cfg) && Covers(cfg, s) && |draws| == |cfg|
    requires k < i <= |cfg|
    ensures var r := TickUpTo(cfg, step, s, draws, i);
            var st := StepAt(cfg, step, s, draws, k);
            && r.state.values[cfg[k].id] == st.value
            && r.state.faults[cfg[k].id] == st.fault
            && r.batch[k] == st.reading
    decreases i
  {
    var r := TickUpTo(cfg, step, s, draws, i);
    var prev := TickUpTo(cfg, step, s, draws, i - 1);
    var id := cfg[i - 1].id;
    var last := step(cfg[i - 1], prev.state.values[id], prev.state.faults[id], draws[i - 1]);
    assert r.state.values == prev.state.values[id := last.value];
    assert r.state.faults == prev.state.faults[id := last.fault];
    assert r.batch == prev.batch + [last.reading];
    if k == i - 1 {
      TickUpToLeaves(cfg, step, s, draws, i - 1, k);
      assert last == StepAt(cfg, step, s, draws, k);
    } else {
      TickUpToAt(cfg, step, s, draws, i - 1, k);
      assert id != cfg[k].id;
      assert r.batch[k] == prev.batch[k];
    }
  }

  /** The tick, sensor by sensor: the new stored value, the new fault timer and
      the `k`-th reading of the batch are those of sensor `k`'s own step. */
  lemma TickAt(cfg: seq<SensorDef>, p: SimParams, s: SimState, draws: seq<Draw>, now: real, k: nat)
    requires UniqueIds(cfg) && Shaped(cfg, s) && |draws| == |cfg| && k < |cfg|
    ensures |Tick(cfg, p, s, draws, now).batch| == |cfg|
    ensures Tick(cfg, p, s, draws, now).state.values[cfg[k].id] == StepOf(cfg, p, s, draws, now, k).value
    ensures Tick(cfg, p, s, draws, now).state.faults[cfg[k].id] == StepOf(cfg, p, s, draws, now, k).fault
    ensures Tick(cfg, p, s, draws, now).batch[k] == StepOf(cfg, p, s, draws, now, k).reading
  {
    ShapedCovers(cfg, s);
    TickUpToAt(cfg, StepperAt(p, now), s, draws, |cfg|, k);
    assert StepAt(cfg, StepperAt(p, now), s, draws, k) == StepOf(cfg, p, s, draws, now, k);
  }

  /** After any tick every stored value is within its clamp band, whatever
      was stored before and whatever was emitted. */
  lemma TickKeepsBand(cfg: seq<SensorDef>, p: SimParams, s: SimState, draws: seq<Draw>, now: real)
    requires WellFormedConfig(cfg) && Shaped(cfg, s) && |draws| == |cfg|
    ensures StoredInBand(cfg, Tick(cfg, p, s, draws, now).state)
  {
    forall k | 0 <= k < |cfg|
      ensures InBand(cfg[k], Tick(cfg, p, s, draws, now).state.values[cfg[k].id])
    {
      TickAt(cfg, p, s, draws, now, k);
    }
  }

  /** A tick changes each stored value that was in its band by at most
      `span * drift_amount`, on fault and spike ticks as well. */
  lemma TickDriftBounded(cfg: seq<SensorDef>, p: SimParams, s: SimState, draws: seq<Draw>, now: real)
    requires WellFormedConfig(cfg) && WellFormedParams(p) && Shaped(cfg, s) && |draws| == |cfg|
    requires forall k :: 0 <= k < |draws| ==> ValidDraw(draws[k])
    requires StoredInBand(cfg, s)
    ensures forall k :: 0 <= k < |cfg| ==>
              -DriftBound(cfg[k], p) <= Tick(cfg, p, s, draws, now).state.values[cfg[k].id] - s.values[cfg[k].id] <= DriftBound(cfg[k], p)
  {
    forall k | 0 <= k < |cfg|
      ensures -DriftBound(cfg[k], p) <= Tick(cfg, p, s, draws, now).state.values[cfg[k].id] - s.values[cfg[k].id] <= DriftBound(cfg[k], p)
    {
      TickAt(cfg, p, s, draws, now, k);
      DriftedMovesLittle(cfg[k], p, s.values[cfg[k].id], draws[k].drift);
    }
  }

  /** The batch has one reading per configured sensor, in configuration
      order, with the id, name, type and unit copied from the configuration;
      its status is "Faulty Sensor" exactly when that sensor's fault timer is
      set after the tick. */
  lemma TickBatchShape(cfg: seq<SensorDef>, p: SimParams, s: SimState, draws: seq<Draw>, now: real)
    requires UniqueIds(cfg) && Shaped(cfg, s) && |draws| == |cfg|
    ensures var t := Tick(cfg, p, s, draws, now);
            && |t.batch| == |cfg|
            && t.state.paused == s.paused
            && forall k :: 0 <= k < |cfg| ==>
                 && t.batch[k].id == cfg[k].id && t.batch[k].name == cfg[k].name
                 && t.batch[k].kind == cfg[k].kind && t.batch[k].unit == cfg[k].unit
                 && t.batch[k].timestamp == draws[k].stamp
                 && (t.batch[k].status == Faulty <==> t.state.faults[cfg[k].id].Some?)
  {
    forall k | 0 <= k < |cfg| {
      TickAt(cfg, p, s, draws, now, k);
    }
  }

  // ---------------------------------------------------------------------
  // Commands
  // ---------------------------------------------------------------------

  lemma IdsFromStep(cfg: seq<SensorDef>, i: nat)
    requires i < |cfg|
    ensures IdsFrom(cfg, i) == {cfg[i].id} + IdsFrom(cfg, i + 1)
  {
    assert cfg[i].id in IdsFrom(cfg, i);
  }

  /** The loop of `reset_simulation` from sensor `i` on: each configured
      sensor's value is set to the middle of its limits. */
  function Recentre(cfg: seq<SensorDef>, values: map<string, real>, i: nat): (r: map<string, real>)
    requires i <= |cfg|
    ensures r.Keys == values.Keys + IdsFrom(cfg, i)
    decreases |cfg| - i
  {
    if i == |cfg| then values
    else
      IdsFromStep(cfg, i);
      Recentre(cfg, values[cfg[i].id := Midpoint(cfg[i])], i + 1)
  }

  /** With distinct ids, a sensor's id does not occur again later on. */
  lemma UniqueNotLater(cfg: seq<SensorDef>, i: nat)
    requires UniqueIds(cfg) && i < |cfg|
    ensures cfg[i].id !in IdsFrom(cfg, i + 1)
  {
  }

  /** Each configured sensor's value is reset to the middle of its limits. */
  lemma RecentreAt(cfg: seq<SensorDef>, values: map<string, real>, i: nat, k: nat)
    requires UniqueIds(cfg) && i <= k < |cfg|
    ensures Recentre(cfg, values, i)[cfg[k].id] == Midpoint(cfg[k])
  {
    UniqueNotLater(cfg, k);
    RecentreReaches(cfg, values, i, k);
  }

  /** The loop reaches sensor `k` and no later sensor shares its id. */
  lemma {:induction false} RecentreReaches(cfg: seq<SensorDef>, values: map<string, real>, i: nat, k: nat)
    requires i <= k < |cfg| && cfg[k].id !in IdsFrom(cfg, k + 1)
    ensures Recentre(cfg, values, i)[cfg[k].id] == Midpoint(cfg[k])
    decreases |cfg| - i
  {
    var next := values[cfg[i].id := Midpoint(cfg[i])];
    assert Recentre(cfg, values, i) == Recentre(cfg, next, i + 1);
    if k == i {
      RecentreLeaves(cfg, next, i + 1, cfg[i].id);
    } else {
      RecentreReaches(cfg, next, i + 1, k);
    }
  }

  lemma {:induction false} RecentreLeaves(cfg: seq<SensorDef>, values: map<string, real>, i: nat, id: string)
    requires i <= |cfg| && id in values && id !in IdsFrom(cfg, i)
    ensures Recentre(cfg, values, i)[id] == values[id]
    decreases |cfg| - i
  {
    if i < |cfg| {
      IdsFromStep(cfg, i);
      RecentreLeaves(cfg, values[cfg[i].id := Midpoint(cfg[i])], i + 1, id);
    }
  }

  /** `{sid: None for sid in sensor_config}`. */
  function NoFaults(cfg: seq<SensorDef>): map<string, Option<real>> {
    map id | id in IdSet(cfg) :: None
  }

  /** `reset_simulation`: values to their midpoints, fault timers cleared. */
  function Reset(cfg: seq<SensorDef>, s: SimState): SimState {
    SimState(Recentre(cfg, s.values, 0), NoFaults(cfg), s.paused)
  }

  function ToggleMessage(paused: bool): string {
    "Simulation " + (if paused then "Paused" else "Resumed")
  }

  /** `str(e)` for the AttributeError raised by `cmd_data.get` when the
      decoded command is not a JSON object. */
  function NoGetMessage(j: Json): string {
    "'" + PyTypeName(j) + "' object has no attribute 'get'"
  }

  datatype CommandResult = CommandResult(state: SimState, response: Json)

  /** `process_command`: the new engine state and the response object. */
  function ApplyCommand(cfg: seq<SensorDef>, s: SimState, cmdData: Json): (r: CommandResult)
    ensures Shaped(cfg, s) ==> Shaped(cfg, r.state)
    ensures r.response.JObj? && "status" in r.response.fields && "message" in r.response.fields
    ensures r.response.fields["status"] == JStr("OK") || r.response.fields["status"] == JStr("ERROR")
    ensures r.response.fields["status"] == JStr("ERROR") ==> r.state == s
    ensures r.state.values == s.values || r.state.values == Recentre(cfg, s.values, 0)
  {
    if !cmdData.JObj? then
      CommandResult(s, StatusMessage("ERROR", NoGetMessage(cmdData)))
    else
      var cmd := Get(cmdData.fields, "command");
      if cmd == Some(JStr("RESET")) then
        CommandResult(Reset(cfg, s), StatusMessage("OK", "Simulation Reset"))
      else if cmd == Some(JStr("CLEAR_FAULTS")) then
        CommandResult(s.(faults := NoFaults(cfg)), StatusMessage("OK", "Faults Cleared"))
      else if cmd == Some(JStr("TOGGLE_SIM")) then
        var paused := !s.paused;
        CommandResult(s.(paused := paused),
          JObj(map["status" := JStr("OK"), "message" := JStr(ToggleMessage(paused)), "paused" := JBool(paused)]))
      else
        CommandResult(s, StatusMessage("ERROR", "Unknown Command"))
  }

  /** A JSON object whose `"command"` field is the string `name`. */
  predicate IsCommand(cmdData: Json, name: string) {
    cmdData.JObj? && Get(cmdData.fields, "command") == Some(JStr(name))
  }

  /** RESET: every sensor's value is exactly its midpoint and every fault
      timer is cleared; the pause flag is kept. */
  lemma ResetCommand(cfg: seq<SensorDef>, s: SimState, cmdData: Json)
    requires UniqueIds(cfg) && Shaped(cfg, s) && IsCommand(cmdData, "RESET")
    ensures var r := ApplyCommand(cfg, s, cmdData);
            && Shaped(cfg, r.state)
            && (forall k :: 0 <= k < |cfg| ==>
                  r.state.values[cfg[k].id] == Midpoint(cfg[k]) && r.state.faults[cfg[k].id] == None)
            && r.state.paused == s.paused
            && r.response == StatusMessage("OK", "Simulation Reset")
  {
    forall k | 0 <= k < |cfg|
      ensures Recentre(cfg, s.values, 0)[cfg[k].id] == Midpoint(cfg[k])
    {
      RecentreAt(cfg, s.values, 0, k);
    }
  }

  /** CLEAR_FAULTS: every fault timer is cleared; values and the pause flag
      are untouched. */
  lemma ClearFaultsCommand(cfg: seq<SensorDef>, s: SimState, cmdData: Json)
    requires Shaped(cfg, s) && IsCommand(cmdData, "CLEAR_FAULTS")
    ensures var r := ApplyCommand(cfg, s, cmdData);
            && r.state.values == s.values && r.state.paused == s.paused
            && r.state.faults.Keys == s.faults.Keys
            && (forall id :: id in r.state.faults ==> r.state.faults[id] == None)
            && r.response == StatusMessage("OK", "Faults Cleared")
  {
  }

  /** TOGGLE_SIM flips the pause flag only, and reports the new flag. */
  lemma ToggleCommand(cfg: seq<SensorDef>, s: SimState, cmdData: Json)
    requires IsCommand(cmdData, "TOGGLE_SIM")
    ensures var r := ApplyCommand(cfg, s, cmdData);
            && r.state == s.(paused := !s.paused)
            && r.response.fields["status"] == JStr("OK")
            && r.response.fields["paused"] == JBool(!s.paused)
            && r.response.fields["message"] == JStr(if s.paused then "Simulation Resumed" else "Simulation Paused")
  {
  }

  /** Toggling twice restores the engine state. */
  lemma ToggleTwice(cfg: seq<SensorDef>, s: SimState, cmdData: Json)
    requires IsCommand(cmdData, "TOGGLE_SIM")
    ensures ApplyCommand(cfg, ApplyCommand(cfg, s, cmdData).state, cmdData).state == s
  {
  }

  /** Any other object, including one without a `"command"` key, is an
      unknown command: ERROR, and nothing changes. */
  lemma UnknownCommand(cfg: seq<SensorDef>, s: SimState, cmdData: Json)
    requires cmdData.JObj?
    requires !IsCommand(cmdData, "RESET") && !IsCommand(cmdData, "CLEAR_FAULTS") && !IsCommand(cmdData, "TOGGLE_SIM")
    ensures ApplyCommand(cfg, s, cmdData) == CommandResult(s, StatusMessage("ERROR", "Unknown Command"))
  {
  }

  /** A decoded value that is not an object makes `cmd_data.get` raise; the
      handler turns the exception into ERROR with its message, and nothing
      changes. */
  lemma NonObjectCommand(cfg: seq<SensorDef>, s: SimState, cmdData: Json)
    requires !cmdData.JObj?
    ensures ApplyCommand(cfg, s, cmdData) == CommandResult(s, StatusMessage("ERROR", NoGetMessage(cmdData)))
    ensures NoGetMessage(cmdData) != "Unknown Command"
  {
    assert NoGetMessage(cmdData)[0] == '\'';
  }

  /** Commands keep the clamp invariant: RESET stores midpoints, which lie in
      the band; every other command leaves the values alone. */
  lemma CommandKeepsBand(cfg: seq<SensorDef>, s: SimState, cmdData: Json)
    requires WellFormedConfig(cfg) && Shaped(cfg, s) && StoredInBand(cfg, s)
    ensures Shaped(cfg, ApplyCommand(cfg, s, cmdData).state)
    ensures StoredInBand(cfg, ApplyCommand(cfg, s, cmdData).state)
  {
    if IsCommand(cmdData, "RESET") {
      ResetInBand(cfg, s);
    } else {
      assert ApplyCommand(cfg, s, cmdData).state.values == s.values;
    }
  }

  /** Every sensor's midpoint lies in its clamp band. */
  lemma ResetInBand(cfg: seq<SensorDef>, s: SimState)
    requires WellFormedConfig(cfg) && Shaped(cfg, s)
    ensures Shaped(cfg, Reset(cfg, s)) && StoredInBand(cfg, Reset(cfg, s))
  {
    forall k | 0 <= k < |cfg|
      ensures Recentre(cfg, s.values, 0)[cfg[k].id] == Midpoint(cfg[k]) && InBand(cfg[k], Midpoint(cfg[k]))
    {
      RecentreAt(cfg, s.values, 0, k);
      BandHoldsMidpoint(cfg[k]);
    }
  }

  // ---------------------------------------------------------------------
  // Sequences of commands and ticks
  // ---------------------------------------------------------------------

  datatype TickInput = TickInput(draws: seq<Draw>, now: real)

  /** What the engine is asked to do between two observations. */
  datatype EngineStep = Command(cmdData: Json) | Generate(tick: TickInput)

  predicate StepFits(cfg: seq<SensorDef>, e: EngineStep) {
    e.Generate? ==> |e.tick.draws| == |cfg|
  }

  predicate TicksFit(cfg: seq<SensorDef>, ticks: seq<TickInput>) {
    forall j :: 0 <= j < |ticks| ==> |ticks[j].draws| == |cfg|
  }

  function Next(cfg: seq<SensorDef>, p: SimParams, s: SimState, e: EngineStep): (r: SimState)
    requires Shaped(cfg, s) && StepFits(cfg, e)
    ensures Shaped(cfg, r)
  {
    match e
    case Command(c) => ApplyCommand(cfg, s, c).state
    case Generate(t) => Tick(cfg, p, s, t.draws, t.now).state
  }

  function Run(cfg: seq<SensorDef>, p: SimParams, s: SimState, steps: seq<EngineStep>): (r: SimState)
    requires Shaped(cfg, s) && forall j :: 0 <= j < |steps| ==> StepFits(cfg, steps[j])
    ensures Shaped(cfg, r)
    decreases |steps|
  {
    if steps == [] then s else Run(cfg, p, Next(cfg, p, s, steps[0]), steps[1..])
  }

  /** The clamp invariant holds after any sequence of commands and ticks. */
  lemma {:induction false} RunKeepsBand(cfg: seq<SensorDef>, p: SimParams, s: SimState, steps: seq<EngineStep>)
    requires WellFormedConfig(cfg) && Shaped(cfg, s) && StoredInBand(cfg, s)
    requires forall j :: 0 <= j < |steps| ==> StepFits(cfg, steps[j])
    ensures StoredInBand(cfg, Run(cfg, p, s, steps))
    decreases |steps|
  {
    if steps != [] {
      NextKeepsBand(cfg, p, s, steps[0]);
      RunKeepsBand(cfg, p, Next(cfg, p, s, steps[0]), steps[1..]);
    }
  }

  lemma NextKeepsBand(cfg: seq<SensorDef>, p: SimParams, s: SimState, e: EngineStep)
    requires WellFormedConfig(cfg) && Shaped(cfg, s) && StoredInBand(cfg, s) && StepFits(cfg, e)
    ensures StoredInBand(cfg, Next(cfg, p, s, e))
  {
    match e
    case Command(c) => CommandKeepsBand(cfg, s, c);
    case Generate(t) => TickKeepsBand(cfg, p, s, t.draws, t.now);
  }

  datatype TicksResult = TicksResult(state: SimState, batches: seq<seq<Reading>>)

  /** Consecutive ticks with no command in between. */
  function RunTicks(cfg: seq<SensorDef>, p: SimParams, s: SimState, ticks: seq<TickInput>): (r: TicksResult)
    requires Shaped(cfg, s) && TicksFit(cfg, ticks)
    ensures Shaped(cfg, r.state) && |r.batches| == |ticks|
    ensures forall j :: 0 <= j < |ticks| ==> |r.batches[j]| == |cfg|
    decreases |ticks|
  {
    if ticks == [] then TicksResult(s, [])
    else
      var t := Tick(cfg, p, s, ticks[0].draws, ticks[0].now);
      var rest := RunTicks(cfg, p, t.state, ticks[1..]);
      TicksResult(rest.state, [t.batch] + rest.batches)
  }

  /** The first tick of a run, then the rest of the run. */
  lemma RunTicksCons(cfg: seq<SensorDef>, p: SimParams, s: SimState, ticks: seq<TickInput>)
    requires Shaped(cfg, s) && TicksFit(cfg, ticks) && ticks != []
    ensures var t := Tick(cfg, p, s, ticks[0].draws, ticks[0].now);
            && Shaped(cfg, t.state) && TicksFit(cfg, ticks[1..])
            && var rest := RunTicks(cfg, p, t.state, ticks[1..]);
               RunTicks(cfg, p, s, ticks) == TicksResult(rest.state, [t.batch] + rest.batches)
  {
  }

  /** One tick while the fault started at `since` is still active. */
  lemma ActiveFaultTick(cfg: seq<SensorDef>, p: SimParams, s: SimState, draws: seq<Draw>, now: real, k: nat, since: real)
    requires UniqueIds(cfg) && Shaped(cfg, s) && |draws| == |cfg| && k < |cfg|
    requires s.faults[cfg[k].id] == Some(since) && now - since < p.faultDuration
    ensures var t := Tick(cfg, p, s, draws, now);
            && |t.batch| == |cfg|
            && t.state.faults[cfg[k].id] == Some(since)
            && t.batch[k].status == Faulty && t.batch[k].value == 0.0
  {
    TickAt(cfg, p, s, draws, now, k);
  }

  /** Sensor `k` has been faulty since `since`, and every tick of the run
      comes before its fault expires. */
  predicate FaultyThroughout(cfg: seq<SensorDef>, p: SimParams, s: SimState, ticks: seq<TickInput>, k: nat, since: real) {
    && UniqueIds(cfg) && Shaped(cfg, s) && TicksFit(cfg, ticks) && k < |cfg|
    && cfg[k].id in s.faults && s.faults[cfg[k].id] == Some(since)
    && forall j :: 0 <= j < |ticks| ==> ticks[j].now - since < p.faultDuration
  }

  /** The first tick of such a run reports the fault and leaves the rest of
      the run the same kind. */
  lemma FaultyThroughoutTail(cfg: seq<SensorDef>, p: SimParams, s: SimState, ticks: seq<TickInput>, k: nat, since: real)
    requires FaultyThroughout(cfg, p, s, ticks, k, since) && ticks != []
    ensures var t := Tick(cfg, p, s, ticks[0].draws, ticks[0].now);
            && FaultyThroughout(cfg, p, t.state, ticks[1..], k, since)
            && k < |t.batch| && t.batch[k].status == Faulty && t.batch[k].value == 0.0
  {
    ActiveFaultTick(cfg, p, s, ticks[0].draws, ticks[0].now, k, since);
    assert forall j :: 0 <= j < |ticks| - 1 ==> ticks[1..][j] == ticks[j + 1];
  }

  /** Sensor `k` is reported faulty, with value 0.0, in every batch. */
  predicate ReportsFaulty(batches: seq<seq<Reading>>, k: nat) {
    forall j :: 0 <= j < |batches| ==> k < |batches[j]| && batches[j][k].status == Faulty && batches[j][k].value == 0.0
  }

  /** A sticky fault started at `since` keeps its timer, and its sensor is
      reported as "Faulty Sensor" with value 0.0, on every tick up to
      `since + fault_duration`, whatever the draws. */
  lemma FaultPersists(cfg: seq<SensorDef>, p: SimParams, s: SimState, ticks: seq<TickInput>, k: nat, since: real)
    requires UniqueIds(cfg) && Shaped(cfg, s) && TicksFit(cfg, ticks) && k < |cfg|
    requires s.faults[cfg[k].id] == Some(since)
    requires forall j :: 0 <= j < |ticks| ==> ticks[j].now - since < p.faultDuration
    ensures var r := RunTicks(cfg, p, s, ticks);
            && r.state.faults[cfg[k].id] == Some(since)
            && forall j :: 0 <= j < |ticks| ==> r.batches[j][k].status == Faulty && r.batches[j][k].value == 0.0
  {
    FaultKept(cfg, p, s, ticks, k, since);
    FaultReported(cfg, p, s, ticks, k, since);
  }

  lemma {:induction false} FaultKept(cfg: seq<SensorDef>, p: SimParams, s: SimState, ticks: seq<TickInput>, k: nat, since: real)
    requires FaultyThroughout(cfg, p, s, ticks, k, since)
    ensures RunTicks(cfg, p, s, ticks).state.faults[cfg[k].id] == Some(since)
    decreases |ticks|
  {
    if ticks != [] {
      FaultyThroughoutTail(cfg, p, s, ticks, k, since);
      RunTicksCons(cfg, p, s, ticks);
      FaultKept(cfg, p, Tick(cfg, p, s, ticks[0].draws, ticks[0].now).state, ticks[1..], k, since);
    }
  }

  lemma {:induction false} FaultReported(cfg: seq<SensorDef>, p: SimParams, s: SimState, ticks: seq<TickInput>, k: nat, since: real)
    requires FaultyThroughout(cfg, p, s, ticks, k, since)
    ensures ReportsFaulty(RunTicks(cfg, p, s, ticks).batches, k)
    decreases |ticks|
  {
    if ticks != [] {
      var t := Tick(cfg, p, s, ticks[0].draws, ticks[0].now);
      FaultyThroughoutTail(cfg, p, s, ticks, k, since);
      RunTicksCons(cfg, p, s, ticks);
      FaultReported(cfg, p, t.state, ticks[1..], k, since);
      ReportsFaultyCons(t.batch, RunTicks(cfg, p, t.state, ticks[1..]).batches, k);
    }
  }

  lemma ReportsFaultyCons(b: seq<Reading>, bs: seq<seq<Reading>>, k: nat)
    requires k < |b| && b[k].status == Faulty && b[k].value == 0.0 && ReportsFaulty(bs, k)
    ensures ReportsFaulty([b] + bs, k)
  {
    assert forall j :: 1 <= j < |bs| + 1 ==> ([b] + bs)[j] == bs[j - 1];
  }

  /** The first tick at or after `since + fault_duration` clears the timer and
      reports the sensor "OK" with its stored value. */
  lemma FaultRecovers(cfg: seq<SensorDef>, p: SimParams, s: SimState, draws: seq<Draw>, now: real, k: nat)
    requires UniqueIds(cfg) && Shaped(cfg, s) && |draws| == |cfg| && k < |cfg|
    requires s.faults[cfg[k].id].Some? && now - s.faults[cfg[k].id].value >= p.faultDuration
    ensures var t := Tick(cfg, p, s, draws, now);
            && t.state.faults[cfg[k].id] == None
            && t.batch[k].status == Ok
            && t.batch[k].value == t.state.values[cfg[k].id]
  {
    TickAt(cfg, p, s, draws, now, k);
  }

  /** After CLEAR_FAULTS, the very next batch reports a sensor faulty only if
      its check draw falls in the fault band, however recently its previous
      fault started. */
  lemma ClearFaultsThenTick(cfg: seq<SensorDef>, p: SimParams, s: SimState, cmdData: Json, draws: seq<Draw>, now: real, k: nat)
    requires UniqueIds(cfg) && Shaped(cfg, s) && |draws| == |cfg| && k < |cfg|
    requires IsCommand(cmdData, "CLEAR_FAULTS")
    ensures var c := ApplyCommand(cfg, s, cmdData).state;
            Shaped(cfg, c) &&
            (Tick(cfg, p, c, draws, now).batch[k].status == Faulty <==> draws[k].check < p.faultProb)
  {
    var c := ApplyCommand(cfg, s, cmdData).state;
    assert cfg[k].id in IdSet(cfg);
    TickAt(cfg, p, c, draws, now, k);
  }

  /** A spike is reported out of range for sensor S01 (above `high * 1.1`),
      so the clamp band bounds the stored value, not the emitted one. */
  lemma SpikeLeavesBand()
    ensures !InBand(Base[0], SpikeValue(Base[0], true))
    ensures !InBand(Base[0], 0.0)
  {
  }

  /** A spike is out of limits for every well-formed sensor: the high spike
      lies above `high`, the low one below `low`. */
  lemma SpikeOutOfLimits(d: SensorDef)
    requires WellFormedDef(d)
    ensures SpikeValue(d, true) > d.high
    ensures SpikeValue(d, false) < d.low
  {
  }

  /** Whether a spike also leaves the clamp band depends on the limits: the
      high spike does iff `high > 2 * low`, the low one iff `2 * high > 3 * low`. */
  lemma SpikeBand(d: SensorDef)
    requires WellFormedDef(d)
    ensures !InBand(d, SpikeValue(d, true)) <==> d.high > 2.0 * d.low
    ensures !InBand(d, SpikeValue(d, false)) <==> 2.0 * d.high > 3.0 * d.low
  {
  }

  /** The pressure sensor S02 (800..1200) spikes to 1280 and 720, both inside
      its band 720..1320. */
  lemma PressureSpikesInBand()
    ensures Base[1].id == "S02"
    ensures SpikeValue(Base[1], true) == 1280.0 && SpikeValue(Base[1], false) == 720.0
    ensures InBand(Base[1], SpikeValue(Base[1], true)) && InBand(Base[1], SpikeValue(Base[1], false))
  {
  }

  /** The body of the loop of `generate_data` for one sensor, statement by
      statement: the new stored value, the new fault timer and the reading. */
  method StepOne(d: SensorDef, p: SimParams, cur: real, since: Option<real>, r: Draw, now: real)
    returns (newVal: real, newFault: Option<real>, reading: Reading)
    ensures SensorStep(newVal, newFault, reading) == StepSensor(d, p, cur, since, r, now)
  {
    var span := d.high - d.low;
    // 1. drift, clamped; the caller stores it on every tick
    var drift := (r.drift - 0.5) * 2.0 * (span * p.driftAmount);
    newVal := Max(d.low * 0.9, Min(d.high * 1.1, cur + drift));
    assert newVal == Drifted(d, p, cur, r.drift);
    var finalVal := newVal;
    var status := Ok;
    newFault := since;
    // 2. sticky faults, then a fault or spike draw for a healthy sensor
    if since.Some? {
      if now - since.value < p.faultDuration {
        status := Faulty;
        finalVal := 0.0;
      } else {
        newFault := None;
        status := Ok;
      }
    } else {
      var randCheck := r.check;
      if randCheck < p.faultProb {
        status := Faulty;
        finalVal := 0.0;
        newFault := Some(now);
      } else if randCheck < p.faultProb + p.spikeProb {
        if r.coin {
          finalVal := d.high + span * 0.2;
        } else {
          finalVal := d.low - span * 0.2;
        }
      }
    }
    reading := Reading(d.id, d.name, d.kind, d.unit, finalVal, r.stamp, status);
  }

  // ---------------------------------------------------------------------
  // The engine object
  // ---------------------------------------------------------------------

  /** One more iteration of the loop of `generate_data`. */
  lemma TickUpToNext(cfg: seq<SensorDef>, step: Stepper, s: SimState, draws: seq<Draw>, i: nat)
    requires Covers(cfg, s) && |draws| == |cfg| && i < |cfg|
    ensures var prev := TickUpTo(cfg, step, s, draws, i);
            var id := cfg[i].id;
            && id in prev.state.values && id in prev.state.faults
            && var st := step(cfg[i], prev.state.values[id], prev.state.faults[id], draws[i]);
               TickUpTo(cfg, step, s, draws, i + 1)
               == TickResult(SimState(prev.state.values[id := st.value], prev.state.faults[id := st.fault], s.paused),
                             prev.batch + [st.reading])
  {
  }

  /** The loop of `generate_data` over local copies of the two dictionaries:
      one `StepOne` per configured sensor, in configuration order. */
  method TickLoop(cfg: seq<SensorDef>, p: SimParams, s0: SimState, draws: seq<Draw>, now: real) returns (t: TickResult)
    requires Shaped(cfg, s0) && |draws| == |cfg|
    ensures t == Tick(cfg, p, s0, draws, now)
  {
    ShapedCovers(cfg, s0);
    var values, faults := s0.values, s0.faults;
    var data := [];
    var i := 0;
    while i < |cfg|
      invariant 0 <= i <= |cfg|
      invariant TickUpTo(cfg, StepperAt(p, now), s0, draws, i) == TickResult(SimState(values, faults, s0.paused), data)
    {
      var d := cfg[i];
      var newVal, newFault, reading := StepOne(d, p, values[d.id], faults[d.id], draws[i], now);
      TickUpToNext(cfg, StepperAt(p, now), s0, draws, i);
      values := values[d.id := newVal];
      faults := faults[d.id := newFault];
      data := data + [reading];
      i := i + 1;
    }
    t := TickResult(SimState(values, faults, s0.paused), data);
  }

  /** `SensorSimulator`: owns the configuration, the parameters, and the
      three pieces of mutable state the source updates in place. */
  class SensorSimulator {
    const config: seq<SensorDef>
    const params: SimParams
    var currentValues: map<string, real>
    var faultStates: map<string, Option<real>>
    var paused: bool

    ghost function State(): SimState
      reads this
    {
      SimState(currentValues, faultStates, paused)
    }

    ghost predicate Valid()
      reads this
    {
      UniqueIds(config) && Shaped(config, State())
    }

    /** `SensorSimulator(sensor_config, sim_config)`: an empty or missing
        configuration falls back to the base one; starts running, with every
        value at its midpoint and no fault. */
    constructor (sensorConfig: seq<SensorDef>, simConfig: Option<SimParams>)
      requires UniqueIds(sensorConfig)
      ensures config == (if sensorConfig == [] then Base else sensorConfig)
      ensures params == (if simConfig.Some? then simConfig.value else Sim)
      ensures Valid() && !paused
      ensures forall k :: 0 <= k < |config| ==>
                currentValues[config[k].id] == Midpoint(config[k]) && faultStates[config[k].id] == None
    {
      BaseWellFormed();
      config := if sensorConfig == [] then Base else sensorConfig;
      params := if simConfig.Some? then simConfig.value else Sim;
      paused := false;
      faultStates := NoFaults(if sensorConfig == [] then Base else sensorConfig);
      currentValues := map[];
      new;
      ResetSimulation();
      forall k | 0 <= k < |config|
        ensures currentValues[config[k].id] == Midpoint(config[k])
      {
        RecentreAt(config, map[], 0, k);
      }
    }

    /** `reset_simulation`. */
    method ResetSimulation()
      requires UniqueIds(config) && currentValues.Keys <= IdSet(config)
      modifies this
      ensures Valid()
      ensures State() == Reset(config, old(State()))
    {
      var i := 0;
      while i < |config|
        invariant 0 <= i <= |config|
        invariant currentValues.Keys <= IdSet(config)
        invariant Recentre(config, currentValues, i) == Recentre(config, old(currentValues), 0)
        invariant paused == old(paused) && faultStates == old(faultStates)
      {
        var d := config[i];
        IdsFromStep(config, i);
        currentValues := currentValues[d.id := Midpoint(d)];
        i := i + 1;
      }
      faultStates := NoFaults(config);
    }

    /** `process_command`. */
    method ProcessCommand(cmdData: Json) returns (response: Json)
      requires Valid()
      modifies this
      ensures Valid()
      ensures State() == ApplyCommand(config, old(State()), cmdData).state
      ensures response == ApplyCommand(config, old(State()), cmdData).response
    {
      if !cmdData.JObj? {
        response := StatusMessage("ERROR", NoGetMessage(cmdData));
        return;
      }
      var cmd := Get(cmdData.fields, "command");
      if cmd == Some(JStr("RESET")) {
        ResetSimulation();
        response := StatusMessage("OK", "Simulation Reset");
      } else if cmd == Some(JStr("CLEAR_FAULTS")) {
        faultStates := NoFaults(config);
        response := StatusMessage("OK", "Faults Cleared");
      } else if cmd == Some(JStr("TOGGLE_SIM")) {
        paused := !paused;
        var state := if paused then "Paused" else "Resumed";
        response := JObj(map["status" := JStr("OK"), "message" := JStr("Simulation " + state), "paused" := JBool(paused)]);
      } else {
        response := StatusMessage("ERROR", "Unknown Command");
      }
    }

    /** `generate_data`: one pass over the sensors, updating the stored
        value and the fault timer of each and appending its reading. */
    method GenerateData(draws: seq<Draw>, now: real) returns (data: seq<Reading>)
      requires Valid() && |draws| == |config|
      modifies this
      ensures Valid()
      ensures State() == Tick(config, params, old(State()), draws, now).state
      ensures data == Tick(config, params, old(State()), draws, now).batch
    {
      var t := TickLoop(config, params, SimState(currentValues, faultStates, paused), draws, now);
      currentValues, faultStates := t.state.values, t.state.faults;
      data := t.batch;
    }

    /** One iteration of the serving loop of `start`, from the readiness wait
        to the broadcast decision (see `ServeStep`). */
    method ServeIteration(lastUpdate: real, ev: Event, clock: Clock, draws: seq<Draw>, ackOk: bool, batchOk: bool, parse: string -> Option<Json>)
      returns (newLast: real, sent: seq<Frame>, connected: bool)
      requires Valid() && |draws| == |config|
      modifies this
      ensures Valid()
      ensures var r := ServeStep(config, params, old(State()), lastUpdate, ev, clock, draws, ackOk, batchOk, parse);
              State() == r.state && newLast == r.lastUpdate && sent == r.sent && connected == r.connected
    {
      newLast, sent, connected := lastUpdate, [], true;
      match ev {
        case Eof => connected := false; return;
        case ReadReset => connected := false; return;
        case Timeout =>
        case Readable(chunk) =>
          if chunk == [] {
            connected := false;
            return;
          }
          var msg := Strip(chunk);
          if msg != [] {
            var decoded := parse(msg);
            if decoded.Some? {
              var response := ProcessCommand(decoded.value);
              if !ackOk {
                connected := false;
                return;
              }
              sent := [ResponseFrame(response)];
            }
          }
      }
      if clock.check - lastUpdate >= params.updateRate {
        if !paused {
          var sensorData := GenerateData(draws, clock.generate);
          if !batchOk {
            connected := false;
            return;
          }
          sent := sent + [BatchFrame(sensorData)];
        }
        newLast := clock.after;
      }
    }
  }

  // ---------------------------------------------------------------------
  // The serving loop, one iteration at a time
  // ---------------------------------------------------------------------

  /** What the readiness wait reports: bytes, end of stream, a connection
      reset while reading, or the end of the wait. `Readable("")` is a read
      that returned no bytes, which the loop treats as end of stream. */
  datatype Event = Readable(chunk: string) | Eof | ReadReset | Timeout

  /** A frame the server writes, serialised and followed by one newline. */
  datatype Frame = ResponseFrame(response: Json) | BatchFrame(batch: seq<Reading>)

  /** The object `generate_data` builds for one reading; `round2` stands for
      `round(v, 2)`, which is applied to the value only. */
  function ReadingJson(r: Reading, round2: real -> real): Json {
    JObj(map[
      "id" := JStr(r.id), "name" := JStr(r.name), "type" := JStr(r.kind), "unit" := JStr(r.unit),
      "value" := JFloat(round2(r.value)), "timestamp" := JFloat(r.timestamp),
      "status" := JStr(StatusText(r.status))])
  }

  /** The fields of the batch object: `data[sid] = {...}` for each reading in turn. */
  function BatchFields(batch: seq<Reading>, round2: real -> real): (m: map<string, Json>)
    ensures m.Keys == set k | 0 <= k < |batch| :: batch[k].id
    decreases |batch|
  {
    if batch == [] then map[]
    else
      var last := batch[|batch| - 1];
      var m := BatchFields(batch[..|batch| - 1], round2)[last.id := ReadingJson(last, round2)];
      assert forall k :: 0 <= k < |batch| - 1 ==> batch[..|batch| - 1][k] == batch[k];
      m
  }

  /** The JSON value written for a frame. */
  function FrameJson(f: Frame, round2: real -> real): Json {
    match f
    case ResponseFrame(j) => j
    case BatchFrame(b) => JObj(BatchFields(b, round2))
  }

  /** A command response: an object with a `"status"` key. */
  predicate IsResponseObject(j: Json) {
    j.JObj? && "status" in j.fields
  }

  /** The clock reads of one iteration: the broadcast check, the fault-timer
      clock inside `generate_data`, and the reset of `last_update`. */
  datatype Clock = Clock(check: real, generate: real, after: real)

  datatype ServeResult = ServeResult(state: SimState, lastUpdate: real, sent: seq<Frame>, connected: bool)

  /** The timeout given to the readiness wait: the time left until the next
      broadcast, never negative. */
  function SelectTimeout(now: real, lastUpdate: real, updateRate: real): (t: real)
    ensures 0.0 <= t
    ensures t == 0.0 <==> now - lastUpdate >= updateRate
  {
    var left := updateRate - (now - lastUpdate);
    if left > 0.0 then left else 0.0
  }

  /** A wait that ran its whole timeout always finds the broadcast due. */
  lemma FullWaitMakesBroadcastDue(now: real, lastUpdate: real, updateRate: real, check: real)
    requires check >= now + SelectTimeout(now, lastUpdate, updateRate)
    ensures check - lastUpdate >= updateRate
  {
  }

  /** The broadcast decision at the end of an iteration (lines 178-187). */
  function TimerPhase(cfg: seq<SensorDef>, p: SimParams, s: SimState, lastUpdate: real, clock: Clock,
                      draws: seq<Draw>, batchOk: bool, sent: seq<Frame>): (r: ServeResult)
    requires Shaped(cfg, s) && |draws| == |cfg|
    ensures Shaped(cfg, r.state)
    ensures r.sent == sent
         || (r.connected && |r.sent| == |sent| + 1 && r.sent[..|sent|] == sent && r.sent[|sent|].BatchFrame?)
  {
    if clock.check - lastUpdate >= p.updateRate then
      if !s.paused then
        var t := Tick(cfg, p, s, draws, clock.generate);
        if !batchOk then ServeResult(t.state, lastUpdate, sent, false)
        else ServeResult(t.state, clock.after, sent + [BatchFrame(t.batch)], true)
      else ServeResult(s, clock.after, sent, true)
    else ServeResult(s, lastUpdate, sent, true)
  }

  /** One iteration of the serving loop. A readable chunk is decoded as a
      whole: stripped, and parsed as one JSON value; a parsed value is handled
      as a command and answered at once; text that does not parse is ignored.
      A read of no bytes is end of stream.
      Then, whatever the event, a due broadcast is generated and sent unless
      paused, and a due timer is reset even when paused. End of stream, a
      reset while reading, or a failed write ends the connection; `ackOk`
      and `batchOk` say whether the response write and the broadcast write
      succeed, so a response can be written and the broadcast after it fail. */
  function ServeStep(cfg: seq<SensorDef>, p: SimParams, s: SimState, lastUpdate: real, ev: Event, clock: Clock,
                     draws: seq<Draw>, ackOk: bool, batchOk: bool, parse: string -> Option<Json>): (r: ServeResult)
    requires Shaped(cfg, s) && |draws| == |cfg|
    ensures Shaped(cfg, r.state)
    // at most a response, then a batch; a response is a status object
    ensures |r.sent| <= 2
    ensures |r.sent| == 2 ==> r.sent[0].ResponseFrame? && r.sent[1].BatchFrame?
    ensures r.sent != [] && r.sent[0].ResponseFrame? ==> IsResponseObject(r.sent[0].response)
    // a failed write is the last write attempted: once the connection
    // ends, at most the response written before the failed broadcast stands
    ensures !r.connected ==> |r.sent| <= 1 && (r.sent != [] ==> r.sent[0].ResponseFrame?)
  {
    match ev
    case Eof => ServeResult(s, lastUpdate, [], false)
    case ReadReset => ServeResult(s, lastUpdate, [], false)
    case Timeout => TimerPhase(cfg, p, s, lastUpdate, clock, draws, batchOk, [])
    case Readable(chunk) =>
      var msg := Strip(chunk);
      if chunk == [] then ServeResult(s, lastUpdate, [], false)
      else if msg == [] || parse(msg).None? then TimerPhase(cfg, p, s, lastUpdate, clock, draws, batchOk, [])
      else
        var c := ApplyCommand(cfg, s, parse(msg).value);
        if !ackOk then ServeResult(c.state, lastUpdate, [], false)
        else TimerPhase(cfg, p, c.state, lastUpdate, clock, draws, batchOk, [ResponseFrame(c.response)])
  }

  /** While paused, a due timer sends no batch and changes no sensor state,
      but `last_update` is still reset. */
  lemma PausedTimerSendsNothing(cfg: seq<SensorDef>, p: SimParams, s: SimState, lastUpdate: real, clock: Clock,
                                draws: seq<Draw>, ackOk: bool, batchOk: bool, parse: string -> Option<Json>)
    requires Shaped(cfg, s) && |draws| == |cfg| && s.paused
    requires clock.check - lastUpdate >= p.updateRate
    ensures var r := ServeStep(cfg, p, s, lastUpdate, Timeout, clock, draws, ackOk, batchOk, parse);
            r.sent == [] && r.state == s && r.lastUpdate == clock.after && r.connected
  {
  }

  /** While running, a due timer sends exactly the generated batch. */
  lemma RunningTimerBroadcasts(cfg: seq<SensorDef>, p: SimParams, s: SimState, lastUpdate: real, clock: Clock,
                               draws: seq<Draw>, parse: string -> Option<Json>)
    requires Shaped(cfg, s) && |draws| == |cfg| && !s.paused
    requires clock.check - lastUpdate >= p.updateRate
    ensures var r := ServeStep(cfg, p, s, lastUpdate, Timeout, clock, draws, true, true, parse);
            var t := Tick(cfg, p, s, draws, clock.generate);
            r.sent == [BatchFrame(t.batch)] && r.state == t.state && r.lastUpdate == clock.after && r.connected
  {
  }

  /** A chunk whose stripped text does not parse as one JSON value, such as
      two commands that arrived in one read, is dropped: no response is sent
      and only a due broadcast can change the state. */
  lemma UnparsableChunkIgnored(cfg: seq<SensorDef>, p: SimParams, s: SimState, lastUpdate: real, chunk: string,
                               clock: Clock, draws: seq<Draw>, ackOk: bool, batchOk: bool, parse: string -> Option<Json>)
    requires Shaped(cfg, s) && |draws| == |cfg|
    requires chunk != [] && parse(Strip(chunk)).None?
    ensures ServeStep(cfg, p, s, lastUpdate, Readable(chunk), clock, draws, ackOk, batchOk, parse)
         == ServeStep(cfg, p, s, lastUpdate, Timeout, clock, draws, ackOk, batchOk, parse)
    ensures forall j :: 0 <= j < |ServeStep(cfg, p, s, lastUpdate, Readable(chunk), clock, draws, ackOk, batchOk, parse).sent| ==>
              ServeStep(cfg, p, s, lastUpdate, Readable(chunk), clock, draws, ackOk, batchOk, parse).sent[j].BatchFrame?
  {
  }

  /** An unknown command is answered with ERROR "Unknown Command" and the
      connection stays open for the next command. */
  lemma UnknownCommandKeepsConnection(cfg: seq<SensorDef>, p: SimParams, s: SimState, lastUpdate: real, chunk: string,
                                      clock: Clock, draws: seq<Draw>, parse: string -> Option<Json>)
    requires Shaped(cfg, s) && |draws| == |cfg|
    requires var m := parse(Strip(chunk));
             Strip(chunk) != [] && m.Some? && m.value.JObj?
             && !IsCommand(m.value, "RESET") && !IsCommand(m.value, "CLEAR_FAULTS") && !IsCommand(m.value, "TOGGLE_SIM")
    ensures var r := ServeStep(cfg, p, s, lastUpdate, Readable(chunk), clock, draws, true, true, parse);
            r.connected && |r.sent| >= 1 && r.sent[0] == ResponseFrame(StatusMessage("ERROR", "Unknown Command"))
  {
  }

  /** The response is written, then the broadcast write finds the pipe
      broken: the response stands, the tick that built the batch has changed
      the state, and the connection ends. */
  lemma AckThenBrokenPipe(cfg: seq<SensorDef>, p: SimParams, s: SimState, lastUpdate: real, chunk: string,
                          clock: Clock, draws: seq<Draw>, parse: string -> Option<Json>)
    requires Shaped(cfg, s) && |draws| == |cfg|
    requires Strip(chunk) != [] && parse(Strip(chunk)).Some?
    requires clock.check - lastUpdate >= p.updateRate
    requires !ApplyCommand(cfg, s, parse(Strip(chunk)).value).state.paused
    ensures var c := ApplyCommand(cfg, s, parse(Strip(chunk)).value);
            var r := ServeStep(cfg, p, s, lastUpdate, Readable(chunk), clock, draws, true, false, parse);
            r.sent == [ResponseFrame(c.response)] && !r.connected
            && r.state == Tick(cfg, p, c.state, draws, clock.generate).state
  {
  }

  /** End of stream, a read of no bytes (which is how `recv` reports end of
      stream), or a reset ends the connection without touching the engine. */
  lemma DisconnectLeavesState(cfg: seq<SensorDef>, p: SimParams, s: SimState, lastUpdate: real, ev: Event,
                              clock: Clock, draws: seq<Draw>, ackOk: bool, batchOk: bool, parse: string -> Option<Json>)
    requires Shaped(cfg, s) && |draws| == |cfg| && (ev.Eof? || ev.ReadReset? || ev == Readable(""))
    ensures ServeStep(cfg, p, s, lastUpdate, ev, clock, draws, ackOk, batchOk, parse) == ServeResult(s, lastUpdate, [], false)
  {
  }

  // ---------------------------------------------------------------------
  // generate_dynamic_config
  // ---------------------------------------------------------------------

  /** The definition `generate_dynamic_config` adds for sensor number `i`. */
  function ExtraSensor(i: nat): SensorDef {
    SensorDef(SensorId(i), "Extra Sensor " + NatToString(i), "Generic", "Units", 0.0, 100.0)
  }

  /** The length of the Python slice `xs[:n]` of a list of length `len`. */
  function SliceLength(n: int, len: nat): (r: nat)
    ensures r <= len
    ensures 0 <= n <= len ==> r == n
  {
    if n >= 0 then (if n <= len then n else len)
    else if len + n >= 0 then len + n else 0
  }

  /** A base table cut to `n` entries, or extended with generic sensors
      numbered on from its length. */
  function Extended(base: seq<SensorDef>, n: int): seq<SensorDef> {
    if n <= |base| then base[..SliceLength(n, |base|)]
    else base + seq(n - |base|, k requires 0 <= k < n - |base| => ExtraSensor(|base| + 1 + k))
  }

  /** The configuration `generate_dynamic_config(n)` returns. */
  function DynamicConfig(n: int): seq<SensorDef> {
    Extended(Base, n)
  }

  /** The body of `generate_dynamic_config` for a given base table: slice
      it, or extend it one generic sensor at a time. */
  method ExtendConfig(base: seq<SensorDef>, targetCount: int) returns (cfg: seq<SensorDef>)
    ensures cfg == Extended(base, targetCount)
  {
    var currentCount := |base|;
    if targetCount <= currentCount {
      cfg := base[..SliceLength(targetCount, currentCount)];
      return;
    }
    cfg := base;
    var i := currentCount + 1;
    while i <= targetCount
      invariant currentCount + 1 <= i <= targetCount + 1
      invariant |cfg| == i - 1
      invariant cfg[..currentCount] == base
      invariant forall k :: currentCount <= k < |cfg| ==> cfg[k] == ExtraSensor(k + 1)
    {
      cfg := cfg + [ExtraSensor(i)];
      i := i + 1;
    }
  }

  /** `generate_dynamic_config`, over the base sensor table. */
  method GenerateDynamicConfig(targetCount: int) returns (cfg: seq<SensorDef>)
    ensures cfg == DynamicConfig(targetCount)
  {
    cfg := ExtendConfig(Base, targetCount);
  }

  /** Extending a well-formed table whose ids are `S01`, `S02`, ... in order
      keeps the numbering and gives a well-formed table. */
  lemma ExtendedShape(base: seq<SensorDef>, n: int)
    requires forall k :: 0 <= k < |base| ==> base[k].id == SensorId(k + 1) && WellFormedDef(base[k])
    ensures n >= 0 ==> |Extended(base, n)| == n
    ensures n > |base| ==> Extended(base, n)[..|base|] == base
    ensures n > |base| ==> forall i :: |base| < i <= n ==> Extended(base, n)[i - 1] == ExtraSensor(i)
    ensures forall k :: 0 <= k < |Extended(base, n)| ==> Extended(base, n)[k].id == SensorId(k + 1)
    ensures WellFormedConfig(Extended(base, n))
  {
    var cfg := Extended(base, n);
    forall k | 0 <= k < |cfg|
      ensures cfg[k].id == SensorId(k + 1) && WellFormedDef(cfg[k])
    {
      if k >= |base| {
        assert cfg[k] == ExtraSensor(k + 1);
      } else {
        assert cfg[k] == base[k];
      }
    }
    forall a, b | 0 <= a < b < |cfg|
      ensures cfg[a].id != cfg[b].id
    {
      if cfg[a].id == cfg[b].id {
        SensorIdInjective(a + 1, b + 1);
      }
    }
  }

  /** For `n >= 0` the result has exactly `n` entries: the first `n` base
      entries when `n` does not exceed the base count, otherwise the whole
      base table followed by generic sensors `S06`.. numbered on. Every id is
      `SensorId` of its position, so the ids are distinct and the result is a
      well-formed configuration. */
  lemma DynamicConfigShape(n: int)
    ensures n >= 0 ==> |DynamicConfig(n)| == n
    ensures n <= |Base| ==> DynamicConfig(n) == Base[..SliceLength(n, |Base|)]
    ensures n > |Base| ==> DynamicConfig(n)[..|Base|] == Base
    ensures n > |Base| ==> forall i :: |Base| < i <= n ==> DynamicConfig(n)[i - 1] == ExtraSensor(i)
    ensures forall k :: 0 <= k < |DynamicConfig(n)| ==> DynamicConfig(n)[k].id == SensorId(k + 1)
    ensures WellFormedConfig(DynamicConfig(n))
  {
    BaseIdsNumbered();
    BaseWellFormed();
    ExtendedShape(Base, n);
  }
}
