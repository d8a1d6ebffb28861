/** The static configuration shared by the simulator and the dashboard:
    the base sensor table, the simulation parameters and the network
    address, together with the well-formedness facts the simulation's
    invariants rest on, and the `S{i:02d}` sensor numbering. */
module SensorConfig {

  /** One sensor definition: its id (the dictionary key), display name,
      category (`type` in the source), unit label and `(low, high)` limits. */
  datatype SensorDef = SensorDef(id: string, name: string, kind: string, unit: string, low: real, high: real)

  /** The simulation parameters: seconds between broadcasts, per-tick fault
      and spike probabilities, the drift fraction of the span, and how many
      seconds a triggered fault lasts. */
  datatype SimParams = SimParams(
    updateRate: real,
    faultProb: real,
    spikeProb: real,
    driftAmount: real,
    faultDuration: real)

  /** `SENSOR_CONFIG`, in its insertion order. */
  const Base: seq<SensorDef> := [
    SensorDef("S01", "Temperature", "Thermal", "\U{C2}\U{B0}C", 20.0, 80.0),
    SensorDef("S02", "Pressure", "Barometric", "hPa", 800.0, 1200.0),
    SensorDef("S03", "Speed", "Mechanical", "RPM", 0.0, 1500.0),
    SensorDef("S04", "Vibration", "Mechanical", "mm/s", 0.0, 5.0),
    SensorDef("S05", "Optical", "Optical", "%", 0.0, 100.0)
  ]

  /** `SIM_CONFIG`. */
  const Sim: SimParams := SimParams(0.5, 0.005, 0.001, 0.05, 20.0)

  const Host: string := "127.0.0.1"
  const Port: nat := 65432

  function Span(d: SensorDef): real { d.high - d.low }

  /** The clamp band of the stored value: `[low * 0.9, high * 1.1]`. */
  function BandLow(d: SensorDef): real { d.low * 0.9 }
  function BandHigh(d: SensorDef): real { d.high * 1.1 }

  predicate InBand(d: SensorDef, v: real) { BandLow(d) <= v <= BandHigh(d) }

  /** The value RESET restores: the middle of the limits. */
  function Midpoint(d: SensorDef): real { (d.low + d.high) / 2.0 }

  /** Limits every configured sensor satisfies: non-negative and ordered. */
  predicate WellFormedDef(d: SensorDef) { 0.0 <= d.low < d.high }

  /** Ids are dictionary keys, hence distinct. */
  predicate UniqueIds(cfg: seq<SensorDef>) {
    forall a, b :: 0 <= a < b < |cfg| ==> cfg[a].id != cfg[b].id
  }

  predicate WellFormedConfig(cfg: seq<SensorDef>) {
    UniqueIds(cfg) && forall k :: 0 <= k < |cfg| ==> WellFormedDef(cfg[k])
  }

  /** The probability bands `[0, fault)`, `[fault, fault + spike)` and
      `[fault + spike, 1)` of the check draw are well formed, drift is a
      non-negative fraction, and both periods are positive. */
  predicate WellFormedParams(p: SimParams) {
    && 0.0 <= p.faultProb
    && 0.0 <= p.spikeProb
    && p.faultProb + p.spikeProb <= 1.0
    && 0.0 <= p.driftAmount
    && p.updateRate > 0.0
    && p.faultDuration > 0.0
  }

  /** Well-formed limits give a non-empty clamp band that holds the
      midpoint and the whole limit range. */
  lemma BandHoldsMidpoint(d: SensorDef)
    requires WellFormedDef(d)
    ensures BandLow(d) <= d.low < Midpoint(d) < d.high <= BandHigh(d)
  {
  }

  lemma BaseWellFormed()
    ensures |Base| == 5
    ensures WellFormedConfig(Base)
  {
    assert forall k :: 0 <= k < |Base| ==> Base[k].id[2] == ('1' as int + k) as char;
  }

  lemma SimWellFormed()
    ensures WellFormedParams(Sim)
  {
  }

  // ---- `f"S{i:02d}"` numbering ----

  function DigitChar(d: nat): char
    requires d < 10
  {
    ('0' as int + d) as char
  }

  /** `str(n)` for a natural number: its decimal digits, without leading zeros. */
  function NatToString(n: nat): (r: string)
    ensures n < 10 ==> |r| == 1
    ensures n >= 10 ==> |r| >= 2
    ensures r[0] != '0' || n == 0
    decreases n
  {
    if n < 10 then [DigitChar(n)] else NatToString(n / 10) + [DigitChar(n % 10)]
  }

  /** Different numbers have different decimal spellings. */
  lemma {:induction false} NatToStringInjective(a: nat, b: nat)
    requires NatToString(a) == NatToString(b)
    ensures a == b
  {
    if a >= 10 && b >= 10 {
      var sa, sb := NatToString(a), NatToString(b);
      assert sa[..|sa| - 1] == NatToString(a / 10);
      assert sb[..|sb| - 1] == NatToString(b / 10);
      NatToStringInjective(a / 10, b / 10);
      assert sa[|sa| - 1] == DigitChar(a % 10);
      assert sb[|sb| - 1] == DigitChar(b % 10);
    }
  }

  /** `f"{i:02d}"`: at least two digits, padded with a leading zero. */
  function Pad2(i: nat): string {
    if i < 10 then "0" + NatToString(i) else NatToString(i)
  }

  /** The id of the `i`-th sensor. */
  function SensorId(i: nat): string {
    "S" + Pad2(i)
  }

  lemma SensorIdInjective(a: nat, b: nat)
    requires SensorId(a) == SensorId(b)
    ensures a == b
  {
    var pa, pb := Pad2(a), Pad2(b);
    assert pa == SensorId(a)[1..] && pb == SensorId(b)[1..];
    if a < 10 && b < 10 {
      assert pa[1..] == NatToString(a) && pb[1..] == NatToString(b);
      NatToStringInjective(a, b);
    } else if a >= 10 && b >= 10 {
      NatToStringInjective(a, b);
    }
  }

  /** The base ids are `S01`..`S05`, the numbering the dynamic configuration
      continues from. */
  lemma BaseIdsNumbered()
    ensures forall k :: 0 <= k < |Base| ==> Base[k].id == SensorId(k + 1)
  {
    assert SensorId(1) == "S01";
    assert SensorId(2) == "S02";
    assert SensorId(3) == "S03";
    assert SensorId(4) == "S04";
    assert SensorId(5) == "S05";
  }
}
