/** The statistical process control screen: a log of measurements taken at
    one machine for one lot, each named by its position, checked against the
    specification limits and summarised by the capability engine, with a
    root-cause analysis that may be requested once three points exist. */
module SpcLog {
  import opened Wrappers
  import opened Numerals
  import opened StatsEngine

  datatype Measurement = Measurement(name: string, value: real, machine: string, lot: string)

  datatype Spec = Spec(usl: real, lsl: real, nominal: real)

  /** What is sent to the root-cause service: the points and the status
      label (`None` is the 'UNKNOWN' sent when there are no stats). */
  datatype RcaRequest = RcaRequest(points: seq<Measurement>, status: Option<Status>)

  const DefaultLot: string := "LOT-2025-001"
  const DefaultMachine: string := "WM-INJ-04"
  const DefaultSpec: Spec := Spec(10.5, 9.5, 10.0)

  /** Root-cause analysis needs at least this many points. */
  const RcaMinimum: nat := 3

  /** Entry `i` is named by its 1-based position. */
  predicate NamedByPosition(ms: seq<Measurement>)
  {
    forall i :: 0 <= i < |ms| ==> ms[i].name == DecimalString(i + 1)
  }

  /** The log after a successful parse: one entry at the end, named by its
      position, stamped with the current machine and lot. */
  function Added(ms: seq<Measurement>, v: real, machine: string, lot: string): (r: seq<Measurement>)
    ensures |r| == |ms| + 1 && r[..|ms|] == ms
    ensures r[|ms|].value == v && r[|ms|].machine == machine && r[|ms|].lot == lot
    ensures r[|ms|].name == DecimalString(|ms| + 1)
  {
    ms + [Measurement(DecimalString(|ms| + 1), v, machine, lot)]
  }

  /** Appending keeps every entry named by its position (the invariant of
      `SpcSession`). */
  lemma AddedKeepsNaming(ms: seq<Measurement>, v: real, machine: string, lot: string)
    requires NamedByPosition(ms)
    ensures NamedByPosition(Added(ms, v, machine, lot))
  {
  }

  /** No two entries of a log named by position share a name. */
  lemma NamesDistinct(ms: seq<Measurement>, i: nat, j: nat)
    requires NamedByPosition(ms)
    requires i < j < |ms|
    ensures ms[i].name != ms[j].name
  {
    assert DigitsValue(ms[i].name) == i + 1;
    assert DigitsValue(ms[j].name) == j + 1;
  }

  /** The measured values, in insertion order. */
  function Values(ms: seq<Measurement>): (vs: seq<real>)
    ensures |vs| == |ms|
    ensures forall i :: 0 <= i < |ms| ==> vs[i] == ms[i].value
  {
    seq(|ms|, i requires 0 <= i < |ms| => ms[i].value)
  }

  /** A point is out of specification when it lies below LSL or above USL. */
  predicate IsNok(value: real, spec: Spec): (nok: bool)
    ensures nok <==> !(spec.lsl <= value <= spec.usl)
  {
    value < spec.lsl || value > spec.usl
  }

  /** The limits themselves are in specification: with ordered limits,
      neither end of the interval is flagged. */
  lemma InSpecIsClosedInterval(spec: Spec)
    ensures spec.lsl <= spec.usl ==> !IsNok(spec.lsl, spec) && !IsNok(spec.usl, spec)
  {
  }

  /** The root-cause button is enabled only with enough points and no
      analysis under way; a click on an enabled button always starts an
      analysis (see `SpcSession.RequestRca`). */
  predicate RcaEnabled(count: nat, analyzing: bool): (enabled: bool)
    ensures enabled ==> count >= RcaMinimum
    ensures count >= RcaMinimum ==> (enabled <==> !analyzing)
  {
    count >= RcaMinimum && !analyzing
  }

  /** The Cp tile's alert: `parseFloat(stats?.cp || '0') < 1.33`. With no
      data the fallback '0' raises it. For a degenerate sample the source
      divides by a zero deviation: one point gives NaN (no alert); several
      equal points give +Infinity, NaN or -Infinity as USL - LSL is
      positive, zero or negative, and only -Infinity raises it. */
  function CpAlert(c: Capability, spec: Spec): (alert: bool)
    ensures c.NoData? ==> alert
    ensures c.Capable? ==> (alert <==> c.report.cp < 1.33)
    ensures c.DegenerateVariance? && c.count == 1 ==> !alert
    ensures c.DegenerateVariance? && spec.lsl <= spec.usl ==> !alert
    ensures c.DegenerateVariance? && c.count >= 2 ==> (alert <==> spec.usl < spec.lsl)
  {
    match c
    case NoData => true
    case DegenerateVariance(n, _) => n >= 2 && spec.usl < spec.lsl
    case Capable(r) => r.cp < 1.33
  }

  /** The Cpk tile's alert, read the same way: for several equal points the
      two one-sided indices are infinities of the sign of USL - mean and
      mean - LSL, or NaN when either is zero, and `Math.min` with a NaN is
      NaN. */
  function CpkAlert(c: Capability, spec: Spec): (alert: bool)
    ensures c.NoData? ==> alert
    ensures c.Capable? ==> (alert <==> c.report.cpk < 1.33)
    ensures c.DegenerateVariance? && c.count == 1 ==> !alert
    ensures c.DegenerateVariance? && c.count >= 2 && spec.lsl <= spec.usl ==>
              (alert <==> c.mean < spec.lsl || c.mean > spec.usl)
    ensures c.DegenerateVariance? && c.count >= 2 && spec.usl < spec.lsl ==>
              (alert <==> c.mean != spec.usl && c.mean != spec.lsl)
  {
    match c
    case NoData => true
    case DegenerateVariance(n, mean) =>
      n >= 2 && spec.usl != mean && mean != spec.lsl && (spec.usl < mean || mean < spec.lsl)
    case Capable(r) => r.cpk < 1.33
  }

  /** The status label the source shows for a result: none without data;
      for a degenerate sample the label its NaN or infinite Cpk gets
      (OPTIMAL only for +Infinity on both sides); otherwise the report's. */
  function ReportedStatus(c: Capability, spec: Spec): (st: Option<Status>)
    ensures st.None? <==> c.NoData?
    ensures c.Capable? ==> st == Some(c.report.status)
    ensures c.DegenerateVariance? ==> st == Some(Optimal) || st == Some(Critical)
    ensures c.DegenerateVariance? && c.count == 1 ==> st == Some(Critical)
    ensures c.DegenerateVariance? && c.count >= 2 ==>
              (st == Some(Optimal) <==> spec.lsl < c.mean < spec.usl)
  {
    match c
    case NoData => None
    case DegenerateVariance(n, mean) =>
      if n >= 2 && spec.usl > mean && mean > spec.lsl then Some(Optimal) else Some(Critical)
    case Capable(r) => Some(r.status)
  }

  /** On a computed report the Cpk alert is raised exactly when the status
      is not OPTIMAL: both compare the same unrounded Cpk with 1.33. */
  lemma CpkAlertIffNotOptimal(data: seq<real>, spec: Spec, root: real -> real)
    requires IsSquareRoot(root)
    requires CalculateStats(data, spec.usl, spec.lsl, root).Capable?
    ensures CpkAlert(CalculateStats(data, spec.usl, spec.lsl, root), spec)
        <==> ReportedStatus(CalculateStats(data, spec.usl, spec.lsl, root), spec) != Some(Optimal)
  {
  }

  /** A single point is reported CRITICAL and raises neither alert. */
  lemma SinglePointReport(x: real, spec: Spec, root: real -> real)
    requires IsSquareRoot(root)
    ensures ReportedStatus(CalculateStats([x], spec.usl, spec.lsl, root), spec) == Some(Critical)
    ensures !CpAlert(CalculateStats([x], spec.usl, spec.lsl, root), spec)
    ensures !CpkAlert(CalculateStats([x], spec.usl, spec.lsl, root), spec)
  {
    SinglePointIsDegenerate(x, spec.usl, spec.lsl, root);
  }

  /** The statistics do not depend on the order in which points were
      logged, only on which values were logged. */
  lemma StatsIgnoreOrder(a: seq<Measurement>, b: seq<Measurement>, spec: Spec, root: real -> real)
    requires IsSquareRoot(root)
    requires multiset(Values(a)) == multiset(Values(b))
    ensures CalculateStats(Values(a), spec.usl, spec.lsl, root) == CalculateStats(Values(b), spec.usl, spec.lsl, root)
  {
    CalculateStatsPermutation(Values(a), Values(b), spec.usl, spec.lsl, root);
  }

  /** The state of the screen. */
  class SpcSession {
    var measurements: seq<Measurement>
    var newValue: string
    var lotNum: string
    var machineId: string
    var spec: Spec
    var aiAnalysis: Option<string>
    var isAnalyzing: bool

    ghost predicate Valid()
      reads this
    {
      NamedByPosition(measurements)
    }

    constructor ()
      ensures Valid()
      ensures measurements == [] && newValue == ""
      ensures lotNum == DefaultLot && machineId == DefaultMachine && spec == DefaultSpec
      ensures aiAnalysis == None && !isAnalyzing
    {
      measurements := [];
      newValue := "";
      lotNum := DefaultLot;
      machineId := DefaultMachine;
      spec := DefaultSpec;
      aiAnalysis := None;
      isAnalyzing := false;
    }

    /** The capability result shown on screen. */
    function Stats(root: real -> real): Capability
      requires IsSquareRoot(root)
      reads this
    {
      CalculateStats(Values(measurements), spec.usl, spec.lsl, root)
    }

    /** `handleAdd`, given `parseFloat(newValue)` (`None` for NaN): a number
        is logged and the input cleared; anything else changes nothing. */
    method HandleAdd(parsed: Option<real>)
      requires Valid()
      modifies this
      ensures Valid()
      ensures parsed.None? ==> measurements == old(measurements) && newValue == old(newValue)
      ensures parsed.Some? ==>
        measurements == Added(old(measurements), parsed.value, machineId, lotNum) && newValue == ""
      ensures lotNum == old(lotNum) && machineId == old(machineId) && spec == old(spec)
      ensures aiAnalysis == old(aiAnalysis) && isAnalyzing == old(isAnalyzing)
    {
      if parsed.Some? {
        AddedKeepsNaming(measurements, parsed.value, machineId, lotNum);
        measurements := Added(measurements, parsed.value, machineId, lotNum);
        newValue := "";
      }
    }

    /** Editing the nominal value or a limit in the specification panel. */
    method EditSpec(newSpec: Spec)
      requires Valid()
      modifies this
      ensures Valid()
      ensures spec == newSpec
      ensures measurements == old(measurements) && newValue == old(newValue) && aiAnalysis == old(aiAnalysis)
      ensures lotNum == old(lotNum) && machineId == old(machineId) && isAnalyzing == old(isAnalyzing)
    {
      spec := newSpec;
    }

    /** `clearData`: once confirmed, the log and the analysis are dropped. */
    method ClearData(confirmed: bool)
      requires Valid()
      modifies this
      ensures Valid()
      ensures confirmed ==> measurements == [] && aiAnalysis == None
      ensures !confirmed ==> measurements == old(measurements) && aiAnalysis == old(aiAnalysis)
      ensures newValue == old(newValue) && lotNum == old(lotNum) && machineId == old(machineId)
      ensures spec == old(spec) && isAnalyzing == old(isAnalyzing)
    {
      if confirmed {
        measurements := [];
        aiAnalysis := None;
      }
    }

    /** The first half of `getRCA`: with fewer than three points nothing
        happens; otherwise the analysis starts and the request is returned. */
    method RequestRca(root: real -> real) returns (request: Option<RcaRequest>)
      requires Valid()
      requires IsSquareRoot(root)
      modifies this
      ensures Valid()
      ensures |measurements| < RcaMinimum ==> request.None? && isAnalyzing == old(isAnalyzing)
      ensures |measurements| >= RcaMinimum ==>
        request == Some(RcaRequest(measurements, ReportedStatus(Stats(root), spec))) && isAnalyzing
      ensures request.Some? ==> request.value.status.Some?
      ensures old(RcaEnabled(|measurements|, isAnalyzing)) ==> request.Some? && isAnalyzing
      ensures measurements == old(measurements) && aiAnalysis == old(aiAnalysis)
      ensures newValue == old(newValue) && lotNum == old(lotNum) && machineId == old(machineId) && spec == old(spec)
    {
      if |measurements| < RcaMinimum {
        return None;
      }
      isAnalyzing := true;
      request := Some(RcaRequest(measurements, ReportedStatus(Stats(root), spec)));
    }

    /** The second half of `getRCA`: the service's answer (`None` when the
        call failed, which is only logged) and the end of the analysis. */
    method ReceiveRca(response: Option<string>)
      requires Valid()
      modifies this
      ensures Valid()
      ensures aiAnalysis == (if response.Some? then response else old(aiAnalysis))
      ensures !isAnalyzing
      ensures measurements == old(measurements) && newValue == old(newValue)
      ensures lotNum == old(lotNum) && machineId == old(machineId) && spec == old(spec)
    {
      if response.Some? {
        aiAnalysis := response;
      }
      isAnalyzing := false;
    }
  }
}
