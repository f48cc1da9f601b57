/** The freeway cell: it owns a mainline estimator, an optional on-ramp
    estimator, a system identifier and the merge-area density, and routes each
    measurement event to them by the event's sensor id. */
module Cell {
  import opened Options
  import Doubles
  import opened Events
  import opened Estimators

  const MaxMainlineDensity: real := 250.0
  const MaxOnrampDensity: real := 125.0
  /** Guard added to the mainline flow in the merge-density quotient. */
  const Epsilon: real := 0.1
  /** Density standard deviation forced on on-ramp events: "do not trust". */
  const UnreliableStdv: real := 1000.0
  /** Fraction of the configured free-flow speed the system identifier starts from. */
  const SysIdSpeedFactor: real := 0.7

  /** Sensor ids of the cell's roles (and its actuator id). Nothing requires
      the ids to be distinct. */
  datatype IdTable = IdTable(actuId: int, sensIn: int, sensOu: int, sensMe: int, sensQu: int, sensOn: int)

  /** Physical parameters of the cell: length, free-flow speed, critical and jam density. */
  datatype Ctm = Ctm(l: real, v: real, rhoc: real, rhom: real)

  /** Everything about a cell that measurement processing can change. */
  datatype CellState = CellState(mainline: EstimatorView, onramp: Option<EstimatorView>, sysId: SysIdView, mergeDensity: real)

  /** `NullOnramp`: an on-ramp role matched in a cell without an on-ramp
      estimator; the processing stops there with an exception. */
  datatype Status = Done | NullOnramp

  datatype StepResult = StepResult(state: CellState, status: Status)

  function Max(a: real, b: real): real { if a >= b then a else b }
  function Min(a: real, b: real): real { if a <= b then a else b }

  /** Merge density before clamping: mainline density scaled by the ratio of
      total inflow (mainline plus on-ramp) to mainline flow. */
  function MergeRaw(density: real, flow: real, inflow: real): real
    requires flow + Epsilon != 0.0
  {
    density * ((flow + inflow) / (flow + Epsilon))
  }

  /** Merge-area density. Without an on-ramp it is the mainline density as
      is. With one, the raw estimate is capped at the maximum mainline
      density and then raised to at least `usEstimate`, so the lower bound
      wins over the cap. */
  function EstimateMergeDensity(f: Filter, mainline: EstimatorView, onramp: Option<EstimatorView>, usEstimate: real): (r: real)
    requires onramp.Some? ==> f.flow(mainline) + Epsilon != 0.0
    ensures onramp.None? ==> r == f.density(mainline)
    ensures onramp.Some? ==>
      var capped := Min(MergeRaw(f.density(mainline), f.flow(mainline), f.flow(onramp.value)), MaxMainlineDensity);
      && r >= usEstimate
      && r >= capped
      && (r == usEstimate || r == capped)
      && (usEstimate <= MaxMainlineDensity ==> r <= MaxMainlineDensity)
  {
    var mainlineDensity := f.density(mainline);
    match onramp
    case None => mainlineDensity
    case Some(ramp) =>
      var raw := MergeRaw(mainlineDensity, f.flow(mainline), f.flow(ramp));
      Max(Min(raw, MaxMainlineDensity), usEstimate)
  }

  function Logged(v: EstimatorView, u: Update): EstimatorView {
    v.(log := v.log + [u])
  }

  function AsUpdate(ch: Channel, m: Measurement): Update {
    Update(ch, m.flow, m.stdvFlow, m.density, m.stdvDensity, m.velocity)
  }

  /** The mainline chain reaches the merge branch (the first two ids take precedence). */
  predicate TriggersMerge(ids: IdTable, m: Measurement) {
    m.sensorId != ids.sensIn && m.sensorId != ids.sensOu && m.sensorId == ids.sensMe
  }

  /** The merge quotient's denominator is non-zero whenever it is evaluated. */
  predicate MergeDefined(f: Filter, s: CellState) {
    s.onramp.Some? ==> f.flow(s.mainline) + Epsilon != 0.0
  }

  predicate StepDefined(ids: IdTable, f: Filter, conv: Conversion, s: CellState, e: Event) {
    var p := Parse(e, conv);
    p.Some? && TriggersMerge(ids, p.value) ==> MergeDefined(f, s)
  }

  /** First if-chain: mainline in, mainline out, merge. */
  function MainlineChain(ids: IdTable, f: Filter, s: CellState, m: Measurement): CellState
    requires TriggersMerge(ids, m) ==> MergeDefined(f, s)
  {
    if m.sensorId == ids.sensIn then
      s.(mainline := Logged(s.mainline, AsUpdate(In, m)))
    else if m.sensorId == ids.sensOu then
      s.(mainline := Logged(s.mainline, AsUpdate(Out, m)))
    else if m.sensorId == ids.sensMe then
      var md := EstimateMergeDensity(f, s.mainline, s.onramp, m.density);
      s.(mergeDensity := md, sysId := s.sysId.(data := s.sysId.data + [Datum(f.flow(s.mainline), md)]))
    else
      s
  }

  /** Second if-chain: on-ramp in (queue sensor), on-ramp out (metering sensor). */
  function OnrampChain(ids: IdTable, s: CellState, m: Measurement, rmin: real): StepResult {
    if m.sensorId == ids.sensQu then
      match s.onramp
      case None => StepResult(s, NullOnramp)
      case Some(ramp) =>
        var u := AsUpdate(In, m.(stdvDensity := UnreliableStdv));
        StepResult(s.(onramp := Some(Logged(ramp, u))), Done)
    else if m.sensorId == ids.sensOn then
      match s.onramp
      case None => StepResult(s, NullOnramp)
      case Some(ramp) =>
        var u := AsUpdate(Out, m.(stdvDensity := UnreliableStdv, flow := Max(m.flow, rmin)));
        StepResult(s.(onramp := Some(Logged(ramp, u))), Done)
    else
      StepResult(s, Done)
  }

  /** The effect of processing one event. */
  function Step(ids: IdTable, f: Filter, conv: Conversion, s: CellState, e: Event): StepResult
    requires StepDefined(ids, f, conv, s, e)
  {
    match Parse(e, conv)
    case None => StepResult(s, Done)
    case Some(m) => OnrampChain(ids, MainlineChain(ids, f, s, m), m, conv.rmin)
  }

  /** The merge density is the density of the last datum given to the system
      identifier, or the empty-freeway prior 0 before any. */
  predicate Consistent(s: CellState) {
    if s.sysId.data == [] then s.mergeDensity == 0.0
    else s.mergeDensity == s.sysId.data[|s.sysId.data| - 1].density
  }

  class FreewayCell {
    const idTable: IdTable
    const ctm: Ctm
    const k: int
    const qLength: real
    const filter: Filter
    const mainline: StateEstimator
    const onramp: StateEstimator?
    const sysId: SysIdentifier
    var mergeDensity: real

    ghost function State(): CellState
      reads this, mainline, onramp, sysId
    {
      CellState(mainline.View(), if onramp == null then None else Some(onramp.View()), sysId.View(), mergeDensity)
    }

    ghost predicate Valid()
      reads this, mainline, onramp, sysId
    {
      && mainline != onramp
      && mainline.filter == filter
      && (onramp != null ==> onramp.filter == filter)
      && (onramp != null <==> qLength > 0.0)
      && Consistent(State())
    }

    /** `getIndex` is the topology's lookup from actuator id to cell index. */
    constructor (idTable: IdTable, ctm: Ctm, qLength: real, dt: real, getIndex: int -> int, filter: Filter)
      ensures Valid()
      ensures this.idTable == idTable && this.ctm == ctm && this.qLength == qLength && this.filter == filter
      ensures k == getIndex(idTable.actuId)
      ensures fresh(mainline) && fresh(sysId) && (onramp != null ==> fresh(onramp))
      ensures onramp != null <==> qLength > 0.0
      ensures mainline.View() == EstimatorView(ctm.l, MaxMainlineDensity, dt, [])
      ensures onramp != null ==> onramp.View() == EstimatorView(qLength, MaxOnrampDensity, dt, [])
      ensures sysId.View() == SysIdView(SysIdSpeedFactor * ctm.v, ctm.rhoc, ctm.rhom, ctm.l, [])
      ensures mergeDensity == 0.0
    {
      this.idTable := idTable;
      this.ctm := ctm;
      this.qLength := qLength;
      this.filter := filter;
      this.k := getIndex(idTable.actuId);
      mainline := new StateEstimator(ctm.l, MaxMainlineDensity, dt, filter);
      if qLength > 0.0 {
        onramp := new StateEstimator(qLength, MaxOnrampDensity, dt, filter);
      } else {
        onramp := null;
      }
      sysId := new SysIdentifier(SysIdSpeedFactor * ctm.v, ctm.rhoc, ctm.rhom, ctm.l);
      mergeDensity := 0.0;
    }

    /** The merge density is what the system identifier last received. */
    function GetMergeDensity(): (r: real)
      reads this, mainline, onramp, sysId
      requires Valid()
      ensures sysId.data == [] ==> r == 0.0
      ensures sysId.data != [] ==> r == sysId.data[|sysId.data| - 1].density
    {
      mergeDensity
    }

    method ProcessMeasurement(e: Event, conv: Conversion) returns (status: Status)
      requires Valid()
      requires StepDefined(idTable, filter, conv, State(), e)
      modifies this, mainline, onramp, sysId
      ensures Valid()
      ensures StepResult(State(), status) == Step(idTable, filter, conv, old(State()), e)
    {
      status := Done;
      var name := e.name;
      if !(name == MainlineEventName || name == OnrampEventName) {
        return;
      }
      if !(e.averageFlow.Some? && e.averageOccupancy.Some? && e.averageSpeed.Some?
           && e.standardDevFlow.Some? && e.standardDevDensity.Some? && e.sensorId.Some?) {
        return;
      }
      var meanFlow := Doubles.Scale(conv.cars2Flow, e.averageFlow.value);
      var meanDensity := Doubles.Scale(conv.occu2Dens, e.averageOccupancy.value);
      var velocity := e.averageSpeed.value;
      var stdvFlow := Doubles.Scale(conv.cars2Flow, e.standardDevFlow.value);
      var stdvDensity := Doubles.Scale(conv.occu2Dens, e.standardDevDensity.value);
      var sensorId := e.sensorId.value;
      var sum := Doubles.Add(Doubles.Add(Doubles.Add(Doubles.Add(meanFlow, meanDensity), velocity), stdvFlow), stdvDensity);
      if Doubles.IsNaN(sum) {
        return;
      }
      var flowV, densityV, velocityV, stdvFlowV, stdvDensityV :=
        meanFlow.val, meanDensity.val, velocity.val, stdvFlow.val, stdvDensity.val;

      // mainline state estimation and system identification
      if sensorId == idTable.sensIn {
        mainline.ProcessInMeasurement(flowV, stdvFlowV, densityV, stdvDensityV, velocityV);
      } else if sensorId == idTable.sensOu {
        mainline.ProcessOutMeasurement(flowV, stdvFlowV, densityV, stdvDensityV, velocityV);
      } else if sensorId == idTable.sensMe {
        mergeDensity := EstimateMergeDensity(filter, mainline.View(), if onramp == null then None else Some(onramp.View()), densityV);
        var flow := mainline.GetFlow();
        sysId.AddDatum(flow, mergeDensity);
      }

      // on-ramp state estimation
      if sensorId == idTable.sensQu {
        stdvDensityV := UnreliableStdv;
        if onramp == null {
          return NullOnramp;
        }
        onramp.ProcessInMeasurement(flowV, stdvFlowV, densityV, stdvDensityV, velocityV);
      } else if sensorId == idTable.sensOn {
        stdvDensityV := UnreliableStdv;
        flowV := Max(flowV, conv.rmin);
        if onramp == null {
          return NullOnramp;
        }
        onramp.ProcessOutMeasurement(flowV, stdvFlowV, densityV, stdvDensityV, velocityV);
      }
    }
  }
}
