/** The cell's collaborators, whose internals are not part of this model: the
    recursive state estimator (one instance for the mainline, one for the
    on-ramp) and the system identifier. Each is a log of the calls it has
    received; what an estimator reports is an uninterpreted function (a
    `Filter`) of its creation parameters and that log. */
module Estimators {

  datatype Channel = In | Out

  /** One call of `processInMeasurement` or `processOutMeasurement`, with its
      arguments in the order the estimator takes them. */
  datatype Update = Update(channel: Channel, flow: real, stdvFlow: real, density: real, stdvDensity: real, velocity: real)

  /** An estimator as seen from outside: how it was created and what it was fed. */
  datatype EstimatorView = EstimatorView(capacity: real, maxDensity: real, dt: real, log: seq<Update>)

  /** The filter's read-outs, left uninterpreted. Being functions of the view,
      they are deterministic: equal histories give equal estimates. */
  datatype Filter = Filter(density: EstimatorView -> real, flow: EstimatorView -> real)

  /** One (flow, density) observation given to the system identifier. */
  datatype Datum = Datum(flow: real, density: real)

  /** A system identifier as seen from outside: its initial model parameters
      and the observations it was fed. */
  datatype SysIdView = SysIdView(freeFlowSpeed: real, criticalDensity: real, jamDensity: real, length: real, data: seq<Datum>)

  class StateEstimator {
    const capacity: real
    const maxDensity: real
    const dt: real
    const filter: Filter
    var log: seq<Update>

    constructor (capacity: real, maxDensity: real, dt: real, filter: Filter)
      ensures View() == EstimatorView(capacity, maxDensity, dt, [])
      ensures this.filter == filter
    {
      this.capacity := capacity;
      this.maxDensity := maxDensity;
      this.dt := dt;
      this.filter := filter;
      log := [];
    }

    function View(): EstimatorView
      reads this
    {
      EstimatorView(capacity, maxDensity, dt, log)
    }

    function GetDensity(): real
      reads this
    {
      filter.density(View())
    }

    function GetFlow(): real
      reads this
    {
      filter.flow(View())
    }

    method ProcessInMeasurement(flow: real, stdvFlow: real, density: real, stdvDensity: real, velocity: real)
      modifies this
      ensures log == old(log) + [Update(In, flow, stdvFlow, density, stdvDensity, velocity)]
    {
      log := log + [Update(In, flow, stdvFlow, density, stdvDensity, velocity)];
    }

    method ProcessOutMeasurement(flow: real, stdvFlow: real, density: real, stdvDensity: real, velocity: real)
      modifies this
      ensures log == old(log) + [Update(Out, flow, stdvFlow, density, stdvDensity, velocity)]
    {
      log := log + [Update(Out, flow, stdvFlow, density, stdvDensity, velocity)];
    }
  }

  class SysIdentifier {
    const freeFlowSpeed: real
    const criticalDensity: real
    const jamDensity: real
    const length: real
    var data: seq<Datum>

    constructor (freeFlowSpeed: real, criticalDensity: real, jamDensity: real, length: real)
      ensures View() == SysIdView(freeFlowSpeed, criticalDensity, jamDensity, length, [])
    {
      this.freeFlowSpeed := freeFlowSpeed;
      this.criticalDensity := criticalDensity;
      this.jamDensity := jamDensity;
      this.length := length;
      data := [];
    }

    function View(): SysIdView
      reads this
    {
      SysIdView(freeFlowSpeed, criticalDensity, jamDensity, length, data)
    }

    method AddDatum(flow: real, density: real)
      modifies this
      ensures data == old(data) + [Datum(flow, density)]
    {
      data := data + [Datum(flow, density)];
    }
  }
}
