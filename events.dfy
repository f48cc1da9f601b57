/** Measurement events as delivered to a freeway cell, and the validation
    that turns one into a typed, scaled measurement or rejects it. */
module Events {
  import opened Options
  import opened Doubles

  const MainlineEventName: string := "AverageDensityAndSpeedPerLocationOverInterval"
  const OnrampEventName: string := "AverageOnRampValuesOverInterval"

  /** An event: its name and the six attributes the cell reads, each of
      which may be absent. */
  datatype Event = Event(
    name: string,
    averageFlow: Option<Double>,
    averageOccupancy: Option<Double>,
    averageSpeed: Option<Double>,
    standardDevFlow: Option<Double>,
    standardDevDensity: Option<Double>,
    sensorId: Option<int>)

  /** The decision maker's configuration constants: raw counts to flow,
      occupancy to density, and the minimum metering rate. */
  datatype Conversion = Conversion(cars2Flow: real, occu2Dens: real, rmin: real)

  /** The five attribute values after unit conversion (speed is not scaled). */
  datatype Readings = Readings(flow: Double, density: Double, velocity: Double, stdvFlow: Double, stdvDensity: Double)

  /** A measurement that passed validation. */
  datatype Measurement = Measurement(sensorId: int, flow: real, density: real, velocity: real, stdvFlow: real, stdvDensity: real)

  predicate IsRecognised(name: string) {
    name == MainlineEventName || name == OnrampEventName
  }

  predicate IsComplete(e: Event) {
    && e.averageFlow.Some?
    && e.averageOccupancy.Some?
    && e.averageSpeed.Some?
    && e.standardDevFlow.Some?
    && e.standardDevDensity.Some?
    && e.sensorId.Some?
  }

  function ScaleReadings(e: Event, conv: Conversion): Readings
    requires IsComplete(e)
  {
    Readings(
      Scale(conv.cars2Flow, e.averageFlow.value),
      Scale(conv.occu2Dens, e.averageOccupancy.value),
      e.averageSpeed.value,
      Scale(conv.cars2Flow, e.standardDevFlow.value),
      Scale(conv.occu2Dens, e.standardDevDensity.value))
  }

  /** The guard as the cell evaluates it: NaN-ness of the sum of the five values. */
  function Sum(v: Readings): Double {
    Add(Add(Add(Add(v.flow, v.density), v.velocity), v.stdvFlow), v.stdvDensity)
  }

  predicate AnyNaN(v: Readings) {
    IsNaN(v.flow) || IsNaN(v.density) || IsNaN(v.velocity) || IsNaN(v.stdvFlow) || IsNaN(v.stdvDensity)
  }

  /** Validation: an event yields a measurement exactly when its name is one
      of the two recognised ones, all six attributes are present and none of
      the five scaled values is NaN; the measurement carries the scaled values. */
  function Parse(e: Event, conv: Conversion): (r: Option<Measurement>)
    ensures r.Some? <==> IsRecognised(e.name) && IsComplete(e) && !AnyNaN(ScaleReadings(e, conv))
    ensures r.Some? ==>
      && r.value.sensorId == e.sensorId.value
      && r.value.flow == conv.cars2Flow * e.averageFlow.value.val
      && r.value.density == conv.occu2Dens * e.averageOccupancy.value.val
      && r.value.velocity == e.averageSpeed.value.val
      && r.value.stdvFlow == conv.cars2Flow * e.standardDevFlow.value.val
      && r.value.stdvDensity == conv.occu2Dens * e.standardDevDensity.value.val
  {
    if !IsRecognised(e.name) || !IsComplete(e) then None
    else
      var v := ScaleReadings(e, conv);
      if IsNaN(Sum(v)) then None
      else Some(Measurement(e.sensorId.value, v.flow.val, v.density.val, v.velocity.val, v.stdvFlow.val, v.stdvDensity.val))
  }
}
