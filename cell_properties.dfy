/** What processing an event does to a freeway cell, stated on `Step`, and
    what holds over a whole sequence of events. */
module CellProperties {
  import opened Options
  import opened Doubles
  import opened Events
  import opened Estimators
  import opened Cell

  // ---------------------------------------------------------------------
  // Rejected events

  /** An event of any other name changes nothing. */
  lemma UnrecognisedEventIgnored(ids: IdTable, f: Filter, conv: Conversion, s: CellState, e: Event)
    requires !IsRecognised(e.name)
    ensures StepDefined(ids, f, conv, s, e)
    ensures Step(ids, f, conv, s, e) == StepResult(s, Done)
  {
  }

  /** An event lacking any of the six attributes changes nothing. */
  lemma IncompleteEventIgnored(ids: IdTable, f: Filter, conv: Conversion, s: CellState, e: Event)
    requires !IsComplete(e)
    ensures StepDefined(ids, f, conv, s, e)
    ensures Step(ids, f, conv, s, e) == StepResult(s, Done)
  {
  }

  /** An event with a NaN in any of its five numeric attributes changes
      nothing, whichever role its sensor id has. */
  lemma NaNEventIgnored(ids: IdTable, f: Filter, conv: Conversion, s: CellState, e: Event)
    requires IsComplete(e)
    requires IsNaN(e.averageFlow.value) || IsNaN(e.averageOccupancy.value) || IsNaN(e.averageSpeed.value)
          || IsNaN(e.standardDevFlow.value) || IsNaN(e.standardDevDensity.value)
    ensures StepDefined(ids, f, conv, s, e)
    ensures Step(ids, f, conv, s, e) == StepResult(s, Done)
  {
  }

  /** A valid event whose sensor id has no role changes nothing. */
  lemma UnmatchedSensorIgnored(ids: IdTable, f: Filter, conv: Conversion, s: CellState, e: Event, m: Measurement)
    requires Parse(e, conv) == Some(m)
    requires m.sensorId !in {ids.sensIn, ids.sensOu, ids.sensMe, ids.sensQu, ids.sensOn}
    ensures StepDefined(ids, f, conv, s, e)
    ensures Step(ids, f, conv, s, e) == StepResult(s, Done)
  {
  }

  // ---------------------------------------------------------------------
  // Routing

  /** The two if-chains are independent: the mainline estimator, the system
      identifier and the merge density are decided by the mainline chain
      alone, and the on-ramp estimator and the fault by the on-ramp chain
      alone, on the unadjusted measurement. */
  lemma ChainsIndependent(ids: IdTable, f: Filter, conv: Conversion, s: CellState, e: Event, m: Measurement)
    requires Parse(e, conv) == Some(m)
    requires StepDefined(ids, f, conv, s, e)
    ensures var r := Step(ids, f, conv, s, e);
      && r.state.mainline == MainlineChain(ids, f, s, m).mainline
      && r.state.sysId == MainlineChain(ids, f, s, m).sysId
      && r.state.mergeDensity == MainlineChain(ids, f, s, m).mergeDensity
      && r.state.onramp == OnrampChain(ids, s, m, conv.rmin).state.onramp
      && r.status == OnrampChain(ids, s, m, conv.rmin).status
  {
  }

  /** The mainline-in sensor: exactly one in-update of the mainline estimator,
      with the measurement's values; the identifier and the merge density
      stay. */
  lemma MainlineInRouted(ids: IdTable, f: Filter, conv: Conversion, s: CellState, e: Event, m: Measurement)
    requires Parse(e, conv) == Some(m)
    requires m.sensorId == ids.sensIn
    ensures StepDefined(ids, f, conv, s, e)
    ensures var r := Step(ids, f, conv, s, e);
      && r.state.mainline == s.mainline.(log := s.mainline.log + [Update(In, m.flow, m.stdvFlow, m.density, m.stdvDensity, m.velocity)])
      && r.state.sysId == s.sysId
      && r.state.mergeDensity == s.mergeDensity
      && (m.sensorId != ids.sensQu && m.sensorId != ids.sensOn ==> r.state.onramp == s.onramp && r.status == Done)
  {
  }

  /** The mainline-out sensor: exactly one out-update of the mainline estimator. */
  lemma MainlineOutRouted(ids: IdTable, f: Filter, conv: Conversion, s: CellState, e: Event, m: Measurement)
    requires Parse(e, conv) == Some(m)
    requires m.sensorId == ids.sensOu && m.sensorId != ids.sensIn
    ensures StepDefined(ids, f, conv, s, e)
    ensures var r := Step(ids, f, conv, s, e);
      && r.state.mainline == s.mainline.(log := s.mainline.log + [Update(Out, m.flow, m.stdvFlow, m.density, m.stdvDensity, m.velocity)])
      && r.state.sysId == s.sysId
      && r.state.mergeDensity == s.mergeDensity
      && (m.sensorId != ids.sensQu && m.sensorId != ids.sensOn ==> r.state.onramp == s.onramp && r.status == Done)
  {
  }

  /** The merge sensor: the merge density is recomputed with the event's own
      density as lower bound, and exactly one datum (mainline flow, new merge
      density) goes to the system identifier; the mainline estimator stays. */
  lemma MergeRouted(ids: IdTable, f: Filter, conv: Conversion, s: CellState, e: Event, m: Measurement)
    requires Parse(e, conv) == Some(m)
    requires TriggersMerge(ids, m)
    requires MergeDefined(f, s)
    ensures StepDefined(ids, f, conv, s, e)
    ensures var r := Step(ids, f, conv, s, e);
      && r.state.mainline == s.mainline
      && r.state.mergeDensity == EstimateMergeDensity(f, s.mainline, s.onramp, m.density)
      && r.state.sysId == s.sysId.(data := s.sysId.data + [Datum(f.flow(s.mainline), r.state.mergeDensity)])
      && (m.sensorId != ids.sensQu && m.sensorId != ids.sensOn ==> r.state.onramp == s.onramp && r.status == Done)
  {
  }

  /** The queue sensor, with an on-ramp: one in-update of the on-ramp estimator
      with the density standard deviation forced to 1000 and the flow as measured. */
  lemma QueueSensorRouted(ids: IdTable, f: Filter, conv: Conversion, s: CellState, e: Event, m: Measurement)
    requires Parse(e, conv) == Some(m)
    requires StepDefined(ids, f, conv, s, e)
    requires m.sensorId == ids.sensQu && s.onramp.Some?
    ensures var r := Step(ids, f, conv, s, e);
      && r.status == Done
      && r.state.onramp == Some(s.onramp.value.(log := s.onramp.value.log + [Update(In, m.flow, m.stdvFlow, m.density, 1000.0, m.velocity)]))
  {
  }

  /** The metering sensor, with an on-ramp: one out-update of the on-ramp
      estimator with the density standard deviation forced to 1000 and the
      flow floored at the minimum metering rate. */
  lemma MeteringSensorRouted(ids: IdTable, f: Filter, conv: Conversion, s: CellState, e: Event, m: Measurement)
    requires Parse(e, conv) == Some(m)
    requires StepDefined(ids, f, conv, s, e)
    requires m.sensorId == ids.sensOn && m.sensorId != ids.sensQu && s.onramp.Some?
    ensures var r := Step(ids, f, conv, s, e);
      && r.status == Done
      && r.state.onramp == Some(s.onramp.value.(log := s.onramp.value.log + [Update(Out, Max(m.flow, conv.rmin), m.stdvFlow, m.density, 1000.0, m.velocity)]))
      && r.state.onramp.value.log[|r.state.onramp.value.log| - 1].flow >= conv.rmin
      && r.state.onramp.value.log[|r.state.onramp.value.log| - 1].flow >= m.flow
  {
  }

  /** An on-ramp role in a cell without an on-ramp estimator faults after the
      mainline chain has taken effect. */
  lemma OnrampRoleWithoutOnrampFaults(ids: IdTable, f: Filter, conv: Conversion, s: CellState, e: Event, m: Measurement)
    requires Parse(e, conv) == Some(m)
    requires StepDefined(ids, f, conv, s, e)
    requires (m.sensorId == ids.sensQu || m.sensorId == ids.sensOn) && s.onramp.None?
    ensures Step(ids, f, conv, s, e) == StepResult(MainlineChain(ids, f, s, m), NullOnramp)
  {
  }

  // ---------------------------------------------------------------------
  // Merge density

  /** Without an on-ramp the merge density is the mainline density, unclamped. */
  lemma NoOnrampPassThrough(ids: IdTable, f: Filter, conv: Conversion, s: CellState, e: Event, m: Measurement)
    requires Parse(e, conv) == Some(m)
    requires TriggersMerge(ids, m) && s.onramp.None?
    ensures StepDefined(ids, f, conv, s, e)
    ensures Step(ids, f, conv, s, e).state.mergeDensity == f.density(s.mainline)
  {
  }

  /** With an on-ramp the new merge density is at least the event's density,
      and at most 250 when that density is. */
  lemma MergeDensityBounds(ids: IdTable, f: Filter, conv: Conversion, s: CellState, e: Event, m: Measurement)
    requires Parse(e, conv) == Some(m)
    requires TriggersMerge(ids, m) && s.onramp.Some?
    requires MergeDefined(f, s)
    ensures StepDefined(ids, f, conv, s, e)
    ensures Step(ids, f, conv, s, e).state.mergeDensity >= m.density
    ensures m.density <= MaxMainlineDensity ==> Step(ids, f, conv, s, e).state.mergeDensity <= MaxMainlineDensity
  {
  }

  /** A lower bound above the cap wins: the merge density then exceeds 250. */
  lemma LowerBoundOverridesCap(f: Filter, mainline: EstimatorView, ramp: EstimatorView, usEstimate: real)
    requires f.flow(mainline) + Epsilon != 0.0
    requires usEstimate > MaxMainlineDensity
    ensures EstimateMergeDensity(f, mainline, Some(ramp), usEstimate) == usEstimate
  {
  }

  /** Mainline density 20, mainline flow 0, on-ramp flow 5, lower bound 0:
      the raw estimate 1000 is capped to 250. */
  lemma JamScenario(f: Filter, mainline: EstimatorView, ramp: EstimatorView)
    requires f.density(mainline) == 20.0 && f.flow(mainline) == 0.0 && f.flow(ramp) == 5.0
    ensures MergeRaw(20.0, 0.0, 5.0) == 1000.0
    ensures EstimateMergeDensity(f, mainline, Some(ramp), 0.0) == 250.0
  {
  }

  /** The conservation argument: with non-negative mainline density, positive
      guarded mainline flow and an on-ramp inflow of at least the guard, the
      merge area is at least as dense as the mainline. */
  lemma MergeRawAtLeastMainline(density: real, flow: real, inflow: real)
    requires density >= 0.0 && flow + Epsilon > 0.0 && inflow >= Epsilon
    ensures MergeRaw(density, flow, inflow) >= density
  {
  }

  // ---------------------------------------------------------------------
  // Invariants of one step and of a sequence of events

  /** Processing never adds or removes the on-ramp estimator and never
      changes how an estimator was created. */
  lemma StepKeepsShape(ids: IdTable, f: Filter, conv: Conversion, s: CellState, e: Event)
    requires StepDefined(ids, f, conv, s, e)
    ensures var r := Step(ids, f, conv, s, e).state;
      && r.onramp.Some? == s.onramp.Some?
      && r.mainline.(log := []) == s.mainline.(log := [])
      && (s.onramp.Some? ==> r.onramp.value.(log := []) == s.onramp.value.(log := []))
      && r.sysId.(data := []) == s.sysId.(data := [])
  {
  }

  lemma StepKeepsConsistent(ids: IdTable, f: Filter, conv: Conversion, s: CellState, e: Event)
    requires StepDefined(ids, f, conv, s, e)
    requires Consistent(s)
    ensures Consistent(Step(ids, f, conv, s, e).state)
  {
  }

  /** The mainline flow read never equals minus the guard, so every step is defined. */
  ghost predicate FlowGuarded(f: Filter) {
    forall v: EstimatorView :: f.flow(v) + Epsilon != 0.0
  }

  /** The estimator keeps its density within [0, its maximum density]
      whenever that maximum is non-negative. */
  ghost predicate DensityWithinCapacity(f: Filter) {
    forall v: EstimatorView :: 0.0 <= v.maxDensity ==> 0.0 <= f.density(v) <= v.maxDensity
  }

  /** Such an estimator exists: one that always reports an empty road. */
  lemma DensityWithinCapacityAttainable()
    ensures DensityWithinCapacity(Filter(v => 0.0, v => 0.0))
  {
  }

  /** Every accepted event's scaled density lies within [0, 250]. */
  predicate PlausibleDensity(conv: Conversion, e: Event) {
    Parse(e, conv).Some? ==> 0.0 <= Parse(e, conv).value.density <= MaxMainlineDensity
  }

  predicate MergeBounded(s: CellState) {
    0.0 <= s.mergeDensity <= MaxMainlineDensity
  }

  /** The state after processing the events in order (a fault ends the
      processing of that event only). */
  function Run(ids: IdTable, f: Filter, conv: Conversion, s: CellState, es: seq<Event>): CellState
    requires FlowGuarded(f)
    decreases |es|
  {
    if es == [] then s else Run(ids, f, conv, Step(ids, f, conv, s, es[0]).state, es[1..])
  }

  lemma {:induction false} RunKeepsConsistent(ids: IdTable, f: Filter, conv: Conversion, s: CellState, es: seq<Event>)
    requires FlowGuarded(f)
    requires Consistent(s)
    ensures Consistent(Run(ids, f, conv, s, es))
    decreases |es|
  {
    if es != [] {
      StepKeepsConsistent(ids, f, conv, s, es[0]);
      RunKeepsConsistent(ids, f, conv, Step(ids, f, conv, s, es[0]).state, es[1..]);
    }
  }

  lemma StepKeepsMergeBounded(ids: IdTable, f: Filter, conv: Conversion, s: CellState, e: Event)
    requires StepDefined(ids, f, conv, s, e)
    requires MergeBounded(s) && PlausibleDensity(conv, e)
    requires s.onramp.Some? || (DensityWithinCapacity(f) && s.mainline.maxDensity == MaxMainlineDensity)
    ensures MergeBounded(Step(ids, f, conv, s, e).state)
  {
  }

  /** With an on-ramp (or an estimator that keeps its density within its
      maximum) and plausible event densities, the merge density stays within
      [0, 250] over any sequence of events. */
  lemma {:induction false} RunKeepsMergeBounded(ids: IdTable, f: Filter, conv: Conversion, s: CellState, es: seq<Event>)
    requires FlowGuarded(f)
    requires MergeBounded(s)
    requires s.onramp.Some? || (DensityWithinCapacity(f) && s.mainline.maxDensity == MaxMainlineDensity)
    requires forall i :: 0 <= i < |es| ==> PlausibleDensity(conv, es[i])
    ensures MergeBounded(Run(ids, f, conv, s, es))
    decreases |es|
  {
    if es != [] {
      StepKeepsMergeBounded(ids, f, conv, s, es[0]);
      StepKeepsShape(ids, f, conv, s, es[0]);
      RunKeepsMergeBounded(ids, f, conv, Step(ids, f, conv, s, es[0]).state, es[1..]);
    }
  }

  /** A sequence of events all rejected by validation leaves the cell as it was. */
  lemma {:induction false} RunOfRejectedEvents(ids: IdTable, f: Filter, conv: Conversion, s: CellState, es: seq<Event>)
    requires FlowGuarded(f)
    requires forall i :: 0 <= i < |es| ==> Parse(es[i], conv).None?
    ensures Run(ids, f, conv, s, es) == s
    decreases |es|
  {
    if es != [] {
      RunOfRejectedEvents(ids, f, conv, s, es[1..]);
    }
  }

  /** Channel isolation: events that do not come from an on-ramp sensor never
      touch the on-ramp estimator. */
  predicate NotFromOnramp(ids: IdTable, conv: Conversion, e: Event) {
    Parse(e, conv).Some? ==> Parse(e, conv).value.sensorId != ids.sensQu && Parse(e, conv).value.sensorId != ids.sensOn
  }

  lemma {:induction false} RunOnrampIsolated(ids: IdTable, f: Filter, conv: Conversion, s: CellState, es: seq<Event>)
    requires FlowGuarded(f)
    requires forall i :: 0 <= i < |es| ==> NotFromOnramp(ids, conv, es[i])
    ensures Run(ids, f, conv, s, es).onramp == s.onramp
    decreases |es|
  {
    if es != [] {
      var t := Step(ids, f, conv, s, es[0]).state;
      assert t.onramp == s.onramp;
      RunOnrampIsolated(ids, f, conv, t, es[1..]);
    }
  }

  /** The reverse direction: an event that does not come from a mainline or
      merge sensor leaves the mainline estimator, the system identifier and
      the merge density unchanged. */
  predicate NotFromMainline(ids: IdTable, conv: Conversion, e: Event) {
    Parse(e, conv).Some? ==> Parse(e, conv).value.sensorId !in {ids.sensIn, ids.sensOu, ids.sensMe}
  }

  lemma OnrampEventKeepsMainline(ids: IdTable, f: Filter, conv: Conversion, s: CellState, e: Event)
    requires NotFromMainline(ids, conv, e)
    ensures StepDefined(ids, f, conv, s, e)
    ensures var r := Step(ids, f, conv, s, e).state;
      r.mainline == s.mainline && r.sysId == s.sysId && r.mergeDensity == s.mergeDensity
  {
  }

  lemma {:induction false} RunMainlineIsolated(ids: IdTable, f: Filter, conv: Conversion, s: CellState, es: seq<Event>)
    requires FlowGuarded(f)
    requires forall i :: 0 <= i < |es| ==> NotFromMainline(ids, conv, es[i])
    ensures var r := Run(ids, f, conv, s, es);
      r.mainline == s.mainline && r.sysId == s.sysId && r.mergeDensity == s.mergeDensity
    decreases |es|
  {
    if es != [] {
      OnrampEventKeepsMainline(ids, f, conv, s, es[0]);
      RunMainlineIsolated(ids, f, conv, Step(ids, f, conv, s, es[0]).state, es[1..]);
    }
  }
}
