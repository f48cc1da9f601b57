# Freeway cell: measurement dispatch and merge density

This project models the per-cell measurement dispatcher of the SPEEDD freeway
traffic controller (`FreewayCell`). A cell owns three things. The first is a
mainline state estimator. The second is an on-ramp state estimator, present
only when the on-ramp queue length is positive. The third is a system
identifier. The cell also keeps the merge-area density.

Each measurement event goes through these stages in order:

- it is filtered by name and by the presence of six attributes;
- its readings are scaled by the unit-conversion constants;
- it is dropped if the sum of the five readings is NaN;
- it is routed by sensor id through two independent if-chains, one for the
  mainline and one for the on-ramp.

A merge-sensor event recomputes the merge density and feeds one
(flow, density) datum to the system identifier.

Files:

- `options.dfy`: an `Option` datatype.
- `doubles.dfy`: `Double`, a real or NaN, with NaN-propagating products and sums.
- `events.dfy`: the event, the conversion constants, and `Parse`, the validation step.
- `estimators.dfy`: the estimator and the system identifier, as classes that log
  the calls they receive. An estimator's `getDensity`/`getFlow` reads are an
  uninterpreted `Filter`, a pair of functions of the estimator's creation
  parameters and its call log.
- `cell.dfy`: the merge-density formula, the pure step function `Step` and the
  class `FreewayCell`. The method `ProcessMeasurement` changes the cell and its
  collaborators in place, and it is proved to do exactly what `Step` says.
- `cell_properties.dfy`: the routing, rejection and bound properties of `Step`,
  plus invariants over whole sequences of events (`Run`).

Parameters of the model:

- `getIndex` on the constructor stands for the topology lookup from actuator id
  to cell index.
- `Conversion` on `ProcessMeasurement` stands for the decision maker's constants
  `CARS_2_FLOW`, `OCCU_2_DENS` and `RMIN`.
- `Filter` stands for the estimators' read-outs.

Behaviours of the code worth knowing, each of which the model keeps:

- The merge density is recomputed, and the system identifier fed, when the
  merge sensor `sens_me` reports (FreewayCell.java:114-117). Mainline-out
  events (`sens_ou`) only update the mainline estimator.
- The parameter `merge_density_us_estimate` of `estimate_merge_density`
  receives the event's own scaled density (FreewayCell.java:115), not an
  estimate coming from an upstream cell.
- The clamp is `max(min(raw, 250), lowerBound)` (FreewayCell.java:66), so a
  lower bound above 250 is the result (`LowerBoundOverridesCap`).
- The system identifier is built for every cell (FreewayCell.java:46). In a
  cell without an on-ramp it is still fed on every merge-sensor event, although
  the comment at FreewayCell.java:117 says identification is done only for
  sections with on-ramps.
- Nothing keeps the merge density within [0, 250] by itself. Without an
  on-ramp it is the mainline density, unclamped (`NoOnrampPassThrough`,
  FreewayCell.java:57-58). `RunKeepsMergeBounded` proves that it stays within
  [0, 250] when all four of these hold:
  - the scaled density of every accepted event lies in that range;
  - the merge density starts in that range;
  - the flow read is never -0.1 for any estimator view (`FlowGuarded`);
  - either an on-ramp exists, or the estimator keeps its density within its
    maximum whenever that maximum is non-negative and the mainline
    estimator's maximum is 250.
  These conditions are sufficient. The lemma does not claim they are necessary.
- An on-ramp sensor id matched in a cell without an on-ramp estimator
  dereferences null (FreewayCell.java:123 and 127, with 43). The model returns
  the status `NullOnramp`, and the mainline chain's effects remain
  (`OnrampRoleWithoutOnrampFaults`).

## Model

| member | source | states |
|---|---|---|
| `Events.Parse` | speedd-runtime/src/main/java/org/speedd/dm/FreewayCell.java:84-107 | an event is accepted iff its name is one of the two recognised ones, all six attributes are present and none of the five scaled values is NaN (NaN in any raw attribute survives scaling and makes the guarded sum NaN); the accepted measurement carries the scaled values and the sensor id |
| `Cell.EstimateMergeDensity` | speedd-runtime/src/main/java/org/speedd/dm/FreewayCell.java:54-67 | without an on-ramp: the mainline density; with one: at least the lower bound, at least min(raw, 250), equal to one of the two, and at most 250 when the lower bound is |
| `Cell.FreewayCell.constructor` | speedd-runtime/src/main/java/org/speedd/dm/FreewayCell.java:18-47 | on-ramp estimator exists iff q_length > 0; mainline estimator (l, 250, dt), on-ramp estimator (q_length, 125, dt), system identifier (0.7 v, rhoc, rhom, l), all with empty histories; index k from the topology lookup; merge density 0 |
| `Cell.FreewayCell.GetMergeDensity` | speedd-runtime/src/main/java/org/speedd/dm/FreewayCell.java:73-75 | the merge density equals the density of the last datum given to the system identifier, or 0 before any |
| `Cell.FreewayCell.ProcessMeasurement` | speedd-runtime/src/main/java/org/speedd/dm/FreewayCell.java:82-133 | the new estimators, identifier, merge density and fault status are exactly those given by `Step` on the old state; the cell invariant is kept |
| `CellProperties.UnrecognisedEventIgnored` | speedd-runtime/src/main/java/org/speedd/dm/FreewayCell.java:84-86 | an event of any other name leaves the whole state unchanged |
| `CellProperties.IncompleteEventIgnored` | speedd-runtime/src/main/java/org/speedd/dm/FreewayCell.java:92-93 | an event lacking any of the six attributes leaves the whole state unchanged |
| `CellProperties.NaNEventIgnored` | speedd-runtime/src/main/java/org/speedd/dm/FreewayCell.java:96-107 | an event with a NaN in any numeric attribute leaves the whole state unchanged, whatever its sensor id |
| `CellProperties.UnmatchedSensorIgnored` | speedd-runtime/src/main/java/org/speedd/dm/FreewayCell.java:110-128 | a valid event whose sensor id has no role leaves the whole state unchanged |
| `CellProperties.ChainsIndependent` | speedd-runtime/src/main/java/org/speedd/dm/FreewayCell.java:109-128 | mainline, identifier and merge density come from the mainline chain alone; the on-ramp estimator and the fault come from the on-ramp chain alone, on the unadjusted measurement |
| `CellProperties.MainlineInRouted` | speedd-runtime/src/main/java/org/speedd/dm/FreewayCell.java:110-111 | sens_in: exactly one mainline in-update with the measured values; identifier and merge density unchanged |
| `CellProperties.MainlineOutRouted` | speedd-runtime/src/main/java/org/speedd/dm/FreewayCell.java:112-113 | sens_ou: exactly one mainline out-update with the measured values; identifier and merge density unchanged |
| `CellProperties.MergeRouted` | speedd-runtime/src/main/java/org/speedd/dm/FreewayCell.java:114-117 | sens_me: merge density recomputed with the event density as lower bound, exactly one datum (mainline flow, new merge density) appended, mainline unchanged |
| `CellProperties.QueueSensorRouted` | speedd-runtime/src/main/java/org/speedd/dm/FreewayCell.java:121-123 | sens_qu: exactly one on-ramp in-update with density std-dev 1000 and the flow as measured |
| `CellProperties.MeteringSensorRouted` | speedd-runtime/src/main/java/org/speedd/dm/FreewayCell.java:124-127 | sens_on: exactly one on-ramp out-update with density std-dev 1000 and flow max(flow, RMIN) |
| `CellProperties.OnrampRoleWithoutOnrampFaults` | speedd-runtime/src/main/java/org/speedd/dm/FreewayCell.java:121-127 | an on-ramp role without an on-ramp estimator faults, after the effects of the mainline chain |
| `CellProperties.NoOnrampPassThrough` | speedd-runtime/src/main/java/org/speedd/dm/FreewayCell.java:56-58 | without an on-ramp the new merge density is the mainline density, with no clamping |
| `CellProperties.MergeDensityBounds` | speedd-runtime/src/main/java/org/speedd/dm/FreewayCell.java:115 | with an on-ramp the new merge density is at least the event's density, and at most 250 when that density is |
| `CellProperties.LowerBoundOverridesCap` | speedd-runtime/src/main/java/org/speedd/dm/FreewayCell.java:66 | a lower bound above 250 is the result: the lower bound wins over the cap |
| `CellProperties.JamScenario` | speedd-runtime/src/main/java/org/speedd/dm/FreewayCell.java:60-66 | density 20, mainline flow 0, on-ramp flow 5, lower bound 0: raw 1000, result 250 |
| `CellProperties.MergeRawAtLeastMainline` | speedd-runtime/src/main/java/org/speedd/dm/FreewayCell.java:63 | with non-negative mainline density, mainline flow + 0.1 > 0 and on-ramp inflow at least 0.1, the raw merge density is at least the mainline density |
| `CellProperties.StepKeepsShape` | speedd-runtime/src/main/java/org/speedd/dm/FreewayCell.java:14-17 | processing never adds or removes the on-ramp estimator, and never changes any creation parameter of the mainline estimator, the on-ramp estimator or the system identifier; only their logs may differ |
| `CellProperties.StepKeepsConsistent` | speedd-runtime/src/main/java/org/speedd/dm/FreewayCell.java:114-117 | one event keeps the merge density equal to the last datum's density |
| `CellProperties.RunKeepsConsistent` | speedd-runtime/src/main/java/org/speedd/dm/FreewayCell.java:114-117 | the same holds after any sequence of events |
| `CellProperties.StepKeepsMergeBounded` | speedd-runtime/src/main/java/org/speedd/dm/FreewayCell.java:54-66 | with plausible event density, and an on-ramp or bounded estimator density, one event keeps merge density within [0, 250] |
| `CellProperties.RunKeepsMergeBounded` | speedd-runtime/src/main/java/org/speedd/dm/FreewayCell.java:54-66 | under the same conditions, merge density stays within [0, 250] over any sequence of events |
| `CellProperties.RunOfRejectedEvents` | speedd-runtime/src/main/java/org/speedd/dm/FreewayCell.java:84-107 | a sequence of events all rejected by validation leaves the state unchanged |
| `CellProperties.RunOnrampIsolated` | speedd-runtime/src/main/java/org/speedd/dm/FreewayCell.java:109-128 | events not from an on-ramp sensor never change the on-ramp estimator |
| `CellProperties.OnrampEventKeepsMainline` | speedd-runtime/src/main/java/org/speedd/dm/FreewayCell.java:110-118 | an event whose sensor id is none of sens_in, sens_ou, sens_me leaves the mainline estimator, the system identifier and the merge density unchanged |
| `CellProperties.RunMainlineIsolated` | speedd-runtime/src/main/java/org/speedd/dm/FreewayCell.java:110-118 | the same over any sequence of such events |

## Left out

- The internals of `FreewayStateEstimator` and `FreewaySysId` are not part of this model. Each is a log of the calls it received, with uninterpreted read-outs.
- `GrenobleTopology.get_index`, `Ctm` and `FreewayCell_IdTable` loading are configuration lookups. They are constructor parameters here.
- `CARS_2_FLOW`, `OCCU_2_DENS` and `RMIN` are given real parameters (`Conversion`).
- The attribute map, the `(double)` casts and `Integer.parseInt` are left out. Their failures are runtime exceptions of the host library. An event is a typed value whose attributes are optional.
- IEEE-754 rounding and infinities are left out. Doubles are reals plus a NaN flag, so a lone infinity, which passes the NaN guard, is not modelled.
- `Cell.FreewayCell.ProcessMeasurement`: requires a non-zero merge denominator (mainline flow + 0.1) when the event triggers a merge recompute in a cell with an on-ramp. The Java code would then produce an infinity or NaN, which the model does not represent.
- `CellProperties.Run`: requires that the flow read is never -0.1 for any estimator view. This covers on-ramp views and cells without an on-ramp too, where the quotient is never evaluated. It is stronger than the per-step condition, so that every step of any sequence is defined.
- The event runtime's delivery and any concurrency are left out.
