# LogicComponent: a verified model of the simulation kernel's component node

`static/core/modules/logicComponent.js` defines `LogicComponent`, one node (a client or a
processor) in a work-routing graph. A node counts its input and output links against
ceilings, queues the requests handed to it, moves up numbered upgrade levels whose
bundles overwrite its capacity fields, keeps an optional goal, stores the transmission
function an outside orchestrator uses for routing, and can be soft- or hard-reset.

The project has four files:

- `Wrappers.dfy`: the `Option` type.
- `Configuration.dfy`: the specification bundle as an explicit record. `Specs` holds the
  five capacity fields. `Override` is a partial bundle, where `None` means "not
  mentioned". `Overlay` is the field-by-field effect of `Object.assign`. `AtLevel`
  applies one level's bundle, and a missing level changes nothing, as
  `Object.assign(this, undefined)` does. `LatestValue` is a reference definition of what
  a run of upgrades leaves in each field.
- `NodeModel.dfy`: the node's state as the datatype `Node`, one function per operation,
  and the lemmas about them (repeated upgrades, repeated adds and removes, batches of
  enqueues, the resets, the connection ceilings).
- `LogicComponent.dfy`: the class `Component.LogicComponent`. It has the JavaScript
  object's fields, with two differences: the five capacity fields are grouped into one
  `specs: Specs` record, and a ghost field `notified` is added. Its methods update the
  fields in place as the source does.
  Every method's postcondition ties the new state (`State()`) to the matching
  `NodeModel` function applied to the old state. The request notification hook
  `pendingProcessing` is recorded in the ghost sequence `notified`. Two caller scenarios
  (`ConnectionScenario`, `OverfullEnqueueScenario`) show what the contracts let a caller
  conclude.

Requests and the transmission function are type parameters (`Req`, `Route`): the
component only stores them and never looks inside. Every numeric field is a JavaScript
number (a double) in the source; the model chooses unbounded integers for them: the
counters and `level` are `nat`, the capacity values are `int`, and `goal` is
`Option<int>`.

Three behaviours of the code are worth stating outright:

- `hardReset` does not in general restore the state a fresh construction has. It
  re-applies only the level-1 bundle on top of the current specs, so a field that a
  later level changed and level 1 does not mention keeps its later value. It also leaves
  `returningRequestQueue` and `transmitFunc` as they are.
  `HardResetSpecsVersusConstruction` states exactly when the specs coincide.
  `HardResetMatchesConstruction` states when the whole state does.
- A node built without an upgrade table stays at level 0 for good, because `upgrade`
  does nothing without a table.
- Each connection count stays within its ceiling under every operation except `upgrade`
  and `hardReset` (`InputCapacityPreserved`, `OutputCapacityPreserved`). `upgrade`
  does not re-check, so a bundle that lowers a ceiling below the current count leaves
  the node over it (`UpgradeMayBreakCapacity`). `hardReset` sets both counts to 0, so
  it leaves a count over its ceiling only when that ceiling, after the level-1 bundle is
  applied, is negative (`HardResetCapacity`).

## Model

| member | source | states |
|---|---|---|
| Configuration.Overlay | static/core/modules/logicComponent.js:51 | every field the bundle mentions takes the bundle's value; every other field keeps its value |
| Configuration.OverlayIdempotent | static/core/modules/logicComponent.js:51 | merging the same bundle twice leaves the same specs as merging it once |
| Configuration.AtLevel | static/core/modules/logicComponent.js:50-51 | a field changes only when that level has a bundle that mentions it, and then takes the bundle's value |
| NodeModel.Create | static/core/modules/logicComponent.js:16-35 | after construction, both connection counts, numTransmitted and numReceived are 0 and both queues are empty; there is no goal; level is 1 with an upgrade table and 0 without; the specs are the base specs with the level-1 bundle merged when there is a table |
| NodeModel.Upgrade | static/core/modules/logicComponent.js:47-53 | with a table, level goes up by exactly 1, fields mentioned by the new level's bundle take its values, and all other fields and state are unchanged; without a table, nothing changes |
| NodeModel.UpgradeTimesLevel | static/core/modules/logicComponent.js:47-53 | k upgrades with a table raise level by exactly k and change nothing except level and specs; without a table they change nothing |
| NodeModel.UpgradeFromZero | static/core/modules/logicComponent.js:47-53 | N upgrades from level 0 with a table give level N |
| NodeModel.UpgradeTimesSpecs | static/core/modules/logicComponent.js:47-53 | after k upgrades each spec field holds the value from the highest level that overrode it, or its earlier value if no level did, so later bundles supersede earlier ones |
| NodeModel.AddInput | static/core/modules/logicComponent.js:56-62 | returns true exactly when connectedInputs < maxInputs; then connectedInputs goes up by exactly 1 and nothing else changes; otherwise the node is unchanged |
| NodeModel.AddOutput | static/core/modules/logicComponent.js:63-69 | the same gate, on connectedOutputs and maxOutputs |
| NodeModel.RemoveInput | static/core/modules/logicComponent.js:71-73 | connectedInputs becomes max(c - 1, 0); no other field changes |
| NodeModel.RemoveOutput | static/core/modules/logicComponent.js:74-76 | connectedOutputs becomes max(c - 1, 0); no other field changes |
| NodeModel.HasAvailableInput | static/core/modules/logicComponent.js:78-80 | holds exactly when one more input would still be within maxInputs |
| NodeModel.HasAvailableOutput | static/core/modules/logicComponent.js:81-83 | holds exactly when one more output would still be within maxOutputs |
| NodeModel.AvailablePredictsAdd | static/core/modules/logicComponent.js:56-83 | hasAvailableInput/hasAvailableOutput hold exactly when the matching add returns true, which is exactly when the add changes the node |
| NodeModel.AddInputTimesOutcome | static/core/modules/logicComponent.js:56-62 | in k successive addInput calls from count c with room m, call i succeeds iff c + i < m; the count ends at min(c + k, m), or stays at c if c was already at or above m; nothing else changes |
| NodeModel.ThreeAddInputs | static/core/modules/logicComponent.js:56-62 | from 0 with maxInputs = 2, three addInput calls return true, true, false and end at 2 |
| NodeModel.RemoveInputTimesSaturates | static/core/modules/logicComponent.js:71-73 | after k removeInput calls the count is max(c - k, 0), so it is never negative; nothing else changes |
| NodeModel.Enqueue | static/core/modules/logicComponent.js:86-89 | the new incoming queue is the old queue with the request added at the tail, whatever the occupancy; no other field changes |
| NodeModel.EnqueueAllAppends | static/core/modules/logicComponent.js:86-89 | enqueueing a batch one request at a time appends the batch in arrival order and changes nothing else |
| NodeModel.Availability | static/core/modules/logicComponent.js:90-92 | the headroom is requestCapacity minus containedRequests; it is positive exactly when containedRequests < requestCapacity, and can be zero or negative |
| NodeModel.IsAvailable | static/core/modules/logicComponent.js:93-95 | holds exactly when one more request in processing would still be within requestCapacity |
| NodeModel.FullNodeHasNoAvailability | static/core/modules/logicComponent.js:90-92 | a node with containedRequests = requestCapacity has headroom 0 |
| NodeModel.AvailabilitySignals | static/core/modules/logicComponent.js:90-95 | isAvailable and a positive headroom agree exactly when numProcessing and containedRequests fall on the same side of requestCapacity, and they always agree when the two counters are equal |
| NodeModel.SetGoal | static/core/modules/logicComponent.js:38-41 | goal becomes the given value and goalMet becomes false; nothing else changes |
| NodeModel.SetTransmitFunc | static/core/modules/logicComponent.js:43-45 | only the stored transmission function changes |
| NodeModel.SoftReset | static/core/modules/logicComponent.js:98-104 | zeroes numTransmitted and numReceived, clears goal and goalMet, empties the incoming queue; connections, level, returning queue and specs are unchanged |
| NodeModel.HardReset | static/core/modules/logicComponent.js:105-111 | after a soft reset, both connection counts are 0 and level is 1 with a table, 0 without; specs are the current specs with the level-1 bundle merged; the returning queue, the transmission function and the identity are unchanged |
| NodeModel.SoftResetIdempotent | static/core/modules/logicComponent.js:98-104 | two soft resets give the same state as one |
| NodeModel.HardResetIdempotent | static/core/modules/logicComponent.js:105-111 | two hard resets give the same state as one |
| NodeModel.HardResetSpecsVersusConstruction | static/core/modules/logicComponent.js:105-111 | the specs after a hard reset equal those of a fresh construction exactly when every field that differs from the base specs is rewritten by the level-1 bundle |
| NodeModel.HardResetMatchesConstruction | static/core/modules/logicComponent.js:16-35 | with an empty returning queue and every changed field covered by the level-1 bundle, a hard reset gives exactly the freshly constructed node |
| NodeModel.InputCapacityPreserved | static/core/modules/logicComponent.js:56-104 | if connectedInputs ≤ maxInputs held before, it still holds after addInput, addOutput, removeInput, removeOutput, enqueue, setGoal, setTransmitFunc and softReset, whatever the output side is |
| NodeModel.OutputCapacityPreserved | static/core/modules/logicComponent.js:56-104 | if connectedOutputs ≤ maxOutputs held before, it still holds after the same operations, whatever the input side is |
| NodeModel.HardResetCapacity | static/core/modules/logicComponent.js:105-111 | after a hard reset both counts are 0, so each is within its ceiling exactly when that ceiling is non-negative |
| NodeModel.UpgradeMayBreakCapacity | static/core/modules/logicComponent.js:47-53 | a bundle that lowers maxInputs below the current count leaves the node over its ceiling, because upgrade does not re-check |
| Component.LogicComponent.constructor | static/core/modules/logicComponent.js:16-35 | the constructed object's state is NodeModel.Create of the arguments, and no request has been notified yet |
| Component.LogicComponent.SetGoal | static/core/modules/logicComponent.js:38-41 | the new state is NodeModel.SetGoal of the old one; only goal and goalMet may change |
| Component.LogicComponent.SetTransmitFunc | static/core/modules/logicComponent.js:43-45 | the new state is NodeModel.SetTransmitFunc of the old one |
| Component.LogicComponent.Upgrade | static/core/modules/logicComponent.js:47-53 | the new state is NodeModel.Upgrade of the old one; only level and specs may change |
| Component.LogicComponent.AddInput | static/core/modules/logicComponent.js:56-62 | the new state and the returned flag are NodeModel.AddInput of the old state; only connectedInputs may change |
| Component.LogicComponent.AddOutput | static/core/modules/logicComponent.js:63-69 | the new state and the returned flag are NodeModel.AddOutput of the old state; only connectedOutputs may change |
| Component.LogicComponent.RemoveInput | static/core/modules/logicComponent.js:71-73 | the new state is NodeModel.RemoveInput of the old one |
| Component.LogicComponent.RemoveOutput | static/core/modules/logicComponent.js:74-76 | the new state is NodeModel.RemoveOutput of the old one |
| Component.LogicComponent.HasAvailableInput | static/core/modules/logicComponent.js:78-80 | holds exactly when the model predicate holds of the current state; it reads the object and changes nothing |
| Component.LogicComponent.HasAvailableOutput | static/core/modules/logicComponent.js:81-83 | holds exactly when the model predicate holds of the current state; it reads the object and changes nothing |
| Component.LogicComponent.Enqueue | static/core/modules/logicComponent.js:86-89 | the new state is NodeModel.Enqueue of the old one, and the request is added exactly once to the log of notified requests |
| Component.LogicComponent.GetAvailability | static/core/modules/logicComponent.js:90-92 | returns the model headroom of the current state without changing anything |
| Component.LogicComponent.IsAvailable | static/core/modules/logicComponent.js:93-95 | holds exactly when numProcessing < requestCapacity in the current state; changes nothing |
| Component.LogicComponent.SoftReset | static/core/modules/logicComponent.js:98-104 | the new state is NodeModel.SoftReset of the old one; only the five reset fields may change |
| Component.LogicComponent.HardReset | static/core/modules/logicComponent.js:105-111 | the new state is NodeModel.HardReset of the old one; the returning queue, transmission function and notification log are untouched |
| Component.ConnectionScenario | static/core/modules/logicComponent.js:56-76 | a component built with maxInputs = 2 answers three addInput calls with true, true, false, and three removeInput calls then bring it back to 0 |
| Component.OverfullEnqueueScenario | static/core/modules/logicComponent.js:86-92 | a component with requestCapacity 1 queues both of two requests, in order, and its headroom is still 1 |

## Left out

- Arbitrary extra fields of the configuration bundle: `Object.assign` copies every field of the bundle onto the object, but the model has only the five named capacity fields. A bundle that overwrote `level`, the counters, the queues or `upgrades` itself is not modelled.
- Floating-point numbers: numbers are unbounded integers in the model. The source's doubles are exact only up to 2^53, beyond which `level += 1` and `connectedInputs++` no longer change the value (the model's repeated-upgrade and repeated-add lemmas promise +1 per call at any size), and they allow non-finite ceilings such as `Infinity`, for which `hasAvailableInput` is always true. Neither is modelled, and neither are fractional or `NaN` values.
- JavaScript values of the wrong kind: a missing capacity field (a comparison with `undefined` is false), an `upgrades` property that is present but `null` (then `upgrade` throws). Capacity values are integers and the table is either present or absent.
- The state before the first `setGoal`/`softReset`: the source leaves `goal` and `goalMet` undefined. The model uses `None` and `false`, the values `softReset` sets. `setGoal` takes an integer.
- The body of `request.pendingProcessing`: it is external code. Calling it is recorded in the ghost log `notified`. The model assumes it does not call back into the component and that it returns normally; if it throws, the source never queues the request and the exception reaches the caller of `enqueue`.
- Routing: `transmitFunc` is only stored and replaced. How it chooses the next component is external and not part of this model.
- Updates to `numProcessing`, `containedRequests`, `numTransmitted`, `numReceived`, `returningRequestQueue` and `incomingRequestQueue` outside the resets and `enqueue` (nothing in the file takes a request off the incoming queue except `softReset`): they happen outside this file, so the model treats them as given state.
- Rendering, positions, connections drawn on screen and the tick loop: no part of this file.
