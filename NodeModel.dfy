/**
 * The state of one LogicComponent as a value, and one function per operation.
 *
 * `Req` is the type of the (opaque) requests a component queues and `Route`
 * that of the transmission function it stores; the component never looks
 * inside either.
 */
module NodeModel {
  import opened Wrappers
  import opened Configuration

  datatype Node<Req, Route> = Node(
    id: string,
    name: string,
    level: nat,
    connectedInputs: nat,
    connectedOutputs: nat,
    numTransmitted: nat,
    numReceived: nat,
    incomingRequestQueue: seq<Req>,
    returningRequestQueue: seq<Req>,
    transmitFunc: Route,
    goal: Option<int>,
    goalMet: bool,
    specs: Specs,
    upgrades: Option<UpgradeTable>)

  /** `Math.max` on integers. */
  function Max(a: int, b: int): int {
    if a >= b then a else b
  }

  // ---------------------------------------------------------------------------
  // Construction and upgrades
  // ---------------------------------------------------------------------------

  /** `upgrade`: with a table, go one level up and overlay that level's bundle; without one, nothing. */
  function Upgrade<Req, Route>(n: Node<Req, Route>): (r: Node<Req, Route>)
    ensures n.upgrades.None? ==> r == n
    ensures n.upgrades.Some? ==> r.level == n.level + 1
    ensures n.upgrades.Some? ==> forall f :: (Get(r.specs, f) ==
              if Overrides(n.upgrades.value, n.level + 1, f) then Mentioned(n.upgrades.value[n.level + 1], f).value
              else Get(n.specs, f))
    ensures r == n.(level := r.level, specs := r.specs)
  {
    match n.upgrades
    case None => n
    case Some(table) =>
      var next := n.level + 1;
      n.(level := next, specs := AtLevel(table, next, n.specs))
  }

  /** The constructor: zeroed counters, empty queues, the bundle merged, then one `upgrade`. */
  function Create<Req, Route>(id: string, name: string, config: Config, transmission: Route): (r: Node<Req, Route>)
    ensures r.id == id && r.name == name && r.transmitFunc == transmission
    ensures r.level == if config.upgrades.Some? then 1 else 0
    ensures r.connectedInputs == 0 && r.connectedOutputs == 0
    ensures r.numTransmitted == 0 && r.numReceived == 0
    ensures r.incomingRequestQueue == [] && r.returningRequestQueue == []
    ensures r.goal == None && !r.goalMet
    ensures r.upgrades == config.upgrades
    ensures r.specs == if config.upgrades.Some? then AtLevel(config.upgrades.value, 1, config.specs) else config.specs
  {
    var base := Node(id, name, 0, 0, 0, 0, 0, [], [], transmission, None, false, config.specs, config.upgrades);
    Upgrade(base)
  }

  /** `k` successive calls of `upgrade`. */
  function UpgradeTimes<Req, Route>(n: Node<Req, Route>, k: nat): Node<Req, Route>
    decreases k
  {
    if k == 0 then n else Upgrade(UpgradeTimes(n, k - 1))
  }

  /** Repeated upgrades move the level by one per call (with a table) and touch nothing but level and specs. */
  lemma {:induction false} UpgradeTimesLevel<Req, Route>(n: Node<Req, Route>, k: nat)
    ensures UpgradeTimes(n, k).level == n.level + (if n.upgrades.Some? then k else 0)
    ensures UpgradeTimes(n, k) == n.(level := UpgradeTimes(n, k).level, specs := UpgradeTimes(n, k).specs)
    ensures n.upgrades.None? ==> UpgradeTimes(n, k) == n
    decreases k
  {
    if k > 0 {
      UpgradeTimesLevel(n, k - 1);
    }
  }

  /** `upgrade` called N times from level 0 with a table gives level N. */
  lemma UpgradeFromZero<Req, Route>(n: Node<Req, Route>, k: nat)
    requires n.upgrades.Some? && n.level == 0
    ensures UpgradeTimes(n, k).level == k
  {
    UpgradeTimesLevel(n, k);
  }

  /**
   * After k upgrades every spec field holds the value of the latest level that
   * overrode it, or its value before the upgrades when no level did: later
   * bundles supersede earlier ones and unmentioned fields keep their values.
   */
  lemma {:induction false} UpgradeTimesSpecs<Req, Route>(n: Node<Req, Route>, k: nat)
    requires n.upgrades.Some?
    ensures forall f :: (Get(UpgradeTimes(n, k).specs, f) ==
                         LatestValue(n.upgrades.value, n.level, n.level + k, f, Get(n.specs, f)))
    decreases k
  {
    if k > 0 {
      UpgradeTimesSpecs(n, k - 1);
      UpgradeTimesLevel(n, k - 1);
    }
  }

  // ---------------------------------------------------------------------------
  // Connections
  // ---------------------------------------------------------------------------

  /** The input count is within its ceiling. */
  predicate InputsWithinCapacity<Req, Route>(n: Node<Req, Route>) {
    n.connectedInputs <= n.specs.maxInputs
  }

  /** The output count is within its ceiling. */
  predicate OutputsWithinCapacity<Req, Route>(n: Node<Req, Route>) {
    n.connectedOutputs <= n.specs.maxOutputs
  }

  /** `hasAvailableInput`: one more input would still be within the ceiling. */
  predicate HasAvailableInput<Req, Route>(n: Node<Req, Route>): (r: bool)
    ensures r <==> InputsWithinCapacity(n.(connectedInputs := n.connectedInputs + 1))
  {
    n.connectedInputs < n.specs.maxInputs
  }

  /** `hasAvailableOutput`: one more output would still be within the ceiling. */
  predicate HasAvailableOutput<Req, Route>(n: Node<Req, Route>): (r: bool)
    ensures r <==> OutputsWithinCapacity(n.(connectedOutputs := n.connectedOutputs + 1))
  {
    n.connectedOutputs < n.specs.maxOutputs
  }

  /** `addInput`: succeeds and counts one more input exactly when one is free; otherwise changes nothing. */
  function AddInput<Req, Route>(n: Node<Req, Route>): (r: (Node<Req, Route>, bool))
    ensures r.1 <==> n.connectedInputs < n.specs.maxInputs
    ensures r.0 == if r.1 then n.(connectedInputs := n.connectedInputs + 1) else n
  {
    if HasAvailableInput(n) then (n.(connectedInputs := n.connectedInputs + 1), true) else (n, false)
  }

  /** `addOutput`: the same gate on the output side. */
  function AddOutput<Req, Route>(n: Node<Req, Route>): (r: (Node<Req, Route>, bool))
    ensures r.1 <==> n.connectedOutputs < n.specs.maxOutputs
    ensures r.0 == if r.1 then n.(connectedOutputs := n.connectedOutputs + 1) else n
  {
    if HasAvailableOutput(n) then (n.(connectedOutputs := n.connectedOutputs + 1), true) else (n, false)
  }

  /** `removeInput`: one input fewer, stopping at zero; nothing else changes. */
  function RemoveInput<Req, Route>(n: Node<Req, Route>): (r: Node<Req, Route>)
    ensures n.connectedInputs > 0 ==> r.connectedInputs == n.connectedInputs - 1
    ensures n.connectedInputs == 0 ==> r.connectedInputs == 0
    ensures r == n.(connectedInputs := r.connectedInputs)
  {
    n.(connectedInputs := Max(n.connectedInputs - 1, 0))
  }

  /** `removeOutput`: one output fewer, stopping at zero; nothing else changes. */
  function RemoveOutput<Req, Route>(n: Node<Req, Route>): (r: Node<Req, Route>)
    ensures n.connectedOutputs > 0 ==> r.connectedOutputs == n.connectedOutputs - 1
    ensures n.connectedOutputs == 0 ==> r.connectedOutputs == 0
    ensures r == n.(connectedOutputs := r.connectedOutputs)
  {
    n.(connectedOutputs := Max(n.connectedOutputs - 1, 0))
  }

  /** The availability predicates answer exactly whether the matching add would succeed and change the node. */
  lemma AvailablePredictsAdd<Req, Route>(n: Node<Req, Route>)
    ensures HasAvailableInput(n) <==> AddInput(n).1
    ensures HasAvailableInput(n) <==> AddInput(n).0 != n
    ensures HasAvailableOutput(n) <==> AddOutput(n).1
    ensures HasAvailableOutput(n) <==> AddOutput(n).0 != n
  {
  }

  /** `k` successive calls of `addInput`, with the booleans they return in call order. */
  function AddInputTimes<Req, Route>(n: Node<Req, Route>, k: nat): (Node<Req, Route>, seq<bool>)
    decreases k
  {
    if k == 0 then (n, [])
    else
      var prev := AddInputTimes(n, k - 1);
      var step := AddInput(prev.0);
      (step.0, prev.1 + [step.1])
  }

  /**
   * Repeated `addInput` from c connected inputs with room for m: call i (from 0)
   * succeeds exactly when c + i < m, and the count ends at min(c + k, m), or
   * stays at c when it already was at or over m.
   */
  lemma {:induction false} AddInputTimesOutcome<Req, Route>(n: Node<Req, Route>, k: nat)
    ensures |AddInputTimes(n, k).1| == k
    ensures forall i :: 0 <= i < k ==> AddInputTimes(n, k).1[i] == (n.connectedInputs + i < n.specs.maxInputs)
    ensures AddInputTimes(n, k).0.connectedInputs ==
      if n.connectedInputs + k <= n.specs.maxInputs then n.connectedInputs + k
      else Max(n.connectedInputs, n.specs.maxInputs)
    ensures AddInputTimes(n, k).0 == n.(connectedInputs := AddInputTimes(n, k).0.connectedInputs)
    decreases k
  {
    if k > 0 {
      AddInputTimesOutcome(n, k - 1);
    }
  }

  /** Three `addInput` calls from 0 with room for 2 return true, true, false and end at 2. */
  lemma ThreeAddInputs<Req, Route>(n: Node<Req, Route>)
    requires n.connectedInputs == 0 && n.specs.maxInputs == 2
    ensures AddInputTimes(n, 3).1 == [true, true, false]
    ensures AddInputTimes(n, 3).0.connectedInputs == 2
  {
  }

  /** `k` successive calls of `removeInput`. */
  function RemoveInputTimes<Req, Route>(n: Node<Req, Route>, k: nat): Node<Req, Route>
    decreases k
  {
    if k == 0 then n else RemoveInput(RemoveInputTimes(n, k - 1))
  }

  /** However often `removeInput` is called, the count is max(c - k, 0) and only that count changes. */
  lemma {:induction false} RemoveInputTimesSaturates<Req, Route>(n: Node<Req, Route>, k: nat)
    ensures RemoveInputTimes(n, k).connectedInputs == Max(n.connectedInputs - k, 0)
    ensures RemoveInputTimes(n, k) == n.(connectedInputs := RemoveInputTimes(n, k).connectedInputs)
    decreases k
  {
    if k > 0 {
      RemoveInputTimesSaturates(n, k - 1);
    }
  }

  // ---------------------------------------------------------------------------
  // Requests, availability, goal, transmission
  // ---------------------------------------------------------------------------

  /** `enqueue`: the request joins the tail of the incoming queue, whatever the occupancy. */
  function Enqueue<Req, Route>(n: Node<Req, Route>, request: Req): (r: Node<Req, Route>)
    ensures |r.incomingRequestQueue| == |n.incomingRequestQueue| + 1
    ensures r.incomingRequestQueue[..|n.incomingRequestQueue|] == n.incomingRequestQueue
    ensures r.incomingRequestQueue[|n.incomingRequestQueue|] == request
    ensures r == n.(incomingRequestQueue := r.incomingRequestQueue)
  {
    n.(incomingRequestQueue := n.incomingRequestQueue + [request])
  }

  /** Enqueueing several requests one after another. */
  function EnqueueAll<Req, Route>(n: Node<Req, Route>, requests: seq<Req>): Node<Req, Route>
    decreases |requests|
  {
    if requests == [] then n
    else EnqueueAll(Enqueue(n, requests[0]), requests[1..])
  }

  /** The incoming queue keeps arrival order: enqueueing a batch appends it as is. */
  lemma {:induction false} EnqueueAllAppends<Req, Route>(n: Node<Req, Route>, requests: seq<Req>)
    ensures EnqueueAll(n, requests) == n.(incomingRequestQueue := n.incomingRequestQueue + requests)
    decreases |requests|
  {
    if requests != [] {
      EnqueueAllAppends(Enqueue(n, requests[0]), requests[1..]);
      assert [requests[0]] + requests[1..] == requests;
      assert n.incomingRequestQueue + [requests[0]] + requests[1..] == n.incomingRequestQueue + requests;
    }
  }

  /** `getAvailability`: headroom left by the contained requests; positive means room. */
  function Availability<Req, Route>(n: Node<Req, Route>): (r: int)
    ensures r > 0 <==> n.specs.containedRequests < n.specs.requestCapacity
    ensures n.specs.containedRequests + r == n.specs.requestCapacity
  {
    n.specs.requestCapacity - n.specs.containedRequests
  }

  /** `isAvailable`: one more request in processing would still be within the capacity. */
  predicate IsAvailable<Req, Route>(n: Node<Req, Route>): (r: bool)
    ensures r <==> n.specs.numProcessing + 1 <= n.specs.requestCapacity
  {
    n.specs.numProcessing < n.specs.requestCapacity
  }

  /** A node holding as many requests as it can has no headroom. */
  lemma FullNodeHasNoAvailability<Req, Route>(n: Node<Req, Route>)
    requires n.specs.requestCapacity == n.specs.containedRequests
    ensures Availability(n) == 0
  {
  }

  /** The two availability signals agree exactly when their counters agree on the side of the capacity. */
  lemma AvailabilitySignals<Req, Route>(n: Node<Req, Route>)
    ensures (IsAvailable(n) == (Availability(n) > 0)) <==>
      ((n.specs.numProcessing < n.specs.requestCapacity) == (n.specs.containedRequests < n.specs.requestCapacity))
    ensures n.specs.numProcessing == n.specs.containedRequests ==> (IsAvailable(n) <==> Availability(n) > 0)
  {
  }

  /** `setGoal`. */
  function SetGoal<Req, Route>(n: Node<Req, Route>, goal: int): (r: Node<Req, Route>)
    ensures r.goal == Some(goal) && !r.goalMet
    ensures r == n.(goal := r.goal, goalMet := r.goalMet)
  {
    n.(goal := Some(goal), goalMet := false)
  }

  /** `setTransmitFunc`: only the stored reference changes. */
  function SetTransmitFunc<Req, Route>(n: Node<Req, Route>, transmitFunc: Route): (r: Node<Req, Route>)
    ensures r.transmitFunc == transmitFunc
    ensures r == n.(transmitFunc := r.transmitFunc)
  {
    n.(transmitFunc := transmitFunc)
  }

  // ---------------------------------------------------------------------------
  // Resets
  // ---------------------------------------------------------------------------

  /** `softReset`: clears the session counters, the goal and the incoming queue; keeps everything else. */
  function SoftReset<Req, Route>(n: Node<Req, Route>): (r: Node<Req, Route>)
    ensures r.numTransmitted == 0 && r.numReceived == 0
    ensures r.goal == None && !r.goalMet
    ensures r.incomingRequestQueue == []
    ensures r == n.(numTransmitted := r.numTransmitted, numReceived := r.numReceived, goal := r.goal,
                    goalMet := r.goalMet, incomingRequestQueue := r.incomingRequestQueue)
  {
    n.(numTransmitted := 0, numReceived := 0, goal := None, goalMet := false, incomingRequestQueue := [])
  }

  /** `hardReset`: a soft reset, both connection counts to zero, level to 0, then one `upgrade`. */
  function HardReset<Req, Route>(n: Node<Req, Route>): (r: Node<Req, Route>)
    ensures r.level == if n.upgrades.Some? then 1 else 0
    ensures r.connectedInputs == 0 && r.connectedOutputs == 0
    ensures r.numTransmitted == 0 && r.numReceived == 0
    ensures r.goal == None && !r.goalMet
    ensures r.incomingRequestQueue == []
    ensures r.specs == if n.upgrades.Some? then AtLevel(n.upgrades.value, 1, n.specs) else n.specs
    ensures r == n.(level := r.level, connectedInputs := 0, connectedOutputs := 0,
                    numTransmitted := 0, numReceived := 0, goal := None, goalMet := false,
                    incomingRequestQueue := [], specs := r.specs)
  {
    Upgrade(SoftReset(n).(connectedInputs := 0, connectedOutputs := 0, level := 0))
  }

  lemma SoftResetIdempotent<Req, Route>(n: Node<Req, Route>)
    ensures SoftReset(SoftReset(n)) == SoftReset(n)
  {
  }

  lemma HardResetIdempotent<Req, Route>(n: Node<Req, Route>)
    ensures HardReset(HardReset(n)) == HardReset(n)
  {
  }

  /** The level-1 bundle of the table exists and mentions `f`. */
  predicate CoveredAtLevelOne(upgrades: Option<UpgradeTable>, f: Field) {
    upgrades.Some? && Overrides(upgrades.value, 1, f)
  }

  /**
   * `hardReset` re-applies only the level-1 bundle on top of the current specs,
   * so it restores the specs of a fresh construction from `config` exactly
   * when every field that differs from the base specs is rewritten by level 1.
   */
  lemma HardResetSpecsVersusConstruction<Req, Route>(n: Node<Req, Route>, config: Config)
    requires n.upgrades == config.upgrades
    ensures HardReset(n).specs == Create<Req, Route>(n.id, n.name, config, n.transmitFunc).specs <==>
      forall f :: Get(n.specs, f) == Get(config.specs, f) || CoveredAtLevelOne(config.upgrades, f)
  {
    var built := Create<Req, Route>(n.id, n.name, config, n.transmitFunc);
    if forall f :: Get(n.specs, f) == Get(config.specs, f) || CoveredAtLevelOne(config.upgrades, f) {
      forall f ensures Get(HardReset(n).specs, f) == Get(built.specs, f) {
      }
      SpecsExtensional(HardReset(n).specs, built.specs);
    }
  }

  /**
   * With the returning queue empty and every changed spec field covered by the
   * level-1 bundle, `hardReset` gives exactly the freshly constructed node.
   */
  lemma HardResetMatchesConstruction<Req, Route>(n: Node<Req, Route>, config: Config)
    requires n.upgrades == config.upgrades && n.returningRequestQueue == []
    requires forall f :: Get(n.specs, f) == Get(config.specs, f) || CoveredAtLevelOne(config.upgrades, f)
    ensures HardReset(n) == Create(n.id, n.name, config, n.transmitFunc)
  {
    HardResetSpecsVersusConstruction(n, config);
  }

  // ---------------------------------------------------------------------------
  // The connection ceilings
  // ---------------------------------------------------------------------------

  /**
   * Every operation except `upgrade` and `hardReset` keeps the input count
   * within its ceiling, whatever the output side looks like.
   */
  lemma InputCapacityPreserved<Req, Route>(n: Node<Req, Route>, request: Req, goal: int, transmitFunc: Route)
    requires InputsWithinCapacity(n)
    ensures InputsWithinCapacity(AddInput(n).0) && InputsWithinCapacity(AddOutput(n).0)
    ensures InputsWithinCapacity(RemoveInput(n)) && InputsWithinCapacity(RemoveOutput(n))
    ensures InputsWithinCapacity(Enqueue(n, request)) && InputsWithinCapacity(SetGoal(n, goal))
    ensures InputsWithinCapacity(SetTransmitFunc(n, transmitFunc)) && InputsWithinCapacity(SoftReset(n))
  {
  }

  /**
   * Every operation except `upgrade` and `hardReset` keeps the output count
   * within its ceiling, whatever the input side looks like.
   */
  lemma OutputCapacityPreserved<Req, Route>(n: Node<Req, Route>, request: Req, goal: int, transmitFunc: Route)
    requires OutputsWithinCapacity(n)
    ensures OutputsWithinCapacity(AddInput(n).0) && OutputsWithinCapacity(AddOutput(n).0)
    ensures OutputsWithinCapacity(RemoveInput(n)) && OutputsWithinCapacity(RemoveOutput(n))
    ensures OutputsWithinCapacity(Enqueue(n, request)) && OutputsWithinCapacity(SetGoal(n, goal))
    ensures OutputsWithinCapacity(SetTransmitFunc(n, transmitFunc)) && OutputsWithinCapacity(SoftReset(n))
  {
  }

  /**
   * `hardReset` sets both counts to 0, so each count ends within its ceiling
   * exactly when that ceiling, after the level-1 bundle, is not negative.
   */
  lemma HardResetCapacity<Req, Route>(n: Node<Req, Route>)
    ensures InputsWithinCapacity(HardReset(n)) <==> HardReset(n).specs.maxInputs >= 0
    ensures OutputsWithinCapacity(HardReset(n)) <==> HardReset(n).specs.maxOutputs >= 0
  {
  }

  /** `upgrade` does not re-check the counts: a bundle lowering `maxInputs` below the count breaks the ceiling. */
  lemma UpgradeMayBreakCapacity<Req, Route>(n: Node<Req, Route>)
    requires n.upgrades.Some? && Overrides(n.upgrades.value, n.level + 1, MaxInputs)
    requires n.upgrades.value[n.level + 1].maxInputs.value < n.connectedInputs
    ensures !InputsWithinCapacity(Upgrade(n))
  {
  }
}
