/**
 * The component object itself: a class whose fields are the JavaScript
 * object's fields and whose methods update them in place. Each method's new
 * state is tied to the matching function of NodeModel, where the properties
 * are proved.
 */
module Component {
  import opened Wrappers
  import opened Configuration
  import NodeModel

  class LogicComponent<Req, Route> {
    const id: string
    const name: string
    var level: nat
    var connectedInputs: nat
    var connectedOutputs: nat
    var numTransmitted: nat
    var numReceived: nat
    /** Requests waiting at this component, in arrival order. */
    var incomingRequestQueue: seq<Req>
    /** Responses travelling back through this component. */
    var returningRequestQueue: seq<Req>
    /** Supplies the next component for a request; only stored here. */
    var transmitFunc: Route
    var goal: Option<int>
    var goalMet: bool
    /** The capacity fields merged from the configuration and the upgrade bundles. */
    var specs: Specs
    const upgrades: Option<UpgradeTable>
    /** Every request whose `pendingProcessing` hook this component has called, in call order. */
    ghost var notified: seq<Req>

    /** The component's state as a NodeModel value. */
    function State(): NodeModel.Node<Req, Route>
      reads this
    {
      NodeModel.Node(id, name, level, connectedInputs, connectedOutputs, numTransmitted, numReceived,
                     incomingRequestQueue, returningRequestQueue, transmitFunc, goal, goalMet, specs, upgrades)
    }

    constructor (id: string, name: string, config: Config, transmission: Route)
      ensures State() == NodeModel.Create(id, name, config, transmission)
      ensures notified == []
    {
      this.id := id;
      this.name := name;
      level := 0;
      connectedInputs := 0;
      connectedOutputs := 0;
      numTransmitted := 0;
      numReceived := 0;
      incomingRequestQueue := [];
      returningRequestQueue := [];
      transmitFunc := transmission;
      goal := None;
      goalMet := false;
      specs := config.specs;
      upgrades := config.upgrades;
      notified := [];
      new;
      Upgrade();
    }

    method SetGoal(goal: int)
      modifies this`goal, this`goalMet
      ensures State() == NodeModel.SetGoal(old(State()), goal)
    {
      this.goal := Some(goal);
      goalMet := false;
    }

    method SetTransmitFunc(transmitFunc: Route)
      modifies this`transmitFunc
      ensures State() == NodeModel.SetTransmitFunc(old(State()), transmitFunc)
    {
      this.transmitFunc := transmitFunc;
    }

    method Upgrade()
      modifies this`level, this`specs
      ensures State() == NodeModel.Upgrade(old(State()))
    {
      if upgrades.Some? {
        level := level + 1;
        if level in upgrades.value {
          specs := Overlay(specs, upgrades.value[level]);
        }
      }
    }

    method AddInput() returns (ok: bool)
      modifies this`connectedInputs
      ensures (State(), ok) == NodeModel.AddInput(old(State()))
    {
      if HasAvailableInput() {
        connectedInputs := connectedInputs + 1;
        return true;
      }
      return false;
    }

    method AddOutput() returns (ok: bool)
      modifies this`connectedOutputs
      ensures (State(), ok) == NodeModel.AddOutput(old(State()))
    {
      if HasAvailableOutput() {
        connectedOutputs := connectedOutputs + 1;
        return true;
      }
      return false;
    }

    method RemoveInput()
      modifies this`connectedInputs
      ensures State() == NodeModel.RemoveInput(old(State()))
    {
      connectedInputs := NodeModel.Max(connectedInputs - 1, 0);
    }

    method RemoveOutput()
      modifies this`connectedOutputs
      ensures State() == NodeModel.RemoveOutput(old(State()))
    {
      connectedOutputs := NodeModel.Max(connectedOutputs - 1, 0);
    }

    predicate HasAvailableInput()
      reads this
      ensures HasAvailableInput() <==> NodeModel.HasAvailableInput(State())
    {
      connectedInputs < specs.maxInputs
    }

    predicate HasAvailableOutput()
      reads this
      ensures HasAvailableOutput() <==> NodeModel.HasAvailableOutput(State())
    {
      connectedOutputs < specs.maxOutputs
    }

    /** Notifies the request once, then queues it; there is no capacity check. */
    method Enqueue(request: Req)
      modifies this`incomingRequestQueue, this`notified
      ensures State() == NodeModel.Enqueue(old(State()), request)
      ensures notified == old(notified) + [request]
    {
      notified := notified + [request];
      incomingRequestQueue := incomingRequestQueue + [request];
    }

    function GetAvailability(): (r: int)
      reads this
      ensures r == NodeModel.Availability(State())
    {
      specs.requestCapacity - specs.containedRequests
    }

    predicate IsAvailable()
      reads this
      ensures IsAvailable() <==> NodeModel.IsAvailable(State())
    {
      specs.numProcessing < specs.requestCapacity
    }

    method SoftReset()
      modifies this`numTransmitted, this`numReceived, this`goal, this`goalMet, this`incomingRequestQueue
      ensures State() == NodeModel.SoftReset(old(State()))
    {
      numTransmitted := 0;
      numReceived := 0;
      goal := None;
      goalMet := false;
      incomingRequestQueue := [];
    }

    method HardReset()
      modifies this`numTransmitted, this`numReceived, this`goal, this`goalMet, this`incomingRequestQueue
      modifies this`connectedInputs, this`connectedOutputs, this`level, this`specs
      ensures State() == NodeModel.HardReset(old(State()))
    {
      SoftReset();
      connectedInputs := 0;
      connectedOutputs := 0;
      level := 0;
      Upgrade();
    }
  }

  /**
   * A caller's view: built with room for two inputs and no upgrade table, a
   * component accepts two inputs, refuses the third, and after three removals
   * is back at zero.
   */
  method ConnectionScenario<Req, Route>(transmission: Route) returns (results: seq<bool>, inputs: nat)
    ensures results == [true, true, false]
    ensures inputs == 0
  {
    var c := new LogicComponent<Req, Route>("c", "client", Config(Specs(2, 1, 1, 0, 0), None), transmission);
    var a := c.AddInput();
    var b := c.AddInput();
    var d := c.AddInput();
    results := [a, b, d];
    c.RemoveInput();
    c.RemoveInput();
    c.RemoveInput();
    inputs := c.connectedInputs;
  }

  /**
   * A caller's view of the missing capacity check: a component with room for
   * one request queues both of two requests, notifies both in order, and its
   * headroom, which counts contained requests, is not affected.
   */
  method OverfullEnqueueScenario<Req, Route>(transmission: Route, first: Req, second: Req)
    returns (queue: seq<Req>, availability: int)
    ensures queue == [first, second]
    ensures availability == 1
  {
    var c := new LogicComponent<Req, Route>("p", "processor", Config(Specs(1, 1, 1, 0, 0), None), transmission);
    c.Enqueue(first);
    c.Enqueue(second);
    assert c.notified == [first, second];
    queue := c.incomingRequestQueue;
    availability := c.GetAvailability();
  }
}
