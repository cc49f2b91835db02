/** A reference semantics for the launcher, independent of its control flow.

    A `Plan` is the ordered list of candidate actions the launcher would
    attempt for a given host, configuration and target; it does not depend
    on the environment's responses. Each step says whether an `IOException`
    from its action is swallowed (the next step is then tried) or escapes.
    `Execute` runs a plan against an oracle.
 */
module Plans {
  import opened Effects

  datatype Step = Step(action: Action, swallowsIo: bool)

  /** `NoStrategy`: the launcher throws `UnsupportedOperationException`
      without attempting anything. */
  datatype Plan = NoStrategy | Attempt(steps: seq<Step>)

  function Actions(steps: seq<Step>): seq<Action>
  {
    seq(|steps|, i requires 0 <= i < |steps| => steps[i].action)
  }

  /** A step ends the run unless its action threw an `IOException` that the
      step swallows. */
  predicate Stops(s: Step, oracle: Oracle)
  {
    !(s.swallowsIo && oracle(s.action) == Throws(IOException))
  }

  /** Attempt the steps in order until one stops the run. The contract is a
      complete description of the result: the trace is the shortest prefix
      of the plan that ends in a stopping step (or the whole plan), and the
      call raises exactly when that last step stopped with an exception. */
  function RunSteps(steps: seq<Step>, oracle: Oracle): (r: Run)
    ensures IsPrefix(r.trace, Actions(steps))
    ensures steps != [] ==> r.trace != []
    ensures forall i :: 0 <= i < |r.trace| - 1 ==> !Stops(steps[i], oracle)
    ensures 0 < |r.trace| < |steps| ==> Stops(steps[|r.trace| - 1], oracle)
    ensures r.outcome.Raised? <==>
              (&& 0 < |r.trace|
               && Stops(steps[|r.trace| - 1], oracle)
               && oracle(steps[|r.trace| - 1].action).Throws?)
    ensures r.outcome.Raised? ==>
              r.outcome == Raised(steps[|r.trace| - 1].action, oracle(steps[|r.trace| - 1].action).exception)
    ensures !r.outcome.Unsupported?
    decreases |steps|
  {
    if steps == [] then Run([], Returned)
    else
      var a := steps[0].action;
      match oracle(a)
      case Ok => Run([a], Returned)
      case Throws(e) =>
        if e == IOException && steps[0].swallowsIo then
          var rest := RunSteps(steps[1..], oracle);
          Run([a] + rest.trace, rest.outcome)
        else
          Run([a], Raised(a, e))
  }

  /** Run a plan. Every run it produces is consistent with the oracle, and it
      gives up with `Unsupported` exactly when the plan has no strategy. */
  function Execute(plan: Plan, oracle: Oracle): (r: Run)
    ensures Consistent(r, oracle)
    ensures r.outcome.Unsupported? <==> plan.NoStrategy?
    ensures plan.Attempt? ==> IsPrefix(r.trace, Actions(plan.steps))
  {
    match plan
    case NoStrategy => Run([], Unsupported)
    case Attempt(steps) => RunSteps(steps, oracle)
  }

  /** The run depends on the oracle only through its answers to the actions
      actually attempted: two environments that agree on those produce the
      same run. */
  lemma {:induction false} OnlyAttemptedActionsMatter(steps: seq<Step>, o1: Oracle, o2: Oracle)
    requires forall i :: 0 <= i < |RunSteps(steps, o1).trace| ==>
               o1(RunSteps(steps, o1).trace[i]) == o2(RunSteps(steps, o1).trace[i])
    ensures RunSteps(steps, o1) == RunSteps(steps, o2)
    decreases |steps|
  {
    if steps != [] {
      var a := steps[0].action;
      assert RunSteps(steps, o1).trace[0] == a;
      if o1(a).Throws? && o1(a).exception == IOException && steps[0].swallowsIo {
        var rest := RunSteps(steps[1..], o1);
        assert RunSteps(steps, o1).trace == [a] + rest.trace;
        forall i | 0 <= i < |rest.trace|
          ensures o1(rest.trace[i]) == o2(rest.trace[i])
        {
          assert rest.trace[i] == RunSteps(steps, o1).trace[i + 1];
        }
        OnlyAttemptedActionsMatter(steps[1..], o1, o2);
      }
    }
  }

  /** Whatever the environment, the candidates are attempted in the same
      fixed order: of two runs of one plan, one trace extends the other. */
  lemma CandidateOrderIsFixed(plan: Plan, o1: Oracle, o2: Oracle)
    ensures IsPrefix(Execute(plan, o1).trace, Execute(plan, o2).trace)
         || IsPrefix(Execute(plan, o2).trace, Execute(plan, o1).trace)
  {
  }
}
