/** What the guarantees over reachable states say about a runtime object that takes the steps in place. */
module Executions {
  import opened Lifecycle
  import opened Scheduler
  import opened SchedulerInvariant
  import opened Guarantees
  import opened AgentRuntimes

  /** Any possible sequence of steps, performed in place. */
  method Drive(runtime: AgentRuntime, steps: seq<Step>)
    requires runtime.Valid() && Possible(runtime.Model(), steps)
    modifies runtime, runtime.queue, runtime.fsm, runtime.all
    ensures runtime.Valid() && runtime.Model() == After(old(runtime.Model()), steps)
  {
    hide AgentRuntime.Valid, AgentRuntime.Model, Next, Enabled;
    assert steps[0..] == steps;
    var i := 0;
    while i < |steps|
      invariant 0 <= i <= |steps| && runtime.Valid()
      invariant Possible(runtime.Model(), steps[i..])
      invariant After(runtime.Model(), steps[i..]) == After(old(runtime.Model()), steps)
      invariant |old(runtime.all)| <= |runtime.all|
      invariant forall j :: 0 <= j < |old(runtime.all)| ==> runtime.all[j] == old(runtime.all)[j]
      invariant forall j :: |old(runtime.all)| <= j < |runtime.all| ==> fresh(runtime.all[j])
    {
      assert steps[i..][0] == steps[i] && steps[i..][1..] == steps[i + 1..];
      ghost var known := runtime.all;
      runtime.Perform(steps[i]);
      assert forall j :: |known| <= j < |runtime.all| ==> runtime.all[j] == runtime.all[|known|..][j - |known|];
      i := i + 1;
    }
  }

  /** A new runtime over any queue, driven through any run of the system, keeps the invariant and its limits. */
  method DriveFromStart(config: Config, capacity: nat, steps: seq<Step>) returns (runtime: AgentRuntime)
    requires ValidConfig(config) && capacity > 0
    requires Reaches(config, capacity, steps)
    ensures runtime.Valid() && runtime.Model() == StateAfter(config, capacity, steps)
    ensures Inv(runtime.Model())
    ensures |runtime.runs| <= RegistryLimit(config, capacity)
    ensures config.maxConcurrency + capacity <= config.maxRunRecords ==> |runtime.runs| <= config.maxRunRecords
    ensures 0 <= runtime.active <= config.maxConcurrency
    ensures forall id :: id in runtime.runs ==>
      && id in runtime.completionEvents
      && (runtime.completionEvents[id] <==> Terminal(runtime.runs[id].state))
      && (runtime.runs[id].finishedAt.Some? <==> Terminal(runtime.runs[id].state))
  {
    hide Inv, After, Possible;
    var queue := new InMemoryTaskQueue(capacity);
    runtime := new AgentRuntime(config, queue);
    Drive(runtime, steps);
    ReachableInv(config, capacity, steps);
    RegistryBound(config, capacity, steps);
    ConcurrencyBounded(config, capacity, steps);
    assert |runtime.runs| == |runtime.Model().runs|;
    forall id | id in runtime.runs
      ensures id in runtime.completionEvents
      ensures runtime.completionEvents[id] <==> Terminal(runtime.runs[id].state)
      ensures runtime.runs[id].finishedAt.Some? <==> Terminal(runtime.runs[id].state)
    {
      CompletionIsExact(config, capacity, steps, id);
      ValueAt(runtime.all, id);
    }
  }
}
