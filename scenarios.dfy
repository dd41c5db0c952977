/**
 * The repository's test scenarios, replayed on the model: each method builds
 * the objects its test builds, and its postcondition is what the test
 * asserts, proved from the contracts of the modelled operations.
 */
module Scenarios {
  import opened Base
  import opened Spec
  import opened Executors
  import opened Factories
  import opened Builder
  import opened Orchestrator

  /** The factory tests' executor: it answers "ok" with the step's name as the message. */
  function Sample(): Behaviour {
    Double((req: StepRequest) => Success(StepResponse(Ok, VDict([("message", VStr(req.name))]), None, None, None, None)))
  }

  /** The orchestrator tests' recording executor: it answers "ok" with the message "recorded". */
  function Recording(): Behaviour {
    Double((req: StepRequest) => Success(StepResponse(Ok, VDict([("message", VStr("recorded"))]), None, None, None, None)))
  }

  /** A singleton registration hands out the same object on every `create`. */
  method SingletonReusesInstance() returns (first: Result<Executor>, second: Result<Executor>)
    ensures first.Success? && second == first
  {
    var factory := new ExecutorFactory();
    var _ := factory.RegisterSingleton(Shell, Sample(), false);
    first := factory.Create(Shell);
    second := factory.Create(Shell);
  }

  /** A factory registration builds a new object on every `create`. */
  method FactoryCreatesNewInstances() returns (first: Result<Executor>, second: Result<Executor>)
    ensures first.Success? && second.Success? && first.value != second.value
  {
    var factory := new ExecutorFactory();
    var _ := factory.RegisterFactory(Shell, Sample(), false);
    first := factory.Create(Shell);
    second := factory.Create(Shell);
  }

  /** An instance registration hands back the very object registered. */
  method InstanceIsReturned() returns (executor: Executor, created: Result<Executor>)
    ensures created == Success(executor)
  {
    executor := new Executor(Sample());
    var factory := new ExecutorFactory();
    var _ := factory.RegisterInstance(Python, executor, false);
    created := factory.Create(Python);
  }

  /** The default factory's LLM executor is the stand-in, and it answers "ok". */
  method DefaultProvidesLLM() returns (created: Result<Executor>, response: Result<StepResponse>)
    ensures created.Success? && created.value.behaviour == LLMStandIn
    ensures response.Success? && response.value.status == Ok
  {
    var factory := ExecutorFactory.Default();
    DefaultRegistersOnlyLLM(LLM);
    created := factory.Create(LLM);
    response := Execute(created.value.behaviour, StepRequest(1, "Default", LLM, "demo", VStr(""), "", []));
  }

  /** Creating a kind nobody registered raises the lookup error naming the kind. */
  method MissingRegistrationRaises() returns (created: Result<Executor>)
    ensures created == Failure(NoExecutorForKind("shell"))
  {
    var factory := new ExecutorFactory();
    created := factory.Create(Shell);
  }

  /** The builder compiles its goal, memory path, one task and one step. */
  method BuilderProducesSpec() returns (compiled: Result<WorkflowSpec>)
    ensures compiled.Success?
    ensures compiled.value.goal == "Ship a demo workflow" && compiled.value.memoryFile == "memory.md"
    ensures |compiled.value.tasks| == 1 && |compiled.value.steps| == 1
  {
    var builder := new WorkflowBuilder();
    builder.WithGoal("Ship a demo workflow");
    builder.Memory("memory.md");
    var _ := builder.RegisterTask("notes", None, Some("Remember to check inputs"));
    // The configuration's value is the float 0.2, which the model keeps opaque (and truthy).
    var _ := builder.AddStep("Gather", LLM, "Collect requirements", ["notes"], Some("{{ context }}"),
                             [("temperature", VOther(0, true))], [], None);
    compiled := builder.Compile();
  }

  /** The orchestrator tests' workflow: one task and one step of the given name and kind. */
  method OneStepWorkflow(goal: string, name: string, kind: StepKind, doc: string) returns (spec: WorkflowSpec)
    requires goal != ""
    ensures spec.memoryFile == "memory.md"
    ensures spec.steps == [StepSpec(1, name, kind, doc, [], None, [], [], None)]
  {
    var builder := new WorkflowBuilder();
    builder.WithGoal(goal);
    builder.Memory("memory.md");
    var _ := builder.RegisterTask("notes", None, Some("Remember to check output"));
    var _ := builder.AddStep(name, kind, doc, [], None, [], [], None);
    var compiled := builder.Compile();
    spec := compiled.value;
  }

  /** A run over a single step whose executor answers without a "fail" is that step's pass. */
  lemma SingleAnsweredStep(step: StepSpec, table: map<StepKind, Behaviour>, memory: string, render: Value -> string)
    requires step.kind in table
    requires Execute(table[step.kind], BuildRequest(step, memory)).Success?
    requires Execute(table[step.kind], BuildRequest(step, memory)).value.status != Fail
    ensures var r := RunSteps([step], table, memory, render);
      var resp := Execute(table[step.kind], BuildRequest(step, memory)).value;
      r.responses == [resp] && r.raised == None && r.executed == [BuildRequest(step, memory)] &&
      r.memory == memory + LineFor(step.name, resp, render) + "\n"
  {
    assert [step][1..] == [];
  }

  /** `WorkflowOrchestrator(spec)`: the default factory, whose only registration is the LLM stand-in. */
  method DefaultOrchestrator(spec: WorkflowSpec, render: Value -> string) returns (o: WorkflowOrchestrator)
    ensures fresh(o) && fresh(o.factory.container) && o.spec == spec && o.render == render && o.memory == ""
    ensures o.factory.container.Valid() && LLM in o.Table() && o.Table()[LLM] == LLMStandIn
  {
    o := new WorkflowOrchestrator(spec, map[], None, render, "");
    o.TableEntry(LLM);
  }

  /** With the default registrations, one LLM step yields one response and logs its name. */
  method OrchestratorWritesMemory() returns (responses: seq<StepResponse>, raised: Option<Error>, memory: string)
    ensures |responses| == 1 && raised == None
    ensures memory == "- Demo: Demo" + SynthesizedSuffix + "\n"
  {
    var spec := OneStepWorkflow("Exercise orchestrator", "Demo", LLM, "Demo step");
    var render: Value -> string := v => "";
    var orchestrator := DefaultOrchestrator(spec, render);
    SingleAnsweredStep(spec.steps[0], orchestrator.Table(), "", render);
    LLMSummaryLine(spec.steps[0], "", render);
    DemoLine();
    responses, raised := orchestrator.Run();
    memory := orchestrator.memory;
  }

  /** `WorkflowOrchestrator(spec, executors={kind: executor})`. */
  method MappedOrchestrator(spec: WorkflowSpec, kind: StepKind, executor: Executor, render: Value -> string)
    returns (o: WorkflowOrchestrator)
    ensures fresh(o) && fresh(o.factory.container) && o.spec == spec && o.render == render && o.memory == ""
    ensures o.factory.container.Valid()
    ensures kind in o.Table() && o.Table()[kind] == executor.behaviour
    ensures kind in o.CachedNow() && o.CachedNow()[kind] == executor
  {
    o := new WorkflowOrchestrator(spec, map[kind := executor], None, render, "");
    o.TableEntry(kind);
    o.CachedEntry(kind);
  }

  /** `WorkflowOrchestrator(spec, executor_factory=factory)`, the factory holding `executor` as the instance for `kind`. */
  method FactoryOrchestrator(spec: WorkflowSpec, kind: StepKind, executor: Executor, render: Value -> string)
    returns (o: WorkflowOrchestrator)
    ensures fresh(o) && fresh(o.factory.container) && o.spec == spec && o.render == render && o.memory == ""
    ensures o.factory.container.Valid()
    ensures kind in o.Table() && o.Table()[kind] == executor.behaviour
    ensures kind in o.CachedNow() && o.CachedNow()[kind] == executor
  {
    var factory := new ExecutorFactory();
    var _ := factory.RegisterInstance(kind, executor, false);
    o := new WorkflowOrchestrator(spec, map[], Some(factory), render, "");
    o.TableEntry(kind);
    o.CachedEntry(kind);
  }

  /**
   * A run of a one-step workflow whose executor is the cached `recording`:
   * one response, and `recording` received exactly one request.
   */
  method RunRecorded(o: WorkflowOrchestrator, recording: Executor)
    returns (responses: seq<StepResponse>, raised: Option<Error>)
    requires o.factory.container.Valid() && o.memory == "" && |o.spec.steps| == 1
    requires recording.behaviour == Recording()
    requires o.spec.steps[0].kind in o.Table() && o.Table()[o.spec.steps[0].kind] == recording.behaviour
    requires o.spec.steps[0].kind in o.CachedNow() && o.CachedNow()[o.spec.steps[0].kind] == recording
    modifies o, o.factory.container
    ensures |responses| == 1 && raised == None
    ensures responses[0].result == VDict([("message", VStr("recorded"))])
    ensures |o.calls| == 1 && o.calls[0].0 == recording
  {
    var step := o.spec.steps[0];
    assert o.spec.steps == [step];
    SingleAnsweredStep(step, o.Table(), "", o.render);
    responses, raised := o.Run();
  }

  /** An executor given in the mapping overrides the default LLM registration and is called once. */
  method ExplicitMappingIsUsed() returns (responses: seq<StepResponse>, raised: Option<Error>, recording: Executor,
                                          ghost calls: seq<(Executor, StepRequest)>)
    ensures |responses| == 1 && raised == None
    ensures responses[0].result == VDict([("message", VStr("recorded"))])
    ensures |calls| == 1 && calls[0].0 == recording
  {
    var spec := OneStepWorkflow("Override executor", "Demo", LLM, "Demo step");
    recording := new Executor(Recording());
    var orchestrator := MappedOrchestrator(spec, LLM, recording, v => "");
    responses, raised := RunRecorded(orchestrator, recording);
    calls := orchestrator.calls;
  }

  /** An executor registered with a factory for another kind is the one the run calls, once. */
  method FactoryKindIsUsed() returns (responses: seq<StepResponse>, raised: Option<Error>, recording: Executor,
                                      ghost calls: seq<(Executor, StepRequest)>)
    ensures |responses| == 1 && raised == None
    ensures responses[0].result == VDict([("message", VStr("recorded"))])
    ensures |calls| == 1 && calls[0].0 == recording
  {
    var spec := OneStepWorkflow("Use shell executor", "Shell", Shell, "Shell step");
    recording := new Executor(Recording());
    var orchestrator := FactoryOrchestrator(spec, Shell, recording, v => "");
    responses, raised := RunRecorded(orchestrator, recording);
    calls := orchestrator.calls;
  }

  lemma DemoLine()
    ensures "" + ("- " + "Demo" + ": " + "Demo" + SynthesizedSuffix) + "\n" == "- Demo: Demo" + SynthesizedSuffix + "\n"
  {
    assert "- " + "Demo" + ": " + "Demo" == "- Demo: Demo";
  }
}
