/**
 * Execution strategies for workflow steps: the deterministic stand-in for a
 * language model, the two placeholder executors that always raise, and any
 * other object with an `execute(request)` method (a test double, say).
 */
module Executors {
  import opened Base
  import opened Spec

  /**
   * What an executor does with a request.  `Double` stands for any other
   * object satisfying the executor protocol, described by what its
   * `execute` does with each request: return a response, or raise.
   */
  datatype Behaviour =
    | LLMStandIn
    | ShellStub
    | PythonStub
    | Double(respond: StepRequest -> Result<StepResponse>)

  /**
   * An executor object.  Distinct `Executor` references are distinct Python
   * objects, which is what `is` / `is not` compare.
   */
  class Executor {
    const behaviour: Behaviour

    constructor (b: Behaviour)
      ensures behaviour == b
    {
      behaviour := b;
    }
  }

  const SynthesizedSuffix: string := " :: synthesized response"

  /** `LLMExecutor.execute`: a canned answer built from the request's name and input. */
  function LLMRespond(req: StepRequest): StepResponse {
    var message := req.name + SynthesizedSuffix;
    StepResponse(Ok, VDict([("message", VStr(message)), ("echo", req.input)]), Some("good"), None, None, None)
  }

  /**
   * The stand-in always succeeds with quality "good", and its result is a
   * mapping with exactly the keys `message` (the step name followed by the
   * fixed suffix) and `echo` (the request's input).
   */
  lemma LLMResponseShape(req: StepRequest)
    ensures var r := LLMRespond(req);
      r.status == Ok && r.quality == Some("good") &&
      r.result.VDict? && Keys(r.result.entries) == ["message", "echo"] &&
      Get(r.result.entries, "message") == Some(VStr(req.name + SynthesizedSuffix)) &&
      Get(r.result.entries, "echo") == Some(req.input) &&
      r.artifacts == None && r.nextStep == None && r.error == None
  {
    assert Keys(LLMRespond(req).result.entries) == ["message", "echo"];
  }

  /**
   * `executor.execute(request)`: the stubs raise `NotImplementedError`
   * whatever the request, the stand-in never raises, and any other
   * executor raises exactly when its own `execute` does.
   */
  function Execute(b: Behaviour, req: StepRequest): (r: Result<StepResponse>)
    ensures r.Failure? <==> b.ShellStub? || b.PythonStub? || (b.Double? && b.respond(req).Failure?)
    ensures b.ShellStub? || b.PythonStub? ==> r == Failure(NotImplemented)
    ensures b.LLMStandIn? ==> r == Success(LLMRespond(req))
    ensures b.Double? ==> r == b.respond(req)
  {
    match b
    case LLMStandIn => Success(LLMRespond(req))
    case ShellStub => Failure(NotImplemented)
    case PythonStub => Failure(NotImplemented)
    case Double(respond) => respond(req)
  }

  /**
   * The stand-in reads nothing of the request but its name and input: two
   * requests that agree on those get equal responses, whatever their step id,
   * correlation id, memory text or configuration.
   */
  lemma LLMDependsOnNameAndInput(a: StepRequest, b: StepRequest)
    requires a.name == b.name && a.input == b.input
    ensures Execute(LLMStandIn, a) == Execute(LLMStandIn, b)
  {
  }

  /** Different step names give different stand-in messages. */
  lemma LLMMessageNamesTheStep(a: StepRequest, b: StepRequest)
    requires a.name != b.name
    ensures Get(LLMRespond(a).result.entries, "message") != Get(LLMRespond(b).result.entries, "message")
  {
    LLMResponseShape(a);
    LLMResponseShape(b);
    if a.name + SynthesizedSuffix == b.name + SynthesizedSuffix {
      SuffixCancels(a.name, b.name, SynthesizedSuffix);
    }
  }

  lemma SuffixCancels(x: string, y: string, suffix: string)
    requires x + suffix == y + suffix
    ensures x == y
  {
    assert |x| == |y|;
    assert x == (x + suffix)[..|x|];
    assert y == (y + suffix)[..|y|];
  }
}
