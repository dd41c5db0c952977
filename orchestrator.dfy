/**
 * The orchestrator: runs a workflow's steps in order, handing each one's
 * request to the executor registered for its kind, and appends one summary
 * line per executed step to the memory file.  It stops after the first step
 * whose response has status "fail".
 *
 * `RunSteps` is the reference definition of a run; the orchestrator's `Run`
 * method is proved to follow it, and the lemmas below state what a run does.
 */
module Orchestrator {
  import opened Base
  import opened Spec
  import opened Executors
  import opened Factories

  // ---------------------------------------------------------------------------
  // Memory lines and requests
  // ---------------------------------------------------------------------------

  /**
   * How a value prints inside an f-string: a string as itself, anything else
   * through `render`, which stands for Python's `str`.
   */
  function Text(v: Value, render: Value -> string): string {
    if v.VStr? then v.s else render(v)
  }

  /** The `message` entry of a result, when the result is a mapping and the entry is truthy. */
  function TruthyMessage(result: Value): Option<Value> {
    if result.VDict? then
      match Get(result.entries, "message")
      case Some(m) => if Truthy(m) then Some(m) else None
      case None => None
    else None
  }

  /**
   * `_format_summary`: `- name: message`, where the message is the result's
   * truthy `message` entry, or else the whole result printed.
   */
  function FormatSummary(name: string, resp: StepResponse, render: Value -> string): string {
    var message := if TruthyMessage(resp.result).Some? then TruthyMessage(resp.result).value else resp.result;
    "- " + name + ": " + Text(message, render)
  }

  /**
   * A result mapping whose `message` entry is falsy (an empty string, a zero,
   * `0.0`, an empty container) is printed whole, not its message.
   */
  lemma FalsyMessagePrintsResult(name: string, resp: StepResponse, render: Value -> string)
    requires resp.result.VDict? && Get(resp.result.entries, "message").Some?
    requires !Truthy(Get(resp.result.entries, "message").value)
    ensures FormatSummary(name, resp, render) == "- " + name + ": " + render(resp.result)
  {
  }

  const UnknownError: string := "unknown error"

  /** `_format_error`: `- name: failed (detail)`, the detail being the error text or "unknown error" when it is missing or empty. */
  function FormatError(name: string, resp: StepResponse): string {
    var detail := if Filled(resp.error) then resp.error.value else UnknownError;
    "- " + name + ": failed (" + detail + ")"
  }

  /** The memory line a response earns: the error line for "fail", the summary otherwise. */
  function LineFor(name: string, resp: StepResponse, render: Value -> string): string {
    if resp.status == Fail then FormatError(name, resp) else FormatSummary(name, resp, render)
  }

  /** The text appended to memory for the first |responses| steps, one newline-terminated line each. */
  function Lines(steps: seq<StepSpec>, responses: seq<StepResponse>, render: Value -> string): string
    requires |responses| <= |steps|
  {
    if responses == [] then ""
    else LineFor(steps[0].name, responses[0], render) + "\n" + Lines(steps[1..], responses[1..], render)
  }

  /**
   * The request `run` builds for a step: correlation id `step-<id>`, the
   * input template or "" as input, the memory text read just before.
   */
  function BuildRequest(step: StepSpec, memoryText: string): StepRequest {
    StepRequest(step.id, step.name, step.kind, "step-" + Decimal(step.id),
                VStr(if Filled(step.inputTemplate) then step.inputTemplate.value else ""),
                memoryText, step.config)
  }

  // ---------------------------------------------------------------------------
  // A run, as a function of the steps, the executors and the initial memory
  // ---------------------------------------------------------------------------

  /** An observer notification. */
  datatype Event =
    | Started(request: StepRequest)
    | Finished(request: StepRequest, response: StepResponse)
    | Errored(request: StepRequest, response: StepResponse)

  /**
   * What a run produces: the responses returned, the notifications sent, the
   * requests handed to executors, the final memory text, and the error raised
   * out of `run`, if any.
   */
  datatype Outcome = Outcome(
    responses: seq<StepResponse>,
    events: seq<Event>,
    executed: seq<StepRequest>,
    memory: string,
    raised: Option<Error>)

  /** The notification that closes an answered step: a finish, or an error for "fail". */
  function Closing(req: StepRequest, resp: StepResponse): Event {
    if resp.status == Fail then Errored(req, resp) else Finished(req, resp)
  }

  /**
   * One pass of `run`'s loop, for one step and the memory as it stands: the
   * start notification; then a kind without an executor raises, an
   * exception from `execute` propagates, and an answer is returned, notified
   * and logged as one memory line.
   */
  function StepOutcome(step: StepSpec, table: map<StepKind, Behaviour>, memory: string,
                       render: Value -> string): Outcome
  {
    var req := BuildRequest(step, memory);
    if step.kind !in table then
      Outcome([], [Started(req)], [], memory, Some(NoExecutorForKind(KindValue(step.kind))))
    else
      var answer := Execute(table[step.kind], req);
      if answer.Failure? then Outcome([], [Started(req)], [req], memory, Some(answer.error))
      else
        var resp := answer.value;
        Outcome([resp], [Started(req), Closing(req, resp)], [req], memory + LineFor(step.name, resp, render) + "\n", None)
  }

  /** Whether the loop stops after this pass: it raised, or the response is a "fail" (the `break`). */
  predicate Stops(o: Outcome) {
    o.raised.Some? || (o.responses != [] && o.responses[0].status == Fail)
  }

  /** The part of a run already done, followed by the rest of the run. */
  function Glue(done: Outcome, rest: Outcome): Outcome {
    Outcome(done.responses + rest.responses, done.events + rest.events, done.executed + rest.executed,
            rest.memory, rest.raised)
  }

  /**
   * `run`, with `table` giving what each registered kind's executor does:
   * one pass per step, in order, until a pass stops the loop.
   */
  function RunSteps(steps: seq<StepSpec>, table: map<StepKind, Behaviour>, memory: string,
                    render: Value -> string): Outcome
    decreases |steps|
  {
    if steps == [] then Outcome([], [], [], memory, None)
    else
      var first := StepOutcome(steps[0], table, memory, render);
      if Stops(first) then first
      else Glue(first, RunSteps(steps[1..], table, first.memory, render))
  }

  /**
   * A pass that does not stop the loop: the kind has an executor, whose
   * answer to the request built from the memory is not a "fail"; the pass
   * returns that answer, notifies the start and the finish, and logs one
   * line.
   */
  lemma PassAnswered(step: StepSpec, table: map<StepKind, Behaviour>, memory: string, render: Value -> string)
    ensures var o := StepOutcome(step, table, memory, render);
      !Stops(o) ==>
        var req := BuildRequest(step, memory);
        step.kind in table && o.raised.None? &&
        |o.responses| == 1 && o.executed == [req] &&
        Execute(table[step.kind], req) == Success(o.responses[0]) &&
        o.responses[0].status != Fail &&
        o.events == [Started(req), Finished(req, o.responses[0])] &&
        o.memory == memory + LineFor(step.name, o.responses[0], render) + "\n"
  {
  }

  /**
   * The shape of a run over n steps: at most one response per step, and at
   * most one request beyond the responses; only the last response can be a
   * "fail"; a run that raised returned no "fail"; and one that neither
   * raised nor answered every step ended on a "fail".
   */
  ghost predicate Shaped(o: Outcome, n: nat) {
    |o.responses| <= n &&
    |o.responses| <= |o.executed| <= |o.responses| + 1 &&
    (forall i :: 0 <= i < |o.responses| - 1 ==> o.responses[i].status != Fail) &&
    (o.raised.Some? ==> |o.responses| < n && forall i :: 0 <= i < |o.responses| ==> o.responses[i].status != Fail) &&
    (o.raised.None? && |o.responses| < n ==> |o.responses| > 0 && o.responses[|o.responses| - 1].status == Fail)
  }

  /** An answered pass followed by a run over n steps has the shape of a run over n + 1 steps. */
  lemma GlueShaped(first: Outcome, rest: Outcome, n: nat)
    requires |first.responses| == 1 && |first.executed| == 1 && first.responses[0].status != Fail && first.raised.None?
    requires Shaped(rest, n)
    ensures Shaped(Glue(first, rest), n + 1)
  {
    var g := Glue(first, rest);
    assert forall i :: 1 <= i < |g.responses| ==> g.responses[i] == rest.responses[i - 1];
  }

  /** Every run has the shape of a run over its steps. */
  lemma {:induction false} RunShape(steps: seq<StepSpec>, table: map<StepKind, Behaviour>, memory: string,
                                    render: Value -> string)
    ensures Shaped(RunSteps(steps, table, memory, render), |steps|)
    decreases |steps|
  {
    if steps != [] {
      var first := StepOutcome(steps[0], table, memory, render);
      PassAnswered(steps[0], table, memory, render);
      if !Stops(first) {
        RunShape(steps[1..], table, first.memory, render);
        GlueShaped(first, RunSteps(steps[1..], table, first.memory, render), |steps| - 1);
      }
    }
  }

  /** The memory of o is the initial text followed by exactly one line per response, in order. */
  ghost predicate Logged(o: Outcome, steps: seq<StepSpec>, memory: string, render: Value -> string) {
    |o.responses| <= |steps| && o.memory == memory + Lines(steps, o.responses, render)
  }

  lemma GlueLogged(first: Outcome, rest: Outcome, steps: seq<StepSpec>, memory: string, render: Value -> string)
    requires |steps| > 0 && |first.responses| == 1
    requires first.memory == memory + LineFor(steps[0].name, first.responses[0], render) + "\n"
    requires Logged(rest, steps[1..], first.memory, render)
    ensures Logged(Glue(first, rest), steps, memory, render)
  {
    var g := Glue(first, rest);
    assert g.responses == [first.responses[0]] + rest.responses;
    var line := LineFor(steps[0].name, first.responses[0], render);
    LinesCons(steps, first.responses[0], rest.responses, render);
    AppendAssoc(memory, line, "\n");
    AppendAssoc(memory, line + "\n", Lines(steps[1..], rest.responses, render));
  }

  /** The lines for a first response followed by others. */
  lemma LinesCons(steps: seq<StepSpec>, resp: StepResponse, rest: seq<StepResponse>, render: Value -> string)
    requires |rest| < |steps|
    ensures Lines(steps, [resp] + rest, render) == LineFor(steps[0].name, resp, render) + "\n" + Lines(steps[1..], rest, render)
  {
    assert ([resp] + rest)[1..] == rest;
  }

  lemma AppendAssoc(a: string, b: string, c: string)
    ensures a + b + c == a + (b + c)
  {
  }

  /** The memory ends up as the initial text followed by exactly one line per response, in order. */
  lemma {:induction false} RunMemory(steps: seq<StepSpec>, table: map<StepKind, Behaviour>, memory: string,
                                     render: Value -> string)
    ensures Logged(RunSteps(steps, table, memory, render), steps, memory, render)
    decreases |steps|
  {
    if steps != [] {
      var first := StepOutcome(steps[0], table, memory, render);
      PassAnswered(steps[0], table, memory, render);
      if first.responses != [] {
        LinesUnfold(steps, first.responses, render);
        assert first.responses[1..] == [];
      }
      if !Stops(first) {
        RunMemory(steps[1..], table, first.memory, render);
        GlueLogged(first, RunSteps(steps[1..], table, first.memory, render), steps, memory, render);
      }
    }
  }

  /** The request of the i-th step: built from the initial memory and the lines of the steps before it. */
  function RequestAt(steps: seq<StepSpec>, responses: seq<StepResponse>, memory: string,
                     render: Value -> string, i: nat): StepRequest
    requires i <= |responses| && i < |steps|
  {
    BuildRequest(steps[i], memory + Lines(steps[..i], responses[..i], render))
  }

  /** Moving past a first response shifts every later request's index by one and its memory by one line. */
  lemma RequestAtShift(steps: seq<StepSpec>, resp: StepResponse, rest: seq<StepResponse>, memory: string,
                       render: Value -> string, i: nat)
    requires 1 <= i <= |rest| + 1 && i < |steps|
    ensures RequestAt(steps, [resp] + rest, memory, render, i) ==
      RequestAt(steps[1..], rest, memory + LineFor(steps[0].name, resp, render) + "\n", render, i - 1)
  {
    var rs := [resp] + rest;
    var ps, qs := steps[..i], rs[..i];
    var line := LineFor(steps[0].name, resp, render);
    var later := Lines(steps[1..][..i - 1], rest[..i - 1], render);
    LinesUnfold(ps, qs, render);
    assert ps[0] == steps[0] && qs[0] == resp;
    assert ps[1..] == steps[1..][..i - 1];
    assert qs[1..] == rest[..i - 1];
    AppendAssoc(memory, line + "\n", later);
    AppendAssoc(memory, line, "\n");
    assert steps[1..][i - 1] == steps[i];
  }

  /** The first step's request is built from the initial memory. */
  lemma RequestAtFirst(steps: seq<StepSpec>, rs: seq<StepResponse>, memory: string, render: Value -> string)
    requires 0 < |steps|
    ensures RequestAt(steps, rs, memory, render, 0) == BuildRequest(steps[0], memory)
  {
    assert steps[..0] == [] && rs[..0] == [];
  }

  /**
   * Every request in o went to a step whose kind has an executor, and is
   * the one built for that step from the memory as it stood: the initial
   * text followed by the lines of the earlier steps.
   */
  ghost predicate Requested(o: Outcome, steps: seq<StepSpec>, table: map<StepKind, Behaviour>, memory: string,
                            render: Value -> string) {
    |o.executed| <= |steps| && |o.responses| <= |o.executed| <= |o.responses| + 1 &&
    forall i :: 0 <= i < |o.executed| ==>
      steps[i].kind in table && o.executed[i] == RequestAt(steps, o.responses, memory, render, i)
  }

  lemma GlueRequested(first: Outcome, rest: Outcome, steps: seq<StepSpec>, table: map<StepKind, Behaviour>,
                      memory: string, render: Value -> string)
    requires |steps| > 0 && steps[0].kind in table
    requires |first.responses| == 1 && first.executed == [BuildRequest(steps[0], memory)]
    requires first.memory == memory + LineFor(steps[0].name, first.responses[0], render) + "\n"
    requires Requested(rest, steps[1..], table, first.memory, render)
    ensures Requested(Glue(first, rest), steps, table, memory, render)
  {
    var g := Glue(first, rest);
    var resp := first.responses[0];
    assert g.responses == [resp] + rest.responses;
    RequestAtFirst(steps, g.responses, memory, render);
    forall i | 1 <= i < |g.executed|
      ensures steps[i].kind in table && g.executed[i] == RequestAt(steps, g.responses, memory, render, i)
    {
      RequestAtShift(steps, resp, rest.responses, memory, render, i);
      assert steps[1..][i - 1] == steps[i];
      assert g.executed[i] == rest.executed[i - 1];
    }
  }

  /** Every executed step got the request built from the memory as it stood. */
  lemma {:induction false} RunRequests(steps: seq<StepSpec>, table: map<StepKind, Behaviour>, memory: string,
                                       render: Value -> string)
    ensures Requested(RunSteps(steps, table, memory, render), steps, table, memory, render)
    decreases |steps|
  {
    if steps != [] {
      var first := StepOutcome(steps[0], table, memory, render);
      PassAnswered(steps[0], table, memory, render);
      RequestAtFirst(steps, first.responses, memory, render);
      if !Stops(first) {
        RunRequests(steps[1..], table, first.memory, render);
        GlueRequested(first, RunSteps(steps[1..], table, first.memory, render), steps, table, memory, render);
      }
    }
  }

  /** Every response in o is what its step's executor answers to the request it was given. */
  ghost predicate Answered(o: Outcome, steps: seq<StepSpec>, table: map<StepKind, Behaviour>) {
    |o.responses| <= |o.executed| && |o.responses| <= |steps| &&
    forall i :: 0 <= i < |o.responses| ==>
      steps[i].kind in table && Execute(table[steps[i].kind], o.executed[i]) == Success(o.responses[i])
  }

  lemma GlueAnswered(first: Outcome, rest: Outcome, steps: seq<StepSpec>, table: map<StepKind, Behaviour>)
    requires |steps| > 0 && steps[0].kind in table
    requires |first.responses| == 1 && |first.executed| == 1
    requires Execute(table[steps[0].kind], first.executed[0]) == Success(first.responses[0])
    requires Answered(rest, steps[1..], table)
    ensures Answered(Glue(first, rest), steps, table)
  {
    var g := Glue(first, rest);
    forall i | 1 <= i < |g.responses|
      ensures steps[i].kind in table && Execute(table[steps[i].kind], g.executed[i]) == Success(g.responses[i])
    {
      assert steps[1..][i - 1] == steps[i];
      assert g.executed[i] == rest.executed[i - 1] && g.responses[i] == rest.responses[i - 1];
    }
  }

  /** Every response is what the step's registered executor answers to the request it was given. */
  lemma {:induction false} RunAnswers(steps: seq<StepSpec>, table: map<StepKind, Behaviour>, memory: string,
                                      render: Value -> string)
    ensures Answered(RunSteps(steps, table, memory, render), steps, table)
    decreases |steps|
  {
    if steps != [] {
      var first := StepOutcome(steps[0], table, memory, render);
      PassAnswered(steps[0], table, memory, render);
      if !Stops(first) {
        RunAnswers(steps[1..], table, first.memory, render);
        GlueAnswered(first, RunSteps(steps[1..], table, first.memory, render), steps, table);
      }
    }
  }

  /** One unfolding of `Lines`, for a non-empty prefix. */
  lemma LinesUnfold(steps: seq<StepSpec>, responses: seq<StepResponse>, render: Value -> string)
    requires 0 < |responses| <= |steps|
    ensures Lines(steps, responses, render) ==
      LineFor(steps[0].name, responses[0], render) + "\n" + Lines(steps[1..], responses[1..], render)
  {
  }

  /**
   * The notifications come in pairs, one pair per response: the start with
   * the request executed, then a finish (or an error, for "fail") with that
   * request and its response; a raise adds one last, unpaired start.
   */
  ghost predicate Paired(o: Outcome) {
    |o.responses| <= |o.executed| &&
    |o.events| == 2 * |o.responses| + (if o.raised.Some? then 1 else 0) &&
    forall i :: 0 <= i < |o.responses| ==>
      o.events[2 * i] == Started(o.executed[i]) && o.events[2 * i + 1] == Closing(o.executed[i], o.responses[i])
  }

  /** A pass that answered, followed by paired notifications, stays paired. */
  lemma GluePaired(first: Outcome, rest: Outcome)
    requires Paired(first) && Paired(rest) && first.raised.None? && |first.executed| == |first.responses|
    ensures Paired(Glue(first, rest))
  {
    var g := Glue(first, rest);
    var k := |first.responses|;
    forall i | k <= i < |g.responses|
      ensures g.events[2 * i] == Started(g.executed[i]) && g.events[2 * i + 1] == Closing(g.executed[i], g.responses[i])
    {
      assert g.executed[i] == rest.executed[i - k] && g.responses[i] == rest.responses[i - k];
      assert g.events[2 * i] == rest.events[2 * (i - k)];
      assert g.events[2 * i + 1] == rest.events[2 * (i - k) + 1];
    }
  }

  /** Every run's notifications are paired with its requests and responses. */
  lemma {:induction false} RunEvents(steps: seq<StepSpec>, table: map<StepKind, Behaviour>, memory: string,
                                     render: Value -> string)
    ensures Paired(RunSteps(steps, table, memory, render))
    decreases |steps|
  {
    if steps != [] {
      var first := StepOutcome(steps[0], table, memory, render);
      assert Paired(first);
      if !Stops(first) {
        RunEvents(steps[1..], table, first.memory, render);
        GluePaired(first, RunSteps(steps[1..], table, first.memory, render));
      }
    }
  }

  /**
   * When o raised, its last notification is the start of the step after the
   * last response, with the request built for it.
   */
  ghost predicate RaisedLast(o: Outcome, steps: seq<StepSpec>, memory: string, render: Value -> string) {
    o.raised.Some? ==>
      |o.responses| < |steps| && |o.events| > 0 &&
      o.events[|o.events| - 1] == Started(RequestAt(steps, o.responses, memory, render, |o.responses|))
  }

  lemma GlueRaisedLast(first: Outcome, rest: Outcome, steps: seq<StepSpec>, memory: string, render: Value -> string)
    requires |steps| > 0 && |first.responses| == 1
    requires first.memory == memory + LineFor(steps[0].name, first.responses[0], render) + "\n"
    requires RaisedLast(rest, steps[1..], first.memory, render)
    ensures RaisedLast(Glue(first, rest), steps, memory, render)
  {
    var g := Glue(first, rest);
    if rest.raised.Some? {
      var resp := first.responses[0];
      var i := |rest.responses| + 1;
      assert g.responses == [resp] + rest.responses;
      RequestAtShift(steps, resp, rest.responses, memory, render, i);
      assert RequestAt(steps, g.responses, memory, render, i) ==
             RequestAt(steps[1..], rest.responses, first.memory, render, i - 1);
      assert g.events[|g.events| - 1] == rest.events[|rest.events| - 1];
    }
  }

  /** A run that raises sends one last start notification, for the step that could not be executed. */
  lemma {:induction false} RunRaisedEvent(steps: seq<StepSpec>, table: map<StepKind, Behaviour>, memory: string,
                                          render: Value -> string)
    ensures RaisedLast(RunSteps(steps, table, memory, render), steps, memory, render)
    decreases |steps|
  {
    if steps != [] {
      var first := StepOutcome(steps[0], table, memory, render);
      PassAnswered(steps[0], table, memory, render);
      RequestAtFirst(steps, first.responses, memory, render);
      if !Stops(first) {
        RunRaisedEvent(steps[1..], table, first.memory, render);
        GlueRaisedLast(first, RunSteps(steps[1..], table, first.memory, render), steps, memory, render);
      }
    }
  }

  /**
   * Why o raised: the step after the last response either has no
   * registered executor (and nothing was executed for it), or its executor
   * raised from `execute` on the request it was given, and that exception
   * is what o raised (a stub always does so).  And o did not raise exactly
   * when every request got a response and either every step was answered
   * or the last answer was a "fail".
   */
  ghost predicate RaiseCause(o: Outcome, steps: seq<StepSpec>, table: map<StepKind, Behaviour>) {
    (o.raised.Some? ==> (|o.responses| < |steps| &&
      var step := steps[|o.responses|];
      (step.kind !in table && o.raised == Some(NoExecutorForKind(KindValue(step.kind))) &&
       |o.executed| == |o.responses|) ||
      (step.kind in table && |o.executed| == |o.responses| + 1 &&
       Execute(table[step.kind], o.executed[|o.responses|]).Failure? &&
       o.raised == Some(Execute(table[step.kind], o.executed[|o.responses|]).error)))) &&
    (o.raised.None? <==>
      |o.executed| == |o.responses| &&
      (|o.responses| == |steps| || (|o.responses| > 0 && o.responses[|o.responses| - 1].status == Fail)))
  }

  lemma GlueRaiseCause(first: Outcome, rest: Outcome, steps: seq<StepSpec>, table: map<StepKind, Behaviour>)
    requires |steps| > 0
    requires |first.responses| == 1 && |first.executed| == 1 && first.raised.None? && first.responses[0].status != Fail
    requires RaiseCause(rest, steps[1..], table) && Shaped(rest, |steps| - 1)
    ensures RaiseCause(Glue(first, rest), steps, table)
  {
    var g := Glue(first, rest);
    if g.raised.Some? {
      assert steps[|g.responses|] == steps[1..][|rest.responses|];
      if |rest.executed| == |rest.responses| + 1 {
        assert g.executed[|g.responses|] == rest.executed[|rest.responses|];
      }
    }
    if |rest.responses| > 0 {
      assert g.responses[|g.responses| - 1] == rest.responses[|rest.responses| - 1];
    } else {
      assert g.responses == first.responses;
    }
  }

  /** Why a run raises, and when it does not. */
  lemma {:induction false} RunRaises(steps: seq<StepSpec>, table: map<StepKind, Behaviour>, memory: string,
                                     render: Value -> string)
    ensures RaiseCause(RunSteps(steps, table, memory, render), steps, table)
    decreases |steps|
  {
    if steps != [] {
      var first := StepOutcome(steps[0], table, memory, render);
      PassAnswered(steps[0], table, memory, render);
      if !Stops(first) {
        RunRaises(steps[1..], table, first.memory, render);
        RunShape(steps[1..], table, first.memory, render);
        GlueRaiseCause(first, RunSteps(steps[1..], table, first.memory, render), steps, table);
      }
    }
  }

  /** A step answered by the language-model stand-in logs `- name: name :: synthesized response`. */
  lemma LLMSummaryLine(step: StepSpec, memoryText: string, render: Value -> string)
    ensures LineFor(step.name, LLMRespond(BuildRequest(step, memoryText)), render)
      == "- " + step.name + ": " + step.name + SynthesizedSuffix
  {
    var resp := LLMRespond(BuildRequest(step, memoryText));
    assert TruthyMessage(resp.result) == Some(VStr(step.name + SynthesizedSuffix));
  }

  // ---------------------------------------------------------------------------
  // The orchestrator object
  // ---------------------------------------------------------------------------

  const AllKinds: set<StepKind> := {LLM, Shell, Python}

  /** `WorkflowOrchestrator`. */
  class WorkflowOrchestrator {
    const spec: WorkflowSpec
    const factory: ExecutorFactory
    /** Python's `str`, for results that are printed whole. */
    const render: Value -> string
    /** The memory file's text; an absent file reads as "". */
    var memory: string
    /** The notifications an attached observer receives, in order. */
    ghost var notifications: seq<Event>
    /** The `execute` calls of the latest run: which executor object got which request. */
    ghost var calls: seq<(Executor, StepRequest)>

    /** What each registered kind's executor does. */
    ghost function Table(): map<StepKind, Behaviour>
      reads factory, factory.container
    {
      map k | k in AllKinds && factory.Answer(k).Some? :: factory.Answer(k).value
    }

    /** A kind is in the table exactly when it is registered, and maps to what creating it yields. */
    lemma TableEntry(k: StepKind)
      ensures k in Table() <==> factory.IsRegistered(k)
      ensures k in Table() ==> Some(Table()[k]) == factory.Answer(k)
    {
      EveryKindListed();
    }

    /** The executor object cached for each kind. */
    ghost function CachedNow(): map<StepKind, Executor>
      reads factory, factory.container
    {
      map k | k in AllKinds && factory.Cached(k).Some? :: factory.Cached(k).value
    }

    lemma CachedEntry(k: StepKind)
      ensures k in CachedNow() <==> factory.Cached(k).Some?
      ensures k in CachedNow() ==> Some(CachedNow()[k]) == factory.Cached(k)
    {
      EveryKindListed();
    }

    /**
     * `WorkflowOrchestrator(spec, executors=..., executor_factory=...)`:
     * uses the given factory or a default one, registers every given
     * executor under its kind (overriding), and registers the stand-in LLM
     * executor as a singleton if the LLM kind is still unregistered.
     */
    constructor (spec: WorkflowSpec, executors: map<StepKind, Executor>, executorFactory: Option<ExecutorFactory>,
                 render: Value -> string, memory: string)
      requires executorFactory.Some? ==> executorFactory.value.container.Valid()
      modifies if executorFactory.Some? then {executorFactory.value.container} else {}
      ensures this.spec == spec && this.render == render && this.memory == memory
      ensures notifications == [] && calls == []
      ensures executorFactory.Some? ==> factory == executorFactory.value
      ensures executorFactory.None? ==> fresh(factory) && fresh(factory.container)
      ensures factory.container.Valid()
      ensures forall k :: k in executors ==>
        factory.Cached(k) == Some(executors[k]) && factory.Answer(k) == Some(executors[k].behaviour)
      ensures factory.IsRegistered(LLM)
      ensures LLM !in executors && executorFactory.Some? ==>
        factory.Answer(LLM) == (if old(executorFactory.value.Answer(LLM)).Some?
                                then old(executorFactory.value.Answer(LLM)) else Some(LLMStandIn))
      ensures LLM !in executors && executorFactory.Some? ==> factory.Cached(LLM) == old(executorFactory.value.Cached(LLM))
      ensures executorFactory.Some? ==> forall k :: k !in executors && k != LLM ==>
        factory.Answer(k) == old(executorFactory.value.Answer(k)) && factory.Cached(k) == old(executorFactory.value.Cached(k))
      ensures executorFactory.None? ==> forall k :: k !in executors ==>
        factory.Answer(k) == if k == LLM then Some(LLMStandIn) else None
    {
      var f: ExecutorFactory;
      if executorFactory.Some? {
        f := executorFactory.value;
      } else {
        f := ExecutorFactory.Default();
        forall k ensures f.Answer(k) == if k == LLM then Some(LLMStandIn) else None {
          DefaultRegistersOnlyLLM(k);
        }
      }
      RegisterExecutors(f, executors);
      if !f.IsRegistered(LLM) {
        var _ := f.RegisterSingleton(LLM, LLMStandIn, false);
      }
      this.spec := spec;
      this.factory := f;
      this.render := render;
      this.memory := memory;
      notifications := [];
      calls := [];
    }

    /**
     * The factory is consistent, its registrations are still `table`, every
     * executor object of `cache` is still cached under its kind, and the
     * container's providers are still `providers`.
     */
    ghost predicate Keeps(table: map<StepKind, Behaviour>, cache: map<StepKind, Executor>, providers: map<string, Provider>)
      reads factory, factory.container
    {
      factory.container.Valid() && Table() == table && SubMap(cache, CachedNow()) &&
      factory.container.providers == providers
    }

    /**
     * `self._factory.create(kind)`, seen through the table and the cache: it
     * fails exactly for an unregistered kind, yields an executor with the
     * registered behaviour, returns the cached object when there is one,
     * and changes no registration and no cached object.
     */
    method CreateFor(kind: StepKind, ghost table: map<StepKind, Behaviour>, ghost cache: map<StepKind, Executor>,
      ghost providers: map<string, Provider>)
      returns (r: Result<Executor>)
      requires Keeps(table, cache, providers)
      modifies factory.container
      ensures Keeps(table, cache, providers)
      ensures r.Success? <==> kind in table
      ensures r.Success? ==> r.value.behaviour == table[kind]
      ensures r.Failure? ==> r.error == NoExecutorForKind(KindValue(kind))
      ensures kind in cache ==> r == Success(cache[kind])
    {
      ghost var now := CachedNow();
      TableEntry(kind);
      CachedEntry(kind);
      forall k ensures (k in table <==> factory.Answer(k).Some?) && (k in table ==> Some(table[k]) == factory.Answer(k)) {
        TableEntry(k);
      }
      forall k ensures (k in now <==> factory.Cached(k).Some?) && (k in now ==> Some(now[k]) == factory.Cached(k)) {
        CachedEntry(k);
      }
      r := factory.Create(kind);
      forall k ensures (k in Table() <==> k in table) && (k in table ==> Table()[k] == table[k]) {
        TableEntry(k);
      }
      assert Table() == table;
      forall k | k in now ensures k in CachedNow() && CachedNow()[k] == now[k] {
        CachedEntry(k);
      }
      SubMapTrans(cache, now, CachedNow());
    }

    /**
     * The rest of one pass of `run`'s loop once the executor exists: the
     * `execute` call, then for an answer its finish or error notification
     * and its memory line.  An exception from `execute` leaves the
     * notifications and the memory as they were.
     */
    method Perform(step: StepSpec, request: StepRequest, executor: Executor)
      returns (response: Option<StepResponse>, raised: Option<Error>)
      modifies this
      ensures calls == old(calls) + [(executor, request)]
      ensures var answer := Execute(executor.behaviour, request);
        (answer.Failure? ==> response == None && raised == Some(answer.error) &&
                             notifications == old(notifications) && memory == old(memory)) &&
        (answer.Success? ==> response == Some(answer.value) && raised == None &&
                             notifications == old(notifications) + [Closing(request, answer.value)] &&
                             memory == old(memory) + LineFor(step.name, answer.value, render) + "\n")
    {
      calls := calls + [(executor, request)];
      var result := Execute(executor.behaviour, request);
      if result.Failure? {
        return None, Some(result.error);
      }
      var answer := result.value;
      if answer.status == Fail {
        notifications := notifications + [Errored(request, answer)];
        memory := memory + FormatError(step.name, answer) + "\n";
      } else {
        notifications := notifications + [Finished(request, answer)];
        memory := memory + FormatSummary(step.name, answer, render) + "\n";
      }
      return Some(answer), None;
    }

    /**
     * `create` and then `Perform`: a kind without an executor raises before
     * anything is executed; otherwise the registered behaviour answers or
     * raises, and the call is recorded.
     */
    method Attempt(step: StepSpec, request: StepRequest, ghost table: map<StepKind, Behaviour>,
                   ghost cache: map<StepKind, Executor>,
      ghost providers: map<string, Provider>)
      returns (response: Option<StepResponse>, raised: Option<Error>)
      requires request.kind == step.kind
      requires Keeps(table, cache, providers) && FromCache(calls, cache)
      modifies this, factory.container
      ensures Keeps(table, cache, providers) && FromCache(calls, cache)
      ensures step.kind !in table ==>
        response == None && raised == Some(NoExecutorForKind(KindValue(step.kind))) &&
        calls == old(calls) && notifications == old(notifications) && memory == old(memory)
      ensures step.kind in table ==>
        Requests(calls) == Requests(old(calls)) + [request] &&
        var answer := Execute(table[step.kind], request);
        (answer.Failure? ==> response == None && raised == Some(answer.error) &&
                             notifications == old(notifications) && memory == old(memory)) &&
        (answer.Success? ==> response == Some(answer.value) && raised == None &&
                             notifications == old(notifications) + [Closing(request, answer.value)] &&
                             memory == old(memory) + LineFor(step.name, answer.value, render) + "\n")
    {
      var created := CreateFor(step.kind, table, cache, providers);
      if created.Failure? {
        return None, Some(created.error);
      }
      var executor := created.value;
      RequestsAppend(calls, (executor, request));
      FromCacheAppend(calls, (executor, request), cache);
      response, raised := Perform(step, request, executor);
    }

    /**
     * One pass of `run`'s loop body: builds the request from the memory,
     * notifies the start and makes the `Attempt`.  Its effect is the pass
     * `o` that `StepOutcome` describes: its responses, notifications,
     * executed requests, memory and raised error.
     */
    method RunOne(step: StepSpec, ghost table: map<StepKind, Behaviour>, ghost cache: map<StepKind, Executor>,
      ghost providers: map<string, Provider>)
      returns (response: Option<StepResponse>, raised: Option<Error>, ghost o: Outcome)
      requires Keeps(table, cache, providers) && FromCache(calls, cache)
      modifies this, factory.container
      ensures Keeps(table, cache, providers) && FromCache(calls, cache)
      ensures o == StepOutcome(step, table, old(memory), render)
      ensures o.responses == (if response.Some? then [response.value] else []) && raised == o.raised
      ensures raised.None? ==> response.Some? && (Stops(o) <==> response.value.status == Fail)
      ensures memory == o.memory
      ensures notifications == old(notifications) + o.events && Requests(calls) == Requests(old(calls)) + o.executed
    {
      o := StepOutcome(step, table, memory, render);
      var request := BuildRequest(step, memory);
      notifications := notifications + [Started(request)];
      response, raised := Attempt(step, request, table, cache, providers);
    }

    /**
     * `run`'s loop body for step i, seen from the loop: `done` is the part
     * of the run `whole` made so far, and afterwards `after` is.  When the
     * pass stops the loop, `after` is the whole run; otherwise the rest of
     * the run starts from step i + 1 and the memory as it now stands.
     */
    method Pass(i: nat, ghost table: map<StepKind, Behaviour>, ghost cache: map<StepKind, Executor>,
      ghost providers: map<string, Provider>,
                ghost whole: Outcome, ghost done: Outcome, ghost events0: seq<Event>)
      returns (response: Option<StepResponse>, raised: Option<Error>, ghost after: Outcome)
      requires i < |spec.steps|
      requires Keeps(table, cache, providers) && FromCache(calls, cache)
      requires notifications == events0 + done.events && Requests(calls) == done.executed
      requires whole == Glue(done, RunSteps(spec.steps[i..], table, memory, render))
      modifies this, factory.container
      ensures Keeps(table, cache, providers) && FromCache(calls, cache)
      ensures notifications == events0 + after.events && Requests(calls) == after.executed
      ensures after.responses == done.responses + (if response.Some? then [response.value] else [])
      ensures raised.None? ==> response.Some?
      ensures raised.Some? || response.value.status == Fail ==>
        whole == after && memory == whole.memory && raised == whole.raised
      ensures raised.None? && response.value.status != Fail ==>
        whole == Glue(after, RunSteps(spec.steps[i + 1..], table, memory, render))
    {
      ghost var m := memory;
      ghost var o;
      response, raised, o := RunOne(spec.steps[i], table, cache, providers);
      Advance(whole, done, o, spec.steps, i, table, m, render);
      after := Glue(done, o);
      assert events0 + done.events + o.events == events0 + (done.events + o.events);
    }

    /**
     * `run`: follows `RunSteps` over the workflow's steps, the executors
     * registered when the run starts and the memory text as it stands.  It
     * changes no registration, and a kind whose executor was cached before
     * the run is always executed by that very object.
     */
    method Run() returns (responses: seq<StepResponse>, raised: Option<Error>)
      requires factory.container.Valid()
      modifies this, factory.container
      ensures factory.container.Valid()
      ensures Table() == old(Table())
      ensures var r := RunSteps(spec.steps, old(Table()), old(memory), render);
        responses == r.responses && raised == r.raised && memory == r.memory &&
        notifications == old(notifications) + r.events &&
        Requests(calls) == r.executed
      ensures FromCache(calls, old(CachedNow()))
      ensures factory.container.providers == old(factory.container.providers)
      ensures SubMap(old(CachedNow()), CachedNow())
    {
      ghost var table := Table();
      ghost var cache := CachedNow();
      calls := [];
      responses, raised := Loop(table, cache, factory.container.providers, RunSteps(spec.steps, table, memory, render), notifications);
    }

    /** The loop of `run`, from its first step, making the run `whole`. */
    method Loop(ghost table: map<StepKind, Behaviour>, ghost cache: map<StepKind, Executor>,
      ghost providers: map<string, Provider>,
                ghost whole: Outcome, ghost events0: seq<Event>)
      returns (responses: seq<StepResponse>, raised: Option<Error>)
      requires Keeps(table, cache, providers) && calls == [] && notifications == events0
      requires whole == RunSteps(spec.steps, table, memory, render)
      modifies this, factory.container
      ensures Keeps(table, cache, providers) && FromCache(calls, cache)
      ensures responses == whole.responses && raised == whole.raised && memory == whole.memory
      ensures notifications == events0 + whole.events && Requests(calls) == whole.executed
    {
      ghost var done := Outcome([], [], [], memory, None);
      responses := [];
      raised := None;
      assert spec.steps[0..] == spec.steps;
      var i := 0;
      while i < |spec.steps|
        invariant 0 <= i <= |spec.steps|
        invariant Keeps(table, cache, providers) && FromCache(calls, cache)
        invariant responses == done.responses && notifications == events0 + done.events && Requests(calls) == done.executed
        invariant whole == Glue(done, RunSteps(spec.steps[i..], table, memory, render))
        decreases |spec.steps| - i
      {
        var response, error;
        response, error, done := Pass(i, table, cache, providers, whole, done, events0);
        if response.Some? {
          responses := responses + [response.value];
        }
        if error.Some? {
          raised := error;
          return;
        }
        if response.value.status == Fail {
          return;
        }
        i := i + 1;
      }
      assert spec.steps[i..] == [];
    }
  }

  /**
   * The loop's bookkeeping for one pass `o` over step i: the run `whole`,
   * made of `done` and the rest from step i, is `done` and `o` when `o`
   * stops the loop, and otherwise `done`, `o` and the rest from step i + 1.
   */
  lemma Advance(whole: Outcome, done: Outcome, o: Outcome, steps: seq<StepSpec>, i: nat,
                table: map<StepKind, Behaviour>, memory: string, render: Value -> string)
    requires i < |steps|
    requires o == StepOutcome(steps[i], table, memory, render)
    requires whole == Glue(done, RunSteps(steps[i..], table, memory, render))
    ensures Stops(o) ==> whole == Glue(done, o)
    ensures !Stops(o) ==> whole == Glue(Glue(done, o), RunSteps(steps[i + 1..], table, o.memory, render))
    ensures Glue(done, o).events == done.events + o.events && Glue(done, o).executed == done.executed + o.executed
  {
    RunFrom(steps, i, table, memory, render);
    GlueAssoc(done, o, RunSteps(steps[i + 1..], table, o.memory, render));
  }

  /** The run of the steps from index i on: the pass for step i, then, unless it stops, the run from i + 1. */
  lemma RunFrom(steps: seq<StepSpec>, i: nat, table: map<StepKind, Behaviour>, memory: string, render: Value -> string)
    requires i < |steps|
    ensures var o := StepOutcome(steps[i], table, memory, render);
      RunSteps(steps[i..], table, memory, render) ==
      if Stops(o) then o else Glue(o, RunSteps(steps[i + 1..], table, o.memory, render))
  {
    assert steps[i..][0] == steps[i] && steps[i..][1..] == steps[i + 1..];
  }

  /** The requests of a sequence of `execute` calls. */
  function Requests(calls: seq<(Executor, StepRequest)>): (r: seq<StepRequest>)
    ensures |r| == |calls| && forall i :: 0 <= i < |calls| ==> r[i] == calls[i].1
  {
    seq(|calls|, i requires 0 <= i < |calls| => calls[i].1)
  }

  lemma RequestsAppend(calls: seq<(Executor, StepRequest)>, call: (Executor, StepRequest))
    ensures Requests(calls + [call]) == Requests(calls) + [call.1]
  {
  }

  /** Every call whose kind had a cached executor went to that very object. */
  ghost predicate FromCache(calls: seq<(Executor, StepRequest)>, cache: map<StepKind, Executor>) {
    forall i :: 0 <= i < |calls| && calls[i].1.kind in cache ==> calls[i].0 == cache[calls[i].1.kind]
  }

  lemma FromCacheAppend(calls: seq<(Executor, StepRequest)>, call: (Executor, StepRequest), cache: map<StepKind, Executor>)
    requires FromCache(calls, cache)
    requires call.1.kind in cache ==> call.0 == cache[call.1.kind]
    ensures FromCache(calls + [call], cache)
  {
  }

  /** Every step kind is one of the three. */
  lemma EveryKindListed()
    ensures forall k: StepKind :: k in AllKinds
  {
    forall k: StepKind ensures k in AllKinds {
      match k
      case LLM =>
      case Shell =>
      case Python =>
    }
  }

  lemma GlueAssoc(a: Outcome, b: Outcome, c: Outcome)
    ensures Glue(a, Glue(b, c)) == Glue(Glue(a, b), c)
  {
    assert a.responses + (b.responses + c.responses) == (a.responses + b.responses) + c.responses;
    assert a.events + (b.events + c.events) == (a.events + b.events) + c.events;
    assert a.executed + (b.executed + c.executed) == (a.executed + b.executed) + c.executed;
  }

  /** One map agrees with another on every key of the first. */
  ghost predicate SubMap<K, V>(a: map<K, V>, b: map<K, V>) {
    forall k :: k in a ==> k in b && b[k] == a[k]
  }

  lemma SubMapTrans<K, V>(a: map<K, V>, b: map<K, V>, c: map<K, V>)
    requires SubMap(a, b) && SubMap(b, c)
    ensures SubMap(a, c)
  {
  }

  /** Registers every given executor under its kind, overriding whatever was there. */
  method RegisterExecutors(f: ExecutorFactory, executors: map<StepKind, Executor>)
    requires f.container.Valid()
    modifies f.container
    ensures f.container.Valid()
    ensures forall k :: k in executors ==> f.Cached(k) == Some(executors[k]) && f.Answer(k) == Some(executors[k].behaviour)
    ensures forall k :: k !in executors ==> f.Answer(k) == old(f.Answer(k)) && f.Cached(k) == old(f.Cached(k))
  {
    var todo := executors.Keys;
    while todo != {}
      invariant todo <= executors.Keys
      invariant f.container.Valid()
      invariant forall k :: k in executors && k !in todo ==> f.Cached(k) == Some(executors[k])
      invariant forall k :: k in executors && k !in todo ==> f.Answer(k) == Some(executors[k].behaviour)
      invariant forall k :: k !in executors || k in todo ==> f.Cached(k) == old(f.Cached(k))
      invariant forall k :: k !in executors || k in todo ==> f.Answer(k) == old(f.Answer(k))
      decreases todo
    {
      var kind :| kind in todo;
      var _ := f.RegisterInstance(kind, executors[kind], true);
      todo := todo - {kind};
    }
  }
}
