/**
 * The mutable workflow builder: it stages a goal, a memory path, the task
 * documents (keyed by their ids, in registration order) and the steps, and
 * compiles them into an immutable workflow.  The Python methods return the
 * builder itself for chaining; here they return only the error they raise,
 * if any.
 */
module Builder {
  import opened Base
  import opened Spec

  /** A branch as `add_step` accepts it: a `Branch` already, or a mapping of its fields. */
  datatype BranchInput = AsBranch(branch: Branch) | AsMapping(fields: Dict)

  /**
   * `_coerce_branch`: a `Branch` is kept; a mapping becomes `Branch(**mapping)`,
   * which accepts exactly the keys `when` and `goto`.
   */
  function CoerceBranch(input: BranchInput): (r: Result<Branch>)
    ensures input.AsBranch? ==> r == Success(input.branch)
    ensures input.AsMapping? && r.Success? ==>
      Get(input.fields, "when") == Some(VStr(r.value.when)) &&
      Get(input.fields, "goto") == Some(VInt(r.value.goto))
    ensures input.AsMapping? && r.Success? ==> forall k :: k in Keys(input.fields) ==> k == "when" || k == "goto"
    ensures input.AsMapping? ==>
      (r.Success? <==> (forall k :: k in Keys(input.fields) ==> k == "when" || k == "goto") &&
                       Get(input.fields, "when").Some? && Get(input.fields, "when").value.VStr? &&
                       Get(input.fields, "goto").Some? && Get(input.fields, "goto").value.VInt?)
    ensures r.Failure? ==> r.error == MalformedBranch
  {
    match input
    case AsBranch(b) => Success(b)
    case AsMapping(d) =>
      var when := Get(d, "when");
      var goto := Get(d, "goto");
      if (forall k :: k in Keys(d) ==> k == "when" || k == "goto")
         && when.Some? && when.value.VStr? && goto.Some? && goto.value.VInt?
      then Success(Branch(when.value.s, goto.value.i))
      else Failure(MalformedBranch)
  }

  /** A serialised branch coerces back to the same branch. */
  lemma CoerceSerialisedBranch(b: Branch)
    ensures CoerceBranch(AsMapping(BranchAsDict(b))) == Success(b)
  {
    var d := BranchAsDict(b);
    assert Keys(d) == ["when", "goto"];
  }

  /** Every branch of a list coerced in order; the first malformed one fails the whole list. */
  function CoerceAll(inputs: seq<BranchInput>): (r: Result<seq<Branch>>)
    ensures r.Success? <==> forall i :: 0 <= i < |inputs| ==> CoerceBranch(inputs[i]).Success?
    ensures r.Success? ==> |r.value| == |inputs|
    ensures r.Success? ==> forall i :: 0 <= i < |inputs| ==> Success(r.value[i]) == CoerceBranch(inputs[i])
    ensures r.Failure? ==> r.error == MalformedBranch
  {
    if inputs == [] then Success([])
    else
      match CoerceBranch(inputs[0])
      case Failure(e) => Failure(e)
      case Success(b) =>
        match CoerceAll(inputs[1..])
        case Failure(e) => Failure(e)
        case Success(rest) =>
          assert forall i :: 1 <= i < |inputs| ==> inputs[i] == inputs[1..][i - 1];
          Success([b] + rest)
  }

  /** The first entry of `uses` that is not among `known`, if any. */
  function FirstUnknown(uses: seq<string>, known: seq<string>): (r: Option<string>)
    ensures r.None? <==> forall i :: 0 <= i < |uses| ==> uses[i] in known
    ensures r.Some? ==> r.value !in known
    ensures r.Some? ==> exists i :: 0 <= i < |uses| && uses[i] == r.value &&
                                    (forall j :: 0 <= j < i ==> uses[j] in known)
  {
    if uses == [] then None
    else if uses[0] !in known then Some(uses[0])
    else
      var r := FirstUnknown(uses[1..], known);
      assert forall i :: 1 <= i < |uses| ==> uses[i] == uses[1..][i - 1];
      if r.Some? then
        var i :| 0 <= i < |uses[1..]| && uses[1..][i] == r.value &&
                 (forall j :: 0 <= j < i ==> uses[1..][j] in known);
        assert uses[i + 1] == r.value;
        assert forall j :: 0 <= j < i + 1 ==> uses[j] in known by {
          forall j | 0 <= j < i + 1 ensures uses[j] in known {
            if j > 0 { assert uses[j] == uses[1..][j - 1]; }
          }
        }
        r
      else r
  }

  /** Step ids numbered 1..n in position order are pairwise distinct. */
  lemma GaplessIdsDistinct(steps: seq<StepSpec>)
    ensures (forall i :: 0 <= i < |steps| ==> steps[i].id == i + 1) ==> Distinct(StepIds(steps))
  {
  }

  lemma TaskIdsAppend(ts: seq<TaskSpec>, t: TaskSpec)
    ensures TaskIds(ts + [t]) == TaskIds(ts) + [t.id]
  {
  }

  /** `WorkflowBuilder`. */
  class WorkflowBuilder {
    var goal: Option<string>
    var memoryFile: Option<string>
    /** The `_tasks` dictionary's values in insertion order; each is stored under its own id. */
    var tasks: seq<TaskSpec>
    var steps: seq<StepSpec>

    /**
     * Task ids are unique and every task has a source; steps are numbered
     * 1..n in order; every task a step uses was registered.
     */
    ghost predicate Valid()
      reads this
    {
      Distinct(TaskIds(tasks)) &&
      (forall i :: 0 <= i < |tasks| ==> HasSource(tasks[i])) &&
      (forall i :: 0 <= i < |steps| ==> steps[i].id == i + 1) &&
      (forall i, u :: 0 <= i < |steps| && u in steps[i].uses ==> u in TaskIds(tasks))
    }

    /** `WorkflowBuilder()` / `WorkflowBuilder.start()`: nothing staged yet. */
    constructor ()
      ensures goal == None && memoryFile == None && tasks == [] && steps == []
      ensures Valid()
    {
      goal := None;
      memoryFile := None;
      tasks := [];
      steps := [];
    }

    /** `with_goal`: the last goal set wins. */
    method WithGoal(g: string)
      requires Valid()
      modifies this
      ensures Valid()
      ensures goal == Some(g)
      ensures memoryFile == old(memoryFile) && tasks == old(tasks) && steps == old(steps)
    {
      goal := Some(g);
    }

    /** `memory`: the last memory path set wins. */
    method Memory(path: string)
      requires Valid()
      modifies this
      ensures Valid()
      ensures memoryFile == Some(path)
      ensures goal == old(goal) && tasks == old(tasks) && steps == old(steps)
    {
      memoryFile := Some(path);
    }

    /**
     * `register_task`: refuses an id already registered, then builds the task
     * (an empty file path counts as none) and refuses it when it has neither
     * a non-empty file nor a non-empty text; otherwise stores it last.
     */
    method RegisterTask(taskId: string, file: Option<string>, text: Option<string>) returns (raised: Option<Error>)
      requires Valid()
      modifies this
      ensures Valid()
      ensures taskId in old(TaskIds(tasks)) ==> raised == Some(TaskAlreadyRegistered(taskId))
      ensures taskId !in old(TaskIds(tasks)) && !Filled(file) && !Filled(text) ==> raised == Some(TaskWithoutSource)
      ensures raised.None? <==> taskId !in old(TaskIds(tasks)) && (Filled(file) || Filled(text))
      ensures raised.Some? ==> tasks == old(tasks)
      ensures raised.None? ==> tasks == old(tasks) + [TaskSpec(taskId, if Filled(file) then file else None, text)]
      ensures TaskIds(tasks) == old(TaskIds(tasks)) + (if raised.None? then [taskId] else [])
      ensures goal == old(goal) && memoryFile == old(memoryFile) && steps == old(steps)
    {
      if taskId in TaskIds(tasks) {
        return Some(TaskAlreadyRegistered(taskId));
      }
      var task := NewTask(taskId, if Filled(file) then file else None, text);
      if task.Failure? {
        return Some(task.error);
      }
      TaskIdsAppend(tasks, task.value);
      DistinctAppend(TaskIds(tasks), taskId);
      tasks := tasks + [task.value];
      raised := None;
    }

    /**
     * `add_step`: checks every `uses` entry against the registered tasks,
     * then coerces the branches, and appends the step with id n + 1, where n
     * is the number of steps so far.  Nothing is stored when a check fails.
     */
    method AddStep(name: string, kind: StepKind, doc: string, uses: seq<string>,
                   inputTemplate: Option<string>, config: Dict, branches: seq<BranchInput>,
                   nextStep: Option<int>)
      returns (raised: Option<Error>)
      requires Valid()
      modifies this
      ensures Valid()
      ensures FirstUnknown(uses, TaskIds(tasks)).Some? ==>
        raised == Some(UnknownTask(name, FirstUnknown(uses, TaskIds(tasks)).value))
      ensures FirstUnknown(uses, TaskIds(tasks)).None? && CoerceAll(branches).Failure? ==>
        raised == Some(MalformedBranch)
      ensures raised.None? <==> FirstUnknown(uses, TaskIds(tasks)).None? && CoerceAll(branches).Success?
      ensures raised.Some? ==> steps == old(steps)
      ensures raised.None? ==>
        steps == old(steps) + [StepSpec(|old(steps)| + 1, name, kind, doc, uses, inputTemplate, config, CoerceAll(branches).value, nextStep)]
      ensures goal == old(goal) && memoryFile == old(memoryFile) && tasks == old(tasks)
    {
      var stepId := |steps| + 1;
      var known := TaskIds(tasks);
      var i := 0;
      while i < |uses|
        invariant 0 <= i <= |uses|
        invariant FirstUnknown(uses, known) == FirstUnknown(uses[i..], known)
      {
        assert uses[i..][0] == uses[i] && uses[i..][1..] == uses[i + 1..];
        if uses[i] !in known {
          return Some(UnknownTask(name, uses[i]));
        }
        i := i + 1;
      }
      assert uses[i..] == [];
      var models: seq<Branch> := [];
      var j := 0;
      while j < |branches|
        invariant 0 <= j <= |branches| && |models| == j
        invariant forall k :: 0 <= k < j ==> CoerceBranch(branches[k]) == Success(models[k])
      {
        var coerced := CoerceBranch(branches[j]);
        if coerced.Failure? {
          return Some(coerced.error);
        }
        models := models + [coerced.value];
        j := j + 1;
      }
      assert models == CoerceAll(branches).value;
      steps := steps + [StepSpec(stepId, name, kind, doc, uses, inputTemplate, config, models, nextStep)];
      raised := None;
    }

    /**
     * `compile`: raises without a non-empty goal (checked first) or without a
     * non-empty memory path; otherwise snapshots the tasks in registration
     * order and the steps in insertion order.  A valid builder never hits the
     * workflow's own uniqueness checks.
     */
    function Compile(): (r: Result<WorkflowSpec>)
      reads this
      ensures !Filled(goal) ==> r == Failure(MissingGoal)
      ensures Filled(goal) && !Filled(memoryFile) ==> r == Failure(MissingMemoryFile)
      ensures Valid() ==> (r.Success? <==> Filled(goal) && Filled(memoryFile))
      ensures Valid() && r.Success? ==>
        r.value == WorkflowSpec(goal.value, memoryFile.value, tasks, steps) && WellFormed(r.value)
    {
      GaplessIdsDistinct(steps);
      if !Filled(goal) then Failure(MissingGoal)
      else if !Filled(memoryFile) then Failure(MissingMemoryFile)
      else NewWorkflow(goal.value, memoryFile.value, tasks, steps)
    }
  }
}
