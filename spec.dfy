/**
 * The immutable specification records of a workflow: tasks, steps, branches,
 * the workflow itself, the request an executor receives and the response it
 * returns, together with their validating constructors and their
 * serialisation to plain nested mappings.
 */
module Spec {
  import opened Base

  // ---------------------------------------------------------------------------
  // Dynamic values (Python `Any`) and insertion-ordered mappings (Python `dict`)
  // ---------------------------------------------------------------------------

  /** A Python value as far as the workflow code inspects it. */
  datatype Value =
    | VNone
    | VStr(s: string)
    | VInt(i: int)
    | VBool(b: bool)
    | VList(items: seq<Value>)
    | VDict(entries: seq<(string, Value)>)
    | VOther(tag: nat, truthy: bool)   // any other object, opaque to the workflow code, with its truth value

  /** A `dict[str, Any]`: its entries in insertion order. */
  type Dict = seq<(string, Value)>

  function Keys(d: Dict): seq<string> {
    seq(|d|, i requires 0 <= i < |d| => d[i].0)
  }

  /** `d.get(k)`: the value stored under `k`, if any. */
  function Get(d: Dict, k: string): Option<Value> {
    if d == [] then None
    else if d[0].0 == k then Some(d[0].1)
    else Get(d[1..], k)
  }

  lemma {:induction false} GetSomeIffKey(d: Dict, k: string)
    ensures Get(d, k).Some? <==> k in Keys(d)
  {
    if d != [] {
      assert Keys(d) == [d[0].0] + Keys(d[1..]);
      GetSomeIffKey(d[1..], k);
    }
  }

  /** Overwrites the value stored under `k`, keeping its position. */
  function Replace(d: Dict, k: string, v: Value): (r: Dict)
    ensures Keys(r) == Keys(d)
  {
    if d == [] then []
    else
      var r := [if d[0].0 == k then (k, v) else d[0]] + Replace(d[1..], k, v);
      assert Keys(d) == [d[0].0] + Keys(d[1..]);
      assert r[1..] == Replace(d[1..], k, v);
      r
  }

  lemma {:induction false} GetReplace(d: Dict, k: string, v: Value, q: string)
    ensures Get(Replace(d, k, v), q) == if q == k && k in Keys(d) then Some(v) else Get(d, q)
  {
    if d != [] {
      assert Keys(d) == [d[0].0] + Keys(d[1..]);
      var r := Replace(d, k, v);
      assert r[1..] == Replace(d[1..], k, v);
      GetReplace(d[1..], k, v, q);
    }
  }

  lemma {:induction false} GetAppend(d: Dict, k: string, v: Value, q: string)
    ensures Get(d + [(k, v)], q) == if q in Keys(d) then Get(d, q) else if q == k then Some(v) else None
  {
    if d == [] {
      assert d + [(k, v)] == [(k, v)];
    } else {
      assert Keys(d) == [d[0].0] + Keys(d[1..]);
      assert (d + [(k, v)])[1..] == d[1..] + [(k, v)];
      GetAppend(d[1..], k, v, q);
    }
  }

  /**
   * `d[k] = v`: a new key goes to the end, an existing key keeps its place.
   * Afterwards `k` maps to `v` (and, by PutOther, every other key to what it
   * mapped to before).
   */
  function Put(d: Dict, k: string, v: Value): (r: Dict)
    ensures Keys(r) == if k in Keys(d) then Keys(d) else Keys(d) + [k]
    ensures Get(r, k) == Some(v)
  {
    if k in Keys(d) then
      GetReplace(d, k, v, k);
      Replace(d, k, v)
    else
      var r := d + [(k, v)];
      assert Keys(r) == Keys(d) + [k];
      GetAppend(d, k, v, k);
      r
  }

  lemma PutOther(d: Dict, k: string, v: Value, q: string)
    requires q != k
    ensures Get(Put(d, k, v), q) == Get(d, q)
  {
    if k in Keys(d) {
      GetReplace(d, k, v, q);
    } else {
      GetAppend(d, k, v, q);
      GetSomeIffKey(d, q);
    }
  }

  /**
   * Python truthiness.  An opaque object (a float, a tuple, a set, an
   * instance) carries its own truth value: `0.0` and `()` are false, say.
   */
  predicate Truthy(v: Value) {
    match v
    case VNone => false
    case VStr(s) => s != ""
    case VInt(i) => i != 0
    case VBool(b) => b
    case VList(xs) => xs != []
    case VDict(d) => d != []
    case VOther(_, t) => t
  }

  function Strs(xs: seq<string>): seq<Value> {
    seq(|xs|, i requires 0 <= i < |xs| => VStr(xs[i]))
  }

  // ---------------------------------------------------------------------------
  // Step kinds
  // ---------------------------------------------------------------------------

  datatype StepKind = LLM | Shell | Python

  /** The enum member's string value. */
  function KindValue(k: StepKind): string {
    match k
    case LLM => "llm"
    case Shell => "shell"
    case Python => "python"
  }

  /** Enum lookup by value, `StepKind(s)`: fails on any other string. */
  function ParseKind(s: string): (r: Option<StepKind>)
    ensures r.Some? <==> s in {"llm", "shell", "python"}
    ensures r.Some? ==> KindValue(r.value) == s
  {
    if s == "llm" then Some(LLM)
    else if s == "shell" then Some(Shell)
    else if s == "python" then Some(Python)
    else None
  }

  /** Each kind's value reads back as that kind, so distinct kinds have distinct values. */
  lemma KindValueRoundTrip(k: StepKind)
    ensures ParseKind(KindValue(k)) == Some(k)
  {
  }

  // ---------------------------------------------------------------------------
  // Branch
  // ---------------------------------------------------------------------------

  datatype Branch = Branch(when: string, goto: int)

  function BranchAsDict(b: Branch): (r: Dict)
    ensures Keys(r) == ["when", "goto"]
    ensures Get(r, "when") == Some(VStr(b.when)) && Get(r, "goto") == Some(VInt(b.goto))
  {
    var p := Put([], "when", VStr(b.when));
    PutOther(p, "goto", VInt(b.goto), "when");
    Put(p, "goto", VInt(b.goto))
  }

  // ---------------------------------------------------------------------------
  // TaskSpec
  // ---------------------------------------------------------------------------

  datatype TaskSpec = TaskSpec(id: string, file: Option<string>, text: Option<string>)

  /** The constructor's invariant: a non-empty file or a non-empty text. */
  predicate HasSource(t: TaskSpec) {
    Filled(t.file) || Filled(t.text)
  }

  /** `TaskSpec(id, file, text)`, which raises unless a source is given. */
  function NewTask(id: string, file: Option<string>, text: Option<string>): (r: Result<TaskSpec>)
    ensures r.Success? <==> Filled(file) || Filled(text)
    ensures r.Success? ==> r.value == TaskSpec(id, file, text) && HasSource(r.value)
    ensures r.Failure? ==> r.error == TaskWithoutSource
  {
    if !Filled(file) && !Filled(text) then Failure(TaskWithoutSource)
    else Success(TaskSpec(id, file, text))
  }

  function OptStr(s: Option<string>): Option<Value> {
    if s.Some? then Some(VStr(s.value)) else None
  }

  /**
   * `TaskSpec.as_dict`: `id` always; `file` and `text` exactly when they are not
   * None (an empty string is kept), in that order.
   */
  function TaskAsDict(t: TaskSpec): (r: Dict)
    ensures Keys(r) == ["id"] + (if t.file.Some? then ["file"] else []) + (if t.text.Some? then ["text"] else [])
    ensures Get(r, "id") == Some(VStr(t.id))
    ensures Get(r, "file") == OptStr(t.file)
    ensures Get(r, "text") == OptStr(t.text)
  {
    var p0 := Put([], "id", VStr(t.id));
    var p1 := if t.file.Some? then Put(p0, "file", VStr(t.file.value)) else p0;
    var p2 := if t.text.Some? then Put(p1, "text", VStr(t.text.value)) else p1;
    assert Get(p1, "id") == Some(VStr(t.id)) by {
      if t.file.Some? { PutOther(p0, "file", VStr(t.file.value), "id"); }
    }
    assert Get(p1, "text") == None by {
      if t.file.Some? { PutOther(p0, "file", VStr(t.file.value), "text"); }
      GetSomeIffKey(p0, "text");
    }
    assert Get(p1, "file") == OptStr(t.file) by {
      GetSomeIffKey(p0, "file");
    }
    assert Get(p2, "id") == Get(p1, "id") && Get(p2, "file") == Get(p1, "file") by {
      if t.text.Some? {
        PutOther(p1, "text", VStr(t.text.value), "id");
        PutOther(p1, "text", VStr(t.text.value), "file");
      }
    }
    p2
  }

  // ---------------------------------------------------------------------------
  // StepSpec
  // ---------------------------------------------------------------------------

  datatype StepSpec = StepSpec(
    id: int,
    name: string,
    kind: StepKind,
    doc: string,
    uses: seq<string>,
    inputTemplate: Option<string>,
    config: Dict,
    branches: seq<Branch>,
    nextStep: Option<int>)

  function BranchList(bs: seq<Branch>): seq<Value> {
    seq(|bs|, i requires 0 <= i < |bs| => VDict(BranchAsDict(bs[i])))
  }

  function KeyIf(c: bool, k: string): seq<string> {
    if c then [k] else []
  }

  /** `d[k] = v` when `c` holds, as the serialisers' conditional insertions do. */
  function PutIf(c: bool, d: Dict, k: string, v: Value): (r: Dict)
    ensures k !in Keys(d) ==> Keys(r) == Keys(d) + KeyIf(c, k)
    ensures Get(r, k) == if c then Some(v) else Get(d, k)
  {
    if c then Put(d, k, v) else d
  }

  lemma PutIfOther(c: bool, d: Dict, k: string, v: Value, q: string)
    requires q != k
    ensures Get(PutIf(c, d, k, v), q) == Get(d, q)
  {
    if c { PutOther(d, k, v, q); }
  }

  /** The four entries `StepSpec.as_dict` always writes. */
  function StepHead(s: StepSpec): (r: Dict)
    ensures Keys(r) == ["id", "name", "kind", "doc"]
    ensures Get(r, "id") == Some(VInt(s.id)) && Get(r, "name") == Some(VStr(s.name))
    ensures Get(r, "kind") == Some(VStr(KindValue(s.kind))) && Get(r, "doc") == Some(VStr(s.doc))
    ensures Get(r, "uses") == None && Get(r, "input") == None && Get(r, "config") == None
    ensures Get(r, "branches") == None && Get(r, "next") == None
  {
    var r := [("id", VInt(s.id)), ("name", VStr(s.name)), ("kind", VStr(KindValue(s.kind))), ("doc", VStr(s.doc))];
    assert Keys(r) == ["id", "name", "kind", "doc"];
    assert r[1..][1..] == r[2..] && r[2..][1..] == r[3..];
    assert Get(r[3..], "doc") == Some(VStr(s.doc));
    assert Get(r[1..], "doc") == Get(r[2..], "doc") == Get(r[3..], "doc");
    assert Get(r[2..], "kind") == Some(VStr(KindValue(s.kind)));
    GetSomeIffKey(r, "uses");
    GetSomeIffKey(r, "input");
    GetSomeIffKey(r, "config");
    GetSomeIffKey(r, "branches");
    GetSomeIffKey(r, "next");
    r
  }

  /** `StepSpec.as_dict`. */
  function StepAsDict(s: StepSpec): Dict {
    var p1 := PutIf(s.uses != [], StepHead(s), "uses", VList(Strs(s.uses)));
    var p2 := PutIf(s.inputTemplate.Some?, p1, "input", VStr(if s.inputTemplate.Some? then s.inputTemplate.value else ""));
    var p3 := PutIf(s.config != [], p2, "config", VDict(s.config));
    var p4 := PutIf(s.branches != [], p3, "branches", VList(BranchList(s.branches)));
    PutIf(s.nextStep.Some?, p4, "next", VInt(if s.nextStep.Some? then s.nextStep.value else 0))
  }

  /**
   * Which keys `StepSpec.as_dict` writes, and in which order: `id`, `name`,
   * `kind`, `doc` always; `uses`, `config` and `branches` only when non-empty;
   * `input` and `next` only when not None.
   */
  lemma StepAsDictKeys(s: StepSpec)
    ensures Keys(StepAsDict(s)) == ["id", "name", "kind", "doc"] + KeyIf(s.uses != [], "uses")
      + KeyIf(s.inputTemplate.Some?, "input") + KeyIf(s.config != [], "config")
      + KeyIf(s.branches != [], "branches") + KeyIf(s.nextStep.Some?, "next")
  {
    var p0 := StepHead(s);
    var c1, c2, c3, c4, c5 := s.uses != [], s.inputTemplate.Some?, s.config != [], s.branches != [], s.nextStep.Some?;
    var v1 := VList(Strs(s.uses));
    var v2 := VStr(if s.inputTemplate.Some? then s.inputTemplate.value else "");
    var v3 := VDict(s.config);
    var v4 := VList(BranchList(s.branches));
    var v5 := VInt(if s.nextStep.Some? then s.nextStep.value else 0);
    var r := PutIf(c5, PutIf(c4, PutIf(c3, PutIf(c2, PutIf(c1, p0, "uses", v1), "input", v2),
                                     "config", v3), "branches", v4), "next", v5);
    assert r == StepAsDict(s);
    OptionalKeys(p0, c1, v1, c2, v2, c3, v3, c4, v4, c5, v5);
  }

  /** The five conditional insertions of `StepSpec.as_dict` append their keys in order. */
  lemma OptionalKeys(p0: Dict, c1: bool, v1: Value, c2: bool, v2: Value, c3: bool, v3: Value,
                     c4: bool, v4: Value, c5: bool, v5: Value)
    requires Keys(p0) == ["id", "name", "kind", "doc"]
    ensures Keys(PutIf(c5, PutIf(c4, PutIf(c3, PutIf(c2, PutIf(c1, p0, "uses", v1), "input", v2),
                                           "config", v3), "branches", v4), "next", v5))
      == ["id", "name", "kind", "doc"] + KeyIf(c1, "uses") + KeyIf(c2, "input")
         + KeyIf(c3, "config") + KeyIf(c4, "branches") + KeyIf(c5, "next")
  {
    var p1 := PutIf(c1, p0, "uses", v1);
    assert Keys(p1) == Keys(p0) + KeyIf(c1, "uses");
    var p2 := PutIf(c2, p1, "input", v2);
    assert "input" !in Keys(p1);
    var p3 := PutIf(c3, p2, "config", v3);
    assert "config" !in Keys(p2);
    var p4 := PutIf(c4, p3, "branches", v4);
    assert "branches" !in Keys(p3);
    assert "next" !in Keys(p4);
  }

  /**
   * What `StepSpec.as_dict` stores: the kind as its string value, `uses` and
   * `branches` as lists in their own order, each optional field only when
   * present.
   */
  lemma StepAsDictValues(s: StepSpec)
    ensures Get(StepAsDict(s), "id") == Some(VInt(s.id))
    ensures Get(StepAsDict(s), "name") == Some(VStr(s.name))
    ensures Get(StepAsDict(s), "kind") == Some(VStr(KindValue(s.kind)))
    ensures Get(StepAsDict(s), "doc") == Some(VStr(s.doc))
    ensures Get(StepAsDict(s), "uses") == if s.uses != [] then Some(VList(Strs(s.uses))) else None
    ensures Get(StepAsDict(s), "input") == OptStr(s.inputTemplate)
    ensures Get(StepAsDict(s), "config") == if s.config != [] then Some(VDict(s.config)) else None
    ensures Get(StepAsDict(s), "branches") == if s.branches != [] then Some(VList(BranchList(s.branches))) else None
    ensures Get(StepAsDict(s), "next") == if s.nextStep.Some? then Some(VInt(s.nextStep.value)) else None
  {
    var p0 := StepHead(s);
    var c1, c2, c3, c4, c5 := s.uses != [], s.inputTemplate.Some?, s.config != [], s.branches != [], s.nextStep.Some?;
    var v1 := VList(Strs(s.uses));
    var v2 := VStr(if s.inputTemplate.Some? then s.inputTemplate.value else "");
    var v3 := VDict(s.config);
    var v4 := VList(BranchList(s.branches));
    var v5 := VInt(if s.nextStep.Some? then s.nextStep.value else 0);
    var r := PutIf(c5, PutIf(c4, PutIf(c3, PutIf(c2, PutIf(c1, p0, "uses", v1), "input", v2),
                                     "config", v3), "branches", v4), "next", v5);
    assert r == StepAsDict(s);
    OptionalEntries(p0, c1, v1, c2, v2, c3, v3, c4, v4, c5, v5);
    OptionalOther(p0, c1, v1, c2, v2, c3, v3, c4, v4, c5, v5, "id");
    OptionalOther(p0, c1, v1, c2, v2, c3, v3, c4, v4, c5, v5, "name");
    OptionalOther(p0, c1, v1, c2, v2, c3, v3, c4, v4, c5, v5, "kind");
    OptionalOther(p0, c1, v1, c2, v2, c3, v3, c4, v4, c5, v5, "doc");
  }

  /** The five conditional insertions of `StepSpec.as_dict` leave every other key alone. */
  lemma OptionalOther(p0: Dict, c1: bool, v1: Value, c2: bool, v2: Value, c3: bool, v3: Value,
                      c4: bool, v4: Value, c5: bool, v5: Value, q: string)
    requires q != "uses" && q != "input" && q != "config" && q != "branches" && q != "next"
    ensures Get(PutIf(c5, PutIf(c4, PutIf(c3, PutIf(c2, PutIf(c1, p0, "uses", v1), "input", v2),
                                          "config", v3), "branches", v4), "next", v5), q) == Get(p0, q)
  {
    var p1 := PutIf(c1, p0, "uses", v1);
    var p2 := PutIf(c2, p1, "input", v2);
    var p3 := PutIf(c3, p2, "config", v3);
    var p4 := PutIf(c4, p3, "branches", v4);
    PutIfOther(c1, p0, "uses", v1, q);
    PutIfOther(c2, p1, "input", v2, q);
    PutIfOther(c3, p2, "config", v3, q);
    PutIfOther(c4, p3, "branches", v4, q);
    PutIfOther(c5, p4, "next", v5, q);
  }

  /** Each of the five conditional insertions of `StepSpec.as_dict` decides its own key. */
  lemma OptionalEntries(p0: Dict, c1: bool, v1: Value, c2: bool, v2: Value, c3: bool, v3: Value,
                        c4: bool, v4: Value, c5: bool, v5: Value)
    ensures var r := PutIf(c5, PutIf(c4, PutIf(c3, PutIf(c2, PutIf(c1, p0, "uses", v1), "input", v2),
                                                 "config", v3), "branches", v4), "next", v5);
      && Get(r, "uses") == (if c1 then Some(v1) else Get(p0, "uses"))
      && Get(r, "input") == (if c2 then Some(v2) else Get(p0, "input"))
      && Get(r, "config") == (if c3 then Some(v3) else Get(p0, "config"))
      && Get(r, "branches") == (if c4 then Some(v4) else Get(p0, "branches"))
      && Get(r, "next") == (if c5 then Some(v5) else Get(p0, "next"))
  {
    var p1 := PutIf(c1, p0, "uses", v1);
    var p2 := PutIf(c2, p1, "input", v2);
    var p3 := PutIf(c3, p2, "config", v3);
    var p4 := PutIf(c4, p3, "branches", v4);
    PutIfOther(c2, p1, "input", v2, "uses");
    PutIfOther(c3, p2, "config", v3, "uses");
    PutIfOther(c4, p3, "branches", v4, "uses");
    PutIfOther(c5, p4, "next", v5, "uses");
    PutIfOther(c3, p2, "config", v3, "input");
    PutIfOther(c4, p3, "branches", v4, "input");
    PutIfOther(c5, p4, "next", v5, "input");
    PutIfOther(c4, p3, "branches", v4, "config");
    PutIfOther(c5, p4, "next", v5, "config");
    PutIfOther(c5, p4, "next", v5, "branches");
    PutIfOther(c1, p0, "uses", v1, "input");
    PutIfOther(c1, p0, "uses", v1, "config");
    PutIfOther(c2, p1, "input", v2, "config");
    PutIfOther(c1, p0, "uses", v1, "branches");
    PutIfOther(c2, p1, "input", v2, "branches");
    PutIfOther(c3, p2, "config", v3, "branches");
    PutIfOther(c1, p0, "uses", v1, "next");
    PutIfOther(c2, p1, "input", v2, "next");
    PutIfOther(c3, p2, "config", v3, "next");
    PutIfOther(c4, p3, "branches", v4, "next");
  }


  // ---------------------------------------------------------------------------
  // WorkflowSpec
  // ---------------------------------------------------------------------------

  datatype WorkflowSpec = WorkflowSpec(goal: string, memoryFile: string, tasks: seq<TaskSpec>, steps: seq<StepSpec>)

  function TaskIds(ts: seq<TaskSpec>): (r: seq<string>)
    ensures |r| == |ts|
  {
    seq(|ts|, i requires 0 <= i < |ts| => ts[i].id)
  }

  function StepIds(ss: seq<StepSpec>): (r: seq<int>)
    ensures |r| == |ss|
  {
    seq(|ss|, i requires 0 <= i < |ss| => ss[i].id)
  }

  /** What a successfully constructed workflow satisfies. */
  predicate WellFormed(w: WorkflowSpec) {
    Distinct(TaskIds(w.tasks)) && Distinct(StepIds(w.steps))
  }

  /**
   * `WorkflowSpec(goal, memory_file, tasks, steps)`: raises when two tasks share
   * an id (checked first) or two steps share an id.
   */
  function NewWorkflow(goal: string, memoryFile: string, tasks: seq<TaskSpec>, steps: seq<StepSpec>): (r: Result<WorkflowSpec>)
    ensures r.Success? <==> Distinct(TaskIds(tasks)) && Distinct(StepIds(steps))
    ensures r.Success? ==> r.value == WorkflowSpec(goal, memoryFile, tasks, steps) && WellFormed(r.value)
    ensures !Distinct(TaskIds(tasks)) ==> r == Failure(DuplicateTaskIds)
    ensures Distinct(TaskIds(tasks)) && !Distinct(StepIds(steps)) ==> r == Failure(DuplicateStepIds)
  {
    DistinctIffFullSet(TaskIds(tasks));
    DistinctIffFullSet(StepIds(steps));
    if |ToSet(TaskIds(tasks))| != |tasks| then Failure(DuplicateTaskIds)
    else if |ToSet(StepIds(steps))| != |steps| then Failure(DuplicateStepIds)
    else Success(WorkflowSpec(goal, memoryFile, tasks, steps))
  }

  function TaskList(ts: seq<TaskSpec>): (r: seq<Value>)
    ensures |r| == |ts|
  {
    seq(|ts|, i requires 0 <= i < |ts| => VDict(TaskAsDict(ts[i])))
  }

  function StepList(ss: seq<StepSpec>): (r: seq<Value>)
    ensures |r| == |ss|
  {
    seq(|ss|, i requires 0 <= i < |ss| => VDict(StepAsDict(ss[i])))
  }

  /** `WorkflowSpec.as_dict`: goal, memory file, then tasks and steps in stored order. */
  function WorkflowAsDict(w: WorkflowSpec): (r: Dict)
    ensures Keys(r) == ["goal", "memory_file", "tasks", "steps"]
    ensures Get(r, "goal") == Some(VStr(w.goal)) && Get(r, "memory_file") == Some(VStr(w.memoryFile))
    ensures Get(r, "tasks") == Some(VList(TaskList(w.tasks)))
    ensures Get(r, "steps") == Some(VList(StepList(w.steps)))
  {
    var a := Put([], "goal", VStr(w.goal));
    var b := Put(a, "memory_file", VStr(w.memoryFile));
    var c := Put(b, "tasks", VList(TaskList(w.tasks)));
    var r := Put(c, "steps", VList(StepList(w.steps)));
    assert Keys(a) == ["goal"] && "memory_file" !in Keys(a);
    assert Keys(b) == ["goal", "memory_file"] && "tasks" !in Keys(b);
    assert Keys(c) == ["goal", "memory_file", "tasks"] && "steps" !in Keys(c);
    PutOther(a, "memory_file", VStr(w.memoryFile), "goal");
    PutOther(b, "tasks", VList(TaskList(w.tasks)), "goal");
    PutOther(b, "tasks", VList(TaskList(w.tasks)), "memory_file");
    PutOther(c, "steps", VList(StepList(w.steps)), "goal");
    PutOther(c, "steps", VList(StepList(w.steps)), "memory_file");
    PutOther(c, "steps", VList(StepList(w.steps)), "tasks");
    r
  }

  /** The `id` entry of a serialised record, if the value is a mapping that has one. */
  function RecordId(v: Value): Option<Value> {
    if v.VDict? then Get(v.entries, "id") else None
  }

  /**
   * Serialising a well-formed workflow yields records whose `id` entries are
   * pairwise distinct, among the tasks and among the steps.
   */
  lemma {:induction false} SerialisedIdsDistinct(w: WorkflowSpec)
    requires WellFormed(w)
    ensures forall i, j :: 0 <= i < j < |w.tasks| ==>
      RecordId(TaskList(w.tasks)[i]) != RecordId(TaskList(w.tasks)[j])
    ensures forall i, j :: 0 <= i < j < |w.steps| ==>
      RecordId(StepList(w.steps)[i]) != RecordId(StepList(w.steps)[j])
  {
    forall i, j | 0 <= i < j < |w.tasks|
      ensures RecordId(TaskList(w.tasks)[i]) != RecordId(TaskList(w.tasks)[j])
    {
      assert TaskIds(w.tasks)[i] != TaskIds(w.tasks)[j];
      assert TaskList(w.tasks)[i] == VDict(TaskAsDict(w.tasks[i]));
      assert TaskList(w.tasks)[j] == VDict(TaskAsDict(w.tasks[j]));
    }
    forall i, j | 0 <= i < j < |w.steps|
      ensures RecordId(StepList(w.steps)[i]) != RecordId(StepList(w.steps)[j])
    {
      assert StepIds(w.steps)[i] != StepIds(w.steps)[j];
      assert StepList(w.steps)[i] == VDict(StepAsDict(w.steps[i]));
      assert StepList(w.steps)[j] == VDict(StepAsDict(w.steps[j]));
      StepAsDictValues(w.steps[i]);
      StepAsDictValues(w.steps[j]);
    }
  }

  // ---------------------------------------------------------------------------
  // Requests and responses
  // ---------------------------------------------------------------------------

  datatype StepRequest = StepRequest(
    stepId: int,
    name: string,
    kind: StepKind,
    correlationId: string,
    input: Value,
    memoryText: string,
    config: Dict)

  datatype Status = Ok | Retry | Fail

  datatype StepResponse = StepResponse(
    status: Status,
    result: Value,              // VNone when absent
    quality: Option<string>,
    artifacts: Option<seq<string>>,
    nextStep: Option<int>,
    error: Option<string>)

  // ---------------------------------------------------------------------------
  // BaseTask and its Markdown body
  // ---------------------------------------------------------------------------

  datatype BaseTask = BaseTask(
    name: string,
    objective: string,
    description: string,
    sitesToVisit: seq<string>,
    substeps: seq<string>,
    prerequisites: seq<string>,
    instructions: string,
    expectedOutput: string,
    successCriteria: seq<string>)

  function Bullets(items: seq<string>): seq<string> {
    seq(|items|, i requires 0 <= i < |items| => "- " + items[i])
  }

  /** The list of Markdown lines `_generate_task_content` joins with newlines. */
  function ContentParts(b: BaseTask): seq<string> {
    var head := ["# " + b.name, "## Objective", b.objective, "", "## Description", b.description];
    var p1 := if b.prerequisites != [] then head + ["", "## Prerequisites"] + Bullets(b.prerequisites) else head;
    var p2 := if b.sitesToVisit != [] then p1 + ["", "## Resources"] + Bullets(b.sitesToVisit) else p1;
    var p3 := if b.substeps != [] then p2 + ["", "## Substeps"] + Bullets(b.substeps) else p2;
    var p4 := p3 + ["", "## Instructions", b.instructions];
    var p5 := if b.expectedOutput != "" then p4 + ["", "## Expected Output", b.expectedOutput] else p4;
    if b.successCriteria != [] then p5 + ["", "## Success Criteria"] + Bullets(b.successCriteria) else p5
  }

  function GenerateTaskContent(b: BaseTask): string {
    Join("\n", ContentParts(b))
  }

  /** A Markdown second-level heading line. */
  predicate IsHeading(line: string) {
    |line| >= 3 && line[..3] == "## "
  }

  /** The heading lines of a document, in order. */
  function Headings(lines: seq<string>): seq<string> {
    if lines == [] then []
    else (if IsHeading(lines[0]) then [lines[0]] else []) + Headings(lines[1..])
  }

  lemma {:induction false} HeadingsAppend(a: seq<string>, b: seq<string>)
    ensures Headings(a + b) == Headings(a) + Headings(b)
  {
    if a == [] {
      assert a + b == b;
    } else {
      assert (a + b)[0] == a[0];
      assert (a + b)[1..] == a[1..] + b;
      HeadingsAppend(a[1..], b);
    }
  }

  lemma {:induction false} BulletsHaveNoHeadings(items: seq<string>)
    ensures Headings(Bullets(items)) == []
  {
    if items != [] {
      assert Bullets(items) == ["- " + items[0]] + Bullets(items[1..]);
      assert ("- " + items[0])[0] == '-';
      BulletsHaveNoHeadings(items[1..]);
    }
  }

  /** The free-text fields do not themselves look like headings. */
  predicate PlainFields(b: BaseTask) {
    !IsHeading(b.objective) && !IsHeading(b.description) &&
    !IsHeading(b.instructions) && !IsHeading(b.expectedOutput)
  }

  /**
   * The body's sections: Objective, Description and Instructions always;
   * Prerequisites, Resources, Substeps, Expected Output and Success Criteria
   * exactly when their content is non-empty; all in this order.
   */
  lemma {:induction false} TaskSections(b: BaseTask)
    requires PlainFields(b)
    ensures Headings(ContentParts(b)) ==
      ["## Objective", "## Description"]
      + KeyIf(b.prerequisites != [], "## Prerequisites")
      + KeyIf(b.sitesToVisit != [], "## Resources")
      + KeyIf(b.substeps != [], "## Substeps")
      + ["## Instructions"]
      + KeyIf(b.expectedOutput != "", "## Expected Output")
      + KeyIf(b.successCriteria != [], "## Success Criteria")
  {
    var head := ["# " + b.name, "## Objective", b.objective, "", "## Description", b.description];
    HeaderHeadings(b);
    var p1 := if b.prerequisites != [] then head + ["", "## Prerequisites"] + Bullets(b.prerequisites) else head;
    OptionalSection(head, b.prerequisites != [], "## Prerequisites", b.prerequisites);
    var p2 := if b.sitesToVisit != [] then p1 + ["", "## Resources"] + Bullets(b.sitesToVisit) else p1;
    OptionalSection(p1, b.sitesToVisit != [], "## Resources", b.sitesToVisit);
    var p3 := if b.substeps != [] then p2 + ["", "## Substeps"] + Bullets(b.substeps) else p2;
    OptionalSection(p2, b.substeps != [], "## Substeps", b.substeps);
    var p4 := p3 + ["", "## Instructions", b.instructions];
    TextSectionHeadings(p3, "## Instructions", b.instructions);
    var p5 := if b.expectedOutput != "" then p4 + ["", "## Expected Output", b.expectedOutput] else p4;
    OptionalTextSection(p4, b.expectedOutput != "", "## Expected Output", b.expectedOutput);
    var p6 := if b.successCriteria != [] then p5 + ["", "## Success Criteria"] + Bullets(b.successCriteria) else p5;
    OptionalSection(p5, b.successCriteria != [], "## Success Criteria", b.successCriteria);
    assert ContentParts(b) == p6;
  }

  lemma OptionalSection(prefix: seq<string>, c: bool, title: string, items: seq<string>)
    requires IsHeading(title)
    ensures Headings(if c then prefix + ["", title] + Bullets(items) else prefix)
      == Headings(prefix) + KeyIf(c, title)
  {
    if c {
      SectionHeadings(prefix, title, items);
    } else {
      assert Headings(prefix) + [] == Headings(prefix);
    }
  }

  lemma OptionalTextSection(prefix: seq<string>, c: bool, title: string, text: string)
    requires IsHeading(title) && !IsHeading(text)
    ensures Headings(if c then prefix + ["", title, text] else prefix)
      == Headings(prefix) + KeyIf(c, title)
  {
    if c {
      TextSectionHeadings(prefix, title, text);
    } else {
      assert Headings(prefix) + [] == Headings(prefix);
    }
  }

  lemma HeaderHeadings(b: BaseTask)
    requires PlainFields(b)
    ensures Headings(["# " + b.name, "## Objective", b.objective, "", "## Description", b.description])
      == ["## Objective", "## Description"]
  {
    assert ("# " + b.name)[1] == ' ';
    var head := ["# " + b.name, "## Objective", b.objective, "", "## Description", b.description];
    assert head == [head[0]] + ([head[1]] + ([head[2]] + ([head[3]] + ([head[4]] + [head[5]]))));
    HeadingsAppend([head[4]], [head[5]]);
    HeadingsAppend([head[3]], [head[4]] + [head[5]]);
    HeadingsAppend([head[2]], [head[3]] + ([head[4]] + [head[5]]));
    HeadingsAppend([head[1]], [head[2]] + ([head[3]] + ([head[4]] + [head[5]])));
    HeadingsAppend([head[0]], [head[1]] + ([head[2]] + ([head[3]] + ([head[4]] + [head[5]]))));
  }

  lemma SectionHeadings(prefix: seq<string>, title: string, items: seq<string>)
    requires IsHeading(title)
    ensures Headings(prefix + ["", title] + Bullets(items)) == Headings(prefix) + [title]
  {
    HeadingsAppend(prefix + ["", title], Bullets(items));
    HeadingsAppend(prefix, ["", title]);
    assert ["", title] == [""] + [title];
    HeadingsAppend([""], [title]);
    BulletsHaveNoHeadings(items);
  }

  lemma TextSectionHeadings(prefix: seq<string>, title: string, text: string)
    requires IsHeading(title) && !IsHeading(text)
    ensures Headings(prefix + ["", title, text]) == Headings(prefix) + [title]
  {
    HeadingsAppend(prefix, ["", title, text]);
    assert ["", title, text] == [""] + ([title] + [text]);
    HeadingsAppend([""], [title] + [text]);
    HeadingsAppend([title], [text]);
  }

  /** The body begins with the title line `# name` and the Objective heading. */
  lemma ContentBeginsWithTitle(b: BaseTask)
    ensures "# " + b.name + "\n" + "## Objective" + "\n" <= GenerateTaskContent(b)
  {
    var parts := ContentParts(b);
    assert parts[0] == "# " + b.name && parts[1] == "## Objective" && |parts| >= 6;
    var rest := Join("\n", parts[2..]);
    assert Join("\n", parts[1..]) == parts[1] + "\n" + rest by {
      assert parts[1..][0] == parts[1] && parts[1..][1..] == parts[2..];
    }
    assert GenerateTaskContent(b) == parts[0] + "\n" + (parts[1] + "\n" + rest);
    assert GenerateTaskContent(b) == ("# " + b.name + "\n" + "## Objective" + "\n") + rest;
  }

  /**
   * `BaseTask.to_task_spec`: a text-only task named after the base task whose
   * text is the generated body; it always passes the task's validation.
   */
  function ToTaskSpec(b: BaseTask): (r: Result<TaskSpec>)
    ensures r.Success?
    ensures r.value.id == b.name && r.value.file == None
    ensures r.value.text == Some(GenerateTaskContent(b))
  {
    ContentBeginsWithTitle(b);
    NewTask(b.name, None, Some(GenerateTaskContent(b)))
  }
}
