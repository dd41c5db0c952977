# MCP Project Workflows, modelled in Dafny

This project models the workflow definition, registry and execution pipeline of
the `mcp_workflows` package:

- **Specification records** (`spec.py`): tasks, steps, branches, whole
  workflows, executor requests and responses, their validating constructors
  and their `as_dict` serialisations, and the Markdown body a `BaseTask`
  generates (module `Spec`, file `spec.dfy`).
- **The workflow builder** (`builder.py`): a mutable object that stages a
  goal, a memory path, task documents and numbered steps, then compiles them
  into a workflow (class `Builder.WorkflowBuilder`).
- **The service container and the executor factory** (`factories.py`): a
  registry with two maps, providers and cached singletons. It supports the
  three registration lifetimes (factory, singleton, instance) and the
  override flag (classes `Factories.ServiceContainer` and
  `Factories.ExecutorFactory`).
- **Executors** (`executors.py`): the deterministic language-model stand-in,
  the shell and Python stubs that always raise, and any other object with an
  `execute` method, described by what `execute` does with each request:
  answer or raise (module `Executors`).
- **The orchestrator** (`orchestrator.py`): it runs the steps in order,
  builds each request from the memory text as it stands, calls the executor
  registered for the step's kind, and appends one line per answered step to
  the memory. It stops after the first response with status "fail"
  (module `Orchestrator`).
  - `RunSteps` is a reference definition of a whole run, as a function of the
    steps, the executors registered for each kind and the initial memory.
  - The `Run` method of `WorkflowOrchestrator` is an imperative loop, proved
    to produce exactly that run.
  - The `Run*` lemmas state what a run does: its shape, its memory, its
    requests, its answers, its notifications and why it raises.
- **The repository's tests** (`tests/`), replayed on the model
  (module `Scenarios`). Each test becomes a method whose postcondition is
  what the test asserts.

Some modelling choices:

- Python exceptions are `Result`/`Option` values carrying an `Error`.
- Python values of type `Any` are the datatype `Spec.Value`. A `dict` is a
  sequence of key/value pairs in insertion order. Any other object (a float,
  a tuple, an instance) is opaque and carries only its truth value.
- Executors are objects of the class `Executors.Executor`, so "the same
  object" and "a new object each time" are reference (in)equality.
- Every factory callable in the repository builds a new executor. A provider
  is therefore described by the behaviour of the executors it builds.
- The memory file is a string field of the orchestrator. An absent file
  reads as "".
- Python's `str()` of a non-string value is the uninterpreted parameter
  `render`.
- The observer's notifications are kept as a ghost trace,
  `WorkflowOrchestrator.notifications`. The executors' `execute` calls are
  kept as the ghost trace `WorkflowOrchestrator.calls`.

## Model

| member | source | states |
|---|---|---|
| Base.DistinctIffFullSet | src/mcp_workflows/spec.py:193-200 | a sequence's set of elements has as many members as the sequence has entries exactly when no two entries are equal, so the `len(set) != len(tuple)` test detects a repeated id |
| Base.DistinctAppend | src/mcp_workflows/builder.py:46-50 | adding an id that is not yet present keeps the ids pairwise distinct |
| Spec.KindValue | src/mcp_workflows/spec.py:10-15 | no contract of its own: each kind's string value; `Spec.ParseKind` and `Spec.KindValueRoundTrip` state that the values are "llm", "shell", "python" and distinct |
| Spec.Get | src/mcp_workflows/orchestrator.py:74 | no contract of its own: `d.get(k)`; `Spec.GetSomeIffKey` states it finds a value exactly for a present key |
| Spec.GetSomeIffKey | src/mcp_workflows/orchestrator.py:74 | `d.get(k)` returns a value exactly when k is one of the mapping's keys |
| Spec.Truthy | src/mcp_workflows/orchestrator.py:74 | no contract of its own: Python truthiness, where None, empty strings, zero, False and empty lists and mappings are false, and an opaque object has its own truth value |
| Spec.Put | src/mcp_workflows/spec.py:132-136 | `payload[k] = v` stores v under k; a new key goes last and an existing key keeps its place |
| Spec.ParseKind | src/mcp_workflows/spec.py:10-15 | `StepKind(s)` succeeds exactly for "llm", "shell" and "python", and the kind found has s as its value |
| Spec.KindValueRoundTrip | src/mcp_workflows/spec.py:10-15 | each kind's string value looks up that same kind, so the three values are distinct |
| Spec.BranchAsDict | src/mcp_workflows/spec.py:25-28 | a branch serialises to exactly the keys `when` and `goto`, holding its two fields |
| Spec.NewTask | src/mcp_workflows/spec.py:124-127 | building a task succeeds exactly when the file or the text is non-empty; otherwise it raises the missing-source error |
| Spec.TaskAsDict | src/mcp_workflows/spec.py:129-137 | a task serialises with `id` first, then `file` and `text` exactly when they are not None, each holding its field |
| Spec.PutIf | src/mcp_workflows/spec.py:168-177 | a conditional insertion adds its key last exactly when its condition holds, and otherwise leaves the key's entry as it was |
| Spec.StepHead | src/mcp_workflows/spec.py:162-167 | the unconditional part of a step's payload has the keys `id`, `name`, `kind` and `doc` in that order, with the kind as its string value, and none of the optional keys |
| Spec.OptionalKeys | src/mcp_workflows/spec.py:168-177 | the five conditional insertions append `uses`, `input`, `config`, `branches` and `next` in that order, each exactly when its condition holds |
| Spec.OptionalOther | src/mcp_workflows/spec.py:168-177 | the five conditional insertions leave every other key's entry unchanged |
| Spec.OptionalEntries | src/mcp_workflows/spec.py:168-177 | each of the five conditional insertions alone decides what its own key holds |
| Spec.StepAsDict | src/mcp_workflows/spec.py:159-178 | no contract of its own: `StepSpec.as_dict`; `Spec.StepAsDictKeys` and `Spec.StepAsDictValues` state its keys, their order and their values |
| Spec.StepAsDictKeys | src/mcp_workflows/spec.py:159-178 | a step's payload has `id`, `name`, `kind`, `doc` always; `uses`, `config`, `branches` only when non-empty; `input`, `next` only when not None; in this order |
| Spec.StepAsDictValues | src/mcp_workflows/spec.py:159-178 | each key of a step's payload holds its field: the kind as "llm"/"shell"/"python", `uses` and `branches` as lists in stored order, each branch through its own serialisation |
| Spec.NewWorkflow | src/mcp_workflows/spec.py:190-200 | a workflow is built exactly when its task ids and its step ids are each pairwise distinct; duplicate task ids are reported first, then duplicate step ids |
| Spec.TaskList | src/mcp_workflows/spec.py:208 | the serialised task list has one entry per task |
| Spec.StepList | src/mcp_workflows/spec.py:209 | the serialised step list has one entry per step |
| Spec.WorkflowAsDict | src/mcp_workflows/spec.py:202-210 | a workflow serialises to `goal`, `memory_file`, `tasks`, `steps` in that order, with the tasks and steps in stored order through their own serialisations |
| Spec.SerialisedIdsDistinct | src/mcp_workflows/spec.py:190-210 | in a serialised well-formed workflow, no two task records and no two step records carry the same `id` |
| Spec.HeadingsAppend | src/mcp_workflows/spec.py:106 | the headings of two concatenated blocks of lines are the headings of the first, then those of the second |
| Spec.BulletsHaveNoHeadings | src/mcp_workflows/spec.py:69 | bullet lines `- item` are never section headings |
| Spec.HeaderHeadings | src/mcp_workflows/spec.py:56-63 | the fixed opening lines contribute exactly the Objective and Description headings |
| Spec.SectionHeadings | src/mcp_workflows/spec.py:65-84 | a bulleted section contributes exactly its own heading |
| Spec.TextSectionHeadings | src/mcp_workflows/spec.py:86-97 | a free-text section contributes exactly its own heading |
| Spec.OptionalSection | src/mcp_workflows/spec.py:99-104 | a bulleted section guarded by a condition contributes its heading exactly when the condition holds |
| Spec.OptionalTextSection | src/mcp_workflows/spec.py:92-97 | a free-text section guarded by a condition, as Expected Output is, contributes its heading exactly when the condition holds |
| Spec.ContentParts | src/mcp_workflows/spec.py:56-104 | no contract of its own: the list of Markdown lines of a base task's body; `Spec.TaskSections` states which sections it holds and in which order |
| Spec.GenerateTaskContent | src/mcp_workflows/spec.py:54-106 | no contract of its own: those lines joined with newlines; `Spec.ContentBeginsWithTitle` states how the text begins |
| Spec.TaskSections | src/mcp_workflows/spec.py:54-106 | the body's headings are Objective, Description, then Prerequisites, Resources and Substeps each exactly when non-empty, Instructions always, then Expected Output and Success Criteria each exactly when non-empty, in that order |
| Spec.ContentBeginsWithTitle | src/mcp_workflows/spec.py:56-106 | the generated body begins with the line `# name` followed by the Objective heading |
| Spec.ToTaskSpec | src/mcp_workflows/spec.py:49-52 | converting a base task never fails validation, and yields a text-only task named after the base task whose text is the generated body |
| Executors.Executor.constructor | src/mcp_workflows/executors.py:10-14 | a new executor object carries the behaviour it was built with |
| Executors.LLMRespond | src/mcp_workflows/executors.py:20-25 | no contract of its own: the stand-in's response; `Executors.LLMResponseShape` states its status, quality and result |
| Executors.LLMResponseShape | src/mcp_workflows/executors.py:17-25 | the stand-in answers status "ok" with quality "good" and a result holding exactly `message` (the step name followed by " :: synthesized response") and `echo` (the request's input) |
| Executors.Execute | src/mcp_workflows/executors.py:10-39 | the shell and Python stubs raise the not-implemented error for every request; the stand-in never raises; any other executor raises exactly when its own `execute` does, with its own exception |
| Executors.LLMDependsOnNameAndInput | src/mcp_workflows/executors.py:20-25 | two requests with the same name and input get equal stand-in responses, whatever their ids, memory text and configuration |
| Executors.LLMMessageNamesTheStep | src/mcp_workflows/executors.py:23-24 | requests with different names get different stand-in messages |
| Factories.ServiceContainer.constructor | src/mcp_workflows/factories.py:24-26 | a new container has no providers and no cached instances |
| Factories.ServiceContainer.IsRegistered | src/mcp_workflows/factories.py:73-76 | no contract of its own: a key is registered when it has a provider or a cached instance; the registration methods state how it changes |
| Factories.ServiceContainer.SetProvider | src/mcp_workflows/factories.py:83-88 | a registered key without override raises and changes nothing; otherwise the key's cached instance is dropped and the key resolves through the new provider |
| Factories.ServiceContainer.RegisterFactory | src/mcp_workflows/factories.py:28-37 | installs a non-caching provider under the same override rule, dropping any cached instance |
| Factories.ServiceContainer.RegisterSingleton | src/mcp_workflows/factories.py:39-48 | installs a caching provider under the same override rule, dropping any cached instance |
| Factories.ServiceContainer.RegisterInstance | src/mcp_workflows/factories.py:50-57 | under the override rule, removes the key's provider and caches the instance itself |
| Factories.ServiceContainer.Resolve | src/mcp_workflows/factories.py:59-71 | a cached key returns its cached object; a provided key builds a new object, cached only by a singleton provider; any other key raises the lookup error; what each key resolves to never changes and nothing cached is evicted |
| Factories.ServiceContainer.ClearSingletons | src/mcp_workflows/factories.py:78-81 | empties the cache and keeps the providers, so a key stays registered exactly when it has a provider |
| Factories.ExecutorFactory.constructor | src/mcp_workflows/factories.py:96-97 | with no container given, the factory gets a new empty one |
| Factories.ExecutorFactory.Sharing | src/mcp_workflows/factories.py:96-97 | with a container given, the factory uses that very container |
| Factories.ExecutorFactory.Key | src/mcp_workflows/factories.py:161-162 | a kind's key is "executor:" followed by a text that reads back as that kind |
| Factories.ExecutorFactory.IsRegistered | src/mcp_workflows/factories.py:148-151 | no contract of its own: the container's registration test on the kind's key; `Factories.ExecutorFactory.Create` succeeds exactly for a registered kind |
| Factories.ExecutorFactory.RegisterFactory | src/mcp_workflows/factories.py:105-114 | registers a non-caching provider under the kind's key, with the container's override rule |
| Factories.ExecutorFactory.RegisterSingleton | src/mcp_workflows/factories.py:116-125 | registers a caching provider under the kind's key; afterwards the kind creates that behaviour, nothing is cached for it, and every other kind is untouched |
| Factories.ExecutorFactory.RegisterInstance | src/mcp_workflows/factories.py:127-136 | registers the executor object for the kind; afterwards the kind creates that very object, and every other kind is untouched |
| Factories.ExecutorFactory.Create | src/mcp_workflows/factories.py:138-146 | succeeds exactly for a registered kind, returning its cached object if there is one; an unregistered kind raises an error naming the kind's value; no registration changes, nothing cached is dropped, and only a miss on a singleton provider caches a new object |
| Factories.ExecutorFactory.Default | src/mcp_workflows/factories.py:153-159 | a new factory over a new container whose only provider is the caching stand-in under the LLM key |
| Factories.KeyInjective | src/mcp_workflows/factories.py:161-162 | two kinds have the same key exactly when they are the same kind |
| Factories.DefaultRegistersOnlyLLM | src/mcp_workflows/factories.py:153-159 | the default factory registers the LLM kind, as a caching stand-in provider, and no other kind |
| Builder.CoerceBranch | src/mcp_workflows/builder.py:124-129 | a branch is kept as is; a mapping coerces exactly when its only keys are `when` and `goto`, holding a string and an integer, and then becomes the branch with those fields; otherwise it fails with the malformed-branch error |
| Builder.CoerceSerialisedBranch | src/mcp_workflows/builder.py:124-129 | a branch's own serialisation coerces back to that branch |
| Builder.CoerceAll | src/mcp_workflows/builder.py:72-75 | the branch list coerces exactly when every entry does, to the coerced entries in order |
| Builder.FirstUnknown | src/mcp_workflows/builder.py:67-71 | finds the first `uses` entry that is not a registered task id, and finds none exactly when every entry is registered |
| Builder.GaplessIdsDistinct | src/mcp_workflows/builder.py:66 | steps numbered 1..n in position order have pairwise distinct ids |
| Builder.WorkflowBuilder.constructor | src/mcp_workflows/builder.py:17-26 | a new builder has no goal, no memory path, no tasks and no steps |
| Builder.WorkflowBuilder.WithGoal | src/mcp_workflows/builder.py:28-31 | sets the goal, so the last call wins, and changes nothing else |
| Builder.WorkflowBuilder.Memory | src/mcp_workflows/builder.py:33-36 | sets the memory path, so the last call wins, and changes nothing else |
| Builder.WorkflowBuilder.RegisterTask | src/mcp_workflows/builder.py:38-51 | a known id raises first; then a task without a non-empty file or text raises; otherwise exactly that task is added last; a failure stores nothing |
| Builder.WorkflowBuilder.AddStep | src/mcp_workflows/builder.py:53-88 | an unknown `uses` entry raises naming the first one; then a malformed branch raises; otherwise exactly one step is appended, numbered one more than the step count; a failure stores nothing |
| Builder.WorkflowBuilder.Compile | src/mcp_workflows/builder.py:94-107 | a missing or empty goal raises first, then a missing or empty memory path; otherwise the workflow holds the tasks in registration order and the steps in insertion order, and never hits the uniqueness errors |
| Orchestrator.BuildRequest | src/mcp_workflows/orchestrator.py:40-48 | no contract of its own: the request for a step, with correlation id `step-<id>`, the input template or "" as input and the memory text given; `Orchestrator.RunRequests` states which memory each executed request carries |
| Orchestrator.FormatSummary | src/mcp_workflows/orchestrator.py:71-77 | no contract of its own: `- name: message`; `Orchestrator.LLMSummaryLine` and `Orchestrator.FalsyMessagePrintsResult` state its two cases |
| Orchestrator.FalsyMessagePrintsResult | src/mcp_workflows/orchestrator.py:71-77 | a result mapping whose `message` entry is falsy (such as `0.0` or an empty string) is printed whole |
| Orchestrator.FormatError | src/mcp_workflows/orchestrator.py:79-82 | no contract of its own: `- name: failed (detail)`, the detail being the error text, or "unknown error" when the error is None or empty; `Orchestrator.RunMemory` places it in the memory |
| Orchestrator.LineFor | src/mcp_workflows/orchestrator.py:53-58 | no contract of its own: the error line for a "fail" response and the summary line otherwise; `Orchestrator.RunMemory` states that each response appends exactly this line |
| Orchestrator.StepOutcome | src/mcp_workflows/orchestrator.py:40-58 | no contract of its own: the effect of one pass of the loop for one step; `Orchestrator.PassAnswered` states a pass that continues, and `WorkflowOrchestrator.RunOne` is proved to have exactly this effect |
| Orchestrator.RunSteps | src/mcp_workflows/orchestrator.py:38-59 | no contract of its own: the reference run, one pass per step in order, stopping after the first pass that raises or answers "fail"; the `Run*` lemmas state its properties and `WorkflowOrchestrator.Run` is proved to follow it |
| Orchestrator.PassAnswered | src/mcp_workflows/orchestrator.py:39-58 | a pass that does not stop the loop executed the request built from the memory on a registered kind, got an answer other than "fail", notified start and finish, and logged exactly one line |
| Orchestrator.RunShape | src/mcp_workflows/orchestrator.py:38-59 | a run returns at most one response per step; only the last can be a "fail"; a run that neither raised nor answered every step ended on a "fail"; a run that raised returned no "fail" |
| Orchestrator.RunMemory | src/mcp_workflows/orchestrator.py:52-58 | the final memory is the initial text followed by exactly one newline-terminated line per response, in order: the error line for "fail", the summary otherwise |
| Orchestrator.RunRequests | src/mcp_workflows/orchestrator.py:40-48 | every executed request is the one built for its step from the initial memory followed by the lines of the earlier steps, with correlation id `step-<id>` and the input template or "" as input |
| Orchestrator.RunAnswers | src/mcp_workflows/orchestrator.py:50-52 | every response is what the executor registered for its step's kind answers to that step's request |
| Orchestrator.RunEvents | src/mcp_workflows/orchestrator.py:49-57 | the notifications are one start and one finish (or error, for "fail") per response, in order, plus one last unpaired start when the run raised |
| Orchestrator.RunRaisedEvent | src/mcp_workflows/orchestrator.py:49-51 | a run that raised sent, last, the start notification of the step after the last response, with that step's request |
| Orchestrator.RunRaises | src/mcp_workflows/orchestrator.py:50-51 | a run raises only at the step after the last response: either its kind has no executor, nothing was executed for it and the error names the kind, or its executor raised from `execute` on the request it was given and `run` raises that same exception; a run does not raise exactly when it answered every step or ended on a "fail" |
| Orchestrator.LLMSummaryLine | src/mcp_workflows/orchestrator.py:71-77 | a step answered by the stand-in logs `- name: name :: synthesized response` |
| Orchestrator.Advance | src/mcp_workflows/orchestrator.py:39-56 | a run from step i is the pass for step i when that pass stops the loop, and otherwise that pass followed by the run from step i + 1 |
| Orchestrator.RunFrom | src/mcp_workflows/orchestrator.py:39-58 | unfolds a run from any step index into its first pass and the rest |
| Orchestrator.WorkflowOrchestrator.constructor | src/mcp_workflows/orchestrator.py:16-33 | uses the given factory or a new default one; every given executor is then the object created for its kind; LLM is always registered, as the stand-in when it was not registered before; when no executor is given for LLM, an LLM registration the given factory already had is kept, behaviour and cached object alike; other kinds keep what they had |
| Orchestrator.WorkflowOrchestrator.CreateFor | src/mcp_workflows/orchestrator.py:50 | creating the executor succeeds exactly for a registered kind, with that kind's behaviour and its cached object if any, and changes no registration |
| Orchestrator.WorkflowOrchestrator.Perform | src/mcp_workflows/orchestrator.py:51-58 | executing records the call; a raise leaves notifications and memory as they were; an answer is notified as finish or error and appends its one line |
| Orchestrator.WorkflowOrchestrator.Attempt | src/mcp_workflows/orchestrator.py:50-58 | an unregistered kind raises before anything is executed; otherwise the registered behaviour is executed and its answer notified and logged |
| Orchestrator.WorkflowOrchestrator.RunOne | src/mcp_workflows/orchestrator.py:40-58 | one pass of the loop body has exactly the effect of the reference pass for its step and the memory as it stood |
| Orchestrator.WorkflowOrchestrator.Pass | src/mcp_workflows/orchestrator.py:39-58 | after pass i, the run made so far plus the rest from step i + 1 is still the whole run, or the whole run is finished when the pass stopped it |
| Orchestrator.WorkflowOrchestrator.Loop | src/mcp_workflows/orchestrator.py:39-59 | the loop returns the reference run's responses, error and memory, and sends its notifications and requests |
| Orchestrator.WorkflowOrchestrator.Run | src/mcp_workflows/orchestrator.py:35-59 | `run` produces exactly the reference run over the workflow's steps, the executors registered when it starts and the current memory; it changes no registration (neither the container's providers nor any kind's behaviour), keeps every executor object cached before it, and a kind with a cached executor is always run by that object |
| Orchestrator.RegisterExecutors | src/mcp_workflows/orchestrator.py:27-29 | every given executor becomes the object created for its kind, and every other kind keeps what it had |
| Scenarios.SingletonReusesInstance | tests/test_factories.py:23-30 | two creates of a singleton registration return the same object |
| Scenarios.FactoryCreatesNewInstances | tests/test_factories.py:33-40 | two creates of a factory registration return different objects |
| Scenarios.InstanceIsReturned | tests/test_factories.py:43-49 | create returns the very instance registered |
| Scenarios.DefaultProvidesLLM | tests/test_factories.py:52-69 | the default factory creates the stand-in for LLM, and it answers "ok" |
| Scenarios.MissingRegistrationRaises | tests/test_factories.py:72-77 | creating an unregistered kind raises the error naming "shell" |
| Scenarios.BuilderProducesSpec | tests/test_builder.py:11-34 | the builder compiles the test's goal and memory path, one task and one step |
| Scenarios.OneStepWorkflow | tests/test_orchestrator.py:27-36 | the orchestrator tests' builder compiles to one step numbered 1 with the given name, kind and doc |
| Scenarios.SingleAnsweredStep | src/mcp_workflows/orchestrator.py:39-58 | a one-step run whose executor answers other than "fail" returns that answer, raises nothing and logs its one line |
| Scenarios.DefaultOrchestrator | src/mcp_workflows/orchestrator.py:26-31 | an orchestrator built without executors or factory has the stand-in registered for LLM |
| Scenarios.OrchestratorWritesMemory | tests/test_orchestrator.py:24-42 | a run of the one-step LLM workflow returns one response and leaves the memory `- Demo: Demo :: synthesized response` plus a newline |
| Scenarios.MappedOrchestrator | tests/test_orchestrator.py:59 | an executor given in the mapping is the object registered and cached for its kind |
| Scenarios.FactoryOrchestrator | tests/test_orchestrator.py:78-80 | an executor registered with the given factory is the object registered and cached for its kind |
| Scenarios.RunRecorded | tests/test_orchestrator.py:13-21 | a one-step run on the recording executor returns its one answer, and that executor receives exactly one request |
| Scenarios.ExplicitMappingIsUsed | tests/test_orchestrator.py:45-61 | the mapped executor overrides the default LLM registration and is called exactly once |
| Scenarios.FactoryKindIsUsed | tests/test_orchestrator.py:64-82 | the executor registered with the factory for the shell kind is called exactly once |

## Left out

- `WorkflowBuilder.emit_yaml` (src/mcp_workflows/builder.py:109-122) is not modelled: its output is the YAML library's and the filesystem's. The serialisations it dumps (`as_dict`) are modelled.
- `WorkflowBuilder.end` and the builder's fluent `return self`: the methods return only the error they raise, if any.
- Memory file I/O and directory creation (src/mcp_workflows/orchestrator.py:61-69): the memory is a string field, and an absent file reads as "". Nothing else writes the file between steps.
- The observer (src/mcp_workflows/hooks.py): hooks.py is not part of this model. The notifications are recorded as a ghost trace whether or not an observer is attached.
- Executors.Execute: an executor other than the stand-in and the stubs is a function of the request, so one whose answer depends on its earlier calls is not modelled; the repository's test doubles only count or store their calls, and which executor got which request is kept in the ghost trace `calls`.
- Orchestrator.WorkflowOrchestrator.Run: when `run` raises, Python loses the responses list; the model still returns the responses gathered before the error, next to the error.
- Orchestrator.WorkflowOrchestrator.Run: `calls` records the `execute` calls of the latest run only.
- Branch `when`/`goto` and `next_step`: stored and serialised, but never followed by `run`, as in the source.
- Builder.CoerceBranch: Python's `Branch(**mapping)` accepts any value for `when` and `goto`; the model accepts only a string and an integer, and reports every malformed mapping as one abstract error.
- Factories.ServiceContainer.Resolve: factory callables receive the container in Python; here no provider reads it, as in every factory of the repository. A callable that raises is not modelled (Python's `resolve` passes its exception on, and `create` turns a `LookupError` from it into the kind error), nor one that returns an already existing object: every provider builds a new executor that does not raise.
- Spec.TaskSections: counts headings over the list of lines before they are joined, as lines that begin with `## `. It assumes the objective, description, instructions and expected output do not themselves begin with `## `. A field or a bullet item that contains a newline followed by `## ` also adds a heading to the joined text, which the lemma does not count.
- Floating-point values (such as a configuration's `0.2`) are the opaque value `VOther`.
- Python's `str()` of non-string results is the uninterpreted parameter `render`; the model states nothing about its text.
- Error messages are modelled as the `Error` datatype rather than as their exact text. The one exception is the detail of a "fail" memory line, which is exact.
- src/mcp_workflows/templates.py, scaffold.py, src/mcp_workflows/cli.py, src/mcp_workflows/main.py and src/mcp_workflows/tasks.py are not part of this model.
- The `container` property of `ExecutorFactory` is the field `container` itself.
