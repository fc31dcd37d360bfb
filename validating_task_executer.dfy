/** ValidatingTaskExecuter: the stage of the task-execution chain that validates a task's
    inputs and outputs before anything else runs, and either rethrows, records a validation
    failure, or hands the task on to the next stage unchanged. */
module ValidatingExecution {
  import opened Wrappers
  import opened Paths
  import opened TaskValidation

  /** At most this many messages are surfaced as causes of a validation failure. */
  const MaxCauses: nat := 5

  /** The two summary phrasings share their tail and differ from their first letter on. */
  const ConfigurationOf: string := " found with the configuration of "
  const SingularLead: string := "A problem was" + ConfigurationOf
  const PluralLead: string := "Some problems were" + ConfigurationOf

  /** One surfaced validation message. */
  datatype InvalidUserDataException = InvalidUserDataException(message: string)

  /** The validation-failure outcome: a summary line and the surfaced causes. */
  datatype TaskValidationException = TaskValidationException(summary: string, causes: seq<InvalidUserDataException>)

  /** The exception rethrown when validation itself throws: the task and what was thrown. */
  datatype TaskExecutionException = TaskExecutionException(task: Task, cause: Exception)

  /** A task as this stage sees it: its string form (used in messages), its project's file
      resolver, and how its input and output property sets validate. */
  class Task {
    const description: string
    const projectResolver: FileResolver
    const inputs: PropertySetValidation
    const outputs: PropertySetValidation

    constructor (description: string, projectResolver: FileResolver,
                 inputs: PropertySetValidation, outputs: PropertySetValidation)
      ensures this.description == description && this.projectResolver == projectResolver
      ensures this.inputs == inputs && this.outputs == outputs
    {
      this.description := description;
      this.projectResolver := projectResolver;
      this.inputs := inputs;
      this.outputs := outputs;
    }
  }

  /** TaskExecutionContext: passed along untouched. */
  class TaskExecutionContext {
    constructor () {}
  }

  /** TaskStateInternal: the outcome slot, and a ghost count of setOutcome calls. */
  class TaskState {
    var outcome: Option<TaskValidationException>
    ghost var outcomeWrites: nat

    constructor ()
      ensures outcome == None && outcomeWrites == 0
    {
      outcome := None;
      outcomeWrites := 0;
    }

    method SetOutcome(failure: TaskValidationException)
      modifies this
      ensures outcome == Some(failure) && outcomeWrites == old(outcomeWrites) + 1
    {
      outcome := Some(failure);
      outcomeWrites := outcomeWrites + 1;
    }
  }

  /** One call of a stage's execute, with the references it was given. */
  datatype Invocation = Invocation(task: Task, state: TaskState, context: TaskExecutionContext)

  /** The next stage of the chain. What it does with a task is not part of this model; it keeps
      a ghost log of the calls it receives. */
  class TaskExecuter {
    ghost var invocations: seq<Invocation>

    constructor ()
      ensures invocations == []
    {
      invocations := [];
    }

    method Execute(task: Task, state: TaskState, context: TaskExecutionContext)
      modifies this
      ensures invocations == old(invocations) + [Invocation(task, state, context)]
    {
      invocations := invocations + [Invocation(task, state, context)];
    }
  }

  /** What the stage does with a task, decided from what its two validation calls do. */
  datatype Verdict =
    | Rethrow(exception: TaskExecutionException)
    | Reject(failure: TaskValidationException)
    | Delegate

  function Min(a: nat, b: nat): (m: nat)
  {
    if a <= b then a else b
  }

  /** The messages that become causes: the first MaxCauses of them, in order. */
  function Surfaced(messages: seq<string>): (r: seq<string>)
    ensures r <= messages
    ensures |r| == Min(MaxCauses, |messages|)
  {
    if |messages| <= MaxCauses then messages else messages[..MaxCauses]
  }

  predicate IsSingularSummary(s: string)
  {
    SingularLead <= s
  }

  predicate IsPluralSummary(s: string)
  {
    PluralLead <= s
  }

  /** The summary line of a validation failure with the given number of surfaced causes:
      the singular phrasing exactly for one cause, the plural one otherwise, ending with the
      task's string form and a full stop. */
  function Summary(causeCount: nat, task: string): (r: string)
    ensures IsSingularSummary(r) <==> causeCount == 1
    ensures IsPluralSummary(r) <==> causeCount != 1
    ensures |r| > |task| && r[|r| - |task| - 1..] == task + "."
    ensures |r| == (if causeCount == 1 then |SingularLead| else |PluralLead|) + |task| + 1
  {
    var lead := if causeCount == 1 then SingularLead else PluralLead;
    var r := lead + task + ".";
    assert SingularLead[0] != PluralLead[0];
    assert r[0] == lead[0];
    assert lead <= r by { assert r[..|lead|] == lead; }
    assert r[|r| - |task| - 1..] == task + ".";
    r
  }

  /** Each surfaced message wrapped as a cause, in order. */
  function CausesOf(messages: seq<string>): (causes: seq<InvalidUserDataException>)
  {
    seq(|messages|, i requires 0 <= i < |messages| => InvalidUserDataException(messages[i]))
  }

  /** The loop that wraps each surfaced message as a cause. */
  method BuildCauses(messages: seq<string>) returns (causes: seq<InvalidUserDataException>)
    ensures |causes| == |messages|
    ensures forall k :: 0 <= k < |messages| ==> causes[k].message == messages[k]
  {
    causes := [];
    for i := 0 to |messages|
      invariant |causes| == i
      invariant forall k :: 0 <= k < i ==> causes[k].message == messages[k]
    {
      causes := causes + [InvalidUserDataException(messages[i])];
    }
  }

  /** The decision rule of the stage: an exception from input validation is rethrown without
      looking at outputs; then one from output validation; otherwise any message at all means
      a validation failure over the surfaced messages; no message means delegation. */
  function Decide(task: Task, inputs: ValidationStep, outputs: ValidationStep): (r: Verdict)
    ensures r.Rethrow? ==> r.exception.task == task
    ensures r.Reject? ==> 1 <= |r.failure.causes| <= MaxCauses
    ensures r.Reject? ==>
              var s := r.failure.summary;
              |s| > |task.description| && s[|s| - |task.description| - 1..] == task.description + "."
  {
    if inputs.thrown.Some? then
      Rethrow(TaskExecutionException(task, inputs.thrown.value))
    else if outputs.thrown.Some? then
      Rethrow(TaskExecutionException(task, outputs.thrown.value))
    else
      var messages := inputs.appended + outputs.appended;
      if messages == [] then
        Delegate
      else
        var surfaced := Surfaced(messages);
        Reject(TaskValidationException(Summary(|surfaced|, task.description), CausesOf(surfaced)))
  }

  /** The verdict for a task, from what its own property sets do with its project's resolver. */
  function VerdictFor(task: Task): (r: Verdict)
    ensures r.Rethrow? ==> r.exception.task == task
    ensures r.Rethrow? ==>
              task.inputs(task.projectResolver).thrown == Some(r.exception.cause) ||
              task.outputs(task.projectResolver).thrown == Some(r.exception.cause)
    ensures r.Reject? ==> 1 <= |r.failure.causes| <= MaxCauses
  {
    Decide(task, task.inputs(task.projectResolver), task.outputs(task.projectResolver))
  }

  /** An exception from either validation call is rethrown, wrapped with the task, and nothing
      else happens; one from input validation is the one rethrown. */
  lemma RethrowsExactlyWhenValidationThrows(task: Task, inputs: ValidationStep, outputs: ValidationStep)
    ensures Decide(task, inputs, outputs).Rethrow? <==> inputs.thrown.Some? || outputs.thrown.Some?
    ensures inputs.thrown.Some? ==>
              Decide(task, inputs, outputs) == Rethrow(TaskExecutionException(task, inputs.thrown.value))
    ensures inputs.thrown.None? && outputs.thrown.Some? ==>
              Decide(task, inputs, outputs) == Rethrow(TaskExecutionException(task, outputs.thrown.value))
  {
  }

  /** Once input validation throws, what output validation would do makes no difference. */
  lemma InputExceptionMasksOutputs(task: Task, inputs: ValidationStep, outputs: ValidationStep,
                                   otherOutputs: ValidationStep)
    requires inputs.thrown.Some?
    ensures Decide(task, inputs, outputs) == Decide(task, inputs, otherOutputs)
  {
  }

  /** The task is handed on exactly when neither call threw and neither appended a message. */
  lemma DelegatesExactlyWhenClean(task: Task, inputs: ValidationStep, outputs: ValidationStep)
    ensures Decide(task, inputs, outputs).Delegate? <==>
              inputs.thrown.None? && outputs.thrown.None? && inputs.appended == [] && outputs.appended == []
  {
  }

  /** A validation failure carries between one and MaxCauses causes: the first messages
      collected, in the order they were collected, input messages before output messages. */
  lemma RejectionSurfacesFirstMessages(task: Task, inputs: ValidationStep, outputs: ValidationStep)
    requires Decide(task, inputs, outputs).Reject?
    ensures var causes := Decide(task, inputs, outputs).failure.causes;
            var n := |inputs.appended|;
            1 <= |causes| <= MaxCauses &&
            |causes| == Min(MaxCauses, n + |outputs.appended|) &&
            (forall k :: 0 <= k < |causes| ==>
               causes[k].message == if k < n then inputs.appended[k] else outputs.appended[k - n])
  {
  }

  /** The summary is singular exactly when one message was collected, plural otherwise. */
  lemma SummaryPhrasingFollowsMessageCount(task: Task, inputs: ValidationStep, outputs: ValidationStep)
    requires Decide(task, inputs, outputs).Reject?
    ensures var failure := Decide(task, inputs, outputs).failure;
            (IsSingularSummary(failure.summary) <==> |failure.causes| == 1) &&
            (IsSingularSummary(failure.summary) <==> |inputs.appended| + |outputs.appended| == 1) &&
            (IsPluralSummary(failure.summary) <==> |failure.causes| > 1)
  {
  }

  /** Seven collected problems surface as five causes under the plural summary; the fifth
      cause is the second output message. */
  lemma SevenProblemsSurfaceFive(task: Task, inputs: ValidationStep, outputs: ValidationStep)
    requires inputs.thrown.None? && outputs.thrown.None?
    requires |inputs.appended| == 3 && |outputs.appended| == 4
    ensures Decide(task, inputs, outputs).Reject?
    ensures var failure := Decide(task, inputs, outputs).failure;
            |failure.causes| == 5 && IsPluralSummary(failure.summary) &&
            failure.causes[4].message == outputs.appended[1]
  {
  }

  class ValidatingTaskExecuter {
    const executer: TaskExecuter

    constructor (executer: TaskExecuter)
      ensures this.executer == executer
    {
      this.executer := executer;
    }

    /** execute(task, state, context). The thrown result stands for the exception the Java
        method throws; the ghost result is the validation context's log of the property sets
        validated into it, in call order. */
    method Execute(task: Task, state: TaskState, context: TaskExecutionContext)
      returns (thrown: Option<TaskExecutionException>, ghost validated: seq<PropertyRole>)
      modifies state, executer
      ensures validated == if task.inputs(task.projectResolver).thrown.Some? then [Inputs] else [Inputs, Outputs]
      ensures VerdictFor(task).Rethrow? ==>
                thrown == Some(VerdictFor(task).exception) &&
                unchanged(state) && executer.invocations == old(executer.invocations)
      ensures VerdictFor(task).Reject? ==>
                thrown == None &&
                state.outcome == Some(VerdictFor(task).failure) &&
                state.outcomeWrites == old(state.outcomeWrites) + 1 &&
                executer.invocations == old(executer.invocations)
      ensures VerdictFor(task).Delegate? ==>
                thrown == None && unchanged(state) &&
                executer.invocations == old(executer.invocations) + [Invocation(task, state, context)]
    {
      var messages := new MessageList();
      var resolver := task.projectResolver;
      var validationContext := new ValidationContext(resolver, messages);

      var failure := ValidatePropertySet(Inputs, task.inputs, task.outputs, validationContext);
      if failure.None? {
        failure := ValidatePropertySet(Outputs, task.inputs, task.outputs, validationContext);
      }
      validated := validationContext.validated;
      if failure.Some? {
        thrown := Some(TaskExecutionException(task, failure.value));
        return;
      }

      assert messages.items
             == task.inputs(task.projectResolver).appended + task.outputs(task.projectResolver).appended;
      if messages.items != [] {
        var surfaced := messages.items[..Min(MaxCauses, |messages.items|)];
        var causes := BuildCauses(surfaced);
        var errorMessage;
        if |surfaced| == 1 {
          errorMessage := SingularLead + task.description + ".";
        } else {
          errorMessage := PluralLead + task.description + ".";
        }
        assert surfaced == Surfaced(messages.items);
        assert errorMessage == Summary(|surfaced|, task.description);
        assert causes == CausesOf(surfaced);
        state.SetOutcome(TaskValidationException(errorMessage, causes));
        thrown := None;
        return;
      }
      executer.Execute(task, state, context);
      thrown := None;
    }
  }
}
