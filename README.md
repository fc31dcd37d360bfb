# Task validation before execution

This project models two parts of a build engine's task-execution core.

The first is the validating stage of the task-executer chain (`ValidatingTaskExecuter`). It collects validation messages from a task's input properties and then its output properties into one list. If validation throws an `Exception`, it rethrows a `TaskExecutionException` wrapping it. An `Error` is not caught and escapes unwrapped; the model leaves that case out. If any message was collected, it records a validation failure on the task state. That failure has at most five causes, in collection order, and a singular or plural summary line. In that case the next stage is not called. Otherwise it calls the next stage once, with the same task, state and context.

The second is the declaration of one output file or directory of a task (`DefaultCacheableTaskOutputFilePropertySpec`). It holds an output type, a file resolver and a path expression, and builds its property file collection once. `getOutputFile` returns no file exactly when the unpacked path is null and the property is optional. In every other case it returns what the resolver makes of the original path. `validate` passes the optional flag and the output type to the file collection.

Modules:

- `Wrappers` (wrappers.dfy): `Option` for Java's null, `Result` for a value or a thrown exception, `Exception`.
- `Paths` (paths.dfy): a path expression is a literal or a deferred computation. `Unpack` plays the part of `DeferredUtil.unpack`. `FileResolver` is a function that may fail.
- `TaskValidation` (validation.dfy): the mutable message list, the validation context and the abstract validation of a property set.
- `OutputFileProperty` (output_file_property_spec.dfy): the output property spec, as a class. The Java `final` fields are `const` fields, except the file collection. The collection refers back to the spec, so it is a `var` assigned once after the object exists, and the invariant `Valid` says it is still the collection the constructor built.
- `ValidatingExecution` (validating_task_executer.dfy): the task, its state, the next stage, the decision rule `Decide`, and the executer. The executer's `Execute` is proved against `Decide`, and the lemmas beside `Decide` state the properties of the stage.

Collaborators the model cannot see are passed in as function values:

- the resolver;
- what a property set's `validate(context)` appends and whether it throws;
- what `TaskPropertyFileCollection.validate` appends and whether it throws.

A validation call may append some messages and then throw. The model allows that.

On an exception from validation, the code (ValidatingTaskExecuter.java:50-52) wraps it and rethrows it, and sets no outcome. In the model, `Execute` returns the exception and leaves the state unchanged.

## Model

| member | source | states |
|---|---|---|
| `TaskValidation.MessageList.constructor` | subprojects/core/src/main/java/org/gradle/api/internal/tasks/execution/ValidatingTaskExecuter.java:43 | the message list starts empty |
| `TaskValidation.ValidationContext.constructor` | subprojects/core/src/main/java/org/gradle/api/internal/tasks/execution/ValidatingTaskExecuter.java:44-45 | the context holds the project's resolver and the very list the executer reads afterwards, and no property set has been validated into it yet |
| `TaskValidation.ValidatePropertySet` | subprojects/core/src/main/java/org/gradle/api/internal/tasks/execution/ValidatingTaskExecuter.java:48-49 | validating a property set appends its messages to the shared list after those already there, drops none, and reports the exception it throws; the set validated is the task's set of the given role (inputs or outputs), and the context logs that role |
| `OutputFileProperty.DefaultCacheableTaskOutputFilePropertySpec.constructor` | subprojects/core/src/main/java/org/gradle/api/internal/tasks/DefaultCacheableTaskOutputFilePropertySpec.java:33-38 | the spec keeps the given resolver, output type and path; getOutputType returns that output type; the collection it holds is built from the task name, role "output", this spec, the same resolver and the same path, which makes `Valid` hold; the property starts out required |
| `OutputFileProperty.DefaultCacheableTaskOutputFilePropertySpec.OutputFile` | subprojects/core/src/main/java/org/gradle/api/internal/tasks/DefaultCacheableTaskOutputFilePropertySpec.java:46-52 | no file exactly when the unpacked path is null and the property is optional; otherwise the resolver's result on the original, not unpacked, path, its exception included |
| `OutputFileProperty.RequiredOutputIsResolved` | subprojects/core/src/main/java/org/gradle/api/internal/tasks/DefaultCacheableTaskOutputFilePropertySpec.java:47-51 | a required spec whose path is null still yields the resolver's result on that path, not "no file" |
| `OutputFileProperty.DefaultCacheableTaskOutputFilePropertySpec.Validate` | subprojects/core/src/main/java/org/gradle/api/internal/tasks/DefaultCacheableTaskOutputFilePropertySpec.java:59-62 | the file collection is validated with the current optional flag and the stored output type; the caller's messages gain exactly what it appends; the spec's fields do not change |
| `OutputFileProperty.DefaultCacheableTaskOutputFilePropertySpec.SetOptional` | subprojects/core/src/main/java/org/gradle/api/internal/tasks/DefaultCacheableTaskOutputFilePropertySpec.java:48 | the optional flag read here is the one last set, setting it changes no other field, and the spec's collection stays the one its constructor built |
| `ValidatingExecution.TaskState.SetOutcome` | subprojects/core/src/main/java/org/gradle/api/internal/tasks/execution/ValidatingTaskExecuter.java:66 | the outcome becomes the given validation failure, and the count of outcome writes goes up by one |
| `ValidatingExecution.TaskExecuter.Execute` | subprojects/core/src/main/java/org/gradle/api/internal/tasks/execution/ValidatingTaskExecuter.java:69 | the next stage records one more call, with the task, state and context it was given |
| `ValidatingExecution.Surfaced` | subprojects/core/src/main/java/org/gradle/api/internal/tasks/execution/ValidatingTaskExecuter.java:56 | the surfaced messages are a prefix of the collected ones, of length min(5, n) |
| `ValidatingExecution.Summary` | subprojects/core/src/main/java/org/gradle/api/internal/tasks/execution/ValidatingTaskExecuter.java:60-65 | the summary uses the singular phrasing exactly when there is one cause and the plural one otherwise, and it is exactly that phrasing followed by the task's string form and a full stop, with nothing in between |
| `ValidatingExecution.BuildCauses` | subprojects/core/src/main/java/org/gradle/api/internal/tasks/execution/ValidatingTaskExecuter.java:55-59 | there is one cause per surfaced message, carrying that message, in the same order |
| `ValidatingExecution.RethrowsExactlyWhenValidationThrows` | subprojects/core/src/main/java/org/gradle/api/internal/tasks/execution/ValidatingTaskExecuter.java:47-52 | the stage rethrows exactly when input or output validation throws, wrapping the input exception when there is one and otherwise the output exception |
| `ValidatingExecution.InputExceptionMasksOutputs` | subprojects/core/src/main/java/org/gradle/api/internal/tasks/execution/ValidatingTaskExecuter.java:47-52 | once input validation throws, output validation has no influence on what happens |
| `ValidatingExecution.DelegatesExactlyWhenClean` | subprojects/core/src/main/java/org/gradle/api/internal/tasks/execution/ValidatingTaskExecuter.java:54-69 | the task is handed on exactly when nothing threw and no message was collected |
| `ValidatingExecution.RejectionSurfacesFirstMessages` | subprojects/core/src/main/java/org/gradle/api/internal/tasks/execution/ValidatingTaskExecuter.java:54-59 | a validation failure has between 1 and 5 causes, min(5, n) of them: the first collected messages in order, input messages before output messages |
| `ValidatingExecution.SummaryPhrasingFollowsMessageCount` | subprojects/core/src/main/java/org/gradle/api/internal/tasks/execution/ValidatingTaskExecuter.java:60-65 | the summary is singular exactly when one cause survives, which happens exactly when one message was collected; otherwise it is plural |
| `ValidatingExecution.SevenProblemsSurfaceFive` | subprojects/core/src/main/java/org/gradle/api/internal/tasks/execution/ValidatingTaskExecuter.java:54-66 | seven collected problems give five causes and the plural summary |
| `ValidatingExecution.Decide` | subprojects/core/src/main/java/org/gradle/api/internal/tasks/execution/ValidatingTaskExecuter.java:47-69 | the decision rule of the stage: a rethrown exception is tied to the task; a validation failure carries between 1 and 5 causes and a summary ending with the task's string form and a full stop. The lemmas below state the rest of the rule |
| `ValidatingExecution.VerdictFor` | subprojects/core/src/main/java/org/gradle/api/internal/tasks/execution/ValidatingTaskExecuter.java:44-49 | the verdict for a task, from what its own property sets do with its project's resolver: a rethrow wraps this task and an exception that one of its two property sets threw; a validation failure has between 1 and 5 causes |
| `OutputFileProperty.DefaultCacheableTaskOutputFilePropertySpec.PropertyFiles` | subprojects/core/src/main/java/org/gradle/api/internal/tasks/DefaultCacheableTaskOutputFilePropertySpec.java:41-43 | for a spec whose collection is the one its constructor built, getPropertyFiles returns an "output" collection for the spec's task that belongs to this spec and uses the spec's own resolver and path |
| `OutputFileProperty.OutputTypeIsFixed` | subprojects/core/src/main/java/org/gradle/api/internal/tasks/DefaultCacheableTaskOutputFilePropertySpec.java:55-57 | `DeclaredOutputType` (getOutputType) returns the output type given to the constructor, even after the optional flag was set, the spec was validated and its output file was asked for |
| `ValidatingExecution.ValidatingTaskExecuter.constructor` | subprojects/core/src/main/java/org/gradle/api/internal/tasks/execution/ValidatingTaskExecuter.java:36-40 | the stage keeps the next executer it is given |
| `ValidatingExecution.ValidatingTaskExecuter.Execute` | subprojects/core/src/main/java/org/gradle/api/internal/tasks/execution/ValidatingTaskExecuter.java:42-70 | the validation context's log of validated property sets is inputs then outputs, and outputs only when inputs did not throw. On an exception the stage rethrows it wrapped, sets no outcome and does not call the next stage. On collected messages it sets the validation failure given by `Decide` exactly once and does not call the next stage. Otherwise it calls the next stage exactly once with the same task, state and context and leaves the state alone |

## Left out

- File resolution (`FileResolver.resolve`) does I/O, so it is a function parameter that may fail.
- `DeferredUtil.unpack` is reduced to one step. A deferred computation returns a value or null. It cannot throw or return another deferred value.
- `TaskPropertyFileCollection.validate` and its file and directory checks are not part of this model. It is a function parameter that appends messages and may throw. Because it is a pure function, validating the same collection twice appends the same messages in the model; the model does not show this for the real filesystem checks.
- How a task's input and output property sets walk their properties is not part of this model. Each set is one validation function, so the model does not link `TaskOutputs.validate` to the output spec's `Validate`.
- The base class `AbstractTaskOutputPropertySpec` is not part of this model. Only its optional flag is modelled: it starts out false and `SetOptional` sets it.
- Only `java.lang.Exception`s thrown by validation are modelled. An `Error` thrown there is not caught at ValidatingTaskExecuter.java:50, so it escapes unwrapped, and output validation is skipped if input validation threw it. The model's `Exception` is always wrapped in a `TaskExecutionException`.
- The exception types are datatypes, and `String.format` is plain concatenation. The task's `toString` is its `description` field.
- The project lookup (`task.getProject()` cast to `ProjectInternal`) is gone: the project's resolver is a field of the task.
- The next stage only logs its calls. What it does with the task and state is out of this core.
- The task state holds only the validation-failure outcome this stage can set. The other outcomes belong to other stages.
- Concurrency across tasks, build caching and the rest of the executer chain are out of this core.
