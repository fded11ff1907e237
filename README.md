# Task-list view-model

A Dafny model of `AppComponent`, the view-model of a basic task-tracking web
front end. The component holds one mutable record: the list of `tasks`, the
draft `currentTask` shown in the form, the `isEditing` and `isLoading` flags,
and an `errorMessage` and a `successMessage`. Its methods validate the form,
call a remote task service and apply the answer to the list.

The model is a class, `App.AppComponent`, with those six fields. Each
asynchronous operation is split in two:

- a **request** method. It validates, changes what the source changes
  before subscribing, and returns the service call it would make
  (`GetTasks`, `Create(task)`, `Update(id, task)`, `Delete(id)`) or `None`;
- a **completion** method. It takes the service's answer,
  `Ok(value)` or `Err(ServiceError(nested, message))`, and applies the
  `next` or the `error` handler.

Every state-changing method states the component's whole new state as an
update of the old snapshot, `State() == old(State()).(…)`. Every method also
keeps the object invariant `Valid()`, a property of every reachable state:

- a draft that is not being edited has no id (only `editTask` gives the
  draft an id, and `resetForm` removes it together with the editing flag);
- each message field holds one of the texts the component writes into it.

The list edits are pure functions in `TaskList`, with lemmas about them:

- `FindIndex` is `findIndex` by id;
- `ReplaceFirst` is the same-index replacement done by update and toggle;
- `RemoveAll` is the `filter` done by delete.

`Text` models the `trim()` check on the title. `Service` holds the request
and outcome types and the error-message rule. `Scenarios` walks the
component through sequences of calls, checked against the method contracts
alone: create on an empty list, a whitespace-only title, edit then cancel,
and a failed delete followed by a successful one.

Inputs that the source takes from its environment:

- the answer of the `confirm` dialog is the `confirmed` parameter of `DeleteTask`;
- the deferred `setTimeout` callback is the `ClearSuccessMessage` method;
- the form's two-way binding of the draft fields is the `SetDraft` method.
  The template is not part of this model, and this method stands in for it.

Behaviour of the code worth knowing:

- `isEditing` does not imply that the draft has an id: `editTask`
  (app.component.ts:91-101) on a task without an id sets `isEditing` with an
  id-less draft, and `onSubmit` then creates a task.
- Both messages can be set at once: the delete success handler
  (app.component.ts:108-111) does not clear `errorMessage`, so a failed
  delete followed by a successful one leaves both set, as
  `Scenarios.BothMessagesAfterRetriedDelete` shows.
- A delete removes every task with that id, not just one. The length drops
  by the number of such tasks (`TaskList.RemoveAllLength`), and by one only
  when the id is unique (`TaskList.RemoveUniqueShrinksByOne`).

## Model

| member | source | states |
|---|---|---|
| App.AppComponent.constructor | frontend/src/app/app.component.ts:10-19 | Initial state: no tasks, the empty draft, both flags false, both messages empty; the invariant holds |
| App.AppComponent.LoadTasks | frontend/src/app/app.component.ts:27-30 | Requests the task list, sets `isLoading`, clears `errorMessage`, changes nothing else |
| App.AppComponent.CompleteLoad | frontend/src/app/app.component.ts:30-39 | Success replaces `tasks` wholesale with the returned list; failure sets the load error text and keeps `tasks` and the draft; `isLoading` is false after both |
| App.AppComponent.Submit | frontend/src/app/app.component.ts:42-56 | Clears both messages; a blank title gives "Title is required" and no request; otherwise an update of the draft's id exactly when editing a draft that has an id, else a create of the draft; an update is only ever issued while editing |
| App.AppComponent.CreateTask | frontend/src/app/app.component.ts:58-59 | The create request carries the current draft |
| App.AppComponent.CompleteCreate | frontend/src/app/app.component.ts:59-69 | Success puts the returned task at index 0 with the old tasks after it in order (length + 1), resets the draft, ends editing, clears the error and sets "Task created successfully!"; failure only sets the create error text |
| App.AppComponent.UpdateTask | frontend/src/app/app.component.ts:72-75 | No request for a draft without an id; otherwise an update of the draft under its own id |
| App.AppComponent.CompleteUpdate | frontend/src/app/app.component.ts:75-88 | Success replaces the first task whose id equals the returned task's id (see `TaskList.ReplaceFirst`), resets the form and sets "Task updated successfully!"; failure only sets the update error text |
| App.AppComponent.EditTask | frontend/src/app/app.component.ts:91-101 | The draft becomes a copy of the task, including its id, `isEditing` becomes true, both messages are cleared, the list is untouched |
| App.AppComponent.DeleteTask | frontend/src/app/app.component.ts:103-107 | A request is issued exactly when the id is present and non-empty and the user confirmed, and it deletes that id; the state never changes |
| App.AppComponent.CompleteDelete | frontend/src/app/app.component.ts:107-116 | Success removes every task with that id (see `TaskList.RemoveAll`) and sets "Task deleted successfully!", keeping the draft, the flags and `errorMessage`; failure only sets the delete error text |
| App.AppComponent.ToggleComplete | frontend/src/app/app.component.ts:120-128 | No request for a task without an id; otherwise an update of that id whose task is the input with only `completed` negated; the state never changes |
| App.AppComponent.CompleteToggle | frontend/src/app/app.component.ts:128-138 | Success replaces the first task with the returned id and touches nothing else (draft, editing flag and messages kept); failure only sets the update error text |
| App.AppComponent.ResetForm | frontend/src/app/app.component.ts:141-149 | The draft becomes empty, editing ends, `errorMessage` is cleared; list and success message kept |
| App.AppComponent.CancelEdit | frontend/src/app/app.component.ts:151-153 | Same effect as `ResetForm`; `tasks` is never modified |
| App.AppComponent.ClearSuccessMessage | frontend/src/app/app.component.ts:64 | The deferred callback empties `successMessage` and nothing else |
| TaskModel.EmptyDraft | frontend/src/app/app.component.ts:142-146 | The reset draft has no id, empty title and description, and is not completed |
| TaskModel.Toggled | frontend/src/app/app.component.ts:123-126 | The outbound toggled task differs from the input in `completed` only, which is negated |
| Text.Trim | frontend/src/app/app.component.ts:46 | `s.trim()` under `IsWhitespace`: the result is no longer than the input and neither starts nor ends with whitespace |
| Text.IsBlank | frontend/src/app/app.component.ts:46 | `!s.trim()`: the trimmed title is empty, which holds exactly when every character is whitespace |
| Text.TrimStartSpec | frontend/src/app/app.component.ts:46 | Left trimming returns a suffix of the input that does not start with whitespace, and drops only whitespace |
| Text.TrimEndSpec | frontend/src/app/app.component.ts:46 | Right trimming returns a prefix of the input that does not end with whitespace, and drops only whitespace |
| Text.BlankIffAllWhitespace | frontend/src/app/app.component.ts:46 | Left then right trimming yields the empty string exactly when every character of the title is whitespace, the empty title included |
| Text.TrimShape | frontend/src/app/app.component.ts:46 | The trimmed title is a contiguous slice of the title |
| TaskList.FindIndex | frontend/src/app/app.component.ts:77 | Returns -1 exactly when no task has the id; otherwise an index whose task has the id, with no earlier task having it |
| TaskList.ReplaceFirst | frontend/src/app/app.component.ts:77-80 | Same length and same id at every position; no match leaves the list unchanged; otherwise only the first match is replaced, at its own index |
| TaskList.ReplaceFirstIdempotent | frontend/src/app/app.component.ts:77-80 | Applying the same successful update twice gives the same list as applying it once |
| TaskList.ReplaceFirstKeepsCounts | frontend/src/app/app.component.ts:130-133 | An update or toggle never changes how many tasks carry any given id |
| TaskList.RemoveAll | frontend/src/app/app.component.ts:109 | A task is kept exactly when it was in the list and does not carry the deleted id |
| TaskList.RemoveAllAppend | frontend/src/app/app.component.ts:109 | Removal keeps the relative order of the remaining tasks: it distributes over concatenation |
| TaskList.RemoveAllLength | frontend/src/app/app.component.ts:109 | The list shrinks by exactly the number of tasks carrying the id |
| TaskList.RemoveAllAbsent | frontend/src/app/app.component.ts:109 | Deleting an id no task carries leaves the list unchanged |
| TaskList.RemoveUniqueShrinksByOne | frontend/src/app/app.component.ts:109 | With exactly one task carrying the id, the list shrinks by one |
| TaskList.UpdateAfterRemoveIsNoop | frontend/src/app/app.component.ts:130-133 | After a successful delete of an id, an update returning that id changes nothing |
| TaskList.DuplicateIds | frontend/src/app/app.component.ts:77-79 | With two tasks sharing an id, the update leaves the later one untouched, while the delete (line 109) removes it |
| Service.ErrorText | frontend/src/app/app.component.ts:36 | The error text is the operation's prefix followed by the nested server message when it is non-empty, else the generic message |
| Service.ErrorTextNamesOperation | frontend/src/app/app.component.ts:67 | A service error text is never empty and never "Title is required", and it starts with its own operation's prefix and no other |

## Left out

- The component decorator, `ngOnInit` (which only calls `loadTasks`), the HTML template and the CSS are framework plumbing. The template's form binding is represented only by `SetDraft`.
- `TaskService` and the HTTP/observable machinery are a network client whose code is not part of this model. Its answers are the `Outcome` arguments of the completion methods.
- The `confirm` dialog is a boolean argument of `DeleteTask`.
- The 3000 ms `setTimeout` delay is not modelled. Only its effect, `ClearSuccessMessage`, is.
- Interleavings of overlapping requests are not modelled. Neither is a stale timer clearing a newer success message. The model is the sequential state machine; any order of request and completion calls can be written against it.
- `trim()` uses an explicit whitespace set (`Text.IsWhitespace`): ECMAScript's WhiteSpace and LineTerminator characters with the Unicode "Zs" category as of Unicode 15. A JavaScript engine built on another Unicode version may differ.
- A task has exactly the four fields `_id`, `title`, `description`, `completed`. The source's objects may carry more properties. `editTask` would drop them and the toggle's object spread would keep them, and the model cannot show either.
- `error.error?.error` is a string in which "" stands for "absent" as well as "empty", since both are falsy. An `error.message` that is itself missing, which JavaScript would concatenate as "undefined", is not modelled.
- Object identity is not modelled. Lists and drafts are values, so aliasing between the array the service returns and `tasks`, or between the draft object sent by `createTask` and `currentTask`, is not captured.
