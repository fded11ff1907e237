/** The task-list view-model (`AppComponent`). Each asynchronous operation is
    split in two: a request method that validates, changes what the source
    changes before subscribing, and returns the call it would make (or
    `None`); and a completion method that takes the service's outcome and
    applies the `next` or `error` handler. */
module App {
  import opened TaskModel
  import opened Text
  import opened TaskList
  import opened Service

  /** A snapshot of every field of the component. */
  datatype ViewState = ViewState(
    tasks: seq<Task>,
    currentTask: Task,
    isEditing: bool,
    isLoading: bool,
    errorMessage: string,
    successMessage: string)

  class AppComponent {
    var tasks: seq<Task>
    var currentTask: Task
    var isEditing: bool
    var isLoading: bool
    var errorMessage: string
    var successMessage: string

    /** A property of every reachable state, kept by every method: a draft
        that is not being edited has no id (only `editTask` gives it one, and
        `resetForm` removes it together with the editing flag), and each
        message field holds one of the texts the component writes into it. */
    ghost predicate Valid()
      reads this
    {
      && (!isEditing ==> currentTask.id == None)
      && IsErrorMessage(errorMessage)
      && IsSuccessMessage(successMessage)
    }

    function State(): ViewState
      reads this
    {
      ViewState(tasks, currentTask, isEditing, isLoading, errorMessage, successMessage)
    }

    /** The field initialisers: no tasks, the empty draft, every flag false
        and both messages empty. */
    constructor ()
      ensures Valid()
      ensures State() == ViewState([], EmptyDraft(), false, false, "", "")
    {
      tasks := [];
      currentTask := EmptyDraft();
      isEditing := false;
      isLoading := false;
      errorMessage := "";
      successMessage := "";
    }

    /** `loadTasks`, before subscribing: raise the loading flag, clear the error. */
    method LoadTasks() returns (req: Request)
      requires Valid()
      modifies this
      ensures Valid()
      ensures req == GetTasks
      ensures State() == old(State()).(isLoading := true, errorMessage := "")
    {
      isLoading := true;
      errorMessage := "";
      req := GetTasks;
    }

    /** `loadTasks`, on completion: the returned list replaces `tasks`
        wholesale, or the failure is reported; either way loading ends. */
    method CompleteLoad(outcome: Outcome<seq<Task>>)
      requires Valid()
      modifies this
      ensures Valid()
      ensures !isLoading
      ensures outcome.Ok? ==> State() == old(State()).(tasks := outcome.value, isLoading := false)
      ensures outcome.Err? ==>
        State() == old(State()).(errorMessage := ErrorText(LoadPrefix, outcome.error), isLoading := false)
    {
      match outcome
      case Ok(list) =>
        tasks := list;
        isLoading := false;
      case Err(e) =>
        errorMessage := ErrorText(LoadPrefix, e);
        isLoading := false;
    }

    /** `onSubmit`: clear both messages; reject a blank title with no request;
        otherwise send an update when editing a draft that has an id, and a
        create in every other case. */
    method Submit() returns (req: Option<Request>)
      requires Valid()
      modifies this
      ensures Valid()
      ensures IsBlank(old(currentTask.title)) ==>
        req == None && State() == old(State()).(errorMessage := TitleRequired, successMessage := "")
      ensures !IsBlank(old(currentTask.title)) ==>
        State() == old(State()).(errorMessage := "", successMessage := "")
      ensures !IsBlank(old(currentTask.title)) ==>
        req == Some(if old(isEditing) && HasId(old(currentTask))
                    then Update(old(currentTask.id.value), old(currentTask))
                    else Create(old(currentTask)))
      ensures req.Some? && req.value.Update? ==> old(isEditing)
    {
      errorMessage := "";
      successMessage := "";
      if IsBlank(currentTask.title) {
        errorMessage := TitleRequired;
        return None;
      }
      if isEditing && HasId(currentTask) {
        req := UpdateTask();
      } else {
        var r := CreateTask();
        req := Some(r);
      }
    }

    /** `createTask`, before subscribing: the draft itself is sent. */
    method CreateTask() returns (req: Request)
      ensures req == Create(currentTask)
    {
      req := Create(currentTask);
    }

    /** `createTask`, on completion: the created task goes to the front of the
        list, the form is reset and the success message shown. A failure
        leaves the list and the draft as they were. */
    method CompleteCreate(outcome: Outcome<Task>)
      requires Valid()
      modifies this
      ensures Valid()
      ensures outcome.Ok? ==>
        && |tasks| == |old(tasks)| + 1
        && tasks[0] == outcome.value
        && tasks[1..] == old(tasks)
      ensures outcome.Ok? ==>
        State() == old(State()).(tasks := [outcome.value] + old(tasks), currentTask := EmptyDraft(),
                                 isEditing := false, errorMessage := "", successMessage := TaskCreated)
      ensures outcome.Err? ==>
        State() == old(State()).(errorMessage := ErrorText(CreatePrefix, outcome.error))
    {
      match outcome
      case Ok(task) =>
        tasks := [task] + tasks;
        ResetForm();
        successMessage := TaskCreated;
      case Err(e) =>
        errorMessage := ErrorText(CreatePrefix, e);
    }

    /** `updateTask`, before subscribing: nothing is sent for a draft without
        an id; otherwise the draft is sent under its own id. */
    method UpdateTask() returns (req: Option<Request>)
      ensures !HasId(currentTask) ==> req == None
      ensures HasId(currentTask) ==> req == Some(Update(currentTask.id.value, currentTask))
    {
      if !HasId(currentTask) {
        return None;
      }
      req := Some(Update(currentTask.id.value, currentTask));
    }

    /** `updateTask`, on completion: the first task whose id equals the
        RETURNED task's id is replaced at its index (nothing if none matches),
        then the form is reset and the success message shown. */
    method CompleteUpdate(outcome: Outcome<Task>)
      requires Valid()
      modifies this
      ensures Valid()
      ensures outcome.Ok? ==>
        State() == old(State()).(tasks := ReplaceFirst(old(tasks), outcome.value), currentTask := EmptyDraft(),
                                 isEditing := false, errorMessage := "", successMessage := TaskUpdated)
      ensures outcome.Err? ==>
        State() == old(State()).(errorMessage := ErrorText(UpdatePrefix, outcome.error))
    {
      match outcome
      case Ok(task) =>
        var index := FindIndex(tasks, task.id);
        if index != -1 {
          tasks := tasks[index := task];
        }
        ResetForm();
        successMessage := TaskUpdated;
      case Err(e) =>
        errorMessage := ErrorText(UpdatePrefix, e);
    }

    /** `editTask`: the draft becomes a copy of the task's four fields, editing
        starts and both messages are cleared. */
    method EditTask(task: Task)
      requires Valid()
      modifies this
      ensures Valid()
      ensures currentTask == task && isEditing
      ensures State() == old(State()).(currentTask := Task(task.id, task.title, task.description, task.completed),
                                       isEditing := true, errorMessage := "", successMessage := "")
    {
      currentTask := Task(task.id, task.title, task.description, task.completed);
      isEditing := true;
      errorMessage := "";
      successMessage := "";
    }

    /** `deleteTask`, before subscribing: nothing is sent for an absent or empty
        id, or when the user does not confirm; `confirmed` is the answer of
        the confirmation dialog. */
    method DeleteTask(id: Option<string>, confirmed: bool) returns (req: Option<Request>)
      ensures req.Some? <==> IsPresentId(id) && confirmed
      ensures req.Some? ==> req.value == Delete(id.value)
    {
      if !IsPresentId(id) {
        return None;
      }
      if confirmed {
        req := Some(Delete(id.value));
      } else {
        req := None;
      }
    }

    /** `deleteTask`, on completion: every task with that id is dropped and the
        success message shown; the error message is left as it was. */
    method CompleteDelete(id: string, outcome: Outcome<()>)
      requires Valid()
      modifies this
      ensures Valid()
      ensures outcome.Ok? ==>
        State() == old(State()).(tasks := RemoveAll(old(tasks), id), successMessage := TaskDeleted)
      ensures outcome.Err? ==>
        State() == old(State()).(errorMessage := ErrorText(DeletePrefix, outcome.error))
    {
      match outcome
      case Ok(_) =>
        tasks := RemoveAll(tasks, id);
        successMessage := TaskDeleted;
      case Err(e) =>
        errorMessage := ErrorText(DeletePrefix, e);
    }

    /** `toggleComplete`, before subscribing: nothing is sent for a task
        without an id; otherwise an update of that id carrying the task with
        only `completed` negated. The component's state is not touched. */
    method ToggleComplete(task: Task) returns (req: Option<Request>)
      ensures req.Some? <==> HasId(task)
      ensures req.Some? ==>
        && req.value.Update?
        && req.value.id == task.id.value
        && req.value.task == Toggled(task)
    {
      if !HasId(task) {
        return None;
      }
      var updatedTask := Toggled(task);
      req := Some(Update(task.id.value, updatedTask));
    }

    /** `toggleComplete`, on completion: the first task with the returned
        task's id is replaced at its index; the draft, the editing flag and
        both messages are untouched. */
    method CompleteToggle(outcome: Outcome<Task>)
      requires Valid()
      modifies this
      ensures Valid()
      ensures outcome.Ok? ==> State() == old(State()).(tasks := ReplaceFirst(old(tasks), outcome.value))
      ensures outcome.Err? ==>
        State() == old(State()).(errorMessage := ErrorText(UpdatePrefix, outcome.error))
    {
      match outcome
      case Ok(updated) =>
        var index := FindIndex(tasks, updated.id);
        if index != -1 {
          tasks := tasks[index := updated];
        }
      case Err(e) =>
        errorMessage := ErrorText(UpdatePrefix, e);
    }

    /** `resetForm`: the empty draft, not editing, no error message. */
    method ResetForm()
      requires Valid()
      modifies this
      ensures Valid()
      ensures State() == old(State()).(currentTask := EmptyDraft(), isEditing := false, errorMessage := "")
    {
      currentTask := EmptyDraft();
      isEditing := false;
      errorMessage := "";
    }

    /** `cancelEdit`: the same as `resetForm`; the task list is never touched. */
    method CancelEdit()
      requires Valid()
      modifies this
      ensures Valid()
      ensures tasks == old(tasks)
      ensures State() == old(State()).(currentTask := EmptyDraft(), isEditing := false, errorMessage := "")
    {
      ResetForm();
    }

    /** The deferred `setTimeout` callback scheduled after each successful
        create, update and delete: it empties the success message. */
    method ClearSuccessMessage()
      requires Valid()
      modifies this
      ensures Valid()
      ensures State() == old(State()).(successMessage := "")
    {
      successMessage := "";
    }

    /** The form's two-way binding of the draft's title, description and
        completion flag; the draft's id is not a form field. */
    method SetDraft(title: string, description: string, completed: bool)
      requires Valid()
      modifies this
      ensures Valid()
      ensures State() == old(State()).(currentTask := old(currentTask).(title := title, description := description,
                                                                          completed := completed))
    {
      currentTask := currentTask.(title := title, description := description, completed := completed);
    }
  }
}
