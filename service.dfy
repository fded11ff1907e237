/** The boundary with the task service: the requests the view-model sends,
    the outcomes it receives, and the user-visible messages it derives from
    them. The service itself (HTTP transport, backend) is not part of this
    model; its answers are inputs. */
module Service {
  import opened TaskModel

  /** An outbound call to the task service. */
  datatype Request =
    | GetTasks
    | Create(task: Task)
    | Update(id: string, task: Task)
    | Delete(id: string)

  /** A failed call: `nested` is the server's `error.error.error` field, with
      "" standing for both an absent and an empty field (both are falsy);
      `message` is the transport's generic `error.message`. */
  datatype ServiceError = ServiceError(nested: string, message: string)

  /** The single value or the failure an asynchronous call delivers. */
  datatype Outcome<T> = Ok(value: T) | Err(error: ServiceError)

  const TitleRequired := "Title is required"
  const TaskCreated := "Task created successfully!"
  const TaskUpdated := "Task updated successfully!"
  const TaskDeleted := "Task deleted successfully!"

  const LoadPrefix := "Error loading tasks: "
  const CreatePrefix := "Error creating task: "
  const UpdatePrefix := "Error updating task: "
  const DeletePrefix := "Error deleting task: "

  /** `prefix + (error.error?.error || error.message)`: the operation's prefix,
      then the server's own message when it has one, else the generic one. */
  function ErrorText(prefix: string, e: ServiceError): (r: string)
    ensures StartsWith(r, prefix)
    ensures e.nested != "" ==> r[|prefix|..] == e.nested
    ensures e.nested == "" ==> r[|prefix|..] == e.message
  {
    prefix + (if e.nested != "" then e.nested else e.message)
  }

  /** `m` begins with `prefix`. */
  predicate StartsWith(m: string, prefix: string)
  {
    |m| >= |prefix| && m[..|prefix|] == prefix
  }

  /** The messages an operation's failure can leave in `errorMessage`: they
      begin with one of the four operation prefixes. */
  predicate IsServiceError(m: string)
  {
    StartsWith(m, LoadPrefix) || StartsWith(m, CreatePrefix) || StartsWith(m, UpdatePrefix)
    || StartsWith(m, DeletePrefix)
  }

  /** Every value `errorMessage` can take: empty, the validation message, or a
      prefixed service failure. */
  predicate IsErrorMessage(m: string)
  {
    m == "" || m == TitleRequired || IsServiceError(m)
  }

  /** Every value `successMessage` can take. */
  predicate IsSuccessMessage(m: string)
  {
    m == "" || m == TaskCreated || m == TaskUpdated || m == TaskDeleted
  }

  /** A service failure is never mistaken for the validation message, and its
      text tells which operation failed (update and toggle share a prefix). */
  lemma ErrorTextNamesOperation(p: string, e: ServiceError)
    requires p in {LoadPrefix, CreatePrefix, UpdatePrefix, DeletePrefix}
    ensures ErrorText(p, e) != TitleRequired
    ensures ErrorText(p, e) != ""
    ensures IsServiceError(ErrorText(p, e))
    ensures forall q :: q in {LoadPrefix, CreatePrefix, UpdatePrefix, DeletePrefix} && q != p ==>
              !StartsWith(ErrorText(p, e), q)
  {
  }
}
