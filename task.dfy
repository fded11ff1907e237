/** The task record shared by the view-model and the task service. */
module TaskModel {

  datatype Option<+T> = None | Some(value: T)

  /** A task. `id` is `None` until the server has assigned one (the record's
      optional `_id` property); `Some("")` stands for a present but empty id. */
  datatype Task = Task(id: Option<string>, title: string, description: string, completed: bool)

  /** JavaScript truthiness of an optional id: absent and empty are both false. */
  predicate IsPresentId(id: Option<string>)
  {
    id.Some? && id.value != ""
  }

  /** The task has an id that passes the source's `if (!task._id)` guards. */
  predicate HasId(t: Task)
  {
    IsPresentId(t.id)
  }

  /** The empty draft the form starts from and is reset to: no id, empty
      title and description, not completed. */
  function EmptyDraft(): (d: Task)
    ensures !HasId(d) && d.id == None
    ensures d.title == "" && d.description == "" && !d.completed
  {
    Task(None, "", "", false)
  }

  /** The task sent by a completion toggle: the input with `completed` negated
      and every other field kept. */
  function Toggled(t: Task): (r: Task)
    ensures r.completed == !t.completed
    ensures r.id == t.id && r.title == t.title && r.description == t.description
    ensures r != t
  {
    t.(completed := !t.completed)
  }
}
