/** Sequences of calls on the component, checked against its method
    contracts alone. */
module Scenarios {
  import opened TaskModel
  import opened Text
  import opened Service
  import opened App

  /** Creating "A" on an empty list: the returned task is the only one, the
      form is reset, and the success message later clears. */
  method CreateOnEmptyList()
  {
    var c := new AppComponent();
    c.SetDraft("A", "", false);
    assert !IsWhitespace("A"[0]);
    assert !IsBlank(c.currentTask.title);
    var req := c.Submit();
    assert c.State() == ViewState([], Task(None, "A", "", false), false, false, "", "");
    assert req == Some(Create(Task(None, "A", "", false)));
    var created := Task(Some("1"), "A", "", false);
    c.CompleteCreate(Ok(created));
    assert c.tasks == [created];
    assert c.currentTask == EmptyDraft() && !c.isEditing;
    assert c.successMessage == TaskCreated;
    c.ClearSuccessMessage();
    assert c.successMessage == "";
  }

  /** A whitespace-only title is refused without a request. */
  method BlankTitleRejected()
  {
    var c := new AppComponent();
    c.SetDraft(" \t\n", "d", false);
    var req := c.Submit();
    assert req == None;
    assert c.errorMessage == TitleRequired;
  }

  /** Editing a task and cancelling restores the empty draft and leaves the
      list alone. */
  method EditThenCancel(list: seq<Task>)
  {
    var c := new AppComponent();
    c.CompleteLoad(Ok(list));
    var t := Task(Some("2"), "B", "d", true);
    c.EditTask(t);
    assert c.isEditing && c.currentTask.id == Some("2");
    c.CancelEdit();
    assert c.currentTask == EmptyDraft() && !c.isEditing;
    assert c.tasks == list;
  }

  /** A failed delete followed by a successful one leaves both messages set:
      the delete handler does not clear the earlier error. */
  method BothMessagesAfterRetriedDelete()
  {
    var c := new AppComponent();
    var t := Task(Some("7"), "T", "", false);
    c.CompleteLoad(Ok([t]));
    var req := c.DeleteTask(Some("7"), true);
    assert req == Some(Delete("7"));
    c.CompleteDelete("7", Err(ServiceError("", "Http failure")));
    c.CompleteDelete("7", Ok(()));
    assert c.tasks == [];
    assert c.successMessage == TaskDeleted;
    assert c.errorMessage != "";
  }
}
