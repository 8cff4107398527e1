/** The new-task form (src/components/AddTodoForm.tsx). */
module AddTodoForm {
  import opened Wrappers
  import opened Text
  import opened AuthContext

  const AddFailedMessage := "Could not add task. Please try again."

  /** The arguments of the one `addTodo(userId, text)` call a submit makes. */
  datatype AddCall = AddCall(userId: string, text: string)

  /** The form's three state cells. */
  class AddTodoFormState {
    var text: string
    var error: Option<string>
    var isAdding: bool

    constructor ()
      ensures text == "" && error.None? && !isAdding
    {
      text := "";
      error := None;
      isAdding := false;
    }

    /** The input's `onChange`. */
    method Type(value: string)
      modifies this
      ensures text == value && error == old(error) && isAdding == old(isAdding)
    {
      text := value;
    }

    /** `handleSubmit` up to its `await`: with blank text or no user nothing
        happens; otherwise the error is cleared, the form is marked busy and
        `addTodo` is called once with the user's uid and the trimmed text. */
    method BeginSubmit(currentUser: Option<User>) returns (call: Option<AddCall>)
      modifies this
      ensures Trim(old(text)) == "" || currentUser.None? ==>
        call.None? && text == old(text) && error == old(error) && isAdding == old(isAdding)
      ensures Trim(old(text)) != "" && currentUser.Some? ==>
        && call == Some(AddCall(currentUser.value.uid, Trim(old(text))))
        && text == old(text) && error.None? && isAdding
    {
      var trimmedText := Trim(text);
      if trimmedText == "" || currentUser.None? {
        return None;
      }
      error := None;
      isAdding := true;
      call := Some(AddCall(currentUser.value.uid, trimmedText));
    }

    /** `handleSubmit` after its `await`: on success the input is cleared and
        `onTodoAdded` is called once; on failure the typed text stays and the
        error is shown; either way the form is no longer busy. */
    method SettleSubmit(outcome: Outcome<string>) returns (todoAdded: bool)
      modifies this
      ensures !isAdding
      ensures todoAdded <==> outcome.Resolved?
      ensures outcome.Resolved? ==> text == "" && error == old(error)
      ensures outcome.Rejected? ==> text == old(text) && error == Some(AddFailedMessage)
    {
      if outcome.Resolved? {
        text := "";
        todoAdded := true;
      } else {
        error := Some(AddFailedMessage);
        todoAdded := false;
      }
      isAdding := false;
    }

    /** A whole submit, the awaited `addTodo` settling with `outcome`. */
    method HandleSubmit(currentUser: Option<User>, outcome: Outcome<string>)
      returns (call: Option<AddCall>, todoAdded: bool)
      modifies this
      ensures Trim(old(text)) == "" || currentUser.None? ==>
        call.None? && !todoAdded && text == old(text) && error == old(error) && isAdding == old(isAdding)
      ensures Trim(old(text)) != "" && currentUser.Some? ==>
        && call == Some(AddCall(currentUser.value.uid, Trim(old(text))))
        && !isAdding
        && (todoAdded <==> outcome.Resolved?)
        && (outcome.Resolved? ==> text == "" && error.None?)
        && (outcome.Rejected? ==> text == old(text) && error == Some(AddFailedMessage))
    {
      call := BeginSubmit(currentUser);
      todoAdded := false;
      if call.Some? {
        todoAdded := SettleSubmit(outcome);
      }
    }
  }
}
