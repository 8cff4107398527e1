/** The task page (src/pages/HomePage.tsx). */
module HomePage {
  import opened Wrappers
  import opened TodoServiceContext
  import opened AuthContext
  import opened Text
  import opened AddTodoForm

  const LoadFailedMessage := "Could not load your tasks. Please try again later."
  const LogoutFailedMessage := "Failed to log out."

  /** The page's three state cells. */
  class HomePageState {
    var todos: seq<Todo>
    var loadingTodos: bool
    var error: Option<string>

    constructor ()
      ensures todos == [] && loadingTodos && error.None?
    {
      todos := [];
      loadingTodos := true;
      error := None;
    }

    /** `fetchTodos` up to its `await`: with no user loading simply ends and
        nothing is fetched; with a user the error is cleared, loading starts and
        `getTodosForUser` is called with the user's uid. */
    method BeginFetch(currentUser: Option<User>) returns (call: Option<string>)
      modifies this
      ensures todos == old(todos)
      ensures currentUser.None? ==> call.None? && !loadingTodos && error == old(error)
      ensures currentUser.Some? ==> call == Some(currentUser.value.uid) && loadingTodos && error.None?
    {
      if currentUser.None? {
        loadingTodos := false;
        return None;
      }
      loadingTodos := true;
      error := None;
      call := Some(currentUser.value.uid);
    }

    /** `fetchTodos` after its `await`: a result replaces the list; a failure
        sets the error and KEEPS the previous list; loading ends either way. */
    method SettleFetch(outcome: Outcome<seq<Todo>>)
      modifies this
      ensures !loadingTodos
      ensures outcome.Resolved? ==> todos == outcome.value && error == old(error)
      ensures outcome.Rejected? ==> todos == old(todos) && error == Some(LoadFailedMessage)
    {
      if outcome.Resolved? {
        todos := outcome.value;
      } else {
        error := Some(LoadFailedMessage);
      }
      loadingTodos := false;
    }

    /** A whole `fetchTodos`, the awaited `getTodosForUser` settling with `outcome`. */
    method FetchTodos(currentUser: Option<User>, outcome: Outcome<seq<Todo>>) returns (call: Option<string>)
      modifies this
      ensures !loadingTodos
      ensures currentUser.None? ==> call.None? && todos == old(todos) && error == old(error)
      ensures currentUser.Some? ==> call == Some(currentUser.value.uid)
      ensures currentUser.Some? && outcome.Resolved? ==> todos == outcome.value && error.None?
      ensures currentUser.Some? && outcome.Rejected? ==> todos == old(todos) && error == Some(LoadFailedMessage)
    {
      call := BeginFetch(currentUser);
      if call.Some? {
        SettleFetch(outcome);
      }
    }

    /** `handleLogout`: only a failed `logout()` changes the page. */
    method HandleLogout(outcome: Outcome<()>)
      modifies this
      ensures todos == old(todos) && loadingTodos == old(loadingTodos)
      ensures outcome.Resolved? ==> error == old(error)
      ensures outcome.Rejected? ==> error == Some(LogoutFailedMessage)
    {
      if outcome.Rejected? {
        error := Some(LogoutFailedMessage);
      }
    }
  }

  /** A submit of the form whose `onTodoAdded` is the page's `fetchTodos`: a
      successful add reloads the list, anything else leaves the page alone. */
  method SubmitAndReload(form: AddTodoFormState, page: HomePageState, currentUser: Option<User>,
                         addOutcome: Outcome<string>, fetchOutcome: Outcome<seq<Todo>>)
    returns (addCall: Option<AddCall>, fetchCall: Option<string>)
    modifies form, page
    ensures addCall.Some? <==> Trim(old(form.text)) != "" && currentUser.Some?
    ensures addCall.Some? ==> addCall.value == AddCall(currentUser.value.uid, Trim(old(form.text)))
    ensures addCall.None? ==>
      form.text == old(form.text) && form.error == old(form.error) && form.isAdding == old(form.isAdding)
    ensures addCall.Some? ==> !form.isAdding
    ensures addCall.Some? && addOutcome.Resolved? ==> form.text == "" && form.error.None?
    ensures addCall.Some? && addOutcome.Rejected? ==>
      form.text == old(form.text) && form.error == Some(AddFailedMessage)
    ensures addCall.Some? && addOutcome.Resolved? ==>
      && fetchCall == Some(currentUser.value.uid)
      && !page.loadingTodos
      && (fetchOutcome.Resolved? ==> page.todos == fetchOutcome.value && page.error.None?)
      && (fetchOutcome.Rejected? ==> page.todos == old(page.todos) && page.error == Some(LoadFailedMessage))
    ensures addCall.None? || addOutcome.Rejected? ==>
      fetchCall.None? && page.todos == old(page.todos) && page.loadingTodos == old(page.loadingTodos)
      && page.error == old(page.error)
  {
    var todoAdded;
    addCall, todoAdded := form.HandleSubmit(currentUser, addOutcome);
    fetchCall := None;
    if todoAdded {
      fetchCall := page.FetchTodos(currentUser, fetchOutcome);
    }
  }

  // ---------------------------------------------------------------------------
  // What the page renders below "Your Tasks"

  /** One rendered task: its text and whether it is struck through. */
  datatype Line = Line(key: string, text: string, lineThrough: bool)

  /** The four conditional blocks of the page, each present or absent. */
  datatype TasksSection = TasksSection(
    loadingMessage: bool,
    errorMessage: Option<string>,
    noTasksMessage: bool,
    list: Option<seq<Line>>)

  function Lines(todos: seq<Todo>): (ls: seq<Line>)
    ensures |ls| == |todos|
    ensures forall i :: 0 <= i < |todos| ==>
      ls[i] == Line(todos[i].id, todos[i].text, todos[i].isCompleted)
  {
    seq(|todos|, i requires 0 <= i < |todos| => Line(todos[i].id, todos[i].text, todos[i].isCompleted))
  }

  /** The four `&&`-guarded blocks. They are independent, so unlike the list
      component the error and the list can appear together. */
  function RenderTasks(todos: seq<Todo>, loadingTodos: bool, error: Option<string>): (s: TasksSection)
    ensures s.loadingMessage <==> loadingTodos
    ensures s.errorMessage.Some? <==> Truthy(error)
    ensures s.errorMessage.Some? ==> s.errorMessage == error
    ensures s.noTasksMessage <==> !loadingTodos && !Truthy(error) && todos == []
    ensures s.list.Some? <==> !loadingTodos && todos != []
    ensures s.list.Some? ==> s.list.value == Lines(todos)
    ensures !(s.noTasksMessage && s.list.Some?)
  {
    TasksSection(
      loadingTodos,
      if Truthy(error) then error else None,
      !loadingTodos && !Truthy(error) && |todos| == 0,
      if !loadingTodos && |todos| > 0 then Some(Lines(todos)) else None)
  }

  /** A failed reload leaves the error message AND the previously loaded list
      on screen, and never the "no tasks" message when there were tasks. */
  method FailedReloadKeepsList(page: HomePageState, user: User, code: Option<string>)
    returns (shown: TasksSection)
    modifies page
    ensures shown == RenderTasks(page.todos, page.loadingTodos, page.error)
    ensures shown.errorMessage == Some(LoadFailedMessage)
    ensures old(page.todos) != [] ==> shown.list == Some(Lines(old(page.todos))) && !shown.noTasksMessage
    ensures old(page.todos) == [] ==> shown.list.None? && !shown.noTasksMessage
  {
    var _ := page.FetchTodos(Some(user), Rejected(code));
    shown := RenderTasks(page.todos, page.loadingTodos, page.error);
  }
}
