/** The list view (src/components/TodoList.tsx). */
module TodoList {
  import opened Wrappers
  import opened TodoServiceContext

  /** One `<li>`: its React key and the text it shows. */
  datatype ListItem = ListItem(key: string, text: string)

  /** The four things the component can render. It has no slot for an event:
      the `onToggleComplete` and `onDelete` props are never called. */
  datatype TodoListView =
    | LoadingView
    | ErrorView(message: string)
    | EmptyView
    | ItemsView(items: seq<ListItem>)

  const LoadingText := "Loading tasks..."
  const EmptyText := "You have no tasks yet."

  /** `todos.map((todo) => <li key={todo.id}>{todo.text}</li>)`. */
  function Items(todos: seq<Todo>): (items: seq<ListItem>)
    ensures |items| == |todos|
    ensures forall i :: 0 <= i < |todos| ==> items[i] == ListItem(todos[i].id, todos[i].text)
  {
    seq(|todos|, i requires 0 <= i < |todos| => ListItem(todos[i].id, todos[i].text))
  }

  /** The chain of early returns: loading, then a truthy error, then the empty
      list, then the items. */
  function SelectView(todos: seq<Todo>, loading: bool, error: Option<string>): (v: TodoListView)
    ensures v.LoadingView? <==> loading
    ensures v.ErrorView? <==> !loading && Truthy(error)
    ensures v.ErrorView? ==> v.message == error.value
    ensures v.EmptyView? <==> !loading && !Truthy(error) && todos == []
    ensures v.ItemsView? <==> !loading && !Truthy(error) && todos != []
    ensures v.ItemsView? ==> v.items == Items(todos)
  {
    if loading then LoadingView
    else if Truthy(error) then ErrorView(error.value)
    else if todos == [] then EmptyView
    else ItemsView(Items(todos))
  }

  /** An empty error string is falsy: it does not hide the list. */
  lemma EmptyErrorIsNoError(todos: seq<Todo>, loading: bool)
    ensures SelectView(todos, loading, Some("")) == SelectView(todos, loading, None)
  {
  }
}
