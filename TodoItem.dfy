/** One task row (src/components/TodoItem.tsx). */
module TodoItem {
  import opened TodoServiceContext

  /** What the row shows. */
  datatype TodoItemView = TodoItemView(
    checked: bool,
    checkboxLabel: string,
    lineThrough: bool,
    textColor: string,
    text: string,
    deleteLabel: string)

  /** The arguments the row passes to its callbacks. */
  datatype ToggleCall = ToggleCall(id: string, currentStatus: bool)
  datatype DeleteCall = DeleteCall(id: string)

  /** The word naming a completion state in the checkbox label. */
  function StatusWord(completed: bool): string {
    if completed then "complete" else "incomplete"
  }

  /** The rendered row: the checkbox and the decoration follow `isCompleted`,
      and the label names the state a click would move the task to. */
  function Render(todo: Todo): (v: TodoItemView)
    ensures v.checked <==> todo.isCompleted
    ensures v.lineThrough <==> todo.isCompleted
    ensures v.textColor == (if todo.isCompleted then "#aaa" else "#000")
    ensures v.checkboxLabel == "Mark " + todo.text + " as " + StatusWord(!v.checked)
    ensures v.text == todo.text && v.deleteLabel == "Delete task " + todo.text
  {
    TodoItemView(
      todo.isCompleted,
      "Mark " + todo.text + " as " + (if todo.isCompleted then "incomplete" else "complete"),
      todo.isCompleted,
      if todo.isCompleted then "#aaa" else "#000",
      todo.text,
      "Delete task " + todo.text)
  }

  /** `handleToggle`: the id and the CURRENT status, not the toggled one. */
  function HandleToggle(todo: Todo): (c: ToggleCall)
    ensures c.id == todo.id
    ensures c.currentStatus == Render(todo).checked
  {
    ToggleCall(todo.id, todo.isCompleted)
  }

  /** `handleDelete`. */
  function HandleDelete(todo: Todo): (c: DeleteCall)
    ensures c.id == todo.id
  {
    DeleteCall(todo.id)
  }

  /** The two labels differ, so the label tells a completed task from an open one. */
  lemma LabelDistinguishesStatus(t1: Todo, t2: Todo)
    requires t1.text == t2.text
    ensures Render(t1).checkboxLabel == Render(t2).checkboxLabel <==> t1.isCompleted == t2.isCompleted
  {
    var prefix := "Mark " + t1.text + " as ";
    if t1.isCompleted != t2.isCompleted {
      var l1, l2 := Render(t1).checkboxLabel, Render(t2).checkboxLabel;
      assert l1[|prefix|..] == StatusWord(!t1.isCompleted);
      assert l2[|prefix|..] == StatusWord(!t2.isCompleted);
    }
  }
}
