/** The task record, the partial-update patch and the service lookup
    (src/context/TodoServiceContext.tsx). */
module TodoServiceContext {
  import opened Wrappers

  /** A server timestamp, as ticks of the store's clock. */
  type Timestamp = nat

  /** A task as the service hands it out: its document id joined to the
      stored fields. */
  datatype Todo = Todo(
    id: string,
    userId: string,
    text: string,
    isCompleted: bool,
    createdAt: Timestamp,
    updatedAt: Timestamp)

  /** What the store keeps under a document id: every field of a `Todo`
      except the id itself, which is the document's key. */
  datatype StoredDoc = StoredDoc(
    userId: string,
    text: string,
    isCompleted: bool,
    createdAt: Timestamp,
    updatedAt: Timestamp)

  /** `Partial<Omit<Todo, "id" | "userId" | "createdAt">>`: each remaining field
      may be present or absent; `id`, `userId` and `createdAt` have no slot at all. */
  datatype TodoPatch = TodoPatch(
    text: Option<string>,
    isCompleted: Option<bool>,
    updatedAt: Option<Timestamp>)

  /** `{ id: doc.id, ...doc.data() }`: a stored document seen as a `Todo`. */
  function WithId(id: string, d: StoredDoc): (t: Todo)
    ensures t.id == id && ToStored(t) == d
  {
    Todo(id, d.userId, d.text, d.isCompleted, d.createdAt, d.updatedAt)
  }

  /** The document data of a `Todo`: everything but its id. */
  function ToStored(t: Todo): StoredDoc {
    StoredDoc(t.userId, t.text, t.isCompleted, t.createdAt, t.updatedAt)
  }

  /** Splitting a todo into its id and its data and joining them again gives it back. */
  lemma WithIdToStored(t: Todo)
    ensures WithId(t.id, ToStored(t)) == t
  {
  }

  /** The record shape a patch may touch. Applying a patch leaves the owner
      and the creation time alone, whatever the patch holds. */
  function ApplyPatch(d: StoredDoc, p: TodoPatch): (r: StoredDoc)
    ensures r.userId == d.userId && r.createdAt == d.createdAt
    ensures r.text == (if p.text.Some? then p.text.value else d.text)
    ensures r.isCompleted == (if p.isCompleted.Some? then p.isCompleted.value else d.isCompleted)
    ensures r.updatedAt == (if p.updatedAt.Some? then p.updatedAt.value else d.updatedAt)
  {
    d.(text := if p.text.Some? then p.text.value else d.text,
       isCompleted := if p.isCompleted.Some? then p.isCompleted.value else d.isCompleted,
       updatedAt := if p.updatedAt.Some? then p.updatedAt.value else d.updatedAt)
  }

  const NoProviderMessage := "useTodoService must be used within a TodoServiceProvider"

  /** The service values supplied by the `TodoServiceProvider`s enclosing a
      component, outermost first. `TodoServiceProvider` pushes its `service`. */
  function TodoServiceProvider<S>(enclosing: seq<S>, service: S): (r: seq<S>)
    ensures UseTodoService(r) == Ok(service)
    ensures |r| == |enclosing| + 1 && r[..|enclosing|] == enclosing
  {
    enclosing + [service]
  }

  /** `useTodoService()`: the value of the nearest enclosing provider; with no
      provider the context holds its default `undefined` and the hook throws. */
  function UseTodoService<S>(enclosing: seq<S>): (r: Result<S>)
    ensures r.Err? <==> enclosing == []
    ensures r.Err? ==> r.message == NoProviderMessage
    ensures r.Ok? ==> r.value == enclosing[|enclosing| - 1]
  {
    if enclosing == [] then Err(NoProviderMessage) else Ok(enclosing[|enclosing| - 1])
  }
}
