# Todo web client — a verified model of its decision logic

This project models, in Dafny, the sequential logic of a small React to-do
client backed by Firebase: the task service over the Firestore `todos`
collection, the mapping from Firebase Authentication error codes to messages,
the state machines behind the new-task form, the task page, the login and
signup pages and the session provider, and the view-state selectors of the
task list, the task row and the route guard.

How the model is built:

- **Values and records.** A task is the datatype `Todo`; what Firestore stores
  under a document id is a `StoredDoc` (every field but the id); a partial
  update is a `TodoPatch`, which has no slot for `id`, `userId` or `createdAt`.
- **The collection.** `TodoService.TodoCollection` is a class with a
  `map<string, StoredDoc>` and a clock standing in for `serverTimestamp()`.
  Every successful add and update takes the next tick; a delete leaves the
  clock alone. The class invariant says that
  each document is named after its creation tick and that no timestamp lies
  ahead of the clock. The query `where userId == u orderBy createdAt desc` is
  the method `QueryByUser`. It is proved against the predicate
  `IsUserQueryResult`. A lemma shows that this predicate has at most one
  answer, and `QueryByUser` computes it on a valid collection.
- **Failures of code outside the model.** Every awaited call is a parameter:
  `storeFails` for a Firestore write or read, and an `Outcome` (resolved
  value, or rejection with an optional `code`) for the identity provider and
  the task service as seen by the pages.
- **Async handlers.** Each handler is split at its `await`. A `Begin…` method
  runs the synchronous part and returns the call it makes. A `Settle…` method
  runs the continuation for a given outcome. A `Handle…` method runs both. The
  state while the call is outstanding is the postcondition of `Begin…`.
- **String logic.** `String.prototype.trim` is `Text.Trim`, with the ECMAScript
  white-space and line-terminator characters. JavaScript truthiness of a
  `string | null` is `Wrappers.Truthy`, so `""` is falsy, as in the source.

Behaviour of the code worth noting:

- A failed task load keeps the previous list (src/pages/HomePage.tsx:37-39).
  It does not clear it. `HomePage.FailedReloadKeepsList` shows that the error
  and the old list are then on screen together.
- With no user, `fetchTodos` only ends loading. It does not clear the list.
- `updateTodo` does not check or trim the text it stores.
  `TodoService.UpdateCanStoreBlankText` shows that blank text can be stored.
- No file has optimistic toggle, delete or edit with rollback, so none is
  modelled. `TodoList` never calls its callbacks, and `HomePage` never calls
  `updateTodo` or `deleteTodo`.
- Under `AuthProvider`, children render only after loading ends, so the
  route guard never shows its own loading message there
  (`ProtectedRoute.GuardUnderProviderNeverLoads`).

## Model

| member | source | states |
|---|---|---|
| `TodoServiceContext.WithId` | src/services/todoService.ts:34-36 | the todo built from a document carries the document's id and exactly its stored fields |
| `TodoServiceContext.ApplyPatch` | src/context/TodoServiceContext.tsx:13-16 | a patch never changes `userId` or `createdAt`; each field it carries replaces the stored one, each field it omits is kept |
| `TodoServiceContext.TodoServiceProvider` | src/context/TodoServiceContext.tsx:54-62 | inside a provider, `useTodoService` yields exactly the service handed to that provider, whatever encloses it |
| `TodoServiceContext.UseTodoService` | src/context/TodoServiceContext.tsx:34-44 | fails with the "must be used within a TodoServiceProvider" error exactly when no provider encloses the caller; otherwise returns the nearest provider's service |
| `Text.TrimStartCutsWhiteSpacePrefix` | src/services/todoService.ts:53 | trimming the start removes a prefix made only of white space and leaves a string that does not start with white space |
| `Text.TrimEndCutsWhiteSpaceSuffix` | src/services/todoService.ts:53 | trimming the end removes a suffix made only of white space and leaves a string that does not end with white space |
| `Text.TrimIsInfix` | src/services/todoService.ts:53 | `trim()` yields an infix of its input whose cut-off ends are all white space, and it neither starts nor ends with white space |
| `Text.TrimEmptyIffBlank` | src/services/todoService.ts:54 | text trims to "" exactly when it is empty or all white space |
| `Text.Trim` | src/services/todoService.ts:53 | `text.trim()` is never longer than its input, and it neither starts nor ends with white space |
| `Text.TrimIdempotent` | src/components/AddTodoForm.tsx:33 | trimming already trimmed text changes nothing |
| `TodoService.DocIdInjective` | src/services/todoService.ts:57-65 | documents created at different ticks get different ids |
| `TodoService.NextDocIdFresh` | src/services/todoService.ts:57-65 | the id of a new document is not the id of any stored document |
| `TodoService.InsertKeepsNewestFirst` | src/services/todoService.ts:30 | inserting a document into a list ordered newest first keeps that order |
| `TodoService.NewestFirstDetermined` | src/services/todoService.ts:30 | two newest-first lists holding the same todos are equal |
| `TodoService.UserQueryResultUnique` | src/services/todoService.ts:27-31 | the per-user, newest-first query has at most one result on a given collection, and `QueryByUser` computes it on a valid collection |
| `TodoService.TodoCollection.constructor` | src/services/todoService.ts:20 | the `todos` collection the service refers to; the model starts it empty with its clock at zero, where the invariant holds |
| `TodoService.TodoCollection.QueryByUser` | src/services/todoService.ts:27-36 | returns exactly the stored documents owned by the user, each with its document id, in strictly decreasing `createdAt` order |
| `TodoService.GetTodosForUser` | src/services/todoService.ts:23-43 | an empty user id fails with "User ID is required to fetch todos." before any store access; a store failure gives "Failed to fetch todos."; otherwise the user's query result |
| `TodoService.AddTodo` | src/services/todoService.ts:46-70 | empty user id or raw text fails with "User ID and text are required…"; text that trims to "" fails with "Cannot add an empty todo."; a store failure gives "Failed to add todo."; the store is untouched in all three cases; otherwise exactly one new record with a fresh id, the trimmed text, not completed, and `createdAt` = `updatedAt` = the new server time |
| `TodoService.UpdateTodo` | src/services/todoService.ts:73-88 | an empty id fails with "Todo ID is required to update."; a store failure or a missing document gives "Failed to update todo."; otherwise only that record changes, by the patch, and its `updatedAt` is the new server time even if the patch held one |
| `TodoService.DeleteTodo` | src/services/todoService.ts:91-103 | an empty id fails with "Todo ID is required to delete."; a store failure gives "Failed to delete todo."; otherwise exactly that id is removed and nothing else changes |
| `TodoService.AddedTodoListedFirst` | src/services/todoService.ts:57-63 | after a document newer than everything in the store is added, its owner's query is that document followed by the owner's previous query result |
| `TodoService.PrependNewest` | src/services/todoService.ts:30 | a todo newer than every element of a newest-first list can head that list |
| `TodoService.AddedTodoHeadsOwnersList` | src/services/todoService.ts:46-70 | adding a task and then fetching its owner's tasks lists the new task first, with the trimmed text and not completed, followed by the earlier list |
| `TodoService.AddKeepsTextsTrimmed` | src/services/todoService.ts:51-63 | if every stored text was trimmed and non-empty, it still is after `addTodo`'s write |
| `TodoService.UpdateCanStoreBlankText` | src/services/todoService.ts:73-82 | `updateTodo` can store blank text, so "no stored text is blank" does not survive updates |
| `FirebaseErrors.MapAuthCodeToMessage` | src/utils/firebaseErrors.ts:6-44 | every code maps to a non-empty message; the generic message is given exactly to the codes outside the thirteen listed |
| `FirebaseErrors.GroupOf` | src/utils/firebaseErrors.ts:7-38 | a code has a case group exactly when it is one of the thirteen listed codes |
| `FirebaseErrors.MessageIsGroupMessage` | src/utils/firebaseErrors.ts:7-43 | a listed code gets the message of its case group; any other code gets the fallback |
| `FirebaseErrors.GroupMessagesDistinct` | src/utils/firebaseErrors.ts:9-43 | the ten group messages are pairwise different and none of them is the fallback |
| `FirebaseErrors.SameMessageIffSameGroup` | src/utils/firebaseErrors.ts:9-43 | any two codes share a message exactly when they share a case group, every unlisted code counting as having none |
| `FirebaseErrors.CredentialCodesShareMessage` | src/utils/firebaseErrors.ts:9-12 | "Invalid email or password." is given to exactly user-not-found, wrong-password and invalid-credential |
| `FirebaseErrors.PopupMessages` | src/utils/firebaseErrors.ts:25-29 | cancelled-popup-request and popup-blocked share the popup-blocked message; popup-closed-by-user gets "Sign-in process cancelled.", a different message |
| `AuthContext.AuthProvider.constructor` | src/context/AuthContext.tsx:43-44 | the session starts with no user and `loading` true |
| `AuthContext.AuthProvider.OnAuthStateChanged` | src/context/AuthContext.tsx:68-71 | a notification sets `currentUser` to the notified user or null and `loading` to false; the invariant keeps `loading` true only before the first notification |
| `AuthContext.AuthProvider.RendersChildren` | src/context/AuthContext.tsx:92 | under the invariant, children are rendered exactly when at least one auth-state notification has arrived, whatever it said |
| `ProtectedRoute.Guard` | src/components/ProtectedRoute.tsx:10-35 | exactly one outcome: the loading message exactly when loading, whatever the user; a replace-redirect to "/login" carrying the location when not loading and no user; the given element unchanged when not loading with a user |
| `ProtectedRoute.GuardUnderProviderNeverLoads` | src/components/ProtectedRoute.tsx:14-34 | with the session of an `AuthProvider` that renders its children, the guard either renders the element or redirects; it never shows its loading message |
| `TodoList.Items` | src/components/TodoList.tsx:44-52 | one list item per todo, in input order, keyed by its id and showing its text |
| `TodoList.SelectView` | src/components/TodoList.tsx:25-53 | exactly one of four views: loading exactly when loading; the error, and only it, when not loading and the error is truthy; "no tasks" when not loading, no error and no todos; otherwise the items |
| `TodoList.EmptyErrorIsNoError` | src/components/TodoList.tsx:30 | an empty error string selects the same view as no error |
| `TodoItem.Render` | src/components/TodoItem.tsx:41-62 | the checkbox is checked and the text struck through exactly when the todo is completed; the label names the state a click moves the todo to ("incomplete" when completed, "complete" otherwise) |
| `TodoItem.HandleToggle` | src/components/TodoItem.tsx:18-21 | toggling reports the todo's id and its current status, the one the checkbox shows, not the negation |
| `TodoItem.HandleDelete` | src/components/TodoItem.tsx:23-26 | delete reports the todo's id |
| `TodoItem.LabelDistinguishesStatus` | src/components/TodoItem.tsx:45-47 | for the same text, two checkbox labels are equal exactly when the completion states are equal |
| `AddTodoForm.AddTodoFormState.constructor` | src/components/AddTodoForm.tsx:20-22 | the form starts with empty text, no error and not adding |
| `AddTodoForm.AddTodoFormState.Type` | src/components/AddTodoForm.tsx:66 | typing replaces the text and nothing else |
| `AddTodoForm.AddTodoFormState.BeginSubmit` | src/components/AddTodoForm.tsx:31-45 | with blank text or no user nothing changes and no call is made; otherwise the error is cleared, `isAdding` is true and `addTodo` is called once with the uid and the trimmed text |
| `AddTodoForm.AddTodoFormState.SettleSubmit` | src/components/AddTodoForm.tsx:45-54 | on success the text becomes "" and `onTodoAdded` is called once; on failure the typed text stays, the error is "Could not add task. Please try again." and `onTodoAdded` is not called; `isAdding` ends false |
| `AddTodoForm.AddTodoFormState.HandleSubmit` | src/components/AddTodoForm.tsx:31-55 | a whole submit: the guard, the one call, and the final text, error, `isAdding` and callback for each outcome |
| `HomePage.HomePageState.constructor` | src/pages/HomePage.tsx:18-20 | the page starts with no todos, loading, and no error |
| `HomePage.HomePageState.BeginFetch` | src/pages/HomePage.tsx:23-34 | with no user, loading ends and no fetch is made; with a user, the error is cleared and loading set before `getTodosForUser(uid)`; todos are untouched |
| `HomePage.HomePageState.SettleFetch` | src/pages/HomePage.tsx:34-42 | a result replaces the todos exactly; a failure sets "Could not load your tasks. Please try again later." and keeps the old todos; loading ends either way |
| `HomePage.HomePageState.FetchTodos` | src/pages/HomePage.tsx:23-43 | a whole fetch: the call made, and the final todos, error and loading for each outcome |
| `HomePage.HomePageState.HandleLogout` | src/pages/HomePage.tsx:51-59 | only a failed logout changes the page, setting "Failed to log out." |
| `HomePage.SubmitAndReload` | src/pages/HomePage.tsx:76 | the form calls `addTodo` exactly when its trimmed text is non-empty and a user is signed in, with the uid and the trimmed text; the form ends as `handleSubmit` leaves it (unchanged when guarded out, cleared on success, text kept with "Could not add task. Please try again." on failure, never busy); a successful add runs the page's `fetchTodos`; a guarded-out or failed add leaves the page untouched |
| `HomePage.Lines` | src/pages/HomePage.tsx:91-107 | one line per todo, in order, struck through exactly when completed |
| `HomePage.RenderTasks` | src/pages/HomePage.tsx:82-112 | the loading, error, "no tasks" and list blocks each appear on their own condition; "no tasks" needs no error; the list shows whenever not loading with todos, even beside an error; "no tasks" and the list never both appear |
| `HomePage.FailedReloadKeepsList` | src/pages/HomePage.tsx:37-39 | after a failed reload the error is shown, and the previously loaded list is still shown when there was one |
| `LoginPage.EmailLoginMessage` | src/pages/LoginPage.tsx:25-36 | "Invalid email or password." exactly for the three credential codes, "Invalid email address format." exactly for invalid-email, "Failed to log in. Please try again." for every other or missing code |
| `LoginPage.GoogleLoginMessage` | src/pages/LoginPage.tsx:51-53 | no error exactly when the popup was closed by the user; otherwise "Failed to sign in with Google. Please try again." |
| `LoginPage.EmailLoginAgreesWithSharedMap` | src/pages/LoginPage.tsx:25-35 | the page's credential and invalid-email messages equal the shared map's, and its fallback differs from the shared map's message for every other code |
| `LoginPage.LoginPageState.constructor` | src/pages/LoginPage.tsx:8-11 | empty fields, no error, not loading, no navigation |
| `LoginPage.LoginPageState.BeginAttempt` | src/pages/LoginPage.tsx:43-44 | a login attempt starts by clearing the error and setting loading |
| `LoginPage.LoginPageState.BeginEmailLogin` | src/pages/LoginPage.tsx:15-20 | the error is cleared, loading is set, and `login` is called with the typed email and password |
| `LoginPage.LoginPageState.SettleEmailLogin` | src/pages/LoginPage.tsx:20-39 | success navigates to "/" once; failure does not navigate and shows the page's message for the code; loading ends false |
| `LoginPage.LoginPageState.HandleEmailLogin` | src/pages/LoginPage.tsx:15-40 | a whole email login: the call, the navigation and the final error and loading for each outcome |
| `LoginPage.LoginPageState.SettleGoogleLogin` | src/pages/LoginPage.tsx:46-57 | success navigates to "/" once; failure does not navigate, and sets the Google message unless the popup was closed by the user; loading ends false |
| `LoginPage.LoginPageState.HandleGoogleLogin` | src/pages/LoginPage.tsx:42-57 | a whole Google login: a closed popup ends with no error at all, any other failure with the Google message, success with navigation to "/" |
| `SignupPage.SignupMessage` | src/pages/SignupPage.tsx:34-46 | the specific messages exactly for email-already-in-use, invalid-email and weak-password; "Failed to create an account. Please try again." for every other or missing code |
| `SignupPage.SignupAgreesWithSharedMap` | src/pages/SignupPage.tsx:34-46 | the page's three specific messages equal the shared map's; its fallback differs from the shared map's message for every other code |
| `SignupPage.SignupPageState.constructor` | src/pages/SignupPage.tsx:8-12 | empty fields, no error, not loading, no navigation |
| `SignupPage.SignupPageState.BeginSubmit` | src/pages/SignupPage.tsx:16-29 | the error is cleared; mismatched passwords end with "Passwords do not match.", no call and loading unchanged; matching ones set loading and call `signup(email, password)` |
| `SignupPage.SignupPageState.SettleSubmit` | src/pages/SignupPage.tsx:29-49 | success navigates to "/"; failure does not navigate and shows the page's message for the code; loading ends false |
| `SignupPage.SignupPageState.HandleSubmit` | src/pages/SignupPage.tsx:16-50 | a whole submit: the password guard, the call, and the final error, loading and navigation for each outcome |

## Left out

- Firebase SDK internals are not modelled: the Firestore client, `serverTimestamp`,
  `onAuthStateChanged`, `signInWithPopup` and the provider calls at
  src/context/AuthContext.tsx:48-63. The provider calls are pass-throughs. Their
  results enter the pages as `Outcome` parameters.
- Firestore draws random 20-character document ids. The model names each
  document after its creation tick. Besides making every new id fresh, this
  naming makes every creation time distinct, so the model's query order never
  has ties. Firestore orders documents with equal `createdAt` by document id,
  which is not modelled.
- Timestamps are clock ticks (`nat`). Each add and each update takes a new tick, and all fields
  of one write share it. Firestore's timestamp resolution is not modelled.
- A `storeFails` flag stands for any Firestore failure. Which failures can occur
  is not modelled, beyond `updateDoc` failing on a missing document.
- Async interleaving is not modelled. Overlapping `fetchTodos` runs (from the
  effect at src/pages/HomePage.tsx:46-48) can race and nothing cancels them. The
  model runs each handler's two halves in sequence, without other handlers
  between them.
- The effect lifecycles are not modelled: the subscribe and unsubscribe at
  src/context/AuthContext.tsx:66-76, and the effect that runs `fetchTodos` on
  mount. The callbacks they register are modelled.
- `console.log`, `console.warn` and `console.error` are side effects and are
  left out. This includes the warn in the fallback branch of the error map.
- `useAuth`'s undefined guard (src/context/AuthContext.tsx:30-32) is not
  modelled. The context default is `null!`, so the throw never fires.
- Markup, styles, the welcome line (src/pages/HomePage.tsx:65-67) and the
  browser-enforced `required` and `minLength` input attributes are left out.
  The row's text colour is kept, because it follows the completion state.
- The `onChange` handlers of the login and signup fields are not modelled. The
  handlers read the fields directly.
- `TodoList` never calls `onToggleComplete` or `onDelete`. The model gives this
  no lemma. It holds because `TodoList.TodoListView` has no slot for an event.
- UpdateTodo: does not model the path check that `doc(db, "todos", todoId)` makes before the
  `try` (src/services/todoService.ts:80). An id containing "/" can make that call throw
  Firestore's invalid-reference error, and the promise rejects with it instead of "Failed to
  update todo.". Ids the app passes come from stored documents and never contain "/".
- DeleteTodo: the same path check (src/services/todoService.ts:95) is not modelled. For an id
  containing "/" the source can reject with Firestore's invalid-reference error where the
  model succeeds.
- A JavaScript object with a field explicitly set to `undefined` is not
  modelled. Firestore rejects such an object in `updateDoc`.
- `ITodoService` is not modelled as an interface value. Its four operations are
  the methods of the `TodoService` module, and the lookup is modelled over any
  service type.
- Optimistic toggle, delete and edit with rollback are not modelled. No file of
  the source implements them.
- `AuthForm.tsx`, `App.tsx`, `main.tsx` and `vite.config.ts` are markup, routing
  and build configuration. They are not part of this model.
