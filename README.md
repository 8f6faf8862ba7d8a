# Todo-App list state, in Dafny

This project models the core of a single-page to-do client. The client holds
a list of tasks (`Todo` records with `id`, `title`, `userId` and `completed`)
and keeps it in sync with a remote REST API. The model covers:

- the list container (`TodoApp`): the derived views (active, completed,
  "all completed"), the bulk updaters (clear completed, toggle all), the
  initial load and which screen is shown;
- one row of the list (`TodoItem`): the per-id updaters (remove, retitle,
  toggle), the handlers around them, and the row's edit mode as a class;
- the new-task form (`Header`): the blank-title guard (JavaScript's `trim`),
  the new todo that is sent, the append on success and the reset of the
  field, as a class.

Every remote call becomes a parameter: a `bool` for calls whose value is not
used, a `Reply<T>` (`Ok(value)` or `Failed`) for calls whose value is used.
The requests a handler issues come back as a `seq<Request>` in issue order.
A handler yields an `Effect`: the container state it leaves (`todos` and
`isError`) plus the requests it issued.

Files: `lists.dfy` (generic `Filter` and interleaving), `model.dfy` (the
records), `todo_app.dfy`, `todo_item.dfy`, `header.dfy`.

Notes on what the code does:

- Creating a task appends the todo the server returns. The model does not
  promise that this todo has `completed == false`. Only the todo that is sent
  (`Header.NewTodo`) has it.
- Neither clear-completed nor toggle-all can set the error flag. Their
  `Promise.all` is not awaited, so nothing in the `try` block throws.
- An emptied title issues a title update as well as the two deletes. The
  update is issued because the text differs from the saved title.
- A failed title update sets no error flag. `updateTodoTitle` has no `catch`.

## Model

| member | source | states |
|---|---|---|
| `TodoApp.ActiveTodos` | src/components/TodoApp/TodoApp.tsx:33-35 | a todo is in the active view iff it is in the list and not completed |
| `TodoApp.CompletedTodos` | src/components/TodoApp/TodoApp.tsx:37-39 | a todo is in the completed view iff it is in the list and completed |
| `TodoApp.IsAllCompleted` | src/components/TodoApp/TodoApp.tsx:41-43 | checking that the completed view is as long as the list holds iff every todo is completed, so it holds for the empty list |
| `TodoApp.ViewsPartition` | src/components/TodoApp/TodoApp.tsx:33-39 | the list is an order-preserving interleaving of the two views, their lengths add up to its length and their multisets add up to its multiset |
| `TodoApp.ViewsKeepOrder` | src/components/TodoApp/TodoApp.tsx:33-39 | each view of a concatenation is the concatenation of the views, so relative order is kept |
| `TodoApp.ClearCompletedRequests` | src/components/TodoApp/TodoApp.tsx:47-49 | one delete per completed todo, in list order; a delete for id x is issued iff some completed todo has id x |
| `TodoApp.ClearCompleted` | src/components/TodoApp/TodoApp.tsx:45-56 | for any delete outcomes, the list becomes the active view, no completed todo remains, the length drops by the number of completed todos, and the error flag is unchanged |
| `TodoApp.ClearCompletedNothingDone` | src/components/TodoApp/TodoApp.tsx:51 | with no completed todo, clearing leaves the list unchanged |
| `TodoApp.SetAllCompleted` | src/components/TodoApp/TodoApp.tsx:64-67 | same length; each todo keeps id, title and userId and has `completed` set to the given value |
| `TodoApp.SetAllCompletedIsAllCompleted` | src/components/TodoApp/TodoApp.tsx:41-67 | after setting every `completed` to v, the list is all completed iff v holds or the list is empty |
| `TodoApp.ToggleAllRequests` | src/components/TodoApp/TodoApp.tsx:60-62 | one toggle request per todo, in list order, each asking for `!isAllCompleted` |
| `TodoApp.ToggleAllTodos` | src/components/TodoApp/TodoApp.tsx:58-72 | for any toggle outcomes, every todo's `completed` becomes `!isAllCompleted` and nothing else changes; the error flag is unchanged |
| `TodoApp.ToggleAllUniform` | src/components/TodoApp/TodoApp.tsx:58-72 | after one toggle-all all todos agree on `completed`, and the list is all completed iff it was not before, or it is empty |
| `TodoApp.ToggleAllTwice` | src/components/TodoApp/TodoApp.tsx:41-72 | two toggle-alls leave every todo as it was except that `completed` equals the original `isAllCompleted` |
| `TodoApp.LoadTodos` | src/components/TodoApp/TodoApp.tsx:74-85 | one fetch for the user; on success the fetched list replaces the local one, on failure the list stays and the error flag is set |
| `TodoApp.Render` | src/components/TodoApp/TodoApp.tsx:91-103 | the error screen is shown iff the error flag is set; the list is shown iff there is no error and the user id is not 0 |
| `TodoApp.DefaultUserSeesNoList` | src/components/TodoApp/TodoApp.tsx:24-30 | the default user (id 0) never reaches the list view |
| `TodoItem.HasOtherId` | src/components/TodoItem/TodoItem.tsx:38-40 | the filter callback keeps a todo iff its id differs from the row's id |
| `TodoItem.RemoveById` | src/components/TodoItem/TodoItem.tsx:38-40 | a todo is kept iff it is in the list and its id differs from the given one; no kept todo has that id |
| `TodoItem.RemoveByIdKeepsOrder` | src/components/TodoItem/TodoItem.tsx:38-40 | removal distributes over concatenation, so kept todos keep their order |
| `TodoItem.RemoveAbsentId` | src/components/TodoItem/TodoItem.tsx:38-40 | removing an id no todo has leaves the list unchanged |
| `TodoItem.UpdateTitleById` | src/components/TodoItem/TodoItem.tsx:53-62 | same length; only the title of todos with the matching id changes, to the new title; every other field and todo is unchanged |
| `TodoItem.ToggleById` | src/components/TodoItem/TodoItem.tsx:96-105 | same length; only `completed` of todos with the matching id flips; every other field and todo is unchanged |
| `TodoItem.ToggleByIdTwice` | src/components/TodoItem/TodoItem.tsx:96-105 | toggling the same id twice restores the original list |
| `TodoItem.RemoveAfterUpdate` | src/components/TodoItem/TodoItem.tsx:67-75 | retitling an id and then removing it gives the same list as removing it alone |
| `TodoItem.UpdateAfterRemove` | src/components/TodoItem/TodoItem.tsx:67-75 | removing an id and then retitling it gives the same list as removing it alone, so the order of the two updates after an emptied title does not matter |
| `TodoItem.RemoveTodo` | src/components/TodoItem/TodoItem.tsx:35-45 | one delete request; on success the id is removed from the list, on failure the list stays and the error flag is set |
| `TodoItem.UpdateTodoTitle` | src/components/TodoItem/TodoItem.tsx:47-63 | one update request; on success the matching todos are retitled, on failure the state is unchanged (no error flag) |
| `TodoItem.OnToggleTodo` | src/components/TodoItem/TodoItem.tsx:92-110 | one toggle request asking for the row's flipped state; on success the id is toggled in the list, on failure the list stays and the error flag is set |
| `TodoItem.TodoRow.constructor` | src/components/TodoItem/TodoItem.tsx:30-32 | a new row is not editing and its edit text is the saved title |
| `TodoItem.TodoRow.StartEditing` | src/components/TodoItem/TodoItem.tsx:136 | double-click enters edit mode and keeps the edit text |
| `TodoItem.TodoRow.EditTitle` | src/components/TodoItem/TodoItem.tsx:157 | typing replaces the edit text and keeps the mode |
| `TodoItem.TodoRow.CancelEditing` | src/components/TodoItem/TodoItem.tsx:85-90 | Escape leaves edit mode and restores the saved title; any other key changes nothing |
| `TodoItem.TodoRow.Submit` | src/components/TodoItem/TodoItem.tsx:65-83 | edit mode always ends; an update is issued iff the text differs from the saved title; a delete is issued iff the text is empty, and then twice; with a non-empty text the list is retitled iff the text changed and the update succeeded; with an empty text the todo is removed if the first delete succeeds, and otherwise the list is retitled only if the text changed and the update succeeded; with an empty text the error flag is set iff either delete fails (or it was set) |
| `Header.Trim` | src/components/Header/Header.tsx:35 | the trimmed title is a slice of the title; everything cut off before it and after it is whitespace, and it neither starts nor ends with whitespace |
| `Header.IsBlank` | src/components/Header/Header.tsx:35-39 | the guard rejects a title iff it is made only of whitespace, so the empty title is rejected |
| `Header.VisibleCharacterPasses` | src/components/Header/Header.tsx:35 | a title with any non-whitespace character passes the guard |
| `Header.NewTodo` | src/components/Header/Header.tsx:41-46 | the todo sent has id 0, the untrimmed title, the user's id and `completed == false` |
| `Header.AppendTodo` | src/components/Header/Header.tsx:50 | the new list is one longer, its prefix is the old list and its last element is the server's todo |
| `Header.HeaderForm.constructor` | src/components/Header/Header.tsx:22 | the field starts empty |
| `Header.HeaderForm.ChangeTitle` | src/components/Header/Header.tsx:24-28 | the typed value becomes the title |
| `Header.HeaderForm.Submit` | src/components/Header/Header.tsx:30-57 | a blank title issues no request and leaves the state unchanged; otherwise exactly the new todo is sent; on success the server's todo is appended, on failure the list stays and the error flag is set; the field is empty afterwards in every case |

## Left out

- The HTTP calls (`getTodos`, `createTodo`, `updateTodo`, `toogleTodo`, `deleteTodo`): network I/O whose code is not part of this model. Each is a request value plus an outcome parameter.
- `useLocalStorage` and the `localStorage.setItem` mirror of `todos`: browser storage, and the helper is not part of this model.
- `warningTimer`'s three-second auto-clear of the error flag: a timer. The model only records that the flag is set.
- The ordering of un-awaited promises (`Promise.all` in clear-completed and toggle-all, `updateTodoTitle` and `removeTodo` inside submit): each handler is one sequential step in source order. `TodoItem.RemoveAfterUpdate` and `TodoItem.UpdateAfterRemove` show that the emptied-title case ends the same whichever list update runs first.
- Stale closures from `useCallback` dependency lists (for example `clearCompleted` reading `id` while depending only on `todos`): every handler sees the current state.
- How a row re-renders with new props after its todo changes: `TodoItem.TodoRow` keeps the `todo` it was made with.
- The user-login form (`UserWarning`), the footer, the filter links and the router: presentation and routing, not part of this model.
- JSX rendering, `classNames`, `preventDefault` and focus management.
- JavaScript strings are sequences of UTF-16 code units, while a Dafny `string` is a sequence of Unicode scalar values, so lone surrogates cannot be represented. Nothing the core does depends on this: every character `trim` strips lies in the Basic Multilingual Plane, and the emptied-title check only tests for the empty string.
- JavaScript numbers (the todo and user ids) become unbounded `int`. The core only compares ids and never does arithmetic on them.
