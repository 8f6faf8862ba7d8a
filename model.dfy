/** The records the components share: a to-do, the logged-in user, the remote
    requests the components issue, the outcome of a remote call, and the two
    pieces of state the list container owns (`todos` and `isError`). */
module TodoModel {

  /** One task, as the API and local storage hold it. */
  datatype Todo = Todo(id: int, title: string, userId: int, completed: bool)

  /** The logged-in user; `id == 0` means nobody is logged in. */
  datatype User = User(id: int, name: string, username: string, email: string, phone: string)

  /** The value stored under `user` before anyone logs in. */
  const DefaultUser := User(0, "", "", "", "")

  /** A call into the API client, recorded instead of performed. */
  datatype Request =
    | CreateTodo(userId: int, todo: Todo)
    | UpdateTodo(userId: int, todoId: int, title: string)
    | ToggleTodo(userId: int, todoId: int, completed: bool)
    | DeleteTodo(userId: int, todoId: int)
    | GetTodos(userId: int)

  /** How a remote call that yields a value ended: its value, or a rejection. */
  datatype Reply<T> = Ok(value: T) | Failed

  /** The state owned by the list container: the list and the error flag. */
  datatype AppState = AppState(todos: seq<Todo>, isError: bool)

  /** What one handler does: the state it leaves and the requests it issued, in order. */
  datatype Effect = Effect(state: AppState, requests: seq<Request>)
}
