/** The list container: the derived views of the list, the bulk updaters
    (clear completed, toggle all), the initial load and the choice of screen. */
module TodoApp {
  import opened TodoModel
  import opened Lists

  predicate IsActive(t: Todo) { !t.completed }

  predicate IsCompleted(t: Todo) { t.completed }

  /** The `activeTodos` view: the todos not yet completed. */
  function ActiveTodos(todos: seq<Todo>): (r: seq<Todo>)
    ensures forall t :: t in r <==> t in todos && !t.completed
    ensures forall i :: 0 <= i < |r| ==> !r[i].completed
  {
    Filter(todos, IsActive)
  }

  /** The `allCompleted` view: the todos already completed. */
  function CompletedTodos(todos: seq<Todo>): (r: seq<Todo>)
    ensures forall t :: t in r <==> t in todos && t.completed
    ensures forall i :: 0 <= i < |r| ==> r[i].completed
  {
    Filter(todos, IsCompleted)
  }

  /** `isAllCompleted`, computed as the source does, by comparing lengths,
      which means exactly "every todo is completed"; so the empty list
      counts as all completed. */
  function IsAllCompleted(todos: seq<Todo>): (all: bool)
    ensures all <==> forall i :: 0 <= i < |todos| ==> todos[i].completed
  {
    FilterKeepsAll(todos, IsCompleted);
    |CompletedTodos(todos)| == |todos|
  }

  /** The two views partition the list: each todo lands in exactly one of
      them, both keep the list's relative order, and their lengths add up. */
  lemma ViewsPartition(todos: seq<Todo>)
    ensures Interleaves(todos, ActiveTodos(todos), CompletedTodos(todos))
    ensures |ActiveTodos(todos)| + |CompletedTodos(todos)| == |todos|
    ensures multiset(ActiveTodos(todos)) + multiset(CompletedTodos(todos)) == multiset(todos)
  {
    FilterInterleaves(todos, IsActive, IsCompleted);
    InterleavesCounts(todos, ActiveTodos(todos), CompletedTodos(todos));
  }

  /** The views keep relative order: the view of a concatenation is the
      concatenation of the views. */
  lemma ViewsKeepOrder(a: seq<Todo>, b: seq<Todo>)
    ensures ActiveTodos(a + b) == ActiveTodos(a) + ActiveTodos(b)
    ensures CompletedTodos(a + b) == CompletedTodos(a) + CompletedTodos(b)
  {
    FilterConcat(a, b, IsActive);
    FilterConcat(a, b, IsCompleted);
  }

  /** The deletions `clearCompleted` fires: one per completed todo, in list order. */
  function ClearCompletedRequests(user: User, todos: seq<Todo>): (r: seq<Request>)
    ensures |r| == |CompletedTodos(todos)|
    ensures forall i :: 0 <= i < |r| ==> r[i] == DeleteTodo(user.id, CompletedTodos(todos)[i].id)
    ensures forall x :: DeleteTodo(user.id, x) in r <==> exists t :: t in todos && t.completed && t.id == x
  {
    var done := CompletedTodos(todos);
    var r := seq(|done|, i requires 0 <= i < |done| => DeleteTodo(user.id, done[i].id));
    assert forall x :: DeleteTodo(user.id, x) in r ==> exists i :: 0 <= i < |done| && done[i].id == x;
    assert forall t :: t in done ==> DeleteTodo(user.id, t.id) in r by {
      forall t | t in done ensures DeleteTodo(user.id, t.id) in r {
        var i :| 0 <= i < |done| && done[i] == t;
        assert r[i] == DeleteTodo(user.id, t.id);
      }
    }
    r
  }

  /** `clearCompleted`: fire the deletions without waiting for them, then keep
      the active todos. The catch block cannot be reached, since nothing in
      the `try` throws once the promises are left unawaited, so the outcome
      of the deletions changes nothing. */
  function ClearCompleted(user: User, s: AppState, deleteOutcomes: seq<bool>): (e: Effect)
    ensures e.state.todos == ActiveTodos(s.todos)
    ensures forall i :: 0 <= i < |e.state.todos| ==> !e.state.todos[i].completed
    ensures |e.state.todos| == |s.todos| - |CompletedTodos(s.todos)|
    ensures e.state.isError == s.isError
    ensures e.requests == ClearCompletedRequests(user, s.todos)
  {
    ViewsPartition(s.todos);
    Effect(AppState(ActiveTodos(s.todos), s.isError), ClearCompletedRequests(user, s.todos))
  }

  /** Clearing a list with nothing completed leaves it as it is. */
  lemma ClearCompletedNothingDone(todos: seq<Todo>)
    requires forall i :: 0 <= i < |todos| ==> !todos[i].completed
    ensures ActiveTodos(todos) == todos
  {
    FilterKeepsAll(todos, IsActive);
  }

  /** The list with every `completed` set to `value` and nothing else changed. */
  function SetAllCompleted(todos: seq<Todo>, value: bool): (r: seq<Todo>)
    ensures |r| == |todos|
    ensures forall i :: 0 <= i < |r| ==>
      r[i].id == todos[i].id && r[i].title == todos[i].title &&
      r[i].userId == todos[i].userId && r[i].completed == value
  {
    seq(|todos|, i requires 0 <= i < |todos| => todos[i].(completed := value))
  }

  /** Once every `completed` is set to `value`, the list counts as all
      completed exactly when `value` holds or the list is empty. */
  lemma SetAllCompletedIsAllCompleted(todos: seq<Todo>, value: bool)
    ensures IsAllCompleted(SetAllCompleted(todos, value)) <==> value || todos == []
  {
  }

  /** The toggle requests `onToogleAllTodos` fires: one per todo, all with the same target. */
  function ToggleAllRequests(user: User, todos: seq<Todo>): (r: seq<Request>)
    ensures |r| == |todos|
    ensures forall i :: 0 <= i < |r| ==> r[i] == ToggleTodo(user.id, todos[i].id, !IsAllCompleted(todos))
  {
    seq(|todos|, i requires 0 <= i < |todos| => ToggleTodo(user.id, todos[i].id, !IsAllCompleted(todos)))
  }

  /** `onToogleAllTodos`: every todo gets `completed == !isAllCompleted`; the
      requests are not awaited, so their outcomes change nothing locally. */
  function ToggleAllTodos(user: User, s: AppState, toggleOutcomes: seq<bool>): (e: Effect)
    ensures e.state.todos == SetAllCompleted(s.todos, !IsAllCompleted(s.todos))
    ensures e.state.isError == s.isError
    ensures e.requests == ToggleAllRequests(user, s.todos)
  {
    Effect(AppState(SetAllCompleted(s.todos, !IsAllCompleted(s.todos)), s.isError),
           ToggleAllRequests(user, s.todos))
  }

  /** After one toggle-all the list is uniform: all completed, or (for a
      list that was all completed) none. */
  lemma ToggleAllUniform(user: User, s: AppState, outcomes: seq<bool>)
    ensures var t := ToggleAllTodos(user, s, outcomes).state.todos;
      forall i, j :: 0 <= i < |t| && 0 <= j < |t| ==> t[i].completed == t[j].completed
    ensures var t := ToggleAllTodos(user, s, outcomes).state.todos;
      IsAllCompleted(t) <==> !IsAllCompleted(s.todos) || s.todos == []
  {
    SetAllCompletedIsAllCompleted(s.todos, !IsAllCompleted(s.todos));
  }

  /** Two toggle-alls leave every `completed` equal to the original
      `isAllCompleted`, and every other field as it was (on the empty list
      this holds trivially). */
  lemma ToggleAllTwice(user: User, s: AppState, o1: seq<bool>, o2: seq<bool>)
    ensures var t := ToggleAllTodos(user, ToggleAllTodos(user, s, o1).state, o2).state.todos;
      |t| == |s.todos| &&
      forall i :: 0 <= i < |t| ==> t[i] == s.todos[i].(completed := IsAllCompleted(s.todos))
  {
    var all := IsAllCompleted(s.todos);
    var once := SetAllCompleted(s.todos, !all);
    SetAllCompletedIsAllCompleted(s.todos, !all);
    if s.todos != [] {
      assert IsAllCompleted(once) == !all;
    }
  }

  /** The effect that loads the user's todos whenever the user id changes:
      the fetched list replaces the local one; a failed fetch sets the error flag. */
  function LoadTodos(user: User, s: AppState, reply: Reply<seq<Todo>>): (e: Effect)
    ensures e.requests == [GetTodos(user.id)]
    ensures reply.Ok? ==> e.state == AppState(reply.value, s.isError)
    ensures reply.Failed? ==> e.state == AppState(s.todos, true)
  {
    match reply
    case Ok(todos) => Effect(AppState(todos, s.isError), [GetTodos(user.id)])
    case Failed => Effect(AppState(s.todos, true), [GetTodos(user.id)])
  }

  /** What the container renders. */
  datatype Screen = ErrorBanner | UserWarning | TodoList

  /** The error screen wins; then a user id of 0 (falsy) asks for a login. */
  function Render(isError: bool, user: User): (v: Screen)
    ensures v == ErrorBanner <==> isError
    ensures v == TodoList <==> !isError && user.id != 0
  {
    if isError then ErrorBanner
    else if user.id == 0 then UserWarning
    else TodoList
  }

  /** With the default user (id 0) the list is never shown. */
  lemma DefaultUserSeesNoList(isError: bool)
    ensures Render(isError, DefaultUser) != TodoList
  {
  }
}
