/** One row of the list: the per-id list updaters (remove, retitle, toggle),
    the handlers that pair them with their remote calls, and the row's own
    edit-mode state. */
module TodoItem {
  import opened TodoModel
  import opened Lists

  /** The filter callback of `removeTodo`: keep todos with another id. */
  function HasOtherId(id: int): (keep: Todo -> bool)
    ensures forall t :: keep(t) <==> t.id != id
  {
    (t: Todo) => t.id != id
  }

  /** The `removeTodo` updater: drop every todo with this id. */
  function RemoveById(todos: seq<Todo>, id: int): (r: seq<Todo>)
    ensures |r| <= |todos|
    ensures forall t :: t in r <==> t in todos && t.id != id
    ensures forall i :: 0 <= i < |r| ==> r[i].id != id
  {
    Filter(todos, HasOtherId(id))
  }

  /** The todos that are kept stay in their relative order. */
  lemma RemoveByIdKeepsOrder(a: seq<Todo>, b: seq<Todo>, id: int)
    ensures RemoveById(a + b, id) == RemoveById(a, id) + RemoveById(b, id)
  {
    FilterConcat(a, b, HasOtherId(id));
  }

  /** Removing an id nobody has changes nothing. */
  lemma RemoveAbsentId(todos: seq<Todo>, id: int)
    requires forall i :: 0 <= i < |todos| ==> todos[i].id != id
    ensures RemoveById(todos, id) == todos
  {
    FilterKeepsAll(todos, HasOtherId(id));
  }

  /** The `updateTodoTitle` updater: the todos whose id matches get the new
      title; no other field and no other todo changes. */
  function UpdateTitleById(todos: seq<Todo>, todoId: int, newTitle: string): (r: seq<Todo>)
    ensures |r| == |todos|
    ensures forall i :: 0 <= i < |r| ==>
      r[i].id == todos[i].id && r[i].userId == todos[i].userId &&
      r[i].completed == todos[i].completed &&
      r[i].title == (if todos[i].id == todoId then newTitle else todos[i].title)
  {
    seq(|todos|, i requires 0 <= i < |todos| =>
      if todos[i].id == todoId then todos[i].(title := newTitle) else todos[i])
  }

  /** The `onToogleTodo` updater: flip `completed` on the todos whose id
      matches; no other field and no other todo changes. */
  function ToggleById(todos: seq<Todo>, id: int): (r: seq<Todo>)
    ensures |r| == |todos|
    ensures forall i :: 0 <= i < |r| ==>
      r[i].id == todos[i].id && r[i].title == todos[i].title &&
      r[i].userId == todos[i].userId &&
      r[i].completed == (if todos[i].id == id then !todos[i].completed else todos[i].completed)
  {
    seq(|todos|, i requires 0 <= i < |todos| =>
      if todos[i].id == id then todos[i].(completed := !todos[i].completed) else todos[i])
  }

  /** Toggling the same id twice restores the original list. */
  lemma ToggleByIdTwice(todos: seq<Todo>, id: int)
    ensures ToggleById(ToggleById(todos, id), id) == todos
  {
  }

  /** Retitling and then removing the same id is the same as removing it:
      the retitled todos are exactly the ones the removal drops. */
  lemma RemoveAfterUpdate(todos: seq<Todo>, id: int, newTitle: string)
    ensures RemoveById(UpdateTitleById(todos, id, newTitle), id) == RemoveById(todos, id)
  {
    var u := UpdateTitleById(todos, id, newTitle);
    assert forall i :: 0 <= i < |u| && HasOtherId(id)(u[i]) ==> u[i] == todos[i];
    FilterCongruent(u, todos, HasOtherId(id));
  }

  /** Removing and then retitling the same id is the same as removing it. */
  lemma UpdateAfterRemove(todos: seq<Todo>, id: int, newTitle: string)
    ensures UpdateTitleById(RemoveById(todos, id), id, newTitle) == RemoveById(todos, id)
  {
  }

  /** `removeTodo`: delete remotely; on success drop the todo locally, on
      failure leave the list and set the error flag. */
  function RemoveTodo(user: User, id: int, s: AppState, deleteOk: bool): (e: Effect)
    ensures e.requests == [DeleteTodo(user.id, id)]
    ensures deleteOk ==> e.state == AppState(RemoveById(s.todos, id), s.isError)
    ensures !deleteOk ==> e.state == AppState(s.todos, true)
  {
    if deleteOk then Effect(AppState(RemoveById(s.todos, id), s.isError), [DeleteTodo(user.id, id)])
    else Effect(AppState(s.todos, true), [DeleteTodo(user.id, id)])
  }

  /** `updateTodoTitle`: ask for the row's `id`, then retitle `todoId`
      locally. It has no `catch`, so a failed update leaves the list and the
      error flag as they were. */
  function UpdateTodoTitle(user: User, id: int, newTitle: string, todoId: int, s: AppState, updateOk: bool): (e: Effect)
    ensures e.requests == [UpdateTodo(user.id, id, newTitle)]
    ensures updateOk ==> e.state == AppState(UpdateTitleById(s.todos, todoId, newTitle), s.isError)
    ensures !updateOk ==> e.state == s
  {
    if updateOk then Effect(AppState(UpdateTitleById(s.todos, todoId, newTitle), s.isError), [UpdateTodo(user.id, id, newTitle)])
    else Effect(s, [UpdateTodo(user.id, id, newTitle)])
  }

  /** `onToogleTodo`: ask for the flipped state of this row's todo; on success
      flip it locally, on failure leave the list and set the error flag. */
  function OnToggleTodo(user: User, todo: Todo, s: AppState, toggleOk: bool): (e: Effect)
    ensures e.requests == [ToggleTodo(user.id, todo.id, !todo.completed)]
    ensures toggleOk ==> e.state == AppState(ToggleById(s.todos, todo.id), s.isError)
    ensures !toggleOk ==> e.state == AppState(s.todos, true)
  {
    if toggleOk then Effect(AppState(ToggleById(s.todos, todo.id), s.isError), [ToggleTodo(user.id, todo.id, !todo.completed)])
    else Effect(AppState(s.todos, true), [ToggleTodo(user.id, todo.id, !todo.completed)])
  }

  /** The row's local state: the `todo` it shows (its `title` is the saved
      title), whether it is in edit mode, and the text in the edit field. */
  class TodoRow {
    const todo: Todo
    var isEditing: bool
    var changedTitle: string

    /** A fresh row is not editing and its edit field holds the saved title. */
    constructor (todo: Todo)
      ensures this.todo == todo && !isEditing && changedTitle == todo.title
    {
      this.todo := todo;
      isEditing := false;
      changedTitle := todo.title;
    }

    /** Double-click on the label enters edit mode. */
    method StartEditing()
      modifies this
      ensures isEditing && changedTitle == old(changedTitle)
    {
      isEditing := true;
    }

    /** Typing in the edit field replaces its text. */
    method EditTitle(value: string)
      modifies this
      ensures changedTitle == value && isEditing == old(isEditing)
    {
      changedTitle := value;
    }

    /** `handleCancelEditing`: Escape leaves edit mode and restores the saved
        title; any other key changes nothing. */
    method CancelEditing(key: string)
      modifies this
      ensures key == "Escape" ==> !isEditing && changedTitle == todo.title
      ensures key != "Escape" ==> isEditing == old(isEditing) && changedTitle == old(changedTitle)
    {
      if key == "Escape" {
        isEditing := false;
        changedTitle := todo.title;
      }
    }

    /** `submitChangedTitle`, as one sequential step: a changed text is sent
        as the new title; an empty text runs `removeTodo` and then deletes the
        same todo a second time; edit mode always ends. `updateOk`, `removeOk`
        and `deleteOk` are the outcomes of the update, of the delete inside
        `removeTodo`, and of the second delete. */
    method Submit(user: User, s: AppState, updateOk: bool, removeOk: bool, deleteOk: bool) returns (e: Effect)
      modifies this
      ensures !isEditing && changedTitle == old(changedTitle)
      ensures e.requests ==
        (if changedTitle != todo.title then [UpdateTodo(user.id, todo.id, changedTitle)] else []) +
        (if changedTitle == [] then [DeleteTodo(user.id, todo.id), DeleteTodo(user.id, todo.id)] else [])
      ensures UpdateTodo(user.id, todo.id, changedTitle) in e.requests <==> changedTitle != todo.title
      ensures DeleteTodo(user.id, todo.id) in e.requests <==> changedTitle == []
      ensures changedTitle != [] ==>
        e.state == if changedTitle != todo.title && updateOk
                   then AppState(UpdateTitleById(s.todos, todo.id, changedTitle), s.isError)
                   else s
      ensures changedTitle == [] && removeOk ==> e.state.todos == RemoveById(s.todos, todo.id)
      ensures changedTitle == [] && !removeOk ==>
        e.state.todos == if changedTitle != todo.title && updateOk
                         then UpdateTitleById(s.todos, todo.id, changedTitle)
                         else s.todos
      ensures changedTitle == [] ==> e.state.isError == (s.isError || !removeOk || !deleteOk)
    {
      var state := s;
      var requests := [];
      if changedTitle != todo.title {
        var update := UpdateTodoTitle(user, todo.id, changedTitle, todo.id, state, updateOk);
        state, requests := update.state, requests + update.requests;
        isEditing := false;
      }
      ghost var updated := state;
      if |changedTitle| == 0 {
        var remove := RemoveTodo(user, todo.id, state, removeOk);
        state, requests := remove.state, requests + remove.requests;
        requests := requests + [DeleteTodo(user.id, todo.id)];
        if !deleteOk {
          state := state.(isError := true);
        }
        if removeOk {
          if updated != s {
            RemoveAfterUpdate(s.todos, todo.id, changedTitle);
          }
        }
      }
      isEditing := false;
      e := Effect(state, requests);
    }
  }
}
