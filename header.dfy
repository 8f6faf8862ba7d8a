/** The new-task form: the text field's `title` state and `handleSubmit`,
    which rejects blank titles, sends the new todo and appends what the
    server returns. */
module Header {
  import opened TodoModel

  /** The code points `String.prototype.trim` strips: ECMAScript WhiteSpace
      (tab, vertical tab, form feed, space, no-break space, the byte order
      mark and the other space separators) and LineTerminator (line feed,
      carriage return, line and paragraph separators). */
  predicate IsWhitespace(c: char)
  {
    || c == '\t' || c == '\U{000B}' || c == '\U{000C}' || c == ' '
    || c == '\U{00A0}' || c == '\U{FEFF}' || c == '\U{1680}'
    || ('\U{2000}' <= c <= '\U{200A}')
    || c == '\U{202F}' || c == '\U{205F}' || c == '\U{3000}'
    || c == '\n' || c == '\r' || c == '\U{2028}' || c == '\U{2029}'
  }

  /** The number of whitespace characters `s` starts with. */
  function LeadingWhitespace(s: string): (k: nat)
    ensures k <= |s|
    ensures forall i :: 0 <= i < k ==> IsWhitespace(s[i])
    ensures k < |s| ==> !IsWhitespace(s[k])
  {
    if s == [] || !IsWhitespace(s[0]) then 0
    else 1 + LeadingWhitespace(s[1..])
  }

  /** The number of whitespace characters `s` ends with. */
  function TrailingWhitespace(s: string): (k: nat)
    ensures k <= |s|
    ensures forall i :: |s| - k <= i < |s| ==> IsWhitespace(s[i])
    ensures k < |s| ==> !IsWhitespace(s[|s| - 1 - k])
  {
    if s == [] || !IsWhitespace(s[|s| - 1]) then 0
    else 1 + TrailingWhitespace(s[..|s| - 1])
  }

  /** `s.trim()`: `s` without its leading and trailing whitespace. The result
      is a slice of `s`; what is cut off before and after it is whitespace,
      and it neither starts nor ends with whitespace. */
  function Trim(s: string): (r: string)
    ensures LeadingWhitespace(s) + |r| <= |s|
    ensures r == s[LeadingWhitespace(s)..LeadingWhitespace(s) + |r|]
    ensures forall i :: LeadingWhitespace(s) + |r| <= i < |s| ==> IsWhitespace(s[i])
    ensures r != [] ==> !IsWhitespace(r[0]) && !IsWhitespace(r[|r| - 1])
  {
    var rest := s[LeadingWhitespace(s)..];
    rest[..|rest| - TrailingWhitespace(rest)]
  }

  /** The guard `!title.trim()` (an empty string is falsy): it rejects
      exactly the titles made only of whitespace, the empty one among them. */
  function IsBlank(title: string): (blank: bool)
    ensures blank <==> forall i :: 0 <= i < |title| ==> IsWhitespace(title[i])
  {
    Trim(title) == []
  }

  /** The todo `handleSubmit` sends: the server assigns the id, so it is 0;
      the title is sent untrimmed; the owner is the user; it starts active. */
  function NewTodo(user: User, title: string): (t: Todo)
    ensures t.id == 0 && t.title == title && t.userId == user.id && !t.completed
  {
    Todo(0, title, user.id, false)
  }

  /** The `onAddTodo` updater `[...prevTodos, addedTodo]`. */
  function AppendTodo(todos: seq<Todo>, added: Todo): (r: seq<Todo>)
    ensures |r| == |todos| + 1
    ensures r[..|todos|] == todos && r[|todos|] == added
  {
    todos + [added]
  }

  /** The form's state: the text typed into the new-task field. */
  class HeaderForm {
    var title: string

    /** The field starts empty. */
    constructor ()
      ensures title == ""
    {
      title := "";
    }

    /** `handleChangeEvent`: the field's value becomes the title. */
    method ChangeTitle(value: string)
      modifies this
      ensures title == value
    {
      title := value;
    }

    /** `handleSubmit`, with `reply` the outcome of `createTodo`. A blank title
        sends nothing and leaves the list and the error flag alone. Otherwise
        the new todo is sent; on success the server's todo is appended, on
        failure the error flag is set. The field is empty afterwards in
        every case. */
    method Submit(user: User, s: AppState, reply: Reply<Todo>) returns (e: Effect)
      modifies this
      ensures title == ""
      ensures IsBlank(old(title)) ==> e == Effect(s, [])
      ensures !IsBlank(old(title)) ==> e.requests == [CreateTodo(user.id, NewTodo(user, old(title)))]
      ensures !IsBlank(old(title)) && reply.Ok? ==>
        e.state == AppState(AppendTodo(s.todos, reply.value), s.isError)
      ensures !IsBlank(old(title)) && reply.Failed? ==> e.state == AppState(s.todos, true)
    {
      if IsBlank(title) {
        title := "";
        return Effect(s, []);
      }
      var newTodo := NewTodo(user, title);
      var requests := [CreateTodo(user.id, newTodo)];
      match reply {
        case Ok(added) =>
          e := Effect(AppState(AppendTodo(s.todos, added), s.isError), requests);
        case Failed =>
          e := Effect(AppState(s.todos, true), requests);
      }
      title := "";
    }
  }

  /** A title with a character other than whitespace passes the guard. */
  lemma VisibleCharacterPasses(title: string, i: nat)
    requires i < |title| && !IsWhitespace(title[i])
    ensures !IsBlank(title)
  {
  }
}
