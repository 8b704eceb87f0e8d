/** The `todowrite` tool: validates a list of todo items in input order (the
    first bad item decides the error), then renders them as a numbered list
    with a status marker per item and a progress line. */
module TodoWrite {
  import opened PyStr

  /** One element of `todos` as received: any of its fields may be absent. */
  datatype RawTodo = RawTodo(content: Option<string>, status: Option<string>, id: Option<string>)

  /** A validated todo item. */
  datatype Todo = Todo(content: string, status: string, id: string)

  /** The outcome of validation: the items, or the error of the first bad one. */
  datatype Checked = Items(items: seq<Todo>) | Invalid(index: nat, problem: Problem)

  const Statuses: seq<string> := ["pending", "in_progress", "completed"]

  const NoTodosMessage: string := "Error: No todos provided. Must provide at least one todo item."

  /** An item that passes every per-item check (blank content is what
      `strip()` empties). */
  predicate ItemValid(t: RawTodo) {
    && t.content.Some? && t.status.Some? && t.id.Some?
    && !IsBlank(t.content.value)
    && t.status.value in Statuses
  }

  /** The ids of the items seen so far. */
  function Ids(todos: seq<RawTodo>): set<string> {
    set j | 0 <= j < |todos| && todos[j].id.Some? :: todos[j].id.value
  }

  /** Why an item is refused. */
  datatype Problem = MissingField(field: string) | EmptyContent | InvalidStatus(status: string) | DuplicateId(id: string)

  /** The error text for a problem of the item at position `i` (0-based). */
  function ProblemMessage(i: nat, p: Problem): string {
    match p
    case MissingField(field) => "Error: Todo " + NatToString(i + 1) + " missing required field '" + field + "'"
    case EmptyContent => "Error: Todo " + NatToString(i + 1) + " has empty content"
    case InvalidStatus(status) =>
      "Error: Todo " + NatToString(i + 1) + " has invalid status '" + status
        + "'. Must be one of: pending, in_progress, completed"
    case DuplicateId(id) => "Error: Duplicate todo ID '" + id + "' found"
  }

  /** Taking one more item adds its id. */
  lemma {:induction false} IdsExtend(todos: seq<RawTodo>, i: nat)
    requires i < |todos| && todos[i].id.Some?
    ensures Ids(todos[..i + 1]) == Ids(todos[..i]) + {todos[i].id.value}
  {
    var a := todos[..i];
    var b := todos[..i + 1];
    assert forall j :: 0 <= j < i ==> a[j] == b[j];
    assert b[i] == todos[i];
  }

  /** The checks on one item, in the source's order: the fields content,
      status, id; then empty content, then the status, then an id already seen. */
  function Issue(t: RawTodo, seen: set<string>): (p: Option<Problem>)
    ensures p.None? <==> ItemValid(t) && t.id.value !in seen
    ensures t.content.None? ==> p == Some(MissingField("content"))
    ensures ItemValid(t) && t.id.value in seen ==> p == Some(DuplicateId(t.id.value))
  {
    if t.content.None? then Some(MissingField("content"))
    else if t.status.None? then Some(MissingField("status"))
    else if t.id.None? then Some(MissingField("id"))
    else if IsBlank(t.content.value) then Some(EmptyContent)
    else if t.status.value !in Statuses then Some(InvalidStatus(t.status.value))
    else if t.id.value in seen then Some(DuplicateId(t.id.value))
    else None
  }

  function ToTodo(t: RawTodo): Todo
    requires t.content.Some? && t.status.Some? && t.id.Some?
  {
    Todo(t.content.value, t.status.value, t.id.value)
  }

  /** The item at position `k` passes its checks against the ids before it. */
  predicate Passes(todos: seq<RawTodo>, k: nat)
    requires k < |todos|
  {
    Issue(todos[k], Ids(todos[..k])).None?
  }

  /** Validation of the first `n` items, item by item in input order. */
  function ValidateUpTo(todos: seq<RawTodo>, n: nat): (r: Checked)
    requires n <= |todos|
    ensures r.Items? ==> |r.items| == n
  {
    if n == 0 then Items([])
    else
      match ValidateUpTo(todos, n - 1)
      case Invalid(k, p) => Invalid(k, p)
      case Items(items) =>
        match Issue(todos[n - 1], Ids(todos[..n - 1]))
        case Some(p) => Invalid(n - 1, p)
        case None => Items(items + [ToTodo(todos[n - 1])])
  }

  function Validate(todos: seq<RawTodo>): Checked {
    ValidateUpTo(todos, |todos|)
  }

  /** The first `n` items are accepted exactly when each of them passes, and
      the items kept are those input items in order; otherwise the error is
      that of the first item that fails. */
  lemma {:induction false} ValidateUpToFirstFailure(todos: seq<RawTodo>, n: nat)
    requires n <= |todos|
    ensures ValidateUpTo(todos, n).Items? <==> forall k :: 0 <= k < n ==> Passes(todos, k)
    ensures ValidateUpTo(todos, n).Items? ==>
      forall k :: 0 <= k < n ==> ItemValid(todos[k]) && ValidateUpTo(todos, n).items[k] == ToTodo(todos[k])
    ensures ValidateUpTo(todos, n).Invalid? ==>
      var k := ValidateUpTo(todos, n).index;
      && k < n && Issue(todos[k], Ids(todos[..k])) == Some(ValidateUpTo(todos, n).problem)
      && forall j :: 0 <= j < k ==> Passes(todos, j)
  {
    if n > 0 {
      ValidateUpToFirstFailure(todos, n - 1);
      var prev := ValidateUpTo(todos, n - 1);
      if prev.Invalid? {
        assert ValidateUpTo(todos, n) == prev;
        assert !Passes(todos, prev.index);
      } else if !Passes(todos, n - 1) {
        assert ValidateUpTo(todos, n) == Invalid(n - 1, Issue(todos[n - 1], Ids(todos[..n - 1])).value);
      } else {
        var items := prev.items + [ToTodo(todos[n - 1])];
        assert ValidateUpTo(todos, n) == Items(items);
        assert forall k :: 0 <= k < n ==> Passes(todos, k);
        forall k | 0 <= k < n
          ensures ItemValid(todos[k]) && items[k] == ToTodo(todos[k])
        {
          if k < n - 1 {
            assert items[k] == prev.items[k];
          }
        }
      }
    }
  }

  /** Once an item fails, later items do not change the outcome. */
  lemma {:induction false} InvalidSticks(todos: seq<RawTodo>, n: nat, m: nat)
    requires n <= m <= |todos| && ValidateUpTo(todos, n).Invalid?
    ensures ValidateUpTo(todos, m) == ValidateUpTo(todos, n)
    decreases m - n
  {
    if n < m {
      InvalidSticks(todos, n + 1, m);
    }
  }

  /** The whole list: accepted exactly when every item passes, the items kept
      in input order, or else the error of the first failing item. */
  lemma {:induction false} ValidateFirstFailure(todos: seq<RawTodo>)
    ensures Validate(todos).Items? <==> forall k :: 0 <= k < |todos| ==> Passes(todos, k)
    ensures Validate(todos).Items? ==>
      && |Validate(todos).items| == |todos|
      && forall k :: 0 <= k < |todos| ==> ItemValid(todos[k]) && Validate(todos).items[k] == ToTodo(todos[k])
    ensures Validate(todos).Invalid? ==>
      var k := Validate(todos).index;
      && k < |todos| && Issue(todos[k], Ids(todos[..k])) == Some(Validate(todos).problem)
      && forall j :: 0 <= j < k ==> Passes(todos, j)
  {
    ValidateUpToFirstFailure(todos, |todos|);
  }

  /** A list is accepted exactly when every item passes its own checks and no
      id repeats. */
  lemma {:induction false} ValidateAccepts(todos: seq<RawTodo>)
    ensures Validate(todos).Items? <==>
      && (forall k :: 0 <= k < |todos| ==> ItemValid(todos[k]))
      && (forall j, k :: 0 <= j < k < |todos| ==> todos[j].id != todos[k].id)
  {
    ValidateFirstFailure(todos);
    if Validate(todos).Items? {
      forall j, k | 0 <= j < k < |todos|
        ensures todos[j].id != todos[k].id
      {
        assert Passes(todos, k);
        assert todos[..k][j] == todos[j];
      }
    } else {
      var k :| 0 <= k < |todos| && !Passes(todos, k);
      if ItemValid(todos[k]) {
        var j :| 0 <= j < k && todos[..k][j].id.Some? && todos[..k][j].id.value == todos[k].id.value;
        assert todos[..k][j] == todos[j];
      }
    }
  }

  /** How many items have the given status. */
  function CountStatus(items: seq<Todo>, status: string): (n: nat)
    ensures n <= |items|
  {
    if |items| == 0 then 0
    else CountStatus(items[..|items| - 1], status) + (if items[|items| - 1].status == status then 1 else 0)
  }

  function Marker(status: string): string {
    if status == "completed" then "\U{2705}"
    else if status == "in_progress" then "\U{1F504}"
    else "\U{23F3}"
  }

  /** The line of the item numbered `n` (1-based). */
  function Line(n: nat, t: Todo): string {
    NatToString(n) + ". " + Marker(t.status) + " " + t.content + "\n"
  }

  /** The item lines, numbered from 1 in input order. */
  function RenderLines(items: seq<Todo>): string {
    Numbered(items, Line)
  }

  /** The items formatted with their 1-based positions, in order. */
  function Numbered<T>(items: seq<T>, fmt: (nat, T) -> string): string {
    if |items| == 0 then ""
    else Numbered(items[..|items| - 1], fmt) + fmt(|items|, items[|items| - 1])
  }

  const Header: string := "\U{1F4DD} Todo List (execute in order):\n\n"

  const WarningTail: string := " tasks are marked as in_progress. Ideally only ONE task should be in_progress at a time."

  /** The warning shown when `n` items are in progress. */
  function Warning(n: nat): (w: string)
    ensures w == "" <==> n <= 1
  {
    if n > 1 then
      "\n\U{26A0}\U{FE0F}  Warning: " + NatToString(n)
        + WarningTail
    else ""
  }

  function Progress(items: seq<Todo>): string {
    "\nProgress: " + NatToString(CountStatus(items, "completed")) + "/" + NatToString(|items|) + " completed"
  }

  function Render(items: seq<Todo>): string {
    Header + RenderLines(items) + Progress(items) + Warning(CountStatus(items, "in_progress"))
  }

  /** What `todowrite` returns for a list of raw items. */
  function Output(todos: seq<RawTodo>): string {
    if |todos| == 0 then NoTodosMessage
    else match Validate(todos)
      case Invalid(k, p) => ProblemMessage(k, p)
      case Items(items) => Render(items)
  }

  /** The checks of one iteration of the validation loop, in the source's order. */
  method CheckItem(todo: RawTodo, seenIds: set<string>) returns (problem: Option<Problem>)
    ensures problem == Issue(todo, seenIds)
  {
    problem := None;
    if todo.content.None? {
      problem := Some(MissingField("content"));
    } else if todo.status.None? {
      problem := Some(MissingField("status"));
    } else if todo.id.None? {
      problem := Some(MissingField("id"));
    } else {
      StripEmptyIffBlank(todo.content.value);
      if Strip(todo.content.value) == "" {
        problem := Some(EmptyContent);
      } else if todo.status.value !in Statuses {
        problem := Some(InvalidStatus(todo.status.value));
      } else if todo.id.value in seenIds {
        problem := Some(DuplicateId(todo.id.value));
      }
    }
  }

  /** One more item either fails with its own problem or is kept at the end. */
  lemma {:induction false} ValidateUpToNext(todos: seq<RawTodo>, i: nat, items: seq<Todo>)
    requires i < |todos| && ValidateUpTo(todos, i) == Items(items)
    ensures var p := Issue(todos[i], Ids(todos[..i]));
      && (p.Some? ==> ValidateUpTo(todos, i + 1) == Invalid(i, p.value))
      && (p.None? ==> ValidateUpTo(todos, i + 1) == Items(items + [ToTodo(todos[i])]))
  {
  }

  /** Counting over one more item. */
  lemma {:induction false} CountStatusSnoc(items: seq<Todo>, t: Todo, status: string)
    ensures CountStatus(items + [t], status) == CountStatus(items, status) + (if t.status == status then 1 else 0)
  {
    assert (items + [t])[..|items|] == items;
  }

  /** The validation loop of `todowrite`: keeps the seen ids and the number of
      items in progress, and stops at the first item that fails. */
  method CheckTodos(todos: seq<RawTodo>) returns (r: Checked, inProgressCount: nat)
    ensures r == Validate(todos)
    ensures r.Items? ==> inProgressCount == CountStatus(r.items, "in_progress")
  {
    var items: seq<Todo> := [];
    var seenIds: set<string> := {};
    inProgressCount := 0;
    var i := 0;
    while i < |todos|
      invariant 0 <= i <= |todos|
      invariant ValidateUpTo(todos, i) == Items(items)
      invariant seenIds == Ids(todos[..i])
      invariant inProgressCount == CountStatus(items, "in_progress")
    {
      var todo := todos[i];
      var problem := CheckItem(todo, seenIds);
      ValidateUpToNext(todos, i, items);
      if problem.Some? {
        InvalidSticks(todos, i + 1, |todos|);
        return Invalid(i, problem.value), inProgressCount;
      }
      var content := todo.content.value;
      var status := todo.status.value;
      var todoId := todo.id.value;
      IdsExtend(todos, i);
      seenIds := seenIds + {todoId};
      if status == "in_progress" {
        inProgressCount := inProgressCount + 1;
      }
      CountStatusSnoc(items, Todo(content, status, todoId), "in_progress");
      items := items + [Todo(content, status, todoId)];
      i := i + 1;
    }
    r := Items(items);
  }

  /** The rendering part of `todowrite`: the header, one line per item added
      with `+=`, the progress line and the warning. */
  method RenderTodos(items: seq<Todo>, inProgressCount: nat) returns (result: string)
    requires inProgressCount == CountStatus(items, "in_progress")
    ensures result == Render(items)
  {
    var warning := "";
    if inProgressCount > 1 {
      warning := Warning(inProgressCount);
    }
    result := AppendNumbered(Header, items, Line);
    result := result + Progress(items);
    result := result + warning;
  }

  /** The `+=` loop over the items: one line each, formatted by `fmt` with the
      item's 1-based position, in input order. */
  method AppendNumbered<T>(prefix: string, items: seq<T>, fmt: (nat, T) -> string) returns (result: string)
    ensures result == prefix + Numbered(items, fmt)
  {
    result := prefix;
    var n := 0;
    while n < |items|
      invariant 0 <= n <= |items|
      invariant result == prefix + Numbered(items[..n], fmt)
    {
      NumberedSnoc(items, fmt, n);
      ghost var before := Numbered(items[..n], fmt);
      var line := fmt(n + 1, items[n]);
      assert (prefix + before) + line == prefix + (before + line);
      result := result + line;
      n := n + 1;
    }
    assert items[..n] == items;
  }

  /** One more item adds its numbered line at the end. */
  lemma {:induction false} NumberedSnoc<T>(items: seq<T>, fmt: (nat, T) -> string, n: nat)
    requires n < |items|
    ensures Numbered(items[..n + 1], fmt) == Numbered(items[..n], fmt) + fmt(n + 1, items[n])
  {
    assert items[..n + 1][..n] == items[..n];
    assert items[..n + 1][n] == items[n];
  }

  /** `todowrite` */
  method Write(todos: seq<RawTodo>) returns (out: string)
    ensures out == Output(todos)
  {
    if |todos| == 0 {
      return NoTodosMessage;
    }
    var checked, inProgressCount := CheckTodos(todos);
    if checked.Invalid? {
      return ProblemMessage(checked.index, checked.problem);
    }
    out := RenderTodos(checked.items, inProgressCount);
  }

  /** The numbered lines are the items in input order, the k-th (0-based)
      formatted with position k + 1. */
  lemma {:induction false} NumberedConcat<T>(items: seq<T>, fmt: (nat, T) -> string)
    ensures Numbered(items, fmt) == Concat(seq(|items|, k requires 0 <= k < |items| => fmt(k + 1, items[k])))
  {
    if |items| > 0 {
      var n := |items| - 1;
      NumberedConcat(items[..n], fmt);
      var all := seq(|items|, k requires 0 <= k < |items| => fmt(k + 1, items[k]));
      var init := seq(n, k requires 0 <= k < n => fmt(k + 1, items[..n][k]));
      assert all == init + [fmt(n + 1, items[n])];
      ConcatSnoc(init, fmt(n + 1, items[n]));
    }
  }

  lemma {:induction false} ConcatSnoc(parts: seq<string>, last: string)
    ensures Concat(parts + [last]) == Concat(parts) + last
  {
    if |parts| > 0 {
      assert (parts + [last])[1..] == parts[1..] + [last];
      ConcatSnoc(parts[1..], last);
    } else {
      assert parts + [last] == [last];
    }
  }

  /** On an accepted list every item has one of the three statuses, so the
      three counts add up to the number of items. */
  lemma {:induction false} StatusesPartition(items: seq<Todo>)
    requires forall k :: 0 <= k < |items| ==> items[k].status in Statuses
    ensures CountStatus(items, "pending") + CountStatus(items, "in_progress") + CountStatus(items, "completed") == |items|
  {
    if |items| > 0 {
      StatusesPartition(items[..|items| - 1]);
    }
  }

  /** An accepted list is rendered under the header: having several items in
      progress adds a warning but never rejects the list. */
  lemma {:induction false} AcceptedRendering(todos: seq<RawTodo>)
    requires |todos| > 0 && Validate(todos).Items?
    ensures StartsWith(Output(todos), Header)
  {
    var items := Validate(todos).items;
    var lines := Header + RenderLines(items);
    var withProgress := lines + Progress(items);
    assert Output(todos) == withProgress + Warning(CountStatus(items, "in_progress"));
    StartsWithAppend(Header, RenderLines(items));
    StartsWithExtend(lines, Header, Progress(items));
    StartsWithExtend(withProgress, Header, Warning(CountStatus(items, "in_progress")));
  }

  /** On an accepted list the pending, in-progress and completed counts cover
      every item. */
  lemma {:induction false} AcceptedCounts(todos: seq<RawTodo>)
    requires Validate(todos).Items?
    ensures var items := Validate(todos).items;
      CountStatus(items, "pending") + CountStatus(items, "in_progress") + CountStatus(items, "completed") == |todos|
  {
    ValidateFirstFailure(todos);
    StatusesPartition(Validate(todos).items);
  }
}
