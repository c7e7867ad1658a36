/** The component's state: the input field's text, the list of todo item
    objects and the counter, each overwritten by its setter. */
module Component {
  import opened TodoList
  import Counter

  /** A todo item object. Its text is set when it is created and never
      assigned again; its completion flag is flipped in place. */
  class TodoItem {
    const text: string
    var complete: bool

    constructor (text: string)
      ensures this.text == text && !complete
    {
      this.text := text;
      complete := false;
    }
  }

  /** The values the item objects currently hold, in list order. */
  function Snapshot(items: seq<TodoItem>): seq<Todo>
    reads items
  {
    seq(|items|, i requires 0 <= i < |items| reads items => Todo(items[i].text, items[i].complete))
  }

  /** Reading the item objects of two lists joined end to end gives the two
      lists of values joined end to end. */
  lemma SnapshotAppend(a: seq<TodoItem>, b: seq<TodoItem>)
    ensures Snapshot(a + b) == Snapshot(a) + Snapshot(b)
  {
  }

  class App {
    var value: string
    var todos: seq<TodoItem>
    var count: int

    /** Every item object occurs once in the list: each is created by its own
        addition, so toggling one position never shows at another. */
    ghost predicate Valid()
      reads this
    {
      forall i, j :: 0 <= i < j < |todos| ==> todos[i] != todos[j]
    }

    /** The list as values, read through the item objects. */
    function Todos(): seq<Todo>
      reads this, todos
    {
      Snapshot(todos)
    }

    /** The state at mount: an empty input, an empty list, the initial count. */
    constructor ()
      ensures Valid()
      ensures value == "" && todos == [] && count == Counter.InitialCount
    {
      value := "";
      todos := [];
      count := Counter.InitialCount;
    }

    /** The input field's change handler stores what was typed. */
    method SetValue(v: string)
      requires Valid()
      modifies this
      ensures Valid()
      ensures value == v && todos == old(todos) && count == old(count)
    {
      value := v;
    }

    /** Replaces the list with a copy that has one new, incomplete item
        object at the end; the existing item objects are carried over. */
    method AddTodo(text: string)
      requires Valid()
      modifies this
      ensures Valid()
      ensures value == old(value) && count == old(count)
      ensures |todos| == |old(todos)| + 1
      ensures todos[..|old(todos)|] == old(todos) && fresh(todos[|old(todos)|])
      ensures Todos() == Add(old(Todos()), text)
    {
      var item := new TodoItem(text);
      var newTodos := todos + [item];
      SnapshotAppend(todos, [item]);
      todos := newTodos;
    }

    /** Clears the input and appends an item with the text the input held
        before it was cleared. An empty text is appended like any other. */
    method HandleSubmit()
      requires Valid()
      modifies this
      ensures Valid()
      ensures value == ""
      ensures count == old(count)
      ensures |todos| == |old(todos)| + 1
      ensures todos[..|old(todos)|] == old(todos) && fresh(todos[|old(todos)|])
      ensures Todos() == Add(old(Todos()), old(value))
    {
      var submitted := value;
      SetValue("");
      AddTodo(submitted);
    }

    /** Copies the list (the copy holds the same item objects) and flips the
        flag of the item object at `index`. That object is shared with the
        previous list, which therefore shows the new flag as well. */
    method CompleteTodo(index: nat)
      requires Valid() && index < |todos|
      modifies this, todos[index]
      ensures Valid()
      ensures value == old(value) && count == old(count)
      ensures todos == old(todos)
      ensures old(todos)[index].complete == !old(todos[index].complete)
      ensures Todos() == Toggle(old(Todos()), index)
    {
      var newTodos := todos;
      newTodos[index].complete := !newTodos[index].complete;
      todos := newTodos;
    }

    /** Copies the list and splices one item object out of the copy at
        `index`; the item objects after it move down one place. */
    method RemoveTodo(index: nat)
      requires Valid() && index < |todos|
      modifies this
      ensures Valid()
      ensures value == old(value) && count == old(count)
      ensures |todos| == |old(todos)| - 1
      ensures forall j :: 0 <= j < |todos| ==> todos[j] == old(todos)[if j < index then j else j + 1]
      ensures Todos() == Remove(old(Todos()), index)
    {
      var newTodos := todos;
      newTodos := newTodos[..index] + newTodos[index + 1..];
      todos := newTodos;
    }

    /** Dispatches an action to the counter's reducer. */
    method Dispatch(action: Counter.Action)
      requires Valid()
      modifies this
      ensures Valid()
      ensures count == Counter.Reduce(old(count), action)
      ensures value == old(value) && todos == old(todos)
    {
      count := Counter.Reduce(count, action);
    }
  }

  /** A session with the component: submit "buy milk", toggle it, remove it,
      then click the counter. `earlierSeesToggle` reads the item through the
      list taken before the toggle, which shares the item object. */
  method Session() returns (afterSubmit: seq<Todo>, input: string, afterToggle: seq<Todo>,
                            earlierSeesToggle: bool, afterRemove: seq<Todo>,
                            afterClicks: int, afterReset: int)
    ensures afterSubmit == [Todo("buy milk", false)] && input == ""
    ensures afterToggle == [Todo("buy milk", true)] && earlierSeesToggle
    ensures afterRemove == []
    ensures afterClicks == 1 && afterReset == 0
  {
    var app := new App();
    app.SetValue("buy milk");
    app.HandleSubmit();
    afterSubmit, input := app.Todos(), app.value;
    var before := app.todos;
    app.CompleteTodo(0);
    afterToggle := app.Todos();
    earlierSeesToggle := before[0].complete;
    app.RemoveTodo(0);
    afterRemove := app.Todos();
    app.Dispatch(Counter.Increment);
    app.Dispatch(Counter.Increment);
    app.Dispatch(Counter.Decrement);
    afterClicks := app.count;
    app.Dispatch(Counter.Reset);
    afterReset := app.count;
  }
}
