# To-do list and click counter: a Dafny model

The repository is a single React component (`src/App.tsx`) with two pieces
of state logic:

- a **counter reducer** over an integer `count`, with the actions
  `increment`, `decrement` and `reset`, and a default arm that hands the
  state back unchanged;
- a **todo list**: an ordered sequence of `{text, complete}` items, where an
  item's position is its only identity. Items are appended on form
  submission, toggled in place and spliced out by position.

The model has three modules:

- `Counter` (`counter.dfy`): the pure reducer `Reduce` on a closed `Action`
  datatype, and `ReduceTag`, the same switch written over the action's
  string tag so that the default arm is modelled too. `Run` folds the reducer
  over a series of dispatched actions, which is how the component's count
  evolves. The lemmas cover what series of clicks do.
- `TodoList` (`todo_list.dfy`): the list as a value (`seq<Todo>`) and the
  three operations `Add`, `Toggle` and `Remove` as functions, with lemmas
  relating them.
- `Component` (`component.dfy`): the component's state as a class `App` with
  the fields `value`, `todos` and `count`. Each todo is an object of class
  `TodoItem`, so the list holds references. `CompleteTodo` copies the list
  shallowly and flips a flag on a shared item object, as the source does.
  That is why its contract says the previous list shows the new flag as well.
  Each method's contract ties the new list, read through `Todos()`, to the
  matching `TodoList` function applied to the old one. `Valid()` states that
  no item object appears twice in the list. Every addition creates a fresh
  object, so this always holds, and it is what keeps a toggle at one position
  from showing at another.

The todo values are read through the item objects by `Snapshot`, the
abstraction function behind `App.Todos()`.

Three details of the code shape the model:

- The code does not check that the text is non-empty. Only the input's
  `required` attribute (src/App.tsx:70) does, so `HandleSubmit` appends an
  empty text like any other.
- Positions outside the list get no policy. The model keeps
  `index < |todos|` as a precondition: positions come from `todos.map`
  (src/App.tsx:80-90), so every caller in the source meets it.
- `handleSubmit` clears the input before calling `addTodo(value)`. The
  closure still sees the value from before the clear, so the model captures
  that value in a local first.

## Model

| member | source | states |
|---|---|---|
| Counter.Reduce | src/App.tsx:22-33 | increment gives count + 1, decrement gives count - 1 with no lower bound, reset gives the initial count 0 whatever the input |
| Counter.ParseTag | src/App.tsx:17-31 | a tag is recognised exactly when it is the tag of one of the three actions, and then as that action |
| Counter.ReduceTag | src/App.tsx:22-33 | the switch on the tag: "increment" adds one, "decrement" subtracts one, "reset" gives 0, and any other tag leaves the count unchanged (default arm) |
| Counter.ParseTagOfTag | src/App.tsx:17-20 | every action's tag round-trips to that action |
| Counter.ReduceTagAgrees | src/App.tsx:22-33 | switching on an action's tag does exactly what the reducer on the action does |
| Counter.Tag | src/App.tsx:17-20 | the `type` string an action carries is one of the three literals of the `Actions` type, as dispatched at src/App.tsx:100, 106 and 110 |
| Counter.Run | src/App.tsx:22-38 | the count after successive dispatches through the reducer, in order; its contract adds only a bound (each dispatch moves the count at most one beyond the range between the start count and 0), and what the source promises about a series of dispatches is stated by the lemmas below |
| Counter.RunAppend | src/App.tsx:38 | dispatching two series of actions one after the other is dispatching their concatenation |
| Counter.RunWithoutReset | src/App.tsx:24-27 | with no reset, the count moves by the number of increments minus the number of decrements |
| Counter.ResetForgets | src/App.tsx:28-29 | after a reset, the count depends only on the actions dispatched after it |
| Counter.NetRepeat | src/App.tsx:24-27 | n copies of one action sum to n times its step: +n for increments, -n for decrements |
| Counter.RunDecrements | src/App.tsx:26-27 | n decrements lower any count by exactly n, below zero included |
| Counter.RunIncrements | src/App.tsx:24-25 | n increments raise any count by exactly n |
| Counter.RunResets | src/App.tsx:13-29 | any positive number of resets gives the initial count: reset is idempotent |
| Counter.TwoDecrementsFromZero | src/App.tsx:26-27 | two decrements from 0 give -2 |
| Counter.ClickScenario | src/App.tsx:98-112 | increment, increment, decrement from 0 give 1, and a reset then gives 0 |
| TodoList.Add | src/App.tsx:46-48 | the list grows by one, keeps every old item in order, and ends with the text as an incomplete item |
| TodoList.Toggle | src/App.tsx:51-54 | same length, the flag at the index flipped with its text kept, every other item unchanged |
| TodoList.Remove | src/App.tsx:57-60 | one shorter, items before the index unchanged, item j from the index on equals old item j+1 |
| TodoList.ToggleTwice | src/App.tsx:51-54 | toggling the same position twice restores the list |
| TodoList.ToggleCommutes | src/App.tsx:51-54 | toggles at two positions can be done in either order |
| TodoList.RemoveLastAdded | src/App.tsx:46-60 | removing the item just added restores the list |
| TodoList.ToggleAfterRemove | src/App.tsx:51-60 | after a removal an item's position shifts down past the removed one, and toggling it at the shifted position equals toggling it first and then removing |
| TodoList.AddAll | src/App.tsx:40-48 | a series of submissions grows the list by one item per submitted text |
| TodoList.AddAllAppends | src/App.tsx:40-48 | successive submissions append one incomplete item per text, in submission order, after the untouched old list |
| TodoList.BuyMilkScenario | src/App.tsx:40-60 | submitting "buy milk" gives one incomplete item, toggling it completes it, removing it empties the list |
| Component.TodoItem.constructor | src/App.tsx:47 | a new item carries the given text and is not complete |
| Component.SnapshotAppend | src/App.tsx:47 | a list of item objects joined end to end reads as the joined lists of values, which is how the spread keeps the old items |
| Component.App.constructor | src/App.tsx:36-38 | at mount the input is empty, the list is empty and the count is 0 |
| Component.App.SetValue | src/App.tsx:72 | the input takes the typed text; list and count unchanged |
| Component.App.AddTodo | src/App.tsx:46-48 | the list value becomes Add of the old one; old item objects are kept in order and the new one is fresh |
| Component.App.HandleSubmit | src/App.tsx:40-44 | the input is cleared and the text it held before the clear is appended, empty text included |
| Component.App.CompleteTodo | src/App.tsx:51-54 | the list value becomes Toggle of the old one; the copy holds the same item objects, so the previous list shows the flipped flag too |
| Component.App.RemoveTodo | src/App.tsx:57-60 | the list value becomes Remove of the old one; the remaining item objects are the old ones, shifted past the index |
| Component.App.Dispatch | src/App.tsx:38 | the count becomes the reducer's result on the old count; input and list unchanged |
| Component.Session | src/App.tsx:40-112 | submitting "buy milk" gives one incomplete item and an empty input; toggling completes it, and the list taken before the toggle shows it too; removing empties the list; increment, increment, decrement give 1 and reset gives 0 |

## Left out

- Rendering: the markup, the Material-UI widgets, the strike-through style and the `key={index}` projection (src/App.tsx:63-115) are presentational.
- React's hook machinery: the scheduling and batching of `useState`/`useReducer` updates. State is modelled as fields that each setter overwrites at once.
- `event.preventDefault()` and the input's `required` attribute: browser behaviour. With it left out, an empty submission reaches `HandleSubmit` and is appended.
- `count` is an unbounded integer; the precision of JavaScript numbers beyond 2^53 is not modelled.
- Out-of-range and negative positions for toggle and remove are excluded by precondition, as no caller in the source produces them. For toggle, a position past the end throws (a property access on `undefined`). For remove, a position at or past the end is a no-op: `splice` removes nothing and an equal copy is set. A negative position makes `splice` count from the end.
- `reset` returns the shared `initialState` object and the default arm returns the incoming `state` object; only `increment` and `decrement` build new ones. Only the number is modelled, so object identity is not.
- Determinism of the reducer needs no lemma: `Reduce` and `ReduceTag` are functions.
