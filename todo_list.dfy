/** The todo list as a value: an ordered sequence of items whose position is
    their only identity. */
module TodoList {

  /** One entry of the list: its display text and its completion flag. */
  datatype Todo = Todo(text: string, complete: bool)

  /** Appends a new, not yet complete item with the given text. */
  function Add(todos: seq<Todo>, text: string): (r: seq<Todo>)
    ensures |r| == |todos| + 1
    ensures r[..|todos|] == todos
    ensures r[|todos|] == Todo(text, false)
  {
    todos + [Todo(text, false)]
  }

  /** Flips the completion flag of the item at `index`; nothing else changes. */
  function Toggle(todos: seq<Todo>, index: nat): (r: seq<Todo>)
    requires index < |todos|
    ensures |r| == |todos|
    ensures r[index].text == todos[index].text
    ensures r[index].complete == !todos[index].complete
    ensures forall j :: 0 <= j < |todos| && j != index ==> r[j] == todos[j]
  {
    todos[index := todos[index].(complete := !todos[index].complete)]
  }

  /** Takes out the item at `index`; the items after it move down one place. */
  function Remove(todos: seq<Todo>, index: nat): (r: seq<Todo>)
    requires index < |todos|
    ensures |r| == |todos| - 1
    ensures forall j :: 0 <= j < index ==> r[j] == todos[j]
    ensures forall j :: index <= j < |r| ==> r[j] == todos[j + 1]
  {
    todos[..index] + todos[index + 1..]
  }

  /** Successive submissions of `texts`, in order. */
  function AddAll(todos: seq<Todo>, texts: seq<string>): (r: seq<Todo>)
    ensures |r| == |todos| + |texts|
    decreases |texts|
  {
    if texts == [] then todos else AddAll(Add(todos, texts[0]), texts[1..])
  }

  /** Toggling the same position twice gives back the original list. */
  lemma ToggleTwice(todos: seq<Todo>, index: nat)
    requires index < |todos|
    ensures Toggle(Toggle(todos, index), index) == todos
  {
  }

  /** Toggles at two positions do not interfere with each other. */
  lemma ToggleCommutes(todos: seq<Todo>, i: nat, j: nat)
    requires i < |todos| && j < |todos|
    ensures Toggle(Toggle(todos, i), j) == Toggle(Toggle(todos, j), i)
  {
  }

  /** Removing the item just added gives back the list before the addition. */
  lemma RemoveLastAdded(todos: seq<Todo>, text: string)
    ensures Remove(Add(todos, text), |todos|) == todos
  {
  }

  /** The position of an item after the removal at `removed`, for an item
      that was at `j` before it. */
  function ShiftedIndex(removed: nat, j: nat): nat {
    if j <= removed then j else j - 1
  }

  /** Positions are not stable: after a removal at `removed`, the item that
      was at `j` (not the removed one) is found at its shifted position, and
      toggling it there is the same as having toggled it at `j` before the removal. */
  lemma ToggleAfterRemove(todos: seq<Todo>, removed: nat, j: nat)
    requires removed < |todos| && j < |todos| && j != removed
    ensures ShiftedIndex(removed, j) < |todos| - 1
    ensures Remove(todos, removed)[ShiftedIndex(removed, j)] == todos[j]
    ensures Toggle(Remove(todos, removed), ShiftedIndex(removed, j))
         == Remove(Toggle(todos, j), removed)
  {
  }

  /** Insertion order is preserved: a series of submissions appends one new,
      incomplete item per text, in the order the texts were submitted. */
  lemma {:induction false} AddAllAppends(todos: seq<Todo>, texts: seq<string>)
    ensures AddAll(todos, texts)[..|todos|] == todos
    ensures forall k :: 0 <= k < |texts| ==> AddAll(todos, texts)[|todos| + k] == Todo(texts[k], false)
    decreases |texts|
  {
    if texts != [] {
      var next := Add(todos, texts[0]);
      AddAllAppends(next, texts[1..]);
      var r := AddAll(todos, texts);
      assert r == AddAll(next, texts[1..]);
      assert r[..|todos|] == next[..|next|][..|todos|];
      forall k | 0 <= k < |texts| ensures r[|todos| + k] == Todo(texts[k], false) {
        if k > 0 {
          assert r[|next| + (k - 1)] == Todo(texts[1..][k - 1], false);
        } else {
          assert r[..|next|][|todos|] == next[|todos|];
        }
      }
    }
  }

  /** Submit "buy milk", toggle it, then remove it. */
  lemma BuyMilkScenario()
    ensures Add([], "buy milk") == [Todo("buy milk", false)]
    ensures Toggle(Add([], "buy milk"), 0) == [Todo("buy milk", true)]
    ensures Remove(Toggle(Add([], "buy milk"), 0), 0) == []
  {
  }
}
