/** The click counter of the component: a reducer that maps the current count
    and a dispatched action to the next count. */
module Counter {

  /** The three actions the counter's buttons dispatch. */
  datatype Action = Increment | Decrement | Reset

  datatype Option<T> = None | Some(value: T)

  /** The count the component is mounted with and the one `Reset` returns to. */
  const InitialCount: int := 0

  /** One step of the reducer on the closed set of actions. The count has no
      bound in either direction. */
  function Reduce(count: int, action: Action): (r: int)
    ensures action == Increment ==> r == count + 1
    ensures action == Decrement ==> r == count - 1
    ensures action == Reset ==> r == InitialCount
  {
    match action
    case Increment => count + 1
    case Decrement => count - 1
    case Reset => InitialCount
  }

  /** The string an action object carries in its `type` field. */
  function Tag(action: Action): (r: string)
    ensures r == "increment" || r == "decrement" || r == "reset"
  {
    match action
    case Increment => "increment"
    case Decrement => "decrement"
    case Reset => "reset"
  }

  /** Recognises the three tags the reducer's switch has arms for. */
  function ParseTag(tag: string): (r: Option<Action>)
    ensures r.Some? ==> Tag(r.value) == tag
    ensures r.None? <==> (forall a: Action :: Tag(a) != tag)
  {
    if tag == "increment" then Some(Increment)
    else if tag == "decrement" then Some(Decrement)
    else if tag == "reset" then Some(Reset)
    else None
  }

  /** The reducer as a switch on the string tag: a tag without an arm falls
      through to the default, which hands the state back unchanged. */
  function ReduceTag(count: int, tag: string): (r: int)
    ensures tag == "increment" ==> r == count + 1
    ensures tag == "decrement" ==> r == count - 1
    ensures tag == "reset" ==> r == InitialCount
    ensures tag != "increment" && tag != "decrement" && tag != "reset" ==> r == count
  {
    match ParseTag(tag)
    case Some(a) => Reduce(count, a)
    case None => count
  }

  /** Every action's tag is recognised as that very action. */
  lemma ParseTagOfTag(action: Action)
    ensures ParseTag(Tag(action)) == Some(action)
  {
  }

  /** Switching on the tag of an action does exactly what the closed reducer does. */
  lemma ReduceTagAgrees(count: int, action: Action)
    ensures ReduceTag(count, Tag(action)) == Reduce(count, action)
  {
  }

  /** The count after the component dispatches `actions` in order, starting
      from `count`. Each click moves the count by at most one away from the
      range between `count` and the initial count. */
  function Run(count: int, actions: seq<Action>): (r: int)
    ensures (if count < InitialCount then count else InitialCount) - |actions| <= r
    ensures r <= (if count > InitialCount then count else InitialCount) + |actions|
    decreases |actions|
  {
    if actions == [] then count else Run(Reduce(count, actions[0]), actions[1..])
  }

  /** `n` copies of one action. */
  function Repeat(action: Action, n: nat): seq<Action> {
    seq(n, _ => action)
  }

  /** The change one action makes to the count when it is not a reset. */
  function Step(action: Action): int {
    match action
    case Increment => 1
    case Decrement => -1
    case Reset => 0
  }

  /** The sum of the steps of a run of actions. */
  function Net(actions: seq<Action>): int
    decreases |actions|
  {
    if actions == [] then 0 else Step(actions[0]) + Net(actions[1..])
  }

  /** Dispatching two runs one after the other is dispatching their concatenation. */
  lemma {:induction false} RunAppend(count: int, xs: seq<Action>, ys: seq<Action>)
    ensures Run(count, xs + ys) == Run(Run(count, xs), ys)
    decreases |xs|
  {
    if xs != [] {
      assert (xs + ys)[1..] == xs[1..] + ys;
      RunAppend(Reduce(count, xs[0]), xs[1..], ys);
    } else {
      assert xs + ys == ys;
    }
  }

  /** Without a reset, the count moves by exactly the number of increments
      minus the number of decrements. */
  lemma {:induction false} RunWithoutReset(count: int, actions: seq<Action>)
    requires forall i :: 0 <= i < |actions| ==> actions[i] != Reset
    ensures Run(count, actions) == count + Net(actions)
    decreases |actions|
  {
    if actions != [] {
      RunWithoutReset(Reduce(count, actions[0]), actions[1..]);
    }
  }

  /** A reset forgets everything dispatched before it. */
  lemma ResetForgets(count: int, before: seq<Action>, after: seq<Action>)
    ensures Run(count, before + [Reset] + after) == Run(InitialCount, after)
  {
    RunAppend(count, before + [Reset], after);
    RunAppend(count, before, [Reset]);
  }

  /** The steps of `n` copies of one action add up to `n` times its step. */
  lemma {:induction false} NetRepeat(action: Action, n: nat)
    ensures Net(Repeat(action, n)) == n * Step(action)
    decreases n
  {
    if n > 0 {
      assert Repeat(action, n)[1..] == Repeat(action, n - 1);
      NetRepeat(action, n - 1);
    }
  }

  /** `n` decrements lower the count by `n`: there is no floor at zero. */
  lemma RunDecrements(count: int, n: nat)
    ensures Run(count, Repeat(Decrement, n)) == count - n
  {
    RunWithoutReset(count, Repeat(Decrement, n));
    NetRepeat(Decrement, n);
  }

  /** `n` increments raise the count by `n`. */
  lemma RunIncrements(count: int, n: nat)
    ensures Run(count, Repeat(Increment, n)) == count + n
  {
    RunWithoutReset(count, Repeat(Increment, n));
    NetRepeat(Increment, n);
  }

  /** Reset is idempotent: any positive number of resets lands on the initial count. */
  lemma RunResets(count: int, n: nat)
    requires n >= 1
    ensures Run(count, Repeat(Reset, n)) == InitialCount
  {
    assert Repeat(Reset, n) == Repeat(Reset, n - 1) + [Reset] + [];
    ResetForgets(count, Repeat(Reset, n - 1), []);
  }

  /** Two decrements from the initial count give -2. */
  lemma TwoDecrementsFromZero()
    ensures Run(InitialCount, [Decrement, Decrement]) == -2
  {
  }

  /** Increment, increment, decrement from the initial count give 1; a reset then gives 0. */
  lemma ClickScenario()
    ensures Run(InitialCount, [Increment, Increment, Decrement]) == 1
    ensures Run(InitialCount, [Increment, Increment, Decrement, Reset]) == 0
  {
  }
}
