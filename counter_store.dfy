/**
 * The counter store: one long-lived record (`value`, `isLoading`, `error`) that six
 * actions update in place. Each action hands the store's `set` a partial record, which
 * is merged shallowly into the current state. `CounterState`, `Step` and `Run` give the
 * same behaviour as values, so that properties of action sequences can be stated.
 */
module CounterStore {
  import opened Options
  import CounterEntity

  /** A snapshot of the store's data fields. */
  datatype CounterState = CounterState(value: int, isLoading: bool, error: Option<string>)

  /** `initialState`. */
  const Initial: CounterState := CounterState(0, false, None)

  /** The argument of `set`: the fields to overwrite, each possibly absent. */
  datatype Patch = Patch(value: Option<int>, isLoading: Option<bool>, error: Option<Option<string>>)

  /** `set(patch)`: every field present in the patch replaces the current one, the others stay. */
  function Merge(s: CounterState, p: Patch): (t: CounterState)
    ensures p.value.None? ==> t.value == s.value
    ensures p.value.Some? ==> t.value == p.value.value
    ensures p.isLoading.None? ==> t.isLoading == s.isLoading
    ensures p.isLoading.Some? ==> t.isLoading == p.isLoading.value
    ensures p.error.None? ==> t.error == s.error
    ensures p.error.Some? ==> t.error == p.error.value
  {
    CounterState(p.value.GetOr(s.value), p.isLoading.GetOr(s.isLoading), p.error.GetOr(s.error))
  }

  /** The six actions. */
  datatype Action =
    | Inc
    | Dec
    | Reset
    | SetValue(v: int)
    | SetLoading(loading: bool)
    | SetError(message: Option<string>)

  /** The partial record each action passes to `set`, computed from the current state. */
  function PatchOf(s: CounterState, a: Action): Patch
  {
    match a
    case Inc => Patch(Some(s.value + 1), None, None)
    case Dec => Patch(Some(s.value - 1), None, None)
    case Reset => Patch(Some(Initial.value), Some(Initial.isLoading), Some(Initial.error))
    case SetValue(v) => Patch(Some(v), None, None)
    case SetLoading(b) => Patch(None, Some(b), None)
    case SetError(m) => Patch(None, None, Some(m))
  }

  /**
   * Which fields each action's patch names: the value for inc, dec, reset and setValue;
   * the loading flag for reset and setLoading; the error for reset and setError.
   */
  lemma PatchFields(s: CounterState, a: Action)
    ensures PatchOf(s, a).value.Some? <==> a.Inc? || a.Dec? || a.Reset? || a.SetValue?
    ensures PatchOf(s, a).isLoading.Some? <==> a.Reset? || a.SetLoading?
    ensures PatchOf(s, a).error.Some? <==> a.Reset? || a.SetError?
    ensures a.Reset? ==> PatchOf(s, a) == Patch(Some(0), Some(false), Some(None))
  {
  }

  /** The state after one action. */
  function Step(s: CounterState, a: Action): (t: CounterState)
    ensures a.Inc? ==> t == s.(value := s.value + 1)
    ensures a.Dec? ==> t == s.(value := s.value - 1)
    ensures a.Reset? ==> t == Initial
    ensures a.SetValue? ==> t == s.(value := a.v)
    ensures a.SetLoading? ==> t == s.(isLoading := a.loading)
    ensures a.SetError? ==> t == s.(error := a.message)
  {
    Merge(s, PatchOf(s, a))
  }

  /** The state after a sequence of actions, applied first to last. */
  function Run(s: CounterState, actions: seq<Action>): CounterState
    decreases |actions|
  {
    if actions == [] then s else Run(Step(s, actions[0]), actions[1..])
  }

  /** Running `xs` and then `ys` is running `xs + ys`. */
  lemma {:induction false} RunAppend(s: CounterState, xs: seq<Action>, ys: seq<Action>)
    ensures Run(s, xs + ys) == Run(Run(s, xs), ys)
    decreases |xs|
  {
    if xs != [] {
      assert (xs + ys)[1..] == xs[1..] + ys;
      RunAppend(Step(s, xs[0]), xs[1..], ys);
    } else {
      assert xs + ys == ys;
    }
  }

  /** Occurrences of `a` in `actions`. */
  function Count(actions: seq<Action>, a: Action): nat
    decreases |actions|
  {
    if actions == [] then 0 else (if actions[0] == a then 1 else 0) + Count(actions[1..], a)
  }

  /**
   * A sequence of increments and decrements moves the value by the number of
   * increments minus the number of decrements and leaves the other fields alone.
   */
  lemma {:induction false} IncDecNet(s: CounterState, actions: seq<Action>)
    requires forall i :: 0 <= i < |actions| ==> actions[i] == Inc || actions[i] == Dec
    ensures Run(s, actions).value == s.value + Count(actions, Inc) - Count(actions, Dec)
    ensures Run(s, actions).isLoading == s.isLoading && Run(s, actions).error == s.error
    decreases |actions|
  {
    if actions != [] {
      IncDecNet(Step(s, actions[0]), actions[1..]);
    }
  }

  /** From the initial state, increments and decrements leave the value at #inc - #dec. */
  lemma IncDecFromInitial(actions: seq<Action>)
    requires forall i :: 0 <= i < |actions| ==> actions[i] == Inc || actions[i] == Dec
    ensures Run(Initial, actions) == Initial.(value := Count(actions, Inc) - Count(actions, Dec))
  {
    IncDecNet(Initial, actions);
  }

  /** Whatever happened before, a final reset restores the initial state. */
  lemma ResetRestores(s: CounterState, actions: seq<Action>)
    ensures Run(s, actions + [Reset]) == Initial
  {
    RunAppend(s, actions, [Reset]);
  }

  /** Only increment, decrement, reset and setValue change the value. */
  lemma ValueChangesOnlyByValueActions(s: CounterState, a: Action)
    requires Step(s, a).value != s.value
    ensures a.Inc? || a.Dec? || a.Reset? || a.SetValue?
  {
  }

  /** The store's value arithmetic is that of the counter entity. */
  lemma AgreesWithEntity(s: CounterState, v: int)
    ensures CounterEntity.Counter(Step(s, Inc).value) == CounterEntity.IncrementCounter(CounterEntity.Counter(s.value))
    ensures CounterEntity.Counter(Step(s, Dec).value) == CounterEntity.DecrementCounter(CounterEntity.Counter(s.value))
    ensures CounterEntity.Counter(Step(s, Reset).value) == CounterEntity.ResetCounter()
    ensures CounterEntity.Counter(Step(s, SetValue(v)).value) == CounterEntity.SetCounterValue(v)
  {
  }

  /** `useCounterStore`: the live store. */
  class Store {
    var value: int
    var isLoading: bool
    var error: Option<string>

    /** The current snapshot (`getState()` without the action members). */
    function State(): CounterState
      reads this
    {
      CounterState(value, isLoading, error)
    }

    /** The store starts from `initialState`. */
    constructor ()
      ensures State() == Initial
    {
      value, isLoading, error := Initial.value, Initial.isLoading, Initial.error;
    }

    /** zustand's `set` with a partial record: a shallow merge into the fields. */
    method Set(p: Patch)
      modifies this
      ensures State() == Merge(old(State()), p)
    {
      value := p.value.GetOr(value);
      isLoading := p.isLoading.GetOr(isLoading);
      error := p.error.GetOr(error);
    }

    /** `inc()`. */
    method Inc()
      modifies this
      ensures value == old(value) + 1 && isLoading == old(isLoading) && error == old(error)
      ensures State() == Step(old(State()), Action.Inc)
    {
      Set(PatchOf(State(), Action.Inc));
    }

    /** `dec()`. */
    method Dec()
      modifies this
      ensures value == old(value) - 1 && isLoading == old(isLoading) && error == old(error)
      ensures State() == Step(old(State()), Action.Dec)
    {
      Set(PatchOf(State(), Action.Dec));
    }

    /** `reset()`. */
    method Reset()
      modifies this
      ensures value == 0 && !isLoading && error.None?
      ensures State() == Step(old(State()), Action.Reset)
    {
      Set(PatchOf(State(), Action.Reset));
    }

    /** `setValue(v)`. */
    method SetValue(v: int)
      modifies this
      ensures value == v && isLoading == old(isLoading) && error == old(error)
      ensures State() == Step(old(State()), Action.SetValue(v))
    {
      Set(PatchOf(State(), Action.SetValue(v)));
    }

    /** `setLoading(b)`. */
    method SetLoading(b: bool)
      modifies this
      ensures isLoading == b && value == old(value) && error == old(error)
      ensures State() == Step(old(State()), Action.SetLoading(b))
    {
      Set(PatchOf(State(), Action.SetLoading(b)));
    }

    /** `setError(message)`, where None is `null`. */
    method SetError(message: Option<string>)
      modifies this
      ensures error == message && value == old(value) && isLoading == old(isLoading)
      ensures State() == Step(old(State()), Action.SetError(message))
    {
      Set(PatchOf(State(), Action.SetError(message)));
    }
  }
}
