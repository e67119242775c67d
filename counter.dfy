/** The counter entity of the domain layer: pure functions from counters to new counters. */
module CounterEntity {
  import opened Options

  datatype Counter = Counter(value: int)

  /** `createCounter(initialValue = 0)`. */
  function CreateCounter(initialValue: Option<int>): (c: Counter)
    ensures initialValue.Some? ==> c.value == initialValue.value
    ensures initialValue.None? ==> c.value == 0
  {
    Counter(initialValue.GetOr(0))
  }

  /** `incrementCounter(counter)`. */
  function IncrementCounter(c: Counter): (r: Counter)
    ensures r.value > c.value
  {
    Counter(c.value + 1)
  }

  /** `decrementCounter(counter)`: negative values are allowed. */
  function DecrementCounter(c: Counter): (r: Counter)
    ensures r.value < c.value
  {
    Counter(c.value - 1)
  }

  /** `resetCounter()`. */
  function ResetCounter(): (r: Counter)
    ensures r == CreateCounter(None)
  {
    Counter(0)
  }

  /** `setCounterValue(value)`. */
  function SetCounterValue(value: int): (r: Counter)
    ensures r == CreateCounter(Some(value))
  {
    Counter(value)
  }

  /** Increment and decrement move the value by exactly one. */
  lemma StepByOne(c: Counter)
    ensures IncrementCounter(c).value == c.value + 1
    ensures DecrementCounter(c).value == c.value - 1
  {
  }

  /** Increment and decrement undo each other, in either order. */
  lemma IncrementDecrementInverse(c: Counter)
    ensures DecrementCounter(IncrementCounter(c)) == c
    ensures IncrementCounter(DecrementCounter(c)) == c
  {
  }
}
