/**
 * The expectations of the store's unit tests, each run against a fresh store (the
 * tests reset the shared store before every case, which yields the same state).
 */
module CounterStoreScenarios {
  import opened Options
  import CounterStore

  /** "should initialize with default state". */
  method InitializesWithDefaults() returns (value: int, isLoading: bool, error: Option<string>)
    ensures value == 0 && !isLoading && error == None
  {
    var store := new CounterStore.Store();
    value, isLoading, error := store.value, store.isLoading, store.error;
  }

  /** "should increment value": 1 after one increment, 2 after two. */
  method IncrementsValue() returns (first: int, second: int)
    ensures first == 1 && second == 2
  {
    var store := new CounterStore.Store();
    store.Inc();
    first := store.value;
    store.Inc();
    second := store.value;
  }

  /** "should decrement value": 5 then one decrement gives 4. */
  method DecrementsValue() returns (value: int)
    ensures value == 4
  {
    var store := new CounterStore.Store();
    store.SetValue(5);
    store.Dec();
    value := store.value;
  }

  /** "should allow negative values": one decrement from the start gives -1. */
  method AllowsNegativeValues() returns (value: int)
    ensures value == -1
  {
    var store := new CounterStore.Store();
    store.Dec();
    value := store.value;
  }

  /** "should reset to initial state", after setting value, error and loading flag. */
  method ResetsToInitialState() returns (value: int, isLoading: bool, error: Option<string>)
    ensures value == 0 && !isLoading && error == None
  {
    var store := new CounterStore.Store();
    store.SetValue(10);
    store.SetError(Some("test error"));
    store.SetLoading(true);
    store.Reset();
    value, isLoading, error := store.value, store.isLoading, store.error;
  }

  /** "should set value directly". */
  method SetsValueDirectly() returns (value: int)
    ensures value == 42
  {
    var store := new CounterStore.Store();
    store.SetValue(42);
    value := store.value;
  }

  /** "should set loading state": on, then off again. */
  method SetsLoadingState() returns (first: bool, second: bool)
    ensures first && !second
  {
    var store := new CounterStore.Store();
    store.SetLoading(true);
    first := store.isLoading;
    store.SetLoading(false);
    second := store.isLoading;
  }

  /** "should set error state": a message, then back to null. */
  method SetsErrorState() returns (first: Option<string>, second: Option<string>)
    ensures first == Some("Something went wrong") && second == None
  {
    var store := new CounterStore.Store();
    store.SetError(Some("Something went wrong"));
    first := store.error;
    store.SetError(None);
    second := store.error;
  }

  /** Setting an error after setting the value leaves the value alone. */
  method ErrorKeepsValue() returns (value: int)
    ensures value == 5
  {
    var store := new CounterStore.Store();
    store.SetValue(5);
    store.SetError(Some("e"));
    value := store.value;
  }
}
