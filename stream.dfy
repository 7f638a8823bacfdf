/**
 * `orderedPromiseStream` as imperative code: the closure state (`cursor`,
 * `results`) as a `Buffer` object whose `Flush` method is the `flush`
 * closure, the synchronous construction (argument checks and the `forEach`
 * subscription loop), and a driver standing for the promise runtime, which
 * delivers each resolution to `Flush` in an order of its choosing.
 */
module OrderedStream {
  import opened Hooks
  import opened Arguments
  import opened Reorder

  /**
   * The state `flush` closes over, for `n == promises.length`. `calls`
   * records the hook invocations made so far, in order; `arrived` (ghost)
   * holds every index flushed so far with its value.
   */
  class Buffer<V> {
    const n: nat
    var cursor: nat
    var results: map<nat, V>
    var calls: seq<HookCall<V>>
    ghost var arrived: map<nat, V>

    /** The cursor never passes `n`, and the release loop never leaves the cursor stored. */
    ghost predicate Valid()
      reads this
    {
      cursor <= n && (cursor < n ==> cursor !in results)
    }

    /** The invariant that holds while each index arrives at most once. */
    ghost predicate Consistent()
      reads this
    {
      Reorder.Consistent(n, arrived, State(cursor, results), calls)
    }

    /** `var cursor = 0`, `var results = {}`, no hook called yet. */
    constructor (length: nat)
      ensures n == length && State(cursor, results) == Init() && calls == [] && arrived == map[]
      ensures Valid() && Consistent()
    {
      n := length;
      cursor := 0;
      results := map[];
      calls := [];
      arrived := map[];
      InitConsistent<V>(length);
    }

    /**
     * `flush(index, value)`: store the value, release the contiguous run of
     * stored indices from the cursor, and call `endFn` if the cursor is at `n`.
     * The invariant is kept whenever the index is below `n` and new.
     */
    method Flush(index: nat, value: V)
      requires Valid()
      modifies this
      ensures Valid()
      ensures var r := FlushStep(n, old(State(cursor, results)), index, value);
              State(cursor, results) == r.0 && calls == old(calls) + r.1
      ensures arrived == old(arrived)[index := value]
      ensures old(Consistent()) && index < n && index !in old(arrived) ==> Consistent()
    {
      ghost var s0, calls0, arrived0 := State(cursor, results), calls, arrived;
      results := results[index := value];
      arrived := arrived[index := value];
      DrainReleasesRun(n, cursor, results);
      Release();
      if cursor >= n {
        calls := calls + [End];
      }
      if Reorder.Consistent(n, arrived0, s0, calls0) && index < n && index !in arrived0 {
        FlushPreservesConsistent(n, arrived0, s0, calls0, index, value);
      }
    }

    /**
     * `flush.bind(flush, index)`, the callback subscribed to promise `index`,
     * run when that promise resolves to `value`. The runtime runs it at most once
     * per promise, so the index is new, and the buffer invariant is kept.
     */
    method Resolve(index: nat, value: V)
      requires Valid() && Consistent()
      requires index < n && index !in arrived
      modifies this
      ensures Valid() && Consistent()
      ensures arrived == old(arrived)[index := value]
    {
      Flush(index, value);
    }

    /**
     * The release loop of `flush`: while the cursor is below `n` and `results`
     * holds it, pass that value to `resolutionFn`, delete it and advance.
     */
    method Release()
      modifies this`cursor, this`results, this`calls
      ensures var d := Drain(n, old(cursor), old(results));
              State(cursor, results) == d.0 && calls == old(calls) + Resolutions(d.1)
    {
      ghost var c0 := cursor;
      ghost var d := Drain(n, cursor, results);
      ghost var i: nat := 0;
      while cursor < n
        invariant cursor == c0 + i && i <= |d.1|
        invariant Drain(n, cursor, results) == (d.0, d.1[i..])
        invariant calls == old(calls) + Resolutions(d.1[..i])
        decreases n - cursor
      {
        if cursor !in results {
          break;
        }
        var result := results[cursor];
        DrainAdvance(n, cursor, results, d.0, d.1, i);
        ResolutionsAppend(old(calls), d.1[..i], result);
        calls := calls + [Resolution(result)];
        results := results - {cursor};
        cursor := cursor + 1;
        i := i + 1;
      }
      DrainStop(n, cursor, results);
      assert d.1[..i] == d.1;
    }
  }

  /**
   * What `orderedPromiseStream` returns, or what it throws: one of its own
   * errors, or the `TypeError` the runtime raises when `promise.then` is not a
   * function.
   */
  datatype Result<T> = Success(value: T) | Failure(error: Error) | ThenTypeError

  /**
   * The synchronous part of `orderedPromiseStream`: the argument checks, hook
   * selection, and the `forEach` loop that subscribes `flush` to each promise
   * in turn and throws at the first element that is not thenable, or whose
   * `then` cannot be called. Returns the selected hooks or what was thrown,
   * and the indices whose `.then` had been called by then.
   */
  method OrderedPromiseStream(isArray: bool, promises: seq<Element>, options: Options)
    returns (r: Result<Selected>, subscribed: seq<nat>)
    ensures CheckArguments(isArray, options).Some? ==>
              r == Failure(CheckArguments(isArray, options).value) && subscribed == []
    ensures CheckArguments(isArray, options).None? ==>
              |subscribed| <= |promises| &&
              (forall k :: 0 <= k < |subscribed| ==> subscribed[k] == k && Subscribable(promises[k])) &&
              (r.Success? <==> forall k :: 0 <= k < |promises| ==> Subscribable(promises[k])) &&
              (r.Success? ==> |subscribed| == |promises| && r.value == SelectHooks(options)) &&
              (r.Failure? ==> r.error == NotThenable && |subscribed| < |promises| &&
                              !Thenable(promises[|subscribed|])) &&
              (r.ThenTypeError? ==> |subscribed| < |promises| && Thenable(promises[|subscribed|]) &&
                                    !promises[|subscribed|].thenIsFunction)
  {
    var check := CheckArguments(isArray, options);
    if check.Some? {
      return Failure(check.value), [];
    }
    var hooks := SelectHooks(options);
    subscribed := [];
    var i := 0;
    while i < |promises|
      invariant 0 <= i <= |promises| && |subscribed| == i
      invariant forall k :: 0 <= k < i ==> subscribed[k] == k && Subscribable(promises[k])
    {
      if !Thenable(promises[i]) {
        return Failure(NotThenable), subscribed;
      }
      if !promises[i].thenIsFunction {
        return ThenTypeError, subscribed;
      }
      subscribed := subscribed + [i];
      i := i + 1;
    }
    r := Success(hooks);
  }

  /**
   * The promise runtime delivering the resolutions of `promises.length ==
   * |vals|` promises, promise `i` resolving to `vals[i]`, in the order `order`
   * (each index once). Whatever the order, the hooks see every value in index
   * order, then one `endFn` call; with no promises, no hook is ever called.
   * With the default hooks, and no value `null`, the stream receives the
   * values in index order and is then ended.
   */
  method Drive<V>(vals: seq<V>, order: seq<nat>) returns (calls: seq<HookCall<V>>)
    requires IsPermutation(order, |vals|)
    ensures calls == Resolutions(vals) + (if |vals| > 0 then [End] else [])
    ensures PushedByDefaults(calls) == Items(vals) + (if |vals| > 0 then [Null] else [])
  {
    var buffer := new Buffer<V>(|vals|);
    var k := 0;
    while k < |order|
      invariant 0 <= k <= |order|
      invariant buffer.n == |vals| && buffer.Valid() && buffer.Consistent()
      invariant buffer.arrived == Arrivals(vals, order, k)
    {
      var i := order[k];
      ArrivalsHold(vals, order, k);
      buffer.Resolve(i, vals[i]);
      k := k + 1;
    }
    AllDelivered(vals, order, State(buffer.cursor, buffer.results), buffer.calls);
    calls := buffer.calls;
    DefaultsPushInOrder(vals);
  }

  /**
   * Promise 0 resolves to "nested" only after promise 1 has resolved to
   * "shallow": the hooks still see "nested" first.
   */
  method NestedBeforeShallow() returns (calls: seq<HookCall<string>>)
    ensures calls == [Resolution("nested"), Resolution("shallow"), End]
  {
    calls := Drive(["nested", "shallow"], [1, 0]);
  }

  /**
   * `orderedPromiseStream([''])`: the empty string is not an object, so the
   * construction throws the thenable error before subscribing to anything.
   */
  method NonThenableRejected() returns (r: Result<Selected>, subscribed: seq<nat>)
    ensures r == Failure(NotThenable) && subscribed == []
    ensures Message(r.error) == "All array items must be thenable"
  {
    var promises := [Element(false, false, false)];
    assert !Subscribable(promises[0]);
    r, subscribed := OrderedPromiseStream(true, promises, Options(false, false, Absent, Absent));
  }

  /** `orderedPromiseStream([{then: 5}])`: the runtime throws when `then` is called. */
  method ThenNotCallableRejected() returns (r: Result<Selected>, subscribed: seq<nat>)
    ensures r == ThenTypeError && subscribed == []
  {
    var promises := [Element(true, true, false)];
    assert !Subscribable(promises[0]);
    r, subscribed := OrderedPromiseStream(true, promises, Options(false, false, Absent, Absent));
  }
}
