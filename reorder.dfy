/**
 * The reorder buffer of the ordered promise stream, as values.
 *
 * The state `flush` works on is the `cursor` (the next index to release) and
 * the `results` object (values that arrived ahead of the cursor). A call
 * `flush(index, value)` stores the value, releases the contiguous run of
 * stored indices starting at the cursor, and calls `endFn` when the cursor
 * has reached `promises.length`. `FlushStep` says what one call does; the
 * lemmas say what any sequence of calls does when each index arrives once.
 */
module Reorder {
  import opened Hooks

  datatype State<V> = State(cursor: nat, results: map<nat, V>)

  /** The state `orderedPromiseStream` starts from: `cursor = 0`, `results = {}`. */
  function Init<V>(): State<V>
  {
    State(0, map[])
  }

  /** `m` without the keys `lo`, …, `hi - 1`. */
  function Without<V>(m: map<nat, V>, lo: nat, hi: nat): map<nat, V>
  {
    map k | k in m && (k < lo || hi <= k) :: m[k]
  }

  /** Keys of `m - {c}` in `lo`, …, `hi - 1` are keys of `m`. */
  lemma KeysOfRemoved<V>(m: map<nat, V>, c: nat, lo: nat, hi: nat)
    requires forall j :: lo <= j < hi ==> j in m - {c}
    ensures forall j :: lo <= j < hi ==> j in m
  {
    forall j | lo <= j < hi ensures j in m {
      assert j in m - {c};
    }
  }

  /** Keys of `m' == m[i := v]` in `lo`, …, `hi - 1` other than `i` are keys of `m`. */
  lemma KeysOfUpdated<V>(m: map<nat, V>, m': map<nat, V>, i: nat, v: V, lo: nat, hi: nat)
    requires m' == m[i := v]
    requires forall j :: lo <= j < hi ==> j in m'
    ensures forall j :: lo <= j < hi && j != i ==> j in m
  {
    forall j | lo <= j < hi && j != i ensures j in m {
      assert j in m';
    }
  }

  /**
   * The release loop: while the cursor is below `n` and `results` holds the
   * cursor, release that value, delete it and advance. Returns the state the
   * loop stops in and the released values, in release order.
   */
  function Drain<V>(n: nat, cursor: nat, results: map<nat, V>): (State<V>, seq<V>)
    decreases n - cursor
  {
    if cursor < n && cursor in results then
      var rest := Drain(n, cursor + 1, results - {cursor});
      (rest.0, [results[cursor]] + rest.1)
    else
      (State(cursor, results), [])
  }

  /**
   * The release loop never moves the cursor back and moves it only up to `n`,
   * over indices held in `results`; it releases exactly their values, in index
   * order, removes exactly their keys, and stops at `n` or at a missing index.
   */
  lemma {:induction false} DrainReleasesRun<V>(n: nat, cursor: nat, results: map<nat, V>)
    ensures cursor <= Drain(n, cursor, results).0.cursor
    ensures cursor < Drain(n, cursor, results).0.cursor ==> Drain(n, cursor, results).0.cursor <= n
    ensures Drain(n, cursor, results).0.cursor >= n ||
            Drain(n, cursor, results).0.cursor !in Drain(n, cursor, results).0.results
    ensures |Drain(n, cursor, results).1| == Drain(n, cursor, results).0.cursor - cursor
    ensures forall j :: cursor <= j < Drain(n, cursor, results).0.cursor ==> j in results
    ensures forall k :: 0 <= k < |Drain(n, cursor, results).1| ==>
              Drain(n, cursor, results).1[k] == results[cursor + k]
    ensures Drain(n, cursor, results).0.results == Without(results, cursor, Drain(n, cursor, results).0.cursor)
    decreases n - cursor
  {
    if cursor < n && cursor in results {
      DrainReleasesRun(n, cursor + 1, results - {cursor});
      var rest := Drain(n, cursor + 1, results - {cursor});
      var out := Drain(n, cursor, results).1;
      assert out == [results[cursor]] + rest.1;
      assert forall k :: 1 <= k < |out| ==> out[k] == rest.1[k - 1];
      KeysOfRemoved(results, cursor, cursor + 1, rest.0.cursor);
      assert rest.0.results == Without(results, cursor, rest.0.cursor);
    }
  }

  /**
   * One round of the release loop: a loop that would still release the part
   * of `all` from offset `i` releases the value at the cursor first and then
   * the part from offset `i + 1`, starting at the next index.
   */
  lemma DrainAdvance<V>(n: nat, cursor: nat, results: map<nat, V>, fin: State<V>, all: seq<V>, i: nat)
    requires cursor < n && cursor in results && i <= |all|
    requires Drain(n, cursor, results) == (fin, all[i..])
    ensures i < |all| && all[i] == results[cursor]
    ensures Drain(n, cursor + 1, results - {cursor}) == (fin, all[i + 1..])
    ensures all[..i + 1] == all[..i] + [results[cursor]]
  {
    var rest := Drain(n, cursor + 1, results - {cursor});
    assert all[i..] == [results[cursor]] + rest.1;
    assert all[i..][1..] == all[i + 1..];
  }

  /** The release loop stops at `n` or at the first index missing from `results`. */
  lemma DrainStop<V>(n: nat, cursor: nat, results: map<nat, V>)
    requires cursor >= n || cursor !in results
    ensures Drain(n, cursor, results) == (State(cursor, results), [])
  {
  }

  /**
   * One call `flush(index, value)` on a buffer over `n` promises: the new state
   * and the hook calls it makes, in order.
   */
  function FlushStep<V>(n: nat, s: State<V>, index: nat, value: V): (r: (State<V>, seq<HookCall<V>>))
    ensures s.cursor <= r.0.cursor
    ensures s.cursor <= n ==> r.0.cursor <= n
    ensures r.0.cursor < n ==> r.0.cursor !in r.0.results
    ensures r.0.results == Without(s.results[index := value], s.cursor, r.0.cursor)
    ensures |r.1| == r.0.cursor - s.cursor + (if r.0.cursor >= n then 1 else 0)
    ensures forall j :: s.cursor <= j < r.0.cursor && j != index ==> j in s.results
    ensures forall k :: 0 <= k < r.0.cursor - s.cursor ==> r.1[k] == Resolution(s.results[index := value][s.cursor + k])
    ensures End in r.1 <==> r.0.cursor >= n
    ensures End in r.1 ==> r.1[|r.1| - 1] == End
  {
    var stored := s.results[index := value];
    var d := Drain(n, s.cursor, stored);
    DrainReleasesRun(n, s.cursor, stored);
    var calls := Resolutions(d.1) + (if d.0.cursor >= n then [End] else []);
    assert End !in Resolutions(d.1);
    KeysOfUpdated(s.results, stored, index, value, s.cursor, d.0.cursor);
    assert forall k :: 0 <= k < |d.1| ==> calls[k] == Resolutions(d.1)[k] == Resolution(d.1[k]);
    (d.0, calls)
  }

  /** The hook calls for the values of indices `0`, …, `c - 1`, in index order. */
  function Released<V>(arrived: map<nat, V>, c: nat): seq<HookCall<V>>
    requires forall k: nat :: k < c ==> k in arrived
  {
    seq(c, k requires 0 <= k < c => Resolution(arrived[k]))
  }

  /**
   * The state half of the invariant of a buffer over `n` promises, where
   * `arrived` holds every index flushed so far with its value: only indices
   * below `n` arrive; every index below the cursor has arrived; `results`
   * holds exactly the arrived indices at or past the cursor, with their values,
   * but never the cursor itself.
   */
  ghost predicate Stored<V>(n: nat, arrived: map<nat, V>, s: State<V>)
  {
    && (forall i: nat :: i in arrived ==> i < n)
    && s.cursor <= n
    && (forall i: nat :: i < s.cursor ==> i in arrived)
    && (forall i: nat :: i in s.results <==> i in arrived && s.cursor <= i)
    && (forall i: nat :: i in s.results ==> s.results[i] == arrived[i])
    && (s.cursor < n ==> s.cursor !in s.results)
  }

  /**
   * The invariant of a buffer: its state matches what has arrived, and the
   * hooks have seen the values below the cursor in index order, followed by one
   * `endFn` call once the cursor has reached a non-zero `n`.
   */
  ghost predicate Consistent<V>(n: nat, arrived: map<nat, V>, s: State<V>, calls: seq<HookCall<V>>)
  {
    && Stored(n, arrived, s)
    && calls == Released(arrived, s.cursor) + (if s.cursor == n && n > 0 then [End] else [])
  }

  lemma InitConsistent<V>(n: nat)
    ensures Consistent<V>(n, map[], Init(), [])
  {
  }

  /**
   * Appending the hook calls for the values of indices `c`, …, `c' - 1` to the
   * calls for the indices below `c` gives the calls for the indices below `c'`.
   */
  lemma ReleasedExtend<V>(arrived: map<nat, V>, after: map<nat, V>, c: nat, c': nat, out: seq<HookCall<V>>)
    requires c <= c'
    requires forall k: nat :: k < c ==> k in arrived && k in after && arrived[k] == after[k]
    requires forall k: nat :: k < c' ==> k in after
    requires |out| == c' - c
    requires forall k :: 0 <= k < |out| ==> out[k] == Resolution(after[c + k])
    ensures Released(arrived, c) + out == Released(after, c')
  {
    var joined := Released(arrived, c) + out;
    forall k | 0 <= k < c' ensures joined[k] == Resolution(after[k]) {
      if c <= k {
        assert joined[k] == out[k - c];
      }
    }
  }

  /** The state half of `FlushPreservesConsistent`. */
  lemma FlushPreservesStored<V>(n: nat, arrived: map<nat, V>, s: State<V>, index: nat, value: V)
    requires Stored(n, arrived, s)
    requires index < n && index !in arrived
    ensures Stored(n, arrived[index := value], FlushStep(n, s, index, value).0)
  {
    var after := arrived[index := value];
    var stored := s.results[index := value];
    var t := FlushStep(n, s, index, value).0;
    var c, c' := s.cursor, t.cursor;
    assert c <= index;
    forall i: nat | i < c' ensures i in after {
      if c <= i && i != index {
        assert i in s.results;
      }
    }
    forall i: nat ensures i in t.results <==> i in after && c' <= i {
      assert i in t.results <==> i in stored && (i < c || c' <= i);
    }
    forall i: nat | i in t.results ensures t.results[i] == after[i] {
      assert t.results[i] == stored[i];
    }
  }

  /**
   * The trace half of `FlushPreservesConsistent`: the calls of a flush of a new
   * index extend the calls for the indices below the old cursor to those for
   * the indices below the new one, followed by `endFn` once the cursor is at `n`.
   */
  lemma FlushExtendsReleased<V>(n: nat, arrived: map<nat, V>, s: State<V>, index: nat, value: V)
    requires Stored(n, arrived, s)
    requires index < n && index !in arrived
    requires Stored(n, arrived[index := value], FlushStep(n, s, index, value).0)
    ensures var r := FlushStep(n, s, index, value);
            Released(arrived, s.cursor) + r.1 ==
            Released(arrived[index := value], r.0.cursor) + (if r.0.cursor >= n then [End] else [])
  {
    var after := arrived[index := value];
    var stored := s.results[index := value];
    var r := FlushStep(n, s, index, value);
    var c, c' := s.cursor, r.0.cursor;
    assert c <= index < n;
    var out := r.1[..c' - c];
    assert r.1 == out + (if c' >= n then [End] else []);
    forall k | 0 <= k < |out| ensures out[k] == Resolution(after[c + k]) {
      assert out[k] == r.1[k] == Resolution(stored[c + k]);
    }
    ReleasedExtend(arrived, after, c, c', out);
  }

  /**
   * A flush of an index below `n` that has not arrived before keeps the
   * invariant, with the new index added to the arrived ones.
   */
  lemma FlushPreservesConsistent<V>(n: nat, arrived: map<nat, V>, s: State<V>, calls: seq<HookCall<V>>,
                                   index: nat, value: V)
    requires Consistent(n, arrived, s, calls)
    requires index < n && index !in arrived
    ensures var r := FlushStep(n, s, index, value);
            Consistent(n, arrived[index := value], r.0, calls + r.1)
  {
    FlushPreservesStored(n, arrived, s, index, value);
    FlushExtendsReleased(n, arrived, s, index, value);
  }

  /**
   * Once every index below `n` has arrived, the cursor is at `n`, `results`
   * is empty, and the hooks have seen all values in index order and then one
   * `endFn` call (none when `n` is zero).
   */
  lemma AllArrived<V>(n: nat, arrived: map<nat, V>, s: State<V>, calls: seq<HookCall<V>>)
    requires Consistent(n, arrived, s, calls)
    requires forall i: nat :: i < n ==> i in arrived
    ensures s.cursor == n && s.results == map[]
    ensures calls == Released(arrived, n) + (if n > 0 then [End] else [])
  {
  }

  /**
   * `endFn` is called at most once, only as the last hook call, and only when
   * the cursor has reached `n` — so never before the last `resolutionFn` call;
   * before it, `resolutionFn` has been called once per index below the cursor.
   */
  lemma EndComesLast<V>(n: nat, arrived: map<nat, V>, s: State<V>, calls: seq<HookCall<V>>)
    requires Consistent(n, arrived, s, calls)
    ensures End in calls <==> s.cursor == n && n > 0
    ensures End in calls ==> |calls| == n + 1 && calls[n] == End && End !in calls[..n]
    ensures End in calls ==> forall i: nat :: i < n ==> i in arrived
    ensures End !in calls ==> |calls| == s.cursor
    ensures forall k :: 0 <= k < s.cursor ==> calls[k] == Resolution(arrived[k])
  {
    var released := Released(arrived, s.cursor);
    assert End !in released;
    if s.cursor == n && n > 0 {
      assert calls[..n] == released;
    }
  }

  /**
   * A flush after the cursor has reached `n` releases nothing, keeps the value
   * in `results`, and calls `endFn` again.
   */
  lemma FlushAfterEnd<V>(n: nat, s: State<V>, index: nat, value: V)
    requires s.cursor >= n
    ensures FlushStep(n, s, index, value) == (State(s.cursor, s.results[index := value]), [End])
  {
    var stored := s.results[index := value];
    assert Drain(n, s.cursor, stored) == (State(s.cursor, stored), []);
    assert Resolutions<V>([]) + [End] == [End];
  }

  /**
   * What has arrived after the first `k` resolutions of `|vals|` promises,
   * delivered in the order `order`, promise `i` resolving to `vals[i]`.
   */
  function Arrivals<V>(vals: seq<V>, order: seq<nat>, k: nat): map<nat, V>
    requires IsPermutation(order, |vals|) && k <= |vals|
    decreases k
  {
    if k == 0 then map[]
    else
      var i := order[k - 1];
      Arrivals(vals, order, k - 1)[i := vals[i]]
  }

  /**
   * After `k` deliveries exactly the first `k` indices of `order` have arrived,
   * each with its promise's value, and the later ones have not.
   */
  lemma {:induction false} ArrivalsHold<V>(vals: seq<V>, order: seq<nat>, k: nat)
    requires IsPermutation(order, |vals|) && k <= |vals|
    ensures forall j :: j in Arrivals(vals, order, k) ==> j < |vals| && Arrivals(vals, order, k)[j] == vals[j]
    ensures forall q :: 0 <= q < k ==> order[q] in Arrivals(vals, order, k)
    ensures forall q :: k <= q < |vals| ==> order[q] !in Arrivals(vals, order, k)
    decreases k
  {
    if k > 0 {
      ArrivalsHold(vals, order, k - 1);
    }
  }

  /**
   * Once the resolutions of all `|vals|` promises have arrived, in any order,
   * the hooks have seen every value in index order and then one `endFn` call
   * (none with no promises).
   */
  lemma AllDelivered<V>(vals: seq<V>, order: seq<nat>, s: State<V>, calls: seq<HookCall<V>>)
    requires IsPermutation(order, |vals|)
    requires Consistent(|vals|, Arrivals(vals, order, |vals|), s, calls)
    ensures calls == Resolutions(vals) + (if |vals| > 0 then [End] else [])
  {
    var arrived := Arrivals(vals, order, |vals|);
    ArrivalsHold(vals, order, |vals|);
    PermutationCovers(order, |vals|);
    forall i: nat | i < |vals| ensures i in arrived {
      assert i in order;
      var q :| 0 <= q < |order| && order[q] == i;
    }
    AllArrived(|vals|, arrived, s, calls);
    assert Released(arrived, |vals|) == Resolutions(vals);
  }

  /** `order` lists each of the indices `0`, …, `n - 1` exactly once. */
  ghost predicate IsPermutation(order: seq<nat>, n: nat)
  {
    && |order| == n
    && (forall k :: 0 <= k < n ==> order[k] < n)
    && (forall j, k :: 0 <= j < k < n ==> order[j] != order[k])
  }

  /** A permutation of `0`, …, `n - 1` contains each of those indices. */
  lemma {:induction false} PermutationCovers(order: seq<nat>, n: nat)
    requires IsPermutation(order, n)
    ensures forall i: nat :: i < n ==> i in order
    decreases n
  {
    if n > 0 {
      var m := n - 1;
      var last := order[m];
      // The first m entries, with the value m renamed to the value of the last entry.
      var renamed := seq(m, k requires 0 <= k < m => if order[k] == m then last else order[k]);
      forall k | 0 <= k < m ensures renamed[k] < m {
        if order[k] == m {
          assert order[k] != order[m];
        }
      }
      forall j, k | 0 <= j < k < m ensures renamed[j] != renamed[k] {
        assert order[j] != order[m] && order[k] != order[m];
      }
      PermutationCovers(renamed, m);
      forall i: nat | i < n ensures i in order {
        if i == last {
          assert order[m] == i;
        } else if i == m {
          assert last < m && last in renamed;
          var q :| 0 <= q < m && renamed[q] == last;
          assert order[q] == i;
        } else {
          assert i in renamed;
          var q :| 0 <= q < m && renamed[q] == i;
          assert order[q] == i;
        }
      }
    }
  }
}
