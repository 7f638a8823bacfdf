/**
 * The two hooks of the ordered promise stream and what the default ones do.
 *
 * `flush` calls `resolutionFn(stream, value)` once per released value and
 * `endFn(stream)` when every index has been released. The model records
 * those invocations as a trace of `HookCall`s; what a hook does with the
 * stream is only known for the defaults, which push onto the stream.
 */
module Hooks {

  /** One invocation of a hook: `resolutionFn(stream, value)` or `endFn(stream)`. */
  datatype HookCall<V> = Resolution(value: V) | End

  /** The argument of one `stream.push`: a value, or `null` (end of stream). */
  datatype Chunk<V> = Item(value: V) | Null

  /** Which function a hook slot holds once the options have been read. */
  datatype Hook = Default | Given

  /** The hooks an ordered promise stream uses. */
  datatype Selected = Selected(endFn: Hook, resolutionFn: Hook)

  /** The default `endFn`: push `null`, ending the stream. */
  function DefaultEndFn<V>(pushed: seq<Chunk<V>>): seq<Chunk<V>>
  {
    pushed + [Null]
  }

  /** The default `resolutionFn`: push the value. */
  function DefaultResolutionFn<V>(pushed: seq<Chunk<V>>, value: V): seq<Chunk<V>>
  {
    pushed + [Item(value)]
  }

  /** What the stream has received after the default hooks ran `calls`, in order. */
  function PushedByDefaults<V>(calls: seq<HookCall<V>>): seq<Chunk<V>>
    decreases |calls|
  {
    if calls == [] then []
    else
      var before := PushedByDefaults(calls[..|calls| - 1]);
      match calls[|calls| - 1]
      case Resolution(v) => DefaultResolutionFn(before, v)
      case End => DefaultEndFn(before)
  }

  /** One `resolutionFn` call per value, in the order of `vs`. */
  function Resolutions<V>(vs: seq<V>): seq<HookCall<V>>
  {
    seq(|vs|, k requires 0 <= k < |vs| => Resolution(vs[k]))
  }

  /** A trace `before + Resolutions(vs)` extended by one more `resolutionFn` call. */
  lemma ResolutionsAppend<V>(before: seq<HookCall<V>>, vs: seq<V>, v: V)
    ensures before + Resolutions(vs) + [Resolution(v)] == before + Resolutions(vs + [v])
  {
    assert Resolutions(vs + [v]) == Resolutions(vs) + [Resolution(v)];
  }

  /** The values of `vs` as stream items, in order. */
  function Items<V>(vs: seq<V>): seq<Chunk<V>>
  {
    seq(|vs|, k requires 0 <= k < |vs| => Item(vs[k]))
  }

  /**
   * With the default hooks, a trace of resolutions followed by one end call
   * pushes exactly the values, in the same order, and then `null`; without the
   * end call only the values are pushed. A value that is itself `null` would
   * end an object-mode stream early; `Item` and `Null` keep the two apart.
   */
  lemma {:induction false} DefaultsPushInOrder<V>(vs: seq<V>)
    ensures PushedByDefaults(Resolutions(vs)) == Items(vs)
    ensures PushedByDefaults(Resolutions(vs) + [End]) == Items(vs) + [Null]
    decreases |vs|
  {
    if vs != [] {
      var front := vs[..|vs| - 1];
      DefaultsPushInOrder(front);
      assert Resolutions(vs)[..|vs| - 1] == Resolutions(front);
      assert Items(vs) == Items(front) + [Item(vs[|vs| - 1])];
    }
    var withEnd := Resolutions(vs) + [End];
    assert withEnd[..|withEnd| - 1] == Resolutions(vs);
  }
}
