/** Rings over fixed arrays: `count` elements from `head` on, wrapping at the end of the array. */
module Rings {
  import opened Division

  /** The index `i` places behind `head`. */
  function Place(head: nat, i: nat, depth: nat): (k: nat)
    requires head < depth && i <= depth
    ensures k < depth && k == if head + i < depth then head + i else head + i - depth
  {
    if head + i < depth then
      Remainder(head + i, depth, 0, head + i); (head + i) % depth
    else
      Remainder(head + i, depth, 1, head + i - depth); (head + i) % depth
  }

  /** What a ring holds, the oldest element first. */
  function Window<T>(slots: seq<T>, head: nat, count: nat): (w: seq<T>)
    requires head < |slots| && count <= |slots|
    ensures |w| == count
    ensures forall i :: 0 <= i < count ==> w[i] == slots[Place(head, i, |slots|)]
  {
    seq(count, i requires 0 <= i < count => slots[Place(head, i, |slots|)])
  }

  /** Writing behind the last element and counting it appends it. */
  lemma PushWindow<T>(slots: seq<T>, head: nat, count: nat, x: T)
    requires head < |slots| && count < |slots|
    ensures Window(slots[Place(head, count, |slots|) := x], head, count + 1) == Window(slots, head, count) + [x]
  {
    hide Place, Window;
    var w := Window(slots[Place(head, count, |slots|) := x], head, count + 1);
    assert w[..count] == Window(slots, head, count) && w == w[..count] + [w[count]];
  }

  /** Moving the head on by one takes the oldest element away. */
  lemma PopWindow<T>(slots: seq<T>, head: nat, count: nat)
    requires head < |slots| && 0 < count <= |slots|
    ensures Window(slots, head, count) == [slots[head]] + Window(slots, Place(head, 1, |slots|), count - 1)
  {
    hide Place, Window;
    var w := Window(slots, head, count);
    var w' := Window(slots, Place(head, 1, |slots|), count - 1);
    assert w[0] == slots[head];
    forall i | 0 <= i < count - 1 ensures w[i + 1] == w'[i] {
      assert Place(head, i + 1, |slots|) == Place(Place(head, 1, |slots|), i, |slots|);
    }
  }

  /** Writing over an element replaces just that one. */
  lemma SetWindow<T>(slots: seq<T>, head: nat, count: nat, i: nat, x: T)
    requires head < |slots| && i < count <= |slots|
    ensures Window(slots[Place(head, i, |slots|) := x], head, count) == Window(slots, head, count)[i := x]
  {
    hide Place, Window;
  }
}
