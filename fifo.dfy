/** `ThreadSafeArray`: the feature queue between `predictChunk`/`stop` and the
    recognition loop. Actor isolation is not modelled; the operations are the
    sequential ones on `_items`. */
module Fifo {
  import opened Wrappers

  /** `remove(at:)` on a value: `None` and the sequence unchanged when `index`
      is out of range, otherwise the element and the sequence without it. */
  function RemoveAt<T>(s: seq<T>, index: int): (r: (Option<T>, seq<T>))
    ensures r.0.None? <==> !(0 <= index < |s|)
    ensures r.0.None? ==> r.1 == s
    ensures r.0.Some? ==> |r.1| == |s| - 1 && s == r.1[..index] + [r.0.value] + r.1[index..]
  {
    if 0 <= index < |s| then
      var rest := s[..index] + s[index + 1..];
      assert rest[..index] == s[..index] && rest[index..] == s[index + 1..];
      (Some(s[index]), rest)
    else (None, s)
  }

  /** Removing an element keeps every other element: the removed one and the
      rest together are the original multiset. */
  lemma RemoveAtKeepsElements<T>(s: seq<T>, index: int)
    requires 0 <= index < |s|
    ensures var (v, rest) := RemoveAt(s, index);
            v.Some? && multiset(s) == multiset(rest) + multiset{v.value}
  {
    var (v, rest) := RemoveAt(s, index);
    calc {
      multiset(s);
      multiset(rest[..index] + [v.value] + rest[index..]);
      multiset(rest[..index]) + multiset{v.value} + multiset(rest[index..]);
      { assert rest == rest[..index] + rest[index..]; }
      multiset(rest) + multiset{v.value};
    }
  }

  class ThreadSafeArray<T(==)> {
    var items: seq<T>

    constructor (items: seq<T>)
      ensures this.items == items
    {
      this.items := items;
    }

    method Get() returns (r: seq<T>)
      ensures r == items
    {
      r := items;
    }

    method Append(item: T)
      modifies this
      ensures items == old(items) + [item]
    {
      items := items + [item];
    }

    method Remove(index: int) returns (r: Option<T>)
      modifies this
      ensures (r, items) == RemoveAt(old(items), index)
    {
      if !(0 <= index < |items|) {
        return None;
      }
      r := Some(items[index]);
      items := items[..index] + items[index + 1..];
    }

    method Contains(item: T) returns (b: bool)
      ensures b <==> exists k :: 0 <= k < |items| && items[k] == item
    {
      b := item in items;
    }

    method Count() returns (n: int)
      ensures n == |items|
    {
      n := |items|;
    }

    method Clear()
      modifies this
      ensures items == []
    {
      items := [];
    }
  }

  /** A queue operation as the recogniser uses them: `append` of a feature,
      or `remove(at: 0)` in `processQueue`. */
  datatype QueueOp<T> = Enqueue(item: T) | Dequeue

  /** The items a sequence of operations enqueues, in order. */
  function Enqueued<T>(ops: seq<QueueOp<T>>): seq<T>
  {
    if ops == [] then []
    else (if ops[0].Enqueue? then [ops[0].item] else []) + Enqueued(ops[1..])
  }

  /** The dequeued items and the final queue after running `ops` on `q`. */
  function RunQueue<T>(q: seq<T>, ops: seq<QueueOp<T>>): (r: (seq<T>, seq<T>))
    decreases |ops|
  {
    if ops == [] then ([], q)
    else if ops[0].Enqueue? then RunQueue(q + [ops[0].item], ops[1..])
    else
      var (v, rest) := RemoveAt(q, 0);
      var (out, final) := RunQueue(rest, ops[1..]);
      (if v.Some? then [v.value] + out else out, final)
  }

  /** FIFO order: the items dequeued followed by those still queued are exactly
      the initial queue followed by everything enqueued, in append order. */
  lemma {:induction false} FifoOrder<T>(q: seq<T>, ops: seq<QueueOp<T>>)
    ensures RunQueue(q, ops).0 + RunQueue(q, ops).1 == q + Enqueued(ops)
    decreases |ops|
  {
    if ops != [] {
      if ops[0].Enqueue? {
        FifoOrder(q + [ops[0].item], ops[1..]);
        assert q + [ops[0].item] + Enqueued(ops[1..]) == q + Enqueued(ops);
      } else {
        var (v, rest) := RemoveAt(q, 0);
        FifoOrder(rest, ops[1..]);
        var (out, final) := RunQueue(rest, ops[1..]);
        if v.Some? {
          assert q == [v.value] + rest;
          assert [v.value] + out + final == [v.value] + (out + final);
        }
      }
    }
  }
}
