/** The FIFO queue of lib/queue.js. Like the source's `_data` array, `data` keeps
    the newest item first: `enqueue` unshifts at the front and `dequeue` pops
    from the back, so the oldest item leaves first. `Items()` is the queue in
    arrival order. */
module Queues {
  import opened Wrappers

  /** The error `dequeue` throws on an empty queue ("Queue underflow"). */
  datatype QueueError = Underflow

  function Reversed<T>(s: seq<T>): (r: seq<T>)
    ensures |r| == |s|
  {
    if |s| == 0 then [] else Reversed(s[1..]) + [s[0]]
  }

  lemma {:induction false} ReversedIndex<T>(s: seq<T>, i: int)
    requires 0 <= i < |s|
    ensures Reversed(s)[i] == s[|s| - 1 - i]
    decreases |s|
  {
    if i < |s| - 1 {
      ReversedIndex(s[1..], i);
    }
  }

  lemma {:induction false} ReversedConcat<T>(a: seq<T>, b: seq<T>)
    ensures Reversed(a + b) == Reversed(b) + Reversed(a)
    decreases |a|
  {
    if |a| == 0 {
      assert a + b == b;
    } else {
      assert (a + b)[1..] == a[1..] + b;
      ReversedConcat(a[1..], b);
    }
  }

  lemma ReversedHasSameElements<T>(s: seq<T>, v: T)
    ensures v in Reversed(s) <==> v in s
  {
    if v in s {
      var i :| 0 <= i < |s| && s[i] == v;
      ReversedIndex(s, |s| - 1 - i);
    }
    if v in Reversed(s) {
      var i :| 0 <= i < |s| && Reversed(s)[i] == v;
      ReversedIndex(s, i);
    }
  }

  /** `s` without its earliest occurrence of `v`. */
  function RemoveFirst<T(==)>(s: seq<T>, v: T): (r: seq<T>)
    ensures v in s ==> |r| == |s| - 1
    ensures v !in s ==> r == s
  {
    if |s| == 0 then []
    else if s[0] == v then s[1..]
    else [s[0]] + RemoveFirst(s[1..], v)
  }

  lemma {:induction false} RemoveFirstAfter<T>(a: seq<T>, v: T, b: seq<T>)
    requires v !in a
    ensures RemoveFirst(a + [v] + b, v) == a + b
    decreases |a|
  {
    if |a| == 0 {
      assert a + [v] + b == [v] + b;
    } else {
      assert (a + [v] + b)[1..] == a[1..] + [v] + b;
      RemoveFirstAfter(a[1..], v, b);
      assert a + b == [a[0]] + (a[1..] + b);
    }
  }

  class Queue<T(==)> {
    /** `_data`: newest item first. */
    var data: seq<T>

    /** The queue in arrival order, oldest first. */
    ghost function Items(): seq<T>
      reads this
    {
      Reversed(data)
    }

    constructor ()
      ensures data == [] && Items() == []
    {
      data := [];
    }

    /** `enqueue(val)` always succeeds. */
    method Enqueue(v: T) returns (ok: bool)
      modifies this
      ensures ok
      ensures data == [v] + old(data)
      ensures Items() == old(Items()) + [v]
    {
      data := [v] + data;
      assert data[1..] == old(data);
      return true;
    }

    /** `dequeue()`: the oldest item, or "Queue underflow" with nothing changed. */
    method Dequeue() returns (r: Result<T, QueueError>)
      modifies this
      ensures old(data) == [] ==> r == Err(Underflow) && data == old(data)
      ensures old(data) != [] ==> r == Ok(old(Items())[0])
      ensures old(data) != [] ==> data == old(data)[..|old(data)| - 1]
      ensures old(data) != [] ==> Items() == old(Items())[1..]
    {
      if |data| == 0 {
        return Err(Underflow);
      }
      ghost var was := data;
      var last := data[|data| - 1];
      data := data[..|data| - 1];
      ReversedIndex(was, 0);
      assert was == data + [last];
      ReversedConcat(data, [last]);
      return Ok(last);
    }

    /** `clear()` empties the queue. */
    method Clear() returns (ok: bool)
      modifies this
      ensures ok && data == [] && Items() == []
    {
      data := [];
      return true;
    }

    /** The backwards scan of `del(val)`: from the last slot towards the first, so
        the first hit is the earliest-added occurrence. */
    method OldestIndexOf(v: T) returns (k: int)
      ensures -1 <= k < |data|
      ensures k == -1 <==> v !in data
      ensures k >= 0 ==> data[k] == v && forall j :: k < j < |data| ==> data[j] != v
    {
      k := |data| - 1;
      while k >= 0
        invariant -1 <= k < |data|
        invariant forall j :: k < j < |data| ==> data[j] != v
      {
        if data[k] == v {
          return;
        }
        k := k - 1;
      }
    }

    /** `del(val)`: remove the earliest-added occurrence of `val`, if any. */
    method Delete(v: T) returns (found: bool)
      modifies this
      ensures found <==> v in old(data)
      ensures Items() == RemoveFirst(old(Items()), v)
      ensures !found ==> data == old(data)
      ensures found ==> exists k ::
        && 0 <= k < |old(data)| && old(data)[k] == v
        && (forall j :: k < j < |old(data)| ==> old(data)[j] != v)
        && data == old(data)[..k] + old(data)[k + 1..]
    {
      var k := OldestIndexOf(v);
      if k < 0 {
        ReversedHasSameElements(data, v);
        return false;
      }
      ghost var was := data;
      data := data[..k] + data[k + 1..];
      assert was == was[..k] + [v] + was[k + 1..];
      ReversedConcat(was[..k] + [v], was[k + 1..]);
      ReversedConcat(was[..k], [v]);
      ReversedConcat(was[..k], was[k + 1..]);
      assert v !in was[k + 1..];
      ReversedHasSameElements(was[k + 1..], v);
      RemoveFirstAfter(Reversed(was[k + 1..]), v, Reversed(was[..k]));
      assert Reversed([v]) == [v] by {
        assert [v][1..] == [];
      }
      assert Reversed(was) == Reversed(was[k + 1..]) + [v] + Reversed(was[..k]);
      return true;
    }
  }
}
