/** The sorted unique container of lib/set.js: the values live in an array kept
    in strictly ascending order, a binary search finds the insertion point, and
    add, has and delete all go through that search. */
module SortedSets {
  import opened Wrappers
  import opened Lex

  /** The error `search` throws for `null` or `undefined` once its early exits do not apply. */
  datatype SetError = InvalidType

  ghost predicate StrictlyAscending(s: seq<string>) {
    forall i, j :: 0 <= i < j < |s| ==> Less(s[i], s[j])
  }

  /** `i` is where `v` sits in `s`, or where it would have to be inserted to keep `s` ascending. */
  ghost predicate InsertionPoint(s: seq<string>, v: string, i: int) {
    && 0 <= i <= |s|
    && (forall k :: 0 <= k < i ==> Less(s[k], v))
    && (forall k :: i < k < |s| ==> Less(v, s[k]))
    && (i < |s| ==> s[i] == v || Less(v, s[i]))
  }

  /** In an ascending sequence everything before an element below `v` is below `v` too. */
  lemma BelowUpTo(s: seq<string>, i: int, v: string)
    requires StrictlyAscending(s) && 0 <= i < |s| && Less(s[i], v)
    ensures forall k :: 0 <= k <= i ==> Less(s[k], v)
  {
    forall k | 0 <= k < i ensures Less(s[k], v) {
      Transitive(s[k], s[i], v);
    }
  }

  /** In an ascending sequence everything after an element above `v` is above `v` too. */
  lemma AboveFrom(s: seq<string>, i: int, v: string)
    requires StrictlyAscending(s) && 0 <= i < |s| && Less(v, s[i])
    ensures forall k :: i <= k < |s| ==> Less(v, s[k])
  {
    forall k | i < k < |s| ensures Less(v, s[k]) {
      Transitive(v, s[i], s[k]);
    }
  }

  lemma InsertKeepsAscending(s: seq<string>, v: string, i: int)
    requires StrictlyAscending(s) && InsertionPoint(s, v, i) && (i < |s| ==> s[i] != v)
    ensures StrictlyAscending(s[..i] + [v] + s[i..])
  {
    var t := s[..i] + [v] + s[i..];
    forall p, q | 0 <= p < q < |t| ensures Less(t[p], t[q]) {
      if q < i {
        assert t[p] == s[p] && t[q] == s[q];
      } else if q == i {
        assert t[p] == s[p] && t[q] == v;
      } else if p == i {
        assert t[p] == v && t[q] == s[q - 1];
      } else if p < i {
        assert t[p] == s[p] && t[q] == s[q - 1];
      } else {
        assert t[p] == s[p - 1] && t[q] == s[q - 1];
      }
    }
  }

  lemma RemoveKeepsAscending(s: seq<string>, i: int)
    requires StrictlyAscending(s) && 0 <= i < |s|
    ensures StrictlyAscending(s[..i] + s[i + 1..])
  {
    var t := s[..i] + s[i + 1..];
    forall p, q | 0 <= p < q < |t| ensures Less(t[p], t[q]) {
      if q < i {
        assert t[p] == s[p] && t[q] == s[q];
      } else if p < i {
        assert t[p] == s[p] && t[q] == s[q + 1];
      } else {
        assert t[p] == s[p + 1] && t[q] == s[q + 1];
      }
    }
  }

  class SortedSet {
    /** `_data`: the stored values, ascending and without duplicates. */
    var data: seq<string>

    ghost predicate Valid()
      reads this
    {
      StrictlyAscending(data)
    }

    ghost function Elements(): set<string>
      reads this
    {
      set x | x in data
    }

    /** `new Set(initial)` adds the initial values one by one. */
    constructor (initial: seq<string>)
      ensures Valid()
      ensures Elements() == set x | x in initial
    {
      data := [];
      new;
      var i := 0;
      while i < |initial|
        invariant 0 <= i <= |initial|
        invariant Valid()
        invariant Elements() == set x | x in initial[..i]
      {
        var _ := Add(initial[i]);
        assert initial[..i + 1] == initial[..i] + [initial[i]];
        i := i + 1;
      }
      assert initial[..i] == initial;
    }

    /** `search(val)`: `None` stands for `null` and `undefined`. The model takes
        every comparison of a stored string with them to be false, which holds for
        `undefined` and for `null` against non-numeric, non-empty strings only. */
    method Search(val: Option<string>) returns (r: Result<nat, SetError>)
      requires Valid()
      ensures val.None? ==> r == (if |data| == 0 then Ok(0) else Err(InvalidType))
      ensures val.Some? ==> r.Ok? && InsertionPoint(data, val.value, r.value)
      ensures val.Some? ==> (val.value in data <==> r.value < |data| && data[r.value] == val.value)
      ensures val.Some? && (|data| == 0 || !Less(data[0], val.value)) ==> r == Ok(0)
      ensures val.Some? && |data| > 0 && Less(data[|data| - 1], val.value) ==> r == Ok(|data|)
    {
      if |data| == 0 {
        return Ok(0);
      } else if val.Some? && !Less(data[0], val.value) {
        Trichotomy(data[0], val.value);
        if data[0] != val.value {
          AboveFrom(data, 0, val.value);
        }
        if Less(data[|data| - 1], val.value) {
          if |data| > 1 {
            Transitive(data[0], data[|data| - 1], val.value);
          }
        }
        if val.value in data {
          var k :| 0 <= k < |data| && data[k] == val.value;
          if k > 0 {
            Asymmetric(data[0], val.value);
          }
        }
        return Ok(0);
      } else if val.Some? && Less(data[|data| - 1], val.value) {
        BelowUpTo(data, |data| - 1, val.value);
        if val.value in data {
          var k :| 0 <= k < |data| && data[k] == val.value;
          if k < |data| - 1 {
            Asymmetric(val.value, data[|data| - 1]);
          } else {
            Irreflexive(val.value);
          }
        }
        return Ok(|data|);
      } else if val.None? {
        return Err(InvalidType);
      }
      var v := val.value;
      var start: int, end: int := 0, |data| - 1;
      // the do-while loop of the source: the body runs, then `end >= start` is tested
      while true
        invariant 0 <= start <= end < |data|
        invariant forall k :: 0 <= k < start ==> Less(data[k], v)
        invariant forall k :: end < k < |data| ==> Less(v, data[k])
        decreases end - start
      {
        var index := start + (end - start) / 2;
        Trichotomy(data[index], v);
        if data[index] == v {
          return Ok(index);
        } else if Less(data[index], v) {
          BelowUpTo(data, index, v);
          start := index + 1;
        } else if Less(v, data[index]) {
          AboveFrom(data, index, v);
          end := index - 1;
        }
        if !(end >= start) {
          break;
        }
      }
      Irreflexive(v);
      return Ok(start);
    }

    /** `has(val)`: the value at the search index is `val`. */
    method Has(v: string) returns (found: bool)
      requires Valid()
      ensures found <==> v in data
    {
      var r := Search(Some(v));
      var index := r.value;
      found := index < |data| && data[index] == v;
    }

    /** `add(val)`: splice `val` in at the search index unless it is already there. */
    method Add(v: string) returns (wasNew: bool)
      requires Valid()
      modifies this
      ensures Valid()
      ensures wasNew <==> v !in old(data)
      ensures Elements() == old(Elements()) + {v}
      ensures !wasNew ==> data == old(data)
      ensures wasNew ==> |data| == |old(data)| + 1
      ensures wasNew ==> exists i :: 0 <= i <= |old(data)| && data == old(data)[..i] + [v] + old(data)[i..]
    {
      var r := Search(Some(v));
      var index := r.value;
      if index < |data| && data[index] == v {
        return false;
      }
      InsertKeepsAscending(data, v, index);
      ghost var was := data;
      data := data[..index] + [v] + data[index..];
      assert was == was[..index] + was[index..];
      assert data == was[..index] + [v] + was[index..];
      return true;
    }

    /** `clear()`: forget every value. */
    method Clear() returns (ok: bool)
      modifies this
      ensures Valid() && ok
      ensures data == [] && Elements() == {}
    {
      data := [];
      return true;
    }

    /** `delete(val)` as evidently intended: remove the value found by the search.
        The source leaves a hole instead; see `DeleteAsWritten`. */
    method Delete(v: string) returns (existed: bool)
      requires Valid()
      modifies this
      ensures Valid()
      ensures existed <==> v in old(data)
      ensures v !in data
      ensures Elements() == old(Elements()) - {v}
      ensures existed ==> |data| == |old(data)| - 1
      ensures !existed ==> data == old(data)
    {
      var r := Search(Some(v));
      var index := r.value;
      if index < |data| && data[index] == v {
        RemoveKeepsAscending(data, index);
        ghost var was := data;
        data := data[..index] + data[index + 1..];
        assert was == was[..index] + [v] + was[index + 1..];
        forall k | 0 <= k < |was| && k != index ensures was[k] != v {
          if k < index { Irreflexive(v); assert Less(was[k], was[index]); }
          else { Irreflexive(v); assert Less(was[index], was[k]); }
        }
        assert v !in data;
        return true;
      }
      return false;
    }
  }

  /** An array slot that `delete _data[index]` may leave empty. */
  datatype Slot = Item(value: string) | Hole

  /** `delete _data[index]` as written: the length stays and the slot becomes a hole. */
  function DeleteAsWritten(s: seq<string>, index: nat): (r: seq<Slot>)
    requires index < |s|
    ensures |r| == |s| && r[index] == Hole
    ensures forall k :: 0 <= k < |s| && k != index ==> r[k] == Item(s[k])
  {
    seq(|s|, k requires 0 <= k < |s| => if k == index then Hole else Item(s[k]))
  }

  datatype Probe = Found(index: nat) | Narrowed(start: int, end: int)

  /** One pass of the body of `search`'s do-while loop over an array that may hold
      holes; `undefined` compares neither equal to, below nor above a string. */
  function ProbeAsWritten(slots: seq<Slot>, v: string, start: int, end: int): (p: Probe)
    requires 0 <= start <= end < |slots|
    ensures p.Narrowed? && p.start == start && p.end == end
      ==> slots[start + (end - start) / 2] == Hole
  {
    var index := start + (end - start) / 2;
    match slots[index]
    case Hole => Narrowed(start, end)
    case Item(x) =>
      Trichotomy(x, v);
      if x == v then Found(index)
      else if Less(x, v) then Narrowed(index + 1, end)
      else Narrowed(start, index - 1)
  }

  /** After deleting "b" from ["a", "b", "c"] as the source does, looking "b" up again
      passes the early exits ("a" is below and "c" above it) and then probes the
      hole forever: the loop state (0, 2) is a fixed point and `2 >= 0` holds. */
  lemma DeletedHoleStallsSearch()
    ensures var slots := DeleteAsWritten(["a", "b", "c"], 1);
      && slots[0] == Item("a") && Less("a", "b")
      && slots[2] == Item("c") && !Less("c", "b")
      && ProbeAsWritten(slots, "b", 0, 2) == Narrowed(0, 2)
  {
    assert Less("a", "b");
    assert Less("b", "c");
    Asymmetric("b", "c");
  }
}
