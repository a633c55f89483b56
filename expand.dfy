/** `expand(args, obj)` of inmocha/api.js on whole values: strings are rewritten by
    the substitution loop, arrays and objects property by property, and every other
    value passes through. */
module Expansion {
  import opened Json
  import opened Templates

  /** `typeof obj === "object"` with properties to rewrite: what `expand` changes in place. */
  predicate IsObject(v: Json) {
    v.Arr? || v.Obj?
  }

  /** The value `expand` leaves behind: every string leaf substituted, keys and
      array positions kept. */
  function Expand(args: seq<string>, v: Json): Json
    requires PlainArgs(args)
    decreases v
  {
    match v
    case Str(s) => Str(ExpandStr(args, s))
    case Arr(items) => Arr(seq(|items|, i requires 0 <= i < |items| => Expand(args, items[i])))
    case Obj(fields) =>
      Obj(seq(|fields|, i requires 0 <= i < |fields| => (fields[i].0, Expand(args, fields[i].1))))
    case _ => v
  }

  /** No string leaf of `v` contains a placeholder. */
  predicate Settled(v: Json)
    decreases v
  {
    match v
    case Str(s) => NoPlaceholder(s)
    case Arr(items) => forall i :: 0 <= i < |items| ==> Settled(items[i])
    case Obj(fields) => forall i :: 0 <= i < |fields| ==> Settled(fields[i].1)
    case _ => true
  }

  /** `b` has the structure of `a`: the same kind of value at every position, the
      same array lengths and the same keys in the same order, and the same value
      wherever `a` is neither a string, an array nor an object. */
  predicate SameShape(a: Json, b: Json)
    decreases a
  {
    match a
    case Str(_) => b.Str?
    case Arr(x) =>
      b.Arr? && |x| == |b.items| && forall i :: 0 <= i < |x| ==> SameShape(x[i], b.items[i])
    case Obj(f) =>
      b.Obj? && |f| == |b.fields|
      && forall i :: 0 <= i < |f| ==> f[i].0 == b.fields[i].0 && SameShape(f[i].1, b.fields[i].1)
    case _ => a == b
  }

  /** `expand` rewrites properties but never adds, drops or renames one, and returns
      `undefined`, `null`, booleans, numbers, symbols and functions unchanged. */
  lemma {:induction false} ExpandKeepsShape(args: seq<string>, v: Json)
    requires PlainArgs(args)
    ensures SameShape(v, Expand(args, v))
    decreases v
  {
    match v
    case Arr(items) =>
      forall i | 0 <= i < |items| ensures SameShape(items[i], Expand(args, v).items[i]) {
        ExpandKeepsShape(args, items[i]);
      }
    case Obj(fields) =>
      forall i | 0 <= i < |fields|
        ensures fields[i].0 == Expand(args, v).fields[i].0
        ensures SameShape(fields[i].1, Expand(args, v).fields[i].1)
      {
        ExpandKeepsShape(args, fields[i].1);
      }
    case _ =>
  }

  /** Every nested string leaf is substituted: none keeps a placeholder. */
  lemma {:induction false} ExpandSettles(args: seq<string>, v: Json)
    requires PlainArgs(args)
    ensures Settled(Expand(args, v))
    decreases v
  {
    match v
    case Str(s) => ExpandLeavesNoPlaceholder(args, s);
    case Arr(items) =>
      forall i | 0 <= i < |items| ensures Settled(Expand(args, v).items[i]) {
        ExpandSettles(args, items[i]);
      }
    case Obj(fields) =>
      forall i | 0 <= i < |fields| ensures Settled(Expand(args, v).fields[i].1) {
        ExpandSettles(args, fields[i].1);
      }
    case _ =>
  }

  /** A value without placeholders comes back unchanged, whatever the captures. */
  lemma {:induction false} SettledUnchanged(args: seq<string>, v: Json)
    requires PlainArgs(args) && Settled(v)
    ensures Expand(args, v) == v
    decreases v
  {
    match v
    case Str(s) => NoPlaceholderUnchanged(args, s);
    case Arr(items) =>
      forall i | 0 <= i < |items| ensures Expand(args, items[i]) == items[i] {
        SettledUnchanged(args, items[i]);
      }
      assert Expand(args, v).items == items;
    case Obj(fields) =>
      forall i | 0 <= i < |fields| ensures Expand(args, fields[i].1) == fields[i].1 {
        SettledUnchanged(args, fields[i].1);
      }
      assert Expand(args, v).fields == fields;
    case _ =>
  }

  /** Expanding an expanded value again, with any captures, changes nothing: the
      object a step handler rewrote in place keeps its first substitution. */
  lemma ExpandIdempotent(first: seq<string>, later: seq<string>, v: Json)
    requires PlainArgs(first) && PlainArgs(later)
    ensures Expand(later, Expand(first, v)) == Expand(first, v)
  {
    ExpandSettles(first, v);
    SettledUnchanged(later, Expand(first, v));
  }

  /** `expand(args, obj)` as written: `for (var p in obj) obj[p] = expand(args, obj[p])`
      over arrays and objects, the substitution loop on strings. */
  method ExpandValue(args: seq<string>, v: Json) returns (r: Json)
    requires PlainArgs(args)
    ensures r == Expand(args, v)
    decreases v
  {
    match v {
      case Str(s) =>
        var t := ExpandString(args, s);
        r := Str(t);
      case Arr(items) =>
        var out := items;
        var i := 0;
        while i < |out|
          invariant 0 <= i <= |out| == |items|
          invariant forall k :: 0 <= k < i ==> out[k] == Expand(args, items[k])
          invariant forall k :: i <= k < |out| ==> out[k] == items[k]
        {
          var e := ExpandValue(args, items[i]);
          out := out[i := e];
          i := i + 1;
        }
        r := Arr(out);
      case Obj(fields) =>
        var out := fields;
        var i := 0;
        while i < |out|
          invariant 0 <= i <= |out| == |fields|
          invariant forall k :: 0 <= k < i ==> out[k] == (fields[k].0, Expand(args, fields[k].1))
          invariant forall k :: i <= k < |out| ==> out[k] == fields[k]
        {
          var e := ExpandValue(args, fields[i].1);
          out := out[i := (out[i].0, e)];
          i := i + 1;
        }
        r := Obj(out);
      case _ =>
        r := v;
    }
  }
}
