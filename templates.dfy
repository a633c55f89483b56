/** `$argN` substitution, the `expand` helper of inmocha/api.js, on strings. A
    template is rewritten by repeatedly finding the first match of `/\$arg(\d+)/`
    (`exec`) and replacing the first literal occurrence of the matched text
    (`replace`) by the N-th capture, until no match is left. */
module Templates {
  import opened Wrappers
  import Numerals

  /** A match of `\$arg\d` starts at position `k` of `s`. */
  predicate StartsAt(s: string, k: nat) {
    k + 5 <= |s| && s[k] == '$' && s[k + 1] == 'a' && s[k + 2] == 'r' && s[k + 3] == 'g'
    && Numerals.IsDigit(s[k + 4])
  }

  /** The number of consecutive decimal digits from position `k`: what the greedy
      `\d+` takes. */
  function DigitsFrom(s: string, k: nat): (n: nat)
    requires k <= |s|
    ensures k + n <= |s|
    decreases |s| - k
  {
    if k < |s| && Numerals.IsDigit(s[k]) then 1 + DigitsFrom(s, k + 1) else 0
  }

  /** Where the match `\$arg(\d+)` starting at `k` ends. */
  function MatchEnd(s: string, k: nat): (e: nat)
    requires StartsAt(s, k)
    ensures k + 5 <= e <= |s|
  {
    k + 4 + DigitsFrom(s, k + 4)
  }

  /** The first match at or after position `k`, scanning to the right. */
  function FirstFrom(s: string, k: nat): (r: Option<nat>)
    requires k <= |s|
    ensures r.Some? ==> k <= r.value && StartsAt(s, r.value)
    decreases |s| - k
  {
    if k == |s| then None else if StartsAt(s, k) then Some(k) else FirstFrom(s, k + 1)
  }

  /** `regex.exec(s).index`: the position of the first placeholder, if any. */
  function First(s: string): (r: Option<nat>)
    ensures r.Some? ==> StartsAt(s, r.value)
  {
    FirstFrom(s, 0)
  }

  /** `s` contains no match of `\$arg\d+`. */
  predicate NoPlaceholder(s: string) {
    forall j :: 0 <= j < |s| ==> !StartsAt(s, j)
  }

  lemma {:induction false} FirstFromIsLeftmost(s: string, k: nat)
    requires k <= |s|
    ensures FirstFrom(s, k).None? <==> forall j :: k <= j < |s| ==> !StartsAt(s, j)
    ensures FirstFrom(s, k).Some? ==> forall j :: k <= j < FirstFrom(s, k).value ==> !StartsAt(s, j)
    decreases |s| - k
  {
    if k < |s| && !StartsAt(s, k) {
      FirstFromIsLeftmost(s, k + 1);
    }
  }

  /** `exec` finds the leftmost match, and finds none exactly when there is none. */
  lemma FirstIsLeftmost(s: string)
    ensures First(s).None? <==> NoPlaceholder(s)
    ensures First(s).Some? ==> forall j :: 0 <= j < First(s).value ==> !StartsAt(s, j)
  {
    FirstFromIsLeftmost(s, 0);
  }

  /** The first occurrence of `t` in `s` at or after position `k`. */
  function IndexFrom(s: string, t: string, k: nat): (r: Option<nat>)
    requires k <= |s|
    ensures r.Some? ==> k <= r.value && r.value + |t| <= |s| && s[r.value..r.value + |t|] == t
    decreases |s| - k
  {
    if k + |t| > |s| then None
    else if s[k..k + |t|] == t then Some(k)
    else IndexFrom(s, t, k + 1)
  }

  /** `s.replace(t, rep)` with a literal pattern: only the first occurrence of `t`
      is replaced. */
  function ReplaceFirst(s: string, t: string, rep: string): string {
    match IndexFrom(s, t, 0)
    case None => s
    case Some(i) => s[..i] + rep + s[i + |t|..]
  }

  /** `args[N - 1]` as replacement text: the capture (already converted to a
      string), or `"undefined"` when `N - 1` is outside the captures (as for `$arg0`). */
  function Replacement(args: seq<string>, n: nat): string {
    if 1 <= n <= |args| then args[n - 1] else "undefined"
  }

  /** The text that replaces the match starting at `k`: the capture numbered by the
      match's digits (`parseInt(match[1])`). */
  function Placeholder(args: seq<string>, s: string, k: nat): string
    requires StartsAt(s, k)
  {
    Replacement(args, Numerals.LeadingValue(s[k + 4..], 0))
  }

  /** Captures whose text contains no `$`: replacing with them cannot create a new
      placeholder, and JavaScript's `$`-patterns in replacement strings never arise. */
  predicate PlainArgs(args: seq<string>) {
    forall i :: 0 <= i < |args| ==> '$' !in args[i]
  }

  lemma PlaceholderIsPlain(args: seq<string>, s: string, k: nat)
    requires PlainArgs(args) && StartsAt(s, k)
    ensures '$' !in Placeholder(args, s, k)
  {
  }

  /** The text of a match occurs only where a match starts. */
  lemma MatchTextIsMatch(s: string, k: nat, t: string)
    requires |t| >= 5 && t[0] == '$' && t[1] == 'a' && t[2] == 'r' && t[3] == 'g' && Numerals.IsDigit(t[4])
    requires k + |t| <= |s| && s[k..k + |t|] == t
    ensures StartsAt(s, k)
  {
    var w := s[k..k + |t|];
    assert s[k] == w[0] && s[k + 1] == w[1] && s[k + 2] == w[2] && s[k + 3] == w[3] && s[k + 4] == w[4];
  }

  /** The text of the first match does not occur earlier, since every occurrence
      of it is a match: so `replace` rewrites exactly the occurrence `exec` found. */
  lemma {:induction false} MatchFoundFirst(s: string, k: nat, i: nat)
    requires k <= |s| && FirstFrom(s, k) == Some(i)
    ensures IndexFrom(s, s[i..MatchEnd(s, i)], k) == Some(i)
    decreases i - k
  {
    var t := s[i..MatchEnd(s, i)];
    if k < i {
      assert !StartsAt(s, k);
      if k + |t| <= |s| && s[k..k + |t|] == t {
        MatchTextIsMatch(s, k, t);
      }
      MatchFoundFirst(s, k + 1, i);
    }
  }

  /** One turn of the `do ... while` loop: the leftmost placeholder is replaced by
      its capture, in place. */
  function Step(args: seq<string>, s: string): string
    requires First(s).Some?
  {
    var i := First(s).value;
    s[..i] + Placeholder(args, s, i) + s[MatchEnd(s, i)..]
  }

  /** `s.replace(match[0], args[N - 1])` rewrites exactly the match `exec` found. */
  lemma ReplaceIsStep(args: seq<string>, s: string)
    requires First(s).Some?
    ensures var i := First(s).value;
      ReplaceFirst(s, s[i..MatchEnd(s, i)], Placeholder(args, s, i)) == Step(args, s)
  {
    MatchFoundFirst(s, 0, First(s).value);
  }

  function Dollars(s: string): nat {
    if |s| == 0 then 0 else (if s[0] == '$' then 1 else 0) + Dollars(s[1..])
  }

  lemma {:induction false} DollarsConcat(a: string, b: string)
    ensures Dollars(a + b) == Dollars(a) + Dollars(b)
    decreases |a|
  {
    if |a| == 0 {
      assert a + b == b;
    } else {
      assert (a + b)[1..] == a[1..] + b;
      DollarsConcat(a[1..], b);
    }
  }

  lemma {:induction false} NoDollars(s: string)
    requires '$' !in s
    ensures Dollars(s) == 0
    decreases |s|
  {
    if |s| > 0 {
      assert '$' !in s[1..];
      NoDollars(s[1..]);
    }
  }

  /** Replacing a `$`-led piece by `$`-free text lowers the number of `$`. */
  lemma SpliceShrinks(pre: string, m: string, rep: string, post: string)
    requires '$' !in rep && |m| > 0 && m[0] == '$'
    ensures Dollars(pre + rep + post) < Dollars(pre + m + post)
  {
    NoDollars(rep);
    DollarsConcat(pre + rep, post);
    DollarsConcat(pre, rep);
    DollarsConcat(pre + m, post);
    DollarsConcat(pre, m);
  }

  lemma ThreePieces(s: string, i: nat, j: nat)
    requires i <= j <= |s|
    ensures s == s[..i] + s[i..j] + s[j..]
  {
  }

  /** With plain captures each turn removes a `$`, so the loop terminates. */
  lemma StepShrinks(args: seq<string>, s: string)
    requires PlainArgs(args) && First(s).Some?
    ensures Dollars(Step(args, s)) < Dollars(s)
  {
    var i := First(s).value;
    var e := MatchEnd(s, i);
    PlaceholderIsPlain(args, s, i);
    ThreePieces(s, i, e);
    SpliceShrinks(s[..i], s[i..e], Placeholder(args, s, i), s[e..]);
  }

  /** `expand` on a string: the `do ... while` loop, iterated until `exec` finds no
      placeholder (see `ExpandLeavesNoPlaceholder`). */
  function ExpandStr(args: seq<string>, s: string): (r: string)
    requires PlainArgs(args)
    ensures First(r).None?
    ensures First(s).None? ==> r == s
    decreases Dollars(s)
  {
    if First(s).None? then s
    else
      StepShrinks(args, s);
      ExpandStr(args, Step(args, s))
  }

  /** No `$arg<digits>` survives `expand`. */
  lemma ExpandLeavesNoPlaceholder(args: seq<string>, s: string)
    requires PlainArgs(args)
    ensures NoPlaceholder(ExpandStr(args, s))
  {
    FirstIsLeftmost(ExpandStr(args, s));
  }

  /** A string without `$arg<digits>` comes back unchanged. */
  lemma NoPlaceholderUnchanged(args: seq<string>, s: string)
    requires PlainArgs(args) && NoPlaceholder(s)
    ensures ExpandStr(args, s) == s
  {
    FirstIsLeftmost(s);
  }

  lemma ExpandOneTurn(args: seq<string>, s: string)
    requires PlainArgs(args) && First(s).Some?
    ensures ExpandStr(args, s) == ExpandStr(args, Step(args, s))
  {
  }

  /** `obj.replace(match[0], args[parseInt(match[1]) - 1])` for the match `exec`
      found at `i`. */
  method ReplaceMatch(args: seq<string>, s: string, i: nat) returns (r: string)
    requires First(s) == Some(i)
    ensures r == Step(args, s)
  {
    var matched := s[i..MatchEnd(s, i)];
    ReplaceIsStep(args, s);
    r := ReplaceFirst(s, matched, Placeholder(args, s, i));
  }

  /** The `do ... while` loop of `expand`, as written: one `exec` and one `replace`
      per turn. */
  method ExpandString(args: seq<string>, s: string) returns (r: string)
    requires PlainArgs(args)
    ensures r == ExpandStr(args, s)
  {
    r := s;
    while true
      invariant ExpandStr(args, r) == ExpandStr(args, s)
      decreases Dollars(r)
    {
      var found := First(r);
      if found.None? {
        break;
      }
      StepShrinks(args, r);
      ExpandOneTurn(args, r);
      r := ReplaceMatch(args, r, found.value);
    }
  }

  /** Every `$` of `s` begins a placeholder. */
  predicate OnlyPlaceholderDollars(s: string) {
    forall j :: 0 <= j < |s| && s[j] == '$' ==> StartsAt(s, j)
  }

  /** The independent reading of `expand` on a string: a single left-to-right pass
      that replaces each `$argN` occurrence by the N-th capture. */
  function Subst(args: seq<string>, s: string): string
    decreases |s|
  {
    if |s| == 0 then ""
    else if StartsAt(s, 0) then Placeholder(args, s, 0) + Subst(args, s[MatchEnd(s, 0)..])
    else [s[0]] + Subst(args, s[1..])
  }

  lemma {:induction false} DigitsAfterPrefix(a: string, t: string, j: nat)
    requires j <= |t|
    ensures DigitsFrom(a + t, |a| + j) == DigitsFrom(t, j)
    decreases |t| - j
  {
    if j < |t| {
      assert (a + t)[|a| + j] == t[j];
      DigitsAfterPrefix(a, t, j + 1);
    }
  }

  lemma {:induction false} FirstFromAfterPrefix(a: string, t: string, k: nat)
    requires k <= |t|
    ensures FirstFrom(t, k).None? ==> FirstFrom(a + t, |a| + k).None?
    ensures FirstFrom(t, k).Some? ==> FirstFrom(a + t, |a| + k) == Some(|a| + FirstFrom(t, k).value)
    decreases |t| - k
  {
    if k < |t| {
      assert StartsAt(a + t, |a| + k) <==> StartsAt(t, k) by {
        if k + 5 <= |t| {
          assert (a + t)[|a| + k..|a| + k + 5] == t[k..k + 5];
        }
      }
      FirstFromAfterPrefix(a, t, k + 1);
    }
  }

  lemma {:induction false} FirstFromInPlainPrefix(a: string, t: string, k: nat)
    requires '$' !in a && k <= |a|
    ensures FirstFrom(a + t, k) == FirstFrom(a + t, |a|)
    decreases |a| - k
  {
    if k < |a| {
      assert (a + t)[k] == a[k];
      FirstFromInPlainPrefix(a, t, k + 1);
    }
  }

  /** Text without `$` in front of a template shifts the first placeholder. */
  lemma FirstAfterPlainPrefix(a: string, t: string)
    requires '$' !in a
    ensures First(t).None? ==> First(a + t).None?
    ensures First(t).Some? ==> First(a + t) == Some(|a| + First(t).value)
  {
    FirstFromInPlainPrefix(a, t, 0);
    FirstFromAfterPrefix(a, t, 0);
  }

  lemma SpliceAfterPrefix(a: string, t: string, i: nat, e: nat, p: string)
    requires i <= e <= |t|
    ensures (a + t)[..|a| + i] + p + (a + t)[|a| + e..] == a + (t[..i] + p + t[e..])
  {
    assert (a + t)[..|a| + i] == a + t[..i];
    assert (a + t)[|a| + e..] == t[e..];
  }

  /** Text without `$` in front of a template is left alone by one turn. */
  lemma StepAfterPlainPrefix(args: seq<string>, a: string, t: string)
    requires '$' !in a && First(t).Some?
    ensures First(a + t).Some?
    ensures Step(args, a + t) == a + Step(args, t)
  {
    FirstAfterPlainPrefix(a, t);
    var i := First(t).value;
    DigitsAfterPrefix(a, t, i + 4);
    assert (a + t)[|a| + i + 4..] == t[i + 4..];
    assert Placeholder(args, a + t, |a| + i) == Placeholder(args, t, i);
    SpliceAfterPrefix(a, t, i, MatchEnd(t, i), Placeholder(args, t, i));
  }

  /** Text without `$` in front of a template passes through `expand` unchanged. */
  lemma {:induction false} ExpandAfterPlainPrefix(args: seq<string>, a: string, t: string)
    requires PlainArgs(args) && '$' !in a
    ensures ExpandStr(args, a + t) == a + ExpandStr(args, t)
    decreases Dollars(t)
  {
    FirstAfterPlainPrefix(a, t);
    if First(t).Some? {
      StepAfterPlainPrefix(args, a, t);
      ExpandOneTurn(args, a + t);
      ExpandOneTurn(args, t);
      StepShrinks(args, t);
      ExpandAfterPlainPrefix(args, a, Step(args, t));
    }
  }

  lemma SuffixKeepsPlaceholderDollars(s: string, k: nat)
    requires k <= |s| && OnlyPlaceholderDollars(s)
    ensures OnlyPlaceholderDollars(s[k..])
  {
    forall j | 0 <= j < |s[k..]| && s[k..][j] == '$' ensures StartsAt(s[k..], j) {
      assert StartsAt(s, k + j);
    }
  }

  /** When no stray `$` precedes a placeholder, the repeated first-match rewriting of
      `expand` is the single-pass substitution: every `$argN` is replaced by the
      N-th capture and nothing else changes. */
  lemma {:induction false} ExpandIsSubst(args: seq<string>, s: string)
    requires PlainArgs(args) && OnlyPlaceholderDollars(s)
    ensures ExpandStr(args, s) == Subst(args, s)
    decreases |s|
  {
    if |s| == 0 {
    } else if StartsAt(s, 0) {
      var e := MatchEnd(s, 0);
      var rep := Placeholder(args, s, 0);
      PlaceholderIsPlain(args, s, 0);
      assert First(s) == Some(0);
      assert Step(args, s) == rep + s[e..];
      ExpandOneTurn(args, s);
      ExpandAfterPlainPrefix(args, rep, s[e..]);
      SuffixKeepsPlaceholderDollars(s, e);
      ExpandIsSubst(args, s[e..]);
    } else {
      assert s[0] != '$';
      assert s == [s[0]] + s[1..];
      ExpandAfterPlainPrefix(args, [s[0]], s[1..]);
      SuffixKeepsPlaceholderDollars(s, 1);
      ExpandIsSubst(args, s[1..]);
    }
  }
}
