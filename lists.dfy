/** First-match search and filtered mapping over sequences, the two loop shapes the wrapper repeats. */
module Lists {
  import opened Wrappers

  /** The index of the first element satisfying `p`: what `for x in s: if p(x): return x` stops at. */
  function FindFirst<T>(s: seq<T>, p: T -> bool): (r: Option<nat>)
    ensures r.Some? ==> r.value < |s| && p(s[r.value])
    ensures r.Some? ==> forall j :: 0 <= j < r.value ==> !p(s[j])
    ensures r.None? <==> forall j :: 0 <= j < |s| ==> !p(s[j])
    decreases |s|
  {
    if s == [] then None
    else if p(s[0]) then Some(0)
    else match FindFirst(s[1..], p)
      case None => None
      case Some(k) => Some(k + 1)
  }

  /** The index of the first element satisfying `p` is what `FindFirst` finds. */
  lemma {:induction false} FindFirstIs<T>(s: seq<T>, p: T -> bool, i: nat)
    requires i < |s| && p(s[i])
    requires forall j :: 0 <= j < i ==> !p(s[j])
    ensures FindFirst(s, p) == Some(i)
    decreases i
  {
    if i > 0 {
      assert !p(s[0]);
      forall j | 0 <= j < i - 1 ensures !p(s[1..][j]) {
        assert s[1..][j] == s[j + 1];
      }
      FindFirstIs(s[1..], p, i - 1);
    }
  }

  function OptionToSeq<U>(o: Option<U>): seq<U> {
    if o.Some? then [o.value] else []
  }

  /** The results of `f` over `s` that are not None, in the order of `s`. */
  function FilterMap<T, U>(s: seq<T>, f: T -> Option<U>): seq<U>
    decreases |s|
  {
    if s == [] then [] else FilterMap(s[..|s| - 1], f) + OptionToSeq(f(s[|s| - 1]))
  }

  /** The append loop `for x in s: y = f(x); if y is not None: out.append(y)`. */
  method CollectResults<T, U>(s: seq<T>, f: T -> Option<U>) returns (out: seq<U>)
    ensures out == FilterMap(s, f)
  {
    out := [];
    var i := 0;
    while i < |s|
      invariant 0 <= i <= |s|
      invariant out == FilterMap(s[..i], f)
    {
      var y := f(s[i]);
      if y.Some? {
        out := out + [y.value];
      }
      assert s[..i + 1][..i] == s[..i];
      i := i + 1;
    }
    assert s[..|s|] == s;
  }

  /** A value survives exactly when some element maps to it. */
  lemma {:induction false} FilterMapMembers<T, U>(s: seq<T>, f: T -> Option<U>, u: U)
    ensures u in FilterMap(s, f) <==> exists x :: x in s && f(x) == Some(u)
    decreases |s|
  {
    if s != [] {
      var s' := s[..|s| - 1];
      FilterMapMembers(s', f, u);
      assert s == s' + [s[|s| - 1]];
      if u in FilterMap(s', f) {
        var x :| x in s' && f(x) == Some(u);
        assert x in s;
      }
      if exists x :: x in s && f(x) == Some(u) {
        var x :| x in s && f(x) == Some(u);
        if x in s' {
        } else {
          assert x == s[|s| - 1];
        }
      }
    }
  }

  /** Filtering never adds elements. */
  lemma {:induction false} FilterMapLength<T, U>(s: seq<T>, f: T -> Option<U>)
    ensures |FilterMap(s, f)| <= |s|
    decreases |s|
  {
    if s != [] {
      FilterMapLength(s[..|s| - 1], f);
    }
  }
}
