/**
 * The Python `str` built-ins the wrapper relies on, over `seq<char>`:
 * `lower`, `strip`, `in`, `split`, `join`, `replace`, `str(int)` and `int(str)`.
 * Case and whitespace are ASCII only (see README, "Left out").
 */
module PyText {
  import opened Wrappers

  // ---------------------------------------------------------------- case

  /** ASCII lower-casing of one character. */
  function LowerChar(c: char): char {
    if 'A' <= c <= 'Z' then (c as int - 'A' as int + 'a' as int) as char else c
  }

  /** `s.lower()`, restricted to ASCII letters. */
  function Lower(s: string): string {
    seq(|s|, i requires 0 <= i < |s| => LowerChar(s[i]))
  }

  // ---------------------------------------------------------- whitespace

  /** Python's whitespace among the ASCII characters: space, \t \n \v \f \r and \x1c-\x1f. */
  predicate IsSpace(c: char) {
    c == ' ' || (9 <= c as int <= 13) || (28 <= c as int <= 31)
  }

  /** `s.lstrip()`: a suffix of `s`. */
  function TrimStart(s: string): (r: string)
    ensures |r| <= |s| && r == s[|s| - |r|..]
    decreases |s|
  {
    if s != [] && IsSpace(s[0]) then TrimStart(s[1..]) else s
  }

  /** `s.rstrip()`: a prefix of `s`. */
  function TrimEnd(s: string): (r: string)
    ensures |r| <= |s| && r == s[..|r|]
    decreases |s|
  {
    if s != [] && IsSpace(s[|s| - 1]) then TrimEnd(s[..|s| - 1]) else s
  }

  /** `s.lstrip()` cuts whitespace only, and all of it. */
  lemma {:induction false} TrimStartSpec(s: string)
    ensures TrimStart(s) == [] || !IsSpace(TrimStart(s)[0])
    ensures forall k :: 0 <= k < |s| - |TrimStart(s)| ==> IsSpace(s[k])
    decreases |s|
  {
    if s != [] && IsSpace(s[0]) {
      var u := s[1..];
      TrimStartSpec(u);
      var t := TrimStart(u);
      assert TrimStart(s) == t;
      forall k | 1 <= k < |s| - |t| ensures IsSpace(s[k]) {
        assert s[k] == u[k - 1];
      }
    }
  }

  /** `s.rstrip()` cuts whitespace only, and all of it. */
  lemma {:induction false} TrimEndSpec(s: string)
    ensures TrimEnd(s) == [] || !IsSpace(TrimEnd(s)[|TrimEnd(s)| - 1])
    ensures forall k :: |TrimEnd(s)| <= k < |s| ==> IsSpace(s[k])
    decreases |s|
  {
    if s != [] && IsSpace(s[|s| - 1]) {
      var u := s[..|s| - 1];
      TrimEndSpec(u);
      var t := TrimEnd(u);
      assert TrimEnd(s) == t;
      forall k | |t| <= k < |s| - 1 ensures IsSpace(s[k]) {
        assert s[k] == u[k];
      }
    }
  }

  /** `s.strip()`. */
  function Strip(s: string): string {
    TrimEnd(TrimStart(s))
  }

  /** Trimming the end of a suffix `s[i..]` leaves a slice of `s`, followed only by whitespace. */
  lemma TrimEndOfSuffix(s: string, i: nat)
    requires i <= |s|
    ensures i + |TrimEnd(s[i..])| <= |s| && TrimEnd(s[i..]) == s[i..i + |TrimEnd(s[i..])|]
    ensures forall k :: i + |TrimEnd(s[i..])| <= k < |s| ==> IsSpace(s[k])
  {
    var t := s[i..];
    var r := TrimEnd(t);
    TrimEndSpec(t);
    assert r == t[..|r|];
    assert t[..|r|] == s[i..i + |r|];
    forall k | i + |r| <= k < |s| ensures IsSpace(s[k]) {
      assert s[k] == t[k - i];
    }
  }

  /** Stripping cuts only whitespace: the result is the slice `s[i..i + |Strip(s)|]`, and
      everything before and after it is whitespace. */
  lemma StripSlice(s: string) returns (i: nat)
    ensures i + |Strip(s)| <= |s| && Strip(s) == s[i..i + |Strip(s)|]
    ensures forall k :: 0 <= k < i ==> IsSpace(s[k])
    ensures forall k :: i + |Strip(s)| <= k < |s| ==> IsSpace(s[k])
  {
    var t := TrimStart(s);
    TrimStartSpec(s);
    i := |s| - |t|;
    assert t == s[i..];
    TrimEndOfSuffix(s, i);
  }

  /** A string that neither starts nor ends with whitespace is its own strip. */
  lemma StripUnchanged(s: string)
    requires s == [] || (!IsSpace(s[0]) && !IsSpace(s[|s| - 1]))
    ensures Strip(s) == s
  {
  }

  // ----------------------------------------------------------- substrings

  /** `pat` occurs in `s` starting at index `i`. */
  predicate OccursAt(s: string, pat: string, i: int) {
    0 <= i && i + |pat| <= |s| && s[i..i + |pat|] == pat
  }

  function IndexFrom(s: string, pat: string, from: nat): (r: Option<nat>)
    requires from <= |s|
    ensures r.Some? ==> from <= r.value && OccursAt(s, pat, r.value)
    ensures r.Some? ==> forall j :: from <= j < r.value ==> !OccursAt(s, pat, j)
    ensures r.None? ==> forall j :: from <= j ==> !OccursAt(s, pat, j)
    decreases |s| - from
  {
    if OccursAt(s, pat, from) then Some(from)
    else if from + |pat| >= |s| then None
    else IndexFrom(s, pat, from + 1)
  }

  /** `s.find(pat)`: the first occurrence, or None. */
  function IndexOf(s: string, pat: string): (r: Option<nat>)
    ensures r.Some? ==> OccursAt(s, pat, r.value)
    ensures r.Some? ==> forall j :: 0 <= j < r.value ==> !OccursAt(s, pat, j)
    ensures r.None? ==> forall j :: !OccursAt(s, pat, j)
  {
    IndexFrom(s, pat, 0)
  }

  /** Python's `pat in s`. */
  predicate Contains(s: string, pat: string) {
    IndexOf(s, pat).Some?
  }

  lemma OccursAtChar(s: string, c: char, j: int)
    ensures OccursAt(s, [c], j) <==> 0 <= j < |s| && s[j] == c
  {
    if 0 <= j < |s| {
      assert s[j..j + 1] == [s[j]];
    }
  }

  /** An occurrence inside a prefix is an occurrence in the whole string. */
  lemma OccursInPrefix(s: string, k: nat, pat: string, j: int)
    requires k <= |s| && OccursAt(s[..k], pat, j)
    ensures OccursAt(s, pat, j) && j + |pat| <= k
  {
    assert s[..k][j..j + |pat|] == s[j..j + |pat|];
  }

  /** An occurrence inside a suffix is an occurrence in the whole string. */
  lemma OccursInSuffix(s: string, k: nat, pat: string, j: int)
    requires k <= |s| && OccursAt(s[k..], pat, j)
    ensures OccursAt(s, pat, j + k)
  {
    assert s[k..][j..j + |pat|] == s[j + k..j + k + |pat|];
  }

  /** Containment in a slice implies containment in the string. */
  lemma ContainsInSlice(s: string, i: nat, j: nat, pat: string)
    requires i <= j <= |s| && Contains(s[i..j], pat)
    ensures Contains(s, pat)
  {
    var t := s[i..j];
    var k := IndexOf(t, pat).value;
    assert t == s[i..][..j - i];
    OccursInPrefix(s[i..], j - i, pat, k);
    OccursInSuffix(s, i, pat, k);
  }

  /** The text after the first occurrence of `pat`: `s.split(pat, 1)[1]`. */
  function AfterFirst(s: string, pat: string): string
    requires Contains(s, pat)
  {
    s[IndexOf(s, pat).value + |pat|..]
  }

  // ------------------------------------------------------- split and join

  /** `sep.join(parts)`. */
  function Join(parts: seq<string>, sep: string): string
    decreases |parts|
  {
    if |parts| == 0 then ""
    else if |parts| == 1 then parts[0]
    else parts[0] + sep + Join(parts[1..], sep)
  }

  /** `s.split(sep)` for a non-empty separator: cut at every occurrence, left to right. */
  function Split(s: string, sep: string): (parts: seq<string>)
    requires sep != []
    ensures parts != []
    decreases |s|
  {
    match IndexOf(s, sep)
    case None => [s]
    case Some(i) => [s[..i]] + Split(s[i + |sep|..], sep)
  }

  lemma JoinCons(p: string, rest: seq<string>, sep: string)
    requires rest != []
    ensures Join([p] + rest, sep) == p + sep + Join(rest, sep)
  {
    assert ([p] + rest)[1..] == rest;
  }

  lemma {:induction false} JoinSnoc(ps: seq<string>, q: string, sep: string)
    requires ps != []
    ensures Join(ps + [q], sep) == Join(ps, sep) + sep + q
    decreases |ps|
  {
    if |ps| == 1 {
      assert ps + [q] == [ps[0]] + [q];
      JoinCons(ps[0], [q], sep);
    } else {
      JoinCons(ps[0], ps[1..] + [q], sep);
      assert [ps[0]] + (ps[1..] + [q]) == ps + [q];
      JoinSnoc(ps[1..], q, sep);
      JoinCons(ps[0], ps[1..], sep);
      assert [ps[0]] + ps[1..] == ps;
    }
  }

  /** Splitting loses nothing: joining the pieces with the separator gives `s` back. */
  lemma {:induction false} SplitJoin(s: string, sep: string)
    requires sep != []
    ensures Join(Split(s, sep), sep) == s
    decreases |s|
  {
    match IndexOf(s, sep)
    case None =>
    case Some(i) =>
      var rest := s[i + |sep|..];
      SplitJoin(rest, sep);
      JoinCons(s[..i], Split(rest, sep), sep);
      assert s[i..i + |sep|] == sep;
      assert s == s[..i] + s[i..i + |sep|] + rest;
  }

  /** No piece of a split contains the separator. */
  lemma {:induction false} SplitPiecesFree(s: string, sep: string)
    requires sep != []
    ensures forall k :: 0 <= k < |Split(s, sep)| ==> !Contains(Split(s, sep)[k], sep)
    decreases |s|
  {
    match IndexOf(s, sep)
    case None =>
    case Some(i) =>
      var rest := s[i + |sep|..];
      SplitPiecesFree(rest, sep);
      if Contains(s[..i], sep) {
        var j := IndexOf(s[..i], sep).value;
        OccursInPrefix(s, i, sep, j);
        assert false;
      }
      assert Split(s, sep) == [s[..i]] + Split(rest, sep);
  }

  /** A string without the separator splits into itself alone. */
  lemma SplitAbsent(s: string, sep: string)
    requires sep != [] && !Contains(s, sep)
    ensures Split(s, sep) == [s]
  {
  }

  /** The first `c` in `a + [c] + b` is the first one in `a`, or else the one after `a`. */
  lemma IndexOfCharConcat(a: string, c: char, b: string)
    ensures IndexOf(a + [c] + b, [c]) == if IndexOf(a, [c]).Some? then IndexOf(a, [c]) else Some(|a|)
  {
    var s := a + [c] + b;
    var bound := if IndexOf(a, [c]).Some? then IndexOf(a, [c]).value else |a|;
    forall j | 0 <= j < bound ensures !OccursAt(s, [c], j) {
      OccursAtChar(a, c, j);
      OccursAtChar(s, c, j);
    }
    OccursAtChar(a, c, bound);
    OccursAtChar(s, c, bound);
  }

  /** The split of a string whose first separator is at `i`. */
  lemma SplitAt(s: string, c: char, i: nat)
    requires IndexOf(s, [c]) == Some(i)
    ensures Split(s, [c]) == [s[..i]] + Split(s[i + 1..], [c])
  {
  }

  /** The first piece of `a + [c] + b` when `a` holds no `c`: `a` itself. */
  lemma SplitCharConcatFirst(a: string, c: char, b: string)
    requires IndexOf(a, [c]).None?
    ensures Split(a + [c] + b, [c]) == Split(a, [c]) + Split(b, [c])
  {
    var s := a + [c] + b;
    IndexOfCharConcat(a, c, b);
    SplitAt(s, c, |a|);
    assert s[..|a|] == a;
    assert s[|a| + 1..] == b;
  }

  /** When `a` holds a `c` at `i`, splitting `a + [c] + b` starts with `a`'s first piece. */
  lemma SplitCharConcatStep(a: string, c: char, b: string, i: nat)
    requires IndexOf(a, [c]) == Some(i)
    ensures Split(a + [c] + b, [c]) == [a[..i]] + Split(a[i + 1..] + [c] + b, [c])
  {
    var s := a + [c] + b;
    IndexOfCharConcat(a, c, b);
    assert s[..i] == a[..i];
    assert s[i + 1..] == a[i + 1..] + [c] + b;
    SplitAt(s, c, i);
  }

  /** Splitting on one character distributes over a concatenation around that character. */
  lemma {:induction false} SplitCharConcat(a: string, c: char, b: string)
    ensures Split(a + [c] + b, [c]) == Split(a, [c]) + Split(b, [c])
    decreases |a|
  {
    match IndexOf(a, [c])
    case None =>
      SplitCharConcatFirst(a, c, b);
    case Some(i) =>
      var tail := a[i + 1..];
      SplitCharConcatStep(a, c, b, i);
      SplitAt(a, c, i);
      SplitCharConcat(tail, c, b);
      AppendAssoc([a[..i]], Split(tail, [c]), Split(b, [c]));
  }

  lemma AppendAssoc<T>(p: seq<T>, q: seq<T>, r: seq<T>)
    ensures p + (q + r) == (p + q) + r
  {
  }

  /** Splitting two separator-free fields onto the end of `a` adds exactly those two pieces. */
  lemma SplitTwoFields(a: string, c: char, p: string, b: string)
    requires !Contains(p, [c]) && !Contains(b, [c])
    ensures Split(a + [c] + p + [c] + b, [c]) == Split(a, [c]) + [p, b]
  {
    assert a + [c] + p + [c] + b == a + [c] + (p + [c] + b);
    SplitCharConcat(a, c, p + [c] + b);
    SplitCharConcat(p, c, b);
    SplitAbsent(p, [c]);
    SplitAbsent(b, [c]);
  }

  /** Joining at least three pieces puts the last two after the join of the others. */
  lemma JoinLastTwo(ps: seq<string>, sep: string)
    requires |ps| >= 3
    ensures Join(ps, sep) == Join(ps[..|ps| - 2], sep) + sep + ps[|ps| - 2] + sep + ps[|ps| - 1]
  {
    var m := |ps|;
    var init := ps[..m - 1];
    assert ps == init + [ps[m - 1]];
    JoinSnoc(init, ps[m - 1], sep);
    assert init == ps[..m - 2] + [ps[m - 2]];
    JoinSnoc(ps[..m - 2], ps[m - 2], sep);
  }

  /** What occurs in the stripped string occurs in the string. */
  lemma ContainsInStrip(s: string, pat: string)
    requires Contains(Strip(s), pat)
    ensures Contains(s, pat)
  {
    var i := StripSlice(s);
    ContainsInSlice(s, i, i + |Strip(s)|, pat);
  }

  /** The last piece of `s.split(sep)`. */
  function AfterLast(s: string, sep: string): string
    requires sep != []
  {
    var parts := Split(s, sep);
    parts[|parts| - 1]
  }

  /** `s.split(sep)[-1]` is a suffix of `s`. */
  lemma {:induction false} AfterLastSuffix(s: string, sep: string)
    requires sep != []
    ensures |AfterLast(s, sep)| <= |s| && AfterLast(s, sep) == s[|s| - |AfterLast(s, sep)|..]
    decreases |s|
  {
    match IndexOf(s, sep)
    case None =>
      assert Split(s, sep) == [s];
    case Some(i) =>
      var rest := s[i + |sep|..];
      AfterLastSuffix(rest, sep);
      assert AfterLast(s, sep) == AfterLast(rest, sep);
      var r := AfterLast(rest, sep);
      assert rest[|rest| - |r|..] == s[|s| - |r|..];
  }

  /** A tail of `s[i + |sep|..]` preceded there by `sep` (or equal to it, when `sep` occurs
      at `i`) is preceded by `sep` in `s`. */
  lemma OccursBeforeTail(s: string, sep: string, i: nat, r: string)
    requires OccursAt(s, sep, i)
    requires |r| <= |s| - i - |sep|
    requires |r| < |s| - i - |sep| ==> OccursAt(s[i + |sep|..], sep, |s| - i - |sep| - |r| - |sep|)
    ensures OccursAt(s, sep, |s| - |r| - |sep|)
  {
    var k := i + |sep|;
    if |r| < |s| - k {
      var j := |s| - k - |r| - |sep|;
      OccursInSuffix(s, k, sep, j);
      assert j + k == |s| - |r| - |sep|;
    }
  }

  /** When `s.split(sep)[-1]` is not all of `s`, a separator ends right before it. */
  lemma {:induction false} AfterLastPreceded(s: string, sep: string)
    requires sep != []
    ensures |AfterLast(s, sep)| < |s| ==> OccursAt(s, sep, |s| - |AfterLast(s, sep)| - |sep|)
    decreases |s|
  {
    match IndexOf(s, sep)
    case None =>
      assert Split(s, sep) == [s];
      assert AfterLast(s, sep) == s;
    case Some(i) =>
      var rest := s[i + |sep|..];
      AfterLastPreceded(rest, sep);
      AfterLastSuffix(rest, sep);
      assert AfterLast(s, sep) == AfterLast(rest, sep);
      OccursBeforeTail(s, sep, i, AfterLast(rest, sep));
  }

  /** `s.split(sep)[-1]` is the text after the final separator: a suffix of `s`
      free of `sep`, preceded by `sep` whenever it is not all of `s`. */
  lemma AfterLastIsTail(s: string, sep: string)
    requires sep != []
    ensures |AfterLast(s, sep)| <= |s|
    ensures AfterLast(s, sep) == s[|s| - |AfterLast(s, sep)|..]
    ensures !Contains(AfterLast(s, sep), sep)
    ensures |AfterLast(s, sep)| < |s| ==>
              OccursAt(s, sep, |s| - |AfterLast(s, sep)| - |sep|)
  {
    SplitPiecesFree(s, sep);
    AfterLastSuffix(s, sep);
    AfterLastPreceded(s, sep);
  }

  /** `s.replace(target, replacement)` for a non-empty `target`. */
  function Replace(s: string, target: string, replacement: string): string
    requires target != []
  {
    Join(Split(s, target), replacement)
  }

  // --------------------------------------------------------------- numbers

  predicate IsDigit(c: char) {
    '0' <= c <= '9'
  }

  predicate AllDigits(s: string) {
    forall i :: 0 <= i < |s| ==> IsDigit(s[i])
  }

  function DigitValue(c: char): nat
    requires IsDigit(c)
  {
    c as int - '0' as int
  }

  function DigitChar(d: nat): (c: char)
    requires d < 10
    ensures IsDigit(c) && DigitValue(c) == d
  {
    ('0' as int + d) as char
  }

  function DigitsValue(s: string): nat
    requires AllDigits(s)
    decreases |s|
  {
    if s == [] then 0 else DigitsValue(s[..|s| - 1]) * 10 + DigitValue(s[|s| - 1])
  }

  /** `str(n)` for a non-negative int. */
  function NatToString(n: nat): (r: string)
    ensures r != [] && AllDigits(r)
    decreases n
  {
    if n < 10 then [DigitChar(n)] else NatToString(n / 10) + [DigitChar(n % 10)]
  }

  /** `str(i)` for a Python int. */
  function IntToString(i: int): string {
    if i < 0 then "-" + NatToString(-i) else NatToString(i)
  }

  /** `int(s)`: surrounding whitespace, an optional sign, then one or more decimal digits. */
  function ParseInt(s: string): Option<int> {
    var t := Strip(s);
    if |t| >= 2 && (t[0] == '-' || t[0] == '+') && AllDigits(t[1..]) then
      Some(if t[0] == '-' then -(DigitsValue(t[1..]) as int) else DigitsValue(t[1..]))
    else if t != [] && AllDigits(t) then
      Some(DigitsValue(t))
    else
      None
  }

  lemma {:induction false} NatToStringValue(n: nat)
    ensures DigitsValue(NatToString(n)) == n
    decreases n
  {
    if n >= 10 {
      NatToStringValue(n / 10);
      var s := NatToString(n);
      assert s[..|s| - 1] == NatToString(n / 10);
    }
  }

  /** Rendering an int with `str` and reading it back with `int` is the identity. */
  lemma ParseIntRoundTrip(i: int)
    ensures ParseInt(IntToString(i)) == Some(i)
  {
    var t := IntToString(i);
    var n := if i < 0 then -i else i;
    var digits := NatToString(n);
    NatToStringValue(n);
    assert !IsSpace(t[0]) && !IsSpace(t[|t| - 1]);
    StripUnchanged(t);
    assert Strip(t) == t;
    if i < 0 {
      assert t[0] == '-' && t[1..] == digits;
    } else {
      assert t == digits && t[0] != '-' && t[0] != '+';
    }
  }
}
