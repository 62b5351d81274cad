/** String helpers standing for the Python built-ins the generators use. */
module Text {

  /** `sep.join(parts)`. */
  function Join(parts: seq<string>, sep: string): string {
    if |parts| == 0 then ""
    else if |parts| == 1 then parts[0]
    else parts[0] + sep + Join(parts[1..], sep)
  }

  /** `sub in s` for strings. */
  predicate Contains(s: string, sub: string) {
    ContainsFrom(s, sub, 0)
  }

  /** `sub` occurs in `s` at some position at or after `i`. */
  predicate ContainsFrom(s: string, sub: string, i: nat)
    decreases |s| - i
  {
    i + |sub| <= |s| && (s[i..i + |sub|] == sub || ContainsFrom(s, sub, i + 1))
  }

  /** Where the first element equal to `x` sits. */
  function FirstIndex<T(==)>(w: seq<T>, x: T): (i: nat)
    requires x in w
    ensures i < |w| && w[i] == x && x !in w[..i]
  {
    if w[0] == x then 0
    else
      var j := FirstIndex(w[1..], x);
      assert w[..j + 1] == [w[0]] + w[1..][..j];
      j + 1
  }

  /** Python's `list.remove(x)`: drop the first element equal to `x`, keeping the rest in order. */
  function RemoveFirst<T(==)>(w: seq<T>, x: T): (r: seq<T>)
    requires x in w
    ensures |r| == |w| - 1
    ensures r == w[..FirstIndex(w, x)] + w[FirstIndex(w, x) + 1..]
  {
    if w[0] == x then w[1..]
    else
      var rest := RemoveFirst(w[1..], x);
      var j := FirstIndex(w[1..], x);
      assert w[..j + 1] == [w[0]] + w[1..][..j];
      assert w[j + 2..] == w[1..][j + 1..];
      [w[0]] + rest
  }

  /** `list.remove(x)` takes away one copy of `x` and nothing else. */
  lemma {:induction false} RemoveFirstOneCopy<T>(w: seq<T>, x: T)
    requires x in w
    ensures multiset(RemoveFirst(w, x)) == multiset(w) - multiset{x}
  {
    assert w == [w[0]] + w[1..];
    if w[0] != x {
      RemoveFirstOneCopy(w[1..], x);
    }
  }

  /** `set(s)`. */
  function ToSet<T>(s: seq<T>): set<T> {
    set x | x in s
  }

  predicate Distinct<T(==)>(s: seq<T>) {
    forall i, j :: 0 <= i < j < |s| ==> s[i] != s[j]
  }

  /** Two lists without repeats and without a common element join without a repeat. */
  lemma {:induction false} DistinctConcat<T>(a: seq<T>, b: seq<T>)
    requires Distinct(a) && Distinct(b)
    requires forall i, j :: 0 <= i < |a| && 0 <= j < |b| ==> a[i] != b[j]
    ensures Distinct(a + b)
  {
    forall i, j | 0 <= i < j < |a + b| ensures (a + b)[i] != (a + b)[j] {
      if j < |a| {
        assert (a + b)[i] == a[i] && (a + b)[j] == a[j];
      } else if i < |a| {
        assert (a + b)[i] == a[i] && (a + b)[j] == b[j - |a|];
      } else {
        assert (a + b)[i] == b[i - |a|] && (a + b)[j] == b[j - |a|];
      }
    }
  }

  /** A property every element of two lists has holds across their concatenation. */
  lemma {:induction false} AllConcat<T>(a: seq<T>, b: seq<T>, P: T -> bool)
    requires forall i :: 0 <= i < |a| ==> P(a[i])
    requires forall i :: 0 <= i < |b| ==> P(b[i])
    ensures forall i :: 0 <= i < |a + b| ==> P((a + b)[i])
  {
    forall i | 0 <= i < |a + b| ensures P((a + b)[i]) {
      if i < |a| {
        assert (a + b)[i] == a[i];
      } else {
        assert (a + b)[i] == b[i - |a|];
      }
    }
  }

  predicate IsDigit(c: char) { '0' <= c <= '9' }

  predicate AllDigits(s: string) {
    forall i :: 0 <= i < |s| ==> IsDigit(s[i])
  }

  function DigitChar(d: nat): (c: char)
    requires d < 10
    ensures IsDigit(c)
  {
    ['0', '1', '2', '3', '4', '5', '6', '7', '8', '9'][d]
  }

  function DigitValue(c: char): (d: nat)
    requires IsDigit(c)
    ensures d < 10
  {
    (c - '0') as nat
  }

  /** The value of a run of decimal digits, most significant first. */
  function DigitsValue(s: string): nat
    requires AllDigits(s)
  {
    if s == [] then 0 else 10 * DigitsValue(s[..|s| - 1]) + DigitValue(s[|s| - 1])
  }

  /** `str(n)` for a non-negative integer: digits without a leading zero, as Python prints them. */
  function NatToString(n: nat): (r: string)
    ensures |r| >= 1 && AllDigits(r)
    ensures |r| == 1 <==> n < 10
    ensures r[0] == '0' <==> n == 0
    ensures |r| > 1 ==> r[0] != '0'
  {
    if n < 10 then [DigitChar(n)] else NatToString(n / 10) + [DigitChar(n % 10)]
  }

  /** Reading back what `NatToString` printed gives the number again. */
  lemma {:induction false} NatToStringRoundTrip(n: nat)
    ensures DigitsValue(NatToString(n)) == n
  {
    var s := NatToString(n);
    if n < 10 {
      assert DigitValue(DigitChar(n)) == n;
    } else {
      NatToStringRoundTrip(n / 10);
      assert s[..|s| - 1] == NatToString(n / 10);
      assert DigitValue(DigitChar(n % 10)) == n % 10;
    }
  }

  /** A string in which the first character of `sub` never occurs does not contain `sub`. */
  lemma {:induction false} NotContainsWithoutFirstChar(s: string, sub: string, i: nat)
    requires |sub| > 0
    requires forall j :: i <= j < |s| ==> s[j] != sub[0]
    ensures !ContainsFrom(s, sub, i)
    decreases |s| - i
  {
    if i + |sub| <= |s| {
      assert s[i..i + |sub|][0] == s[i];
      NotContainsWithoutFirstChar(s, sub, i + 1);
    }
  }

  /** An occurrence at position `k` is found by a search starting at or before `k`. */
  lemma {:induction false} ContainsAt(s: string, sub: string, i: nat, k: nat)
    requires i <= k && k + |sub| <= |s| && s[k..k + |sub|] == sub
    ensures ContainsFrom(s, sub, i)
    decreases k - i
  {
    if i < k {
      ContainsAt(s, sub, i + 1, k);
    }
  }

  // ------------------------------------------ positions in assembled lists

  /** `x` blocks of `b` lines take no more room than `y` blocks when `x <= y`. */
  lemma MulMonotone(x: nat, y: nat, b: nat)
    requires x <= y
    ensures x * b <= y * b
  {
  }

  /** A common prefix cancels. */
  lemma PrefixCancels(p: string, x: string, y: string)
    ensures p + x == p + y ==> x == y
  {
    if p + x == p + y {
      assert x == (p + x)[|p|..];
      assert y == (p + y)[|p|..];
    }
  }

  /** A common suffix cancels. */
  lemma SuffixCancels(x: string, y: string, q: string)
    ensures x + q == y + q ==> x == y
  {
    if x + q == y + q {
      assert x == (x + q)[..|x|];
      assert y == (y + q)[..|y|];
    }
  }

  /** Indexing into the middle part of a three-part concatenation. */
  lemma IndexMiddle<T>(a: seq<T>, m: seq<T>, t: seq<T>, i: nat)
    requires i < |m|
    ensures |a| + i < |a + m + t| && (a + m + t)[|a| + i] == m[i]
  {
  }
}
