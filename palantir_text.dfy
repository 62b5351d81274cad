/**
  The pure string helpers of palantir/palantir.py: the colour check
  `is_hex_color`, the string part of `cleaned_path`, and the Python 2
  `int()` conversion that `cell_updater` applies to an image index.
 */
module PalantirText {
  import opened Wrappers
  import opened Text

  predicate IsHexDigit(c: char) {
    ('0' <= c <= '9') || ('a' <= c <= 'f') || ('A' <= c <= 'F')
  }

  /** What Python's `$` accepts at the end of a pattern: the end of the string or a final newline. */
  predicate AtEnd(t: string) {
    t == "" || t == "\n"
  }

  /**
    Whether `(?:[0-9a-fA-F]{1,2}){k}$` matches at the start of `t`: each of
    the `k` groups takes one or two hex digits, and the match is found by
    trying both choices for every group.
   */
  predicate GroupsThenEnd(t: string, k: nat)
    decreases k
  {
    if k == 0 then AtEnd(t)
    else
      || (|t| >= 1 && IsHexDigit(t[0]) && GroupsThenEnd(t[1..], k - 1))
      || (|t| >= 2 && IsHexDigit(t[0]) && IsHexDigit(t[1]) && GroupsThenEnd(t[2..], k - 1))
  }

  /** `re.search(r'^#(?:[0-9a-fA-F]{1,2}){3}$', s)` succeeds. */
  predicate IsHexColor(s: string) {
    |s| >= 1 && s[0] == '#' && GroupsThenEnd(s[1..], 3)
  }

  /** The number of hex digits at the start of `t`. */
  function HexRun(t: string): (n: nat)
    ensures n <= |t|
    ensures forall i :: 0 <= i < n ==> IsHexDigit(t[i])
    ensures n < |t| ==> !IsHexDigit(t[n])
  {
    if t != [] && IsHexDigit(t[0]) then 1 + HexRun(t[1..]) else 0
  }

  /** The backtracking matcher accepts exactly a run of k to 2k hex digits followed by the end. */
  lemma {:induction false} GroupsThenEndIff(t: string, k: nat)
    ensures GroupsThenEnd(t, k) <==> k <= HexRun(t) <= 2 * k && AtEnd(t[HexRun(t)..])
    decreases k
  {
    if k == 0 {
      if AtEnd(t) {
        assert t == "" || !IsHexDigit(t[0]);
      }
    } else {
      if |t| >= 1 {
        GroupsThenEndIff(t[1..], k - 1);
        if IsHexDigit(t[0]) {
          assert HexRun(t) == 1 + HexRun(t[1..]);
          assert t[HexRun(t)..] == t[1..][HexRun(t[1..])..];
        }
      }
      if |t| >= 2 {
        GroupsThenEndIff(t[2..], k - 1);
        if IsHexDigit(t[0]) && IsHexDigit(t[1]) {
          assert t[1..][0] == t[1] && t[1..][1..] == t[2..];
          assert HexRun(t) == 2 + HexRun(t[2..]);
          assert t[HexRun(t)..] == t[2..][HexRun(t[2..])..];
        }
      }
    }
  }

  /**
    `is_hex_color` holds iff the string is `#`, then three to six hex digits
    in either case, then nothing or a single newline.
   */
  lemma IsHexColorIff(s: string)
    ensures IsHexColor(s) <==>
      |s| >= 1 && s[0] == '#' && 3 <= HexRun(s[1..]) <= 6 && AtEnd(s[1 + HexRun(s[1..])..])
  {
    if |s| >= 1 {
      GroupsThenEndIff(s[1..], 3);
      assert s[1..][HexRun(s[1..])..] == s[1 + HexRun(s[1..])..];
    }
  }

  /** Two digits per group: six hex digits make a colour. */
  lemma SixHexDigits(t: string)
    requires |t| == 6 && forall i :: 0 <= i < 6 ==> IsHexDigit(t[i])
    ensures IsHexColor("#" + t)
  {
    assert ("#" + t)[1..] == t;
    assert GroupsThenEnd(t[4..][2..], 0);
    assert t[2..][2..] == t[4..] && t[2..][2..][2..] == t[4..][2..];
    assert GroupsThenEnd(t[4..], 1);
    assert GroupsThenEnd(t[2..], 2);
  }

  /** `cleaned_path` without the file-system part: drop one trailing `/`, then one leading `=`. */
  function CleanedPath(path: string): (r: string)
  {
    var p := if |path| > 0 && path[|path| - 1] == '/' then path[..|path| - 1] else path;
    if |p| > 0 && p[0] == '=' then p[1..] else p
  }

  lemma CleanedPathStripsBoth(x: string)
    ensures CleanedPath("=" + x + "/") == x
  {
    var p := "=" + x + "/";
    assert p[..|p| - 1] == "=" + x;
    assert ("=" + x)[1..] == x;
  }

  /** A path is left alone exactly when it has neither a trailing `/` nor a leading `=`. */
  lemma CleanedPathFixed(x: string)
    ensures CleanedPath(x) == x <==> !(|x| > 0 && (x[|x| - 1] == '/' || x[0] == '='))
  {
  }

  /** `os.path.split(p)[1]`: what follows the last `/`. */
  function Basename(p: string): (r: string)
    ensures forall i :: 0 <= i < |r| ==> r[i] != '/'
    ensures |r| <= |p| && r == p[|p| - |r|..]
  {
    if p == [] || p[|p| - 1] == '/' then "" else Basename(p[..|p| - 1]) + [p[|p| - 1]]
  }

  /** The characters Python 2 `int()` skips around a number. */
  predicate IsSpace(c: char) {
    c == ' ' || c == '\t' || c == '\n' || c == '\r' || c == 11 as char || c == 12 as char
  }

  function TrimLeft(s: string): (r: string)
    ensures |r| <= |s|
    ensures |r| > 0 ==> !IsSpace(r[0])
  {
    if s != [] && IsSpace(s[0]) then TrimLeft(s[1..]) else s
  }

  function TrimRight(s: string): (r: string)
    ensures |r| <= |s|
    ensures |r| > 0 ==> !IsSpace(r[|r| - 1])
  {
    if s != [] && IsSpace(s[|s| - 1]) then TrimRight(s[..|s| - 1]) else s
  }

  /**
    Python 2 `int(s)` on a string: surrounding white space, an optional
    sign (which white space may follow), then one or more decimal digits;
    anything else raises ValueError, modelled as None.
   */
  function ParseInt(s: string): Option<int> {
    ParseTrimmed(TrimRight(TrimLeft(s)))
  }

  /** The text once trimmed: a sign, then white space and digits; or digits alone. */
  function ParseTrimmed(t: string): Option<int> {
    if |t| > 0 && (t[0] == '-' || t[0] == '+') then
      match ParseDigits(TrimLeft(t[1..]))
      case Some(v) => Some(if t[0] == '-' then -v else v)
      case None => None
    else ParseDigits(t)
  }

  /** One or more decimal digits and nothing else. */
  function ParseDigits(u: string): Option<int> {
    if |u| > 0 && AllDigits(u) then Some(DigitsValue(u) as int) else None
  }

  /** `int(str(n)) == n`. */
  lemma ParseIntRoundTrip(n: nat)
    ensures ParseInt(NatToString(n)) == Some(n as int)
  {
    NatToStringRoundTrip(n);
    ParseUnsigned(NatToString(n));
  }

  /** A run of digits reads as its decimal value. */
  lemma ParseUnsigned(d: string)
    requires |d| > 0 && AllDigits(d)
    ensures ParseInt(d) == Some(DigitsValue(d) as int)
  {
    NoLeadingSpace(d);
    NoTrailingSpace(d);
  }

  /** A minus sign followed by a run of digits reads as the negated value. */
  lemma ParseNegative(m: string)
    requires |m| > 1 && m[0] == '-' && AllDigits(m[1..])
    ensures ParseInt(m) == Some(-(DigitsValue(m[1..]) as int))
  {
    var d := m[1..];
    assert m[|m| - 1] == d[|d| - 1];
    NoLeadingSpace(m);
    NoTrailingSpace(m);
    NoLeadingSpace(d);
  }

  lemma NoLeadingSpace(s: string)
    requires |s| > 0 && !IsSpace(s[0])
    ensures TrimLeft(s) == s
  {
  }

  lemma NoTrailingSpace(s: string)
    requires |s| > 0 && IsDigit(s[|s| - 1])
    ensures TrimRight(s) == s
  {
  }

  /** Text that holds something other than white space, a sign and digits is refused. */
  lemma ParseIntRejectsLetters(s: string)
    requires exists i :: 0 <= i < |s| && 'a' <= s[i] <= 'z'
    ensures ParseInt(s) == None
  {
    var i :| 0 <= i < |s| && 'a' <= s[i] <= 'z';
    var l := TrimLeft(s);
    TrimLeftKeeps(s, i);
    var k := i - (|s| - |l|);
    TrimRightKeeps(l, k);
    TrimmedRejectsLetter(TrimRight(l), k);
  }

  /** A letter in the trimmed text is refused, after the sign or without one. */
  lemma TrimmedRejectsLetter(t: string, k: nat)
    requires k < |t| && 'a' <= t[k] <= 'z'
    ensures ParseTrimmed(t) == None
  {
    if t[0] == '-' || t[0] == '+' {
      var r := t[1..];
      assert r[k - 1] == t[k];
      TrimLeftKeeps(r, k - 1);
      var u := TrimLeft(r);
      DigitsRejectLetter(u, k - 1 - (|r| - |u|));
    } else {
      DigitsRejectLetter(t, k);
    }
  }

  lemma DigitsRejectLetter(u: string, j: nat)
    requires j < |u| && 'a' <= u[j] <= 'z'
    ensures ParseDigits(u) == None
  {
    assert !IsDigit(u[j]);
  }

  /** Trimming on the left keeps every character that is not white space, shifted by what it drops. */
  lemma TrimLeftKeeps(s: string, i: nat)
    requires i < |s| && !IsSpace(s[i])
    ensures |s| - |TrimLeft(s)| <= i && TrimLeft(s)[i - (|s| - |TrimLeft(s)|)] == s[i]
  {
    TrimLeftIsSuffix(s);
    if i < |s| - |TrimLeft(s)| {
      TrimLeftSkipsSpace(s, i);
    }
  }

  /** Trimming on the right keeps every character that is not white space, in place. */
  lemma TrimRightKeeps(s: string, i: nat)
    requires i < |s| && !IsSpace(s[i])
    ensures i < |TrimRight(s)| && TrimRight(s)[i] == s[i]
  {
    TrimRightIsPrefix(s);
    if i >= |TrimRight(s)| {
      TrimRightSkipsSpace(s, i);
    }
  }

  lemma {:induction false} TrimLeftIsSuffix(s: string)
    ensures TrimLeft(s) == s[|s| - |TrimLeft(s)|..]
  {
    if s != [] && IsSpace(s[0]) {
      TrimLeftIsSuffix(s[1..]);
    }
  }

  lemma {:induction false} TrimRightIsPrefix(s: string)
    ensures TrimRight(s) == s[..|TrimRight(s)|]
  {
    if s != [] && IsSpace(s[|s| - 1]) {
      TrimRightIsPrefix(s[..|s| - 1]);
    }
  }

  lemma {:induction false} TrimLeftSkipsSpace(s: string, i: nat)
    requires i < |s| - |TrimLeft(s)|
    ensures IsSpace(s[i])
  {
    if i > 0 {
      TrimLeftSkipsSpace(s[1..], i - 1);
    }
  }

  lemma {:induction false} TrimRightSkipsSpace(s: string, i: nat)
    requires |TrimRight(s)| <= i < |s|
    ensures IsSpace(s[i])
  {
    if i < |s| - 1 {
      TrimRightSkipsSpace(s[..|s| - 1], i);
    }
  }
}
