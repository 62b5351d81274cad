/**
  Identifier sanitising, `idify`, which palantir/palantir.py and
  setupfreesurfer.py both define with the same body: keep only ASCII
  letters, digits, `-`, `_` and `.`, in their original order.
 */
module Ident {

  predicate IsIdChar(c: char) {
    || ('a' <= c <= 'z')
    || ('A' <= c <= 'Z')
    || ('0' <= c <= '9')
    || c == '-' || c == '_' || c == '.'
  }

  /** Every character of `s` survives `Idify`. */
  predicate IsId(s: string) {
    forall i :: 0 <= i < |s| ==> IsIdChar(s[i])
  }

  function Idify(name: string): (r: string)
    ensures IsId(r)
    ensures |r| <= |name|
  {
    if name == [] then []
    else (if IsIdChar(name[0]) then [name[0]] else []) + Idify(name[1..])
  }

  /** Sanitising distributes over concatenation, so the kept characters keep their order. */
  lemma {:induction false} IdifyConcat(a: string, b: string)
    ensures Idify(a + b) == Idify(a) + Idify(b)
  {
    if a == [] {
      assert a + b == b;
    } else {
      assert (a + b)[0] == a[0];
      assert (a + b)[1..] == a[1..] + b;
      IdifyConcat(a[1..], b);
    }
  }

  /** Exactly the identifier characters are kept, each as often as it occurs. */
  lemma {:induction false} IdifyKeepsExactly(name: string, c: char)
    ensures multiset(Idify(name))[c] == if IsIdChar(c) then multiset(name)[c] else 0
  {
    if name != [] {
      IdifyKeepsExactly(name[1..], c);
      assert name == [name[0]] + name[1..];
      assert multiset(name) == multiset([name[0]]) + multiset(name[1..]);
      var head := if IsIdChar(name[0]) then [name[0]] else [];
      assert multiset(Idify(name)) == multiset(head) + multiset(Idify(name[1..]));
    }
  }

  /** A string that is already an identifier is left unchanged. */
  lemma {:induction false} IdifyOfId(s: string)
    requires IsId(s)
    ensures Idify(s) == s
  {
    if s != [] {
      IdifyOfId(s[1..]);
    }
  }

  /** Sanitising is idempotent. */
  lemma IdifyIdempotent(s: string)
    ensures Idify(Idify(s)) == Idify(s)
  {
    IdifyOfId(Idify(s));
  }
}
