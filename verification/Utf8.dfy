/** UTF-8 as section 4 of RFC 3629 defines it, and where its text may be cut. */
module Utf8 {
  type byte = b: int | 0 <= b < 256
  type Bytes = seq<byte>

  predicate Tail(b: byte) { 0x80 <= b <= 0xBF }

  /** utf8.RuneStart. */
  predicate RuneStart(b: byte) { !Tail(b) }

  /** The bytes of the code point that s begins with, or 0 if there is none. */
  function Width(s: Bytes): (n: nat)
    ensures n <= |s| && n <= 4
    ensures n > 0 ==> RuneStart(s[0]) && forall i | 0 < i < n :: Tail(s[i])
    ensures n == 0 ==> s == [] || forall n | 1 <= n <= |s| :: !CodePoint(s[..n])
    ensures n > 0 ==> CodePoint(s[..n])
  {
    if |s| >= 1 && CodePoint(s[..1]) then 1
    else if |s| >= 2 && CodePoint(s[..2]) then 2
    else if |s| >= 3 && CodePoint(s[..3]) then 3
    else if |s| >= 4 && CodePoint(s[..4]) then 4
    else 0
  }

  /** UTF8-char in the grammar of RFC 3629. */
  predicate CodePoint(c: Bytes) {
    || (|c| == 1 && c[0] <= 0x7F)
    || (|c| == 2 && 0xC2 <= c[0] <= 0xDF && Tail(c[1]))
    || (|c| == 3 && Tail(c[1]) && Tail(c[2]) &&
        (if c[0] == 0xE0 then 0xA0 <= c[1] else if c[0] == 0xED then c[1] <= 0x9F else 0xE1 <= c[0] <= 0xEF))
    || (|c| == 4 && Tail(c[1]) && Tail(c[2]) && Tail(c[3]) &&
        (if c[0] == 0xF0 then 0x90 <= c[1] else if c[0] == 0xF4 then c[1] <= 0x8F else 0xF1 <= c[0] <= 0xF3))
  }

  /** UTF8-octets: any number of code points. */
  predicate Valid(s: Bytes)
    decreases |s|
  {
    s == [] || (Width(s) > 0 && Valid(s[Width(s)..]))
  }

  /** Between two code points of s, or at one of its ends. */
  predicate Boundary(s: Bytes, i: nat)
    requires i <= |s|
    decreases |s|
  {
    i == 0 || (0 < Width(s) <= i && Boundary(s[Width(s)..], i - Width(s)))
  }

  /** Inside valid text, exactly the boundaries are followed by a byte that starts a code point. */
  lemma {:induction false} BoundaryIffStart(s: Bytes, i: nat)
    requires Valid(s) && i < |s|
    ensures Boundary(s, i) <==> RuneStart(s[i])
    decreases |s|
  {
    var w := Width(s);
    if i < w {
    } else {
      BoundaryIffStart(s[w..], i - w);
    }
  }

  lemma {:induction false} ValidConcat(s: Bytes, t: Bytes)
    requires Valid(s)
    ensures Valid(s + t) <==> Valid(t)
    decreases |s|
  {
    if s == [] {
      assert s + t == t;
    } else {
      var w := Width(s);
      assert (s + t)[..w] == s[..w];
      WidthIsUnique(s + t, w);
      assert (s + t)[w..] == s[w..] + t;
      ValidConcat(s[w..], t);
    }
  }

  lemma WidthIsUnique(s: Bytes, w: nat)
    requires w <= |s| && CodePoint(s[..w])
    ensures Width(s) == w
  {
    assert forall k | 1 <= k <= |s| && k <= 4 :: s[..k][0] == s[0];
  }

  /** A prefix of valid text is valid exactly if it ends on a boundary; so is then the rest. */
  lemma {:induction false} PrefixIsValidIff(s: Bytes, i: nat)
    requires Valid(s) && i <= |s|
    ensures Valid(s[..i]) <==> Boundary(s, i)
    ensures Boundary(s, i) ==> Valid(s[i..])
    decreases |s|
  {
    if i == 0 {
    } else {
      var w := Width(s);
      PrefixWidth(s, i);
      if w <= i {
        assert s[..i][w..] == s[w..][..i - w];
        assert s[w..][i - w..] == s[i..];
        PrefixIsValidIff(s[w..], i - w);
      }
    }
  }

  /** A prefix begins with the same code point, or is too short for it. */
  lemma PrefixWidth(s: Bytes, i: nat)
    requires i <= |s|
    ensures Width(s[..i]) == if Width(s) <= i then Width(s) else 0
  {
    var w, v := Width(s), Width(s[..i]);
    if 0 < w <= i {
      assert s[..i][..w] == s[..w];
      WidthIsUnique(s[..i], w);
    }
    if v > 0 {
      assert s[..i][..v] == s[..v];
      WidthIsUnique(s, v);
    }
  }

  /** Where to cut when byte n is the first to go: the loop of the description truncation. */
  function Cut(s: Bytes, n: nat): (i: nat)
    requires n < |s|
    ensures i <= n
    ensures i == 0 || RuneStart(s[i])
    ensures forall j | i < j <= n :: Tail(s[j])
  {
    if n == 0 || RuneStart(s[n]) then n else Cut(s, n - 1)
  }

  /** In valid text the cut is the last boundary up to n and at most three bytes before it. */
  lemma CutIsLastBoundary(s: Bytes, n: nat)
    requires Valid(s) && n < |s|
    ensures Boundary(s, Cut(s, n)) && n <= Cut(s, n) + 3
    ensures forall j | Cut(s, n) < j <= n :: !Boundary(s, j)
  {
    var i := Cut(s, n);
    BoundaryIffStart(s, i);
    forall j | i < j <= n ensures !Boundary(s, j) {
      BoundaryIffStart(s, j);
    }
    FewTails(s, i, n);
  }

  lemma {:induction false} FewTails(s: Bytes, i: nat, n: nat)
    requires Valid(s) && i <= n < |s| && Boundary(s, i)
    requires forall j | i < j <= n :: Tail(s[j])
    ensures n <= i + 3
    decreases |s|
  {
    var w := Width(s);
    if i > 0 {
      FewTails(s[w..], i - w, n - w);
    }
  }
}
