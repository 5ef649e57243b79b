/**
 * Lexicographic three-way comparison of sequences, as LLVM's StringRef::compare
 * (over characters) and std::lexicographical_compare (over name segments) perform it.
 *
 * Characters are Unicode scalar values; comparing them by code point orders strings
 * exactly as a byte-wise comparison of their UTF-8 encodings does.
 */
module StringOrder {

  /** `cmp` answers -1, 0 or 1 and is a strict total order with 0 meaning equality. */
  ghost predicate ThreeWayOrder<T(!new)>(cmp: (T, T) -> int) {
    && (forall x, y :: -1 <= cmp(x, y) <= 1)
    && (forall x, y :: cmp(x, y) == 0 <==> x == y)
    && (forall x, y :: cmp(x, y) == -cmp(y, x))
    && (forall x, y, z :: cmp(x, y) < 0 && cmp(y, z) < 0 ==> cmp(x, z) < 0)
  }

  /** `a` comes first: it is a proper prefix of `b`, or the first element where the two differ is smaller in `a`. */
  ghost predicate Precedes<T(!new)>(a: seq<T>, b: seq<T>, cmp: (T, T) -> int) {
    || (|a| < |b| && a == b[..|a|])
    || (exists k :: 0 <= k < |a| && k < |b| && a[..k] == b[..k] && cmp(a[k], b[k]) < 0)
  }

  /** Element-by-element comparison; the shorter sequence wins when one is a prefix of the other. */
  function LexCompare<T>(a: seq<T>, b: seq<T>, cmp: (T, T) -> int): (r: int)
    ensures -1 <= r <= 1
    ensures a == [] ==> r == (if b == [] then 0 else -1)
  {
    if a == [] then (if b == [] then 0 else -1)
    else if b == [] then 1
    else if cmp(a[0], b[0]) < 0 then -1
    else if cmp(a[0], b[0]) > 0 then 1
    else LexCompare(a[1..], b[1..], cmp)
  }

  lemma {:induction false} LexCompareZero<T(!new)>(a: seq<T>, b: seq<T>, cmp: (T, T) -> int)
    requires ThreeWayOrder(cmp)
    ensures LexCompare(a, b, cmp) == 0 <==> a == b
  {
    if a != [] && b != [] && cmp(a[0], b[0]) == 0 {
      LexCompareZero(a[1..], b[1..], cmp);
      assert a == [a[0]] + a[1..] && b == [b[0]] + b[1..];
    }
  }

  lemma {:induction false} LexCompareAntisymmetric<T(!new)>(a: seq<T>, b: seq<T>, cmp: (T, T) -> int)
    requires ThreeWayOrder(cmp)
    ensures LexCompare(a, b, cmp) == -LexCompare(b, a, cmp)
  {
    if a != [] && b != [] && cmp(a[0], b[0]) == 0 {
      LexCompareAntisymmetric(a[1..], b[1..], cmp);
    }
  }

  lemma {:induction false} LexCompareTransitive<T(!new)>(a: seq<T>, b: seq<T>, c: seq<T>, cmp: (T, T) -> int)
    requires ThreeWayOrder(cmp)
    requires LexCompare(a, b, cmp) < 0 && LexCompare(b, c, cmp) < 0
    ensures LexCompare(a, c, cmp) < 0
  {
    if a != [] && b != [] && c != [] && cmp(a[0], b[0]) == 0 && cmp(b[0], c[0]) == 0 {
      LexCompareTransitive(a[1..], b[1..], c[1..], cmp);
    }
  }

  /** The lexicographic comparison of sequences is again a three-way strict total order. */
  lemma LexCompareIsOrder<T(!new)>(cmp: (T, T) -> int)
    requires ThreeWayOrder(cmp)
    ensures ThreeWayOrder((a: seq<T>, b: seq<T>) => LexCompare(a, b, cmp))
  {
    forall a: seq<T>, b: seq<T>
      ensures LexCompare(a, b, cmp) == 0 <==> a == b
      ensures LexCompare(a, b, cmp) == -LexCompare(b, a, cmp)
    {
      LexCompareZero(a, b, cmp);
      LexCompareAntisymmetric(a, b, cmp);
    }
    forall a: seq<T>, b: seq<T>, c: seq<T> | LexCompare(a, b, cmp) < 0 && LexCompare(b, c, cmp) < 0
      ensures LexCompare(a, c, cmp) < 0
    {
      LexCompareTransitive(a, b, c, cmp);
    }
  }

  /** The recursive comparison agrees with the first-difference definition of lexicographic order. */
  lemma {:induction false} LexCompareMeansPrecedes<T(!new)>(a: seq<T>, b: seq<T>, cmp: (T, T) -> int)
    requires ThreeWayOrder(cmp)
    ensures LexCompare(a, b, cmp) < 0 <==> Precedes(a, b, cmp)
  {
    if a == [] {
      assert b != [] ==> a == b[..|a|];
    } else if b == [] {
    } else if cmp(a[0], b[0]) < 0 {
      assert a[..0] == b[..0];
    } else if cmp(a[0], b[0]) > 0 {
      // No common non-empty prefix exists, and the first elements already differ the wrong way.
      forall k | 0 < k <= |a| && k <= |b| ensures a[..k][0] == a[0] && b[..k][0] == b[0] {
      }
      assert a[..|a|] == a;
    } else {
      assert a[0] == b[0];
      LexCompareMeansPrecedes(a[1..], b[1..], cmp);
      if Precedes(a[1..], b[1..], cmp) {
        PrecedesFromTail(a, b, cmp);
      }
      if Precedes(a, b, cmp) {
        PrecedesToTail(a, b, cmp);
      }
    }
  }

  /** Sequences that start alike are in order when their tails are. */
  lemma PrecedesFromTail<T(!new)>(a: seq<T>, b: seq<T>, cmp: (T, T) -> int)
    requires a != [] && b != [] && a[0] == b[0]
    requires Precedes(a[1..], b[1..], cmp)
    ensures Precedes(a, b, cmp)
  {
    var a', b' := a[1..], b[1..];
    if |a'| < |b'| && a' == b'[..|a'|] {
      assert a == [a[0]] + a' && b[..|a|] == [b[0]] + b'[..|a'|];
    } else {
      var k :| 0 <= k < |a'| && k < |b'| && a'[..k] == b'[..k] && cmp(a'[k], b'[k]) < 0;
      assert a[..k + 1] == [a[0]] + a'[..k] && b[..k + 1] == [b[0]] + b'[..k];
      assert a[k + 1] == a'[k] && b[k + 1] == b'[k];
    }
  }

  /** Sequences that start alike are in order only when their tails are. */
  lemma PrecedesToTail<T(!new)>(a: seq<T>, b: seq<T>, cmp: (T, T) -> int)
    requires a != [] && b != [] && a[0] == b[0]
    requires ThreeWayOrder(cmp)
    requires Precedes(a, b, cmp)
    ensures Precedes(a[1..], b[1..], cmp)
  {
    var a', b' := a[1..], b[1..];
    if |a| < |b| && a == b[..|a|] {
      assert a' == b'[..|a'|];
    } else {
      var k :| 0 <= k < |a| && k < |b| && a[..k] == b[..k] && cmp(a[k], b[k]) < 0;
      assert k != 0;
      assert a'[..k - 1] == a[1..k] == b[1..k] == b'[..k - 1];
      assert a'[k - 1] == a[k] && b'[k - 1] == b[k];
    }
  }

  /** Code-point order on characters. */
  function CharCompare(c: char, d: char): (r: int)
    ensures r < 0 <==> c < d
    ensures r == 0 <==> c == d
  {
    if c < d then -1 else if c == d then 0 else 1
  }

  lemma CharCompareIsOrder()
    ensures ThreeWayOrder(CharCompare)
  {
  }

  /** StringRef::compare: -1, 0 or 1 as `a` sorts before, equal to, or after `b`. */
  function StringCompare(a: string, b: string): (r: int)
    ensures -1 <= r <= 1
    ensures r == 0 <==> a == b
    ensures r < 0 <==> Precedes(a, b, CharCompare)
  {
    CharCompareIsOrder();
    LexCompareZero(a, b, CharCompare);
    LexCompareMeansPrecedes(a, b, CharCompare);
    LexCompare(a, b, CharCompare)
  }

  lemma StringCompareIsOrder()
    ensures ThreeWayOrder(StringCompare)
  {
    CharCompareIsOrder();
    LexCompareIsOrder(CharCompare);
    assert forall a, b :: StringCompare(a, b) == ((x: string, y: string) => LexCompare(x, y, CharCompare))(a, b);
  }

  /** Lexicographic comparison of dotted module names, segment by segment, each segment compared as a string. */
  function PathCompare(p: seq<string>, q: seq<string>): (r: int)
    ensures -1 <= r <= 1
  {
    LexCompare(p, q, StringCompare)
  }

  lemma PathCompareIsOrder()
    ensures ThreeWayOrder(PathCompare)
  {
    StringCompareIsOrder();
    LexCompareIsOrder(StringCompare);
    assert forall p, q :: PathCompare(p, q) == ((x: seq<string>, y: seq<string>) => LexCompare(x, y, StringCompare))(p, q);
  }

  lemma PathCompareBasics(p: seq<string>, q: seq<string>)
    ensures PathCompare(p, q) == 0 <==> p == q
    ensures PathCompare(p, q) == -PathCompare(q, p)
  {
    StringCompareIsOrder();
    LexCompareZero(p, q, StringCompare);
    LexCompareAntisymmetric(p, q, StringCompare);
  }

  lemma PathCompareTransitive(p: seq<string>, q: seq<string>, r: seq<string>)
    requires PathCompare(p, q) <= 0 && PathCompare(q, r) <= 0
    ensures PathCompare(p, r) <= 0
    ensures PathCompare(p, q) < 0 || PathCompare(q, r) < 0 ==> PathCompare(p, r) < 0
  {
    PathCompareBasics(p, q);
    PathCompareBasics(q, r);
    if PathCompare(p, q) < 0 && PathCompare(q, r) < 0 {
      StringCompareIsOrder();
      LexCompareTransitive(p, q, r, StringCompare);
    }
  }

  /** Reversal of a sequence: how a reverse iterator presents it. */
  function Reverse<T>(s: seq<T>): (r: seq<T>)
    ensures |r| == |s|
  {
    if s == [] then [] else Reverse(s[1..]) + [s[0]]
  }

  lemma {:induction false} ReverseAt<T>(s: seq<T>, i: nat)
    requires i < |s|
    ensures Reverse(s)[i] == s[|s| - 1 - i]
  {
    if i < |s| - 1 {
      ReverseAt(s[1..], i);
    }
  }

  /** Every position of the reversal at once. */
  lemma ReverseIndexed<T>(s: seq<T>)
    ensures forall i | 0 <= i < |s| :: Reverse(s)[i] == s[|s| - 1 - i]
  {
    forall i | 0 <= i < |s| ensures Reverse(s)[i] == s[|s| - 1 - i] {
      ReverseAt(s, i);
    }
  }

  lemma ReverseReverse<T>(s: seq<T>)
    ensures Reverse(Reverse(s)) == s
  {
    forall i | 0 <= i < |s| ensures Reverse(Reverse(s))[i] == s[i] {
      ReverseAt(Reverse(s), i);
      ReverseAt(s, |s| - 1 - i);
    }
  }
}
