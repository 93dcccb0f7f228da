/** Public keys as byte strings, and the canonical order of a pair of them. */
module Keys {

  newtype Byte = x: int | 0 <= x < 256

  type PublicKey = seq<Byte>

  const KEY_SIZE := 32

  // bytes.Compare(a, b) <= 0
  predicate AtMost(a: PublicKey, b: PublicKey) {
    if a == [] then true
    else if b == [] then false
    else a[0] < b[0] || (a[0] == b[0] && AtMost(a[1..], b[1..]))
  }

  lemma {:induction false} AtMostTotal(a: PublicKey, b: PublicKey)
    ensures AtMost(a, b) || AtMost(b, a)
  {
    if a != [] && b != [] && a[0] == b[0] {
      AtMostTotal(a[1..], b[1..]);
    }
  }

  lemma {:induction false} AtMostAntisymmetric(a: PublicKey, b: PublicKey)
    requires AtMost(a, b) && AtMost(b, a)
    ensures a == b
  {
    if a != [] {
      AtMostAntisymmetric(a[1..], b[1..]);
      assert a == [a[0]] + a[1..] && b == [b[0]] + b[1..];
    }
  }

  // The keys first differ where the earlier one has the smaller byte, or has ended.
  lemma {:induction false} AtMostIsLexicographic(a: PublicKey, b: PublicKey)
    ensures AtMost(a, b) <==> a <= b || exists i :: 0 <= i < |a| && i < |b| && a[..i] == b[..i] && a[i] < b[i]
  {
    if a != [] && b != [] && a[0] == b[0] {
      AtMostIsLexicographic(a[1..], b[1..]);
      assert a[1..] <= b[1..] <==> a <= b by {
        assert a == [a[0]] + a[1..] && b == [b[0]] + b[1..];
      }
      if i :| 0 <= i < |a| && i < |b| && a[..i] == b[..i] && a[i] < b[i] {
        assert i > 0 && a[1..][..i - 1] == a[..i][1..] && b[1..][..i - 1] == b[..i][1..];
        assert a[1..][i - 1] < b[1..][i - 1];
      }
      if i :| 0 <= i < |a[1..]| && i < |b[1..]| && a[1..][..i] == b[1..][..i] && a[1..][i] < b[1..][i] {
        assert a[..i + 1] == [a[0]] + a[1..][..i] && b[..i + 1] == [b[0]] + b[1..][..i];
        assert a[i + 1] < b[i + 1];
      }
    } else if a != [] && b != [] && a[0] < b[0] {
      assert a[..0] == b[..0];
    }
  }

  function OrderedPair(left: PublicKey, right: PublicKey): (PublicKey, PublicKey) {
    if AtMost(left, right) then (left, right) else (right, left)
  }

  // The pair does not depend on who asks, and determines the two keys.
  lemma OrderedPairIsCanonical(a: PublicKey, b: PublicKey, c: PublicKey, d: PublicKey)
    ensures OrderedPair(a, b) == OrderedPair(c, d) <==> (a == c && b == d) || (a == d && b == c)
  {
    AtMostTotal(a, b);
    AtMostTotal(c, d);
    if AtMost(a, b) && AtMost(b, a) {
      AtMostAntisymmetric(a, b);
    }
    if AtMost(c, d) && AtMost(d, c) {
      AtMostAntisymmetric(c, d);
    }
  }

  lemma PairIsSorted(a: PublicKey, b: PublicKey)
    ensures var pair := OrderedPair(a, b); AtMost(pair.0, pair.1) && (pair == (a, b) || pair == (b, a))
  {
    AtMostTotal(a, b);
  }
}
