/**
 * storage.NewID, the source of identifiers for new clients and client secrets.
 * The real supplier draws random strings; this model draws the decimal spelling
 * of a counter. Each draw is non-empty, was never handed out before, and is no
 * shorter than any earlier draw. Freshness alone would not make secrets, which
 * concatenate two draws, distinct ("0" + "12" == "01" + "2"); the length
 * assumption does.
 */
module Ids {
  import opened Common

  function DigitChar(d: nat): char
    requires d < 10
  {
    (48 + d) as char
  }

  /** The decimal spelling of `n`, without leading zeros. */
  function Decimal(n: nat): (s: string)
    ensures |s| >= 1
    ensures n >= 10 ==> |s| >= 2
    decreases n
  {
    if n < 10 then [DigitChar(n)] else Decimal(n / 10) + [DigitChar(n % 10)]
  }

  /** Different numbers are spelled differently. */
  lemma {:induction false} DecimalInjective(a: nat, b: nat)
    requires a != b
    ensures Decimal(a) != Decimal(b)
    decreases a
  {
    if a >= 10 && b >= 10 {
      var sa, sb := Decimal(a), Decimal(b);
      assert sa[..|sa| - 1] == Decimal(a / 10);
      assert sb[..|sb| - 1] == Decimal(b / 10);
      if a % 10 == b % 10 {
        DecimalInjective(a / 10, b / 10);
      } else {
        assert sa[|sa| - 1] != sb[|sb| - 1];
      }
    } else if a < 10 && b < 10 {
      assert Decimal(a)[0] != Decimal(b)[0];
    }
  }

  /** Larger numbers never have shorter spellings. */
  lemma {:induction false} DecimalLengthMonotone(a: nat, b: nat)
    requires a <= b
    ensures |Decimal(a)| <= |Decimal(b)|
    decreases a
  {
    if a >= 10 {
      DecimalLengthMonotone(a / 10, b / 10);
    }
  }

  /**
   * Two concatenations whose first parts differ are different when neither part
   * of the first is longer than the matching part of the second: a shorter first
   * part makes the whole shorter, and equal lengths make the first parts the
   * prefixes of the wholes.
   */
  lemma ConcatDistinct(a: string, b: string, c: string, d: string)
    requires a != c && |a| <= |c| && |b| <= |d|
    ensures a + b != c + d
  {
    if |a| == |c| {
      assert (a + b)[..|a|] == a;
      assert (c + d)[..|c|] == c;
    }
  }

  /** Every element of `s` is at least as long as every element before it. */
  ghost predicate NeverShorter(s: seq<string>) {
    forall i, j :: 0 <= i <= j < |s| ==> |s[i]| <= |s[j]|
  }

  /**
   * In a sequence of distinct strings that never get shorter, concatenations of
   * two consecutive elements starting at different positions differ.
   */
  lemma ConsecutivePairsDistinct(s: seq<string>, i: nat, j: nat)
    requires Distinct(s) && NeverShorter(s) && i < j && j + 1 < |s|
    ensures s[i] + s[i + 1] != s[j] + s[j + 1]
  {
    ConcatDistinct(s[i], s[i + 1], s[j], s[j + 1]);
  }

  class IdSource {
    var next: nat
    /** Every identifier handed out so far, in order. */
    ghost var issued: seq<string>

    ghost predicate Valid()
      reads this
    {
      |issued| == next && forall i :: 0 <= i < next ==> issued[i] == Decimal(i)
    }

    constructor ()
      ensures Valid() && issued == []
    {
      next := 0;
      issued := [];
    }

    method NewID() returns (id: string)
      requires Valid()
      modifies this
      ensures Valid()
      ensures issued == old(issued) + [id]
      ensures id != [] && id !in old(issued)
      ensures forall x :: x in old(issued) ==> |x| <= |id|
    {
      id := Decimal(next);
      forall i | 0 <= i < next
        ensures issued[i] != id && |issued[i]| <= |id|
      {
        DecimalInjective(i, next);
        DecimalLengthMonotone(i, next);
      }
      issued := issued + [id];
      next := next + 1;
    }
  }

  /** No identifier is ever handed out twice. */
  lemma IssuedDistinct(src: IdSource)
    requires src.Valid()
    ensures Distinct(src.issued)
  {
    forall i, j | 0 <= i < j < |src.issued|
      ensures src.issued[i] != src.issued[j]
    {
      DecimalInjective(i, j);
    }
  }

  /** Identifiers are handed out in order of non-decreasing length. */
  lemma IssuedNeverShorter(src: IdSource)
    requires src.Valid()
    ensures NeverShorter(src.issued)
  {
    forall i, j | 0 <= i <= j < |src.issued|
      ensures |src.issued[i]| <= |src.issued[j]|
    {
      DecimalLengthMonotone(i, j);
    }
  }

  /**
   * Concatenations of two consecutive identifiers, as client secrets are built,
   * never repeat: this rests on freshness and on draws never getting shorter.
   */
  lemma IssuedPairsDistinct(src: IdSource, i: nat, j: nat)
    requires src.Valid() && i < j && j + 1 < |src.issued|
    ensures src.issued[i] + src.issued[i + 1] != src.issued[j] + src.issued[j + 1]
  {
    IssuedDistinct(src);
    IssuedNeverShorter(src);
    ConsecutivePairsDistinct(src.issued, i, j);
  }
}
