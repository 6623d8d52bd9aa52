/**
 * The bit arithmetic behind an option set whose raw value is an integer:
 * `1 << k` flags, bitwise `&` and `|` on two's-complement integers, and the
 * `contains` test of an option set (every bit of the member is set in the set).
 */
module OptionBits {

  /** `1 << k`: the flag whose only set bit is bit k. */
  function Flag(k: nat): (f: int)
    ensures f >= 1
  {
    if k == 0 then 1 else 2 * Flag(k - 1)
  }

  /** Bit k of x in two's complement: shift right k times, then look at the lowest bit. */
  predicate Bit(x: int, k: nat)
    decreases k
  {
    if k == 0 then x % 2 == 1 else Bit(x / 2, k - 1)
  }

  function Abs(x: int): nat
  {
    if x < 0 then -x else x
  }

  /**
   * Bitwise `a & b` on two's-complement integers of unbounded width: 0 has no
   * bit set, -1 has every bit set, and otherwise the lowest bits are combined
   * and the rest is the `&` of the values shifted right by one.
   */
  function And(a: int, b: int): int
    decreases Abs(a) + Abs(b)
  {
    if a == 0 || b == 0 then 0
    else if a == -1 then b
    else if b == -1 then a
    else 2 * And(a / 2, b / 2) + (a % 2) * (b % 2)
  }

  /** Bitwise `a | b` on two's-complement integers of unbounded width. */
  function Or(a: int, b: int): int
    decreases Abs(a) + Abs(b)
  {
    if a == 0 then b
    else if b == 0 then a
    else if a == -1 || b == -1 then -1
    else 2 * Or(a / 2, b / 2) + (if a % 2 == 1 || b % 2 == 1 then 1 else 0)
  }

  /** `contains` on an option set: the intersection with the member is the member itself. */
  predicate Contains(options: int, member: int)
  {
    And(options, member) == member
  }

  /** Masking with a one-bit flag keeps that bit and clears the others. */
  lemma {:induction false} AndFlag(x: int, k: nat)
    ensures And(x, Flag(k)) == if Bit(x, k) then Flag(k) else 0
    decreases k
  {
    if k > 0 {
      AndFlag(x / 2, k - 1);
      assert Flag(k) / 2 == Flag(k - 1) && Flag(k) % 2 == 0;
    }
  }

  /** An option set contains the flag `1 << k` exactly when its bit k is set. */
  lemma ContainsFlagIffBit(x: int, k: nat)
    ensures Contains(x, Flag(k)) <==> Bit(x, k)
  {
    AndFlag(x, k);
  }

  /** Every value contains itself. */
  lemma {:induction false} AndSelf(a: int)
    ensures And(a, a) == a
    decreases Abs(a)
  {
    if a != 0 && a != -1 {
      AndSelf(a / 2);
      assert (a % 2) * (a % 2) == a % 2;
    }
  }

  /** After `a | m` (what `insert` does) the result contains m. */
  lemma {:induction false} OrContainsRight(a: int, m: int)
    ensures Contains(Or(a, m), m)
    decreases Abs(a) + Abs(m)
  {
    if a == 0 {
      AndSelf(m);
    } else if m == 0 || a == -1 || m == -1 {
    } else {
      OrContainsRight(a / 2, m / 2);
    }
  }

  /** `a | m` keeps every member that a already contained. */
  lemma {:induction false} OrKeepsContained(a: int, m: int, e: int)
    requires Contains(a, e)
    ensures Contains(Or(a, m), e)
    decreases Abs(a) + Abs(m)
  {
    if a == 0 || e == 0 || a == -1 || m == -1 {
    } else if m == 0 {
    } else if e == -1 {
    } else {
      OrKeepsContained(a / 2, m / 2, e / 2);
    }
  }

  /** 0 has no bit set. */
  lemma {:induction false} NoBitOfZero(k: nat)
    ensures !Bit(0, k)
    decreases k
  {
    if k > 0 {
      NoBitOfZero(k - 1);
    }
  }

  /** `1 << k` has bit k set and no other. */
  lemma {:induction false} FlagBit(k: nat, j: nat)
    ensures Bit(Flag(k), j) <==> j == k
    decreases k
  {
    if k == 0 {
      if j > 0 {
        NoBitOfZero(j - 1);
      }
    } else if j > 0 {
      assert Flag(k) / 2 == Flag(k - 1);
      FlagBit(k - 1, j - 1);
    }
  }

  /** -1 has every bit set. */
  lemma {:induction false} EveryBitOfMinusOne(k: nat)
    ensures Bit(-1, k)
    decreases k
  {
    if k > 0 {
      assert -1 / 2 == -1;
      EveryBitOfMinusOne(k - 1);
    }
  }

  /** Shifting `2 * r + c` right by one gives r back, and its lowest bit is c. */
  lemma ShiftParity(r: int, c: int)
    requires 0 <= c <= 1
    ensures (2 * r + c) / 2 == r && (2 * r + c) % 2 == c
  {
  }

  /** Bit k of `a | m` is set exactly when bit k of a or of m is: `|` is the union of the bits. */
  lemma {:induction false} OrBit(a: int, m: int, k: nat)
    ensures Bit(Or(a, m), k) <==> Bit(a, k) || Bit(m, k)
    decreases k
  {
    if a == 0 {
      NoBitOfZero(k);
    } else if m == 0 {
      NoBitOfZero(k);
    } else if a == -1 || m == -1 {
      EveryBitOfMinusOne(k);
    } else {
      var c := if a % 2 == 1 || m % 2 == 1 then 1 else 0;
      var r := Or(a / 2, m / 2);
      assert Or(a, m) == 2 * r + c;
      ShiftParity(r, c);
      if k > 0 {
        OrBit(a / 2, m / 2, k - 1);
      }
    }
  }

  /** Bit k of `a & b` is set exactly when bit k of both a and b is: `&` is the intersection of the bits. */
  lemma {:induction false} AndBit(a: int, b: int, k: nat)
    ensures Bit(And(a, b), k) <==> Bit(a, k) && Bit(b, k)
    decreases k
  {
    if a == 0 || b == 0 {
      NoBitOfZero(k);
    } else if a == -1 || b == -1 {
      EveryBitOfMinusOne(k);
    } else {
      var c := if a % 2 == 1 && b % 2 == 1 then 1 else 0;
      var r := And(a / 2, b / 2);
      assert (a % 2) * (b % 2) == c;
      assert And(a, b) == 2 * r + c;
      ShiftParity(r, c);
      if k > 0 {
        AndBit(a / 2, b / 2, k - 1);
      }
    }
  }

  /** A contained member sets no bit that the option set leaves clear. */
  lemma ContainedBit(a: int, e: int, k: nat)
    requires Contains(a, e)
    ensures Bit(e, k) ==> Bit(a, k)
  {
    AndBit(a, e, k);
  }

  /** A raw value is determined by its bits: two integers with the same bits are equal. */
  lemma {:induction false} SameBitsSameValue(x: int, y: int)
    requires forall k: nat :: Bit(x, k) <==> Bit(y, k)
    ensures x == y
    decreases Abs(x) + Abs(y)
  {
    assert Bit(x, 0) <==> Bit(y, 0);
    if (x == 0 || x == -1) && (y == 0 || y == -1) {
    } else {
      forall k: nat ensures Bit(x / 2, k) <==> Bit(y / 2, k) {
        assert Bit(x, k + 1) <==> Bit(y, k + 1);
      }
      SameBitsSameValue(x / 2, y / 2);
    }
  }
}
