/** Python's unbounded integers as bit strings: what shift, mask and xor do to each bit. */
module Bits {

  /** Bit `k`, counted from the least significant. */
  function Bit(x: nat, k: nat): bool {
    if k == 0 then x % 2 == 1 else Bit(x / 2, k - 1)
  }

  /** `x << n`. */
  function Shl(x: nat, n: nat): nat {
    if n == 0 then x else 2 * Shl(x, n - 1)
  }

  /** `x >> n`. */
  function Shr(x: nat, n: nat): nat {
    if n == 0 then x else Shr(x / 2, n - 1)
  }

  /** `a ^ b`. */
  function Xor(a: nat, b: nat): nat
    decreases a + b
  {
    if a == 0 && b == 0 then 0 else 2 * Xor(a / 2, b / 2) + (a % 2 + b % 2) % 2
  }

  /** `a & b`. */
  function And(a: nat, b: nat): nat {
    if a == 0 then 0 else 2 * And(a / 2, b / 2) + (if a % 2 == 1 && b % 2 == 1 then 1 else 0)
  }

  lemma {:induction false} ZeroHasNoBits(k: nat)
    ensures !Bit(0, k)
  {
    if k > 0 {
      ZeroHasNoBits(k - 1);
    }
  }

  lemma {:induction false} XorBit(a: nat, b: nat, k: nat)
    ensures Bit(Xor(a, b), k) == (Bit(a, k) != Bit(b, k))
    decreases k
  {
    if a == 0 && b == 0 {
      ZeroHasNoBits(k);
    } else if k > 0 {
      assert Xor(a, b) / 2 == Xor(a / 2, b / 2);
      XorBit(a / 2, b / 2, k - 1);
    }
  }

  lemma {:induction false} AndBit(a: nat, b: nat, k: nat)
    ensures Bit(And(a, b), k) == (Bit(a, k) && Bit(b, k))
    decreases k
  {
    if a == 0 {
      ZeroHasNoBits(k);
    } else if k > 0 {
      assert And(a, b) / 2 == And(a / 2, b / 2);
      AndBit(a / 2, b / 2, k - 1);
    }
  }

  lemma {:induction false} ShlBit(x: nat, n: nat, k: nat)
    ensures Bit(Shl(x, n), k) == (k >= n && Bit(x, k - n))
    decreases n
  {
    if n > 0 && k > 0 {
      assert Shl(x, n) / 2 == Shl(x, n - 1);
      ShlBit(x, n - 1, k - 1);
    }
  }

  lemma {:induction false} ShrBit(x: nat, n: nat, k: nat)
    ensures Bit(Shr(x, n), k) == Bit(x, k + n)
    decreases n
  {
    if n > 0 {
      ShrBit(x / 2, n - 1, k);
    }
  }

  /** `(1 << n) - 1` is `n` ones. */
  lemma {:induction false} OnesBit(n: nat, k: nat)
    ensures Shl(1, n) > 0 && Bit(Shl(1, n) - 1, k) == (k < n)
    decreases n
  {
    if n == 0 {
      ZeroHasNoBits(k);
    } else {
      OnesBit(n - 1, if k == 0 then 0 else k - 1);
      assert (Shl(1, n) - 1) / 2 == Shl(1, n - 1) - 1;
    }
  }

  /** A number below `1 << n` has no bit from `n` on. */
  lemma {:induction false} HighBitsAreZero(x: nat, n: nat, k: nat)
    requires x < Shl(1, n) && k >= n
    ensures !Bit(x, k)
    decreases n
  {
    if n == 0 {
      ZeroHasNoBits(k);
    } else {
      HighBitsAreZero(x / 2, n - 1, k - 1);
    }
  }

  /** And the other way round. */
  lemma {:induction false} NoHighBitsIsSmall(x: nat, n: nat)
    requires forall k :: k >= n ==> !Bit(x, k)
    ensures x < Shl(1, n)
    decreases x, n
  {
    if x > 0 {
      if n == 0 {
        HasSomeBit(x);
      } else {
        forall k | k >= n - 1 ensures !Bit(x / 2, k) {
          assert !Bit(x, k + 1);
        }
        NoHighBitsIsSmall(x / 2, n - 1);
      }
    } else {
      OnesBit(n, 0);
    }
  }

  lemma {:induction false} HasSomeBit(x: nat)
    requires x > 0
    ensures exists k: nat :: Bit(x, k)
  {
    if x % 2 == 1 {
      assert Bit(x, 0);
    } else {
      HasSomeBit(x / 2);
      var k: nat :| Bit(x / 2, k);
      assert Bit(x, k + 1);
    }
  }

  /** Numbers of `n` bits are equal when their bits are. */
  lemma {:induction false} SameBits(a: nat, b: nat, n: nat)
    requires a < Shl(1, n) && b < Shl(1, n)
    requires forall k: nat :: k < n ==> Bit(a, k) == Bit(b, k)
    ensures a == b
    decreases n
  {
    if n > 0 {
      forall k: nat | k < n - 1 ensures Bit(a / 2, k) == Bit(b / 2, k) {
        assert Bit(a, k + 1) == Bit(b, k + 1);
      }
      SameBits(a / 2, b / 2, n - 1);
      assert Bit(a, 0) == Bit(b, 0);
    }
  }

  lemma {:induction false} AndIsSmall(a: nat, b: nat)
    ensures And(a, b) <= b
    decreases a
  {
    if a > 0 {
      AndIsSmall(a / 2, b / 2);
    }
  }
}
