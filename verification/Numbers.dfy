/** Where Python's `int` and `float` meet. */
module Numbers {

  /** Truncation toward zero. */
  function Truncate(x: real): (n: int)
    ensures x >= 0.0 ==> n as real <= x < (n + 1) as real
    ensures x < 0.0 ==> (n - 1) as real < x <= n as real
  {
    if x >= 0.0 then x.Floor else -((-x).Floor)
  }

  function Pow(base: nat, k: nat): nat {
    if k == 0 then 1 else base * Pow(base, k - 1)
  }

  /** The least integer that rounds past the greatest double: beyond it `float` raises. */
  function FloatLimit(): int {
    Pow(2, 1024) - Pow(2, 970)
  }

  predicate FitsFloat(n: int) {
    -FloatLimit() < n < FloatLimit()
  }

  lemma {:induction false} PowGrows(j: nat, k: nat)
    requires j <= k
    ensures 1 <= Pow(2, j) <= Pow(2, k)
  {
    if j == k { if k > 0 { PowGrows(k - 1, k - 1); } } else { PowGrows(j, k - 1); }
  }

  lemma {:induction false} PowOfTen(k: nat)
    ensures Pow(10, k) >= Pow(2, 3 * k)
  {
    if k > 0 {
      PowOfTen(k - 1);
      assert Pow(2, 3 * k - 1) == 2 * Pow(2, 3 * k - 2) && Pow(2, 3 * k - 2) == 2 * Pow(2, 3 * k - 3);
    }
  }

  /** Four hundred nines are an integer Python reads, and no float. */
  lemma NinesDoNotFit(digits: nat)
    requires digits >= 400
    ensures !FitsFloat(Pow(10, digits) - 1)
  {
    hide Pow;
    PowOfTen(digits);
    PowGrows(1024, 3 * digits);
    PowGrows(0, 970);
  }

  /** Every count of ordinary size is a float. */
  lemma SmallFits(n: int)
    requires -0x8000_0000_0000_0000 <= n <= 0x8000_0000_0000_0000
    ensures FitsFloat(n)
  {
    hide Pow;
    PowZero();
    Sixteen(0);
    Sixteen(16);
    Sixteen(32);
    Sixteen(48);
    Doubles(1023);
    PowGrows(970, 1023);
    PowGrows(64, 1023);
  }

  lemma PowZero()
    ensures Pow(2, 0) == 1
  {
  }

  lemma Sixteen(k: nat)
    ensures Pow(2, k + 16) == 0x1_0000 * Pow(2, k)
  {
    Four(k);
    Four(k + 4);
    Four(k + 8);
    Four(k + 12);
  }

  lemma Four(k: nat)
    ensures Pow(2, k + 4) == 16 * Pow(2, k)
  {
    Doubles(k);
    Doubles(k + 1);
    Doubles(k + 2);
    Doubles(k + 3);
  }

  lemma Doubles(k: nat)
    ensures Pow(2, k + 1) == 2 * Pow(2, k)
  {
  }
}
