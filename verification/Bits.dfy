/** Bitwise operators on natural numbers, bit by bit from the least significant one. */
module Bits {

  function And(x: nat, y: nat): nat
  {
    if x == 0 || y == 0 then 0 else (if x % 2 == 1 && y % 2 == 1 then 1 else 0) + 2 * And(x / 2, y / 2)
  }

  function Or(x: nat, y: nat): nat
    decreases x + y
  {
    if x == 0 then y else if y == 0 then x
    else (if x % 2 == 1 || y % 2 == 1 then 1 else 0) + 2 * Or(x / 2, y / 2)
  }

  function Xor(x: nat, y: nat): nat
    decreases x + y
  {
    if x == 0 then y else if y == 0 then x
    else (if x % 2 != y % 2 then 1 else 0) + 2 * Xor(x / 2, y / 2)
  }

  /** The number written with k ones. */
  function Ones(k: nat): nat {
    if k == 0 then 0 else 2 * Ones(k - 1) + 1
  }

  lemma {:induction false} AndAllOnes(x: nat, y: nat, k: nat)
    requires x <= Ones(k) && y <= Ones(k)
    ensures And(x, y) <= Ones(k)
    ensures And(x, y) == Ones(k) <==> x == Ones(k) && y == Ones(k)
  {
    if k > 0 { AndAllOnes(x / 2, y / 2, k - 1); }
  }

  lemma {:induction false} OrZero(x: nat, y: nat)
    ensures Or(x, y) == 0 <==> x == 0 && y == 0
    decreases x + y
  {
    if x > 0 && y > 0 { OrZero(x / 2, y / 2); }
  }

  lemma {:induction false} OrBound(x: nat, y: nat, k: nat)
    requires x <= Ones(k) && y <= Ones(k)
    ensures Or(x, y) <= Ones(k)
  {
    if k > 0 { OrBound(x / 2, y / 2, k - 1); }
  }

  lemma {:induction false} XorAllOnes(x: nat, c: nat, k: nat)
    requires x <= Ones(k) && c <= Ones(k)
    ensures Xor(x, c) <= Ones(k)
    ensures Xor(x, c) == Ones(k) <==> x == Ones(k) - c
  {
    if k > 0 { XorAllOnes(x / 2, c / 2, k - 1); }
  }

  lemma NibbleOfOnes(k: nat)
    ensures Ones(k + 4) == 16 * Ones(k) + 15
  {
    assert Ones(k + 4) == 2 * Ones(k + 3) + 1 == 4 * Ones(k + 2) + 3;
    assert Ones(k + 2) == 2 * Ones(k + 1) + 1;
  }

  lemma Ones52()
    ensures Ones(52) == 0xF_FFFF_FFFF_FFFF
  {
    NibbleOfOnes(0); NibbleOfOnes(4); NibbleOfOnes(8); NibbleOfOnes(12); NibbleOfOnes(16); NibbleOfOnes(20);
    NibbleOfOnes(24); NibbleOfOnes(28); NibbleOfOnes(32); NibbleOfOnes(36); NibbleOfOnes(40); NibbleOfOnes(44);
    NibbleOfOnes(48);
  }
}
