/** The reconnect counter `session_iteration`, a C++ unsigned int. */
module SessionIteration {
  import opened Collaborators

  const Modulus: int := 0x1_0000_0000

  /** The value of `++session_iteration`: one more, wrapping to 0 past the largest unsigned int. */
  function Successor(i: uint32): (r: uint32)
    ensures i as int < Modulus - 1 ==> r as int == i as int + 1
    ensures i as int == Modulus - 1 ==> r == 0
  {
    ((i as int + 1) % Modulus) as uint32
  }

  /** The counter after k increments starting from i. */
  function Advance(i: uint32, k: nat): uint32
    decreases k
  {
    if k == 0 then i else Successor(Advance(i, k - 1))
  }

  /** k increments from i land on i + k modulo 2^32. */
  lemma {:induction false} AdvanceWraps(i: uint32, k: nat)
    ensures Advance(i, k) as int == (i as int + k) % Modulus
  {
    if k > 0 {
      AdvanceWraps(i, k - 1);
      var a := i as int + k - 1;
      assert Advance(i, k - 1) as int == a % Modulus;
      if a % Modulus == Modulus - 1 {
        assert (a + 1) % Modulus == 0;
      } else {
        assert (a + 1) % Modulus == a % Modulus + 1;
      }
    }
  }

  /** After k increments from a freshly constructed object the counter is k modulo 2^32. */
  lemma {:induction false} AdvanceFromZero(k: nat)
    ensures Advance(0, k) as int == k % Modulus
  {
    AdvanceWraps(0, k);
  }
}
