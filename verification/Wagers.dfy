/** Sides of a bet, and amounts in wei and in BNB. */
module Wagers {

  /** A side or winner label, upper-cased; `Other` is anything the routines do not know. */
  datatype Label = Bull | Bear | House | Other

  const BNB_WEI := 1000000000000000000.0

  function Bnb(wei: int): real {
    wei as real / BNB_WEI
  }

  lemma BnbAdds(a: int, b: int)
    ensures Bnb(a + b) == Bnb(a) + Bnb(b)
  {
  }

  lemma BnbIsPositive(a: int)
    ensures 0 < a ==> 0.0 < Bnb(a)
    ensures 0 <= a ==> 0.0 <= Bnb(a)
  {
  }
}
