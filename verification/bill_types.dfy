/** The closed, ordered set of bill denominations the register holds. */
module BillTypes {

  /** The five bill types, declared from the largest face value to the smallest. */
  datatype BillType = TWENTY | TEN | FIVE | TWO | ONE {

    /** The face value of a bill of this type. */
    function GetDenomination(): (d: int)
      ensures d > 0
      ensures d == 1 <==> this == ONE
    {
      match this
      case TWENTY => 20
      case TEN => 10
      case FIVE => 5
      case TWO => 2
      case ONE => 1
    }

    /** True if `amount` is below this face value: for a non-negative amount,
        exactly when not even one bill of this type fits into it. */
    function IsLessThanDenomination(amount: int): (b: bool)
      ensures amount < 0 ==> b
      ensures amount >= 0 ==> (b <==> amount / GetDenomination() == 0)
    {
      amount < GetDenomination()
    }
  }

  /** The bill types in declaration order, which is how every traversal of the
      register visits them. */
  const Values: seq<BillType> := [TWENTY, TEN, FIVE, TWO, ONE]

  /** The position of a bill type in `Values`. */
  function Index(b: BillType): (i: nat)
    ensures i < |Values| && Values[i] == b
  {
    match b
    case TWENTY => 0
    case TEN => 1
    case FIVE => 2
    case TWO => 3
    case ONE => 4
  }

  /** `Index` recovers the position of the bill type listed at position i. */
  lemma IndexOfValue(i: nat)
    requires i < |Values|
    ensures Index(Values[i]) == i
  {
  }

  /** The face values, listed in declaration order, are exactly 20, 10, 5, 2, 1. */
  lemma Denominations()
    ensures |Values| == 5
    ensures Values[0].GetDenomination() == 20 && Values[1].GetDenomination() == 10
    ensures Values[2].GetDenomination() == 5 && Values[3].GetDenomination() == 2
    ensures Values[4].GetDenomination() == 1
  {
  }

  /** `Values` lists every bill type exactly once, in strictly descending order
      of face value, so face values are pairwise distinct. */
  lemma ValuesStrictlyDescending()
    ensures forall b: BillType :: b in Values
    ensures forall i, j :: 0 <= i < j < |Values| ==> Values[i].GetDenomination() > Values[j].GetDenomination()
    ensures forall b: BillType, b': BillType :: b != b' ==> b.GetDenomination() != b'.GetDenomination()
  {
    forall b: BillType ensures b in Values {
      assert Values[Index(b)] == b;
    }
  }
}
