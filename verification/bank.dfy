/** The register: one bundle per bill type, updated in place by put and take;
    change builds a new register and leaves this one alone. */
module Banks {
  import opened BillTypes
  import opened SimpleExceptions
  import opened BillsBundles
  import opened BankSpec

  /** A map with an entry for each bill type, filed under its own type. */
  lemma FiledUnderOwnType(m: map<BillType, BillsBundle>)
    requires TWENTY in m && TEN in m && FIVE in m && TWO in m && ONE in m
    requires m[TWENTY].billType == TWENTY && m[TEN].billType == TEN && m[FIVE].billType == FIVE
    requires m[TWO].billType == TWO && m[ONE].billType == ONE
    ensures forall b: BillType :: b in m && m[b].billType == b
  {
    forall b: BillType ensures b in m && m[b].billType == b {
      match b
      case TWENTY =>
      case TEN =>
      case FIVE =>
      case TWO =>
      case ONE =>
    }
  }

  /** Two holdings that differ at most at position i. */
  lemma UpdatedAt(before: Counts, after: Counts, i: nat)
    requires i < 5 && forall j :: 0 <= j < 5 && j != i ==> after[j] == before[j]
    ensures after == before[i := after[i]]
  {
  }

  class Bank {
    /** The bundle held for each bill type. */
    var billsMap: map<BillType, BillsBundle>

    /** Every bill type has a bundle, and each bundle is filed under its own
        type (so no bundle is filed twice). */
    ghost predicate Valid()
      reads this
    {
      forall b: BillType :: b in billsMap && billsMap[b].billType == b
    }

    /** The counts held, in the order of `Values`. */
    function Holding(): (c: Counts)
      reads this, billsMap.Values
      requires Valid()
      ensures forall j :: 0 <= j < 5 ==> c[j] == billsMap[Values[j]].numOfBills
    {
      var twenties, tens, fives := billsMap[TWENTY].numOfBills, billsMap[TEN].numOfBills, billsMap[FIVE].numOfBills;
      var twos, ones := billsMap[TWO].numOfBills, billsMap[ONE].numOfBills;
      [twenties, tens, fives, twos, ones]
    }

    /** An empty register: a bundle of no bills for every bill type. */
    constructor ()
      ensures Valid() && fresh(billsMap.Values)
      ensures Holding() == Empty
    {
      var twenties := new BillsBundle.Empty(TWENTY);
      var tens := new BillsBundle.Empty(TEN);
      var fives := new BillsBundle.Empty(FIVE);
      var twos := new BillsBundle.Empty(TWO);
      var ones := new BillsBundle.Empty(ONE);
      var bundles := map[TWENTY := twenties, TEN := tens, FIVE := fives, TWO := twos, ONE := ones];
      FiledUnderOwnType(bundles);
      billsMap := bundles;
    }

    /** A register seeded with the given counts, which are not validated: one
        bundle per bill type holding the count given for it. */
    constructor Seeded(numTwenties: int, numTens: int, numFives: int, numTwos: int, numOnes: int)
      ensures Valid() && fresh(billsMap.Values)
      ensures Holding() == [numTwenties, numTens, numFives, numTwos, numOnes]
    {
      var twenties := new BillsBundle(TWENTY, numTwenties);
      var tens := new BillsBundle(TEN, numTens);
      var fives := new BillsBundle(FIVE, numFives);
      var twos := new BillsBundle(TWO, numTwos);
      var ones := new BillsBundle(ONE, numOnes);
      var bundles := map[TWENTY := twenties, TEN := tens, FIVE := fives, TWO := twos, ONE := ones];
      FiledUnderOwnType(bundles);
      billsMap := bundles;
    }

    /** The bundle held for a bill type. */
    function GetBills(billType: BillType): (bills: BillsBundle)
      reads this
      requires Valid()
      ensures bills.billType == billType && bills in billsMap.Values
    {
      billsMap[billType]
    }

    /** Files a bundle under its own bill type, replacing the one held before. */
    method SetBills(bills: BillsBundle)
      requires Valid()
      modifies this
      ensures Valid()
      ensures billsMap == old(billsMap)[bills.billType := bills]
      ensures billsMap.Values <= old(billsMap.Values) + {bills}
      ensures Holding() == old(Holding())[Index(bills.billType) := bills.numOfBills]
    {
      billsMap := billsMap[bills.billType := bills];
    }

    /** The value held, summed over the bundles. */
    function GetTotalValue(): (v: int)
      reads this, billsMap.Values
      requires Valid()
      ensures v == TotalValue(Holding())
    {
      billsMap[TWENTY].GetTotalValue() + billsMap[TEN].GetTotalValue() + billsMap[FIVE].GetTotalValue()
      + billsMap[TWO].GetTotalValue() + billsMap[ONE].GetTotalValue()
    }

    /** The rendering "$V c20 c10 c5 c2 c1". */
    function Show(): (s: string)
      reads this, billsMap.Values
      requires Valid()
      ensures s == Render(Holding())
    {
      "$" + IntToString(GetTotalValue()) + " " + JoinCounts(Holding())
    }

    /** Puts (`Deposit`) or takes (`Withdraw`) the operand's bundle of bill type
        Values[i] into or out of this register's bundle of that type. Only that
        bundle changes, and only when the step goes through. */
    method StepBillType(dir: Direction, i: nat, operand: Bank) returns (r: Result<int>)
      requires Valid() && operand.Valid() && i < 5
      modifies billsMap[Values[i]]
      ensures r == Step(dir, Values[i], old(Holding())[i], old(operand.Holding())[i])
      ensures Holding() == if r.Success? then old(Holding())[i := r.value] else old(Holding())
      ensures forall j :: i < j < 5 ==> operand.billsMap[Values[j]].numOfBills == old(operand.billsMap[Values[j]].numOfBills)
    {
      var billType := Values[i];
      var iterBundle := operand.GetBills(billType);
      assert Snapshot(iterBundle) == Some(Bills(billType, old(operand.Holding())[i]));
      if dir == Deposit {
        r := billsMap[billType].Put(iterBundle);
      } else {
        r := billsMap[billType].Take(iterBundle);
      }
      IndexOfValue(i);
      // only the bundle of this bill type has changed
      forall j | 0 <= j < 5 && j != i ensures billsMap[Values[j]].numOfBills == old(Holding())[j] {
        IndexOfValue(j);
      }
      UpdatedAt(old(Holding()), Holding(), i);
    }

    /** Adds the operand register's bills to this one, bill type by bill type in
        the order of `Values`; a bill type that fails stops the put, and the
        bill types before it stay added. The operand may be this register. */
    method Put(bankToPut: Bank?) returns (r: Outcome)
      requires Valid() && (bankToPut != null ==> bankToPut.Valid())
      modifies billsMap.Values
      ensures Valid()
      ensures bankToPut == null ==> Applied(Holding(), r) == Applied(old(Holding()), Fail(InvalidAmount))
      ensures bankToPut != null ==> Applied(Holding(), r) == Apply(Deposit, old(Holding()), Some(old(bankToPut.Holding())))
    {
      if bankToPut == null {
        return Fail(InvalidAmount);
      }
      for i := 0 to 5
        invariant ApplyFrom(Deposit, Holding(), old(bankToPut.Holding()), i) == ApplyFrom(Deposit, old(Holding()), old(bankToPut.Holding()), 0)
        invariant forall j :: i <= j < 5 ==> bankToPut.billsMap[Values[j]].numOfBills == old(bankToPut.Holding())[j]
      {
        var result := StepBillType(Deposit, i, bankToPut);
        if result.Failure? {
          return Fail(result.error);
        }
      }
      return Pass;
    }

    /** Subtracts the operand register's bills from this one, bill type by bill
        type in the order of `Values`; a bill type that fails stops the take,
        and the bill types before it stay subtracted. The operand may be this
        register. */
    method Take(bankToTake: Bank?) returns (r: Outcome)
      requires Valid() && (bankToTake != null ==> bankToTake.Valid())
      modifies billsMap.Values
      ensures Valid()
      ensures bankToTake == null ==> Applied(Holding(), r) == Applied(old(Holding()), Fail(InvalidAmount))
      ensures bankToTake != null ==> Applied(Holding(), r) == Apply(Withdraw, old(Holding()), Some(old(bankToTake.Holding())))
    {
      if bankToTake == null {
        return Fail(InvalidAmount);
      }
      for i := 0 to 5
        invariant ApplyFrom(Withdraw, Holding(), old(bankToTake.Holding()), i) == ApplyFrom(Withdraw, old(Holding()), old(bankToTake.Holding()), 0)
        invariant forall j :: i <= j < 5 ==> bankToTake.billsMap[Values[j]].numOfBills == old(bankToTake.Holding())[j]
      {
        var result := StepBillType(Withdraw, i, bankToTake);
        if result.Failure? {
          return Fail(result.error);
        }
      }
      return Pass;
    }

    /** Files in `bankToTake` a new bundle of the bills of type Values[i] this
        register can spare towards `amountStillNeeded`, and returns their count
        and value. This register is left as it was. */
    method PickBillType(i: nat, amountStillNeeded: int, bankToTake: Bank) returns (k: int, v: int)
      requires Valid() && bankToTake.Valid() && bankToTake != this && i < 5 && amountStillNeeded >= 0
      modifies bankToTake
      ensures bankToTake.Valid()
      ensures k == MaxAvailableChange(Values[i], Holding()[i], amountStillNeeded).value
      ensures v == k * Values[i].GetDenomination()
      ensures bankToTake.Holding() == old(bankToTake.Holding())[i := k]
    {
      var billType := Values[i];
      var iterBills := billsMap[billType];
      // amountStillNeeded is never negative, so the probe cannot fail here
      k := iterBills.GetMaxAvailableChange(amountStillNeeded).value;
      var billsForChange := new BillsBundle(billType, k);
      IndexOfValue(i);
      bankToTake.SetBills(billsForChange);
      v := billsForChange.GetTotalValue();
    }

    /** The change for `amount`, as a new register, computed greedily from the
        largest bill type down; this register is left as it was. */
    method Change(amount: int) returns (r: Result<Bank>)
      requires Valid()
      ensures r.Failure? <==> ChangeFor(Holding(), amount).Failure?
      ensures r.Failure? ==> r.error == ChangeFor(Holding(), amount).error
      ensures r.Success? ==> fresh(r.value) && r.value.Valid()
      ensures r.Success? ==> r.value.Holding() == ChangeFor(Holding(), amount).value
    {
      if amount < 0 {
        return Failure(InvalidAmount);
      }
      var bankToTake := new Bank();
      var amountStillNeeded := amount;
      ghost var picked: seq<int> := [];
      for i := 0 to 5
        invariant bankToTake.Valid() && fresh(bankToTake)
        invariant GreedyUpTo(old(Holding()), i, amount) == Greedy(picked, amountStillNeeded)
        invariant bankToTake.Holding() == Padded(picked)
      {
        var billTypeDenomToTake, value := PickBillType(i, amountStillNeeded, bankToTake);
        PaddedExtends(picked, billTypeDenomToTake);
        GreedyStep(old(Holding()), i, amount, billTypeDenomToTake);
        picked := picked + [billTypeDenomToTake];
        amountStillNeeded := amountStillNeeded - value;
      }
      PaddedFull(picked);
      ChangeForGreedy(old(Holding()), amount);
      if amountStillNeeded > 0 {
        return Failure(InsufficientFunds);
      }
      return Success(bankToTake);
    }
  }
}
