/** A bundle of bills of one type, e.g. two $10 bills: the leaf of the register.
    The arithmetic is stated first on values (`Bills`), then the class
    `BillsBundle` applies it to its mutable count. */
module BillsBundles {
  import opened BillTypes
  import opened SimpleExceptions

  /** The contents of a bundle as a value. */
  datatype Bills = Bills(billType: BillType, numOfBills: int)

  /** Validation of an operand of put/take: an absent operand or a negative
      count is an invalid amount, and this is checked before the bill type. */
  function Validate(billType: BillType, bills: Option<Bills>): (o: Outcome)
    ensures o == Pass <==> bills.Some? && bills.value.numOfBills >= 0 && bills.value.billType == billType
    ensures o == Fail(InvalidAmount) <==> bills.None? || bills.value.numOfBills < 0
    ensures o.Fail? ==> o.error in {InvalidAmount, MismatchDenomination}
  {
    if bills.None? || bills.value.numOfBills < 0 then Fail(InvalidAmount)
    else if billType != bills.value.billType then Fail(MismatchDenomination)
    else Pass
  }

  /** Adding `bills` to a bundle of `billType` holding `count` bills: the new count. */
  function PutCount(billType: BillType, count: int, bills: Option<Bills>): (r: Result<int>)
    ensures r.Failure? <==> Validate(billType, bills).Fail?
    ensures r.Failure? ==> r.error == Validate(billType, bills).error
    ensures r.Success? ==> r.value - count == bills.value.numOfBills >= 0
    ensures r.Success? && count >= 0 ==> r.value >= 0
  {
    match Validate(billType, bills)
    case Fail(e) => Failure(e)
    case Pass => Success(count + bills.value.numOfBills)
  }

  /** Removing `bills` from a bundle of `billType` holding `count` bills: the
      new count, which can never be negative, or the reason nothing is removed. */
  function TakeCount(billType: BillType, count: int, bills: Option<Bills>): (r: Result<int>)
    ensures Validate(billType, bills).Fail? ==> r == Failure(Validate(billType, bills).error)
    ensures r == Failure(InsufficientFunds) <==> Validate(billType, bills) == Pass && count < bills.value.numOfBills
    ensures r.Success? <==> Validate(billType, bills) == Pass && bills.value.numOfBills <= count
    ensures r.Success? ==> 0 <= r.value <= count && r.value + bills.value.numOfBills == count
  {
    match Validate(billType, bills)
    case Fail(e) => Failure(e)
    case Pass =>
      if count < bills.value.numOfBills then Failure(InsufficientFunds)
      else Success(count - bills.value.numOfBills)
  }

  /** Taking back what was just put restores a non-negative count. (A bundle
      seeded with a negative count cannot take back what it was given.) */
  lemma TakeUndoesPut(billType: BillType, count: int, bills: Option<Bills>)
    requires count >= 0 && PutCount(billType, count, bills).Success?
    ensures TakeCount(billType, PutCount(billType, count, bills).value, bills) == Success(count)
  {
  }

  /** How many bills of `billType`, out of `count` available, go towards `amount`:
      none when the amount is below the face value, otherwise as many as fit,
      but no more than are available. Nothing is reserved or removed. */
  function MaxAvailableChange(billType: BillType, count: int, amount: int): (r: Result<int>)
    ensures r.Failure? <==> amount < 0
    ensures r.Failure? ==> r.error == InvalidAmount
    ensures r.Success? && amount < billType.GetDenomination() ==> r.value == 0
    ensures r.Success? ==> r.value * billType.GetDenomination() <= amount
    ensures r.Success? && count >= 0 ==> 0 <= r.value <= count
    // maximal: either every available bill is used or one more would overshoot
    ensures r.Success? && count >= 0 ==> r.value == count || (r.value + 1) * billType.GetDenomination() > amount
  {
    if amount < 0 then Failure(InvalidAmount)
    else if billType.IsLessThanDenomination(amount) then Success(0)
    else
      var d := billType.GetDenomination();
      var needed := amount / d;
      DivisionBounds(amount, d);
      if needed <= count then Success(needed)
      else
        assert count * d <= needed * d by { MultiplyMonotone(count, needed, d); }
        Success(count)
  }

  /** Integer division rounds down: the quotient's bills fit, one more does not. */
  lemma DivisionBounds(amount: int, d: int)
    requires amount >= 0 && d > 0
    ensures (amount / d) * d <= amount < (amount / d + 1) * d
  {
  }

  lemma MultiplyMonotone(a: int, b: int, d: int)
    requires a <= b && d > 0
    ensures a * d <= b * d
  {
  }

  /** The contents of a possibly null bundle reference. */
  function Snapshot(bills: BillsBundle?): (s: Option<Bills>)
    reads bills
    ensures s.None? <==> bills == null
  {
    if bills == null then None else Some(Bills(bills.billType, bills.numOfBills))
  }

  /** A bundle of bills of one type; the type is fixed, the count changes in place. */
  class BillsBundle {
    const billType: BillType
    var numOfBills: int

    /** A bundle holding no bills. */
    constructor Empty(billType: BillType)
      ensures this.billType == billType && numOfBills == 0
    {
      this.billType := billType;
      numOfBills := 0;
    }

    /** A bundle holding the given number of bills, which is not validated. */
    constructor (billType: BillType, initialNumOfBills: int)
      ensures this.billType == billType && numOfBills == initialNumOfBills
    {
      this.billType := billType;
      numOfBills := initialNumOfBills;
    }

    /** Adds the operand's bills to this bundle and returns the new count; on
        failure the count is unchanged. The operand may be this very bundle. */
    method Put(bills: BillsBundle?) returns (r: Result<int>)
      modifies this
      ensures r == PutCount(billType, old(numOfBills), old(Snapshot(bills)))
      ensures numOfBills == if r.Success? then r.value else old(numOfBills)
      ensures bills != null && bills != this ==> bills.numOfBills == old(bills.numOfBills)
    {
      var valid := Validate(billType, Snapshot(bills));
      if valid.Fail? {
        return Failure(valid.error);
      }
      numOfBills := numOfBills + bills.numOfBills;
      return Success(numOfBills);
    }

    /** Subtracts the operand's bills from this bundle and returns the new count;
        on failure the count is unchanged. */
    method Take(bills: BillsBundle?) returns (r: Result<int>)
      modifies this
      ensures r == TakeCount(billType, old(numOfBills), old(Snapshot(bills)))
      ensures numOfBills == if r.Success? then r.value else old(numOfBills)
      ensures bills != null && bills != this ==> bills.numOfBills == old(bills.numOfBills)
    {
      var valid := Validate(billType, Snapshot(bills));
      if valid.Fail? {
        return Failure(valid.error);
      }
      if numOfBills < bills.numOfBills {
        return Failure(InsufficientFunds);
      }
      numOfBills := numOfBills - bills.numOfBills;
      return Success(numOfBills);
    }

    /** The affordability probe on this bundle's current count. */
    function GetMaxAvailableChange(amount: int): (r: Result<int>)
      reads this
      ensures r == MaxAvailableChange(billType, numOfBills, amount)
    {
      MaxAvailableChange(billType, numOfBills, amount)
    }

    /** The value of the bills held: count times face value. */
    function GetTotalValue(): (v: int)
      reads this
      ensures v >= 0 <==> numOfBills >= 0
      ensures v == 0 <==> numOfBills == 0
      ensures numOfBills >= 0 ==> v >= numOfBills
    {
      numOfBills * billType.GetDenomination()
    }
  }
}
