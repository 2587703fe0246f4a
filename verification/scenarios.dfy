/** Worked examples from the repository's unit tests, stated on the model:
    renderings, change amounts, the bundle probe, and one whole session on
    the register class. */
module Scenarios {
  import opened BillTypes
  import opened SimpleExceptions
  import opened BillsBundles
  import opened BankSpec
  import opened Banks

  /** The counts 1 2 3 4 5 joined by single spaces. */
  lemma JoinExample()
    ensures JoinCounts([1, 2, 3, 4, 5]) == "1 2 3 4 5"
  {
    assert JoinCounts([5]) == IntToString(5) == "5";
    assert JoinCounts([4, 5]) == IntToString(4) + " " + "5" == "4 5" by { assert [4, 5][1..] == [5]; }
    assert JoinCounts([3, 4, 5]) == "3 " + "4 5" by { assert [3, 4, 5][1..] == [4, 5]; }
    assert JoinCounts([2, 3, 4, 5]) == "2 " + "3 4 5" by { assert [2, 3, 4, 5][1..] == [3, 4, 5]; }
    assert [1, 2, 3, 4, 5][1..] == [2, 3, 4, 5];
  }

  /** The rendering of the register seeded with one twenty, two tens, three
      fives, four twos and five ones. */
  lemma ShowExample()
    ensures Render([1, 2, 3, 4, 5]) == "$68 1 2 3 4 5"
  {
    assert TotalValue([1, 2, 3, 4, 5]) == 68;
    assert IntToString(68) == NatToString(6) + [DigitChar(8)] == "68";
    JoinExample();
  }

  /** The probe on a bundle of four tens: nothing below a ten, as many tens as
      fit, never more than four, and a negative amount is refused. */
  lemma ProbeExamples()
    ensures MaxAvailableChange(TEN, 4, 0) == Success(0)
    ensures MaxAvailableChange(TEN, 4, 2) == Success(0)
    ensures MaxAvailableChange(TEN, 4, 10) == Success(1)
    ensures MaxAvailableChange(TEN, 4, 20) == Success(2)
    ensures MaxAvailableChange(TEN, 4, 50) == Success(4)
    ensures MaxAvailableChange(TEN, 4, 21) == Success(2)
    ensures MaxAvailableChange(TEN, 4, 43) == Success(4)
    ensures MaxAvailableChange(TEN, 4, -40) == Failure(InvalidAmount)
  {
  }

  /** Change of 59 from a register holding two bills of each type: both
      twenties, a ten, a five and two twos. */
  lemma ChangeExample()
    ensures ChangeFor([2, 2, 2, 2, 2], 59).Success? && ChangeFor([2, 2, 2, 2, 2], 59).value == [2, 1, 1, 2, 0]
  {
    var c: Counts := [2, 2, 2, 2, 2];
    GreedyStep(c, 0, 59, 2);
    GreedyStep(c, 1, 59, 1);
    GreedyStep(c, 2, 59, 1);
    GreedyStep(c, 3, 59, 2);
    GreedyStep(c, 4, 59, 0);
    assert GreedyUpTo(c, 5, 59) == Greedy([2, 1, 1, 2, 0], 0);
    ChangeForGreedy(c, 59);
  }

  /** With no ten to hand, the greedy pass spends two fives on eleven and is
      left one short with no ones, although one five and three twos make
      eleven exactly. */
  lemma ChangeWithoutTens()
    ensures ChangeFor([1, 0, 3, 4, 0], 11) == Failure(InsufficientFunds)
    ensures TotalValue([0, 0, 1, 3, 0]) == 11
  {
    var c: Counts := [1, 0, 3, 4, 0];
    GreedyStep(c, 0, 11, 0);
    GreedyStep(c, 1, 11, 0);
    GreedyStep(c, 2, 11, 2);
    GreedyStep(c, 3, 11, 0);
    GreedyStep(c, 4, 11, 0);
    assert GreedyUpTo(c, 5, 11).left == 1;
    ChangeForGreedy(c, 11);
  }

  /** A register holding $76 cannot give change of 999999. */
  lemma ChangeTooLarge()
    ensures ChangeFor([2, 2, 2, 2, 2], 999999) == Failure(InsufficientFunds)
  {
    var c: Counts := [2, 2, 2, 2, 2];
    assert TotalValue(c) == 76;
    ChangeWithinHolding(c, 999999);
  }

  /** Fourteen from one twenty, two fives and a two: two fives leave four, the
      two leaves two, and there is no second two or any one to finish. */
  lemma ChangeFourteenFails()
    ensures ChangeFor([1, 0, 2, 1, 0], 14) == Failure(InsufficientFunds)
  {
    var c: Counts := [1, 0, 2, 1, 0];
    GreedyStep(c, 0, 14, 0);
    GreedyStep(c, 1, 14, 0);
    GreedyStep(c, 2, 14, 2);
    GreedyStep(c, 3, 14, 1);
    GreedyStep(c, 4, 14, 0);
    assert GreedyUpTo(c, 5, 14).left == 2;
    ChangeForGreedy(c, 14);
  }

  /** Putting 1 2 3 0 5 into a register holding 1 2 3 4 5. */
  lemma DepositExample()
    ensures Apply(Deposit, [1, 2, 3, 4, 5], Option<Counts>.Some([1, 2, 3, 0, 5])) == Applied([2, 4, 6, 4, 10], Pass)
  {
    ApplyPasses(Deposit, [1, 2, 3, 4, 5], [1, 2, 3, 0, 5]);
    var r := Apply(Deposit, [1, 2, 3, 4, 5], Option<Counts>.Some([1, 2, 3, 0, 5]));
    assert r.counts == [2, 4, 6, 4, 10];
  }

  /** Taking 1 4 3 0 10 out of a register holding 2 4 6 4 10. */
  lemma WithdrawExample()
    ensures Apply(Withdraw, [2, 4, 6, 4, 10], Option<Counts>.Some([1, 4, 3, 0, 10])) == Applied([1, 0, 3, 4, 0], Pass)
  {
    ApplyPasses(Withdraw, [2, 4, 6, 4, 10], [1, 4, 3, 0, 10]);
    var r := Apply(Withdraw, [2, 4, 6, 4, 10], Option<Counts>.Some([1, 4, 3, 0, 10]));
    assert r.counts == [1, 0, 3, 4, 0];
  }

  /** A session on one register: seeded with 1 2 3 4 5, it receives 1 2 3 0 5,
      gives up 1 4 3 0 10, and is then asked for change of 11, which the greedy
      pass cannot give. */
  method ChallengeSession() returns (afterPut: Counts, afterTake: Counts, change: Result<Bank>)
    ensures afterPut == [2, 4, 6, 4, 10] && afterTake == [1, 0, 3, 4, 0]
    ensures change == Failure(InsufficientFunds)
  {
    var bank := new Bank.Seeded(1, 2, 3, 4, 5);
    var deposit := new Bank.Seeded(1, 2, 3, 0, 5);
    DepositExample();
    var putOutcome := bank.Put(deposit);
    afterPut := bank.Holding();
    var withdrawal := new Bank.Seeded(1, 4, 3, 0, 10);
    WithdrawExample();
    var takeOutcome := bank.Take(withdrawal);
    afterTake := bank.Holding();
    ChangeWithoutTens();
    change := bank.Change(11);
  }
}
