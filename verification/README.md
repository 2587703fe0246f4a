# HelloChange cash register, modelled in Dafny

HelloChange is a cash register. It holds paper bills in five fixed
denominations ($20, $10, $5, $2, $1). Bills are put in and taken out a whole
register at a time. Change for an amount is computed greedily, from the
largest bill type down.

The model follows the Java sources file by file:

- `simple_exceptions.dfy` (module `SimpleExceptions`) holds the four error
  kinds and their fixed messages. It also holds the `Result`, `Outcome` and
  `Option` datatypes, which stand in for the checked exception and for null
  references.
- `bill_types.dfy` (module `BillTypes`) holds the bill-type enum, its face
  values, and the declaration order `Values`. Every traversal of the
  register uses that order.
- `bills_bundle.dfy` (module `BillsBundles`) is a bundle of bills of one
  type. The arithmetic is stated first on values: validation, the new count
  after a put or a take, and the affordability probe
  (`MaxAvailableChange`). The class `BillsBundle` then keeps a fixed
  `billType` and a mutable `numOfBills`. Its `Put` and `Take` update the
  count in place and are proved against those value functions. An operand
  may be null, and may be the bundle itself.
- `bank_spec.dfy` (module `BankSpec`) is the register as a value: five
  counts in the order of `Values`. It defines:
  - the total value;
  - the `show` rendering, with a round trip back to the numbers;
  - a put or take applied bill type by bill type without rollback
    (`ApplyFrom`);
  - the greedy change computation (`GreedyUpTo`, `ChangeFor`).

  The register's properties are proved here.
- `bank.dfy` (module `Banks`) is the class `Bank`. It keeps a map from bill
  type to bundle. `Put` and `Take` loop over the bill types and change the
  held bundles in place. `Change` builds a new register and leaves the
  receiver alone. Each method's `ensures` ties the new holding, or the
  result, to the matching function in `BankSpec`.
- `scenarios.dfy` (module `Scenarios`) restates the unit tests' fixtures as
  lemmas, plus one whole session on a `Bank` object.

### Where the code and its tests disagree

`Bank.change` is the greedy pass that its comment describes
(src/main/java/Bank.java:128, 144-152). For the register `1 0 3 4 0` and an
amount of 11, it takes two fives, is left one short, and has no ones, so it
throws InsufficientFunds. The tests expect the change `$11 0 0 1 3 0`
(src/test/java/com/james/BankTest.java:158-159 and 174-175). That
combination does add up to 11, but a greedy pass cannot find it. The model
follows the code. `Scenarios.ChangeWithoutTens` proves that `ChangeFor`
fails on this input even though one five and three twos make 11.
`Scenarios.ChallengeSession` plays the challenge test up to that point and
ends in InsufficientFunds.

## Model

| member | source | states |
|---|---|---|
| SimpleExceptions.Error.Message | src/main/java/com/james/SimpleException.java:15-29 | each error kind has a fixed message that begins with "Sorry - " |
| SimpleExceptions.GetException | src/main/java/com/james/SimpleException.java:31-38 | the exception carries its error's message and no other error's message |
| SimpleExceptions.MessagesDistinct | src/main/java/com/james/SimpleException.java:15-19 | the four messages are pairwise distinct, so a message identifies its error |
| BillTypes.BillType.GetDenomination | src/main/java/BillType.java:9-23 | every face value is positive, and it is 1 exactly for ONE |
| BillTypes.BillType.IsLessThanDenomination | src/main/java/BillType.java:29-31 | true for every negative amount; for a non-negative amount, true exactly when not one bill of the type fits into it |
| BillTypes.Denominations | src/main/java/BillType.java:9-13 | the face values in declaration order are exactly 20, 10, 5, 2, 1 |
| BillTypes.ValuesStrictlyDescending | src/main/java/BillType.java:8-13 | the declaration order lists every bill type once, with strictly descending face values, so no two types share a face value |
| BillsBundles.Validate | src/main/java/com/james/BillsBundle.java:56-67 | an operand passes exactly when it is present, non-negative and of the same type; an absent or negative operand is InvalidAmount, checked before a type mismatch (MismatchDenomination) |
| BillsBundles.PutCount | src/main/java/com/james/BillsBundle.java:76-81 | a put fails exactly when validation fails, with validation's error; otherwise the new count exceeds the old by the operand's non-negative count, so it is non-negative when the old count was |
| BillsBundles.TakeCount | src/main/java/com/james/BillsBundle.java:90-99 | validation errors come first; InsufficientFunds exactly when a valid operand exceeds the count; a valid operand the count covers always succeeds; on success the new count is between 0 and the old count, and adding back the operand gives the old count |
| BillsBundles.TakeUndoesPut | src/main/java/com/james/BillsBundle.java:76-99 | taking back the bills just put restores a non-negative count |
| BillsBundles.MaxAvailableChange | src/main/java/com/james/BillsBundle.java:111-132 | fails, with InvalidAmount, exactly for a negative amount; 0 below the face value; the bills returned never exceed the amount or the bills available, and are maximal (all available, or one more would overshoot) |
| BillsBundles.BillsBundle.Empty | src/main/java/com/james/BillsBundle.java:20-22 | a new bundle of the given type holds no bills |
| BillsBundles.BillsBundle.constructor | src/main/java/com/james/BillsBundle.java:30-33 | a new bundle holds the given count, unvalidated |
| BillsBundles.BillsBundle.Put | src/main/java/com/james/BillsBundle.java:76-81 | returns the put result on the operand's contents before the call; the count becomes that result on success and stays put on failure; a distinct operand is untouched |
| BillsBundles.BillsBundle.Take | src/main/java/com/james/BillsBundle.java:90-99 | returns the take result on the operand's contents before the call; the count becomes that result on success and stays put on failure; a distinct operand is untouched |
| BillsBundles.BillsBundle.GetMaxAvailableChange | src/main/java/com/james/BillsBundle.java:111-132 | the probe on the bundle's current count, reading state without changing it |
| BillsBundles.BillsBundle.GetTotalValue | src/main/java/com/james/BillsBundle.java:137-139 | the value has the sign of the count, is zero exactly for an empty bundle, and is at least the count |
| BankSpec.TotalValue | src/main/java/Bank.java:164-168 | a register's value is 20, 10, 5, 2 and 1 times its counts, and is non-negative for non-negative counts |
| BankSpec.IntToStringRoundTrip | src/main/java/Bank.java:83-87 | Java's decimal rendering of an int reads back as the same int |
| BankSpec.JoinCountsFields | src/main/java/Bank.java:86-88 | `JoinCounts` joins the counts with single spaces: split at spaces, it gives back one field per count, each the decimal rendering of that count, in order |
| BankSpec.RenderFields | src/main/java/Bank.java:80-89 | `Render`, the register's rendering, starts with "$", splits at spaces into six fields, and the fields read back as the total value and the five counts in declaration order |
| BankSpec.Step | src/main/java/com/james/BillsBundle.java:76-99 | one bill type's put or take of a same-type operand succeeds exactly when the operand is non-negative (and, for a take, covered); on success it moves the count by the operand; a failure is InvalidAmount for a negative operand and InsufficientFunds otherwise |
| BankSpec.Apply | src/main/java/Bank.java:68-75 | a put or take of an absent register fails with InvalidAmount and changes nothing |
| BankSpec.ApplyFrom | src/main/java/Bank.java:101-104 | the per-bill-type loop of a put or take never revisits a bill type already done, and can only fail with InvalidAmount or InsufficientFunds |
| BankSpec.ApplyFromPasses | src/main/java/Bank.java:101-121 | from any bill type on, the loop goes through exactly when every remaining step does; then the bill types already done keep their counts and every remaining count moves by the operand's count |
| BankSpec.ApplyFromFails | src/main/java/Bank.java:101-121 | a loop that fails has a first failing bill type at or after where it started: the steps from the start up to it succeeded and moved their counts, that step's error is the outcome, and that bill type, the later ones and the ones before the start keep their counts |
| BankSpec.ApplyPasses | src/main/java/Bank.java:97-122 | a put or take goes through exactly when every bill type's step does; then every count moves by the operand's count, and the value moves by the operand's value |
| BankSpec.NoRollback | src/main/java/Bank.java:97-122 | a put or take that fails stops at the first failing bill type with that type's error; earlier types stay applied, and that type and later ones stay as they were |
| BankSpec.WithdrawKeepsNonNegative | src/main/java/Bank.java:114-122 | a take never drives a non-negative register negative, whether it goes through or stops part way |
| BankSpec.WithdrawUndoesDeposit | src/main/java/Bank.java:97-122 | taking back a register that was just put restores a non-negative register, and goes through |
| BankSpec.GreedyUpTo | src/main/java/Bank.java:141-152 | after n bill types the greedy pass has one pick per type, and the amount still needed is never negative |
| BankSpec.GreedyAccounts | src/main/java/Bank.java:141-151 | what the greedy pass still needs, plus the value of its picks so far, is the amount asked for |
| BankSpec.GreedyWithinHolding | src/main/java/Bank.java:144-152 | from a non-negative register, each greedy pick is between none and all of that type's bills, and what is still needed never grows |
| BankSpec.ChangeFor | src/main/java/Bank.java:134-159 | InvalidAmount exactly for a negative amount; any other failure is InsufficientFunds; a success adds up to the amount exactly, and from a non-negative register it takes between none and all of each type's bills |
| BankSpec.ChangeForGreedy | src/main/java/Bank.java:144-158 | for a non-negative amount, change fails exactly when the greedy pass over all five types leaves something over, and otherwise it is the greedy pick |
| BankSpec.ChangeForZero | src/main/java/Bank.java:134-159 | change for 0 always succeeds with no bills, whatever the register holds |
| BankSpec.ChangeSucceedsWithEnoughOnes | src/main/java/Bank.java:144-156 | with at least `amount` ones in a non-negative register, change cannot fail |
| BankSpec.ChangeWithinHolding | src/main/java/Bank.java:154-156 | asking a non-negative register for more than its value is InsufficientFunds |
| BankSpec.TakeChangeSucceeds | src/main/java/Bank.java:114-159 | taking the change just computed always goes through; each count drops by the bills handed out, and the value drops by the amount |
| Banks.Bank.constructor | src/main/java/Bank.java:21-25 | a new register has a fresh bundle for each bill type, filed under its own type, and holds nothing |
| Banks.Bank.Seeded | src/main/java/Bank.java:36-44 | a new seeded register has a fresh bundle for each bill type, filed under its own type, holding the five counts given |
| Banks.Bank.GetBills | src/main/java/Bank.java:46-48 | the bundle returned is of the type asked for and is held by the register |
| Banks.Bank.SetBills | src/main/java/Bank.java:50-52 | the bundle replaces the one filed under its type; no other entry changes, and the holding changes only at that type |
| Banks.Bank.GetTotalValue | src/main/java/Bank.java:164-168 | the register's value is the value of its holding |
| Banks.Bank.Show | src/main/java/Bank.java:80-89 | the rendering "$V c20 c10 c5 c2 c1" of the holding |
| Banks.Bank.StepBillType | src/main/java/Bank.java:101-121 | one loop turn of put or take: its result is that bill type's step on the counts before the turn; only that type's count changes, and only on success; the operand's later types are untouched |
| Banks.Bank.Put | src/main/java/Bank.java:97-106 | a null operand is InvalidAmount; otherwise the outcome and new holding are exactly the in-order deposit without rollback of the operand's holding as it was before the call, even when the operand is this register |
| Banks.Bank.Take | src/main/java/Bank.java:114-122 | a null operand is InvalidAmount; otherwise the outcome and new holding are exactly the in-order withdrawal without rollback of the operand's holding as it was before the call, even when the operand is this register |
| Banks.Bank.PickBillType | src/main/java/Bank.java:145-151 | one loop turn of change: the count is the probe on this register's bundle; the value is that count times the face value; only the new register's entry for that type changes |
| Banks.Bank.Change | src/main/java/Bank.java:134-159 | fails exactly when `ChangeFor` fails, with the same error; otherwise it returns a fresh valid register holding exactly the greedy change, and the receiver is not modified |
| Scenarios.ShowExample | src/test/java/com/james/BankTest.java:38-43 | the register 1 2 3 4 5 renders as "$68 1 2 3 4 5" |
| Scenarios.ProbeExamples | src/test/java/BillsBundleTest.java:117-148 | for four tens, the probe gives 0 for amounts 0 and 2, then 1, 2, 4, 2 and 4 for 10, 20, 50, 21 and 43, and InvalidAmount for -40 |
| Scenarios.ChangeExample | src/test/java/com/james/BankTest.java:145-148 | change of 59 from 2 2 2 2 2 is 2 1 1 2 0 |
| Scenarios.ChangeTooLarge | src/test/java/com/james/BankTest.java:120-124 | change of 999999 from 2 2 2 2 2 is InsufficientFunds |
| Scenarios.ChangeWithoutTens | src/test/java/com/james/BankTest.java:155-161 | as written, change of 11 from 1 0 3 4 0 is InsufficientFunds, though 0 0 1 3 0 is worth 11 |
| Scenarios.ChangeFourteenFails | src/test/java/com/james/BankTest.java:179-180 | change of 14 from 1 0 2 1 0 is InsufficientFunds: the greedy pass does not backtrack |
| Scenarios.DepositExample | src/test/java/com/james/BankTest.java:168-169 | putting 1 2 3 0 5 into 1 2 3 4 5 goes through and gives 2 4 6 4 10 |
| Scenarios.WithdrawExample | src/test/java/com/james/BankTest.java:171-172 | taking 1 4 3 0 10 out of 2 4 6 4 10 goes through and gives 1 0 3 4 0 |
| Scenarios.ChallengeSession | src/test/java/com/james/BankTest.java:163-180 | a `Bank` seeded 1 2 3 4 5 holds 2 4 6 4 10 after the put, then 1 0 3 4 0 after the take, and its change of 11 is InsufficientFunds |

## Left out

- The interactive command loop in src/main/java/Main.java is not modelled: reading commands, printing `show()`, raising InvalidCommand, and exiting. It is console I/O around the core. InvalidCommand appears only as an error kind with its message.
- `toString` of `Bank` and `BillsBundle` is not modelled; it is a debugging string that the core never uses.
- Java's 32-bit `int` is not modelled. Counts, values and amounts are unbounded integers, so the wrap-around of `numOfBills += ...`, of `numOfBills * denomination`, and of the summed total on overflow is absent.
- `Bank.getTotalValue` and `show` stream over the map in declaration order in the model. Java sums `billsMap.values()` in hash order; the sum is the same.
- The `HashMap` becomes a Dafny `map` from bill type to bundle. Lookups and replacement are modelled; hashing and capacity are not.
- Banks.Bank.Seeded: builds the five seeded bundles directly. Java first runs `Bank()`, which creates five empty bundles that `setBills` replaces at once. The empty bundles are never observable.
- Banks.Bank.Change: promises a fresh register, but not that the bundles inside it are fresh or unshared, although Java creates a new bundle for every bill type; carrying that freshness through the loop makes the loop's proof too costly for the verifier.
- Exceptions are values (`Result`, `Outcome`) rather than thrown objects. Stack traces and the exception class hierarchy are not modelled.
- Getters `getBillType` and `getNumOfBills` are read as the fields `billType` and `numOfBills` directly.
