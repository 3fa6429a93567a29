/** The reconciliation agent: folds an account's transactions into a calculated balance and
    compares it with the expected balance. */
module Reconciliation {
  import opened Common
  import opened Sums

  /** A transaction as the transaction service returns it: its amount (already a Decimal) and
      its `entry_type` string. */
  datatype Transaction = Transaction(amount: real, entryType: string)

  /** The reconciliation report, with amounts as numbers rather than their `str` renderings. */
  datatype Report = Report(
    account: string, periodStart: Instant, periodEnd: Instant,
    expectedBalance: real, calculatedBalance: real, variance: real,
    isBalanced: bool, transactionCount: nat, reconciledAt: Instant)

  /** A variance strictly below one cent in magnitude counts as balanced. */
  const Tolerance: real := 0.01

  /** A credit adds its amount; every other entry type subtracts it. */
  function Signed(t: Transaction): real
  {
    if t.entryType == "credit" then t.amount else -t.amount
  }

  /** The amount of a transaction if it is a credit, else nothing. */
  function CreditAmount(t: Transaction): real
  {
    if t.entryType == "credit" then t.amount else 0.0
  }

  /** The amount of a transaction if it is anything but a credit, else nothing. */
  function OtherAmount(t: Transaction): real
  {
    if t.entryType == "credit" then 0.0 else t.amount
  }

  /** The balance the loop accumulates. */
  function Balance(ts: seq<Transaction>): real
  {
    Sum(ts, Signed)
  }

  /** `reconcile_account` on the transactions the service returned for the account and
      period; `now` is the clock reading stamped into the report. */
  method ReconcileAccount(account: string, expectedBalance: real, startDate: Instant, endDate: Instant,
                          transactions: seq<Transaction>, now: Instant) returns (report: Report)
    ensures report.calculatedBalance == Balance(transactions)
    ensures report.variance == expectedBalance - report.calculatedBalance
    ensures report.isBalanced <==> -Tolerance < report.variance < Tolerance
    ensures report.transactionCount == |transactions|
    ensures transactions == [] ==> report.calculatedBalance == 0.0 && report.variance == expectedBalance
    ensures report.account == account && report.expectedBalance == expectedBalance
    ensures report.periodStart == startDate && report.periodEnd == endDate && report.reconciledAt == now
  {
    var calculated := 0.0;
    for i := 0 to |transactions|
      invariant calculated == Balance(transactions[..i])
    {
      var txn := transactions[i];
      assert transactions[..i + 1][..i] == transactions[..i];
      if txn.entryType == "credit" {
        calculated := calculated + txn.amount;
      } else {
        calculated := calculated - txn.amount;
      }
    }
    assert transactions[..|transactions|] == transactions;
    var variance := expectedBalance - calculated;
    var magnitude := if variance < 0.0 then -variance else variance;
    report := Report(account, startDate, endDate, expectedBalance, calculated, variance,
                     magnitude < Tolerance, |transactions|, now);
  }

  /** The calculated balance is the credit total minus the total of everything else. */
  lemma {:induction false} BalanceIsCreditsMinusOthers(ts: seq<Transaction>)
    ensures Balance(ts) == Sum(ts, CreditAmount) - Sum(ts, OtherAmount)
    decreases |ts|
  {
    if ts != [] {
      BalanceIsCreditsMinusOthers(ts[..|ts| - 1]);
    }
  }

  /** Reordering the transactions does not change the calculated balance. */
  lemma BalanceIgnoresOrder(ts: seq<Transaction>, us: seq<Transaction>)
    requires multiset(ts) == multiset(us)
    ensures Balance(ts) == Balance(us)
  {
    SumPermutation(ts, us, Signed);
  }

  /** Balances add up over consecutive batches of transactions. */
  lemma BalanceOfBatches(ts: seq<Transaction>, us: seq<Transaction>)
    ensures Balance(ts + us) == Balance(ts) + Balance(us)
  {
    SumAppend(ts, us, Signed);
  }

  /** A credit and an equal transaction of any other type cancel out. */
  lemma {:induction false} OffsettingPairCancels(amount: real, otherType: string)
    requires otherType != "credit"
    ensures Balance([Transaction(amount, "credit"), Transaction(amount, otherType)]) == 0.0
  {
    var ts := [Transaction(amount, "credit"), Transaction(amount, otherType)];
    var first := ts[..1];
    assert first[..0] == [] && first[0] == ts[0] && ts[..|ts| - 1] == first;
    assert Sum(first, Signed) == Sum([], Signed) + Signed(ts[0]);
    assert Sum(ts, Signed) == Sum(first, Signed) + Signed(ts[1]);
  }
}
