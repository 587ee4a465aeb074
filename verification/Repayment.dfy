/** How one loan's schedule lines are paid down: repay_installment's arithmetic on the rows themselves. */
module Repayment {
  import opened Sums
  import opened Amortization
  import opened Tenant

  function NewRow(line: ScheduleLine): RepaymentLine {
    RepaymentLine(line.number, line.due, line.principalDue, line.interestDue, 0, 0, Pending)
  }

  function NewRows(lines: seq<ScheduleLine>): (rows: seq<RepaymentLine>)
    ensures |rows| == |lines| && forall i :: 0 <= i < |rows| ==> rows[i] == NewRow(lines[i])
  {
    seq(|lines|, i requires 0 <= i < |lines| => NewRow(lines[i]))
  }

  function InterestRemaining(row: RepaymentLine): int {
    row.interestDue - row.interestPaid
  }

  function PrincipalRemaining(row: RepaymentLine): int {
    row.principalDue - row.principalPaid
  }

  function Remaining(row: RepaymentLine): int {
    InterestRemaining(row) + PrincipalRemaining(row)
  }

  predicate Settled(row: RepaymentLine) {
    row.principalPaid == row.principalDue && row.interestPaid == row.interestDue
  }

  /** The oldest pending line, or |rows| when there is none. */
  function FirstPending(rows: seq<RepaymentLine>, from: nat := 0): (k: nat)
    requires from <= |rows|
    ensures from <= k <= |rows|
    ensures forall i :: from <= i < k ==> rows[i].status == Paid
    ensures k < |rows| ==> rows[k].status == Pending
    decreases |rows| - from
  {
    if from == |rows| || rows[from].status == Pending then from
    else
      assert rows[from].status == Paid;
      FirstPending(rows, from + 1)
  }

  function InterestPortion(row: RepaymentLine, amount: int): int {
    if amount <= InterestRemaining(row) then amount else InterestRemaining(row)
  }

  function PayRow(row: RepaymentLine, amount: int): RepaymentLine {
    var interest := InterestPortion(row, amount);
    var paid := row.(interestPaid := row.interestPaid + interest,
                     principalPaid := row.principalPaid + amount - interest);
    if Settled(paid) then paid.(status := Paid) else paid
  }

  function PayRows(rows: seq<RepaymentLine>, amount: int): (after: seq<RepaymentLine>)
    requires FirstPending(rows) < |rows|
    ensures |after| == |rows|
  {
    var k := FirstPending(rows);
    rows[k := PayRow(rows[k], amount)]
  }

  // ------------------------------------------------------------ totals

  function PrincipalParts(rows: seq<RepaymentLine>): (parts: seq<int>)
    ensures |parts| == |rows| && forall i :: 0 <= i < |rows| ==> parts[i] == PrincipalRemaining(rows[i])
  {
    seq(|rows|, i requires 0 <= i < |rows| => PrincipalRemaining(rows[i]))
  }

  function Parts(rows: seq<RepaymentLine>): (parts: seq<int>)
    ensures |parts| == |rows| && forall i :: 0 <= i < |rows| ==> parts[i] == Remaining(rows[i])
  {
    seq(|rows|, i requires 0 <= i < |rows| => Remaining(rows[i]))
  }

  ghost function PrincipalOwed(rows: seq<RepaymentLine>): int {
    SumSeq(PrincipalParts(rows))
  }

  ghost function TotalOwed(rows: seq<RepaymentLine>): int {
    SumSeq(Parts(rows))
  }

  lemma ReplaceRow(rows: seq<RepaymentLine>, k: nat, row: RepaymentLine)
    requires k < |rows|
    ensures TotalOwed(rows[k := row]) == TotalOwed(rows) - Remaining(rows[k]) + Remaining(row)
    ensures PrincipalOwed(rows[k := row]) == PrincipalOwed(rows) - PrincipalRemaining(rows[k]) + PrincipalRemaining(row)
  {
    var after := rows[k := row];
    SumSeqUpdate(Parts(rows), k, Remaining(row));
    SumSeqUpdate(PrincipalParts(rows), k, PrincipalRemaining(row));
    assert Parts(after) == Parts(rows)[k := Remaining(row)];
    assert PrincipalParts(after) == PrincipalParts(rows)[k := PrincipalRemaining(row)];
  }

  /** A payment takes exactly its amount off the total, its principal portion off the principal. */
  lemma PayReduces(rows: seq<RepaymentLine>, amount: int)
    requires FirstPending(rows) < |rows|
    ensures TotalOwed(PayRows(rows, amount)) == TotalOwed(rows) - amount
    ensures PrincipalOwed(PayRows(rows, amount)) ==
            PrincipalOwed(rows) - (amount - InterestPortion(rows[FirstPending(rows)], amount))
  {
    var k := FirstPending(rows);
    ReplaceRow(rows, k, PayRow(rows[k], amount));
  }

  lemma {:induction false} NewRowsOwe(lines: seq<ScheduleLine>)
    ensures PrincipalOwed(NewRows(lines)) == PrincipalTotal(lines)
    ensures TotalOwed(NewRows(lines)) == PrincipalTotal(lines) + InterestTotal(lines)
  {
    if lines == [] {
    } else {
      var init := lines[..|lines| - 1];
      NewRowsOwe(init);
      assert PrincipalParts(NewRows(lines))[..|init|] == PrincipalParts(NewRows(init));
      assert Parts(NewRows(lines))[..|init|] == Parts(NewRows(init));
    }
  }

  // ------------------------------------------------------------ the waterfall

  predicate AllPayable(rows: seq<RepaymentLine>) {
    forall i :: 0 <= i < |rows| ==> Payable(rows[i].principalDue, rows[i].interestDue)
  }

  predicate Unpaid(row: RepaymentLine) {
    row.status == Pending && row.principalPaid == 0 && row.interestPaid == 0
  }

  /** A line being paid: something is still due, and no principal before all of its interest. */
  predicate PartlyPaid(row: RepaymentLine) {
    && row.status == Pending
    && 0 <= row.interestPaid <= row.interestDue
    && 0 <= row.principalPaid
    && (row.principalPaid > 0 ==> row.interestPaid == row.interestDue)
    && Remaining(row) > 0
  }

  /** Paid lines form a prefix, at most the next line is partly paid, the others are untouched. */
  ghost predicate Waterfall(rows: seq<RepaymentLine>) {
    var k := FirstPending(rows);
    && (forall i :: 0 <= i < k ==> Settled(rows[i]))
    && (k < |rows| ==> PartlyPaid(rows[k]))
    && (forall i :: k < i < |rows| ==> Unpaid(rows[i]))
  }

  lemma NewRowsFall(lines: seq<ScheduleLine>)
    requires AllPayable(NewRows(lines))
    ensures Waterfall(NewRows(lines))
  {
  }

  lemma PaidExactlyWhenSettled(rows: seq<RepaymentLine>, i: nat)
    requires AllPayable(rows) && Waterfall(rows) && i < |rows|
    ensures rows[i].status == Paid <==> Settled(rows[i])
  {
  }

  lemma PayKeepsWaterfall(rows: seq<RepaymentLine>, amount: int)
    requires AllPayable(rows) && Waterfall(rows) && FirstPending(rows) < |rows|
    requires 0 < amount <= Remaining(rows[FirstPending(rows)])
    ensures AllPayable(PayRows(rows, amount)) && Waterfall(PayRows(rows, amount))
    ensures
      var k := FirstPending(rows);
      FirstPending(PayRows(rows, amount)) == if amount == Remaining(rows[k]) then k + 1 else k
  {
    var k, after := FirstPending(rows), PayRows(rows, amount);
    FirstPendingIs(after, if amount == Remaining(rows[k]) then k + 1 else k);
  }

  /** The first pending line is determined by the lines before it being paid. */
  lemma {:induction false} FirstPendingIs(rows: seq<RepaymentLine>, k: nat, from: nat := 0)
    requires from <= k <= |rows|
    requires forall i :: from <= i < k ==> rows[i].status == Paid
    requires k < |rows| ==> rows[k].status == Pending
    ensures FirstPending(rows, from) == k
    decreases k - from
  {
    if from == k {
    } else {
      FirstPendingIs(rows, k, from + 1);
    }
  }

  /** With payable lines, nothing is owed exactly when no line is pending. */
  lemma NothingOwedIff(rows: seq<RepaymentLine>)
    requires AllPayable(rows) && Waterfall(rows)
    ensures TotalOwed(rows) >= 0
    ensures TotalOwed(rows) == 0 <==> FirstPending(rows) == |rows|
  {
    var owed := Parts(rows);
    SumSeqBound(owed);
    if FirstPending(rows) == |rows| {
      SumSeqZero(owed);
    } else {
      assert owed[FirstPending(rows)] > 0;
    }
  }

  // ------------------------------------------------------------ lines that can never be settled

  /** The states a pending line can reach when it is not payable; none of them is settled. */
  predicate Stuck(row: RepaymentLine) {
    && !Payable(row.principalDue, row.interestDue)
    && row.status == Pending
    && row.principalPaid == 0
    && 0 <= row.interestPaid
    && (row.interestDue < 0 ==> row.interestPaid == 0)
    && (row.interestPaid > 0 ==> row.interestPaid <= row.principalDue + row.interestDue)
  }

  /** Not even a known key helps: a posting that is skipped lets a negative interest part be "paid",
      so where the interest is negative there must be nothing to pay in all. */
  predicate StuckFast(row: RepaymentLine) {
    Stuck(row) && (row.interestDue >= 0 || row.principalDue + row.interestDue <= 0)
  }

  /** Any positive payment the code accepts on such a line leaves it so. */
  lemma StuckStaysStuck(row: RepaymentLine, amount: int)
    requires StuckFast(row) && 0 < amount <= Remaining(row)
    ensures StuckFast(PayRow(row, amount))
  {
  }
}
