/** Repayment schedules: the two loops of amortization.py and what their rounding does.
    A schedule is a sequence of lines; line k sits at index k - 1. */
module Amortization {
  import opened Money
  import opened Calendar
  import opened Reals

  datatype AmortizationMethod = Flat | DecliningBalance

  datatype ScheduleLine = ScheduleLine(number: nat, due: Date, principalDue: int, interestDue: int)

  /** Sum of principal_due over the lines. */
  function PrincipalTotal(lines: seq<ScheduleLine>): int {
    if |lines| == 0 then 0 else PrincipalTotal(lines[..|lines| - 1]) + lines[|lines| - 1].principalDue
  }

  function InterestTotal(lines: seq<ScheduleLine>): int {
    if |lines| == 0 then 0 else InterestTotal(lines[..|lines| - 1]) + lines[|lines| - 1].interestDue
  }

  // ---------------------------------------------------------------- specification

  /** The unrounded annuity payment: P*r / (1 - (1+r)^-n), and P/n without interest. */
  function ExactInstallment(principal: int, rate: real, term: nat): real
    requires rate >= 0.0 && term >= 1
  {
    if rate == 0.0 then principal as real / term as real
    else
      PowGrows(1.0 + rate, term);
      Times(principal as real, rate) / (1.0 - 1.0 / Pow(1.0 + rate, term))
  }

  function Installment(principal: int, rate: real, term: nat): int
    requires rate >= 0.0 && term >= 1
  {
    Round(ExactInstallment(principal, rate, term))
  }

  function Interest(balance: int, rate: real): int {
    Round(Times(balance as real, rate))
  }

  /** What is still owed after k regular lines of a declining-balance schedule. */
  function Balance(principal: int, rate: real, installment: int, k: nat): int {
    if k == 0 then principal
    else
      var before := Balance(principal, rate, installment, k - 1);
      before - (installment - Interest(before, rate))
  }

  function DecliningLine(principal: int, rate: real, installment: int, term: nat, start: Date, i: nat): ScheduleLine
    requires 1 <= i <= term && start.Valid()
  {
    var remaining := Balance(principal, rate, installment, i - 1);
    var interest := Interest(remaining, rate);
    ScheduleLine(i, AddMonths(start, i), if i == term then remaining else installment - interest, interest)
  }

  function FlatLine(principal: int, slice: int, interest: int, term: nat, start: Date, i: nat): ScheduleLine
    requires 1 <= i <= term && start.Valid()
  {
    ScheduleLine(i, AddMonths(start, i), if i == term then principal - (term - 1) * slice else slice, interest)
  }

  function DecliningLines(principal: int, rate: real, installment: int, term: nat, start: Date):
    (lines: seq<ScheduleLine>)
    requires start.Valid()
    ensures |lines| == term
  {
    seq(term, k requires 0 <= k < term => DecliningLine(principal, rate, installment, term, start, k + 1))
  }

  function FlatLines(principal: int, slice: int, interest: int, term: nat, start: Date): (lines: seq<ScheduleLine>)
    requires start.Valid()
    ensures |lines| == term
  {
    seq(term, k requires 0 <= k < term => FlatLine(principal, slice, interest, term, start, k + 1))
  }

  function FlatSlice(principal: int, term: nat): int
    requires term >= 1
  {
    Round(principal as real / term as real)
  }

  function Schedule(principal: int, rate: real, term: nat, style: AmortizationMethod, start: Date):
    (lines: seq<ScheduleLine>)
    requires rate >= 0.0 && term >= 1 && start.Valid()
    ensures |lines| == term
    ensures forall k :: 0 <= k < term ==> lines[k].number == k + 1 && lines[k].due == AddMonths(start, k + 1)
  {
    if style == Flat then FlatLines(principal, FlatSlice(principal, term), Interest(principal, rate), term, start)
    else DecliningLines(principal, rate, Installment(principal, rate, term), term, start)
  }

  // ---------------------------------------------------------------- the code

  method GenerateRepaymentSchedule(principal: int, rate: real, term: nat, style: AmortizationMethod, start: Date)
    returns (lines: seq<ScheduleLine>)
    requires rate >= 0.0 && term >= 1 && start.Valid()
    ensures lines == Schedule(principal, rate, term, style, start)
    ensures PrincipalTotal(lines) == principal
  {
    if style == Flat {
      lines := FlatSchedule(principal, rate, term, start);
    } else {
      lines := DecliningBalanceSchedule(principal, rate, term, start);
    }
    ScheduleIsExact(principal, rate, term, style, start);
  }

  method FlatSchedule(principal: int, rate: real, term: nat, start: Date) returns (lines: seq<ScheduleLine>)
    requires term >= 1 && start.Valid()
    ensures lines == FlatLines(principal, FlatSlice(principal, term), Interest(principal, rate), term, start)
  {
    var principalPerPeriod := Round(principal as real / term as real);
    var interestPerPeriod := Round(Times(principal as real, rate));
    lines := [];
    var handedOut := 0;
    for i := 1 to term + 1
      invariant |lines| == i - 1
      invariant i <= term ==> handedOut == (i - 1) * principalPerPeriod
      invariant lines == FlatLines(principal, principalPerPeriod, interestPerPeriod, term, start)[..i - 1]
    {
      var principalDue;
      if i == term {
        principalDue := principal - handedOut;
      } else {
        principalDue := principalPerPeriod;
        handedOut := handedOut + principalDue;
      }
      lines := lines + [ScheduleLine(i, AddMonths(start, i), principalDue, interestPerPeriod)];
    }
  }

  method DecliningBalanceSchedule(principal: int, rate: real, term: nat, start: Date)
    returns (lines: seq<ScheduleLine>)
    requires rate >= 0.0 && term >= 1 && start.Valid()
    ensures lines == DecliningLines(principal, rate, Installment(principal, rate, term), term, start)
  {
    var installment;
    if rate == 0.0 {
      installment := Round(principal as real / term as real);
    } else {
      PowGrows(1.0 + rate, term);
      var factor := 1.0 - 1.0 / Pow(1.0 + rate, term);
      installment := Round(Times(principal as real, rate) / factor);
    }
    lines := DecliningLoop(principal, rate, installment, term, start);
  }

  /** The loop of _declining_balance_schedule, for whatever installment was rounded before it. */
  method DecliningLoop(principal: int, rate: real, installment: int, term: nat, start: Date)
    returns (lines: seq<ScheduleLine>)
    requires start.Valid()
    ensures lines == DecliningLines(principal, rate, installment, term, start)
  {
    var remaining := principal;
    lines := [];
    for i := 1 to term + 1
      invariant |lines| == i - 1
      invariant i <= term ==> remaining == Balance(principal, rate, installment, i - 1)
      invariant lines == DecliningLines(principal, rate, installment, term, start)[..i - 1]
    {
      var interestDue := Interest(remaining, rate);
      var principalDue;
      if i == term {
        principalDue := remaining;
      } else {
        RoundOfCents(installment - interestDue);
        principalDue := Round((installment - interestDue) as real);
      }
      lines := lines + [ScheduleLine(i, AddMonths(start, i), principalDue, interestDue)];
      remaining := remaining - principalDue;
    }
  }

  // ---------------------------------------------------------------- exactness

  /** For both methods the principal parts add up to the principal, to the cent. */
  lemma ScheduleIsExact(principal: int, rate: real, term: nat, style: AmortizationMethod, start: Date)
    requires rate >= 0.0 && term >= 1 && start.Valid()
    ensures PrincipalTotal(Schedule(principal, rate, term, style, start)) == principal
  {
    if style == Flat {
      FlatIsExact(principal, FlatSlice(principal, term), Interest(principal, rate), term, start);
    } else {
      DecliningIsExact(principal, rate, Installment(principal, rate, term), term, start);
    }
  }

  lemma FlatIsExact(principal: int, slice: int, interest: int, term: nat, start: Date)
    requires term >= 1 && start.Valid()
    ensures PrincipalTotal(FlatLines(principal, slice, interest, term, start)) == principal
  {
    var lines := FlatLines(principal, slice, interest, term, start);
    FlatPrefix(lines, slice, term - 1);
    assert lines[..term] == lines && lines[..term][..term - 1] == lines[..term - 1];
  }

  lemma {:induction false} FlatPrefix(lines: seq<ScheduleLine>, slice: int, k: nat)
    requires k <= |lines| && forall i :: 0 <= i < k ==> lines[i].principalDue == slice
    ensures PrincipalTotal(lines[..k]) == k * slice
  {
    if k == 0 {
    } else {
      FlatPrefix(lines, slice, k - 1);
      assert lines[..k][..k - 1] == lines[..k - 1];
      assert k * slice == (k - 1) * slice + slice;
    }
  }

  lemma {:induction false} DecliningPrefix(principal: int, rate: real, installment: int, term: nat, start: Date, k: nat)
    requires start.Valid() && k < term
    ensures PrincipalTotal(DecliningLines(principal, rate, installment, term, start)[..k]) ==
            principal - Balance(principal, rate, installment, k)
  {
    if k == 0 {
    } else {
      var lines := DecliningLines(principal, rate, installment, term, start);
      DecliningPrefix(principal, rate, installment, term, start, k - 1);
      assert lines[..k][..k - 1] == lines[..k - 1];
    }
  }

  lemma DecliningIsExact(principal: int, rate: real, installment: int, term: nat, start: Date)
    requires term >= 1 && start.Valid()
    ensures PrincipalTotal(DecliningLines(principal, rate, installment, term, start)) == principal
  {
    var lines := DecliningLines(principal, rate, installment, term, start);
    DecliningPrefix(principal, rate, installment, term, start, term - 1);
    assert lines[..term] == lines && lines[..term][..term - 1] == lines[..term - 1];
  }

  // ---------------------------------------------------------------- line by line

  /** The cents charged for an amount: at most half a cent off, ties away from zero. */
  predicate ToTheCent(cents: int, amount: real) {
    && -0.5 <= cents as real - amount <= 0.5
    && (cents as real - amount == 0.5 ==> amount > 0.0)
    && (cents as real - amount == -0.5 ==> amount < 0.0)
  }

  /** The amount line k charges interest on: all that is lent, or what the lines before it leave of that. */
  function ChargedOn(lines: seq<ScheduleLine>, style: AmortizationMethod, k: nat): int
    requires k <= |lines|
  {
    PrincipalTotal(lines) - if style == Flat then 0 else PrincipalTotal(lines[..k])
  }

  /** Each line's interest, for both methods. */
  lemma LineInterest(principal: int, rate: real, term: nat, style: AmortizationMethod, start: Date, k: nat)
    requires rate >= 0.0 && term >= 1 && start.Valid() && k < term
    ensures
      var lines := Schedule(principal, rate, term, style, start);
      lines[k].interestDue == Round(Times(ChargedOn(lines, style, k) as real, rate))
  {
    ScheduleIsExact(principal, rate, term, style, start);
    if style == DecliningBalance {
      DecliningPrefix(principal, rate, Installment(principal, rate, term), term, start, k);
    }
  }

  /** Every FLAT line charges interest on the whole principal, and every line but the last the n-th part of it. */
  lemma FlatLineCharges(principal: int, rate: real, term: nat, start: Date, k: nat)
    requires rate >= 0.0 && term >= 1 && start.Valid() && k < term
    ensures
      var lines := Schedule(principal, rate, term, Flat, start);
      && lines[k].number == k + 1
      && ToTheCent(lines[k].interestDue, Times(principal as real, rate))
      && (k < term - 1 ==> ToTheCent(lines[k].principalDue, principal as real / term as real))
      && (k == term - 1 ==> lines[k].principalDue == principal - PrincipalTotal(lines[..k]))
  {
    FlatPrefix(Schedule(principal, rate, term, Flat, start), FlatSlice(principal, term), term - 1);
  }

  /** Every declining-balance line charges interest on the principal that the lines before it leave; with the
      principal part it makes up the installment, and the last line pays off what is left. */
  lemma DecliningLineCharges(principal: int, rate: real, term: nat, start: Date, k: nat)
    requires rate >= 0.0 && term >= 1 && start.Valid() && k < term
    ensures
      var lines := Schedule(principal, rate, term, DecliningBalance, start);
      var left := principal - PrincipalTotal(lines[..k]);
      && lines[k].number == k + 1
      && ToTheCent(lines[k].interestDue, Times(left as real, rate))
      && (k < term - 1 ==>
            ToTheCent(lines[k].principalDue + lines[k].interestDue, ExactInstallment(principal, rate, term)))
      && (k == term - 1 ==> lines[k].principalDue == left)
  {
    DecliningPrefix(principal, rate, Installment(principal, rate, term), term, start, k);
  }

  /** The interest of a FLAT schedule: n times the rounded interest on the principal. */
  lemma FlatInterestTotal(principal: int, rate: real, term: nat, start: Date)
    requires rate >= 0.0 && term >= 1 && start.Valid()
    ensures InterestTotal(Schedule(principal, rate, term, Flat, start)) ==
            term * Round(Times(principal as real, rate))
  {
    ConstantInterest(Schedule(principal, rate, term, Flat, start), Round(Times(principal as real, rate)));
  }

  lemma {:induction false} ConstantInterest(lines: seq<ScheduleLine>, interest: int)
    requires forall k :: 0 <= k < |lines| ==> lines[k].interestDue == interest
    ensures InterestTotal(lines) == |lines| * interest
  {
    if lines == [] {
    } else {
      ConstantInterest(lines[..|lines| - 1], interest);
      assert |lines| * interest == (|lines| - 1) * interest + interest;
    }
  }

  // ---------------------------------------------------------------- FLAT

  /** The last FLAT line carries all the rounding: it is within (n-1)/2 cents of P/n. */
  lemma FlatLastLineDrift(principal: int, rate: real, term: nat, start: Date)
    requires rate >= 0.0 && term >= 1 && start.Valid()
    ensures
      var last := Schedule(principal, rate, term, Flat, start)[term - 1].principalDue;
      var gap := last as real - principal as real / term as real;
      -((term - 1) as real) <= 2.0 * gap <= (term - 1) as real
  {
    SliceLeftover(principal, term, FlatSlice(principal, term));
  }

  lemma SliceLeftover(principal: int, term: nat, slice: int)
    requires term >= 1 && -0.5 <= slice as real - principal as real / term as real <= 0.5
    ensures
      var gap := (principal - (term - 1) * slice) as real - principal as real / term as real;
      -((term - 1) as real) <= 2.0 * gap <= (term - 1) as real
  {
    var share, rest := principal as real / term as real, (term - 1) as real;
    ShareOfTotal(principal as real, share, rest);
    IntTimes(term - 1, slice);
    TimesSpread(rest, slice as real, share, 0.5);
    assert Times(rest, 0.5) == 0.5 * rest;
  }

  lemma ShareOfTotal(total: real, share: real, rest: real)
    requires rest >= 0.0 && share == total / (rest + 1.0)
    ensures Times(rest, share) + share == total
  {
    DivideTimes(total, rest + 1.0);
    PlusTimes(rest, 1.0, share);
    TimesOne(share);
  }

  /** Above n(n-1)/2 cents every FLAT principal part is positive. */
  lemma FlatThreshold(principal: int, rate: real, term: nat, start: Date, k: nat)
    requires rate >= 0.0 && term >= 1 && start.Valid() && k < term
    requires 2 * principal > term * (term - 1)
    ensures Schedule(principal, rate, term, Flat, start)[k].principalDue > 0
  {
    ShareExceeds(principal, term);
    if k == term - 1 {
      FlatLastLineDrift(principal, rate, term, start);
    }
  }

  lemma ShareExceeds(principal: int, term: nat)
    requires term >= 1 && 2 * principal > term * (term - 1)
    ensures 2.0 * (principal as real / term as real) > (term - 1) as real
  {
    var share, rest := principal as real / term as real, (term - 1) as real;
    ShareOfTotal(principal as real, share, rest);
    assert term * (term - 1) == (term - 1) * (term - 1) + (term - 1);
    IntTimes(term - 1, term - 1);
    if 2.0 * share <= rest {
      TimesOrder(rest, share + share, rest);
      TimesPlus(rest, share, share);
      assert false;
    }
  }

  /** The threshold is sharp: at n(n-1)/2 cents, for even n, the last line is worth nothing. */
  lemma FlatThresholdIsSharp(half: nat, rate: real, start: Date)
    requires rate >= 0.0 && half >= 1 && start.Valid()
    ensures
      var term := 2 * half;
      Schedule(half * (term - 1), rate, term, Flat, start)[term - 1].principalDue == 0
  {
    HalfShare(half);
    RoundIsDetermined((half * (2 * half - 1)) as real / (2 * half) as real, half);
    assert half * (2 * half - 1) == (2 * half - 1) * half;
  }

  lemma HalfShare(half: nat)
    requires half >= 1
    ensures (half * (2 * half - 1)) as real / (2 * half) as real == half as real - 0.5
  {
    var n, h := (2 * half) as real, half as real;
    IntTimes(half, 2 * half - 1);
    TimesPlus(n, h, -0.5);
    TimesPlus(h, n, -1.0);
    TimesCommute(n, h);
    assert Times(n, -0.5) == -h && Times(h, -1.0) == -h;
    TimesDivide(n, h - 0.5, (half * (2 * half - 1)) as real);
  }

  // ---------------------------------------------------------------- declining balance: shape

  /** The installment covers at least the first interest, so the balance never grows. */
  lemma InstallmentCoversInterest(principal: int, rate: real, term: nat)
    requires principal >= 0 && rate >= 0.0 && term >= 1
    ensures Installment(principal, rate, term) >= Interest(principal, rate)
  {
    var first := Times(principal as real, rate);
    TimesSign(principal as real, rate);
    if rate == 0.0 {
      TimesSign(principal as real, 1.0 / term as real);
      assert first == 0.0;
    } else {
      PowGrows(1.0 + rate, term);
      QuotientGrows(first, 1.0 - 1.0 / Pow(1.0 + rate, term));
    }
    RoundMonotone(first, ExactInstallment(principal, rate, term));
  }

  lemma QuotientGrows(x: real, factor: real)
    requires x >= 0.0 && 0.0 < factor <= 1.0
    ensures x / factor >= x
  {
    DivideTimes(x, factor);
    if x / factor < x {
      TimesOrder(factor, x / factor, x);
      TimesOrder(x, factor, 1.0);
      TimesOne(x);
      TimesSwap(1.0, factor, x);
      TimesOne(Times(factor, x));
      TimesOne(Times(x, factor));
      TimesCancel(factor, x / factor, x);
      assert false;
    }
  }

  lemma InterestMonotone(a: int, b: int, rate: real)
    requires a <= b && rate >= 0.0
    ensures Interest(a, rate) <= Interest(b, rate)
  {
    TimesOrder(rate, a as real, b as real);
    TimesCommute(rate, a as real);
    TimesCommute(rate, b as real);
    RoundMonotone(Times(a as real, rate), Times(b as real, rate));
  }

  lemma {:induction false} BalanceDeclines(principal: int, rate: real, installment: int, k: nat)
    requires rate >= 0.0 && installment >= Interest(principal, rate)
    ensures Balance(principal, rate, installment, k + 1) <= Balance(principal, rate, installment, k) <= principal
  {
    if k == 0 {
    } else {
      BalanceDeclines(principal, rate, installment, k - 1);
    }
    InterestMonotone(Balance(principal, rate, installment, k), principal, rate);
  }

  /** Regular lines: constant total, principal non-negative and non-decreasing, interest non-increasing. */
  lemma DecliningShape(principal: int, rate: real, term: nat, start: Date, k: nat)
    requires principal > 0 && rate >= 0.0 && term >= 1 && start.Valid() && k < term
    ensures
      var lines := Schedule(principal, rate, term, DecliningBalance, start);
      && (k < term - 1 ==>
            && lines[k].principalDue + lines[k].interestDue == Installment(principal, rate, term)
            && lines[k].principalDue >= 0)
      && (k > 0 ==> lines[k].interestDue <= lines[k - 1].interestDue)
      && (0 < k < term - 1 ==> lines[k - 1].principalDue <= lines[k].principalDue)
  {
    InstallmentCoversInterest(principal, rate, term);
    var installment := Installment(principal, rate, term);
    BalanceDeclines(principal, rate, installment, k);
    if k > 0 {
      BalanceDeclines(principal, rate, installment, k - 1);
      InterestMonotone(Balance(principal, rate, installment, k), Balance(principal, rate, installment, k - 1), rate);
    }
  }

  /** A line that positive payments can settle; see Closing.LoanClosableIff. */
  predicate Payable(principalDue: int, interestDue: int) {
    principalDue >= 0 && interestDue >= 0 && principalDue + interestDue > 0
  }

  lemma FlatIsPayable(principal: int, rate: real, term: nat, start: Date, k: nat)
    requires principal > 0 && rate >= 0.0 && term >= 1 && start.Valid() && k < term
    requires 2 * principal > term * (term - 1)
    ensures
      var line := Schedule(principal, rate, term, Flat, start)[k];
      Payable(line.principalDue, line.interestDue)
  {
    FlatThreshold(principal, rate, term, start, k);
    InterestMonotone(0, principal, rate);
    NoInterestOnNothing(rate);
  }

  /** All the lines of a schedule can be settled. */
  predicate AllLinesPayable(lines: seq<ScheduleLine>) {
    forall k :: 0 <= k < |lines| ==> Payable(lines[k].principalDue, lines[k].interestDue)
  }

  /** The rounded share of the principal, without real numbers. */
  lemma FlatSliceInCents(principal: int, term: nat)
    requires principal >= 0 && term >= 1
    ensures FlatSlice(principal, term) == (2 * principal + term) / (2 * term)
  {
    var share, slice := principal as real / term as real, (2 * principal + term) / (2 * term);
    var n, s := term as real, slice as real;
    assert 2 * term * slice <= 2 * principal + term < 2 * term * slice + 2 * term;
    assert 2 * term * slice == 2 * (term * slice);
    IntTimes(term, slice);
    DivideTimes(principal as real, n);
    assert 2.0 * Times(n, s) <= 2.0 * Times(n, share) + n < 2.0 * Times(n, s) + 2.0 * n;
    TimesPlus(n, share, 0.5);
    TimesPlus(n, s, 1.0);
    TimesOne(n);
    assert Times(n, 0.5) == 0.5 * n;
    assert Times(n, s) <= Times(n, share + 0.5) < Times(n, s + 1.0);
    if s > share + 0.5 {
      TimesOrderStrict(n, share + 0.5, s);
    } else if share + 0.5 >= s + 1.0 {
      TimesOrder(n, s + 1.0, share + 0.5);
    }
    TimesSign(principal as real, 1.0 / n);
    assert share >= 0.0;
    RoundIsDetermined(share, slice);
  }

  lemma ChargedFromHalfACent(principal: int, rate: real)
    requires principal >= 0 && rate >= 0.0
    ensures Interest(principal, rate) >= 0
    ensures Interest(principal, rate) > 0 <==> Times(principal as real, rate) >= 0.5
  {
    TimesSign(principal as real, rate);
  }

  /** Exactly which FLAT schedules consist of payable lines only, in terms of principal, rate and term. */
  lemma FlatIsPayableIff(principal: int, rate: real, term: nat, start: Date)
    requires principal > 0 && rate >= 0.0 && term >= 1 && start.Valid()
    ensures
      var slice := (2 * principal + term) / (2 * term);
      var last := principal - (term - 1) * slice;
      AllLinesPayable(Schedule(principal, rate, term, Flat, start)) <==>
      last >= 0 && (Times(principal as real, rate) >= 0.5 || (last > 0 && (term == 1 || slice > 0)))
  {
    FlatSliceInCents(principal, term);
    ChargedFromHalfACent(principal, rate);
    var slice, interest := FlatSlice(principal, term), Interest(principal, rate);
    var lines := Schedule(principal, rate, term, Flat, start);
    assert slice >= 0;
    assert lines[term - 1] == FlatLine(principal, slice, interest, term, start, term);
    assert forall k :: 0 <= k < term - 1 ==> lines[k] == FlatLine(principal, slice, interest, term, start, k + 1);
    assert term > 1 ==> lines[0].principalDue == slice && lines[0].interestDue == interest;
  }

  /** Without interest the two methods make the same schedule. */
  lemma MethodsAgreeWithoutInterest(principal: int, term: nat, start: Date)
    requires term >= 1 && start.Valid()
    ensures Schedule(principal, 0.0, term, DecliningBalance, start) == Schedule(principal, 0.0, term, Flat, start)
  {
    var slice := FlatSlice(principal, term);
    var declining := Schedule(principal, 0.0, term, DecliningBalance, start);
    var flat := Schedule(principal, 0.0, term, Flat, start);
    assert Installment(principal, 0.0, term) == slice;
    forall k | 0 <= k < term ensures declining[k] == flat[k] {
      BalanceWithoutInterest(principal, slice, k);
      InterestWithoutRate(Balance(principal, 0.0, slice, k));
      InterestWithoutRate(principal);
    }
  }

  lemma InterestWithoutRate(balance: int)
    ensures Interest(balance, 0.0) == 0
  {
    assert Times(balance as real, 0.0) == 0.0;
  }

  lemma {:induction false} BalanceWithoutInterest(principal: int, slice: int, k: nat)
    ensures Balance(principal, 0.0, slice, k) == principal - k * slice
  {
    if k == 0 {
    } else {
      BalanceWithoutInterest(principal, slice, k - 1);
      InterestWithoutRate(Balance(principal, 0.0, slice, k - 1));
      assert k * slice == (k - 1) * slice + slice;
    }
  }

  /** Exactly which declining-balance schedules consist of payable lines only. */
  lemma DecliningIsPayableIff(principal: int, rate: real, term: nat, start: Date)
    requires principal > 0 && rate >= 0.0 && term >= 1 && start.Valid()
    ensures
      var lines := Schedule(principal, rate, term, DecliningBalance, start);
      var installment := Installment(principal, rate, term);
      AllLinesPayable(lines) <==>
      (term == 1 || installment > 0) && Balance(principal, rate, installment, term - 1) > 0
  {
    var lines := Schedule(principal, rate, term, DecliningBalance, start);
    var installment := Installment(principal, rate, term);
    var last := Balance(principal, rate, installment, term - 1);
    NoInterestOnNothing(rate);
    InterestMonotone(if last > 0 then 0 else last, if last > 0 then last else 0, rate);
    assert lines[term - 1].principalDue == last && lines[term - 1].interestDue == Interest(last, rate);
    assert term > 1 ==> lines[0].principalDue + lines[0].interestDue == installment;
    if last > 0 && (term == 1 || installment > 0) {
      forall k | 0 <= k < term ensures Payable(lines[k].principalDue, lines[k].interestDue) {
        if k < term - 1 {
          DecliningShape(principal, rate, term, start, k);
          InterestNeverBelow(principal, rate, term, start, k);
        }
      }
    }
  }

  /** A declining-balance schedule with a line that is not payable has a line with nothing to pay in all. */
  lemma WorthlessLine(principal: int, rate: real, term: nat, start: Date) returns (k: nat)
    requires principal > 0 && rate >= 0.0 && term >= 1 && start.Valid()
    requires !AllLinesPayable(Schedule(principal, rate, term, DecliningBalance, start))
    ensures k < term
    ensures
      var line := Schedule(principal, rate, term, DecliningBalance, start)[k];
      line.principalDue + line.interestDue <= 0
  {
    var installment := Installment(principal, rate, term);
    var last := Balance(principal, rate, installment, term - 1);
    DecliningIsPayableIff(principal, rate, term, start);
    if last <= 0 {
      k := term - 1;
      InterestMonotone(last, 0, rate);
      NoInterestOnNothing(rate);
    } else {
      k := 0;
      DecliningShape(principal, rate, term, start, 0);
    }
  }

  lemma NoInterestOnNothing(rate: real)
    ensures Interest(0, rate) == 0
  {
    assert Times(0.0, rate) == 0.0;
  }

  /** Interest only falls along the schedule, so the last line's is the least. */
  lemma {:induction false} InterestNeverBelow(principal: int, rate: real, term: nat, start: Date, k: nat)
    requires principal > 0 && rate >= 0.0 && term >= 1 && start.Valid() && k < term
    ensures
      var lines := Schedule(principal, rate, term, DecliningBalance, start);
      lines[term - 1].interestDue <= lines[k].interestDue
    decreases term - k
  {
    if k == term - 1 {
    } else {
      DecliningShape(principal, rate, term, start, k + 1);
      InterestNeverBelow(principal, rate, term, start, k + 1);
    }
  }

  /** A condition in terms of the inputs: with interest, an installment above the drift bound leaves no bad line;
      without, the FLAT threshold does. */
  lemma DecliningIsPayable(principal: int, rate: real, term: nat, start: Date, k: nat)
    requires principal > 0 && rate >= 0.0 && term >= 1 && start.Valid() && k < term
    requires
      if rate == 0.0 then 2 * principal > term * (term - 1)
      else Installment(principal, rate, term) as real > (Pow(1.0 + rate, term) - 1.0) / rate
    ensures
      var line := Schedule(principal, rate, term, DecliningBalance, start)[k];
      Payable(line.principalDue, line.interestDue)
  {
    if rate == 0.0 {
      MethodsAgreeWithoutInterest(principal, term, start);
      FlatIsPayable(principal, rate, term, start, k);
    } else {
      LastBalanceIsPositive(principal, rate, term, start);
      PowGrows(1.0 + rate, term);
      TimesSign(Pow(1.0 + rate, term) - 1.0, 1.0 / rate);
      assert (Pow(1.0 + rate, term) - 1.0) / rate >= 0.0;
      DecliningIsPayableIff(principal, rate, term, start);
    }
  }

  lemma LastBalanceIsPositive(principal: int, rate: real, term: nat, start: Date)
    requires principal > 0 && rate > 0.0 && term >= 1 && start.Valid()
    requires Installment(principal, rate, term) as real > (Pow(1.0 + rate, term) - 1.0) / rate
    ensures Balance(principal, rate, Installment(principal, rate, term), term - 1) > 0
  {
    DecliningLastLineDrift(principal, rate, term, start);
    var last := Balance(principal, rate, Installment(principal, rate, term), term - 1);
    if last <= 0 {
      InterestMonotone(last, 0, rate);
      NoInterestOnNothing(rate);
      assert false;
    }
  }

  /** Line i falls due exactly i + 1 months after the start, on the start's day or the month's last. */
  lemma DueDatesIncrease(principal: int, rate: real, term: nat, style: AmortizationMethod, start: Date, i: nat, j: nat)
    requires rate >= 0.0 && term >= 1 && start.Valid() && i <= j < term
    ensures
      var lines := Schedule(principal, rate, term, style, start);
      && lines[i].due.Valid() && lines[i].due.MonthIndex() == start.MonthIndex() + i + 1
      && lines[i].due.day == Min(start.day, MonthLength(lines[i].due.year, lines[i].due.month))
      && (i < j ==> lines[i].due.Before(lines[j].due))
  {
    if i < j {
      AddMonthsIncreases(start, i + 1, j + 1);
    }
  }

  // ---------------------------------------------------------------- declining balance: drift

  /** The balance after k payments of an exact annuity, without any rounding; q is 1 + r. */
  function ExactBalance(principal: int, q: real, annuity: real, k: nat): real {
    if k == 0 then principal as real
    else Times(q, ExactBalance(principal, q, annuity, k - 1)) - annuity
  }

  lemma {:induction false} ExactBalanceClosedForm(principal: int, q: real, annuity: real, k: nat)
    ensures ExactBalance(principal, q, annuity, k) ==
            Times(principal as real, Pow(q, k)) - Times(annuity, Geometric(q, k))
  {
    if k == 0 {
      TimesOne(principal as real);
    } else {
      ExactBalanceClosedForm(principal, q, annuity, k - 1);
      var p, w, g := principal as real, Pow(q, k - 1), Geometric(q, k - 1);
      TimesPlus(q, Times(p, w), -Times(annuity, g));
      TimesPlus(q, Times(annuity, g), -Times(annuity, g));
      TimesPlus(annuity, Times(q, g), 1.0);
      TimesSwap(q, p, w);
      TimesSwap(q, annuity, g);
      TimesOne(annuity);
      assert Times(q, 0.0) == 0.0;
    }
  }

  /** An exact annuity ends at zero: this is what the installment formula is for. */
  lemma ExactAnnuityCloses(principal: int, rate: real, term: nat)
    requires rate >= 0.0 && term >= 1
    ensures ExactBalance(principal, 1.0 + rate, ExactInstallment(principal, rate, term), term) == 0.0
  {
    var q, p, a := 1.0 + rate, principal as real, ExactInstallment(principal, rate, term);
    ExactBalanceClosedForm(principal, q, a, term);
    if rate == 0.0 {
      UnitPowers(term);
      TimesOne(p);
      DivideTimes(p, term as real);
      TimesCommute(a, term as real);
    } else {
      PowGrows(q, term);
      GeometricClosedForm(rate, q, term);
      AnnuityIdentity(p, rate, Pow(q, term), Geometric(q, term), 1.0 - 1.0 / Pow(q, term), a);
    }
  }

  lemma AnnuityIdentity(p: real, rate: real, w: real, g: real, factor: real, a: real)
    requires rate != 0.0 && w > 1.0 && Times(rate, g) == w - 1.0
    requires factor == 1.0 - 1.0 / w && factor != 0.0 && a == Times(p, rate) / factor
    ensures Times(a, g) == Times(p, w)
  {
    DivideTimes(Times(p, rate), factor);
    DivideTimes(1.0, w);
    TimesPlus(w, 1.0, -1.0 / w);
    TimesPlus(w, 1.0 / w, -1.0 / w);
    assert Times(w, 0.0) == 0.0;
    TimesOne(w);
    assert Times(w, factor) == w - 1.0;
    TimesSwap(rate, a, g);
    TimesSwap(a, w, factor);
    TimesCommute(a, factor);
    TimesSwap(w, p, rate);
    TimesCommute(p, w);
    TimesCancel(rate, Times(a, g), Times(p, w));
  }

  /** The drift bound: after k regular lines the balance is within 1 + (1+r) + ... + (1+r)^(k-1) cents of the
      exact one, which is ((1+r)^k - 1)/r cents when r > 0. */
  lemma {:induction false} BalanceDrift(principal: int, rate: real, q: real, installment: int, annuity: real, k: nat)
    requires rate >= 0.0 && q == 1.0 + rate && -0.5 <= installment as real - annuity <= 0.5
    ensures
      var drift := Balance(principal, rate, installment, k) as real - ExactBalance(principal, q, annuity, k);
      -Geometric(q, k) <= drift <= Geometric(q, k)
  {
    if k == 0 {
    } else {
      BalanceDrift(principal, rate, q, installment, annuity, k - 1);
      var before := Balance(principal, rate, installment, k - 1);
      DriftOfOnePeriod(rate, q, before, ExactBalance(principal, q, annuity, k - 1),
                       Geometric(q, k - 1), installment, annuity);
    }
  }

  /** One period: the old error is multiplied by 1 + r, and the two roundings add half a cent each. */
  lemma DriftOfOnePeriod(rate: real, q: real, before: int, exact: real, bound: real, installment: int, annuity: real)
    requires rate >= 0.0 && q == 1.0 + rate && -bound <= before as real - exact <= bound
    requires -0.5 <= installment as real - annuity <= 0.5
    ensures
      var drift := (before - (installment - Interest(before, rate))) as real - (Times(q, exact) - annuity);
      -(Times(q, bound) + 1.0) <= drift <= Times(q, bound) + 1.0
  {
    var b := before as real;
    TimesSpread(q, b, exact, bound);
    PlusTimes(1.0, rate, b);
    TimesOne(b);
    TimesCommute(b, rate);
  }

  /** The last declining-balance line differs from a regular installment by at most ((1+r)^n - 1)/r cents. */
  lemma DecliningLastLineDrift(principal: int, rate: real, term: nat, start: Date)
    requires rate > 0.0 && term >= 1 && start.Valid()
    ensures
      var last := Schedule(principal, rate, term, DecliningBalance, start)[term - 1];
      var gap := (last.principalDue + last.interestDue - Installment(principal, rate, term)) as real;
      var bound := (Pow(1.0 + rate, term) - 1.0) / rate;
      -bound <= gap <= bound
  {
    var q := 1.0 + rate;
    BalanceDrift(principal, rate, q, Installment(principal, rate, term), ExactInstallment(principal, rate, term), term);
    ExactAnnuityCloses(principal, rate, term);
    GeometricClosedForm(rate, q, term);
    TimesDivide(rate, Geometric(q, term), Pow(q, term) - 1.0);
  }
}
