/** Loan pricing and the installment schedule: `roundUpToNearest500Or1000`, `calculateLoanPayments`,
    the columns `createLoan` stores, and `generateInstallments`. */
module LoanSchedule {
  import opened Basics
  import opened Schema

  // ----- rounding

  /** JavaScript's `%`: the remainder has the sign of the dividend. */
  function Remainder(a: real, m: real): real
    requires m > 0.0
  {
    if a >= 0.0 then a - m * (a / m).Floor as real else a + m * ((-a) / m).Floor as real
  }

  function RoundUpToNearest500Or1000(amount: real): real {
    var remainder := Remainder(amount, 1000.0);
    if remainder == 0.0 || remainder == 500.0 then amount
    else if remainder < 500.0 then amount + (500.0 - remainder)
    else amount + (1000.0 - remainder)
  }

  function Ceiling(x: real): int { -((-x).Floor) }

  function Multiple(k: int): real { 500.0 * k as real }

  /** The branches compute the least multiple of 500 that is not below the amount. */
  lemma RoundsUpToLeastMultiple(amount: real)
    requires amount >= 0.0
    ensures RoundUpToNearest500Or1000(amount) == Multiple(Ceiling(amount / 500.0))
    ensures forall k :: Multiple(k) >= amount <==> Multiple(k) >= RoundUpToNearest500Or1000(amount)
  {
    BranchesReachCeiling(amount);
    var c := Ceiling(amount / 500.0);
    assert Multiple(c - 1) < amount <= Multiple(c);
    forall k
      ensures Multiple(k) >= amount <==> Multiple(k) >= Multiple(c)
    {
      assert k <= c - 1 || k >= c;
    }
  }

  lemma BranchesReachCeiling(amount: real)
    requires amount >= 0.0
    ensures RoundUpToNearest500Or1000(amount) == Multiple(Ceiling(amount / 500.0))
  {
    var thousands := (amount / 1000.0).Floor;
    var remainder := Remainder(amount, 1000.0);
    assert amount == 1000.0 * thousands as real + remainder && 0.0 <= remainder < 1000.0;
    CeilingIs(amount / 500.0,
              2 * thousands + (if remainder == 0.0 then 0 else if remainder <= 500.0 then 1 else 2));
  }

  lemma CeilingIs(x: real, k: int)
    requires (k - 1) as real < x <= k as real
    ensures Ceiling(x) == k
  {
  }

  lemma RoundingIsMonotoneAndIdempotent(a: real, b: real)
    requires 0.0 <= a <= b
    ensures RoundUpToNearest500Or1000(a) <= RoundUpToNearest500Or1000(b)
    ensures RoundUpToNearest500Or1000(RoundUpToNearest500Or1000(a)) == RoundUpToNearest500Or1000(a)
  {
    RoundsUpToLeastMultiple(a);
    RoundsUpToLeastMultiple(b);
    assert Multiple(Ceiling(b / 500.0)) >= a;
    RoundsUpToLeastMultiple(RoundUpToNearest500Or1000(a));
    assert Multiple(Ceiling(a / 500.0)) >= RoundUpToNearest500Or1000(RoundUpToNearest500Or1000(a));
  }

  // ----- pricing

  datatype Payments =
    Payments(monthlyInterest: real, monthlyPayment: real, lastMonthPayment: real, totalPayable: real)

  function CalculateLoanPayments(principal: real, interestRate: real, tenor: nat): Payments
    requires tenor > 0
  {
    PaymentsAt(principal, principal * interestRate, tenor)
  }

  function PaymentsAt(principal: real, monthlyInterest: real, tenor: nat): Payments
    requires tenor > 0
  {
    var rounded := RoundUpToNearest500Or1000(principal / tenor as real);
    Payments(monthlyInterest, rounded + monthlyInterest,
             LastMonthPrincipal(principal, rounded, tenor - 1) + monthlyInterest,
             principal + monthlyInterest * tenor as real)
  }

  /** What the first months leave of the principal, clamped at zero. */
  function LastMonthPrincipal(principal: real, rounded: real, months: nat): real {
    var paidInFirstMonths := rounded * months as real;
    var remainder := principal - paidInFirstMonths;
    if remainder > 0.0 then remainder else 0.0
  }

  /** The row `createLoan` inserts. The amount may have any number of decimals, the rate has at most four. */
  function NewLoan(user: nat, amount: real, period: Period, feeRate: real): Loan {
    StoredLoan(user, amount, period, amount * feeRate,
               CalculateLoanPayments(amount, period.rate as real / 10000.0, period.tenor))
  }

  function StoredLoan(user: nat, amount: real, period: Period, adminFee: real, payments: Payments): Loan {
    Loan(user, period, ToColumn(amount), ToColumn(adminFee), ToColumn(amount - adminFee),
         ToColumn(payments.monthlyInterest), ToColumn(payments.monthlyPayment), ToColumn(payments.lastMonthPayment),
         ToColumn(payments.totalPayable), None, Pending, amount)
  }

  const STEP: int := 500 * RUPIAH

  /** An amount in column units, exactly. */
  function Units(amount: real): real { amount * 10000.0 }

  predicate HasFourDecimals(amount: real) { Units(amount) == Units(amount).Floor as real }

  /** The monthly principal rounded up to 500 rupiah, in column units. */
  function MonthlyPrincipal(amount: real, tenor: nat): int
    requires tenor > 0
  {
    STEP * Ceiling(amount / tenor as real / 500.0)
  }

  function FirstMonths(amount: real, tenor: nat): int
    requires tenor > 0
  {
    MonthlyPrincipal(amount, tenor) * (tenor - 1)
  }

  /** `principal * rate` of stored columns, as a column holds it: the penalty. */
  function Interest(principal: int, rate: nat): int {
    (principal * rate + 5000) / 10000
  }

  /** `n * x`, as a sum of `n` terms. */
  function Times(n: nat, x: real): real {
    if n == 0 then 0.0 else Times(n - 1, x) + x
  }

  lemma {:induction false} TimesIsProduct(n: nat, x: real)
    ensures Times(n, x) == n as real * x
  {
    if n > 0 {
      TimesIsProduct(n - 1, x);
      assert n as real * x == (n - 1) as real * x + x;
    }
  }

  lemma {:induction false} TimesSplits(n: nat, units: int, x: real)
    ensures Times(n, units as real + x) == (n * units) as real + Times(n, x)
  {
    if n > 0 {
      TimesSplits(n - 1, units, x);
      assert n * units == (n - 1) * units + units;
    }
  }

  /** The exact monthly interest, in column units. */
  function MonthlyInterest(loan: Loan): real { Times(loan.period.rate, loan.requested) }

  /** What storing the principal and the monthly interest rounded off. */
  function PrincipalError(loan: Loan): real { Units(loan.requested) - loan.principal as real }

  function InterestError(loan: Loan): real { MonthlyInterest(loan) - loan.interest as real }

  /** The first months pay more than was asked for. */
  predicate Clamped(loan: Loan) {
    Units(loan.requested) < FirstMonths(loan.requested, loan.period.tenor) as real
  }

  /** By how much the payment of the last month exceeds the principal and interest of its row. */
  function Slack(loan: Loan): int {
    if Clamped(loan) then FirstMonths(loan.requested, loan.period.tenor) - loan.principal
    else Round(PrincipalError(loan) + InterestError(loan))
  }

  /** The errors of the principal and of every month's interest. */
  function TotalError(loan: Loan): real { PrincipalError(loan) + Times(loan.period.tenor, InterestError(loan)) }

  /** By how much the total payable exceeds the principal and the interest of all rows. */
  function Drift(loan: Loan): int { Round(TotalError(loan)) }

  /** The loan's columns are those of the amount asked for and its period. */
  ghost predicate Priced(loan: Loan) {
    && loan.requested > 0.0
    && loan.principal == Round(Units(loan.requested))
    && loan.interest == Round(MonthlyInterest(loan))
    && var first := FirstMonths(loan.requested, loan.period.tenor);
    && loan.monthlyPayment == MonthlyPrincipal(loan.requested, loan.period.tenor) + loan.interest
    && loan.lastMonthPayment == loan.principal - first + loan.interest + Slack(loan)
    && loan.totalPayable == loan.principal + loan.period.tenor * loan.interest + Drift(loan)
  }

  lemma RoundShift(units: int, x: real)
    ensures Round(units as real + x) == units + Round(x)
  {
  }

  lemma RoundedQuotient(amount: real, tenor: nat)
    requires amount > 0.0 && tenor > 0
    ensures RoundUpToNearest500Or1000(amount / tenor as real) * 10000.0 == MonthlyPrincipal(amount, tenor) as real
  {
    RoundsUpToLeastMultiple(amount / tenor as real);
  }

  lemma MonthlyIsPositive(amount: real, tenor: nat)
    requires amount > 0.0 && tenor > 0
    ensures MonthlyPrincipal(amount, tenor) >= STEP
  {
    assert amount / tenor as real / 500.0 > 0.0;
  }

  lemma {:induction false} ScaledInterest(amount: real, rate: nat, y: real)
    requires amount > 0.0 && y == Times(rate, amount)
    ensures amount * (rate as real / 10000.0) * 10000.0 == y >= 0.0
  {
    TimesIsProduct(rate, amount);
    NotNegative(rate as real, amount);
  }

  lemma MonthlyColumn(amount: real, tenor: nat, interest: real, y: real)
    requires amount > 0.0 && tenor > 0 && interest * 10000.0 == y >= 0.0
    ensures ToColumn(RoundUpToNearest500Or1000(amount / tenor as real) + interest) ==
            MonthlyPrincipal(amount, tenor) + Round(y)
  {
    RoundedQuotient(amount, tenor);
    MonthlyIsPositive(amount, tenor);
    RoundShift(MonthlyPrincipal(amount, tenor), y);
  }

  lemma LastMonthColumn(amount: real, rounded: real, monthly: int, months: nat, interest: real, y: real)
    requires rounded * 10000.0 == monthly as real && interest * 10000.0 == y >= 0.0
    ensures var first := monthly * months;
            ToColumn(LastMonthPrincipal(amount, rounded, months) + interest) ==
            if Units(amount) > first as real then Round(Units(amount) + y) - first else Round(y)
  {
    var first := monthly * months;
    RealProduct(monthly, months);
    assert rounded * months as real * 10000.0 == first as real;
    RoundShift(-first, Units(amount) + y);
  }

  lemma {:induction false} TotalColumn(amount: real, interest: real, tenor: nat, y: real)
    requires amount > 0.0 && interest * 10000.0 == y >= 0.0
    ensures ToColumn(amount + interest * tenor as real) == Round(Units(amount) + Times(tenor, y))
  {
    TotalInUnits(amount, interest, tenor, y);
  }

  /** The payments as their columns hold them, from the exact amount `x`, monthly interest `y` and `total`. */
  predicate IsPricing(payments: Payments, x: real, y: real, total: real, monthly: int, first: int) {
    && ToColumn(payments.monthlyInterest) == Round(y)
    && ToColumn(payments.monthlyPayment) == monthly + Round(y)
    && ToColumn(payments.lastMonthPayment) == (if x > first as real then Round(x + y) - first else Round(y))
    && ToColumn(payments.totalPayable) == Round(total)
  }

  lemma {:induction false} PaymentColumns(amount: real, rate: nat, tenor: nat, y: real)
    requires amount > 0.0 && tenor > 0 && y == Times(rate, amount)
    ensures IsPricing(CalculateLoanPayments(amount, rate as real / 10000.0, tenor), Units(amount), y,
                      Units(amount) + Times(tenor, y), MonthlyPrincipal(amount, tenor), FirstMonths(amount, tenor))
  {
    ScaledInterest(amount, rate, y);
    PaymentsArePriced(amount, amount * (rate as real / 10000.0), tenor, y);
  }

  lemma {:induction false} PaymentsArePriced(amount: real, interest: real, tenor: nat, y: real)
    requires amount > 0.0 && tenor > 0 && interest * 10000.0 == y >= 0.0
    ensures IsPricing(PaymentsAt(amount, interest, tenor), Units(amount), y, Units(amount) + Times(tenor, y),
                      MonthlyPrincipal(amount, tenor), FirstMonths(amount, tenor))
  {
    MonthlyColumn(amount, tenor, interest, y);
    RoundedQuotient(amount, tenor);
    LastMonthColumn(amount, RoundUpToNearest500Or1000(amount / tenor as real), MonthlyPrincipal(amount, tenor),
                    tenor - 1, interest, y);
    TotalColumn(amount, interest, tenor, y);
  }

  /** The last payment, on the errors of its two parts. */
  lemma LastPaymentSplits(x: real, y: real, first: int)
    ensures var e := x - Round(x) as real + (y - Round(y) as real);
            (if x > first as real then Round(x + y) - first else Round(y)) ==
            Round(x) - first + Round(y) + (if x < first as real then first - Round(x) else Round(e))
  {
    RoundShift(Round(x) + Round(y), x - Round(x) as real + (y - Round(y) as real));
    if x == first as real {
      RoundShift(-Round(y), y);
    }
  }

  /** The total payable, on the errors of its parts. */
  lemma TotalSplits(x: real, y: real, tenor: nat)
    ensures Round(x + Times(tenor, y)) ==
            Round(x) + tenor * Round(y) + Round(x - Round(x) as real + Times(tenor, y - Round(y) as real))
  {
    var error := y - Round(y) as real;
    TimesSplits(tenor, Round(y), error);
    RoundShift(Round(x) + tenor * Round(y), x - Round(x) as real + Times(tenor, error));
  }

  lemma {:induction false} StoredLoanIsPriced(user: nat, amount: real, period: Period, adminFee: real,
                                              payments: Payments, y: real)
    requires amount > 0.0 && y == Times(period.rate, amount)
    requires IsPricing(payments, Units(amount), y, Units(amount) + Times(period.tenor, y),
                       MonthlyPrincipal(amount, period.tenor), FirstMonths(amount, period.tenor))
    ensures Priced(StoredLoan(user, amount, period, adminFee, payments))
  {
    LastPaymentSplits(Units(amount), y, FirstMonths(amount, period.tenor));
    TotalSplits(Units(amount), y, period.tenor);
  }

  /** Storing the columns loses nothing but what the fourth decimal rounds off: the rounded monthly principal
      comes back exactly, and the last payment and the total payable miss their parts by the errors alone. */
  lemma NewLoanIsPriced(user: nat, amount: real, period: Period, feeRate: real)
    requires amount > 0.0
    ensures Priced(NewLoan(user, amount, period, feeRate))
  {
    var payments := CalculateLoanPayments(amount, period.rate as real / 10000.0, period.tenor);
    var y := Times(period.rate, amount);
    PaymentColumns(amount, period.rate, period.tenor, y);
    StoredLoanIsPriced(user, amount, period, amount * feeRate, payments, y);
  }

  lemma ErrorOf(x: real)
    ensures -0.5 <= x - Round(x) as real < 0.5
    ensures x == x.Floor as real <==> x - Round(x) as real == 0.0
  {
    assert Round(x) == if x - x.Floor as real < 0.5 then x.Floor else x.Floor + 1;
  }

  lemma ErrorsAreSmall(loan: Loan)
    requires Priced(loan)
    ensures -0.5 <= PrincipalError(loan) < 0.5 && -0.5 <= InterestError(loan) < 0.5
    ensures HasFourDecimals(loan.requested) <==> PrincipalError(loan) == 0.0
  {
    ErrorOf(Units(loan.requested));
    ErrorOf(MonthlyInterest(loan));
  }

  lemma {:induction false} TimesIsNotNegative(n: nat, x: real)
    requires x >= 0.0
    ensures Times(n, x) >= 0.0
    ensures n > 0 ==> Times(n, x) >= x
  {
    if n > 0 {
      TimesIsNotNegative(n - 1, x);
    }
  }

  lemma PaymentsAreNotNegative(loan: Loan)
    requires Priced(loan)
    ensures loan.principal >= 0 && loan.interest >= 0
    ensures loan.monthlyPayment >= 0 && loan.lastMonthPayment >= 0
  {
    TimesIsNotNegative(loan.period.rate, loan.requested);
    MonthlyIsPositive(loan.requested, loan.period.tenor);
    RoundShift(loan.principal + loan.interest, PrincipalError(loan) + InterestError(loan));
  }

  /** What columns must mean, whatever the decimals: the nearest unit of the amount, of a month's interest, and of the
      total; the rounded monthly principal with that interest; and for the last month the amount and its interest
      less the first months, or the interest alone if those use it up. */
  ghost predicate HasColumns(loan: Loan, amount: real, interest: real, total: real, monthly: int, first: int) {
    && IsNearest(loan.principal, amount)
    && IsNearest(loan.interest, interest)
    && loan.monthlyPayment == monthly + loan.interest
    && (if amount * 10000.0 < first as real then loan.lastMonthPayment == loan.interest
        else IsNearest(loan.lastMonthPayment + first, amount + interest))
    && IsNearest(loan.totalPayable, total)
  }

  lemma PricingHasColumns(loan: Loan, payments: Payments, amount: real, interest: real, total: real, x: real, y: real,
                          z: real, monthly: int, first: int)
    requires x == amount * 10000.0 >= 0.0 && y == interest * 10000.0 >= 0.0 && z == total * 10000.0 >= 0.0
    requires IsPricing(payments, x, y, z, monthly, first)
    requires loan.principal == ToColumn(amount) && loan.interest == ToColumn(payments.monthlyInterest)
    requires loan.monthlyPayment == ToColumn(payments.monthlyPayment)
    requires loan.lastMonthPayment == ToColumn(payments.lastMonthPayment)
    requires loan.totalPayable == ToColumn(payments.totalPayable)
    ensures HasColumns(loan, amount, interest, total, monthly, first)
  {
  }

  /** A loan as a request must store it: the member's, pending, with the columns of the amount asked for and the fee
      and the net amount to the nearest unit. */
  ghost predicate IsApplication(loan: Loan, user: nat, amount: real, period: Period, interest: real, fee: real) {
    && loan.user == user && loan.period == period && loan.requested == amount
    && loan.status == Pending && loan.disbursedOn.None?
    && HasColumns(loan, amount, interest, amount + interest * period.tenor as real,
                  MonthlyPrincipal(amount, period.tenor), FirstMonths(amount, period.tenor))
    && IsNearest(loan.adminFee, fee)
    && IsNearest(loan.disbursed, amount - fee)
  }

  lemma {:induction false} TotalInUnits(amount: real, interest: real, tenor: nat, y: real)
    requires amount > 0.0 && interest * 10000.0 == y >= 0.0
    ensures (amount + interest * tenor as real) * 10000.0 == Units(amount) + Times(tenor, y) >= 0.0
  {
    NotNegative(interest, tenor as real);
    TimesIsProduct(tenor, y);
  }

  lemma {:induction false} StoredLoanIsApplication(loan: Loan, user: nat, amount: real, period: Period, fee: real,
                                                   payments: Payments, interest: real, y: real)
    requires loan == StoredLoan(user, amount, period, fee, payments)
    requires amount > 0.0 && interest * 10000.0 == y >= 0.0
    requires IsPricing(payments, Units(amount), y, Units(amount) + Times(period.tenor, y),
                       MonthlyPrincipal(amount, period.tenor), FirstMonths(amount, period.tenor))
    ensures IsApplication(loan, user, amount, period, interest, fee)
  {
    TotalInUnits(amount, interest, period.tenor, y);
    PricingHasColumns(loan, payments, amount, interest, amount + interest * period.tenor as real, Units(amount), y,
                      Units(amount) + Times(period.tenor, y), MonthlyPrincipal(amount, period.tenor),
                      FirstMonths(amount, period.tenor));
    ToColumnIsNearest(fee);
    ToColumnIsNearest(amount - fee);
  }

  lemma NewLoanIsApplication(user: nat, amount: real, period: Period, feeRate: real, interest: real, fee: real)
    requires amount > 0.0 && interest == amount * (period.rate as real / 10000.0) && fee == amount * feeRate
    ensures IsApplication(NewLoan(user, amount, period, feeRate), user, amount, period, interest, fee)
  {
    var payments := CalculateLoanPayments(amount, period.rate as real / 10000.0, period.tenor);
    PaymentColumns(amount, period.rate, period.tenor, Times(period.rate, amount));
    PricedLoanIsApplication(NewLoan(user, amount, period, feeRate), user, amount, period, fee, payments, interest);
  }

  lemma {:induction false} PricedLoanIsApplication(loan: Loan, user: nat, amount: real, period: Period, fee: real,
                                                   payments: Payments, interest: real)
    requires loan == StoredLoan(user, amount, period, fee, payments)
    requires amount > 0.0 && interest == amount * (period.rate as real / 10000.0)
    requires var y := Times(period.rate, amount);
             IsPricing(payments, Units(amount), y, Units(amount) + Times(period.tenor, y),
                       MonthlyPrincipal(amount, period.tenor), FirstMonths(amount, period.tenor))
    ensures IsApplication(loan, user, amount, period, interest, fee)
  {
    InterestInUnits(amount, period.rate, interest);
    StoredLoanIsApplication(loan, user, amount, period, fee, payments, interest, Times(period.rate, amount));
  }

  lemma {:induction false} InterestInUnits(amount: real, rate: nat, interest: real)
    requires amount > 0.0 && interest == amount * (rate as real / 10000.0)
    ensures interest * 10000.0 == Times(rate, amount) >= 0.0
  {
    ScaledInterest(amount, rate, Times(rate, amount));
  }

  /** The rounded monthly principal is the least multiple of 500 rupiah that covers the amount over the term. */
  lemma MonthlyPrincipalIsLeast(amount: real, tenor: nat, k: int)
    requires amount > 0.0 && tenor > 0
    ensures MonthlyPrincipal(amount, tenor) % STEP == 0
    ensures (500 * RUPIAH * k * tenor) as real >= amount * 10000.0 <==>
            500 * RUPIAH * k >= MonthlyPrincipal(amount, tenor)
  {
    var share, t := amount / tenor as real, tenor as real;
    var least := Ceiling(share / 500.0);
    assert share * t == amount;
    RealProduct(STEP * k, tenor);
    assert (STEP * k) as real * t == 500.0 * k as real * t * 10000.0;
    if k >= least {
      ScaleUp(share, 500.0 * k as real, t);
    } else {
      ScaleReal(500.0 * k as real, share, t);
    }
  }

  lemma ScaleUp(a: real, b: real, t: real)
    requires a <= b && t > 0.0
    ensures a * t <= b * t
  {
  }

  // ----- the fee

  /** The stored fee and the stored net amount split the stored principal but for a unit: one too many if the
      errors of principal and fee together reach half a unit, one too few if they fall short by more. */
  lemma FeeSplitsPrincipal(user: nat, amount: real, period: Period, fee: real, payments: Payments)
    requires 0.0 <= fee <= amount
    ensures var loan := StoredLoan(user, amount, period, fee, payments);
            var error := PrincipalError(loan) - (Units(fee) - loan.adminFee as real);
            && loan.adminFee + loan.disbursed == loan.principal + Round(error)
            && -1.0 < error < 1.0
            && (HasFourDecimals(amount) ==> Round(error) == if error == 0.5 then 1 else 0)
  {
    SplitRounds(Units(amount), Units(fee));
    assert Units(amount - fee) == Units(amount) - Units(fee);
  }

  lemma SplitRounds(x: real, y: real)
    ensures var error := x - Round(x) as real - (y - Round(y) as real);
            && Round(y) + Round(x - y) == Round(x) + Round(error)
            && -1.0 < error < 1.0
            && (x == x.Floor as real ==> Round(error) == if error == 0.5 then 1 else 0)
  {
    ErrorOf(x);
    ErrorOf(y);
    RoundShift(Round(x) - Round(y), x - Round(x) as real - (y - Round(y) as real));
  }

  /** At the default fee of two percent, an amount of at most four decimals is split one unit too high exactly
      when it ends on the 25th of every 50 units: 0.0025 rupiah is the smallest such loan. */
  lemma TwoPercentFee(user: nat, units: nat, period: Period)
    requires units > 0
    ensures var loan := NewLoan(user, units as real / 10000.0, period, 0.02);
            && loan.principal == units
            && loan.adminFee + loan.disbursed == units + (if units % 50 == 25 then 1 else 0)
  {
    var amount := units as real / 10000.0;
    FeeSplitsPrincipal(user, amount, period, amount * 0.02,
                       CalculateLoanPayments(amount, period.rate as real / 10000.0, period.tenor));
    FiftiethRounds(units / 50, units % 50);
    assert Units(amount * 0.02) == units as real / 50.0;
  }

  lemma FiftiethRounds(q: int, r: int)
    requires 0 <= r < 50
    ensures var y := (50 * q + r) as real / 50.0;
            Round(y) == (if r < 25 then q else q + 1) && (y - Round(y) as real == -0.5 <==> r == 25)
  {
  }

  /** So the excess does occur. */
  lemma TieAddsAUnit(user: nat, period: Period)
    ensures var loan := NewLoan(user, 0.0025, period, 0.02);
            loan.principal == 25 && loan.adminFee == 1 && loan.disbursed == 25
  {
    assert Units(0.0025 * 0.02) == 0.5 && Units(0.0025 - 0.0025 * 0.02) == 24.5;
  }

  // ----- due dates

  predicate LeapYear(year: nat) { year % 4 == 0 && (year % 100 != 0 || year % 400 == 0) }

  function DaysIn(month: nat): (days: nat)
    ensures 28 <= days <= 31
  {
    var m := month % 12;
    if m == 1 then (if LeapYear(month / 12) then 29 else 28)
    else if m == 3 || m == 5 || m == 8 || m == 10 then 30
    else 31
  }

  predicate ValidDate(d: Date) { 1 <= d.day <= DaysIn(d.month) }

  /** `setMonth(getMonth() + months)`: a day the month does not have runs over into the next one. */
  function SetMonth(d: Date, months: nat): Date {
    var month := d.month + months;
    if d.day <= DaysIn(month) then Date(month, d.day) else Date(month + 1, d.day - DaysIn(month))
  }

  /** The due date of installment `i`: the 20th of the month so reached. */
  function DueDate(disbursedOn: Date, i: nat): Date {
    SetMonth(disbursedOn, i).(day := 20)
  }

  /** The month `months` after that of `d`, by the calendar: no 31st in April, June, September and November, and in
      February none after the 28th, or in a leap year after the 29th. */
  predicate LacksTheDay(d: Date, months: nat) {
    var month, year := (d.month + months) % 12, (d.month + months) / 12;
    || (d.day == 31 && month in {3, 5, 8, 10})
    || (d.day > 28 && month == 1 && !(d.day == 29 && year % 4 == 0 && (year % 100 == 0 ==> year % 400 == 0)))
  }

  function Overflow(d: Date, months: nat): int { if LacksTheDay(d, months) then 1 else 0 }

  /** A due date is the 20th, a month later if the month reached lacks the day of disbursement. One installment to
      the next moves it by one month, more or less the change in overflow; so it never moves back, and disbursing
      on day 28 or earlier gives consecutive months. */
  lemma DueDatesAdvance(d: Date, i: nat)
    requires 1 <= d.day <= 31
    ensures DueDate(d, i) == Date(d.month + i + Overflow(d, i), 20)
    ensures DueDate(d, i + 1).month == DueDate(d, i).month + 1 + Overflow(d, i + 1) - Overflow(d, i)
    ensures DueDate(d, i + 1).month >= DueDate(d, i).month
    ensures d.day <= 28 ==> DueDate(d, i + 1).month == DueDate(d, i).month + 1
    ensures DueDate(d, i) == DueDate(d, i + 1) <==> LacksTheDay(d, i) && !LacksTheDay(d, i + 1)
  {
    LacksTheDayAfterItsLast(d, i);
    LacksTheDayAfterItsLast(d, i + 1);
  }

  lemma LacksTheDayAfterItsLast(d: Date, months: nat)
    requires 1 <= d.day <= 31
    ensures LacksTheDay(d, months) <==> d.day > DaysIn(d.month + months)
  {
  }

  lemma DueDatesNeverDecrease(d: Date, i: nat, j: nat)
    requires ValidDate(d) && i <= j
    ensures DueDate(d, i).NotAfter(DueDate(d, j))
  {
  }

  /** Disbursing on the 31st really does double up: January 31st makes installments 1 and 2 both fall due
      in March of a common year. */
  lemma OverflowDoublesUp(year: nat)
    requires !LeapYear(year)
    ensures DueDate(Date(12 * year, 31), 1) == DueDate(Date(12 * year, 31), 2)
  {
  }

  // ----- the schedule

  /** What installment `i` of a loan is when it is generated. */
  function InstallmentOf(loan: Loan, disbursedOn: Date, i: nat): Installment
  {
    var rounded := loan.monthlyPayment - loan.interest;
    var last := i == loan.period.tenor;
    Installment(
      i, DueDate(disbursedOn, i),
      if last then loan.principal - rounded * (loan.period.tenor - 1) else rounded,
      loan.interest, 0,
      if last then loan.lastMonthPayment else loan.monthlyPayment,
      Due, false)
  }

  function Schedule(loan: Loan, disbursedOn: Date): (plan: seq<Installment>)
    ensures |plan| == loan.period.tenor
  {
    seq(loan.period.tenor, i requires 0 <= i < loan.period.tenor => InstallmentOf(loan, disbursedOn, i + 1))
  }

  method GenerateInstallments(loan: Loan, disbursedOn: Date) returns (installments: seq<Installment>)
    ensures installments == Schedule(loan, disbursedOn)
  {
    installments := [];
    var tenor := loan.period.tenor;
    var roundedMonthlyPrincipal := loan.monthlyPayment - loan.interest;
    var principalPaidInFirstMonths := roundedMonthlyPrincipal * (tenor - 1);
    var lastMonthPrincipal := loan.principal - principalPaidInFirstMonths;
    for i := 1 to tenor + 1
      invariant |installments| == i - 1
      invariant forall k :: 0 <= k < i - 1 ==> installments[k] == InstallmentOf(loan, disbursedOn, k + 1)
    {
      var dueDate := SetMonth(disbursedOn, i);
      dueDate := dueDate.(day := 20);
      var isLastMonth := i == tenor;
      var principalAmount := if isLastMonth then lastMonthPrincipal else roundedMonthlyPrincipal;
      var totalAmount := if isLastMonth then loan.lastMonthPayment else loan.monthlyPayment;
      installments := installments +
        [Installment(i, dueDate, principalAmount, loan.interest, 0, totalAmount, Due, false)];
    }
  }

  /** Every row of a schedule: numbered from 1, due on the 20th of its month, with the loan's interest and no penalty.
      Before the last month it is the rounded monthly principal and the interest; the last takes what is left of the
      principal, and the last payment. */
  lemma ScheduleRow(loan: Loan, disbursedOn: Date, i: nat)
    requires Priced(loan) && 1 <= disbursedOn.day <= 31 && i < loan.period.tenor
    ensures var x, monthly := Schedule(loan, disbursedOn)[i], MonthlyPrincipal(loan.requested, loan.period.tenor);
            && x.number == i + 1
            && x.dueDate == Date(disbursedOn.month + i + 1 + Overflow(disbursedOn, i + 1), 20)
            && x.interest == loan.interest && x.penalty == 0 && x.status == Due && !x.everOverdue
            && (i + 1 < loan.period.tenor ==> x.principal == monthly && x.total == monthly + loan.interest)
            && (i + 1 == loan.period.tenor ==>
                  x.principal == loan.principal - monthly * i && x.total == loan.lastMonthPayment)
  {
    DueDatesAdvance(disbursedOn, i + 1);
  }

  function PrincipalOf(): Installment -> int { (x: Installment) => x.principal }

  function TotalOf(): Installment -> int { (x: Installment) => x.total }

  lemma ConstantThenLast(plan: seq<Installment>, f: Installment -> int, c: int, last: int)
    requires plan != []
    requires forall i :: 0 <= i < |plan| - 1 ==> f(plan[i]) == c
    requires f(plan[|plan| - 1]) == last
    ensures Sum(plan, f) == (|plan| - 1) * c + last
  {
    SumBounds(plan, f, c, c, |plan| - 1);
  }

  /** Installment principals always sum to the loan's principal, whatever its columns hold. */
  lemma PrincipalsSumToPrincipal(loan: Loan, disbursedOn: Date)
    ensures Sum(Schedule(loan, disbursedOn), PrincipalOf()) == loan.principal
  {
    var plan, rounded := Schedule(loan, disbursedOn), loan.monthlyPayment - loan.interest;
    var first := rounded * (loan.period.tenor - 1);
    assert PrincipalOf()(plan[|plan| - 1]) == loan.principal - first;
    ConstantThenLast(plan, PrincipalOf(), rounded, loan.principal - first);
    Commute(rounded, loan.period.tenor - 1);
  }

  lemma Commute(a: int, b: int)
    ensures a * b == b * a
  {
  }

  lemma TotalsAreTheColumns(loan: Loan, disbursedOn: Date)
    ensures Sum(Schedule(loan, disbursedOn), TotalOf()) ==
            (loan.period.tenor - 1) * loan.monthlyPayment + loan.lastMonthPayment
  {
    ConstantThenLast(Schedule(loan, disbursedOn), TotalOf(), loan.monthlyPayment, loan.lastMonthPayment);
  }

  /** Totals sum to the principal and the interest of all rows, and the slack of the last. */
  lemma TotalsSum(loan: Loan, disbursedOn: Date)
    requires Priced(loan)
    ensures Sum(Schedule(loan, disbursedOn), TotalOf()) ==
            loan.principal + loan.period.tenor * loan.interest + Slack(loan)
  {
    TotalsAreTheColumns(loan, disbursedOn);
    Distribute(MonthlyPrincipal(loan.requested, loan.period.tenor), loan.interest, loan.period.tenor - 1);
  }

  lemma Distribute(a: int, b: int, m: int)
    ensures m * (a + b) == a * m + m * b
    ensures (m + 1) * b == m * b + b
  {
  }

  /** What members pay over the total payable. */
  function Excess(loan: Loan): int { Slack(loan) - Drift(loan) }

  /** The errors stay below half a unit together. */
  predicate RoundsEvenly(loan: Loan) { -0.5 <= TotalError(loan) < 0.5 }

  /** At most half a unit a month, either way. */
  predicate IsSmall(excess: int, tenor: int) { 0 <= 2 * excess + tenor <= 2 * tenor }

  /** Members pay the total payable and the excess. With the clamp inactive that is at most half a unit a month;
      if besides nothing drifts, they pay exactly the total payable if and only if the rows add up. For amounts
      of at most four decimals, nothing drifting means they never pay less, and pay exactly that if and only if
      the clamp is inactive; and whole rupiah never drift. */
  lemma TotalsCoverPayable(loan: Loan, disbursedOn: Date)
    requires Priced(loan)
    ensures var paid := Sum(Schedule(loan, disbursedOn), TotalOf());
            && paid == loan.totalPayable + Excess(loan)
            && (!Clamped(loan) ==> IsSmall(Excess(loan), loan.period.tenor))
            && (RoundsEvenly(loan) ==> (paid == loan.totalPayable <==> LastRowAddsUp(loan)))
            && (HasFourDecimals(loan.requested) && RoundsEvenly(loan) ==>
                  paid >= loan.totalPayable && (paid == loan.totalPayable <==> !Clamped(loan)))
            && (HasFourDecimals(loan.requested) && !Clamped(loan) ==>
                  (paid == loan.totalPayable <==> RoundsEvenly(loan)))
    ensures loan.requested == loan.requested.Floor as real ==>
              HasFourDecimals(loan.requested) && RoundsEvenly(loan)
  {
    TotalsSum(loan, disbursedOn);
    SlackIsExact(loan);
    ExcessIsExact(loan);
    WholeRupiahRoundsEvenly(loan);
  }

  lemma ExcessIsExact(loan: Loan)
    requires Priced(loan)
    ensures Drift(loan) == 0 <==> RoundsEvenly(loan)
    ensures !Clamped(loan) ==> IsSmall(Excess(loan), loan.period.tenor)
  {
    ErrorsAreSmall(loan);
    RoundsToZero(TotalError(loan));
    SmallErrors(loan);
  }

  lemma SmallErrors(loan: Loan)
    requires -0.5 <= InterestError(loan) < 0.5
    ensures IsSmall(Round(PrincipalError(loan) + InterestError(loan)) - Drift(loan), loan.period.tenor)
  {
    ExcessIsSmall(PrincipalError(loan), InterestError(loan), loan.period.tenor);
  }

  lemma RoundsToZero(x: real)
    ensures Round(x) == 0 <==> -0.5 <= x < 0.5
  {
  }

  /** When the last row adds up: with the clamp inactive, if the two errors stay below half a unit together; with
      it active, only if what was asked for rounds to what the first months pay. */
  predicate LastRowAddsUp(loan: Loan) {
    if Clamped(loan) then loan.principal == FirstMonths(loan.requested, loan.period.tenor)
    else -0.5 <= PrincipalError(loan) + InterestError(loan) < 0.5
  }

  lemma SlackIsExact(loan: Loan)
    requires Priced(loan)
    ensures Slack(loan) == 0 <==> LastRowAddsUp(loan)
    ensures Clamped(loan) ==> Slack(loan) >= 0
    ensures HasFourDecimals(loan.requested) ==> (LastRowAddsUp(loan) <==> !Clamped(loan))
  {
    ErrorsAreSmall(loan);
  }

  lemma {:induction false} ExcessIsSmall(e: real, f: real, tenor: nat)
    requires tenor > 0 && -0.5 <= f < 0.5
    ensures IsSmall(Round(e + f) - Round(e + Times(tenor, f)), tenor)
  {
    ErrorsAddUp(f, tenor - 1);
    RoundGap(e + f, Times(tenor - 1, f), tenor - 1);
  }

  lemma RoundGap(x: real, rest: real, months: nat)
    requires -(months as real) <= 2.0 * rest <= months as real
    ensures IsSmall(Round(x) - Round(x + rest), months + 1)
  {
  }

  lemma {:induction false} ErrorsAddUp(f: real, months: nat)
    requires -0.5 <= f < 0.5
    ensures -(months as real) <= 2.0 * Times(months, f) <= months as real
  {
    if months > 0 {
      ErrorsAddUp(f, months - 1);
    }
  }

  lemma NotNegative(a: real, b: real)
    requires a >= 0.0 && b >= 0.0
    ensures a * b >= 0.0
  {
  }

  lemma WholeRupiahRoundsEvenly(loan: Loan)
    requires Priced(loan)
    ensures loan.requested == loan.requested.Floor as real ==>
              HasFourDecimals(loan.requested) && RoundsEvenly(loan)
  {
    if loan.requested == loan.requested.Floor as real {
      WholeUnits(loan.requested, loan.requested.Floor, loan.period.rate, MonthlyInterest(loan));
      ErrorOf(Units(loan.requested));
      ErrorOf(MonthlyInterest(loan));
      assert PrincipalError(loan) == 0.0 && InterestError(loan) == 0.0;
      ErrorsOfNothing(loan.period.tenor);
    }
  }

  lemma {:induction false} WholeUnits(amount: real, rupiah: int, rate: nat, y: real)
    requires amount == rupiah as real && y == Times(rate, amount)
    ensures Units(amount) == Units(amount).Floor as real && y == y.Floor as real
  {
    IsWhole(Units(amount), 10000 * rupiah);
    TimesIsProduct(rate, amount);
    RealProduct(rate, rupiah);
    IsWhole(y, rate * rupiah);
  }

  lemma {:induction false} ErrorsOfNothing(months: nat)
    ensures Times(months, 0.0) == 0.0
  {
    if months > 0 {
      ErrorsOfNothing(months - 1);
    }
  }

  lemma IsWhole(x: real, n: int)
    requires x == n as real
    ensures x.Floor == n
  {
  }

  /** Drift does occur at the seeded period: 1,000,000.005 rupiah over 3 months at one percent cost one unit more
      than the total payable, though the rows add up. */
  lemma HalfUnitDrifts(user: nat, amount: real, period: Period, feeRate: real, disbursedOn: Date)
    requires amount == 1_000_000.005 && period == LoanPeriod(3, 100)
    ensures var loan := NewLoan(user, amount, period, feeRate);
            && !Clamped(loan) && LastRowAddsUp(loan) && Excess(loan) == 1
            && Sum(Schedule(loan, disbursedOn), TotalOf()) == loan.totalPayable + 1
  {
    var loan := NewLoan(user, amount, period, feeRate);
    NewLoanIsPriced(user, amount, period, feeRate);
    SeededErrors(loan, 667, 1_000_000.005, 10_000_000_050, 100_000_001);
    TotalsCoverPayable(loan, disbursedOn);
  }

  /** What the first months pay and the errors, over 3 months at one percent, in numbers. */
  lemma SeededErrors(loan: Loan, k: int, amount: real, principal: int, interest: int)
    requires Priced(loan) && loan.requested == amount && loan.period == LoanPeriod(3, 100)
    requires 1500.0 * (k - 1) as real < amount <= 1500.0 * k as real
    requires principal == Round(Units(amount)) && interest == Round(100.0 * amount)
    ensures FirstMonths(amount, 3) == STEP * k * 2
    ensures PrincipalError(loan) == Units(amount) - principal as real
    ensures InterestError(loan) == 100.0 * amount - interest as real
    ensures TotalError(loan) == PrincipalError(loan) + 3.0 * InterestError(loan)
  {
    CeilingIs(amount / 3.0 / 500.0, k);
    TimesIsProduct(loan.period.rate, amount);
    TimesIsProduct(loan.period.tenor, InterestError(loan));
  }

  /** The rows' own arithmetic holds exactly when that of the last does; at four decimals, exactly when the clamp
      is inactive. */
  lemma RowsAddUp(loan: Loan, disbursedOn: Date)
    requires Priced(loan)
    ensures (forall i :: 0 <= i < loan.period.tenor ==> AddsUp(Schedule(loan, disbursedOn)[i])) <==>
            LastRowAddsUp(loan)
    ensures HasFourDecimals(loan.requested) ==> (LastRowAddsUp(loan) <==> !Clamped(loan))
  {
    var plan, t := Schedule(loan, disbursedOn), loan.period.tenor;
    SlackIsExact(loan);
    assert AddsUp(plan[t - 1]) <==> Slack(loan) == 0;
    assert forall i :: 0 <= i < t - 1 ==> AddsUp(plan[i]);
  }

  predicate AddsUp(x: Installment) { x.total == x.principal + x.interest + x.penalty }

  /** Every installment's principal is positive exactly when the first months leave something of the stored
      principal: half a unit at least of the amount, or anything at all of an amount of at most four decimals. */
  lemma PrincipalsArePositive(loan: Loan, disbursedOn: Date)
    requires Priced(loan)
    ensures (forall i :: 0 <= i < loan.period.tenor ==> Schedule(loan, disbursedOn)[i].principal > 0) <==>
            LeavesALast(loan)
    ensures HasFourDecimals(loan.requested) ==>
              (LeavesALast(loan) <==>
               Units(loan.requested) > FirstMonths(loan.requested, loan.period.tenor) as real)
  {
    var plan, t := Schedule(loan, disbursedOn), loan.period.tenor;
    MonthlyIsPositive(loan.requested, t);
    ErrorsAreSmall(loan);
    assert plan[t - 1].principal > 0 <==> LeavesALast(loan);
    assert forall i :: 0 <= i < t - 1 ==> plan[i].principal > 0;
  }

  /** What was asked for exceeds what the first months pay by half a unit or more. */
  predicate LeavesALast(loan: Loan) {
    Units(loan.requested) >= FirstMonths(loan.requested, loan.period.tenor) as real + 0.5
  }

  /** At least 500 * tenor * (tenor - 1) rupiah and, beyond four decimals, half a unit a month more. */
  predicate IsLargeAmount(amount: real, tenor: nat)
    requires tenor > 0
  {
    var bound := (STEP * tenor * (tenor - 1)) as real;
    if HasFourDecimals(amount) then Units(amount) >= bound else Units(amount) >= bound + tenor as real / 2.0
  }

  /** Large amounts keep the clamp inactive and every installment's principal positive. */
  lemma LargeAmountsLeaveALast(amount: real, tenor: nat)
    requires tenor > 0 && amount > 0.0 && IsLargeAmount(amount, tenor)
    ensures Units(amount) >= FirstMonths(amount, tenor) as real + 0.5
  {
    var k := Ceiling(amount / tenor as real / 500.0);
    LastStep(amount, tenor, k);
    ShareLeft(k, tenor, Units(amount));
    if HasFourDecimals(amount) {
      WholeAbove(Units(amount), FirstMonths(amount, tenor));
    }
  }

  lemma WholeAbove(units: real, first: int)
    requires units == units.Floor as real && units > first as real
    ensures units >= first as real + 0.5
  {
    assert units.Floor >= first + 1;
  }

  lemma LastStep(amount: real, tenor: nat, k: int)
    requires tenor > 0 && k == Ceiling(amount / tenor as real / 500.0)
    ensures (STEP * tenor * (k - 1)) as real < Units(amount)
  {
    var t, share := tenor as real, amount / tenor as real;
    assert 500.0 * (k - 1) as real < share;
    assert share * t == amount;
    ScaleReal(500.0 * (k - 1) as real, share, t);
    assert 500.0 * (k - 1) as real * t * 10000.0 == (STEP * tenor * (k - 1)) as real;
  }

  lemma ScaleReal(a: real, b: real, t: real)
    requires a < b && t > 0.0
    ensures a * t < b * t
  {
  }

  /** The first months pay at most tenor - 1 shares of the amount and the bound. */
  lemma ShareLeft(k: int, tenor: nat, units: real)
    requires tenor > 0 && (STEP * tenor * (k - 1)) as real < units && units > 0.0
    ensures var first, bound := STEP * k * (tenor - 1), (STEP * tenor * (tenor - 1)) as real;
            && (units >= bound + tenor as real / 2.0 ==> units >= first as real + 0.5)
            && (units >= bound ==> units > first as real)
  {
    var first, bound, steps := STEP * k * (tenor - 1), STEP * tenor * (tenor - 1), STEP * tenor * (k - 1);
    assert tenor * first == (tenor - 1) * steps + bound;
    if tenor > 1 {
      ScaleReal(steps as real, units, (tenor - 1) as real);
      RealProduct(tenor, first);
      RealProduct(tenor - 1, steps);
      CancelReal(first as real, units, tenor as real, bound as real);
    }
  }

  lemma RealProduct(a: int, b: int)
    ensures a as real * b as real == (a * b) as real
  {
  }

  lemma CancelReal(first: real, units: real, t: real, bound: real)
    requires t > 1.0 && t * first < units * (t - 1.0) + bound
    ensures units >= bound + t / 2.0 ==> units >= first + 0.5
    ensures units >= bound ==> units > first
  {
    if units >= bound {
      assert t * (units - first) > units - bound;
      if units <= first {
        NotNegative(first - units, t);
      }
    }
    if units >= bound + t / 2.0 && units < first + 0.5 {
      ScaleReal(units - first, 0.5, t);
    }
  }

  /** The bound needs the half units: 3000.00001 rupiah over 3 months meet it without them, and the third
      installment is left with no principal. */
  lemma BoundNeedsHalfUnits(user: nat, amount: real, period: Period, feeRate: real, disbursedOn: Date)
    requires amount == 3000.00001 && period.tenor == 3
    ensures var loan := NewLoan(user, amount, period, feeRate);
            && Units(amount) >= (STEP * 3 * 2) as real
            && loan.principal == STEP * 3 * 2 == FirstMonths(amount, 3)
            && !Clamped(loan) && !LeavesALast(loan)
            && Schedule(loan, disbursedOn)[2].principal == 0
  {
    CeilingIs(amount / 3.0 / 500.0, 3);
    NewLoanIsPriced(user, amount, period, feeRate);
  }

  /** And beyond four decimals an inactive clamp does not make the rows add up: of 1,000,000.00204 rupiah over
      3 months at one percent, the last payment is one unit above its parts. */
  lemma RoundingsDisagree(user: nat, amount: real, period: Period, feeRate: real, disbursedOn: Date)
    requires amount == 1_000_000.00204 && period == LoanPeriod(3, 100)
    ensures var loan := NewLoan(user, amount, period, feeRate);
            var last := Schedule(loan, disbursedOn)[2];
            !Clamped(loan) && LeavesALast(loan) && last.total == last.principal + last.interest + 1
  {
    var loan := NewLoan(user, amount, period, feeRate);
    NewLoanIsPriced(user, amount, period, feeRate);
    SeededErrors(loan, 667, 1_000_000.00204, 10_000_000_020, 100_000_000);
  }

  /** Below the bound the clamp does bite: of 600 rupiah over 3 months the first two installments take 1000,
      whatever the rate and the fee, and the third is generated with a principal of minus 400 rupiah. */
  lemma SmallPrincipalOvershoots(user: nat, amount: real, period: Period, feeRate: real, disbursedOn: Date)
    requires amount == 600.0 && period.tenor == 3
    ensures var loan := NewLoan(user, amount, period, feeRate);
            var last := Schedule(loan, disbursedOn)[2];
            && FirstMonths(amount, 3) == 1000 * RUPIAH && Clamped(loan)
            && last.principal == -400 * RUPIAH
            && last.total == loan.interest
            && !AddsUp(last)
  {
    CeilingIs(amount / 3.0 / 500.0, 1);
    NewLoanIsPriced(user, amount, period, feeRate);
  }

  // ----- adding stored amounts

  lemma ExactPenalty(principal: int, rate: nat)
    ensures principal as real / 10000.0 * (rate as real / 10000.0) * 10000.0 == (principal * rate) as real / 10000.0
    ensures principal >= 0 ==> principal * rate >= 0
  {
  }

  /** `units` column units plus an exact decimal that is `numerator` hundred-millionths. */
  lemma ColumnOfSum(units: int, exact: real, numerator: int)
    requires numerator >= 0 && exact * 10000.0 == numerator as real / 10000.0
    requires units >= 0
    ensures ToColumn(units as real / 10000.0 + exact) == units + (numerator + 5000) / 10000
  {
  }
}
