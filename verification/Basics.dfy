/** Shared vocabulary: results of a step, money pairs, balances, and finite sums over tables.
    Money is an integer count of 0.0001 rupiah, the scale of every `decimal(12,4)` column. */
module Basics {

  datatype Option<+T> = None | Some(value: T)

  /** Why a step was refused: constraint violations, trigger exceptions and service errors. */
  datatype Error =
    | AmountsNotPositive   // CHECK shu_amount + capital_amount > 0
    | InsufficientShu      // raised by the insert trigger
    | InsufficientCapital  // raised by the insert trigger
    | NegativeBalance      // CHECK balance >= 0
    | InsufficientFunds    // raised by the expense allocation
    | InvalidAmount
    | NotFound
    | CategoryNotFound
    | MissingCashbookRow
    | WrongStatus
    | AlreadyPaid
    | TooManyLoans         // raised by the loan limit trigger
    | UniqueViolation

  datatype Result<+T> = Success(value: T) | Failure(error: Error) {
    predicate IsFailure() { Failure? }

    function PropagateFailure<U>(): Result<U>
      requires Failure?
    {
      Failure(error)
    }

    function Extract(): T
      requires Success?
    {
      value
    }
  }

  /** The two parts of a cashbook amount. */
  datatype Amounts = Amounts(shu: int, capital: int) {
    function Plus(other: Amounts): Amounts { Amounts(shu + other.shu, capital + other.capital) }

    function Minus(other: Amounts): Amounts { Amounts(shu - other.shu, capital - other.capital) }

    predicate Adds(total: int) { shu + capital == total }

    /** The CHECK on every amounts column pair: shu_amount + capital_amount > 0. */
    predicate Positive() { shu + capital > 0 }

    predicate NonNegative() { shu >= 0 && capital >= 0 }
  }

  const ZERO := Amounts(0, 0)

  /** The three cached rows of `cashbook_balances`. */
  datatype Balances = Balances(shu: int, capital: int, total: int) {
    function Plus(a: Amounts): Balances { Balances(shu + a.shu, capital + a.capital, total + a.shu + a.capital) }

    predicate NonNegative() { shu >= 0 && capital >= 0 && total >= 0 }

    predicate Consistent() { NonNegative() && total == shu + capital }
  }

  const RUPIAH: int := 10_000

  /** The balances inserted by the migration: 5,000,000 rupiah of capital. */
  const OPENING := Balances(0, 5_000_000 * RUPIAH, 5_000_000 * RUPIAH)

  /** The nearest integer, a half going up. */
  function Round(x: real): int { (x + 0.5).Floor }

  /** Storing a decimal in a `decimal(12,4)` column, which rounds half away from zero. */
  function ToColumn(x: real): int {
    if x >= 0.0 then Round(x * 10000.0) else -Round(-x * 10000.0)
  }

  /** `units` is the decimal's nearest number of column units, and in a tie the one further from zero. */
  predicate IsNearest(units: int, x: real) {
    if x >= 0.0 then units as real - 0.5 <= x * 10000.0 < units as real + 0.5
    else units as real - 0.5 < x * 10000.0 <= units as real + 0.5
  }

  lemma ToColumnIsNearest(x: real)
    ensures IsNearest(ToColumn(x), x)
  {
  }

  // ----- sums over the rows of a table

  ghost function Sum<T(!new)>(s: seq<T>, f: T -> int): int
  {
    SumTo(s, f, |s|)
  }

  ghost function SumTo<T(!new)>(s: seq<T>, f: T -> int, n: nat): int
    requires n <= |s|
  {
    if n == 0 then 0 else SumTo(s, f, n - 1) + f(s[n - 1])
  }

  /** A partial sum depends only on the terms it adds; `shift` is a common per-term offset. */
  lemma {:induction false} SumToPointwise<S(!new), T(!new)>(
      s: seq<S>, t: seq<T>, f: S -> int, g: T -> int, shift: int, n: nat)
    requires n <= |s| && n <= |t|
    requires forall i :: 0 <= i < n ==> f(s[i]) == g(t[i]) + shift
    ensures SumTo(s, f, n) == SumTo(t, g, n) + n * shift
  {
    if n > 0 {
      SumToPointwise(s, t, f, g, shift, n - 1);
    }
  }

  /** A sum of terms that are not negative is at least each of them. */
  lemma {:induction false} SumToNonNegative<T(!new)>(s: seq<T>, f: T -> int, n: nat)
    requires n <= |s|
    requires forall i :: 0 <= i < n ==> f(s[i]) >= 0
    ensures SumTo(s, f, n) >= 0
    ensures forall i :: 0 <= i < n ==> f(s[i]) <= SumTo(s, f, n)
  {
    if n > 0 {
      SumToNonNegative(s, f, n - 1);
    }
  }

  lemma SumAppend<T(!new)>(s: seq<T>, x: T, f: T -> int)
    ensures Sum(s + [x], f) == Sum(s, f) + f(x)
  {
    SumToPointwise(s + [x], s, f, f, 0, |s|);
  }

  lemma {:induction false} SumConcatTo<T(!new)>(s: seq<T>, t: seq<T>, f: T -> int, n: nat)
    requires n <= |t|
    ensures SumTo(s + t, f, |s| + n) == Sum(s, f) + SumTo(t, f, n)
  {
    if n == 0 {
      SumToPointwise(s + t, s, f, f, 0, |s|);
    } else {
      SumConcatTo(s, t, f, n - 1);
    }
  }

  lemma SumConcat<T(!new)>(s: seq<T>, t: seq<T>, f: T -> int)
    ensures Sum(s + t, f) == Sum(s, f) + Sum(t, f)
  {
    SumConcatTo(s, t, f, |t|);
  }

  lemma {:induction false} SumUpdateTo<T(!new)>(s: seq<T>, i: nat, x: T, f: T -> int, n: nat)
    requires i < n <= |s|
    ensures SumTo(s[i := x], f, n) == SumTo(s, f, n) - f(s[i]) + f(x)
  {
    if i == n - 1 {
      SumToPointwise(s[i := x], s, f, f, 0, n - 1);
    } else {
      SumUpdateTo(s, i, x, f, n - 1);
    }
  }

  lemma SumUpdate<T(!new)>(s: seq<T>, i: nat, x: T, f: T -> int)
    requires i < |s|
    ensures Sum(s[i := x], f) == Sum(s, f) - f(s[i]) + f(x)
  {
    SumUpdateTo(s, i, x, f, |s|);
  }

  lemma SumPointwise<S(!new), T(!new)>(s: seq<S>, t: seq<T>, f: S -> int, g: T -> int, shift: int)
    requires |s| == |t|
    requires forall i :: 0 <= i < |s| ==> f(s[i]) == g(t[i]) + shift
    ensures Sum(s, f) == Sum(t, g) + |s| * shift
  {
    SumToPointwise(s, t, f, g, shift, |s|);
  }

  lemma {:induction false} SumSplitTo<T(!new)>(s: seq<T>, f: T -> int, g: T -> int, h: T -> int, n: nat)
    requires n <= |s|
    requires forall i :: 0 <= i < n ==> f(s[i]) == g(s[i]) + h(s[i])
    ensures SumTo(s, f, n) == SumTo(s, g, n) + SumTo(s, h, n)
  {
    if n > 0 {
      SumSplitTo(s, f, g, h, n - 1);
    }
  }

  lemma {:induction false} SumBounds<T(!new)>(s: seq<T>, f: T -> int, low: int, high: int, n: nat)
    requires n <= |s|
    requires forall i :: 0 <= i < n ==> low <= f(s[i]) <= high
    ensures n * low <= SumTo(s, f, n) <= n * high
  {
    if n > 0 {
      SumBounds(s, f, low, high, n - 1);
    }
  }

  /** A sum with only one term that is not zero is that term. */
  lemma SumSole<T(!new)>(s: seq<T>, k: nat, f: T -> int)
    requires k < |s|
    requires forall i :: 0 <= i < |s| && i != k ==> f(s[i]) == 0
    ensures Sum(s, f) == f(s[k])
  {
    SumBounds(s, f, 0, 0, k);
    SumTail(s, f, k + 1, |s|);
  }

  lemma {:induction false} SumTail<T(!new)>(s: seq<T>, f: T -> int, m: nat, n: nat)
    requires m <= n <= |s|
    requires forall i :: m <= i < n ==> f(s[i]) == 0
    ensures SumTo(s, f, n) == SumTo(s, f, m)
  {
    if m < n {
      SumTail(s, f, m, n - 1);
    }
  }

  // ----- the same for money pairs

  function ShuOf<T>(f: T -> Amounts): T -> int { x => f(x).shu }

  function CapitalOf<T>(f: T -> Amounts): T -> int { x => f(x).capital }

  ghost function SumAmounts<T(!new)>(s: seq<T>, f: T -> Amounts): Amounts
  {
    Amounts(Sum(s, ShuOf(f)), Sum(s, CapitalOf(f)))
  }

  lemma SumAmountsAppend<T(!new)>(s: seq<T>, x: T, f: T -> Amounts)
    ensures SumAmounts(s + [x], f) == SumAmounts(s, f).Plus(f(x))
  {
    SumAppend(s, x, ShuOf(f));
    SumAppend(s, x, CapitalOf(f));
  }

  lemma SumAmountsUpdate<T(!new)>(s: seq<T>, i: nat, x: T, f: T -> Amounts)
    requires i < |s|
    ensures SumAmounts(s[i := x], f) == SumAmounts(s, f).Minus(f(s[i])).Plus(f(x))
  {
    SumUpdate(s, i, x, ShuOf(f));
    SumUpdate(s, i, x, CapitalOf(f));
  }

  lemma SumAmountsSplit<T(!new)>(s: seq<T>, f: T -> Amounts, g: T -> Amounts, h: T -> Amounts)
    requires forall i :: 0 <= i < |s| ==>
               f(s[i]).shu == g(s[i]).shu + h(s[i]).shu && f(s[i]).capital == g(s[i]).capital + h(s[i]).capital
    ensures SumAmounts(s, f) == SumAmounts(s, g).Plus(SumAmounts(s, h))
  {
    SumSplitTo(s, ShuOf(f), ShuOf(g), ShuOf(h), |s|);
    SumSplitTo(s, CapitalOf(f), CapitalOf(g), CapitalOf(h), |s|);
  }

  lemma SumAmountsSame<S(!new), T(!new)>(s: seq<S>, t: seq<T>, f: S -> Amounts, g: T -> Amounts)
    requires |s| == |t|
    requires forall i :: 0 <= i < |s| ==> f(s[i]) == g(t[i])
    ensures SumAmounts(s, f) == SumAmounts(t, g)
  {
    SumPointwise(s, t, ShuOf(f), ShuOf(g), 0);
    SumPointwise(s, t, CapitalOf(f), CapitalOf(g), 0);
  }

  lemma SumAmountsSole<T(!new)>(s: seq<T>, k: nat, f: T -> Amounts)
    requires k < |s|
    requires forall i :: 0 <= i < |s| && i != k ==> f(s[i]) == ZERO
    ensures SumAmounts(s, f) == f(s[k])
  {
    SumSole(s, k, ShuOf(f));
    SumSole(s, k, CapitalOf(f));
  }

  lemma SumAmountsAllZero<T(!new)>(s: seq<T>, f: T -> Amounts)
    requires forall i :: 0 <= i < |s| ==> f(s[i]) == ZERO
    ensures SumAmounts(s, f) == ZERO
  {
    SumBounds(s, ShuOf(f), 0, 0, |s|);
    SumBounds(s, CapitalOf(f), 0, 0, |s|);
  }
}
