/** The discount strategies. Each is fixed by the one parameter its constructor stores,
    and `apply` is a pure function of that parameter and the amount. */
module Discounts {

  datatype Discount = PercentageDiscount(percentage: real) | FixedDiscount(fixedAmount: real) {

    /** `apply(amount)`: the amount to subtract from `amount`. */
    function Apply(amount: real): (d: real)
      ensures PercentageDiscount? ==> d * 100.0 == amount * percentage
      ensures FixedDiscount? ==> d <= fixedAmount && d <= amount
      ensures FixedDiscount? ==> d == fixedAmount || d == amount
    {
      match this
      case PercentageDiscount(p) => amount * (p / 100.0)
      case FixedDiscount(f) => if f <= amount then f else amount
    }
  }

  /** For a non-negative amount and a percentage in [0, 100], the discount lies in [0, amount];
      nothing clamps a percentage above 100, and then the discount exceeds a positive amount. */
  lemma {:induction false} PercentageBounds(p: real, amount: real)
    requires 0.0 <= amount
    ensures 0.0 <= p <= 100.0 ==> 0.0 <= PercentageDiscount(p).Apply(amount) <= amount
    ensures p > 100.0 && amount > 0.0 ==> PercentageDiscount(p).Apply(amount) > amount
  {
    var d := PercentageDiscount(p).Apply(amount);
    assert d * 100.0 == amount * p;
    if 0.0 <= p <= 100.0 {
      MulMonotone(amount, p, 100.0);
      MulMonotone(amount, 0.0, p);
    }
    if p > 100.0 && amount > 0.0 {
      assert amount * p > amount * 100.0 by { MulStrict(amount, 100.0, p); }
    }
  }

  /** A fixed discount never exceeds the amount, and one of at least the amount takes all of it. */
  lemma {:induction false} FixedBounds(f: real, amount: real)
    ensures FixedDiscount(f).Apply(amount) <= amount
    ensures f >= amount ==> amount - FixedDiscount(f).Apply(amount) == 0.0
    ensures 0.0 <= f && 0.0 <= amount ==> 0.0 <= FixedDiscount(f).Apply(amount)
  {
  }

  /** A zero parameter, or a zero amount, gives a zero discount. */
  lemma {:induction false} ZeroDiscounts(p: real, f: real, amount: real)
    requires 0.0 <= amount && 0.0 <= f
    ensures PercentageDiscount(0.0).Apply(amount) == 0.0 && FixedDiscount(0.0).Apply(amount) == 0.0
    ensures PercentageDiscount(p).Apply(0.0) == 0.0 && FixedDiscount(f).Apply(0.0) == 0.0
  {
  }

  lemma MulMonotone(a: real, x: real, y: real)
    requires 0.0 <= a && x <= y
    ensures a * x <= a * y
  {
    assert a * y - a * x == a * (y - x);
  }

  lemma MulStrict(a: real, x: real, y: real)
    requires 0.0 < a && x < y
    ensures a * x < a * y
  {
    assert a * y - a * x == a * (y - x);
  }
}
