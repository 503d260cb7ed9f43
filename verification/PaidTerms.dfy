/** What a payment does to the end of the access.

    Durations are exact fractions rounded down to a millisecond; the source goes through doubles. */
module PaidTerms {
  import opened Options
  import opened Calendar
  import opened BillingPlans

  datatype Kind = Trial | Paid

  datatype Subscription = Subscription(kind: Kind, plan: Option<Plan>, period: Option<Period>, activeUntil: nat)

  /** The days a period has when it starts at `from`. */
  function PeriodDays(period: Period, from: nat): (days: nat)
    ensures AddPeriod(from, period) == from + days * DAY
    ensures period.Month? ==> 28 <= days <= 31
    ensures period.Year? ==> 365 <= days <= 366
  {
    AddPeriodAdvances(from, period);
    (AddPeriod(from, period) - from) / DAY
  }

  /** A paid term that has not ended. */
  predicate Continues(s: Subscription, now: nat) {
    s.kind.Paid? && s.plan.Some? && s.period.Some? && now < s.activeUntil
  }

  /** The price and the length of an old and of a new period. */
  datatype Exchange = Exchange(price: nat, days: nat, newPrice: nat, newDays: nat)

  predicate Positive(x: Exchange) {
    0 < x.price && 0 < x.days && 0 < x.newPrice && 0 < x.newDays
  }

  /** Prices and period lengths are positive, so the source's guards against zero never apply. */
  function ExchangeFor(s: Subscription, plan: Plan, period: Period, now: nat): (x: Exchange)
    requires Continues(s, now)
    ensures Positive(x)
  {
    Exchange(PriceFor(s.plan.value, s.period.value), PeriodDays(s.period.value, now), PriceFor(plan, period),
      PeriodDays(period, now))
  }

  /** The rest of a term, exchanged by value for time of another plan. */
  function Convert(rest: nat, x: Exchange): nat
    requires Positive(x)
  {
    ProductIsPositive(x.days, x.newPrice);
    (rest * (x.price * x.newDays)) / (x.days * x.newPrice)
  }

  lemma ProductIsPositive(a: nat, b: nat)
    requires 0 < a && 0 < b
    ensures 0 < a * b
  {
  }

  function Max(a: nat, b: nat): nat {
    if a < b then b else a
  }

  function CalculatePaidExtension(s: Subscription, plan: Plan, period: Period, now: nat): nat {
    if !Continues(s, now) then AddPeriod(now, period)
    else if s.plan.value == plan && s.period.value == period then AddPeriod(Max(now, s.activeUntil), period)
    else now + Convert(s.activeUntil - now, ExchangeFor(s, plan, period, now))
  }

  // ---------------------------------------------------------------------------
  // The exchange keeps the value
  // ---------------------------------------------------------------------------

  lemma Floor(x: nat, b: nat, r: int)
    requires 0 < b
    ensures x / b * b <= x < (x / b + 1) * b
    ensures x / b < r <==> x < r * b
  {
    assert x == b * (x / b) + x % b;
    if x / b < r {
      assert (x / b + 1) * b <= r * b;
    } else {
      assert r * b <= (x / b) * b;
    }
  }

  /** The new time is worth what the old time was worth, up to less than one millisecond. */
  lemma ConvertKeepsValue(rest: nat, x: Exchange)
    requires Positive(x)
    ensures Convert(rest, x) * (x.days * x.newPrice) <= rest * (x.price * x.newDays)
    ensures rest * (x.price * x.newDays) < (Convert(rest, x) + 1) * (x.days * x.newPrice)
  {
    ProductIsPositive(x.days, x.newPrice);
    Floor(rest * (x.price * x.newDays), x.days * x.newPrice, 0);
  }

  // ---------------------------------------------------------------------------
  // When a payment shortens the access
  // ---------------------------------------------------------------------------

  /** The new end of the access, with the legacy bonus days that are still pending. */
  function PaidUntil(s: Subscription, plan: Plan, period: Period, now: nat, pendingDays: nat): nat {
    CalculatePaidExtension(s, plan, period, now) + pendingDays * DAY
  }

  /** Renewing the same plan and period always adds a whole period to the term. */
  lemma RenewalAddsPeriod(s: Subscription, now: nat, pendingDays: nat)
    requires Continues(s, now)
    ensures PaidUntil(s, s.plan.value, s.period.value, now, pendingDays) ==
            s.activeUntil + (PeriodDays(s.period.value, s.activeUntil) + pendingDays) * DAY
  {
  }

  lemma Scale(rest: nat, a: nat, b: nat)
    requires 0 < rest
    ensures rest * a < rest * b <==> a < b
  {
    if a < b {
      assert rest * b == rest * a + rest * (b - a);
    } else {
      assert rest * a == rest * b + rest * (a - b);
    }
  }

  /** How long a period is that starts at `from`. */
  function Length(period: Period, from: nat): (ms: nat)
    ensures 28 * DAY <= ms
  {
    AddPeriodAdvances(from, period);
    AddPeriod(from, period) - from
  }

  /** What the rest of the term is worth at the old price for the length of an old period is less than what the time
      without the bonus is worth at the new price for the length of a new one. */
  predicate WorthLess(s: Subscription, plan: Plan, period: Period, now: nat, bonus: nat)
    requires Continues(s, now)
  {
    var rest := s.activeUntil - now;
    rest * (PriceFor(s.plan.value, s.period.value) * Length(period, now))
    < (rest - bonus) * (PriceFor(plan, period) * Length(s.period.value, now))
  }

  /** A millisecond of the new period costs more than one of the old period. */
  predicate Dearer(s: Subscription, plan: Plan, period: Period, now: nat)
    requires Continues(s, now)
  {
    PriceFor(s.plan.value, s.period.value) * Length(period, now)
    < PriceFor(plan, period) * Length(s.period.value, now)
  }

  lemma ConvertShortens(rest: nat, x: Exchange, bonus: nat)
    requires 0 < rest && Positive(x)
    ensures Convert(rest, x) + bonus < rest <==> rest * (x.price * x.newDays) < (rest - bonus) * (x.days * x.newPrice)
    ensures Convert(rest, x) < rest <==> x.price * x.newDays < x.days * x.newPrice
  {
    var a, b := x.price * x.newDays, x.days * x.newPrice;
    ProductIsPositive(x.days, x.newPrice);
    Floor(rest * a, b, rest - bonus);
    Floor(rest * a, b, rest);
    Scale(rest, a, b);
  }

  /** Counting in milliseconds instead of days changes no comparison. */
  lemma InMilliseconds(a: int, days: nat, price: nat, b: int, newDays: nat, newPrice: nat)
    ensures a * (price * (newDays * DAY)) == DAY * (a * (price * newDays))
    ensures b * (newPrice * (days * DAY)) == DAY * (b * (days * newPrice))
  {
    assert price * (newDays * DAY) == DAY * (price * newDays);
    assert newPrice * (days * DAY) == DAY * (days * newPrice);
    Move(a, price * newDays);
    Move(b, days * newPrice);
  }

  lemma Move(a: int, b: int)
    ensures a * (DAY * b) == DAY * (a * b)
  {
  }

  /** Changing the plan or the period of a running term gives the time that is worth, at the new price for a new
      period, what the rest of the term is worth at the old price for an old one, down to a millisecond. */
  lemma ChangeKeepsValue(s: Subscription, plan: Plan, period: Period, now: nat)
    requires s.kind == Paid && s.plan.Some? && s.period.Some? && now < s.activeUntil
    requires s.plan != Some(plan) || s.period != Some(period)
    ensures var a, b := AddPeriod(now, s.period.value) - now, AddPeriod(now, period) - now;
            var p, q := PriceFor(s.plan.value, s.period.value), PriceFor(plan, period);
            var rest, time := s.activeUntil - now, CalculatePaidExtension(s, plan, period, now) - now;
            0 <= time && time * (q * a) <= rest * (p * b) < (time + 1) * (q * a)
  {
    hide AddPeriod, PeriodDays, Convert, PriceFor;
    var x := ExchangeFor(s, plan, period, now);
    var rest := s.activeUntil - now;
    var time := Convert(rest, x);
    ConvertKeepsValue(rest, x);
    InMilliseconds(rest, x.days, x.price, time, x.newDays, x.newPrice);
    InMilliseconds(rest, x.days, x.price, time + 1, x.newDays, x.newPrice);
  }

  /** The period that was paid for is not added to a term that is changed. So the access gets shorter exactly when the
      pending bonus days do not make up for what the rest is worth less at the new price; without bonus days, exactly
      when the new time costs more. */
  lemma ChangeShortensExactly(s: Subscription, plan: Plan, period: Period, now: nat, pendingDays: nat)
    requires Continues(s, now) && (s.plan.value != plan || s.period.value != period)
    ensures PaidUntil(s, plan, period, now, pendingDays) < s.activeUntil <==>
            WorthLess(s, plan, period, now, pendingDays * DAY)
    ensures PaidUntil(s, plan, period, now, 0) < s.activeUntil <==> Dearer(s, plan, period, now)
  {
    hide AddPeriod, PeriodDays, Convert, PriceFor;
    var x := ExchangeFor(s, plan, period, now);
    var rest, bonus := s.activeUntil - now, pendingDays * DAY;
    ConvertShortens(rest, x, bonus);
    InMilliseconds(rest, x.days, x.price, rest - bonus, x.newDays, x.newPrice);
    InMilliseconds(1, x.days, x.price, 1, x.newDays, x.newPrice);
  }

  /** A payment for a dearer plan of the same period always shortens a running term. */
  lemma UpgradeAlwaysShortens(s: Subscription, plan: Plan, now: nat)
    requires Continues(s, now) && PriceFor(s.plan.value, s.period.value) < PriceFor(plan, s.period.value)
    ensures PaidUntil(s, plan, s.period.value, now, 0) < s.activeUntil
  {
    hide AddPeriod, PeriodDays, Length;
    ChangeShortensExactly(s, plan, s.period.value, now, 0);
    Scale(Length(s.period.value, now), PriceFor(s.plan.value, s.period.value), PriceFor(plan, s.period.value));
  }

  /** The first payment after a trial shortens the access exactly when more of the trial is left than the
      period paid for has; that takes legacy bonus days. */
  lemma TrialShortensExactly(startedAt: nat, legacyDays: nat, plan: Plan, period: Period, now: nat)
    requires startedAt <= now
    ensures var trial := Subscription(Trial, None, None, startedAt + (TRIAL_DAYS + legacyDays) * DAY);
            && (PaidUntil(trial, plan, period, now, 0) < trial.activeUntil <==>
                now - startedAt < (TRIAL_DAYS + legacyDays - PeriodDays(period, now)) * DAY)
            && (legacyDays <= 18 ==> trial.activeUntil <= PaidUntil(trial, plan, period, now, 0))
  {
  }

  /** A payment after the access has ended gives exactly one period from now. */
  lemma ExpiredGivesPeriod(s: Subscription, plan: Plan, period: Period, now: nat, pendingDays: nat)
    requires s.activeUntil <= now
    ensures PaidUntil(s, plan, period, now, pendingDays) == now + (PeriodDays(period, now) + pendingDays) * DAY
    ensures s.activeUntil < PaidUntil(s, plan, period, now, pendingDays)
  {
  }

  /** What decides before the payment whether it shortens the access: unless a priced paid term is running, that
      more of the access is left than the new period and the bonus days; otherwise, that plan or period change to
      something the rest is not worth. */
  predicate Shortens(s: Subscription, plan: Plan, period: Period, now: nat, pendingDays: nat) {
    if !Continues(s, now) then now + (PeriodDays(period, now) + pendingDays) * DAY < s.activeUntil
    else
      && (s.plan.value != plan || s.period.value != period)
      && WorthLess(s, plan, period, now, pendingDays * DAY)
  }

  /** For every subscription, plan, period and time: exactly when a payment shortens the access. */
  lemma PaymentShortensExactly(s: Subscription, plan: Plan, period: Period, now: nat, pendingDays: nat)
    ensures PaidUntil(s, plan, period, now, pendingDays) < s.activeUntil <==>
            Shortens(s, plan, period, now, pendingDays)
  {
    hide AddPeriod, PeriodDays, WorthLess, Convert;
    if Continues(s, now) {
      if s.plan.value == plan && s.period.value == period {
        RenewalAddsPeriod(s, now, pendingDays);
      } else {
        ChangeShortensExactly(s, plan, period, now, pendingDays);
      }
    }
  }

  /** A subscription from before plans existed is a paid one without plan and period. A payment replaces the rest
      of it by one period, which shortens it exactly when more than that period is left. */
  lemma UnpricedTermIsReplaced(until: nat, plan: Plan, period: Period, now: nat)
    ensures var legacy := Subscription(Paid, None, None, until);
            && PaidUntil(legacy, plan, period, now, 0) == now + PeriodDays(period, now) * DAY
            && (PaidUntil(legacy, plan, period, now, 0) < until <==> now + PeriodDays(period, now) * DAY < until)
  {
    hide PeriodDays;
  }

  /** With a year of such a subscription left, paying for a month always shortens the access. */
  lemma UnpricedYearIsShortened(plan: Plan, now: nat)
    ensures PaidUntil(Subscription(Paid, None, None, now + 365 * DAY), plan, Month, now, 0) < now + 365 * DAY
  {
    UnpricedTermIsReplaced(now + 365 * DAY, plan, Month, now);
  }
}
