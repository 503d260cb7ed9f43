/** The billing tables: referral rewards, payment orders, subscriptions and trials.

    Every operation holds the lock of the one user whose rows it touches, so each is one step. Rows are never
    deleted; orders and referrals are kept in creation order and named by their position. */
module Billing {
  import opened Options
  import opened Calendar
  import opened BillingPlans
  import opened PaidTerms

  type UserId = nat

  type Percent = p: nat | p <= 100

  datatype Account = Account(subscriptions: seq<Subscription>, trialStartedAt: Option<nat>, pendingDays: nat)

  datatype Referral = Referral(inviter: UserId, referred: UserId, discountPercent: Percent)

  datatype PaymentStatus = Pending | Paid

  datatype Order = Order(
    user: UserId, plan: Plan, period: Period, number: nat, key: string,
    amount: nat, currency: string, discountPercent: Percent, reward: Option<nat>,
    status: PaymentStatus, payment: Option<string>)

  datatype Ledger = Ledger(accounts: map<UserId, Account>, orders: seq<Order>, referrals: seq<Referral>)

  // ---------------------------------------------------------------------------
  // Queries
  // ---------------------------------------------------------------------------

  /** The subscription that ends last. */
  function Current(subscriptions: seq<Subscription>): (r: Option<nat>)
    ensures r.Some? <==> subscriptions != []
    ensures r.Some? ==> r.value < |subscriptions|
    ensures r.Some? ==> forall s | s in subscriptions :: s.activeUntil <= subscriptions[r.value].activeUntil
  {
    if subscriptions == [] then None
    else
      var n := |subscriptions| - 1;
      var before := Current(subscriptions[..n]);
      if before.Some? && subscriptions[n].activeUntil <= subscriptions[before.value].activeUntil
      then before
      else Some(n)
  }

  predicate Attached(orders: seq<Order>, r: nat) {
    exists o | o in orders :: o.reward == Some(r)
  }

  /** An earned reward that no order has. */
  predicate Available(l: Ledger, user: UserId, r: nat) {
    && r < |l.referrals| && l.referrals[r].inviter == user && 0 < l.referrals[r].discountPercent
    && !Attached(l.orders, r)
  }

  function FindByKey(orders: seq<Order>, user: UserId, key: string): (r: Option<nat>)
    ensures r.Some? ==> r.value < |orders| && orders[r.value].user == user && orders[r.value].key == key
    ensures r.None? ==> forall o | o in orders :: o.user == user ==> o.key != key
  {
    if orders == [] then None
    else
      var n := |orders| - 1;
      var before := FindByKey(orders[..n], user, key);
      if before.Some? then before else if orders[n].user == user && orders[n].key == key then Some(n) else None
  }

  predicate OpenDiscount(o: Order, user: UserId, plan: Plan, period: Period) {
    o.user == user && o.plan == plan && o.period == period && o.status.Pending? && o.reward.Some?
  }

  /** The oldest unpaid order of the same plan and period that has a reward. */
  function FindOpenDiscount(orders: seq<Order>, user: UserId, plan: Plan, period: Period): (r: Option<nat>)
    ensures r.Some? ==> r.value < |orders| && OpenDiscount(orders[r.value], user, plan, period)
    ensures r.None? ==> forall o | o in orders :: !OpenDiscount(o, user, plan, period)
  {
    if orders == [] then None
    else
      var n := |orders| - 1;
      var before := FindOpenDiscount(orders[..n], user, plan, period);
      if before.Some? then before else if OpenDiscount(orders[n], user, plan, period) then Some(n) else None
  }

  function FirstReward(l: Ledger, user: UserId, n: nat): (r: Option<nat>)
    ensures r.Some? ==>
              r.value < n && Available(l, user, r.value) && forall i: nat | i < r.value :: !Available(l, user, i)
    ensures r.None? ==> forall i: nat | i < n :: !Available(l, user, i)
  {
    if n == 0 then None
    else
      var before := FirstReward(l, user, n - 1);
      if before.Some? then before else if Available(l, user, n - 1) then Some(n - 1) else None
  }

  /** The oldest reward that is still available. */
  function FindReward(l: Ledger, user: UserId): (r: Option<nat>)
    ensures r.Some? ==> Available(l, user, r.value) && forall i: nat | i < r.value :: !Available(l, user, i)
    ensures r.None? ==> forall i: nat | i < |l.referrals| :: !Available(l, user, i)
  {
    FirstReward(l, user, |l.referrals|)
  }

  // ---------------------------------------------------------------------------
  // Operations
  // ---------------------------------------------------------------------------

  predicate Referred(l: Ledger, user: UserId) {
    exists r | r in l.referrals :: r.referred == user
  }

  function CreditReferral(l: Ledger, referred: UserId, inviter: UserId): Ledger {
    if inviter !in l.accounts || inviter == referred || Referred(l, referred) then l
    else l.(referrals := l.referrals + [Referral(inviter, referred, REFERRAL_DISCOUNT_PERCENT)])
  }

  function TrialEnd(a: Account, now: nat): nat {
    now + (TRIAL_DAYS + a.pendingDays) * DAY
  }

  function StartTrial(a: Account, now: nat): Account {
    if a.trialStartedAt.Some? then a
    else
      Account(if a.subscriptions == [] then [Subscription(Trial, None, None, TrialEnd(a, now))] else a.subscriptions,
              Some(now), 0)
  }

  /** Half a kopeck is rounded up. */
  function Discounted(price: nat, percent: Percent): nat {
    (2 * price * (100 - percent) + 100) / 200
  }

  /** Discounts of ten percent are exact: no price has a fraction of a kopeck to round. */
  lemma DiscountIsExact(plan: Plan, period: Period)
    ensures Discounted(PriceFor(plan, period), 0) == PriceFor(plan, period)
    ensures 10 * Discounted(PriceFor(plan, period), REFERRAL_DISCOUNT_PERCENT) == 9 * PriceFor(plan, period)
  {
  }

  predicate Downgrades(a: Account, plan: Plan, period: Period, now: nat) {
    var k := Current(a.subscriptions);
    && k.Some? && Continues(a.subscriptions[k.value], now)
    && PriceFor(plan, period) < PriceFor(a.subscriptions[k.value].plan.value, a.subscriptions[k.value].period.value)
  }

  /** The ledger after a request, and the order that was returned; None for a refusal. */
  datatype Placed = Placed(ledger: Ledger, order: Option<nat>)

  function NewOrder(l: Ledger, user: UserId, plan: Plan, period: Period, key: string, number: nat): Order {
    var reward := FindReward(l, user);
    var percent := if reward.Some? then l.referrals[reward.value].discountPercent else 0;
    Order(user, plan, period, number, key, Discounted(PriceFor(plan, period), percent), "RUB", percent, reward,
      Pending, None)
  }

  function CreateOrder(l: Ledger, user: UserId, plan: Plan, period: Period, key: string, number: nat,
      now: nat): Placed {
    if user !in l.accounts || Downgrades(l.accounts[user], plan, period, now) then Placed(l, None)
    else
      var same := FindByKey(l.orders, user, key);
      if same.Some? then
        var o := l.orders[same.value];
        if o.plan != plan || o.period != period || !o.status.Pending? then Placed(l, None) else Placed(l, same)
      else
        var open := FindOpenDiscount(l.orders, user, plan, period);
        if open.Some? then Placed(l, open)
        else if exists o | o in l.orders :: o.number == number then Placed(l, None)
        else Placed(l.(orders := l.orders + [NewOrder(l, user, plan, period, key, number)]), Some(|l.orders|))
  }

  /** What is returned is an unpaid order of this user for this plan and period, and nothing else changed. */
  lemma PlacedAsAsked(l: Ledger, user: UserId, plan: Plan, period: Period, key: string, number: nat, now: nat)
    ensures var p := CreateOrder(l, user, plan, period, key, number, now);
            && p.ledger == l.(orders := p.ledger.orders) && l.orders <= p.ledger.orders
            && (p.order.None? ==> p.ledger == l)
            && (p.order.Some? ==>
                  && p.order.value < |p.ledger.orders|
                  && p.ledger.orders[p.order.value].user == user && p.ledger.orders[p.order.value].status.Pending?
                  && p.ledger.orders[p.order.value].plan == plan && p.ledger.orders[p.order.value].period == period
                  && !Downgrades(l.accounts[user], plan, period, now))
  {
    hide Downgrades;
  }

  /** A new order takes the oldest reward its user still has, and pays the full price only without one. */
  lemma NewOrderTakesOldestReward(l: Ledger, user: UserId, plan: Plan, period: Period, key: string, number: nat)
    ensures var o := NewOrder(l, user, plan, period, key, number);
            && (o.reward.None? ==>
                  o.amount == PriceFor(plan, period) && forall r: nat | r < |l.referrals| :: !Available(l, user, r))
            && (o.reward.Some? ==>
                  && Available(l, user, o.reward.value)
                  && o.discountPercent == l.referrals[o.reward.value].discountPercent
                  && forall r: nat | r < o.reward.value :: !Available(l, user, r))
  {
    hide Attached;
    DiscountIsExact(plan, period);
  }

  lemma NoDowngradeLater(a: Account, plan: Plan, period: Period, now: nat, later: nat)
    requires !Downgrades(a, plan, period, now) && now <= later
    ensures !Downgrades(a, plan, period, later)
  {
    hide PriceFor;
  }

  /** Repeating a request later returns the same order and creates nothing: a plan that was no downgrade does not
      become one by waiting. */
  lemma RetryReturnsSameOrder(l: Ledger, user: UserId, plan: Plan, period: Period, key: string, number: nat,
      retry: nat, now: nat, later: nat)
    requires CreateOrder(l, user, plan, period, key, number, now).order.Some? && now <= later
    ensures var p := CreateOrder(l, user, plan, period, key, number, now);
            CreateOrder(p.ledger, user, plan, period, key, retry, later) == p
  {
    hide Downgrades, NewOrder, FindByKey, FindOpenDiscount;
    var p := CreateOrder(l, user, plan, period, key, number, now);
    NoDowngradeLater(l.accounts[user], plan, period, now, later);
    if p.ledger != l {
      NewOrderAsAsked(l, user, plan, period, key, number);
      LastIsFound(l.orders, NewOrder(l, user, plan, period, key, number));
    }
  }

  lemma NewOrderAsAsked(l: Ledger, user: UserId, plan: Plan, period: Period, key: string, number: nat)
    ensures var o := NewOrder(l, user, plan, period, key, number);
            o.user == user && o.plan == plan && o.period == period && o.key == key && o.status.Pending?
  {
    hide Discounted, FindReward;
  }

  lemma LastIsFound(orders: seq<Order>, o: Order)
    requires FindByKey(orders, o.user, o.key).None?
    ensures FindByKey(orders + [o], o.user, o.key) == Some(|orders|)
  {
    assert (orders + [o])[..|orders|] == orders;
  }

  /** What is returned was requested under this key, or has a reward. */
  lemma PlacedByKeyOrReward(l: Ledger, user: UserId, plan: Plan, period: Period, key: string, number: nat, now: nat)
    ensures var p := CreateOrder(l, user, plan, period, key, number, now);
            p.order.Some? ==>
              && p.order.value < |p.ledger.orders|
              && (p.ledger.orders[p.order.value].key == key || p.ledger.orders[p.order.value].reward.Some?)
  {
    hide Downgrades;
  }

  function PaidEnd(a: Account, plan: Plan, period: Period, now: nat): nat {
    var k := Current(a.subscriptions);
    if k.Some? then PaidUntil(a.subscriptions[k.value], plan, period, now, a.pendingDays)
    else AddPeriod(now, period) + a.pendingDays * DAY
  }

  /** All bonus days are in the new end; a first payment without any trial gives one period and these days. */
  lemma PaidEndParts(a: Account, plan: Plan, period: Period, now: nat)
    ensures PaidEnd(a, plan, period, now) == PaidEnd(a.(pendingDays := 0), plan, period, now) + a.pendingDays * DAY
    ensures a.subscriptions == [] ==>
              PaidEnd(a, plan, period, now) == now + (PeriodDays(period, now) + a.pendingDays) * DAY
  {
    hide CalculatePaidExtension, Current;
    var days := PeriodDays(period, now);
  }

  function Pay(a: Account, plan: Plan, period: Period, now: nat): Account {
    var k := Current(a.subscriptions);
    var s := Subscription(Kind.Paid, Some(plan), Some(period), PaidEnd(a, plan, period, now));
    Account(if k.Some? then a.subscriptions[k.value := s] else a.subscriptions + [s], Some(a.trialStartedAt.Or(now)), 0)
  }

  /** The end of the access: that of the subscription that ends last, or zero. */
  function AccessEnd(a: Account): (end: nat)
    ensures forall s | s in a.subscriptions :: s.activeUntil <= end
    ensures a.subscriptions == [] ==> end == 0
    ensures a.subscriptions != [] ==> exists s | s in a.subscriptions :: s.activeUntil == end
  {
    var k := Current(a.subscriptions);
    if k.Some? then a.subscriptions[k.value].activeUntil else 0
  }

  /** A payment shortens the access of an account exactly when it shortens the subscription that ends last, and
      no other one ends as late. */
  lemma PayShortensAccessExactly(a: Account, plan: Plan, period: Period, now: nat)
    ensures AccessEnd(Pay(a, plan, period, now)) < AccessEnd(a) <==>
            && a.subscriptions != []
            && var k := Current(a.subscriptions).value;
               && Shortens(a.subscriptions[k], plan, period, now, a.pendingDays)
               && forall j | 0 <= j < |a.subscriptions| && j != k :: a.subscriptions[j].activeUntil < AccessEnd(a)
  {
    hide Current, CalculatePaidExtension, AddPeriod, Shortens, PaidUntil;
    var rows, paid := a.subscriptions, Pay(a, plan, period, now).subscriptions;
    if rows != [] {
      var k := Current(rows).value;
      PaymentShortensExactly(rows[k], plan, period, now, a.pendingDays);
      assert paid == rows[k := paid[k]] && paid[k].activeUntil == PaidUntil(rows[k], plan, period, now, a.pendingDays);
      assert paid[k] in paid;
      assert forall j | 0 <= j < |rows| && j != k :: paid[j] == rows[j] && paid[j] in paid;
    }
  }

  const MAX_SAFE_INTEGER: int := 9_007_199_254_740_991

  /** The payment names an existing order, with its amount and currency. */
  predicate Matches(l: Ledger, order: nat, payment: string, amount: int, currency: string) {
    && payment != "" && -MAX_SAFE_INTEGER <= amount <= MAX_SAFE_INTEGER
    && order < |l.orders| && l.orders[order].amount == amount && l.orders[order].currency == currency
  }

  predicate Settles(l: Ledger, order: nat, payment: string, amount: int, currency: string) {
    && Matches(l, order, payment, amount, currency)
    && l.orders[order].status.Pending? && l.orders[order].user in l.accounts
    && forall o | o in l.orders :: o.payment != Some(payment)
  }

  function Settle(l: Ledger, order: nat, payment: string, now: nat): Ledger
    requires order < |l.orders| && l.orders[order].user in l.accounts
  {
    var o := l.orders[order];
    l.(accounts := l.accounts[o.user := Pay(l.accounts[o.user], o.plan, o.period, now)],
       orders := l.orders[order := o.(status := PaymentStatus.Paid, payment := Some(payment))])
  }

  /** None for an exception. */
  function ConfirmPayment(l: Ledger, order: nat, payment: string, amount: int, currency: string,
      now: nat): Option<Ledger> {
    if Settles(l, order, payment, amount, currency) then Some(Settle(l, order, payment, now))
    else if Matches(l, order, payment, amount, currency) && l.orders[order].status.Paid?
         && l.orders[order].payment == Some(payment)
    then Some(l)
    else None
  }

  /** The tables, with one method per transaction. */
  class BillingTables {
    var accounts: map<UserId, Account>
    var orders: seq<Order>
    var referrals: seq<Referral>

    function Rows(): Ledger
      reads this
    {
      Ledger(accounts, orders, referrals)
    }

    constructor (accounts: map<UserId, Account>, referrals: seq<Referral>)
      ensures Rows() == Ledger(accounts, [], referrals)
    {
      this.accounts, this.orders, this.referrals := accounts, [], referrals;
    }

    method Credit(referred: UserId, inviter: UserId)
      modifies `referrals
      ensures Rows() == CreditReferral(old(Rows()), referred, inviter)
    {
      if inviter !in accounts || inviter == referred || exists r | r in referrals :: r.referred == referred {
        return;
      }
      referrals := referrals + [Referral(inviter, referred, REFERRAL_DISCOUNT_PERCENT)];
    }

    /** None for a user that does not exist. */
    method BeginTrial(user: UserId, now: nat) returns (startedAt: Option<nat>)
      modifies `accounts
      ensures user !in old(accounts) ==> startedAt.None? && accounts == old(accounts)
      ensures user in old(accounts) ==>
                && accounts == old(accounts)[user := StartTrial(old(accounts)[user], now)]
                && startedAt == accounts[user].trialStartedAt && startedAt.Some?
    {
      if user !in accounts {
        return None;
      }
      var a := accounts[user];
      if a.trialStartedAt.Some? {
        assert accounts == accounts[user := a];
        return a.trialStartedAt;
      }
      var rows := a.subscriptions;
      if rows == [] {
        rows := [Subscription(Trial, None, None, now + (TRIAL_DAYS + a.pendingDays) * DAY)];
      }
      accounts := accounts[user := Account(rows, Some(now), 0)];
      startedAt := Some(now);
    }

    method IsDowngrade(a: Account, plan: Plan, period: Period, now: nat) returns (downgrade: bool)
      ensures downgrade == Downgrades(a, plan, period, now)
    {
      var current := Current(a.subscriptions);
      if current.None? {
        return false;
      }
      var s := a.subscriptions[current.value];
      downgrade := s.kind.Paid? && now < s.activeUntil && s.plan.Some? && s.period.Some? &&
        PriceFor(plan, period) < PriceFor(s.plan.value, s.period.value);
    }

    method PlaceOrder(user: UserId, plan: Plan, period: Period, key: string, number: nat, now: nat)
        returns (order: Option<nat>)
      modifies `orders
      ensures Placed(Rows(), order) == CreateOrder(old(Rows()), user, plan, period, key, number, now)
    {
      hide Downgrades, FindByKey, FindOpenDiscount, FindReward, PriceFor, Discounted, Attached, OpenDiscount;
      if user !in accounts {
        return None;
      }
      var refused := IsDowngrade(accounts[user], plan, period, now);
      if refused {
        return None;
      }
      var existing := FindByKey(orders, user, key);
      if existing.Some? {
        var o := orders[existing.value];
        return if o.plan != plan || o.period != period || o.status != Pending then None else existing;
      }
      var pendingDiscount := FindOpenDiscount(orders, user, plan, period);
      if pendingDiscount.Some? {
        return pendingDiscount;
      }
      if exists o | o in orders :: o.number == number {
        return None;
      }
      var reward := FindReward(Rows(), user);
      var percent := if reward.Some? then referrals[reward.value].discountPercent else 0;
      var amount := Discounted(PriceFor(plan, period), percent);
      orders := orders + [Order(user, plan, period, number, key, amount, "RUB", percent, reward, Pending, None)];
      order := Some(|orders| - 1);
    }

    method ConfirmVerifiedPayment(order: nat, payment: string, amount: int, currency: string, now: nat)
        returns (confirmed: bool)
      modifies `accounts, `orders
      ensures confirmed == ConfirmPayment(old(Rows()), order, payment, amount, currency, now).Some?
      ensures Rows() == ConfirmPayment(old(Rows()), order, payment, amount, currency, now).Or(old(Rows()))
    {
      hide AddPeriod, CalculatePaidExtension, Current;
      if payment == "" || !(-MAX_SAFE_INTEGER <= amount <= MAX_SAFE_INTEGER) || |orders| <= order {
        return false;
      }
      var o := orders[order];
      if o.amount != amount || o.currency != currency {
        return false;
      }
      if o.status.Paid? {
        return o.payment == Some(payment);
      }
      if o.user !in accounts || exists p | p in orders :: p.payment == Some(payment) {
        return false;
      }
      var a := accounts[o.user];
      var current := Current(a.subscriptions);
      var activeUntil := if current.Some?
        then CalculatePaidExtension(a.subscriptions[current.value], o.plan, o.period, now)
                         else AddPeriod(now, o.period);
      activeUntil := activeUntil + a.pendingDays * DAY;
      var s := Subscription(Kind.Paid, Some(o.plan), Some(o.period), activeUntil);
      var rows := if current.Some? then a.subscriptions[current.value := s] else a.subscriptions + [s];
      accounts := accounts[o.user := Account(rows, Some(a.trialStartedAt.Or(now)), 0)];
      orders := orders[order := o.(status := PaymentStatus.Paid, payment := Some(payment))];
      confirmed := true;
    }
  }
}
