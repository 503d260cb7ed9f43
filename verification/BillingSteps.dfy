/** What registrations, trials, orders and payments leave in the billing tables, and one customer's way through them. */
module BillingSteps {
  import opened Options
  import opened Calendar
  import opened BillingPlans
  import opened PaidTerms
  import opened Billing
  import opened BillingRuns

  // ---------------------------------------------------------------------------
  // Registrations and trials
  // ---------------------------------------------------------------------------

  /** A registration makes an empty account, and a referral of ten percent if an existing user invited; a user who is
      registered already changes nothing. */
  lemma RegistrationIsStored(w: World, user: UserId, inviter: UserId)
    ensures var l, w' := w.ledger, Step(w, Register(user, inviter));
            if user in l.accounts then w' == w
            else && w'.ledger.accounts == l.accounts[user := Account([], None, 0)]
                 && w'.ledger.orders == l.orders && w'.terms == w.terms
                 && w'.ledger.referrals ==
                    if inviter in l.accounts && inviter != user && (forall r | r in l.referrals :: r.referred != user)
                    then l.referrals + [Referral(inviter, user, 10)]
                    else l.referrals
  {
  }

  /** The first trial start takes the pending days, and gives a user without a subscription ten days and these; a
      later one changes nothing. */
  lemma TrialIsGranted(w: World, user: UserId, now: nat)
    requires user in w.ledger.accounts
    ensures var l, l' := w.ledger, Step(w, RequestTrial(user, now)).ledger;
            var a := l.accounts[user];
            && l'.orders == l.orders && l'.referrals == l.referrals
            && l'.accounts == l.accounts[user :=
                 if a.trialStartedAt != None then a
                 else if a.subscriptions != [] then Account(a.subscriptions, Some(now), 0)
                 else Account([Subscription(Trial, None, None, now + (10 + a.pendingDays) * 86_400_000)], Some(now), 0)]
  {
  }

  // ---------------------------------------------------------------------------
  // Orders
  // ---------------------------------------------------------------------------

  /** The subscription that ends last is a paid one that runs and was dearer than what is asked for. */
  predicate HasDearer(a: Account, plan: Plan, period: Period, now: nat) {
    a.subscriptions != [] &&
    var s := a.subscriptions[Current(a.subscriptions).value];
    && s.kind == Kind.Paid && now < s.activeUntil && s.plan != None && s.period != None
    && PriceFor(s.plan.value, s.period.value) > PriceFor(plan, period)
  }

  /** A request that names the key of one of the user's orders. */
  predicate Repeats(o: Order, user: UserId, key: string) {
    o.user == user && o.key == key
  }

  /** An order is refused exactly for a user that does not exist, for less than a running subscription cost, under
      the key of an order that asked for something else or is paid, and if a new one would take a number twice. */
  lemma RequestIsRefusedExactly(w: World, user: UserId, plan: Plan, period: Period, key: string, number: nat, now: nat)
    requires AllApart(w)
    ensures var l := w.ledger;
            CreateOrder(l, user, plan, period, key, number, now).order == None <==>
              || user !in l.accounts
              || HasDearer(l.accounts[user], plan, period, now)
              || (exists o | o in l.orders :: Repeats(o, user, key) && !(o.plan == plan && o.period == period
                                                                         && o.status == Pending))
              || ((forall o | o in l.orders :: !Repeats(o, user, key) && !OpenDiscount(o, user, plan, period))
                  && exists o | o in l.orders :: o.number == number)
  {
    hide FindOpenDiscount, NewOrder, PriceFor, OpenDiscount, FindByKey;
    var l := w.ledger;
    var same := FindByKey(l.orders, user, key);
    if same.Some? {
      assert l.orders[same.value] in l.orders;
      forall o | o in l.orders && Repeats(o, user, key) ensures o == l.orders[same.value] {
        OneOfKey(w, o, l.orders[same.value]);
      }
    }
  }

  /** Keys are used once by a user. */
  lemma OneOfKey(w: World, a: Order, b: Order)
    requires AllApart(w) && a in w.ledger.orders && b in w.ledger.orders && a.user == b.user && a.key == b.key
    ensures a == b
  {
    var orders := w.ledger.orders;
    var i :| 0 <= i < |orders| && orders[i] == a;
    var j :| 0 <= j < |orders| && orders[j] == b;
    assert i != j ==> if i < j then Apart(orders[i], orders[j]) else Apart(orders[j], orders[i]);
  }

  /** A new order is unpaid, as asked, in roubles; without a reward left it has the full price, otherwise nine tenths
      of it and the oldest of the user's rewards that no order has. */
  ghost predicate IsNewOrder(l: Ledger, o: Order, user: UserId, plan: Plan, period: Period, key: string, number: nat) {
    && o == Order(user, plan, period, number, key, o.amount, "RUB", o.discountPercent, o.reward, Pending, None)
    && match o.reward
       case None =>
         && o.amount == PriceFor(plan, period) && o.discountPercent == 0
         && forall r: nat | r < |l.referrals| :: !Available(l, user, r)
       case Some(reward) =>
         && 10 * o.amount == 9 * PriceFor(plan, period) && o.discountPercent == 10
         && Available(l, user, reward) && forall r: nat | r < reward :: !Available(l, user, r)
  }

  /** What is earned and not attached to an order is available. */
  lemma AvailableExactly(l: Ledger, user: UserId, r: nat)
    ensures Available(l, user, r) <==>
            && r < |l.referrals| && l.referrals[r].inviter == user && l.referrals[r].discountPercent > 0
            && forall k: nat | k < |l.orders| :: l.orders[k].reward != Some(r)
  {
    assert forall k: nat | k < |l.orders| :: l.orders[k] in l.orders;
  }

  /** A request that is not refused: the order of its key, else the open discounted one for the same plan and period,
      else a new one behind the others. */
  lemma RequestIsServed(w: World, user: UserId, plan: Plan, period: Period, key: string, number: nat, now: nat)
    requires OrdersOk(w) && CreateOrder(w.ledger, user, plan, period, key, number, now).order.Some?
    ensures var l, p := w.ledger, CreateOrder(w.ledger, user, plan, period, key, number, now);
            var k := p.order.value;
            if exists o | o in l.orders :: Repeats(o, user, key)
            then p.ledger == l && k < |l.orders| && Repeats(l.orders[k], user, key)
            else if exists o | o in l.orders :: OpenDiscount(o, user, plan, period)
            then p.ledger == l && k < |l.orders| && OpenDiscount(l.orders[k], user, plan, period)
            else k == |l.orders| && |p.ledger.orders| == k + 1
                 && p.ledger == l.(orders := l.orders + [p.ledger.orders[k]])
                 && IsNewOrder(l, p.ledger.orders[k], user, plan, period, key, number)
  {
    hide FindOpenDiscount, FindByKey, FindReward, Downgrades, PriceFor, OpenDiscount, Available;
    DiscountIsExact(plan, period);
    var reward := FindReward(w.ledger, user);
    if reward.Some? {
      AvailableReward(w, user, reward.value);
    }
  }

  lemma AvailableReward(w: World, user: UserId, r: nat)
    requires OrdersOk(w) && Available(w.ledger, user, r)
    ensures r < |w.ledger.referrals| && w.ledger.referrals[r].discountPercent == 10 == REFERRAL_DISCOUNT_PERCENT
  {
    assert w.ledger.referrals[r] in w.ledger.referrals;
  }

  // ---------------------------------------------------------------------------
  // Payments
  // ---------------------------------------------------------------------------

  /** The payment has an id and a safe amount, and names an order with this amount and currency. */
  predicate NamesOrder(l: Ledger, order: nat, payment: string, amount: int, currency: string) {
    && payment != "" && -9_007_199_254_740_991 <= amount <= 9_007_199_254_740_991
    && order < |l.orders| && l.orders[order].amount == amount && l.orders[order].currency == currency
  }

  /** The unpaid order of an existing user, by a payment that no order has. */
  predicate CanSettle(l: Ledger, order: nat, payment: string)
    requires order < |l.orders|
  {
    && l.orders[order].status == Pending && l.orders[order].user in l.accounts
    && forall k: nat | k < |l.orders| :: l.orders[k].payment != Some(payment)
  }

  /** The account after the payment of an order: the subscription that ends last, or the first one, is now a paid one
      of the plan and period, and ends after the extension and the pending days. */
  function Paying(a: Account, plan: Plan, period: Period, now: nat): Account {
    var bonus := a.pendingDays * 86_400_000;
    var started := if a.trialStartedAt == None then Some(now) else a.trialStartedAt;
    if a.subscriptions == []
    then Account([Subscription(Kind.Paid, Some(plan), Some(period), AddPeriod(now, period) + bonus)], started, 0)
    else
      var k := Current(a.subscriptions).value;
      var until := CalculatePaidExtension(a.subscriptions[k], plan, period, now) + bonus;
      Account(a.subscriptions[k := Subscription(Kind.Paid, Some(plan), Some(period), until)], started, 0)
  }

  lemma PayIsPaying(a: Account, plan: Plan, period: Period, now: nat)
    ensures Pay(a, plan, period, now) == Paying(a, plan, period, now)
  {
    hide Current, CalculatePaidExtension, AddPeriod;
    var first := Subscription(Kind.Paid, Some(plan), Some(period), PaidEnd(a, plan, period, now));
    if a.subscriptions == [] {
      assert a.subscriptions + [first] == [first];
    }
  }

  /** A payment that fits settles its order and extends its user's access, and changes nothing else; any other one
      changes nothing, and is accepted only if it repeats the payment of a paid order. */
  lemma PaymentSettlesExactly(w: World, order: nat, payment: string, amount: int, currency: string, now: nat)
    ensures var l, l' := w.ledger, Step(w, Confirm(order, payment, amount, currency, now)).ledger;
            var accepted := ConfirmPayment(l, order, payment, amount, currency, now).Some?;
            if NamesOrder(l, order, payment, amount, currency) && CanSettle(l, order, payment)
            then var o := l.orders[order];
                 && accepted
                 && l'.orders == l.orders[order := o.(status := PaymentStatus.Paid, payment := Some(payment))]
                 && l'.accounts == l.accounts[o.user := Paying(l.accounts[o.user], o.plan, o.period, now)]
                 && l'.referrals == l.referrals
            else
              && l' == l
              && (accepted <==>
                    && NamesOrder(l, order, payment, amount, currency)
                    && l.orders[order].status == PaymentStatus.Paid && l.orders[order].payment == Some(payment))
  {
    hide Pay, Paying;
    var orders := w.ledger.orders;
    assert forall k: nat | k < |orders| :: orders[k] in orders;
    if order < |orders| && orders[order].user in w.ledger.accounts {
      PayIsPaying(w.ledger.accounts[orders[order].user], orders[order].plan, orders[order].period, now);
    }
  }

  /** The history has exactly the ends that were stored: that of a first trial, and that of the subscription that a
      payment extended, each with the bonus days in it. */
  lemma TermsAreWhatWasStored(w: World, e: Event)
    ensures var w' := Step(w, e);
            match e
            case RequestTrial(user, now) =>
              w'.terms == w.terms +
              if user in w.ledger.accounts && w.ledger.accounts[user].trialStartedAt == None
                 && w.ledger.accounts[user].subscriptions == []
              then
                var bonus := w.ledger.accounts[user].pendingDays;
                [Term(user, None, now + (10 + bonus) * 86_400_000, bonus)]
              else []
            case Confirm(order, payment, amount, currency, now) =>
              if NamesOrder(w.ledger, order, payment, amount, currency) && CanSettle(w.ledger, order, payment)
              then
                var o := w.ledger.orders[order];
                var a := w.ledger.accounts[o.user];
                var k := if a.subscriptions == [] then 0 else Current(a.subscriptions).value;
                var paid := Paying(a, o.plan, o.period, now).subscriptions[k];
                w'.terms == w.terms + [Term(o.user, Some(order), paid.activeUntil, a.pendingDays)]
              else w'.terms == w.terms
            case _ => w'.terms == w.terms
  {
    hide Current, CalculatePaidExtension, AddPeriod, CreateOrder;
    assert forall k: nat | k < |w.ledger.orders| :: w.ledger.orders[k] in w.ledger.orders;
  }

  /** An extension is a period from now, or from the end of a running term that is renewed; only a running term of
      another plan or period is converted. */
  lemma ExtensionIsPeriod(s: Subscription, plan: Plan, period: Period, now: nat)
    ensures var running := s.kind == Kind.Paid && s.plan != None && s.period != None && now < s.activeUntil;
            && (!running ==> CalculatePaidExtension(s, plan, period, now) == AddPeriod(now, period))
            && (running && s.plan == Some(plan) && s.period == Some(period) ==>
                  CalculatePaidExtension(s, plan, period, now) == AddPeriod(s.activeUntil, period))
  {
    hide AddPeriod;
  }

  // ---------------------------------------------------------------------------
  // One customer's way
  // ---------------------------------------------------------------------------

  lemma OneMore(w: World, events: seq<Event>, e: Event)
    ensures Run(w, events + [e]) == Step(Run(w, events), e)
  {
    assert (events + [e])[..|events|] == events;
  }

  const EMPTY := World(Ledger(map[], [], []), [])

  /** Inviter and guest register. */
  lemma GuestRegisters(inviter: UserId, guest: UserId)
    requires inviter != guest
    ensures Migrated(EMPTY)
    ensures Run(EMPTY, [Register(inviter, inviter)] + [Register(guest, inviter)]).ledger ==
            Ledger(map[inviter := Account([], None, 0), guest := Account([], None, 0)], [],
                   [Referral(inviter, guest, 10)])
  {
    hide Run, Step;
    var e := Register(inviter, inviter);
    assert Run(EMPTY, []) == EMPTY by { EmptyRun(EMPTY); }
    OneMore(EMPTY, [], e);
    OneMore(EMPTY, [e], Register(guest, inviter));
    assert [] + [e] == [e];
    RegistrationIsStored(EMPTY, inviter, inviter);
    RegistrationIsStored(Step(EMPTY, e), guest, inviter);
  }

  lemma EmptyRun(w: World)
    ensures Run(w, []) == w
  {
  }

  /** From empty tables on: an invited guest registers, the inviter orders for nine tenths of the price, pays, and has
      the period; the reward is used. */
  lemma InviterPaysLess(inviter: UserId, guest: UserId, plan: Plan, period: Period, key: string, number: nat,
                        payment: string, ordered: nat, paid: nat)
    requires inviter != guest && payment != ""
    ensures var amount := PriceFor(plan, period) / 10 * 9;
            var w := Run(EMPTY, [Register(inviter, inviter)] + [Register(guest, inviter)]
                                + [Request(inviter, plan, period, key, number, ordered)]
                                + [Confirm(0, payment, amount, "RUB", paid)]);
            && w.ledger.orders == [Order(inviter, plan, period, number, key, amount, "RUB", 10, Some(0),
                                         PaymentStatus.Paid, Some(payment))]
            && w.ledger.accounts == map[
                 inviter := Account([Subscription(Kind.Paid, Some(plan), Some(period), AddPeriod(paid, period))],
                                    Some(paid), 0),
                 guest := Account([], None, 0)]
            && AvailableRewards(w.ledger, inviter) == {} == RewardedOrders(w.ledger, inviter, Pending)
            && RewardedOrders(w.ledger, inviter, PaymentStatus.Paid) == {0}
  {
    hide Run, Step, AddPeriod, PriceFor, Discounted;
    var registered := [Register(inviter, inviter)] + [Register(guest, inviter)];
    var request := Request(inviter, plan, period, key, number, ordered);
    var amount := PriceFor(plan, period) / 10 * 9;
    GuestRegisters(inviter, guest);
    OneMore(EMPTY, registered, request);
    OneMore(EMPTY, registered + [request], Confirm(0, payment, amount, "RUB", paid));
    var w := Run(EMPTY, registered);
    InviterOrders(w, inviter, guest, plan, period, key, number, ordered);
    PaymentSettlesExactly(Step(w, request), 0, payment, amount, "RUB", paid);
  }

  lemma InviterOrders(w: World, inviter: UserId, guest: UserId, plan: Plan, period: Period, key: string, number: nat,
                      now: nat)
    requires inviter != guest
    requires w.ledger == Ledger(map[inviter := Account([], None, 0), guest := Account([], None, 0)], [],
                                [Referral(inviter, guest, 10)])
    ensures var amount := PriceFor(plan, period) / 10 * 9;
            && 0 <= amount <= 100_000_000
            && Step(w, Request(inviter, plan, period, key, number, now)).ledger
               == w.ledger.(orders := [Order(inviter, plan, period, number, key, amount, "RUB", 10, Some(0), Pending,
                                             None)])
  {
    var p := CreateOrder(w.ledger, inviter, plan, period, key, number, now);
    RequestIsRefusedExactly(w, inviter, plan, period, key, number, now);
    RequestIsServed(w, inviter, plan, period, key, number, now);
    AvailableExactly(w.ledger, inviter, 0);
    assert [] + [p.ledger.orders[0]] == p.ledger.orders;
    assert p.ledger.orders[0].reward == Some(0);
  }
}
