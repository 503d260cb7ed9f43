/** Whole histories of the billing tables: conservation of rewards, payments and bonus days. */
module BillingRuns {
  import opened Options
  import opened BillingPlans
  import opened Billing

  /** A change of the end of a user's access: by a trial or by the payment of an order. */
  datatype Term = Term(user: UserId, order: Option<nat>, until: nat, bonusDays: nat)

  /** `terms` is the history of all changes. */
  datatype World = World(ledger: Ledger, terms: seq<Term>)

  datatype Event =
    | Register(user: UserId, inviter: UserId)
    | RequestTrial(user: UserId, now: nat)
    | Request(user: UserId, plan: Plan, period: Period, key: string, number: nat, now: nat)
    | Confirm(order: nat, payment: string, amount: int, currency: string, now: nat)

  function TrialTerms(a: Account, user: UserId, now: nat): seq<Term> {
    if a.trialStartedAt.None? && a.subscriptions == [] then [Term(user, None, TrialEnd(a, now), a.pendingDays)] else []
  }

  function PaymentTerm(l: Ledger, order: nat, now: nat): Term
    requires order < |l.orders| && l.orders[order].user in l.accounts
  {
    var o := l.orders[order];
    Term(o.user, Some(order), PaidEnd(l.accounts[o.user], o.plan, o.period, now), l.accounts[o.user].pendingDays)
  }

  function Step(w: World, e: Event): World {
    var l := w.ledger;
    match e
    case Register(user, inviter) =>
      if user in l.accounts then w
      else w.(ledger := CreditReferral(l.(accounts := l.accounts[user := Account([], None, 0)]), user, inviter))
    case RequestTrial(user, now) =>
      if user !in l.accounts then w
      else World(l.(accounts := l.accounts[user := StartTrial(l.accounts[user], now)]),
                 w.terms + TrialTerms(l.accounts[user], user, now))
    case Request(user, plan, period, key, number, now) =>
      w.(ledger := CreateOrder(l, user, plan, period, key, number, now).ledger)
    case Confirm(order, payment, amount, currency, now) =>
      if Settles(l, order, payment, amount, currency)
      then World(Settle(l, order, payment, now), w.terms + [PaymentTerm(l, order, now)])
      else w
  }

  lemma ConfirmIsStep(w: World, order: nat, payment: string, amount: int, currency: string, now: nat)
    ensures Step(w, Confirm(order, payment, amount, currency, now)).ledger ==
            ConfirmPayment(w.ledger, order, payment, amount, currency, now).Or(w.ledger)
  {
  }

  function Run(w: World, events: seq<Event>): World
    decreases |events|
  {
    if events == [] then w else Step(Run(w, events[..|events| - 1]), events[|events| - 1])
  }

  /** As the migrations left it: no term was granted yet, no referral had a discount, whoever had a subscription
      had a trial start, and orders placed so far are unpaid and have no reward. */
  ghost predicate Migrated(w: World) {
    && w.terms == []
    && TrialsMarked(w)
    && (forall r | r in w.ledger.referrals :: r.discountPercent == 0)
    && ReferralsOk(w.ledger.referrals)
    && (forall o | o in w.ledger.orders :: OrderOk(w.ledger, o) && o.status.Pending? && o.reward.None?)
    && AllApart(w)
  }

  /** Nobody is referred twice, and nobody by themselves. */
  ghost predicate ReferralsOk(referrals: seq<Referral>) {
    && (forall r | r in referrals :: r.inviter != r.referred)
    && (forall i, j | 0 <= i < j < |referrals| :: referrals[i].referred != referrals[j].referred)
  }

  // ---------------------------------------------------------------------------
  // Orders and rewards
  // ---------------------------------------------------------------------------

  predicate OrderOk(l: Ledger, o: Order) {
    && o.user in l.accounts && o.currency == "RUB"
    && o.amount == Discounted(PriceFor(o.plan, o.period), o.discountPercent)
    && (o.status.Paid? <==> o.payment.Some?)
    && (o.reward.None? ==> o.discountPercent == 0)
    && (o.reward.Some? ==>
          var r := o.reward.value;
          && r < |l.referrals| && l.referrals[r].inviter == o.user
          && l.referrals[r].discountPercent == o.discountPercent == REFERRAL_DISCOUNT_PERCENT)
  }

  ghost predicate OrdersOk(w: World) {
    && (forall o | o in w.ledger.orders :: OrderOk(w.ledger, o))
    && (forall r | r in w.ledger.referrals :: r.discountPercent == 0 || r.discountPercent == REFERRAL_DISCOUNT_PERCENT)
  }

  /** Two orders differ in number, in their user's key, in reward, in payment, and an unpaid discounted
      order is the only one for its user, plan and period. */
  predicate Apart(a: Order, b: Order) {
    && a.number != b.number
    && (a.user == b.user ==> a.key != b.key)
    && (a.reward.Some? ==> a.reward != b.reward)
    && (a.payment.Some? ==> a.payment != b.payment)
    && (OpenDiscount(a, a.user, a.plan, a.period) ==> !OpenDiscount(b, a.user, a.plan, a.period))
  }

  ghost predicate AllApart(w: World) {
    forall i, j | 0 <= i < j < |w.ledger.orders| :: Apart(w.ledger.orders[i], w.ledger.orders[j])
  }

  lemma RequestKeepsOrders(w: World, e: Event)
    requires OrdersOk(w) && e.Request?
    ensures OrdersOk(Step(w, e))
  {
    hide Downgrades;
  }

  lemma SettleKeepsOrders(w: World, e: Event)
    requires OrdersOk(w) && e.Confirm?
    ensures OrdersOk(Step(w, e))
  {
    hide Pay, PaidEnd;
    var l, l' := w.ledger, Step(w, e).ledger;
    forall k | 0 <= k < |l'.orders| ensures OrderOk(l', l'.orders[k]) {
      assert l.orders[k] in l.orders;
    }
  }

  lemma StepKeepsOrders(w: World, e: Event)
    requires OrdersOk(w)
    ensures OrdersOk(Step(w, e))
  {
    match e
    case Request(_, _, _, _, _, _) => RequestKeepsOrders(w, e);
    case Confirm(_, _, _, _, _) => SettleKeepsOrders(w, e);
    case RequestTrial(_, _) => hide StartTrial;
    case Register(_, _) =>
  }

  lemma RequestKeepsApart(w: World, e: Event)
    requires AllApart(w) && e.Request?
    ensures AllApart(Step(w, e))
  {
    hide Downgrades;
    var l, l' := w.ledger, Step(w, e).ledger;
    if l' != l {
      var n := |l.orders|;
      assert l'.orders == l.orders + [NewOrder(l, e.user, e.plan, e.period, e.key, e.number)];
      forall i | 0 <= i < n ensures Apart(l.orders[i], l'.orders[n]) {
        assert l.orders[i] in l.orders;
      }
    }
  }

  lemma SettleKeepsApart(w: World, e: Event)
    requires AllApart(w) && e.Confirm?
    ensures AllApart(Step(w, e))
  {
    hide Pay, PaidEnd;
    var l, l' := w.ledger, Step(w, e).ledger;
    forall i, j | 0 <= i < j < |l'.orders| ensures Apart(l'.orders[i], l'.orders[j]) {
      assert Apart(l.orders[i], l.orders[j]);
      assert l.orders[i] in l.orders && l.orders[j] in l.orders;
    }
  }

  lemma StepKeepsApart(w: World, e: Event)
    requires AllApart(w)
    ensures AllApart(Step(w, e))
  {
    match e
    case Request(_, _, _, _, _, _) => RequestKeepsApart(w, e);
    case Confirm(_, _, _, _, _) => SettleKeepsApart(w, e);
    case _ => hide StartTrial;
  }

  // ---------------------------------------------------------------------------
  // Subscriptions, trials and terms
  // ---------------------------------------------------------------------------

  ghost predicate TrialsMarked(w: World) {
    forall u | u in w.ledger.accounts ::
      w.ledger.accounts[u].subscriptions != [] ==> w.ledger.accounts[u].trialStartedAt.Some?
  }

  lemma StepKeepsTrialsMarked(w: World, e: Event)
    requires TrialsMarked(w)
    ensures TrialsMarked(Step(w, e))
  {
    hide Current, PaidEnd, Downgrades, NewOrder;
  }

  /** How often the payment of an order was applied. */
  function Applications(terms: seq<Term>, order: nat): nat {
    if terms == [] then 0
    else Applications(terms[..|terms| - 1], order) + (if terms[|terms| - 1].order == Some(order) then 1 else 0)
  }

  function Trials(terms: seq<Term>, user: UserId): nat {
    if terms == [] then 0
    else
      var t := terms[|terms| - 1];
      Trials(terms[..|terms| - 1], user) + (if t.user == user && t.order.None? then 1 else 0)
  }

  /** The bonus days of all of a user's terms together, and the number of terms that had any. */
  function Granted(terms: seq<Term>, user: UserId): nat {
    if terms == [] then 0
    else
      var t := terms[|terms| - 1];
      Granted(terms[..|terms| - 1], user) + (if t.user == user then t.bonusDays else 0)
  }

  function Grants(terms: seq<Term>, user: UserId): nat {
    if terms == [] then 0
    else
      var t := terms[|terms| - 1];
      Grants(terms[..|terms| - 1], user) + (if t.user == user && 0 < t.bonusDays then 1 else 0)
  }

  /** The end that the last term gave a user. */
  function LastEnd(terms: seq<Term>, user: UserId): Option<nat> {
    if terms == [] then None
    else
      var t := terms[|terms| - 1];
      if t.user == user then Some(t.until) else LastEnd(terms[..|terms| - 1], user)
  }

  lemma OneMoreTerm(terms: seq<Term>, t: Term, user: UserId, order: nat)
    ensures var more := terms + [t];
            && Applications(more, order) == Applications(terms, order) + (if t.order == Some(order) then 1 else 0)
            && Trials(more, user) == Trials(terms, user) + (if t.user == user && t.order.None? then 1 else 0)
            && Granted(more, user) == Granted(terms, user) + (if t.user == user then t.bonusDays else 0)
            && Grants(more, user) == Grants(terms, user) + (if t.user == user && 0 < t.bonusDays then 1 else 0)
            && LastEnd(more, user) == if t.user == user then Some(t.until) else LastEnd(terms, user)
  {
    assert (terms + [t])[..|terms|] == terms;
  }

  /** The account and the history of a user agree. */
  predicate AccountOk(a: Account, terms: seq<Term>, user: UserId) {
    && (Trials(terms, user) > 0 ==> a.trialStartedAt.Some?)
    && Trials(terms, user) <= 1
    && (Grants(terms, user) > 0 ==> a.pendingDays == 0)
    && Grants(terms, user) <= 1
    && (LastEnd(terms, user).Some? ==> a.subscriptions != [])
    && (LastEnd(terms, user).Some? && |a.subscriptions| == 1 ==>
         a.subscriptions[0].activeUntil == LastEnd(terms, user).value)
  }

  ghost predicate AccountsOk(w: World) {
    && TrialsMarked(w)
    && (forall t | t in w.terms :: t.user in w.ledger.accounts)
    && (forall u | u in w.ledger.accounts :: AccountOk(w.ledger.accounts[u], w.terms, u))
  }

  /** A step on one account: nothing, or a new term with all pending days and the new end. */
  predicate Extends(a: Account, a': Account, user: UserId, added: seq<Term>) {
    || (added == [] && a' == a)
    || (added == [] && a.trialStartedAt.None? && a.subscriptions != [] && a'.subscriptions == a.subscriptions)
    || (|added| == 1 && added[0].user == user && added[0].bonusDays == a.pendingDays && a'.pendingDays == 0
        && a'.trialStartedAt == Some(a.trialStartedAt.Or(a'.trialStartedAt.Or(0)))
        && (added[0].order.None? ==> a.trialStartedAt.None? && a.subscriptions == [])
        && |a'.subscriptions| == (if a.subscriptions == [] then 1 else |a.subscriptions|)
        && (|a'.subscriptions| == 1 ==> a'.subscriptions[0].activeUntil == added[0].until))
  }

  lemma TrialExtends(a: Account, user: UserId, now: nat)
    ensures Extends(a, StartTrial(a, now), user, TrialTerms(a, user, now))
  {
  }

  lemma PaymentExtends(l: Ledger, order: nat, now: nat)
    requires order < |l.orders| && l.orders[order].user in l.accounts
    ensures var o := l.orders[order]; var a := l.accounts[o.user];
            Extends(a, Pay(a, o.plan, o.period, now), o.user, [PaymentTerm(l, order, now)])
  {
    hide PaidEnd;
  }

  lemma ExtendedAccountOk(a: Account, a': Account, user: UserId, terms: seq<Term>, added: seq<Term>)
    requires AccountOk(a, terms, user) && Extends(a, a', user, added)
    requires a.subscriptions != [] ==> a.trialStartedAt.Some?
    ensures AccountOk(a', terms + added, user)
    ensures Granted(terms + added, user) + a'.pendingDays == Granted(terms, user) + a.pendingDays
  {
    if added == [] {
      assert terms + added == terms;
    } else {
      assert added == [added[0]];
      OneMoreTerm(terms, added[0], user, 0);
    }
  }

  lemma OtherAccountOk(a: Account, user: UserId, terms: seq<Term>, added: seq<Term>)
    requires AccountOk(a, terms, user) && |added| <= 1 && forall t | t in added :: t.user != user
    ensures AccountOk(a, terms + added, user) && Granted(terms + added, user) == Granted(terms, user)
  {
    if added == [] {
      assert terms + added == terms;
    } else {
      assert added == [added[0]];
      OneMoreTerm(terms, added[0], user, 0);
    }
  }

  /** Who a step is about. */
  function Subject(w: World, e: Event): Option<UserId> {
    match e
    case RequestTrial(user, _) => Some(user)
    case Confirm(order, _, _, _, _) => if order < |w.ledger.orders| then Some(w.ledger.orders[order].user) else None
    case _ => None
  }

  /** Every step extends at most one account. */
  lemma StepExtends(w: World, e: Event) returns (added: seq<Term>)
    ensures Step(w, e).terms == w.terms + added && |added| <= 1
    ensures forall u | u in w.ledger.accounts :: u in Step(w, e).ledger.accounts
    ensures forall u | u in w.ledger.accounts ::
              Extends(w.ledger.accounts[u], Step(w, e).ledger.accounts[u], u,
                      if Subject(w, e) == Some(u) then added else [])
    ensures added != [] ==>
            Subject(w, e).Some? && Subject(w, e).value in w.ledger.accounts && added[0].user == Subject(w, e).value
    ensures forall u | u in Step(w, e).ledger.accounts && u !in w.ledger.accounts ::
              Step(w, e).ledger.accounts[u] == Account([], None, 0)
  {
    hide Pay, PaidEnd, StartTrial, Downgrades, NewOrder;
    added := [];
    match e
    case RequestTrial(user, now) =>
      if user in w.ledger.accounts {
        added := TrialTerms(w.ledger.accounts[user], user, now);
        TrialExtends(w.ledger.accounts[user], user, now);
      }
    case Confirm(order, payment, amount, currency, now) =>
      if Settles(w.ledger, order, payment, amount, currency) {
        added := [PaymentTerm(w.ledger, order, now)];
        PaymentExtends(w.ledger, order, now);
      }
    case _ =>
  }

  lemma NoTerms(terms: seq<Term>, user: UserId)
    requires forall t | t in terms :: t.user != user
    ensures Trials(terms, user) == 0 && Grants(terms, user) == 0 && Granted(terms, user) == 0
            && LastEnd(terms, user).None?
  {
  }

  lemma StepKeepsAccounts(w: World, e: Event)
    requires AccountsOk(w)
    ensures AccountsOk(Step(w, e))
    ensures forall u | u in w.ledger.accounts ::
              u in Step(w, e).ledger.accounts
              && Granted(Step(w, e).terms, u) + Step(w, e).ledger.accounts[u].pendingDays
                 == Granted(w.terms, u) + w.ledger.accounts[u].pendingDays
  {
    hide Step, Extends, AccountOk;
    StepKeepsTrialsMarked(w, e);
    var added := StepExtends(w, e);
    var w' := Step(w, e);
    forall u | u in w.ledger.accounts
      ensures AccountOk(w'.ledger.accounts[u], w'.terms, u)
      ensures Granted(w'.terms, u) + w'.ledger.accounts[u].pendingDays
              == Granted(w.terms, u) + w.ledger.accounts[u].pendingDays
    {
      AccountStep(w, e, added, u);
    }
    forall u | u in w'.ledger.accounts && u !in w.ledger.accounts
      ensures AccountOk(w'.ledger.accounts[u], w'.terms, u)
    {
      NoTerms(w'.terms, u);
      FreshAccountOk(w'.terms, u);
    }
  }

  lemma FreshAccountOk(terms: seq<Term>, user: UserId)
    requires Trials(terms, user) == 0 && Grants(terms, user) == 0 && LastEnd(terms, user).None?
    ensures AccountOk(Account([], None, 0), terms, user)
  {
  }

  lemma AccountStep(w: World, e: Event, added: seq<Term>, u: UserId)
    requires u in w.ledger.accounts && u in Step(w, e).ledger.accounts
    requires AccountOk(w.ledger.accounts[u], w.terms, u)
    requires w.ledger.accounts[u].subscriptions != [] ==> w.ledger.accounts[u].trialStartedAt.Some?
    requires Step(w, e).terms == w.terms + added && |added| <= 1
    requires added != [] ==> Subject(w, e).Some? && added[0].user == Subject(w, e).value
    requires Extends(w.ledger.accounts[u], Step(w, e).ledger.accounts[u], u,
                     if Subject(w, e) == Some(u) then added else [])
    ensures AccountOk(Step(w, e).ledger.accounts[u], Step(w, e).terms, u)
    ensures Granted(Step(w, e).terms, u) + Step(w, e).ledger.accounts[u].pendingDays
            == Granted(w.terms, u) + w.ledger.accounts[u].pendingDays
  {
    hide Step, Extends, AccountOk, Granted;
    var a, a' := w.ledger.accounts[u], Step(w, e).ledger.accounts[u];
    if Subject(w, e) == Some(u) {
      ExtendedAccountOk(a, a', u, w.terms, added);
    } else {
      ExtendedAccountOk(a, a', u, w.terms, []);
      assert w.terms + [] == w.terms;
      OtherAccountOk(a', u, w.terms, added);
    }
  }

  // ---------------------------------------------------------------------------
  // Payments
  // ---------------------------------------------------------------------------

  predicate IsPaid(orders: seq<Order>, k: nat) {
    k < |orders| && orders[k].status.Paid?
  }

  ghost predicate PaymentsOk(w: World) {
    forall k: nat :: Applications(w.terms, k) == if IsPaid(w.ledger.orders, k) then 1 else 0
  }

  lemma StepKeepsPayments(w: World, e: Event)
    requires PaymentsOk(w)
    ensures PaymentsOk(Step(w, e))
  {
    hide Step;
    var w' := Step(w, e);
    forall k: nat ensures Applications(w'.terms, k) == if IsPaid(w'.ledger.orders, k) then 1 else 0 {
      StepKeepsApplications(w, e, k);
    }
  }

  /** Requests and trials pay nothing; the settled order alone becomes paid. */
  lemma StepPays(w: World, e: Event, k: nat)
    ensures var settled := e.Confirm? && Settles(w.ledger, e.order, e.payment, e.amount, e.currency);
            && IsPaid(Step(w, e).ledger.orders, k) == (IsPaid(w.ledger.orders, k) || (settled && e.order == k))
            && (settled ==>
                  && !IsPaid(w.ledger.orders, e.order)
                  && Step(w, e).terms == w.terms + [PaymentTerm(w.ledger, e.order, e.now)])
            && (!settled ==>
                  Step(w, e).terms == w.terms || exists t: Term :: t.order.None? && Step(w, e).terms == w.terms + [t])
  {
    hide Pay, PaidEnd, StartTrial, Downgrades, FindReward, Discounted, PriceFor, FindByKey, FindOpenDiscount;
    if e.RequestTrial? && e.user in w.ledger.accounts {
      var added := TrialTerms(w.ledger.accounts[e.user], e.user, e.now);
      if added == [] {
        assert w.terms + [] == w.terms;
      } else {
        assert added == [added[0]] && added[0].order.None?;
      }
    }
  }

  lemma StepKeepsApplications(w: World, e: Event, k: nat)
    requires PaymentsOk(w)
    ensures Applications(Step(w, e).terms, k) == if IsPaid(Step(w, e).ledger.orders, k) then 1 else 0
  {
    hide Step, Settles, PaymentTerm;
    StepPays(w, e, k);
    if e.Confirm? && Settles(w.ledger, e.order, e.payment, e.amount, e.currency) {
      PaymentTermIsFor(w.ledger, e.order, e.payment, e.amount, e.currency, e.now);
      OneMoreTerm(w.terms, PaymentTerm(w.ledger, e.order, e.now), 0, k);
    } else if Step(w, e).terms != w.terms {
      var t: Term :| t.order.None? && Step(w, e).terms == w.terms + [t];
      OneMoreTerm(w.terms, t, 0, k);
    }
  }

  lemma PaymentTermIsFor(l: Ledger, order: nat, payment: string, amount: int, currency: string, now: nat)
    requires Settles(l, order, payment, amount, currency)
    ensures order < |l.orders| && l.orders[order].user in l.accounts && PaymentTerm(l, order, now).order == Some(order)
  {
    hide PaidEnd;
  }

  // ---------------------------------------------------------------------------
  // Every reachable state
  // ---------------------------------------------------------------------------

  ghost predicate Inv(w: World) {
    OrdersOk(w) && AllApart(w) && AccountsOk(w) && PaymentsOk(w)
  }

  lemma MigratedInv(w: World)
    requires Migrated(w)
    ensures Inv(w)
  {
  }

  lemma StepKeepsInv(w: World, e: Event)
    requires Inv(w)
    ensures Inv(Step(w, e))
  {
    hide Step, OrdersOk, AllApart, AccountsOk, PaymentsOk;
    StepKeepsOrders(w, e);
    StepKeepsApart(w, e);
    StepKeepsAccounts(w, e);
    StepKeepsPayments(w, e);
  }

  lemma {:induction false} RunKeepsInv(w: World, events: seq<Event>)
    requires Inv(w)
    ensures Inv(Run(w, events))
    decreases |events|
  {
    hide Inv, Step;
    if events == [] {
    } else {
      RunKeepsInv(w, events[..|events| - 1]);
      StepKeepsInv(Run(w, events[..|events| - 1]), events[|events| - 1]);
    }
  }

  /** What was ordered, for whom and at what price. */
  predicate SameOffer(a: Order, b: Order) {
    b == a.(status := b.status, payment := b.payment)
  }

  lemma StepKeepsOrder(w: World, e: Event, order: nat)
    requires order < |w.ledger.orders|
    ensures order < |Step(w, e).ledger.orders|
    ensures SameOffer(w.ledger.orders[order], Step(w, e).ledger.orders[order])
    ensures w.ledger.orders[order].status.Paid? ==> Step(w, e).ledger.orders[order] == w.ledger.orders[order]
  {
    hide Pay, PaidEnd, StartTrial, Downgrades, NewOrder;
  }

  /** An order keeps its offer for ever, with the price fixed at its creation; a paid one stays paid, by the
      payment it was paid with. */
  lemma {:induction false} PaidIsFinal(w: World, events: seq<Event>, order: nat)
    requires order < |w.ledger.orders|
    ensures order < |Run(w, events).ledger.orders|
    ensures SameOffer(w.ledger.orders[order], Run(w, events).ledger.orders[order])
    ensures w.ledger.orders[order].status.Paid? ==> Run(w, events).ledger.orders[order] == w.ledger.orders[order]
    decreases |events|
  {
    hide Step;
    if events == [] {
    } else {
      PaidIsFinal(w, events[..|events| - 1], order);
      StepKeepsOrder(Run(w, events[..|events| - 1]), events[|events| - 1], order);
    }
  }

  /** Under any repetition and interleaving of confirmations: a paid order changed the end of the access
      exactly once, any other order never. */
  lemma EachOrderAppliesOnce(start: World, events: seq<Event>, order: nat)
    requires Migrated(start)
    ensures var w := Run(start, events);
            Applications(w.terms, order) == if IsPaid(w.ledger.orders, order) then 1 else 0
  {
    hide Step;
    MigratedInv(start);
    RunKeepsInv(start, events);
  }

  /** A subscription row changes only together with a new term: a first trial, or an order of the same
      user going from pending to paid. */
  lemma AccessChangesByTermsOnly(w: World, e: Event, user: UserId)
    requires Inv(w) && user in w.ledger.accounts
    ensures var w' := Step(w, e);
            user in w'.ledger.accounts
            && (w'.ledger.accounts[user].subscriptions == w.ledger.accounts[user].subscriptions
                || exists t: Term :: w'.terms == w.terms + [t] && t.user == user && Caused(w, w', t))
  {
    hide Pay, PaidEnd, StartTrial, Downgrades, NewOrder, OrdersOk, AllApart, AccountOk, PaymentsOk;
    var added := StepExtends(w, e);
    if added != [] {
      assert added == [added[0]];
      if added[0].user == user {
        TermHasCause(w, e, added[0]);
      }
    }
  }

  lemma TermHasCause(w: World, e: Event, t: Term)
    ensures Step(w, e).terms == w.terms + [t] ==> Caused(w, Step(w, e), t)
  {
    hide Pay, PaidEnd, StartTrial, Downgrades;
    if Step(w, e).terms == w.terms + [t] {
      assert Step(w, e).terms[|w.terms|] == t;
    }
  }

  predicate Caused(w: World, w': World, t: Term) {
    match t.order
    case None => t.user in w.ledger.accounts && w.ledger.accounts[t.user].subscriptions == []
    case Some(o) =>
      o < |w.ledger.orders| <= |w'.ledger.orders| && w.ledger.orders[o].user == t.user
      && w.ledger.orders[o].status.Pending? && w'.ledger.orders[o].status.Paid?
  }

  /** One subscription row and one trial a user: rows from before the migration stay as many as they were,
      and nobody gets a second one. */
  lemma {:induction false} OneSubscriptionOneTrial(start: World, events: seq<Event>, user: UserId)
    requires Migrated(start) && user in Run(start, events).ledger.accounts
    ensures var a := Run(start, events).ledger.accounts[user];
            && Trials(Run(start, events).terms, user) <= 1
            && (|a.subscriptions| <= 1
                || (user in start.ledger.accounts && |start.ledger.accounts[user].subscriptions| == |a.subscriptions|))
    decreases |events|
  {
    hide Step, Extends, OrdersOk, AllApart, PaymentsOk;
    MigratedInv(start);
    RunKeepsInv(start, events);
    if events == [] {
    } else {
      var shorter, e := events[..|events| - 1], events[|events| - 1];
      var w := Run(start, shorter);
      RunKeepsInv(start, shorter);
      var added := StepExtends(w, e);
      if user in w.ledger.accounts {
        OneSubscriptionOneTrial(start, shorter, user);
        ExtendsKeepsRows(w.ledger.accounts[user], Step(w, e).ledger.accounts[user], user,
                         if Subject(w, e) == Some(user) then added else []);
      }
    }
  }

  lemma ExtendsKeepsRows(a: Account, a': Account, user: UserId, added: seq<Term>)
    requires Extends(a, a', user, added)
    ensures |a'.subscriptions| == |a.subscriptions| || (a.subscriptions == [] && |a'.subscriptions| == 1)
  {
  }

  /** Whoever has no trial start has no subscription: the source's check for one before it creates a trial
      always passes. */
  lemma NoTrialStartNoSubscription(start: World, events: seq<Event>, user: UserId)
    requires Migrated(start) && user in Run(start, events).ledger.accounts
    ensures var a := Run(start, events).ledger.accounts[user];
            a.trialStartedAt.None? ==> a.subscriptions == []
  {
    hide Step;
    MigratedInv(start);
    RunKeepsInv(start, events);
  }

  /** The bonus days of the old referral programme are conserved, and one single term gets all of them. */
  lemma {:induction false} LegacyDaysGrantedOnce(start: World, events: seq<Event>, user: UserId)
    requires Migrated(start) && user in start.ledger.accounts
    ensures var w := Run(start, events);
            && user in w.ledger.accounts
            && Granted(w.terms, user) + w.ledger.accounts[user].pendingDays == start.ledger.accounts[user].pendingDays
            && Grants(w.terms, user) <= 1
            && (0 < Grants(w.terms, user) ==> w.ledger.accounts[user].pendingDays == 0)
    decreases |events|
  {
    hide Step, OrdersOk, AllApart, PaymentsOk;
    MigratedInv(start);
    RunKeepsInv(start, events);
    if events == [] {
    } else {
      var shorter := events[..|events| - 1];
      LegacyDaysGrantedOnce(start, shorter, user);
      RunKeepsInv(start, shorter);
      StepKeepsAccounts(Run(start, shorter), events[|events| - 1]);
    }
  }

  // ---------------------------------------------------------------------------
  // Rewards
  // ---------------------------------------------------------------------------

  function Earned(l: Ledger, user: UserId): set<nat> {
    set r: nat | r < |l.referrals| && l.referrals[r].inviter == user && 0 < l.referrals[r].discountPercent
  }

  function AvailableRewards(l: Ledger, user: UserId): set<nat> {
    set r: nat | r < |l.referrals| && Available(l, user, r)
  }

  /** The user's orders with a reward, by status. */
  function RewardedOrders(l: Ledger, user: UserId, status: PaymentStatus): set<nat> {
    set o: nat | o < |l.orders| && l.orders[o].user == user && l.orders[o].reward.Some? && l.orders[o].status == status
  }

  function RewardsOf(orders: seq<Order>, s: set<nat>): set<nat>
    requires forall o | o in s :: o < |orders| && orders[o].reward.Some?
  {
    set o | o in s :: orders[o].reward.value
  }

  lemma {:induction false} AsManyRewards(orders: seq<Order>, s: set<nat>)
    requires forall o | o in s :: o < |orders| && orders[o].reward.Some?
    requires forall i, j | 0 <= i < j < |orders| :: Apart(orders[i], orders[j])
    ensures |RewardsOf(orders, s)| == |s|
    decreases |s|
  {
    hide Apart;
    if s != {} {
      var o :| o in s;
      AsManyRewards(orders, s - {o});
      forall other | other in s - {o} ensures orders[other].reward != orders[o].reward {
        RewardsDiffer(orders, o, other);
      }
      assert RewardsOf(orders, s) == RewardsOf(orders, s - {o}) + {orders[o].reward.value};
    }
  }

  /** Rewards are attached injectively. */
  lemma RewardsDiffer(orders: seq<Order>, i: nat, j: nat)
    requires i < |orders| && j < |orders| && i != j && orders[i].reward.Some?
    requires forall a, b | 0 <= a < b < |orders| :: Apart(orders[a], orders[b])
    ensures orders[i].reward != orders[j].reward
  {
    assert if i < j then Apart(orders[i], orders[j]) else Apart(orders[j], orders[i]);
  }

  lemma AttachedRewardsAreEarned(w: World, user: UserId)
    requires OrdersOk(w)
    ensures var l := w.ledger;
            var all := RewardedOrders(l, user, Pending) + RewardedOrders(l, user, PaymentStatus.Paid);
            Earned(l, user) - AvailableRewards(l, user) == RewardsOf(l.orders, all)
  {
    hide Discounted;
    var l := w.ledger;
    var all := RewardedOrders(l, user, Pending) + RewardedOrders(l, user, PaymentStatus.Paid);
    forall r | r in RewardsOf(l.orders, all) ensures r in Earned(l, user) - AvailableRewards(l, user) {
      var o :| o in all && l.orders[o].reward.value == r;
      assert l.orders[o] in l.orders;
    }
    forall r | r in Earned(l, user) - AvailableRewards(l, user) ensures r in RewardsOf(l.orders, all) {
      var o :| o in l.orders && o.reward == Some(r);
      var k :| 0 <= k < |l.orders| && l.orders[k] == o;
      assert OrderOk(l, o);
      assert k in all;
    }
  }

  /** In every reachable state a user's rewards are available, attached to an unpaid order, or used:
      the three counters of the profile add up to the fourth. */
  lemma RewardsConserved(start: World, events: seq<Event>, user: UserId)
    requires Migrated(start)
    ensures var l := Run(start, events).ledger;
            |Earned(l, user)| == |AvailableRewards(l, user)| + |RewardedOrders(l, user, Pending)|
                                 + |RewardedOrders(l, user, PaymentStatus.Paid)|
  {
    hide Step, OrdersOk, AccountsOk, PaymentsOk;
    MigratedInv(start);
    RunKeepsInv(start, events);
    var w := Run(start, events);
    var l := w.ledger;
    var open, used := RewardedOrders(l, user, Pending), RewardedOrders(l, user, PaymentStatus.Paid);
    AttachedRewardsAreEarned(w, user);
    AsManyRewards(l.orders, open + used);
    assert AvailableRewards(l, user) <= Earned(l, user);
    assert open !! used;
  }

  /** In every reachable state: a reward belongs to the user whose order has it, to one order only, and the
      order's amount is the discounted price; without a reward it is the full price. */
  lemma RewardsAreTheInvitersOwn(start: World, events: seq<Event>, o: nat)
    requires Migrated(start) && o < |Run(start, events).ledger.orders|
    ensures var l := Run(start, events).ledger; var order := l.orders[o];
            && (order.reward.None? ==> order.amount == PriceFor(order.plan, order.period))
            && (order.reward.Some? ==>
                  && order.reward.value < |l.referrals| && l.referrals[order.reward.value].inviter == order.user
                  && 10 * order.amount == 9 * PriceFor(order.plan, order.period)
                  && forall other: nat | other < |l.orders| && other != o :: l.orders[other].reward != order.reward)
  {
    hide Step, AccountsOk, PaymentsOk, Discounted;
    MigratedInv(start);
    RunKeepsInv(start, events);
    var l := Run(start, events).ledger;
    assert l.orders[o] in l.orders;
    DiscountIsExact(l.orders[o].plan, l.orders[o].period);
    if l.orders[o].reward.Some? {
      forall other: nat | other < |l.orders| && other != o ensures l.orders[other].reward != l.orders[o].reward {
        RewardsDiffer(l.orders, o, other);
      }
    }
  }

  /** A user never has two unpaid discounted orders for the same plan and period. */
  lemma OneOpenDiscount(start: World, events: seq<Event>, i: nat, j: nat, user: UserId, plan: Plan, period: Period)
    requires Migrated(start) && i != j
    requires i < |Run(start, events).ledger.orders| && j < |Run(start, events).ledger.orders|
    requires OpenDiscount(Run(start, events).ledger.orders[i], user, plan, period)
    ensures !OpenDiscount(Run(start, events).ledger.orders[j], user, plan, period)
  {
    hide Step, OrdersOk, AccountsOk, PaymentsOk;
    MigratedInv(start);
    RunKeepsInv(start, events);
    var orders := Run(start, events).ledger.orders;
    assert if i < j then Apart(orders[i], orders[j]) else Apart(orders[j], orders[i]);
  }

  lemma StepKeepsReferrals(w: World, e: Event)
    requires ReferralsOk(w.ledger.referrals)
    ensures ReferralsOk(Step(w, e).ledger.referrals)
  {
    hide Pay, PaidEnd, StartTrial, Downgrades, NewOrder;
    var before := w.ledger.referrals;
    if Step(w, e).ledger.referrals != before {
      assert forall r | r in before :: r.referred != e.user;
    }
  }

  /** One reward for each registered user, and never for one's own registration. */
  lemma {:induction false} ReferralsAreUnique(start: World, events: seq<Event>)
    requires Migrated(start)
    ensures ReferralsOk(Run(start, events).ledger.referrals)
    decreases |events|
  {
    hide Step, ReferralsOk;
    if events == [] {
      assert ReferralsOk(start.ledger.referrals);
    } else {
      ReferralsAreUnique(start, events[..|events| - 1]);
      StepKeepsReferrals(Run(start, events[..|events| - 1]), events[|events| - 1]);
    }
  }

  /** A registration with the link of an existing user gives that user, and nobody else, one available reward. */
  lemma RegistrationEarnsReward(start: World, events: seq<Event>, user: UserId, inviter: UserId, other: UserId)
    requires Migrated(start)
    requires var l := Run(start, events).ledger; user !in l.accounts && inviter in l.accounts && !Referred(l, user)
    ensures var l, l' := Run(start, events).ledger, Step(Run(start, events), Register(user, inviter)).ledger;
            var earned: set<nat> := if other == inviter then {|l.referrals|} else {};
            && Earned(l', other) == Earned(l, other) + earned
            && AvailableRewards(l', other) == AvailableRewards(l, other) + earned
  {
    hide AllApart, AccountsOk, PaymentsOk, Discounted, PriceFor, CreateOrder, Settle, Pay, StartTrial;
    MigratedInv(start);
    RunKeepsInv(start, events);
    var w := Run(start, events);
    var l, l' := w.ledger, Step(w, Register(user, inviter)).ledger;
    assert l'.orders == l.orders && l'.referrals == l.referrals + [Referral(inviter, user, REFERRAL_DISCOUNT_PERCENT)];
    assert !Attached(l.orders, |l.referrals|) by {
      forall o | o in l.orders ensures o.reward != Some(|l.referrals|) {
        assert OrderOk(l, o);
      }
    }
    forall r: nat
      ensures Available(l', other, r) <==> Available(l, other, r) || (other == inviter && r == |l.referrals|)
    {
    }
  }

  /** No other order of the user was placed under this key. */
  predicate OnlyKey(orders: seq<Order>, user: UserId, key: string, o: nat) {
    forall k: nat | k < |orders| && k != o :: orders[k].user != user || orders[k].key != key
  }

  lemma RetryFinds(w: World, user: UserId, plan: Plan, period: Period, key: string, retry: nat, later: nat, o: nat)
    requires Inv(w) && o < |w.ledger.orders|
    requires var order := w.ledger.orders[o];
             && order.user == user && order.plan == plan && order.period == period && order.status.Pending?
             && (order.key == key || order.reward.Some?)
    requires user in w.ledger.accounts && !Downgrades(w.ledger.accounts[user], plan, period, later)
    ensures CreateOrder(w.ledger, user, plan, period, key, retry, later) == Placed(w.ledger, Some(o)) <==>
            OnlyKey(w.ledger.orders, user, key, o)
  {
    hide Downgrades, OrdersOk, AccountsOk, PaymentsOk, NewOrder;
    var orders := w.ledger.orders;
    forall k: nat | k < |orders| && k != o
      ensures orders[o].key == key ==> orders[k].user != user || orders[k].key != key
      ensures orders[o].reward.Some? ==> !OpenDiscount(orders[k], user, plan, period)
    {
      assert if k < o then Apart(orders[k], orders[o]) else Apart(orders[o], orders[k]);
    }
    assert orders[o] in orders;
    assert forall k: nat | k < |orders| :: orders[k] in orders;
  }

  /** Whatever happens after a request: as long as its order is unpaid and the plan is no downgrade, repeating the
      request returns the same order, exactly if its key was not used for another one. */
  lemma RetryReturnsSameOrderInRuns(w: World, e: Event, events: seq<Event>, retry: nat, later: nat)
    requires Inv(w) && e.Request?
    requires CreateOrder(w.ledger, e.user, e.plan, e.period, e.key, e.number, e.now).order.Some?
    requires var o := CreateOrder(w.ledger, e.user, e.plan, e.period, e.key, e.number, e.now).order.value;
             var after := Run(Step(w, e), events).ledger;
             && o < |after.orders| && after.orders[o].status.Pending?
             && e.user in after.accounts && !Downgrades(after.accounts[e.user], e.plan, e.period, later)
    ensures var o := CreateOrder(w.ledger, e.user, e.plan, e.period, e.key, e.number, e.now).order.value;
            var after := Run(Step(w, e), events).ledger;
            CreateOrder(after, e.user, e.plan, e.period, e.key, retry, later) == Placed(after, Some(o)) <==>
            OnlyKey(after.orders, e.user, e.key, o)
  {
    hide Downgrades, Inv, NewOrder, FindByKey, FindOpenDiscount;
    var o := CreateOrder(w.ledger, e.user, e.plan, e.period, e.key, e.number, e.now).order.value;
    PlacedAsAsked(w.ledger, e.user, e.plan, e.period, e.key, e.number, e.now);
    PlacedByKeyOrReward(w.ledger, e.user, e.plan, e.period, e.key, e.number, e.now);
    StepKeepsInv(w, e);
    PaidIsFinal(Step(w, e), events, o);
    RunKeepsInv(Step(w, e), events);
    RetryFinds(Run(Step(w, e), events), e.user, e.plan, e.period, e.key, retry, later, o);
  }
}
