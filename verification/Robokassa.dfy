/** Payment notifications and the return page: reading the order, and confirming it some time later. */
module Robokassa {
  import opened Options
  import opened Billing
  import opened BillingPlans
  import Amounts
  import Numbers
  import Runs = BillingRuns

  /** The checked parameters of one call. `invId` and `outSum` are empty when they are missing, and `signed` tells
      whether the signature is right. */
  datatype Notification = Notification(
    invId: string, outSum: string, ourMerchant: bool, signed: bool, currency: Option<string>)

  datatype Kind = Result | Success

  datatype Answer =
    BadRequest | BadMerchant | NotFound | BadSignature | BadAmount | Ok | Error | FailedPage | PendingPage

  /** An answer given at once, or the payment that will be confirmed. */
  datatype Decision = Answered(answer: Answer) | Confirming(order: nat, amount: nat, currency: string)

  function FindByNumber(orders: seq<Order>, number: nat): (r: Option<nat>)
    ensures r.Some? ==> r.value < |orders| && orders[r.value].number == number
    ensures r.None? ==> forall o | o in orders :: o.number != number
  {
    if orders == [] then None
    else
      var n := |orders| - 1;
      var before := FindByNumber(orders[..n], number);
      if before.Some? then before else if orders[n].number == number then Some(n) else None
  }

  /** `findOrder`: without an `InvId`, or with one that is no number, nothing is found. */
  function FindOrder(orders: seq<Order>, id: string): (r: Option<nat>)
    ensures r.Some? ==> id != "" && r.value < |orders| && Numbers.NumberOf(id) == Some(orders[r.value].number)
  {
    if id == "" || Numbers.NumberOf(id).None? then None else FindByNumber(orders, Numbers.NumberOf(id).value)
  }

  /** The primary key of an order: a text that begins with a letter. */
  function TextId(order: nat): string {
    "c" + Amounts.Numeral(order)
  }

  function DecideResult(orders: seq<Order>, n: Notification): Decision {
    if n.invId == "" || n.outSum == "" then Answered(BadRequest)
    else if !n.ourMerchant then Answered(BadMerchant)
    else
      var found := FindOrder(orders, n.invId);
      if found.None? then Answered(NotFound)
      else
        var o := orders[found.value];
        var amount, currency := Amounts.ToKopecks(Some(n.outSum)), n.currency.Or(o.currency);
        if o.status.Paid? then Answered(Ok)
        else if !n.signed then Answered(BadSignature)
        else if amount.None? || amount.value != o.amount || currency != o.currency then Answered(BadAmount)
        else Confirming(found.value, amount.value, currency)
  }

  function DecideSuccess(orders: seq<Order>, n: Notification): Decision {
    var found := FindOrder(orders, n.invId);
    if found.None? then Answered(FailedPage)
    else
      var o := orders[found.value];
      var amount, currency := Amounts.ToKopecks(Some(n.outSum)), n.currency.Or(o.currency);
      if o.status.Paid? then Answered(Ok)
      else if n.signed && amount == Some(o.amount) && currency == o.currency
      then Confirming(found.value, o.amount, currency)
      else Answered(PendingPage)
  }

  function Decide(orders: seq<Order>, kind: Kind, n: Notification): Decision {
    if kind.Result? then DecideResult(orders, n) else DecideSuccess(orders, n)
  }

  function ProviderPaymentId(order: nat): (id: string)
    ensures id != ""
  {
    "robokassa:" + TextId(order)
  }

  lemma PaymentIdsDiffer(a: nat, b: nat)
    requires ProviderPaymentId(a) == ProviderPaymentId(b)
    ensures a == b
  {
    var prefix := "robokassa:c";
    assert ProviderPaymentId(a)[|prefix|..] == Amounts.Numeral(a);
    assert ProviderPaymentId(b)[|prefix|..] == Amounts.Numeral(b);
    Amounts.ValueOfNumeral(a);
    Amounts.ValueOfNumeral(b);
  }

  function Failure(kind: Kind): Answer {
    if kind.Result? then Error else PendingPage
  }

  /** After an exception the order is read again. */
  function AfterException(orders: seq<Order>, kind: Kind, id: string): Answer {
    var refreshed := FindOrder(orders, id);
    if refreshed.Some? && orders[refreshed.value].status.Paid? then Ok else Failure(kind)
  }

  /** By its text id an order is never found: even a paid one is answered as a failure. */
  lemma ReadAgainInVain(orders: seq<Order>, kind: Kind, order: nat)
    ensures AfterException(orders, kind, TextId(order)) == if kind == Result then Error else PendingPage
  {
    hide Numbers.NumberOf;
    Numbers.LetterFirstIsNoNumber(TextId(order));
  }

  /** By its number it would be found, and a paid one answered as such. */
  lemma ReadAgainByNumber(orders: seq<Order>, kind: Kind, k: nat)
    requires k < |orders| && orders[k].status == PaymentStatus.Paid
    requires forall i, j | 0 <= i < j < |orders| :: orders[i].number != orders[j].number
    ensures AfterException(orders, kind, Amounts.Numeral(orders[k].number)) == Ok
  {
    hide Numbers.NumberOf, Amounts.Numeral;
    Numbers.NumeralIsNumber(orders[k].number);
    assert orders[k] in orders;
  }

  /** One call from start to end, with nothing in between. */
  method Handle(tables: BillingTables, kind: Kind, n: Notification, now: nat) returns (answer: Answer)
    modifies tables
    ensures var decision := Decide(old(tables.orders), kind, n);
            match decision
            case Answered(a) => answer == a && tables.Rows() == old(tables.Rows())
            case Confirming(order, amount, currency) =>
              var confirmed := ConfirmPayment(old(tables.Rows()), order, ProviderPaymentId(order), amount,
                                              currency, now);
              && answer == (if confirmed.Some? then Ok else AfterException(tables.orders, kind, TextId(order)))
              && tables.Rows() == confirmed.Or(old(tables.Rows()))
  {
    hide ConfirmPayment, DecideResult, DecideSuccess, ProviderPaymentId;
    var decision := Decide(tables.orders, kind, n);
    match decision
    case Answered(a) => answer := a;
    case Confirming(order, amount, currency) =>
      var confirmed := tables.ConfirmVerifiedPayment(order, ProviderPaymentId(order), amount, currency, now);
      answer := if confirmed then Ok else AfterException(tables.orders, kind, TextId(order));
  }

  // ---------------------------------------------------------------------------
  // Interleavings
  // ---------------------------------------------------------------------------

  /** A call that has read its order and not yet confirmed it. */
  datatype Call = Call(kind: Kind, order: nat, amount: nat, currency: string)

  /** `acknowledged` are the orders some call was answered `Ok` for. */
  datatype World = World(billing: Runs.World, calls: map<nat, Call>, acknowledged: set<nat>)

  /** `committed` tells whether the database committed the transaction, `acknowledged` whether the process heard
      of it. */
  datatype Event =
    | Other(e: Runs.Event)
    | Receive(pid: nat, kind: Kind, n: Notification)
    | Confirm(pid: nat, now: nat, committed: bool, acknowledged: bool)

  function Payment(call: Call, now: nat): Runs.Event {
    Runs.Confirm(call.order, ProviderPaymentId(call.order), call.amount, call.currency, now)
  }

  function AfterConfirm(w: World, pid: nat, now: nat, committed: bool): Runs.World
    requires pid in w.calls
  {
    if committed then Runs.Step(w.billing, Payment(w.calls[pid], now)) else w.billing
  }

  function AnswerTo(w: World, pid: nat, now: nat, committed: bool, acknowledged: bool): Answer
    requires pid in w.calls
  {
    var c := w.calls[pid];
    var confirmed := ConfirmPayment(w.billing.ledger, c.order, ProviderPaymentId(c.order), c.amount, c.currency, now);
    if committed && acknowledged && confirmed.Some? then Ok
    else AfterException(AfterConfirm(w, pid, now, committed).ledger.orders, c.kind, TextId(c.order))
  }

  function ReceiveStep(w: World, pid: nat, kind: Kind, n: Notification): World {
    match Decide(w.billing.ledger.orders, kind, n)
    case Confirming(order, amount, currency) => w.(calls := w.calls[pid := Call(kind, order, amount, currency)])
    case Answered(a) =>
      if a.Ok? && FindOrder(w.billing.ledger.orders, n.invId).Some?
      then w.(acknowledged := w.acknowledged + {FindOrder(w.billing.ledger.orders, n.invId).value})
      else w
  }

  function Step(w: World, e: Event): World {
    match e
    case Other(other) => if other.Confirm? then w else w.(billing := Runs.Step(w.billing, other))
    case Receive(pid, kind, n) => if pid in w.calls then w else ReceiveStep(w, pid, kind, n)
    case Confirm(pid, now, committed, acknowledged) =>
      if pid !in w.calls then w
      else
        World(AfterConfirm(w, pid, now, committed),
              w.calls - {pid},
              if AnswerTo(w, pid, now, committed, acknowledged).Ok? then w.acknowledged + {w.calls[pid].order}
                else w.acknowledged)
  }

  function Run(w: World, events: seq<Event>): World
    decreases |events|
  {
    if events == [] then w else Step(Run(w, events[..|events| - 1]), events[|events| - 1])
  }

  ghost predicate Starts(w: World) {
    Runs.Migrated(w.billing) && w.calls == map[] && w.acknowledged == {}
  }

  predicate CallOk(w: World, c: Call) {
    && c.order < |w.billing.ledger.orders|
    && w.billing.ledger.orders[c.order].amount == c.amount && w.billing.ledger.orders[c.order].currency == c.currency
  }

  /** Calls fit their orders, payments carry their order's id, and what was acknowledged is paid. */
  ghost predicate CallsOk(w: World) {
    && (forall pid | pid in w.calls :: CallOk(w, w.calls[pid]))
    && (forall o | o in w.acknowledged :: o < |w.billing.ledger.orders| && w.billing.ledger.orders[o].status.Paid?)
  }

  ghost predicate PaymentIdsOk(w: Runs.World) {
    forall o: nat | o < |w.ledger.orders| ::
      w.ledger.orders[o].payment.None? || w.ledger.orders[o].payment == Some(ProviderPaymentId(o))
  }

  ghost predicate Inv(w: World) {
    Runs.Inv(w.billing) && CallsOk(w) && PaymentIdsOk(w.billing)
  }

  /** In a reachable state a call that was let through always confirms: nothing that happened since it read
      the order, not even other calls for the same order, makes the confirmation fail. */
  lemma LetThroughConfirms(w: World, pid: nat, now: nat)
    requires Inv(w) && pid in w.calls
    ensures var c := w.calls[pid];
            ConfirmPayment(w.billing.ledger, c.order, ProviderPaymentId(c.order), c.amount, c.currency, now).Some?
  {
    hide Settle, Discounted, ProviderPaymentId, Runs.AllApart, Runs.AccountsOk, Runs.PaymentsOk;
    var l, c := w.billing.ledger, w.calls[pid];
    assert CallOk(w, c);
    var o := l.orders[c.order];
    assert Runs.OrderOk(l, o);
    PricesAreSmall(o);
    if o.status.Pending? {
      forall k: nat | k < |l.orders| ensures l.orders[k].payment != Some(ProviderPaymentId(c.order)) {
        if l.orders[k].payment == Some(ProviderPaymentId(c.order)) {
          PaymentIdsDiffer(k, c.order);
        }
      }
    }
  }

  lemma PricesAreSmall(o: Order)
    requires o.amount == Discounted(PriceFor(o.plan, o.period), o.discountPercent)
    ensures o.amount <= MAX_SAFE_INTEGER
  {
  }

  lemma BillingStepKeepsPaymentIds(w: Runs.World, e: Runs.Event)
    requires PaymentIdsOk(w) && (e.Confirm? ==> e.payment == ProviderPaymentId(e.order))
    ensures PaymentIdsOk(Runs.Step(w, e))
  {
    hide Pay, PaidEnd, StartTrial, Downgrades, ProviderPaymentId;
  }

  lemma StepKeepsBilling(w: World, e: Event)
    requires Runs.Inv(w.billing) && PaymentIdsOk(w.billing)
    ensures Runs.Inv(Step(w, e).billing) && PaymentIdsOk(Step(w, e).billing)
  {
    hide Runs.Inv, PaymentIdsOk, Runs.Step, DecideResult, DecideSuccess, ConfirmPayment, ProviderPaymentId;
    match e
    case Other(other) =>
      if !other.Confirm? {
        Runs.StepKeepsInv(w.billing, other);
        BillingStepKeepsPaymentIds(w.billing, other);
      }
    case Confirm(pid, now, _, _) =>
      if pid in w.calls {
        Runs.StepKeepsInv(w.billing, Payment(w.calls[pid], now));
        BillingStepKeepsPaymentIds(w.billing, Payment(w.calls[pid], now));
      }
    case _ =>
  }

  /** Only a signed call that names a pending order with its amount and currency is let through. */
  lemma DecideIsRight(orders: seq<Order>, kind: Kind, n: Notification)
    ensures var d := Decide(orders, kind, n);
            && (d.Confirming? ==>
                  && n.signed && (kind.Result? ==> n.ourMerchant)
                  && d.order < |orders| && orders[d.order].status.Pending?
                  && Numbers.NumberOf(n.invId) == Some(orders[d.order].number)
                  && Amounts.ToKopecks(Some(n.outSum)) == Some(d.amount) && orders[d.order].amount == d.amount
                  && n.currency.Or(d.currency) == d.currency && orders[d.order].currency == d.currency)
            && (d == Answered(Ok) ==>
                  && FindOrder(orders, n.invId).Some?
                  && orders[FindOrder(orders, n.invId).value].status.Paid?)
  {
    hide Amounts.ToKopecks, FindByNumber, Numbers.NumberOf;
  }

  /** A result notification is let through exactly if it is from our merchant, names a pending order by its number, is
      signed, and repeats the order's amount and, if it names one, its currency. */
  lemma ResultIsLetThroughExactly(orders: seq<Order>, n: Notification)
    requires forall i, j | 0 <= i < j < |orders| :: orders[i].number != orders[j].number
    ensures var d := Decide(orders, Result, n);
            d.Confirming? <==>
              && n.invId != "" && n.outSum != "" && n.ourMerchant && n.signed
              && exists k: nat :: k < |orders| && IsNamed(orders[k], n) && orders[k].status == Pending
    ensures var d := Decide(orders, Success, n);
            d.Confirming? <==>
              && n.invId != "" && n.signed
              && exists k: nat :: k < |orders| && IsNamed(orders[k], n) && orders[k].status == Pending
  {
    hide Amounts.ToKopecks, Numbers.NumberOf;
    var found := FindOrder(orders, n.invId);
    forall k: nat | k < |orders| && IsNamed(orders[k], n) && n.invId != "" ensures found == Some(k) {
      assert orders[k] in orders;
      assert found.Some? && orders[found.value].number == orders[k].number;
    }
    if Decide(orders, Result, n).Confirming? || Decide(orders, Success, n).Confirming? {
      assert IsNamed(orders[found.value], n);
    }
  }

  /** The notification names the order by its number, with its amount and no other currency. */
  predicate IsNamed(o: Order, n: Notification) {
    && Numbers.NumberOf(n.invId) == Some(o.number)
    && Amounts.ToKopecks(Some(n.outSum)) == Some(o.amount)
    && (n.currency != None ==> n.currency == Some(o.currency))
  }

  /** A result notification that is not let through is told why, the first of these reasons that applies. */
  lemma RefusalSaysWhy(orders: seq<Order>, n: Notification)
    ensures var answer := Decide(orders, Result, n); var found := FindOrder(orders, n.invId);
            if n.invId == "" || n.outSum == "" then answer == Answered(BadRequest)
            else if !n.ourMerchant then answer == Answered(BadMerchant)
            else if found == None then answer == Answered(NotFound)
            else if orders[found.value].status == PaymentStatus.Paid then answer == Answered(Ok)
            else if !n.signed then answer == Answered(BadSignature)
            else answer == Answered(BadAmount) || answer.Confirming?
    ensures var answer := Decide(orders, Success, n); var found := FindOrder(orders, n.invId);
            if found == None then answer == Answered(FailedPage)
            else if orders[found.value].status == PaymentStatus.Paid then answer == Answered(Ok)
            else answer == Answered(PendingPage) || answer.Confirming?
  {
    hide Amounts.ToKopecks, Numbers.NumberOf, FindByNumber;
  }

  lemma ConfirmedIsPaid(l: Ledger, order: nat, payment: string, amount: int, currency: string, now: nat)
    requires ConfirmPayment(l, order, payment, amount, currency, now).Some?
    ensures var l' := ConfirmPayment(l, order, payment, amount, currency, now).value;
            order < |l'.orders| && l'.orders[order].status.Paid?
  {
    hide Pay;
  }

  /** Orders stay where they are, keep their amounts, and stay paid. */
  predicate OrdersGrow(a: seq<Order>, b: seq<Order>) {
    |a| <= |b| && forall o: nat | o < |a| ::
      b[o].amount == a[o].amount && b[o].currency == a[o].currency && (a[o].status.Paid? ==> b[o].status.Paid?)
  }

  lemma StepGrowsOrders(w: World, e: Event)
    ensures OrdersGrow(w.billing.ledger.orders, Step(w, e).billing.ledger.orders)
  {
    hide Runs.Step, DecideResult, DecideSuccess, ConfirmPayment, ProviderPaymentId;
    match e
    case Other(other) => if !other.Confirm? { BillingStepGrowsOrders(w.billing, other); }
    case Confirm(pid, now, _, _) =>
      if pid in w.calls {
        BillingStepGrowsOrders(w.billing, Payment(w.calls[pid], now));
      }
    case _ =>
  }

  lemma BillingStepGrowsOrders(w: Runs.World, e: Runs.Event)
    ensures OrdersGrow(w.ledger.orders, Runs.Step(w, e).ledger.orders)
  {
    hide Runs.Step;
    var a, b := w.ledger.orders, Runs.Step(w, e).ledger.orders;
    OrdersAreNotDeleted(w, e);
    forall o: nat | o < |a|
      ensures b[o].amount == a[o].amount && b[o].currency == a[o].currency && (a[o].status.Paid? ==> b[o].status.Paid?)
    {
      Runs.StepKeepsOrder(w, e, o);
    }
  }

  lemma OrdersAreNotDeleted(w: Runs.World, e: Runs.Event)
    ensures |w.ledger.orders| <= |Runs.Step(w, e).ledger.orders|
  {
    if w.ledger.orders != [] {
      Runs.StepKeepsOrder(w, e, |w.ledger.orders| - 1);
    }
  }

  lemma StepKeepsCalls(w: World, e: Event)
    requires CallsOk(w)
    ensures CallsOk(Step(w, e))
  {
    hide Runs.Step, DecideResult, DecideSuccess, ConfirmPayment, ProviderPaymentId;
    StepGrowsOrders(w, e);
    match e
    case Receive(pid, kind, n) => DecideIsRight(w.billing.ledger.orders, kind, n);
    case Confirm(pid, now, committed, acknowledged) =>
      if pid in w.calls && AnswerTo(w, pid, now, committed, acknowledged).Ok? {
        var c := w.calls[pid];
        ReadAgainInVain(AfterConfirm(w, pid, now, committed).ledger.orders, c.kind, c.order);
        ConfirmedIsPaid(w.billing.ledger, c.order, ProviderPaymentId(c.order), c.amount, c.currency, now);
        Runs.ConfirmIsStep(w.billing, c.order, ProviderPaymentId(c.order), c.amount, c.currency, now);
      }
    case _ =>
  }

  lemma {:induction false} RunKeepsInv(w: World, events: seq<Event>)
    requires Inv(w)
    ensures Inv(Run(w, events))
    decreases |events|
  {
    hide Step, CallsOk, PaymentIdsOk, Runs.Inv;
    if events == [] {
    } else {
      var shorter := events[..|events| - 1];
      RunKeepsInv(w, shorter);
      StepKeepsBilling(Run(w, shorter), events[|events| - 1]);
      StepKeepsCalls(Run(w, shorter), events[|events| - 1]);
    }
  }

  lemma StartsInv(w: World)
    requires Starts(w)
    ensures Inv(w)
  {
    Runs.MigratedInv(w.billing);
  }

  // ---------------------------------------------------------------------------
  // What holds in every reachable state
  // ---------------------------------------------------------------------------

  /** Under any interleaving of notifications, return pages and other billing operations: each order was
      applied exactly once if it is paid and never otherwise; it was paid under its own id; and an answer
      `Ok` was only ever given for an order that is paid. */
  lemma CallbacksApplyOnce(start: World, events: seq<Event>, order: nat)
    requires Starts(start)
    ensures var w := Run(start, events); var orders := w.billing.ledger.orders;
            && Runs.Applications(w.billing.terms, order) == (if Runs.IsPaid(orders, order) then 1 else 0)
            && (order < |orders| && orders[order].status.Paid? ==>
                 orders[order].payment == Some(ProviderPaymentId(order)))
            && (order in w.acknowledged ==> order < |orders| && orders[order].status.Paid?)
  {
    hide Step, Runs.AllApart, Runs.AccountsOk, ProviderPaymentId, Discounted;
    StartsInv(start);
    RunKeepsInv(start, events);
    var orders := Run(start, events).billing.ledger.orders;
    if order < |orders| {
      assert Runs.OrderOk(Run(start, events).billing.ledger, orders[order]);
    }
  }

  /** A call that was let through is answered `Ok` exactly if the database commits and the process hears of it. */
  lemma OnlyTheDatabaseFails(start: World, events: seq<Event>, pid: nat, now: nat, committed: bool, acknowledged: bool)
    requires Starts(start) && pid in Run(start, events).calls
    ensures AnswerTo(Run(start, events), pid, now, committed, acknowledged).Ok? <==> committed && acknowledged
  {
    hide Step, ConfirmPayment, AfterConfirm, Inv, AfterException;
    StartsInv(start);
    RunKeepsInv(start, events);
    var w := Run(start, events);
    LetThroughConfirms(w, pid, now);
    ReadAgainInVain(AfterConfirm(w, pid, now, committed).ledger.orders, w.calls[pid].kind, w.calls[pid].order);
  }

  /** A payment that was committed without the process hearing of it leaves the order paid, and is answered as a
      failure: reading the order again was meant for this case and misses it. */
  lemma LostAcknowledgementIsAnError(start: World, events: seq<Event>, pid: nat, now: nat)
    requires Starts(start) && pid in Run(start, events).calls
    ensures var w := Run(start, events); var c := w.calls[pid];
            var orders := Step(w, Confirm(pid, now, true, false)).billing.ledger.orders;
            && c.order < |orders| && orders[c.order].status.Paid?
            && AnswerTo(w, pid, now, true, false) == if c.kind == Result then Error else PendingPage
  {
    hide Runs.Step, ConfirmPayment, Inv, ProviderPaymentId, AfterException;
    StartsInv(start);
    RunKeepsInv(start, events);
    var w := Run(start, events);
    var c := w.calls[pid];
    LetThroughConfirms(w, pid, now);
    ConfirmedIsPaid(w.billing.ledger, c.order, ProviderPaymentId(c.order), c.amount, c.currency, now);
    Runs.ConfirmIsStep(w.billing, c.order, ProviderPaymentId(c.order), c.amount, c.currency, now);
    ReadAgainInVain(AfterConfirm(w, pid, now, true).ledger.orders, c.kind, c.order);
  }

  /** The amount printed on the payment page is accepted when the notification repeats it. */
  lemma PrintedAmountIsAccepted(start: World, events: seq<Event>, order: nat, kind: Kind)
    requires Starts(start) && order < |Run(start, events).billing.ledger.orders|
    ensures var o := Run(start, events).billing.ledger.orders[order];
            var n := Notification(Amounts.Numeral(o.number), Amounts.FormatAmount(o.amount), true, true, None);
            Decide(Run(start, events).billing.ledger.orders, kind, n) ==
            if o.status.Paid? then Answered(Ok) else Confirming(order, o.amount, "RUB")
  {
    hide Step, Amounts.ToKopecks, Runs.AccountsOk, Runs.PaymentsOk, Discounted, CallsOk, PaymentIdsOk, Numbers.NumberOf;
    StartsInv(start);
    RunKeepsInv(start, events);
    var w := Run(start, events).billing;
    var orders := w.ledger.orders;
    assert Runs.OrderOk(w.ledger, orders[order]);
    NumberNamesOrder(w, order);
    Numbers.NumeralIsNumber(orders[order].number);
    Amounts.FormattedAmountIsReadBack(orders[order].amount);
    assert '.' in Amounts.FormatAmount(orders[order].amount);
  }

  lemma NumberNamesOrder(w: Runs.World, order: nat)
    requires Runs.AllApart(w) && order < |w.ledger.orders|
    ensures FindByNumber(w.ledger.orders, w.ledger.orders[order].number) == Some(order)
  {
    var orders := w.ledger.orders;
    forall k: nat | k < |orders| && k != order ensures orders[k].number != orders[order].number {
      assert if k < order then Runs.Apart(orders[k], orders[order]) else Runs.Apart(orders[order], orders[k]);
    }
    assert orders[order] in orders;
  }

  /** A call that is let through waits for its confirmation, and one that finds its order paid is acknowledged; no
      other one leaves anything. */
  lemma CallIsReceived(w: World, pid: nat, kind: Kind, n: Notification)
    requires pid !in w.calls
    ensures var orders := w.billing.ledger.orders;
            var w', found := Step(w, Receive(pid, kind, n)), FindOrder(orders, n.invId);
            match Decide(orders, kind, n)
            case Confirming(order, amount, currency) =>
              w' == w.(calls := w.calls[pid := Call(kind, order, amount, currency)])
            case Answered(answer) =>
              if answer == Ok then found.Some? && w' == w.(acknowledged := w.acknowledged + {found.value}) else w' == w
  {
    hide Amounts.ToKopecks, Numbers.NumberOf, FindByNumber;
  }

  /** In every reachable state: a confirmation ends its call, pays its order if the database commits, and is
      acknowledged exactly if the process hears of it too. */
  lemma CallIsConfirmed(start: World, events: seq<Event>, pid: nat, now: nat, committed: bool, acknowledged: bool)
    requires Starts(start) && pid in Run(start, events).calls
    ensures var w := Run(start, events);
            var w', order := Step(w, Confirm(pid, now, committed, acknowledged)), w.calls[pid].order;
            && w'.calls == w.calls - {pid}
            && w'.acknowledged == (if committed && acknowledged then w.acknowledged + {order} else w.acknowledged)
            && (if committed then Runs.IsPaid(w'.billing.ledger.orders, order) else w'.billing == w.billing)
  {
    hide Runs.Step, ConfirmPayment, Inv, ProviderPaymentId, AfterException, Run;
    StartsInv(start);
    RunKeepsInv(start, events);
    var w := Run(start, events);
    var c := w.calls[pid];
    OnlyTheDatabaseFails(start, events, pid, now, committed, acknowledged);
    LetThroughConfirms(w, pid, now);
    ConfirmedIsPaid(w.billing.ledger, c.order, ProviderPaymentId(c.order), c.amount, c.currency, now);
    Runs.ConfirmIsStep(w.billing, c.order, ProviderPaymentId(c.order), c.amount, c.currency, now);
  }

  lemma OneMore(w: World, events: seq<Event>, e: Event)
    ensures Run(w, events + [e]) == Step(Run(w, events), e)
  {
    assert (events + [e])[..|events|] == events;
  }

  /** In every reachable state: the notification that repeats what was printed for an unpaid order pays it. */
  lemma NotificationPays(start: World, events: seq<Event>, order: nat, pid: nat, kind: Kind, now: nat)
    requires Starts(start) && pid !in Run(start, events).calls
    requires order < |Run(start, events).billing.ledger.orders|
    requires Run(start, events).billing.ledger.orders[order].status == Pending
    ensures var o := Run(start, events).billing.ledger.orders[order];
            var n := Notification(Amounts.Numeral(o.number), Amounts.FormatAmount(o.amount), true, true, None);
            var w := Run(start, events + [Receive(pid, kind, n)] + [Confirm(pid, now, true, true)]);
            Runs.IsPaid(w.billing.ledger.orders, order) && order in w.acknowledged
  {
    hide Run, Step, Decide;
    var o := Run(start, events).billing.ledger.orders[order];
    var n := Notification(Amounts.Numeral(o.number), Amounts.FormatAmount(o.amount), true, true, None);
    var received := events + [Receive(pid, kind, n)];
    PrintedAmountIsAccepted(start, events, order, kind);
    CallIsReceived(Run(start, events), pid, kind, n);
    OneMore(start, events, Receive(pid, kind, n));
    OneMore(start, received, Confirm(pid, now, true, true));
    CallIsConfirmed(start, received, pid, now, true, true);
  }
}
