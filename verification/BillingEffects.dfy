/** What each billing transaction does, told from its request and the rows it found: when it goes through, which rows
    it writes, and what it answers otherwise. */
module BillingEffects {
  import opened Common
  import opened Billing
  import opened BillingLaws

  // ---------------------------------------------------------------------------
  // Charges
  // ---------------------------------------------------------------------------

  /** The amount was the monthly one of a window that contains the moment. */
  predicate WasMonthly(ws: seq<Window>, provider: nat, at: int, amount: int) {
    exists i :: 0 <= i < |ws| && ws[i].provider == provider && ws[i].from <= at < ws[i].until && amount == ws[i].unit * ws[i].branches
  }

  /** What an invoice may be over: the monthly amount of now, or of when it was issued. */
  predicate Fits(a: Account, row: Row, invoice: Invoice) {
    || invoice.amount == row.monthly
    || (invoice.created.Some? && (WasMonthly(a.history.prices, invoice.subscription, invoice.created.value, invoice.amount)
                                  || WasMonthly(a.history.quantities, invoice.subscription, invoice.created.value, invoice.amount)))
  }

  /** The next charge is the last one with a discount. */
  predicate LastDiscounted(a: Account, row: Row) {
    a.terms.Some? && |a.charges| + 1 == a.terms.value.discountCharges && row.unit != row.full
  }

  predicate Charged(charges: seq<Charge>, invoice: nat) {
    exists i :: 0 <= i < |charges| && charges[i].invoice == invoice
  }

  predicate PaidFor(charges: seq<Charge>, payment: nat) {
    exists i :: 0 <= i < |charges| && charges[i].payment == payment
  }

  lemma FitsIsValid(a: Account, row: Row, invoice: Invoice)
    requires Inv(a) && a.row == Some(row)
    ensures AmountIsValid(a, row, invoice) <==> Fits(a, row, invoice)
    ensures EndsDiscount(a, row, |a.charges| + 1) <==> LastDiscounted(a, row)
  {
    hide LedgerInv, CreditInv, HistoryInv, ReservedInv, UnitFor;
    assert row.unit == UnitFor(a, row.full) && row.monthly == row.unit * row.count;
    if invoice.created.Some? {
      SameWindows(a.history.prices, invoice);
      SameWindows(a.history.quantities, invoice);
    }
  }

  lemma SameWindows(ws: seq<Window>, invoice: Invoice)
    requires invoice.created.Some?
    ensures WasPriced(ws, invoice.subscription, invoice.created.value, invoice.amount)
            <==> WasMonthly(ws, invoice.subscription, invoice.created.value, invoice.amount)
  {
    if i :| 0 <= i < |ws| && ws[i].provider == invoice.subscription && InWindow(ws[i], invoice.created.value)
            && ws[i].unit * ws[i].branches == invoice.amount {
      assert ws[i].from <= invoice.created.value < ws[i].until;
    }
    if i :| 0 <= i < |ws| && ws[i].provider == invoice.subscription && ws[i].from <= invoice.created.value < ws[i].until
            && invoice.amount == ws[i].unit * ws[i].branches {
      assert InWindow(ws[i], invoice.created.value);
    }
  }

  /** A charge that a notification may add: of this subscription, new, collected whole and over a price that holds. */
  predicate Chargeable(a: Account, row: Row, invoice: Invoice, payment: Paid) {
    && row.provider == Some(invoice.subscription)
    && !Charged(a.charges, invoice.id) && !PaidFor(a.charges, payment.id)
    && payment.approved && !payment.refunded && payment.amount >= 1
    && invoice.amount == payment.amount && Fits(a, row, invoice)
  }

  /** A charge is recorded exactly for a new approved payment of what the subscription costs, or cost when the invoice
      was issued; the last discounted one also needs the provider to have taken the full price, and no branch
      operation under way. */
  lemma ChargedWhen(a: Account, event: nat, invoice: Invoice, payment: Paid, advanced: bool)
    requires Inv(a)
    ensures var b := RecordInvoice(a, event, invoice, payment, advanced).0;
            |b.charges| > |a.charges| <==> && a.row.Some? && Chargeable(a, a.row.value, invoice, payment)
                                           && (LastDiscounted(a, a.row.value) ==> !a.shop.pending && advanced)
  {
    hide AmountIsValid, RewardFor, EndsDiscount, Recover, ChargeOf, ChargeOfPayment, Fits, LastDiscounted, Inv;
    RefundAddsNone(a.(allocations := Recover(a.allocations, payment.id)), ChargeOf(a.charges, invoice.id));
    Positions(a, invoice.id, payment.id);
    if a.row.Some? { FitsIsValid(a, a.row.value, invoice); }
    hide RefundCharge;
  }

  lemma Positions(a: Account, invoice: nat, payment: nat)
    ensures ChargeOf(a.charges, invoice) < |a.charges| <==> Charged(a.charges, invoice)
    ensures ChargeOfPayment(a.charges, payment) < |a.charges| <==> PaidFor(a.charges, payment)
  {
    if ChargeOf(a.charges, invoice) < |a.charges| { assert a.charges[ChargeOf(a.charges, invoice)].invoice == invoice; }
    if ChargeOfPayment(a.charges, payment) < |a.charges| { assert a.charges[ChargeOfPayment(a.charges, payment)].payment == payment; }
  }

  /** What a recorded charge says, and what else it writes: the amount collected under the next number, the reward of
      that amount and number, the notification, and with the last discounted charge the full price. */
  lemma ChargeWrites(a: Account, event: nat, invoice: Invoice, payment: Paid, advanced: bool)
    requires Inv(a) && |RecordInvoice(a, event, invoice, payment, advanced).0.charges| > |a.charges|
    ensures a.row.Some?
    ensures var (b, reply) := RecordInvoice(a, event, invoice, payment, advanced);
            var row := a.row.value;
            && reply.Accepted?
            && b.charges == a.charges + [Charge(invoice.id, payment.id, invoice.amount, |a.charges| + 1, false)]
            && b.row == Some(if LastDiscounted(a, row) then row.(unit := row.full, monthly := row.full * row.count) else row)
            && (var reward := RewardFor(a, invoice.amount, |a.charges| + 1);
                b.rewards == if reward > 0 then a.rewards[invoice.id := Reward(reward, Owed)] else a.rewards)
            && b.events == a.events + {event}
            && b == a.(charges := b.charges, row := b.row, rewards := b.rewards, events := b.events)
  {
    hide AmountIsValid, RewardFor, EndsDiscount, Recover, ChargeOf, ChargeOfPayment, LastDiscounted, Inv;
    RefundAddsNone(a.(allocations := Recover(a.allocations, payment.id)), ChargeOf(a.charges, invoice.id));
    if a.row.Some? { FitsIsValid(a, a.row.value, invoice); }
    hide RefundCharge;
  }

  /** Why a new approved payment is not recorded. */
  lemma ChargeRefusedBecause(a: Account, event: nat, invoice: Invoice, payment: Paid, advanced: bool)
    requires Inv(a) && payment.approved && !payment.refunded && payment.amount >= 1 && !Charged(a.charges, invoice.id)
    ensures var reply := RecordInvoice(a, event, invoice, payment, advanced).1;
            && (a.row.None? || a.row.value.provider != Some(invoice.subscription) <==> reply.NotFound?)
            && (a.row.Some? && a.row.value.provider == Some(invoice.subscription) ==>
                  && (reply.Mismatch? <==> invoice.amount != payment.amount || !Fits(a, a.row.value, invoice))
                  && (invoice.amount == payment.amount && Fits(a, a.row.value, invoice) && LastDiscounted(a, a.row.value) ==>
                        (reply.InProgress? <==> a.shop.pending) && (reply.ProviderFailed? <==> !a.shop.pending && !advanced)))
  {
    hide AmountIsValid, RewardFor, EndsDiscount, Recover, ChargeOf, ChargeOfPayment, Fits, LastDiscounted, Inv, RefundCharge;
    Positions(a, invoice.id, payment.id);
    if a.row.Some? { FitsIsValid(a, a.row.value, invoice); }
  }

  // ---------------------------------------------------------------------------
  // Refunds
  // ---------------------------------------------------------------------------

  predicate Credited(a: Account, b: Account, payment: nat) {
    && |b.allocations| == |a.allocations|
    && forall i | 0 <= i < |a.allocations| ::
         b.allocations[i] == a.allocations[i].(recovery := a.allocations[i].recovery || a.allocations[i].payment == payment)
  }

  /** Charge k is refunded with its reward: an owed one is void, a settled one due back. */
  predicate TakenBack(a: Account, b: Account, k: nat)
    requires k < |a.charges|
  {
    var invoice := a.charges[k].invoice;
    && b.charges == a.charges[k := a.charges[k].(refunded := true)]
    && b.rewards.Keys == a.rewards.Keys
    && (forall other | other in a.rewards && other != invoice :: b.rewards[other] == a.rewards[other])
    && (invoice in a.rewards ==>
          && b.rewards[invoice].amount == a.rewards[invoice].amount
          && b.rewards[invoice].status == (match a.rewards[invoice].status
                                           case Owed => Void
                                           case Settled => RecoveryDue
                                           case Void => Void
                                           case RecoveryDue => RecoveryDue))
  }

  lemma RefundTakesBack(a: Account, k: nat)
    requires Inv(a) && k < |a.charges|
    ensures TakenBack(a, RefundCharge(a, k), k) && RefundCharge(a, k).row == a.row && RefundCharge(a, k).allocations == a.allocations
    ensures RefundCharge(a, k).events == a.events
  {
    hide CreditInv, HistoryInv, ReservedInv, RowInv, RewardFor;
    assert ChargeSound(a, k);
  }

  lemma RecoverCredits(a: Account, payment: nat)
    ensures Credited(a, a.(allocations := Recover(a.allocations, payment)), payment)
  {
    forall i | 0 <= i < |a.allocations|
      ensures Recover(a.allocations, payment)[i]
              == a.allocations[i].(recovery := a.allocations[i].recovery || a.allocations[i].payment == payment)
    {
      assert a.allocations[i] == a.allocations[i].(recovery := a.allocations[i].recovery);
    }
  }

  /** A refund that arrives with an invoice of the subscription takes back the credits of the payment and, when the
      invoice had been charged, the charge and its reward. */
  lemma RefundedInvoiceTakesBack(a: Account, event: nat, invoice: Invoice, payment: Paid, advanced: bool)
    requires Inv(a) && a.row.Some? && a.row.value.provider == Some(invoice.subscription) && payment.refunded
    ensures var (b, reply) := RecordInvoice(a, event, invoice, payment, advanced);
            && reply.Accepted? && Credited(a, b, payment.id) && b.row == a.row
            && (Charged(a.charges, invoice.id) ==>
                  exists k :: 0 <= k < |a.charges| && a.charges[k].invoice == invoice.id && TakenBack(a, b, k))
            && (!Charged(a.charges, invoice.id) ==> b == a.(allocations := b.allocations))
  {
    hide Inv, Recover, RefundCharge, TakenBack, AmountIsValid, EndsDiscount, RewardFor;
    Positions(a, invoice.id, payment.id);
    RecoverKeeps(a, payment.id);
    RecoverCredits(a, payment.id);
    var a1, k := a.(allocations := Recover(a.allocations, payment.id)), ChargeOf(a.charges, invoice.id);
    if k < |a.charges| {
      RefundTakesBack(a1, k);
      TakenBackSame(a, a1, RefundCharge(a1, k), k);
    }
  }

  lemma TakenBackSame(a: Account, a1: Account, b: Account, k: nat)
    requires a1.charges == a.charges && a1.rewards == a.rewards && k < |a.charges| && TakenBack(a1, b, k)
    ensures TakenBack(a, b, k)
  {
  }

  /** A refund that arrives with the payment alone does the same; a payment that was not refunded changes nothing. */
  lemma RefundedPaymentTakesBack(a: Account, event: nat, payment: Paid)
    requires Inv(a)
    ensures var b := ReversePayment(a, event, payment);
            && (!payment.refunded ==> b == a)
            && (payment.refunded ==> Credited(a, b, payment.id) && b.row == a.row)
            && (payment.refunded && PaidFor(a.charges, payment.id) ==>
                  && b.events == a.events + {event}
                  && exists k :: 0 <= k < |a.charges| && a.charges[k].payment == payment.id && TakenBack(a, b, k))
            && (payment.refunded && !PaidFor(a.charges, payment.id) ==> b == a.(allocations := b.allocations))
  {
    hide Inv, Recover, RefundCharge, TakenBack;
    Positions(a, 0, payment.id);
    RecoverKeeps(a, payment.id);
    RecoverCredits(a, payment.id);
    var a1, k := a.(allocations := Recover(a.allocations, payment.id)), ChargeOfPayment(a.charges, payment.id);
    if k < |a.charges| {
      var a2 := a1.(events := a.events + {event});
      EventsKeep(a1, a.events + {event});
      RefundTakesBack(a2, k);
      TakenBackSame(a, a2, RefundCharge(a2, k), k);
    }
  }

  /** A reward is settled exactly once, while it is owed, and only to an influencer. */
  lemma SettledWhen(a: Account, invoice: nat)
    ensures var (b, reply) := SettleReward(a, invoice);
            && (reply.Accepted? <==> a.terms.Some? && a.terms.value.influencer && invoice in a.rewards && a.rewards[invoice].status == Owed)
            && (reply.Accepted? ==> b == a.(rewards := a.rewards[invoice := Reward(a.rewards[invoice].amount, Settled)])
                                    && SettleReward(b, invoice) == (b, Conflict))
            && (!reply.Accepted? ==> b == a && reply == Conflict)
  {
  }

  // ---------------------------------------------------------------------------
  // Checkout
  // ---------------------------------------------------------------------------

  /** The price of a branch without and with the discount of the next charge. */
  function FullPrice(a: Account, fallback: int): int {
    match a.catalog.price
    case Some(price) => price
    case None => fallback
  }

  predicate DiscountRuns(a: Account) {
    a.terms.Some? && |a.charges| < a.terms.value.discountCharges
  }

  function NextPrice(a: Account, full: int): int {
    if DiscountRuns(a) then Money.RoundHalfUp(full, 10000 - a.terms.value.discountBps) else full
  }

  lemma NextPriceIsUnit(a: Account, full: int)
    requires ValidTerms(a.terms) && full >= 0
    ensures UnitFor(a, full) == NextPrice(a, full)
  {
    hide Money.Split, Money.RoundHalfUp;
    if DiscountRuns(a) { Money.SplitIsExact(full, 10000 - a.terms.value.discountBps); }
  }

  predicate Orderable(a: Account, fallback: int) {
    && a.shop.active && a.shop.branches >= 1 && fallback >= 1
    && FullPrice(a, fallback) <= 9007199254740991 / a.shop.branches && NextPrice(a, FullPrice(a, fallback)) >= 1
  }

  /** A checkout is reserved exactly for an open brand with branches, at a price in range, while it has no subscription
      that is not cancelled; an open reservation or the same request is answered with what there is. */
  lemma ReservedWhen(a: Account, reference: nat, fallback: int, at: int)
    requires Inv(a)
    ensures var (b, reply) := Reserve(a, reference, fallback, at);
            && (reply.Accepted? <==> && Orderable(a, fallback)
                                     && (a.row.None? || (a.row.value.state == Cancelled && a.row.value.reference != reference)))
            && (reply.Existing? <==> && Orderable(a, fallback) && a.row.Some?
                                     && (a.row.value.state == Creating || a.row.value.reference == reference))
            && (reply.Forbidden? <==> !a.shop.active)
            && (reply.Invalid? <==> a.shop.active && !Orderable(a, fallback))
            && (!reply.Accepted? ==> b == a)
  {
    hide LedgerInv, CreditInv, HistoryInv, ReservedInv, UnitFor, NextPrice;
    if a.shop.branches >= 1 && fallback >= 1 { NextPriceIsUnit(a, FullPrice(a, fallback)); }
  }

  /** The reservation is for the branches there are, at the price of the catalogue before the one of the program, with
      the discount while it runs, and nothing was asked of the provider yet. */
  lemma ReservationSays(a: Account, reference: nat, fallback: int, at: int)
    requires Inv(a) && Reserve(a, reference, fallback, at).1.Accepted?
    ensures var b := Reserve(a, reference, fallback, at).0;
            var full := FullPrice(a, fallback);
            && b.row == Some(Row(reference, None, Creating, NextPrice(a, full), full, a.shop.branches,
                                 NextPrice(a, full) * a.shop.branches, false, at))
            && b == a.(row := b.row, trace := b.trace) && b.trace.providers == a.trace.providers
  {
    hide LedgerInv, CreditInv, HistoryInv, ReservedInv, UnitFor, NextPrice;
    NextPriceIsUnit(a, FullPrice(a, fallback));
  }

  /** The row is this reservation, waiting for the provider. */
  predicate Waiting(a: Account, reference: nat) {
    a.row.Some? && a.row.value.reference == reference && a.row.value.state == Creating
  }

  /** The request to the provider is claimed by exactly one caller of a waiting reservation. */
  lemma ClaimedWhen(a: Account, reference: nat)
    ensures var (b, reply) := ClaimCall(a, reference);
            && (reply.Accepted? <==> Waiting(a, reference) && !a.row.value.called)
            && (reply.Accepted? ==> Waiting(b, reference) && b.row.value == a.row.value.(called := true) && !ClaimCall(b, reference).1.Accepted?)
            && (!reply.Accepted? ==> b == a)
  {
  }

  /** What the provider created is stored exactly in the reservation that was claimed for it. */
  lemma SavedWhen(a: Account, reference: nat, provider: nat, state: State)
    ensures var (b, reply) := SaveCheckout(a, reference, provider, state);
            && (reply.Accepted? <==> Waiting(a, reference) && a.row.value.called)
            && (reply.Accepted? ==> && b.row == Some(a.row.value.(provider := Some(provider), state := state))
                                    && b == a.(row := b.row, trace := b.trace))
            && (!reply.Accepted? ==> b == a && reply == Conflict)
  {
  }

  /** A rejected reservation is released, unless the provider had answered it. */
  lemma RejectedWhen(a: Account, reference: nat)
    ensures var b := RejectCheckout(a, reference);
            if Waiting(a, reference) && a.row.value.provider.None? then b == a.(row := Some(a.row.value.(state := Cancelled))) else b == a
  {
  }

  /** What a report of the provider is worth: it is believed unless the subscription was cancelled or its brand closed. */
  function Believed(a: Account, row: Row, state: State): State {
    if row.state == Cancelled || !a.shop.active then Cancelled else state
  }

  /** A new notification reaches the row of its reference that has this provider id, or that is claimed and has none yet;
      then the row takes the id and the state. */
  lemma NotifiedWhen(a: Account, event: nat, reference: nat, provider: nat, state: State)
    ensures var (b, reply) := Webhook(a, event, reference, provider, state);
            && (reply.Existing? <==> event in a.events)
            && (reply.Accepted? <==> && event !in a.events && a.row.Some? && a.row.value.reference == reference
                                     && (a.row.value.provider == Some(provider)
                                         || (a.row.value.provider.None? && a.row.value.state == Creating && a.row.value.called)))
            && (reply.Accepted? ==> && b.row == Some(a.row.value.(provider := Some(provider), state := Believed(a, a.row.value, state)))
                                    && b.events == a.events + {event} && b == a.(row := b.row, events := b.events, trace := b.trace))
            && (!reply.Accepted? ==> b == a)
            && (reply.Accepted? || reply.Existing? || reply.NotFound?)
  {
  }

  /** A readback reaches the row with this reference and provider id. */
  lemma ReadBackWhen(a: Account, reference: nat, provider: nat, state: State)
    ensures var (b, reply) := Readback(a, reference, provider, state);
            && (reply.Accepted? <==> a.row.Some? && a.row.value.reference == reference && a.row.value.provider == Some(provider))
            && (reply.Accepted? ==> b == a.(row := Some(a.row.value.(state := Believed(a, a.row.value, state)))))
            && (!reply.Accepted? ==> b == a && reply == NotFound)
  {
  }

  /** From the order to the first payment: reserved, claimed, created and reported as authorized, the subscription is
      live under the provider's id, and the first invoice over its monthly amount is charged. */
  lemma CheckoutGoesThrough(a: Account, reference: nat, fallback: int, provider: nat, event: nat, invoice: nat, payment: nat)
    requires Inv(a) && Reserve(a, reference, fallback, a.now).1.Accepted? && event !in a.events && provider !in a.trace.providers
    requires !Charged(a.charges, invoice) && !PaidFor(a.charges, payment)
    ensures var reserved := Reserve(a, reference, fallback, a.now).0;
            var claimed := ClaimCall(reserved, reference);
            var saved := SaveCheckout(claimed.0, reference, provider, Pending);
            var live := Webhook(saved.0, event, reference, provider, Authorized);
            && claimed.1.Accepted? && saved.1.Accepted? && live.1.Accepted?
            && live.0.row.Some? && live.0.row.value.state == Authorized && live.0.row.value.provider == Some(provider)
            && live.0.row.value.monthly == NextPrice(a, FullPrice(a, fallback)) * a.shop.branches
            && var amount := live.0.row.value.monthly;
               (!LastDiscounted(live.0, live.0.row.value) ==>
                  RecordInvoice(live.0, event, Invoice(invoice, provider, amount, None), Paid(payment, true, amount, false), false).0.charges
                  == a.charges + [Charge(invoice, payment, amount, |a.charges| + 1, false)])
  {
    hide Inv, Reserve, ClaimCall, SaveCheckout, Webhook, RecordInvoice, LastDiscounted, NextPrice, RewardFor;
    ReservationSays(a, reference, fallback, a.now);
    ReservedWhen(a, reference, fallback, a.now);
    ReserveKeeps(a, reference, fallback, a.now);
    var reserved := Reserve(a, reference, fallback, a.now).0;
    ClaimedWhen(reserved, reference);
    BillingLaws.ClaimKeeps(reserved, reference);
    var claimed := ClaimCall(reserved, reference).0;
    ClaimWritesRow(reserved, reference);
    SavedWhen(claimed, reference, provider, Pending);
    BillingLaws.SaveKeeps(claimed, reference, provider, Pending);
    var saved := SaveCheckout(claimed, reference, provider, Pending).0;
    NotifiedWhen(saved, event, reference, provider, Authorized);
    WebhookKeeps(saved, event, reference, provider, Authorized);
    var live := Webhook(saved, event, reference, provider, Authorized).0;
    MonthlyIsPositive(live);
    var i, p := Invoice(invoice, provider, live.row.value.monthly, None), Paid(payment, true, live.row.value.monthly, false);
    ChargedWhen(live, event, i, p, false);
    if !LastDiscounted(live, live.row.value) { ChargeWrites(live, event, i, p, false); }
  }

  lemma ClaimWritesRow(a: Account, reference: nat)
    ensures var b := ClaimCall(a, reference).0; b == a.(row := b.row, trace := b.trace) && b.trace.providers == a.trace.providers
  {
  }

  lemma MonthlyIsPositive(a: Account)
    requires Inv(a) && a.row.Some?
    ensures a.row.value.monthly >= 1
  {
    hide LedgerInv, CreditInv, HistoryInv, ReservedInv, PriceRight;
    assert a.row.value.unit * a.row.value.count >= 1 by { PositiveProduct(a.row.value.unit, a.row.value.count); }
  }

  lemma PositiveProduct(x: int, y: int)
    requires x >= 1 && y >= 1
    ensures x * y >= 1
  {
  }

  // ---------------------------------------------------------------------------
  // Cancelling and closing
  // ---------------------------------------------------------------------------

  /** A subscription is cancelled exactly for an owner of an open brand without a branch operation: a live one when the
      provider confirmed it, a cancelled one as it is, a reservation not at all. */
  lemma CancelledWhen(a: Account, member: Member, confirmed: bool)
    ensures var (b, reply) := Cancel(a, member, confirmed);
            && (reply.Accepted? <==> && member == Owner && a.shop.active && !a.shop.pending && a.row.Some?
                                     && (a.row.value.state == Cancelled || (a.row.value.state != Creating && confirmed)))
            && (reply.Accepted? ==> b == a.(row := Some(a.row.value.(state := Cancelled))))
            && (!reply.Accepted? ==> b == a)
            && (reply.Forbidden? <==> a.shop.active && member == Staff)
            && (reply.InProgress? ==> a.shop.pending || (a.row.Some? && a.row.value.state == Creating))
            && (reply.ProviderFailed? ==> !confirmed)
  {
  }

  predicate Subscribed(a: Account) {
    a.row.Some? && a.row.value.state != Cancelled
  }

  /** Branches are added and removed by hand exactly while the brand has no subscription; the main branch and the last one
      stay. A brand is deleted exactly then too. */
  lemma BranchesChangeWhen(a: Account, primary: bool)
    ensures CreateBranch(a) == (if a.shop.active && !Subscribed(a) then a.(shop := a.shop.(branches := a.shop.branches + 1)) else a)
    ensures DeleteBranch(a, primary)
            == (if !Subscribed(a) && !primary && a.shop.branches >= 2 then a.(shop := a.shop.(branches := a.shop.branches - 1)) else a)
    ensures DeleteBrand(a) == (if Subscribed(a) then a else a.(shop := a.shop.(active := false, branches := 0)))
  {
  }

  /** Deleting an account closes its brand and cancels the subscription, unless a reservation is open. */
  lemma AccountClosesWhen(a: Account)
    requires Inv(a)
    ensures var b := CloseAccount(a);
            if Waiting(a, if a.row.Some? then a.row.value.reference else 0) then b == a
            else !b.shop.active && b.shop.branches == 0 && !Subscribed(b) && b.charges == a.charges && b.rewards == a.rewards && b.history == a.history
  {
    hide LedgerInv, CreditInv, HistoryInv, ReservedInv, PriceRight;
  }

  // ---------------------------------------------------------------------------
  // Credits
  // ---------------------------------------------------------------------------

  /** A credit is recorded exactly for a finance user, under a free key and settlement, over a whole approved payment of
      the subscription's own invoice, within what the brand earned and what is left of the payment. */
  lemma CreditedWhen(a: Account, c: Credit)
    ensures var (b, reply) := Allocate(a, c);
            && (reply.Accepted? <==>
                  && c.finance && c.amount >= 1
                  && c.invoicePayment == c.payment.id && c.payment.approved && !c.payment.refunded && c.payment.amount == c.invoice.amount
                  && (forall i | 0 <= i < |a.allocations| :: a.allocations[i].key != c.key && a.allocations[i].settlement != c.settlement)
                  && a.row.Some? && a.row.value.provider == Some(c.invoice.subscription)
                  && AllocatedInAll(a.allocations) + c.amount <= c.accrued
                  && AllocatedTo(a.allocations, c.payment.id) + c.amount <= c.payment.amount)
            && (reply.Accepted? ==> b == a.(allocations := a.allocations
                  + [Allocation(c.key, c.invoice.id, c.payment.id, c.amount, c.settlement, false)]))
            && (!reply.Accepted? ==> b == a)
  {
    hide AllocatedInAll, AllocatedTo;
    var k := AllocationOf(a.allocations, c.key);
    if k < |a.allocations| { assert a.allocations[k].key == c.key; }
    if i :| 0 <= i < |a.allocations| && a.allocations[i].settlement == c.settlement { assert Settles(a.allocations, c.settlement); }
  }

  // ---------------------------------------------------------------------------
  // Prices
  // ---------------------------------------------------------------------------

  predicate InRange(amount: int) {
    1 <= amount <= 9007199254740991
  }

  /** A subscription the provider knows and did not end. */
  predicate Running(s: State) {
    s == Pending || s == Authorized || s == Paused
  }

  /** An existing subscription the change is also for. */
  predicate Affected(a: Account, change: PriceChange) {
    change.includeExisting && a.shop.active && a.row.Some? && a.row.value.provider.Some? && Running(a.row.value.state)
  }

  /** A price change is made exactly for prices in range, under a new key, over the version it was made for, when no
      affected subscription would get too large; it raises the version and leaves one pending item for an affected one. */
  lemma PriceChangedWhen(a: Account, key: nat, change: PriceChange, fallback: int)
    ensures var (b, reply) := ChangePrice(a, key, change, fallback);
            && (reply.Accepted? <==>
                  && InRange(change.amount) && InRange(fallback) && key !in a.catalog.changes && change.previousVersion == a.catalog.version
                  && (Affected(a, change) ==> a.row.value.count <= 9007199254740991 / change.amount))
            && (reply.Accepted? ==>
                  && b.catalog.price == Some(change.amount) && b.catalog.version == a.catalog.version + 1
                  && b.catalog.changes == a.catalog.changes[key := change]
                  && b.catalog.items == a.catalog.items + (if Affected(a, change) then [Item(b.catalog.version, change.amount,
                       a.row.value.provider.value, a.row.value.reference, ItemPending)] else [])
                  && b == a.(catalog := b.catalog))
            && (!reply.Accepted? ==> b == a)
  {
  }

  /** The item is the newest change and still for the subscription the brand has. */
  predicate Current(a: Account, item: Item) {
    && item.version == a.catalog.version && a.shop.active && a.row.Some? && Running(a.row.value.state)
    && a.row.value.provider == Some(item.provider) && a.row.value.reference == item.reference
  }

  predicate Affords(a: Account, item: Item) {
    a.row.Some? && a.row.value.count >= 1 && item.amount <= 9007199254740991 / a.row.value.count && NextPrice(a, item.amount) >= 1
  }

  /** How a pending item ends when no branch operation is under way: skipped when it is no longer current, failed when its
      amount is out of range or the provider did not take it, and otherwise applied. */
  lemma ItemEnds(a: Account, k: nat, updated: bool)
    requires Inv(a) && k < |a.catalog.items| && a.catalog.items[k].status == ItemPending && !a.shop.pending
    ensures var b, item := ApplyPrice(a, k, updated).0, a.catalog.items[k];
            && |b.catalog.items| == |a.catalog.items| && (forall j | 0 <= j < |a.catalog.items| && j != k :: b.catalog.items[j] == a.catalog.items[j])
            && b.catalog.items[k] == item.(status := b.catalog.items[k].status)
            && (b.catalog.items[k].status == Skipped <==> !Current(a, item))
            && (b.catalog.items[k].status == Applied <==>
                  Current(a, item) && Affords(a, item)
                  && (updated || (a.row.value.full == item.amount && a.row.value.unit == NextPrice(a, item.amount))))
            && (b.catalog.items[k].status == ItemFailed <==> b.catalog.items[k].status != Skipped && b.catalog.items[k].status != Applied)
            && (b.catalog.items[k].status != Applied ==> b.row == a.row && b.history == a.history)
  {
    hide LedgerInv, CreditInv, HistoryInv, ReservedInv, UnitFor, NextPrice;
    ItemIsPositive(a, k);
    NextPriceIsUnit(a, a.catalog.items[k].amount);
  }

  /** An item that waits for a branch operation, or is not pending, is left alone. */
  lemma ItemWaits(a: Account, k: nat, updated: bool)
    requires k >= |a.catalog.items| || a.catalog.items[k].status != ItemPending || a.shop.pending
    ensures ApplyPrice(a, k, updated) == (a, NotFound)
  {
  }

  /** An applied item leaves the subscription at its price, with the discount while it runs, and invoices over the old
      amount that were issued before are still charged. */
  lemma AppliedPriceHolds(a: Account, k: nat, updated: bool, id: nat, at: int)
    requires Inv(a) && k < |a.catalog.items| && a.catalog.items[k].status == ItemPending
    requires ApplyPrice(a, k, updated).0.catalog.items[k].status == Applied
    ensures a.row.Some? && a.row.value.provider.Some?
    ensures var b, item := ApplyPrice(a, k, updated).0, a.catalog.items[k];
            && b.row.Some? && b.row.value.full == item.amount && b.row.value.unit == NextPrice(a, item.amount)
            && b.row.value.monthly == b.row.value.unit * b.row.value.count && b.row.value.count == a.row.value.count
            && b.row.value.state == a.row.value.state && b.row.value.provider == a.row.value.provider
            && (a.row.value.validFrom <= at < a.now ==>
                  Fits(b, b.row.value, Invoice(id, a.row.value.provider.value, a.row.value.monthly, Some(at))))
  {
    hide LedgerInv, CreditInv, ReservedInv, UnitFor, NextPrice, CurrentFollows, PricesChained, QuantitiesApart;
    ItemIsPositive(a, k);
    NextPriceIsUnit(a, a.catalog.items[k].amount);
    var b := ApplyPrice(a, k, updated).0;
    if b.history.prices != a.history.prices { LastWindow(a, b, at); }
  }

  lemma LastWindow(a: Account, b: Account, at: int)
    requires a.row.Some? && a.row.value.provider.Some? && a.row.value.monthly == a.row.value.unit * a.row.value.count
    requires b.history.prices == a.history.prices + [Window(a.row.value.provider.value, a.row.value.validFrom, a.now,
        a.row.value.unit, a.row.value.full, a.row.value.count)]
    ensures a.row.value.validFrom <= at < a.now ==> WasMonthly(b.history.prices, a.row.value.provider.value, at, a.row.value.monthly)
  {
    var w := b.history.prices[|a.history.prices|];
    assert w.unit * w.branches == a.row.value.monthly;
  }

  /** A retry makes exactly the failed items of the change pending again, and is a conflict without one. */
  lemma RetriedWhen(a: Account, version: nat)
    ensures var (b, reply) := RetryPrices(a, version);
            && (reply.Accepted? <==> exists i :: 0 <= i < |a.catalog.items| && a.catalog.items[i].version == version
                                                 && a.catalog.items[i].status == ItemFailed)
            && (!reply.Accepted? ==> b == a && reply == Conflict)
            && |b.catalog.items| == |a.catalog.items|
            && (forall i | 0 <= i < |a.catalog.items| ::
                  b.catalog.items[i] == if a.catalog.items[i].version == version && a.catalog.items[i].status == ItemFailed
                                        then a.catalog.items[i].(status := ItemPending) else a.catalog.items[i])
            && b == a.(catalog := a.catalog.(items := b.catalog.items))
  {
    if i :| 0 <= i < |a.catalog.items| && a.catalog.items[i].version == version && a.catalog.items[i].status == ItemFailed {
      assert Retried(a.catalog.items[i], version);
    }
  }

  /** A branch that was added leaves invoices over the old amount valid that were issued before it and after the last
      price or branch change. */
  lemma ActivationKeepsOldInvoices(a: Account, at: int, id: nat, issued: int)
    requires Inv(a) && ActivateBranch(a, at).1.Accepted?
    ensures a.row.Some? && a.row.value.provider.Some?
    ensures |ActivateBranch(a, at).0.history.quantities| == |a.history.quantities| + 1
    ensures var b := ActivateBranch(a, at).0;
            && b.row.Some? && b.row.value.count == a.row.value.count + 1 == b.shop.branches && b.row.value.unit == a.row.value.unit
            && b.row.value.monthly == a.row.value.monthly + a.row.value.unit
            && (a.row.value.validFrom <= issued < at && (forall i | 0 <= i < |a.history.quantities| :: a.history.quantities[i].until <= issued) ==>
                  Fits(b, b.row.value, Invoice(id, a.row.value.provider.value, a.row.value.monthly, Some(issued))))
            && var w := b.history.quantities[|a.history.quantities|];
               && b.history.quantities == a.history.quantities + [w] && w.until == at && w.from >= a.row.value.validFrom
               && (forall i | 0 <= i < |a.history.quantities| :: a.history.quantities[i].until <= w.from)
               && (w.from == a.row.value.validFrom || exists i :: 0 <= i < |a.history.quantities| && a.history.quantities[i].until == w.from)
  {
    hide LedgerInv, CreditInv, ReservedInv, UnitFor, PricesChained, CurrentFollows;
    var b := ActivateBranch(a, at).0;
    var w := b.history.quantities[|a.history.quantities|];
    assert w.unit * w.branches == a.row.value.monthly;
  }
}
