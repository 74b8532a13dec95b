/** What every run of the billing transactions keeps. */
module BillingLaws {
  import opened Common
  import opened Billing
  import Money

  // ---------------------------------------------------------------------------
  // The subscription row
  // ---------------------------------------------------------------------------

  /** The monthly amount is price times quantity; while the row is not cancelled the quantity is the number
      of branches; a reservation has no provider id yet and a live subscription has one. */
  predicate RowSound(a: Account, row: Row) {
    && row.count >= 1 && row.unit >= 1 && row.full >= 1 && row.monthly == row.unit * row.count
    && (!row.state.Cancelled? ==> row.count == a.shop.branches && a.shop.active)
    && (row.state.Creating? ==> row.provider.None?)
    && (Live(row.state) ==> row.provider.Some?)
    && (row.provider.Some? ==> row.called)
  }

  /** The price of a branch is the discounted one exactly while discounted charges are left. */
  predicate PriceRight(a: Account, row: Row) {
    row.unit == UnitFor(a, row.full)
  }

  predicate RowInv(a: Account) {
    && ValidTerms(a.terms) && a.shop.branches >= 0
    && (a.catalog.price.Some? ==> a.catalog.price.value >= 1)
    && (a.row.Some? ==> RowSound(a, a.row.value) && PriceRight(a, a.row.value))
    && (forall i | 0 <= i < |a.catalog.items| :: a.catalog.items[i].amount >= 1)
  }

  // ---------------------------------------------------------------------------
  // The charge ledger
  // ---------------------------------------------------------------------------

  /** A charge has the reward its amount and number give, owed or settled while the charge stands, void or
      due back once it was refunded. */
  predicate ChargeSound(a: Account, i: nat)
    requires i < |a.charges|
  {
    var c := a.charges[i];
    && c.index == i + 1 && c.amount >= 1
    && (c.invoice in a.rewards <==> RewardFor(a, c.amount, c.index) > 0)
    && (c.invoice in a.rewards ==>
          && a.rewards[c.invoice].amount == RewardFor(a, c.amount, c.index)
          && (c.refunded <==> a.rewards[c.invoice].status.Void? || a.rewards[c.invoice].status.RecoveryDue?))
  }

  predicate LedgerInv(a: Account) {
    && (forall i | 0 <= i < |a.charges| :: ChargeSound(a, i))
    && (forall i, j | 0 <= i < j < |a.charges| ::
        a.charges[i].invoice != a.charges[j].invoice && a.charges[i].payment != a.charges[j].payment)
    && (forall invoice | invoice in a.rewards :: ChargeOf(a.charges, invoice) < |a.charges|)
  }

  // ---------------------------------------------------------------------------
  // Credits
  // ---------------------------------------------------------------------------

  predicate CreditInv(a: Account) {
    && (forall i | 0 <= i < |a.allocations| :: a.allocations[i].amount >= 1 && a.allocations[i].payment in a.trace.paid)
    && (forall payment | payment in a.trace.paid && AllocatedTo(a.allocations, payment) > 0 ::
          AllocatedTo(a.allocations, payment) <= a.trace.paid[payment])
  }

  // ---------------------------------------------------------------------------
  // Histories
  // ---------------------------------------------------------------------------

  predicate QuantitiesApart(ws: seq<Window>) {
    forall i, j | 0 <= i < j < |ws| :: ws[i].until <= ws[j].from
  }

  /** The price windows of a subscription stand next to each other and leave no gap. */
  predicate PricesChained(ws: seq<Window>) {
    && (forall i | 0 <= i < |ws| :: ws[i].from <= ws[i].until)
    && (forall i | 0 < i < |ws| && ws[i - 1].provider == ws[i].provider :: ws[i - 1].until == ws[i].from)
    && (forall i, j, k | 0 <= i < j < k < |ws| && ws[i].provider == ws[k].provider :: ws[j].provider == ws[k].provider)
  }

  /** The last window of the current subscription ends where the current price starts. */
  predicate CurrentFollows(a: Account) {
    a.row.Some? && a.row.value.provider.Some? ==>
      forall i | 0 <= i < |a.history.prices| && a.history.prices[i].provider == a.row.value.provider.value ::
        a.history.prices[|a.history.prices| - 1].provider == a.row.value.provider.value
        && a.history.prices[|a.history.prices| - 1].until == a.row.value.validFrom
  }

  predicate HistoryInv(a: Account) {
    && QuantitiesApart(a.history.quantities) && PricesChained(a.history.prices) && CurrentFollows(a)
    && (a.row.Some? ==> a.row.value.validFrom <= a.now)
    && (forall i | 0 <= i < |a.history.prices| :: a.history.prices[i].provider in a.trace.providers)
    && (a.row.Some? && a.row.value.provider.Some? ==> a.row.value.provider.value in a.trace.providers)
  }

  // ---------------------------------------------------------------------------
  // Reservations
  // ---------------------------------------------------------------------------

  /** Each reservation is claimed at most once. */
  predicate ReservedInv(a: Account) {
    && a.trace.claimed <= a.trace.reserved
    && (a.row.Some? && !a.row.value.called ==> a.trace.claimed[a.row.value.reference] < a.trace.reserved[a.row.value.reference])
  }

  predicate Inv(a: Account) {
    RowInv(a) && LedgerInv(a) && CreditInv(a) && HistoryInv(a) && ReservedInv(a)
  }

  // ---------------------------------------------------------------------------
  // Frames
  // ---------------------------------------------------------------------------

  lemma SameLedger(a: Account, b: Account)
    requires b.charges == a.charges && b.rewards == a.rewards && b.terms == a.terms
    ensures LedgerInv(a) ==> LedgerInv(b)
  {
    forall i | 0 <= i < |a.charges| ensures ChargeSound(a, i) == ChargeSound(b, i) {}
  }

  lemma SameCredit(a: Account, b: Account)
    requires b.allocations == a.allocations && b.trace.paid == a.trace.paid
    ensures CreditInv(a) ==> CreditInv(b)
  {
  }

  lemma SameReserved(a: Account, b: Account)
    requires b.trace.reserved == a.trace.reserved && b.trace.claimed == a.trace.claimed
    requires b.row.Some? && !b.row.value.called ==> a.row.Some? && !a.row.value.called && a.row.value.reference == b.row.value.reference
    ensures ReservedInv(a) ==> ReservedInv(b)
  {
  }

  lemma SameHistory(a: Account, b: Account)
    requires b.history == a.history && b.trace.providers == a.trace.providers && b.now >= a.now
    requires b.row.Some? ==> a.row.Some? && b.row.value.provider == a.row.value.provider && b.row.value.validFrom == a.row.value.validFrom
    ensures HistoryInv(a) ==> HistoryInv(b)
  {
  }

  // ---------------------------------------------------------------------------
  // Checkout keeps the invariant
  // ---------------------------------------------------------------------------

  lemma ReserveKeeps(a: Account, reference: nat, fallback: int, at: int)
    requires Inv(a) && at <= a.now
    ensures Inv(Reserve(a, reference, fallback, at).0)
  {
    hide LedgerInv, CreditInv, Discounted;
    var b := Reserve(a, reference, fallback, at).0;
    SameLedger(a, b);
    SameCredit(a, b);
  }

  lemma ClaimKeeps(a: Account, reference: nat)
    requires Inv(a)
    ensures Inv(ClaimCall(a, reference).0)
  {
    hide LedgerInv, CreditInv, HistoryInv, Discounted;
    var b := ClaimCall(a, reference).0;
    SameLedger(a, b);
    SameCredit(a, b);
    SameHistory(a, b);
  }

  lemma SaveKeeps(a: Account, reference: nat, provider: nat, state: State)
    requires Inv(a) && !state.Creating? && provider !in a.trace.providers
    ensures Inv(SaveCheckout(a, reference, provider, state).0)
  {
    hide LedgerInv, CreditInv, ReservedInv, Discounted, PricesChained, QuantitiesApart;
    var b := SaveCheckout(a, reference, provider, state).0;
    SameLedger(a, b);
    SameCredit(a, b);
    SameReserved(a, b);
  }

  lemma WebhookKeeps(a: Account, event: nat, reference: nat, provider: nat, state: State)
    requires Inv(a) && !state.Creating?
    requires provider !in a.trace.providers || (a.row.Some? && a.row.value.provider == Some(provider))
    ensures Inv(Webhook(a, event, reference, provider, state).0)
  {
    hide LedgerInv, CreditInv, ReservedInv, Discounted, PricesChained, QuantitiesApart;
    var b := Webhook(a, event, reference, provider, state).0;
    SameLedger(a, b);
    SameCredit(a, b);
    SameReserved(a, b);
  }

  /** Changes of the state alone. */
  lemma StateKeeps(a: Account, state: State, shop: Shop)
    requires Inv(a) && a.row.Some? && !state.Creating? && shop.branches >= 0
    requires Live(state) ==> a.row.value.provider.Some? && !a.row.value.state.Cancelled? && shop == a.shop
    ensures Inv(a.(row := Some(a.row.value.(state := state)), shop := shop))
  {
    hide LedgerInv, CreditInv, HistoryInv, ReservedInv, Discounted;
    var b := a.(row := Some(a.row.value.(state := state)), shop := shop);
    SameLedger(a, b);
    SameCredit(a, b);
    SameReserved(a, b);
    SameHistory(a, b);
  }

  lemma ShopKeeps(a: Account, shop: Shop)
    requires Inv(a) && shop.branches >= 0 && (!NoActiveSubscription(a) ==> shop.branches == a.shop.branches && shop.active == a.shop.active)
    ensures Inv(a.(shop := shop))
  {
    hide LedgerInv, CreditInv, HistoryInv, ReservedInv, Discounted;
    var b := a.(shop := shop);
    SameLedger(a, b);
    SameCredit(a, b);
    SameReserved(a, b);
    SameHistory(a, b);
  }

  lemma ActivateKeeps(a: Account, at: int)
    requires Inv(a)
    ensures Inv(ActivateBranch(a, at).0)
  {
    hide LedgerInv, CreditInv, ReservedInv, Discounted, PricesChained;
    var b := ActivateBranch(a, at).0;
    SameLedger(a, b);
    SameCredit(a, b);
    SameReserved(a, b);
    if b != a {
      var row := a.row.value;
      assert row.unit * (row.count + 1) == row.unit * row.count + row.unit;
      var ws := b.history.quantities;
      forall i, j | 0 <= i < j < |ws| ensures ws[i].until <= ws[j].from {
        if j < |ws| - 1 { assert a.history.quantities[i].until <= a.history.quantities[j].from; }
      }
    }
  }

  // ---------------------------------------------------------------------------
  // Charges keep the invariant
  // ---------------------------------------------------------------------------

  lemma AllocatedRecovers(allocations: seq<Allocation>, payment: nat, p: nat)
    ensures AllocatedTo(Recover(allocations, payment), p) == AllocatedTo(allocations, p)
    decreases |allocations|
  {
    if allocations != [] {
      AllocatedRecovers(allocations[..|allocations| - 1], payment, p);
      assert Recover(allocations, payment)[..|allocations| - 1] == Recover(allocations[..|allocations| - 1], payment);
    }
  }

  lemma RecoverKeeps(a: Account, payment: nat)
    requires Inv(a)
    ensures Inv(a.(allocations := Recover(a.allocations, payment)))
  {
    hide LedgerInv, HistoryInv, ReservedInv, RowInv;
    var b := a.(allocations := Recover(a.allocations, payment));
    SameLedger(a, b);
    SameReserved(a, b);
    SameHistory(a, b);
    SameRow(a, b);
    forall p | p in b.trace.paid && AllocatedTo(b.allocations, p) > 0 ensures AllocatedTo(b.allocations, p) <= b.trace.paid[p] {
      AllocatedRecovers(a.allocations, payment, p);
    }
  }

  lemma SameRow(a: Account, b: Account)
    requires b.row == a.row && b.terms == a.terms && b.shop == a.shop && b.catalog == a.catalog && |b.charges| == |a.charges|
    ensures RowInv(a) ==> RowInv(b)
  {
    hide Discounted;
  }

  lemma {:induction false} ChargeOfSame(charges: seq<Charge>, other: seq<Charge>, invoice: nat)
    requires |other| == |charges| && forall i | 0 <= i < |charges| :: other[i].invoice == charges[i].invoice
    ensures ChargeOf(other, invoice) == ChargeOf(charges, invoice)
  {
    if charges != [] && charges[0].invoice != invoice { ChargeOfSame(charges[1..], other[1..], invoice); }
  }

  lemma RefundKeeps(a: Account, k: nat)
    requires Inv(a) && k < |a.charges|
    ensures Inv(RefundCharge(a, k))
  {
    hide CreditInv, HistoryInv, ReservedInv, RowInv, RewardFor;
    var b := RefundCharge(a, k);
    SameCredit(a, b);
    SameReserved(a, b);
    SameHistory(a, b);
    SameRow(a, b);
    assert ChargeSound(a, k);
    forall i | 0 <= i < |b.charges| ensures ChargeSound(b, i) {
      assert ChargeSound(a, i);
      SameRewardFor(a, b, a.charges[i].amount, a.charges[i].index);
    }
    forall invoice | invoice in b.rewards ensures ChargeOf(b.charges, invoice) < |b.charges| {
      ChargeOfSame(a.charges, b.charges, invoice);
    }
  }

  lemma SameRewardFor(a: Account, b: Account, amount: int, index: int)
    requires a.terms == b.terms
    ensures RewardFor(a, amount, index) == RewardFor(b, amount, index)
  {
  }

  lemma {:induction false} ChargeOfMore(charges: seq<Charge>, c: Charge, invoice: nat)
    ensures ChargeOf(charges + [c], invoice)
            == if ChargeOf(charges, invoice) < |charges| then ChargeOf(charges, invoice)
               else if c.invoice == invoice then |charges| else |charges| + 1
  {
    if charges == [] {
      assert charges + [c] == [c];
    } else if charges[0].invoice != invoice {
      ChargeOfMore(charges[1..], c, invoice);
      assert (charges + [c])[1..] == charges[1..] + [c];
    }
  }

  /** A recorded charge: the ledger after it. */
  lemma ChargeKeeps(a: Account, b: Account, c: Charge)
    requires LedgerInv(a) && ValidTerms(a.terms) && b.terms == a.terms
    requires b.charges == a.charges + [c] && c.index == |a.charges| + 1 && c.amount >= 1 && !c.refunded
    requires ChargeOf(a.charges, c.invoice) == |a.charges| && ChargeOfPayment(a.charges, c.payment) == |a.charges|
    requires b.rewards == if RewardFor(a, c.amount, c.index) > 0 then a.rewards[c.invoice := Reward(RewardFor(a,
        c.amount, c.index), Owed)] else a.rewards
    ensures LedgerInv(b)
  {
    hide RewardFor;
    assert c.invoice !in a.rewards;
    forall i | 0 <= i < |b.charges| ensures ChargeSound(b, i) {
      SameRewardFor(a, b, b.charges[i].amount, b.charges[i].index);
      if i < |a.charges| { assert ChargeSound(a, i); }
    }
    forall invoice | invoice in b.rewards ensures ChargeOf(b.charges, invoice) < |b.charges| {
      ChargeOfMore(a.charges, c, invoice);
    }
  }

  /** The row after a recorded charge: the price changes exactly with the last discounted one. */
  lemma PriceKeeps(a: Account, b: Account, row: Row)
    requires RowInv(a) && a.row == Some(row) && |b.charges| == |a.charges| + 1
    requires b.terms == a.terms && b.shop == a.shop && b.catalog == a.catalog
    requires b.row == if EndsDiscount(a, row, |a.charges| + 1) then Some(row.(unit := row.full, monthly := row.full * row.count)) else a.row
    ensures RowInv(b)
  {
    hide Discounted;
  }

  lemma RecordKeeps(a: Account, event: nat, invoice: Invoice, payment: Paid, advanced: bool)
    requires Inv(a)
    ensures Inv(RecordInvoice(a, event, invoice, payment, advanced).0)
  {
    hide Inv, AmountIsValid, RefundCharge, RewardFor, EndsDiscount;
    var b := RecordInvoice(a, event, invoice, payment, advanced).0;
    RecoverKeeps(a, payment.id);
    var k := ChargeOf(a.charges, invoice.id);
    if a.row.Some? && a.row.value.provider == Some(invoice.subscription) {
      if k < |a.charges| {
        RefundKeeps(a.(allocations := Recover(a.allocations, payment.id)), k);
      } else if |b.charges| > |a.charges| {
        ChargedKeeps(a, b, Charge(invoice.id, payment.id, payment.amount, |a.charges| + 1, false));
      }
    }
  }

  lemma ChargedKeeps(a: Account, b: Account, c: Charge)
    requires Inv(a) && a.row.Some? && b.charges == a.charges + [c] && c.index == |a.charges| + 1 && c.amount >= 1 && !c.refunded
    requires ChargeOf(a.charges, c.invoice) == |a.charges| && ChargeOfPayment(a.charges, c.payment) == |a.charges|
    requires b == a.(charges := b.charges, events := b.events,
                     rewards := if RewardFor(a, c.amount, c.index) > 0 then a.rewards[c.invoice := Reward(RewardFor(a,
                         c.amount, c.index), Owed)] else a.rewards,
                     row := if EndsDiscount(a, a.row.value, c.index) then Some(a.row.value.(unit := a.row.value.full,
                         monthly := a.row.value.full * a.row.value.count))
                            else a.row)
    ensures Inv(b)
  {
    hide LedgerInv, CreditInv, HistoryInv, ReservedInv, RewardFor, EndsDiscount, Discounted;
    ChargeKeeps(a, b, c);
    PriceKeeps(a, b, a.row.value);
    SameCredit(a, b);
    SameReserved(a, b);
    SameHistory(a, b);
  }

  lemma ReverseKeeps(a: Account, event: nat, payment: Paid)
    requires Inv(a)
    ensures Inv(ReversePayment(a, event, payment))
  {
    hide Inv, RefundCharge;
    RecoverKeeps(a, payment.id);
    var k, a1 := ChargeOfPayment(a.charges, payment.id), a.(allocations := Recover(a.allocations, payment.id));
    if k < |a.charges| {
      EventsKeep(a1, a.events + {event});
      RefundKeeps(a1.(events := a.events + {event}), k);
    }
  }

  lemma EventsKeep(a: Account, events: set<nat>)
    requires Inv(a)
    ensures Inv(a.(events := events))
  {
    hide Discounted;
    var b := a.(events := events);
    SameLedger(a, b);
  }

  lemma SettleKeeps(a: Account, invoice: nat)
    requires Inv(a)
    ensures Inv(SettleReward(a, invoice).0)
  {
    hide CreditInv, HistoryInv, ReservedInv, RowInv, RewardFor;
    var b := SettleReward(a, invoice).0;
    SameCredit(a, b);
    SameReserved(a, b);
    SameHistory(a, b);
    SameRow(a, b);
    forall i | 0 <= i < |b.charges| ensures ChargeSound(b, i) {
      assert ChargeSound(a, i);
      SameRewardFor(a, b, a.charges[i].amount, a.charges[i].index);
    }
  }

  lemma AllocateKeeps(a: Account, c: Credit)
    requires Inv(a) && (c.payment.id in a.trace.paid ==> a.trace.paid[c.payment.id] == c.payment.amount)
    ensures Inv(Act(a, DoAllocate(c)))
  {
    hide LedgerInv, HistoryInv, ReservedInv, RowInv, AllocationOf, AllocatedInAll, AllocatedTo;
    var b := Act(a, DoAllocate(c));
    SameLedger(a, b);
    SameReserved(a, b);
    SameHistory(a, b);
    SameRow(a, b);
    var x := Allocation(c.key, c.invoice.id, c.payment.id, c.amount, c.settlement, false);
    forall p | p in b.trace.paid && AllocatedTo(b.allocations, p) > 0 ensures AllocatedTo(b.allocations, p) <= b.trace.paid[p] {
      AllocatedMore(a.allocations, x, p);
      if p !in a.trace.paid { NothingUnpaid(a, p); }
    }
  }

  lemma AllocatedMore(allocations: seq<Allocation>, x: Allocation, payment: nat)
    ensures AllocatedTo(allocations + [x], payment) == AllocatedTo(allocations, payment) + (if x.payment == payment then x.amount else 0)
  {
    assert (allocations + [x])[..|allocations|] == allocations;
  }

  /** Nothing was allocated to a payment nobody looked at. */
  lemma NothingUnpaid(a: Account, payment: nat)
    requires CreditInv(a) && payment !in a.trace.paid
    ensures AllocatedTo(a.allocations, payment) == 0
  {
    NothingAllocated(a.allocations, payment);
  }

  lemma {:induction false} NothingAllocated(allocations: seq<Allocation>, payment: nat)
    requires forall i | 0 <= i < |allocations| :: allocations[i].payment != payment
    ensures AllocatedTo(allocations, payment) == 0
  {
    if allocations != [] { NothingAllocated(allocations[..|allocations| - 1], payment); }
  }

  // ---------------------------------------------------------------------------
  // Prices keep the invariant
  // ---------------------------------------------------------------------------

  /** Changes of the catalogue alone. */
  lemma CatalogKeeps(a: Account, catalog: Catalog)
    requires Inv(a) && (catalog.price.Some? ==> catalog.price.value >= 1)
    requires forall i | 0 <= i < |catalog.items| :: catalog.items[i].amount >= 1
    ensures Inv(a.(catalog := catalog))
  {
    hide LedgerInv, CreditInv, HistoryInv, ReservedInv, Discounted;
    var b := a.(catalog := catalog);
    SameLedger(a, b);
    SameCredit(a, b);
    SameReserved(a, b);
    SameHistory(a, b);
  }

  lemma MarkKeeps(a: Account, k: nat, status: ItemStatus)
    requires Inv(a) && k < |a.catalog.items|
    ensures Inv(Marked(a, k, status))
  {
    hide LedgerInv, CreditInv, HistoryInv, ReservedInv, Discounted;
    CatalogKeeps(a, Marked(a, k, status).catalog);
  }

  lemma ChangeKeeps(a: Account, key: nat, change: PriceChange, fallback: int)
    requires Inv(a)
    ensures Inv(ChangePrice(a, key, change, fallback).0)
  {
    hide LedgerInv, CreditInv, HistoryInv, ReservedInv, Discounted;
    var b := ChangePrice(a, key, change, fallback).0;
    if b != a {
      CatalogKeeps(a, b.catalog);
      assert a.(catalog := b.catalog) == b;
    }
  }

  lemma RetryKeeps(a: Account, version: nat)
    requires Inv(a)
    ensures Inv(RetryPrices(a, version).0)
  {
    hide LedgerInv, CreditInv, HistoryInv, ReservedInv, Discounted;
    CatalogKeeps(a, RetryPrices(a, version).0.catalog);
  }

  lemma ChainMore(ws: seq<Window>, w: Window)
    requires PricesChained(ws) && w.from <= w.until
    requires forall i | 0 <= i < |ws| && ws[i].provider == w.provider :: ws[|ws| - 1].provider == w.provider && ws[|ws| - 1].until == w.from
    ensures PricesChained(ws + [w])
  {
    var more := ws + [w];
    forall i, j, k | 0 <= i < j < k < |more| && more[i].provider == more[k].provider ensures more[j].provider == more[k].provider {
      if k < |ws| { assert ws[i].provider == ws[k].provider; } else if j < |ws| - 1 { assert ws[i].provider == ws[|ws| - 1].provider; }
    }
  }

  /** A repriced subscription: the old price becomes a window that ends where the new one starts. */
  lemma RepricedKeeps(a: Account, row: Row, unit: int, amount: int)
    requires Inv(a) && a.row == Some(row) && row.provider.Some? && amount >= 1 && unit == UnitFor(a, amount) >= 1
    ensures var b := a.(row := Some(row.(unit := unit, full := amount, monthly := unit * row.count, validFrom := a.now)),
                        history := a.history.(prices := a.history.prices
                                                        + [Window(row.provider.value, row.validFrom, a.now, row.unit,
                                                            row.full, row.count)]));
            Inv(b)
  {
    hide LedgerInv, CreditInv, ReservedInv, Discounted, PricesChained, QuantitiesApart;
    var w := Window(row.provider.value, row.validFrom, a.now, row.unit, row.full, row.count);
    var b := a.(row := Some(row.(unit := unit, full := amount, monthly := unit * row.count, validFrom := a.now)),
                history := a.history.(prices := a.history.prices + [w]));
    ChainMore(a.history.prices, w);
    SameLedger(a, b);
    SameCredit(a, b);
    SameReserved(a, b);
  }

  lemma ApplyKeeps(a: Account, k: nat, updated: bool)
    requires Inv(a)
    ensures Inv(ApplyPrice(a, k, updated).0)
  {
    hide Inv, UnitFor;
    if k < |a.catalog.items| {
      MarkKeeps(a, k, Skipped);
      MarkKeeps(a, k, ItemFailed);
      MarkKeeps(a, k, Applied);
      ItemIsPositive(a, k);
      var m := Marked(a, k, Applied);
      SameUnit(a, m, a.catalog.items[k].amount);
      if a.row.Some? && a.row.value.provider.Some? && UnitFor(a, a.catalog.items[k].amount) >= 1 {
        RepricedKeeps(m, a.row.value, UnitFor(a, a.catalog.items[k].amount), a.catalog.items[k].amount);
      }
    }
  }

  lemma ItemIsPositive(a: Account, k: nat)
    requires Inv(a) && k < |a.catalog.items|
    ensures a.catalog.items[k].amount >= 1
  {
    hide LedgerInv, CreditInv, HistoryInv, ReservedInv;
  }

  lemma SameUnit(a: Account, b: Account, full: int)
    requires a.terms == b.terms && |a.charges| == |b.charges|
    ensures UnitFor(a, full) == UnitFor(b, full)
  {
  }

  // ---------------------------------------------------------------------------
  // Runs
  // ---------------------------------------------------------------------------

  lemma TickKeeps(a: Account, seconds: nat)
    requires Inv(a)
    ensures Inv(a.(now := a.now + seconds))
  {
    hide Discounted;
    var b := a.(now := a.now + seconds);
    SameLedger(a, b);
    SameHistory(a, b);
  }

  lemma CloseKeeps(a: Account)
    requires Inv(a)
    ensures Inv(CloseAccount(a)) && Inv(DeleteBrand(a))
  {
    hide Inv;
    if NoActiveSubscription(a) {
      ShopKeeps(a, a.shop.(active := false, branches := 0));
    } else {
      StateKeeps(a, Cancelled, a.shop.(active := false, branches := 0));
    }
  }

  lemma BranchesKeep(a: Account, primary: bool)
    requires Inv(a)
    ensures Inv(CreateBranch(a)) && Inv(DeleteBranch(a, primary))
  {
    hide Inv;
    BranchesExist(a);
    if NoActiveSubscription(a) {
      ShopKeeps(a, a.shop.(branches := a.shop.branches + 1));
      if a.shop.branches > 1 { ShopKeeps(a, a.shop.(branches := a.shop.branches - 1)); }
    }
  }

  lemma BranchesExist(a: Account)
    requires Inv(a)
    ensures a.shop.branches >= 0
  {
    hide LedgerInv, CreditInv, HistoryInv, ReservedInv;
  }

  lemma PendingKeeps(a: Account, pending: bool)
    requires Inv(a)
    ensures Inv(a.(shop := a.shop.(pending := pending)))
  {
    BranchesExist(a);
    hide Inv;
    ShopKeeps(a, a.shop.(pending := pending));
  }

  lemma ReadbackKeeps(a: Account, reference: nat, provider: nat, state: State)
    requires Inv(a) && !state.Creating?
    ensures Inv(Readback(a, reference, provider, state).0) && Inv(RejectCheckout(a, reference))
    ensures forall member, confirmed :: Inv(Cancel(a, member, confirmed).0)
  {
    hide Inv;
    BranchesExist(a);
    if a.row.Some? {
      StateKeeps(a, Cancelled, a.shop);
      if a.row.value.provider == Some(provider) { StateKeeps(a, Reported(a, state), a.shop); }
    }
  }

  lemma StepKeeps(a: Account, c: Choice)
    requires Inv(a)
    ensures Inv(Step(a, c))
  {
    hide Inv, Reserve, ClaimCall, SaveCheckout, RejectCheckout, Webhook, Readback, Cancel, CreateBranch, DeleteBranch, DeleteBrand,
         CloseAccount, ActivateBranch, RecordInvoice, ReversePayment, SettleReward, ChangePrice, RetryPrices, ApplyPrice, Allocate;
    if Plausible(a, c) {
      match c
      case Tick(seconds) => TickKeeps(a, seconds);
      case DoReserve(reference, fallback, at) => ReserveKeeps(a, reference, fallback, at);
      case DoClaim(reference) => ClaimKeeps(a, reference);
      case DoSave(reference, provider, state) => SaveKeeps(a, reference, provider, state);
      case DoReject(reference) => ReadbackKeeps(a, reference, 0, Pending);
      case DoWebhook(event, reference, provider, state) => WebhookKeeps(a, event, reference, provider, state);
      case DoReadback(reference, provider, state) => ReadbackKeeps(a, reference, provider, state);
      case DoCancel(member, confirmed) => ReadbackKeeps(a, 0, 0, Pending);
      case DoCreateBranch => BranchesKeep(a, false);
      case DoDeleteBranch(primary) => BranchesKeep(a, primary);
      case DoDeleteBrand => CloseKeeps(a);
      case DoCloseAccount => CloseKeeps(a);
      case OpenOperation => PendingKeeps(a, true);
      case CloseOperation => PendingKeeps(a, false);
      case DoActivate(at) => ActivateKeeps(a, at);
      case DoRecord(event, invoice, payment, advanced) => RecordKeeps(a, event, invoice, payment, advanced);
      case DoReverse(event, payment) => ReverseKeeps(a, event, payment);
      case DoSettle(invoice) => SettleKeeps(a, invoice);
      case DoAllocate(credit) => AllocateKeeps(a, credit);
      case DoChangePrice(key, change, fallback) => ChangeKeeps(a, key, change, fallback);
      case DoRetryPrices(version) => RetryKeeps(a, version);
      case DoApplyPrice(k, updated) => ApplyKeeps(a, k, updated);
    }
  }

  lemma {:induction false} RunKeeps(terms: Option<Terms>, now: int, cs: seq<Choice>)
    requires ValidTerms(terms)
    ensures Inv(Run(NewBrand(terms, now), cs))
  {
    if cs != [] {
      RunKeeps(terms, now, cs[..|cs| - 1]);
      StepKeeps(Run(NewBrand(terms, now), cs[..|cs| - 1]), cs[|cs| - 1]);
      hide Step, Inv;
    }
  }

  lemma TermsAreFixed(a: Account, c: Choice)
    ensures Step(a, c).terms == a.terms
  {
  }

  lemma {:induction false} RunTerms(a: Account, cs: seq<Choice>)
    ensures Run(a, cs).terms == a.terms
  {
    hide Step;
    if cs != [] {
      RunTerms(a, cs[..|cs| - 1]);
      TermsAreFixed(Run(a, cs[..|cs| - 1]), cs[|cs| - 1]);
    }
  }

  lemma RefundAddsNone(a: Account, k: nat)
    ensures k < |a.charges| ==> |RefundCharge(a, k).charges| == |a.charges|
  {
  }

  /** A notification that arrives again after its charge was recorded changes nothing. */
  lemma RecordedOnce(a: Account, event: nat, invoice: Invoice, payment: Paid, advanced: bool, other: nat, again: bool)
    requires |RecordInvoice(a, event, invoice, payment, advanced).0.charges| > |a.charges|
    ensures var b := RecordInvoice(a, event, invoice, payment, advanced).0;
            RecordInvoice(b, other, invoice, payment, again) == (b, Accepted)
  {
    hide AmountIsValid, RewardFor, EndsDiscount, RefundCharge, Recover, ChargeOf, ChargeOfPayment;
    RefundAddsNone(a.(allocations := Recover(a.allocations, payment.id)), ChargeOf(a.charges, invoice.id));
    ChargeOfMore(a.charges, Charge(invoice.id, payment.id, payment.amount, |a.charges| + 1, false), invoice.id);
  }

  // ---------------------------------------------------------------------------
  // Requests that come again
  // ---------------------------------------------------------------------------

  /** Recorded notifications, price changes and credits stay; of a credit only its recovery changes. */
  predicate Recalls(a: Account, b: Account) {
    && a.events <= b.events
    && (forall key | key in a.catalog.changes :: key in b.catalog.changes && b.catalog.changes[key] == a.catalog.changes[key])
    && |a.allocations| <= |b.allocations|
    && (forall i | 0 <= i < |a.allocations| :: b.allocations[i] == a.allocations[i].(recovery := b.allocations[i].recovery))
  }

  lemma RefundRecalls(a: Account, k: nat)
    requires k < |a.charges|
    ensures RefundCharge(a, k).events == a.events && RefundCharge(a, k).catalog == a.catalog && RefundCharge(a, k).allocations == a.allocations
  {
  }

  lemma ChargesRecall(a: Account, event: nat, invoice: Invoice, payment: Paid, advanced: bool)
    ensures Recalls(a, RecordInvoice(a, event, invoice, payment, advanced).0)
    ensures Recalls(a, ReversePayment(a, event, payment))
  {
    hide RefundCharge, AmountIsValid, RewardFor, EndsDiscount, ChargeOf, ChargeOfPayment;
    var a1 := a.(allocations := Recover(a.allocations, payment.id));
    var k, l := ChargeOf(a.charges, invoice.id), ChargeOfPayment(a.charges, payment.id);
    if k < |a.charges| { RefundRecalls(a1, k); }
    if l < |a.charges| { RefundRecalls(a1.(events := a.events + {event}), l); }
  }

  lemma PricesRecall(a: Account, key: nat, change: PriceChange, fallback: int, version: nat, k: nat, updated: bool)
    ensures Recalls(a, ChangePrice(a, key, change, fallback).0)
    ensures Recalls(a, RetryPrices(a, version).0)
    ensures Recalls(a, ApplyPrice(a, k, updated).0)
  {
    hide UnitFor;
  }

  lemma AllocateRecalls(a: Account, c: Credit)
    ensures Recalls(a, Act(a, DoAllocate(c)))
  {
    hide AllocatedInAll, AllocatedTo, AllocationOf, Settles, Creditable;
  }

  predicate TouchesNotes(c: Choice) {
    c.DoWebhook? || c.DoRecord? || c.DoReverse? || c.DoAllocate? || c.DoChangePrice? || c.DoRetryPrices? || c.DoApplyPrice?
  }

  lemma OthersLeaveNotes(a: Account, c: Choice)
    requires !TouchesNotes(c)
    ensures Act(a, c).events == a.events && Act(a, c).catalog == a.catalog && Act(a, c).allocations == a.allocations
  {
    hide UnitFor, LastEnd;
  }

  lemma SameNotes(a: Account, b: Account)
    requires b.events == a.events && b.catalog == a.catalog && b.allocations == a.allocations
    ensures Recalls(a, b)
  {
  }

  lemma WebhookRecalls(a: Account, event: nat, reference: nat, provider: nat, state: State)
    ensures Recalls(a, Webhook(a, event, reference, provider, state).0)
  {
  }

  lemma StepRecalls(a: Account, c: Choice)
    ensures Recalls(a, Step(a, c))
  {
    hide Recalls, RecordInvoice, ReversePayment, ChangePrice, RetryPrices, ApplyPrice, Webhook, Reserve, ClaimCall, SaveCheckout, RejectCheckout,
         Readback, Cancel, CreateBranch, DeleteBranch, DeleteBrand, CloseAccount, ActivateBranch, SettleReward, Allocate, Plausible;
    SameNotes(a, a);
    if !TouchesNotes(c) {
      OthersLeaveNotes(a, c);
      SameNotes(a, Act(a, c));
    } else {
      match c
      case DoWebhook(event, reference, provider, state) => WebhookRecalls(a, event, reference, provider, state);
      case DoAllocate(credit) => AllocateRecalls(a, credit);
      case DoChangePrice(key, change, fallback) => PricesRecall(a, key, change, fallback, 0, 0, false);
      case DoRetryPrices(version) => PricesRecall(a, 0, PriceChange(0, 0, false), 0, version, 0, false);
      case DoApplyPrice(k, updated) => PricesRecall(a, 0, PriceChange(0, 0, false), 0, 0, k, updated);
      case DoRecord(event, invoice, payment, advanced) => ChargesRecall(a, event, invoice, payment, advanced);
      case DoReverse(event, payment) => ChargesRecall(a, event, Invoice(0, 0, 0, None), payment, false);
    }
  }

  lemma {:induction false} RunRecalls(a: Account, cs: seq<Choice>)
    ensures Recalls(a, Run(a, cs))
  {
    hide Step;
    if cs != [] {
      RunRecalls(a, cs[..|cs| - 1]);
      StepRecalls(Run(a, cs[..|cs| - 1]), cs[|cs| - 1]);
    }
  }

  /** A notification is applied once: whatever happened since, its repetition changes nothing, also when it
      now says something else. */
  lemma NotificationOnce(a: Account, event: nat, reference: nat, provider: nat, state: State, cs: seq<Choice>,
                         otherReference: nat, otherProvider: nat, otherState: State)
    requires Webhook(a, event, reference, provider, state).1.Accepted?
    ensures var b := Run(Webhook(a, event, reference, provider, state).0, cs);
            Webhook(b, event, otherReference, otherProvider, otherState) == (b, Existing)
  {
    hide Run;
    RunRecalls(Webhook(a, event, reference, provider, state).0, cs);
  }

  /** A price change is made once: under its key the same request is known for ever, and any other is refused. */
  lemma PriceChangeOnce(a: Account, key: nat, change: PriceChange, fallback: int, cs: seq<Choice>, other: PriceChange)
    requires ChangePrice(a, key, change, fallback).1.Accepted?
    ensures var b := Run(ChangePrice(a, key, change, fallback).0, cs);
            && ChangePrice(b, key, other, fallback).0 == b && !ChangePrice(b, key, other, fallback).1.Accepted?
            && (ChangePrice(b, key, other, fallback).1.Existing? <==> other == change)
  {
    hide Run;
    RunRecalls(ChangePrice(a, key, change, fallback).0, cs);
  }

  lemma {:induction false} AllocationStays(a: seq<Allocation>, b: seq<Allocation>, key: nat)
    requires |a| <= |b| && forall i | 0 <= i < |a| :: b[i].key == a[i].key
    ensures AllocationOf(a, key) < |a| ==> AllocationOf(b, key) == AllocationOf(a, key)
  {
    if a != [] && a[0].key != key { AllocationStays(a[1..], b[1..], key); }
  }

  lemma {:induction false} AllocationAppended(a: seq<Allocation>, x: Allocation)
    requires AllocationOf(a, x.key) == |a|
    ensures AllocationOf(a + [x], x.key) == |a|
  {
    if a == [] {
      assert a + [x] == [x];
    } else {
      assert a[0].key != x.key;
      AllocationAppended(a[1..], x);
      assert (a + [x])[1..] == a[1..] + [x];
    }
  }

  /** A credit is recorded once: a finance user who repeats the request under its key gets the recorded one,
      whatever happened since, if it is for the same invoice, payment, amount and settlement, and a conflict
      otherwise. */
  lemma CreditOnce(a: Account, c: Credit, cs: seq<Choice>, again: Credit)
    requires Allocate(a, c).1.Accepted? && again.key == c.key && Creditable(again) && again.finance
    ensures var b := Run(Allocate(a, c).0, cs);
            Allocate(b, again) == (b, if again.invoice.id == c.invoice.id && again.payment.id == c.payment.id && again.amount == c.amount
                                         && again.settlement == c.settlement then Existing else Conflict)
  {
    hide Run, AllocatedInAll, AllocatedTo, Settles;
    var a1 := Allocate(a, c).0;
    var b := Run(a1, cs);
    RunRecalls(a1, cs);
    AllocationAppended(a.allocations, Allocation(c.key, c.invoice.id, c.payment.id, c.amount, c.settlement, false));
    forall i | 0 <= i < |a1.allocations| ensures b.allocations[i].key == a1.allocations[i].key {
      assert b.allocations[i] == a1.allocations[i].(recovery := b.allocations[i].recovery);
    }
    AllocationStays(a1.allocations, b.allocations, c.key);
  }

  // ---------------------------------------------------------------------------
  // The promises
  // ---------------------------------------------------------------------------

  /** The billing row over every run of all its writers: the monthly amount is price times quantity, the
      quantity is the number of branches while the subscription is not cancelled, and the price is the
      discounted one exactly while discounted charges are left. */
  lemma RowAlwaysAdds(terms: Option<Terms>, now: int, cs: seq<Choice>)
    requires ValidTerms(terms) && Run(NewBrand(terms, now), cs).row.Some?
    ensures var a := Run(NewBrand(terms, now), cs);
            var row := a.row.value;
            && row.monthly == row.unit * row.count && row.unit >= 1 && row.count >= 1
            && (!row.state.Cancelled? ==> row.count == a.shop.branches)
            && row.unit == (if terms.Some? && |a.charges| < terms.value.discountCharges
                            then Money.RoundHalfUp(row.full, 10000 - terms.value.discountBps) else row.full)
  {
    hide Run, LedgerInv, CreditInv, HistoryInv, ReservedInv, Money.Split;
    RunKeeps(terms, now, cs);
    RunTerms(NewBrand(terms, now), cs);
    var a := Run(NewBrand(terms, now), cs);
    if terms.Some? { Money.SplitIsExact(a.row.value.full, 10000 - terms.value.discountBps); }
  }

  /** Charges are numbered one, two, three without a gap or a repeat, whatever was notified twice or refunded
      since; no invoice and no payment is charged twice; and only the first charges carry a reward. */
  lemma ChargesAreNumbered(terms: Option<Terms>, now: int, cs: seq<Choice>, i: nat, j: nat)
    requires ValidTerms(terms) && i < j < |Run(NewBrand(terms, now), cs).charges|
    ensures var a := Run(NewBrand(terms, now), cs);
            && a.charges[i].index == i + 1 && a.charges[j].index == j + 1
            && a.charges[i].invoice != a.charges[j].invoice && a.charges[i].payment != a.charges[j].payment
            && (a.charges[i].invoice in a.rewards ==> terms.Some? && i < terms.value.rewardCharges)
  {
    hide Run, RowInv, CreditInv, HistoryInv, ReservedInv;
    RunKeeps(terms, now, cs);
    RunTerms(NewBrand(terms, now), cs);
    var a := Run(NewBrand(terms, now), cs);
    assert ChargeSound(a, i) && ChargeSound(a, j);
  }

  /** A charge stands exactly when its reward, if it has one, is owed or settled, and is refunded exactly
      when it is void or due back; the reward is the exact share of the charge. */
  lemma RewardsFollowCharges(terms: Option<Terms>, now: int, cs: seq<Choice>, i: nat)
    requires ValidTerms(terms) && i < |Run(NewBrand(terms, now), cs).charges|
    ensures var a := Run(NewBrand(terms, now), cs);
            var c := a.charges[i];
            c.invoice in a.rewards ==>
              && (!c.refunded <==> a.rewards[c.invoice].status.Owed? || a.rewards[c.invoice].status.Settled?)
              && (c.refunded <==> a.rewards[c.invoice].status.Void? || a.rewards[c.invoice].status.RecoveryDue?)
              && terms.Some? && 0 < a.rewards[c.invoice].amount == Money.RoundHalfUp(c.amount, terms.value.rewardBps) <= c.amount
  {
    hide Run, RowInv, CreditInv, HistoryInv, ReservedInv, Money.Split;
    RunKeeps(terms, now, cs);
    RunTerms(NewBrand(terms, now), cs);
    var a := Run(NewBrand(terms, now), cs);
    assert ChargeSound(a, i);
    if terms.Some? {
      Money.SplitIsExact(a.charges[i].amount, terms.value.rewardBps);
      Money.RoundsBelow(a.charges[i].amount, terms.value.rewardBps);
    }
  }

  /** Credit allocated to a payment never exceeds the payment. */
  lemma CreditWithinPayment(terms: Option<Terms>, now: int, cs: seq<Choice>, payment: nat)
    requires ValidTerms(terms)
    ensures var a := Run(NewBrand(terms, now), cs);
            (AllocatedTo(a.allocations, payment) > 0 ==>
               payment in a.trace.paid && AllocatedTo(a.allocations, payment) <= a.trace.paid[payment])
  {
    hide Run, RowInv, LedgerInv, HistoryInv, ReservedInv;
    RunKeeps(terms, now, cs);
    var a := Run(NewBrand(terms, now), cs);
    if payment !in a.trace.paid { NothingUnpaid(a, payment); }
  }

  lemma {:induction false} ChainedApart(ws: seq<Window>, i: nat, j: nat)
    requires PricesChained(ws) && i < j < |ws| && ws[i].provider == ws[j].provider
    ensures ws[i].until <= ws[j].from
    decreases j
  {
    if i < j - 1 {
      assert ws[j - 1].provider == ws[j].provider;
      ChainedApart(ws, i, j - 1);
    }
  }

  /** A moment lies in at most one price window of a subscription and in at most one quantity window of the
      brand, so an invoice's date selects at most one old price from each table. */
  lemma AtMostOneWindow(terms: Option<Terms>, now: int, cs: seq<Choice>, at: int, i: nat, j: nat)
    requires ValidTerms(terms)
    ensures var h := Run(NewBrand(terms, now), cs).history;
            && ((i < |h.prices| && j < |h.prices| && h.prices[i].provider == h.prices[j].provider
                 && InWindow(h.prices[i], at) && InWindow(h.prices[j], at)) ==> i == j)
            && ((i < |h.quantities| && j < |h.quantities| && InWindow(h.quantities[i], at) && InWindow(h.quantities[j], at)) ==> i == j)
  {
    hide Run, RowInv, LedgerInv, CreditInv, ReservedInv;
    RunKeeps(terms, now, cs);
    var h := Run(NewBrand(terms, now), cs).history;
    if i < |h.prices| && j < |h.prices| && h.prices[i].provider == h.prices[j].provider {
      if i < j { ChainedApart(h.prices, i, j); }
      if j < i { ChainedApart(h.prices, j, i); }
    }
  }

  /** The price windows of a subscription leave no gap, and the current price starts where the last one ends. */
  lemma PricesAreContiguous(terms: Option<Terms>, now: int, cs: seq<Choice>, i: nat)
    requires ValidTerms(terms) && i < |Run(NewBrand(terms, now), cs).history.prices|
    ensures var a := Run(NewBrand(terms, now), cs);
            var ws := a.history.prices;
            && (0 < i && ws[i - 1].provider == ws[i].provider ==> ws[i - 1].until == ws[i].from)
            && (a.row.Some? && a.row.value.provider == Some(ws[i].provider) ==>
                  ws[|ws| - 1].provider == ws[i].provider && ws[|ws| - 1].until == a.row.value.validFrom)
  {
    hide Run, RowInv, LedgerInv, CreditInv, ReservedInv;
    RunKeeps(terms, now, cs);
  }

  /** The request that creates a subscription is sent at most once for each time its reference was reserved:
      with a fresh reference, at most once. A reservation has no provider id, a live subscription has one. */
  lemma ClaimedAtMostOnce(terms: Option<Terms>, now: int, cs: seq<Choice>, reference: nat)
    requires ValidTerms(terms)
    ensures var a := Run(NewBrand(terms, now), cs);
            && a.trace.claimed[reference] <= a.trace.reserved[reference]
            && (a.row.Some? && a.row.value.state.Creating? ==> a.row.value.provider.None?)
            && (a.row.Some? && Live(a.row.value.state) ==> a.row.value.provider.Some?)
  {
    hide Run, LedgerInv, CreditInv, HistoryInv;
    RunKeeps(terms, now, cs);
  }

  /** Nothing but a new reservation brings a cancelled subscription back or changes the provider id of a
      live one; a reservation needs a cancelled row. */
  lemma OnlyReservingRevives(a: Account, c: Choice)
    requires Inv(a) && a.row.Some? && Step(a, c).row.Some?
    ensures var before, after := a.row.value, Step(a, c).row.value;
            && (before.state.Cancelled? && !after.state.Cancelled? ==> c.DoReserve? && after.state.Creating? && after.reference == c.reference)
            && (before.provider.Some? && after.provider != before.provider ==> c.DoReserve? && before.state.Cancelled?)
            && (after.reference != before.reference ==> c.DoReserve? && before.state.Cancelled?)
  {
    hide LedgerInv, CreditInv, HistoryInv, ReservedInv, Discounted, RewardFor, AmountIsValid, LastEnd, Recover, ChargeOf, ChargeOfPayment,
         RefundCharge, EndsDiscount, Allocate, RetryPrices, ChangePrice;
    RefundLeavesRow(a, c);
  }

  lemma RefundLeavesRow(a: Account, c: Choice)
    ensures forall b: Account, k: nat | k < |b.charges| :: RefundCharge(b, k).row == b.row
    ensures c.DoAllocate? ==> Act(a, c).row == a.row
    ensures c.DoChangePrice? ==> Act(a, c).row == a.row
    ensures c.DoRetryPrices? ==> Act(a, c).row == a.row
  {
  }
}
