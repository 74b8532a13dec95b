/** The billing transactions on the rows of one brand. Each method is one transaction and is proved to
    leave and answer what module Billing says. */
module BillingRepository {
  import opened Common
  import B = Billing
  import Money

  class Repository {
    const terms: Option<B.Terms>
    var shop: B.Shop
    var row: Option<B.Row>
    var charges: seq<B.Charge>
    var rewards: map<nat, B.Reward>
    var allocations: seq<B.Allocation>
    var prices: seq<B.Window>
    var quantities: seq<B.Window>
    var catalog: B.Catalog
    var events: set<nat>
    var now: int
    ghost var trace: B.Trace

    constructor (terms: Option<B.Terms>, now: int)
      ensures Account() == B.NewBrand(terms, now)
    {
      this.terms, this.now, shop, row := terms, now, B.Shop(true, 1, false), None;
      charges, rewards, allocations, prices, quantities := [], map[], [], [], [];
      catalog, events, trace := B.Catalog(None, 0, [], map[]), {}, B.Trace(multiset{}, multiset{}, {}, map[]);
    }

    ghost function Account(): B.Account
      reads this
    {
      B.Account(terms, shop, row, charges, rewards, allocations, B.History(prices, quantities), catalog, events, trace, now)
    }

    /** The price of a branch for the next charge, from the attribution and the number of charges. */
    method PriceFor(full: int) returns (unit: int)
      ensures unit == B.UnitFor(Account(), full)
    {
      if terms.None? {
        return full;
      }
      var remaining := terms.value.discountCharges - |charges|;
      if remaining <= 0 {
        return full;
      }
      return B.Discounted(full, terms.value.discountBps);
    }

    method ReserveSubscriptionCheckout(reference: nat, fallback: int, at: int) returns (reply: B.Reply)
      modifies this`row, this`trace
      ensures (Account(), reply) == B.Reserve(old(Account()), reference, fallback, at)
    {
      hide B.UnitFor;
      if !shop.active {
        return B.Forbidden;
      }
      if shop.branches < 1 || fallback < 1 {
        return B.Invalid;
      }
      var full := fallback;
      if catalog.price.Some? {
        full := catalog.price.value;
      }
      if full > B.MAX_AMOUNT / shop.branches {
        return B.Invalid;
      }
      var unit := PriceFor(full);
      if unit < 1 {
        return B.Invalid;
      }
      if row.Some? {
        if row.value.state.Creating? || row.value.reference == reference {
          return B.Existing;
        }
        if !row.value.state.Cancelled? {
          return B.Conflict;
        }
      }
      row := Some(B.Row(reference, None, B.Creating, unit, full, shop.branches, unit * shop.branches, false, at));
      trace := trace.(reserved := trace.reserved + multiset{reference});
      return B.Accepted;
    }

    method ClaimSubscriptionProviderCall(reference: nat) returns (claimed: bool)
      modifies this`row, this`trace
      ensures (Account(), if claimed then B.Accepted else B.InProgress) == B.ClaimCall(old(Account()), reference)
    {
      claimed := row.Some? && row.value.reference == reference && row.value.state.Creating? && !row.value.called;
      if claimed {
        row := Some(row.value.(called := true));
        trace := trace.(claimed := trace.claimed + multiset{reference});
      }
    }

    method SaveSubscriptionCheckout(reference: nat, provider: nat, state: B.State) returns (reply: B.Reply)
      modifies this`row, this`trace
      ensures (Account(), reply) == B.SaveCheckout(old(Account()), reference, provider, state)
    {
      if row.None? || row.value.reference != reference || !row.value.state.Creating? || !row.value.called {
        return B.Conflict;
      }
      row := Some(row.value.(provider := Some(provider), state := state));
      trace := trace.(providers := trace.providers + {provider});
      return B.Accepted;
    }

    method RejectSubscriptionCheckout(reference: nat)
      modifies this`row
      ensures Account() == B.RejectCheckout(old(Account()), reference)
    {
      if row.Some? && row.value.reference == reference && row.value.state.Creating? && row.value.provider.None? {
        row := Some(row.value.(state := B.Cancelled));
      }
    }

    method RecordSubscriptionWebhook(event: nat, reference: nat, provider: nat, state: B.State) returns (reply: B.Reply)
      modifies this`row, this`events, this`trace
      ensures (Account(), reply) == B.Webhook(old(Account()), event, reference, provider, state)
    {
      if event in events {
        return B.Existing;
      }
      if row.None? || row.value.reference != reference {
        return B.NotFound;
      }
      var r := row.value;
      if r.provider != Some(provider) && !(r.state.Creating? && r.provider.None? && r.called) {
        return B.NotFound;
      }
      var next := B.Cancelled;
      if !r.state.Cancelled? && shop.active {
        next := state;
      }
      row := Some(r.(provider := if r.provider.Some? then r.provider else Some(provider), state := next));
      events := events + {event};
      trace := trace.(providers := trace.providers + {provider});
      return B.Accepted;
    }

    method UpdateSubscriptionFromProvider(reference: nat, provider: nat, state: B.State) returns (reply: B.Reply)
      modifies this`row
      ensures (Account(), reply) == B.Readback(old(Account()), reference, provider, state)
    {
      if row.None? || row.value.reference != reference || row.value.provider != Some(provider) {
        return B.NotFound;
      }
      var next := if !row.value.state.Cancelled? && shop.active then state else B.Cancelled;
      row := Some(row.value.(state := next));
      return B.Accepted;
    }

    method CancelSubscription(member: B.Member, confirmed: bool) returns (reply: B.Reply)
      modifies this`row
      ensures (Account(), reply) == B.Cancel(old(Account()), member, confirmed)
    {
      if member.Outsider? || !shop.active {
        return B.NotFound;
      }
      if member.Staff? {
        return B.Forbidden;
      }
      if shop.pending {
        return B.InProgress;
      }
      if row.None? {
        return B.NotFound;
      }
      match row.value.state {
        case Cancelled => return B.Accepted;
        case Creating => return B.InProgress;
        case _ =>
      }
      if !confirmed {
        return B.ProviderFailed;
      }
      row := Some(row.value.(state := B.Cancelled));
      return B.Accepted;
    }

    /** The writes of COMPLETED: history, branch, quantity and amount. */
    method ActivateBranch(at: int) returns (reply: B.Reply)
      modifies this`row, this`shop, this`quantities
      ensures (Account(), reply) == B.ActivateBranch(old(Account()), at)
    {
      if !shop.pending || !shop.active || row.None? {
        return B.Conflict;
      }
      var r := row.value;
      if !r.state.Authorized? || r.provider.None? || r.unit < 0 || r.count < 1 || r.count != shop.branches || r.monthly != r.unit * r.count {
        return B.Conflict;
      }
      var from := r.validFrom;
      if quantities != [] {
        var last := LatestEnd();
        from := if last >= from then last else from;
      }
      quantities := quantities + [B.Window(r.provider.value, from, at, r.unit, r.full, r.count)];
      shop := shop.(branches := shop.branches + 1, pending := false);
      row := Some(r.(count := r.count + 1, monthly := r.monthly + r.unit));
      return B.Accepted;
    }

    method LatestEnd() returns (m: int)
      requires quantities != []
      ensures m == B.LastEnd(quantities)
    {
      m := quantities[0].until;
      assert quantities[..1] == [quantities[0]];
      for i := 1 to |quantities|
        invariant m == B.LastEnd(quantities[..i])
      {
        assert quantities[..i + 1][..i] == quantities[..i];
        if quantities[i].until > m {
          m := quantities[i].until;
        }
      }
      assert quantities[..|quantities|] == quantities;
    }

    /** Marks the credits of a payment as due back. */
    method RecoverCredits(payment: nat)
      modifies this`allocations
      ensures allocations == B.Recover(old(allocations), payment)
    {
      for i := 0 to |allocations|
        invariant |allocations| == |old(allocations)|
        invariant forall k | 0 <= k < i :: allocations[k] == if old(allocations)[k].payment == payment then
            old(allocations)[k].(recovery := true) else old(allocations)[k]
        invariant forall k | i <= k < |allocations| :: allocations[k] == old(allocations)[k]
      {
        if allocations[i].payment == payment {
          allocations := allocations[i := allocations[i].(recovery := true)];
        }
      }
      assert allocations == B.Recover(old(allocations), payment);
    }

    method RefundCharge(k: nat)
      requires k < |charges|
      modifies this`charges, this`rewards
      ensures Account() == B.RefundCharge(old(Account()), k)
    {
      if charges[k].refunded {
        return;
      }
      var invoice := charges[k].invoice;
      charges := charges[k := charges[k].(refunded := true)];
      if invoice in rewards {
        if rewards[invoice].status.Settled? {
          rewards := rewards[invoice := rewards[invoice].(status := B.RecoveryDue)];
        } else if rewards[invoice].status.Owed? {
          rewards := rewards[invoice := rewards[invoice].(status := B.Void)];
        }
      }
    }

    method CheckAmount(r: B.Row, invoice: B.Invoice) returns (valid: bool)
      ensures valid == B.AmountIsValid(Account(), r, invoice)
    {
      var unit := PriceFor(r.full);
      if invoice.amount == unit * r.count {
        return true;
      }
      if invoice.created.None? {
        return false;
      }
      valid := FindWindow(prices, invoice.subscription, invoice.created.value, invoice.amount);
      if !valid {
        valid := FindWindow(quantities, invoice.subscription, invoice.created.value, invoice.amount);
      }
    }

    method RewardOf(amount: int, index: int) returns (reward: int)
      ensures reward == B.RewardFor(Account(), amount, index)
    {
      if terms.None? || amount < 1 || index < 1 || index > terms.value.rewardCharges || terms.value.rewardBps < 1 {
        return 0;
      }
      return Money.Split(amount, terms.value.rewardBps);
    }

    method RecordReferralInvoice(event: nat, invoice: B.Invoice, payment: B.Paid, advanced: bool) returns (reply: B.Reply)
      modifies this`row, this`charges, this`rewards, this`allocations, this`events
      ensures (Account(), reply) == B.RecordInvoice(old(Account()), event, invoice, payment, advanced)
    {
      hide B.AmountIsValid, B.UnitFor, B.RefundCharge, B.Recover, B.RewardFor;
      if row.None? || row.value.provider != Some(invoice.subscription) {
        return B.NotFound;
      }
      var r := row.value;
      if payment.refunded {
        RecoverCredits(payment.id);
      }
      var k := B.ChargeOf(charges, invoice.id);
      if k < |charges| {
        if payment.refunded {
          RefundCharge(k);
        }
        return B.Accepted;
      }
      if payment.refunded || !payment.approved || payment.amount < 1 {
        return B.Accepted;
      }
      var valid := CheckAmount(r, invoice);
      if invoice.amount != payment.amount || !valid {
        return B.Mismatch;
      }
      var index := |charges| + 1;
      var unit := PriceFor(r.full);
      var ends := terms.Some? && index == terms.value.discountCharges && unit != r.full;
      if ends && shop.pending {
        return B.InProgress;
      }
      if ends && !advanced {
        return B.ProviderFailed;
      }
      if B.ChargeOfPayment(charges, payment.id) < |charges| {
        return B.Conflict;
      }
      var reward := RewardOf(payment.amount, index);
      if ends {
        row := Some(r.(unit := r.full, monthly := r.full * r.count));
      }
      charges := charges + [B.Charge(invoice.id, payment.id, payment.amount, index, false)];
      if reward > 0 {
        rewards := rewards[invoice.id := B.Reward(reward, B.Owed)];
      }
      events := events + {event};
      return B.Accepted;
    }

    method ReverseReferralPayment(event: nat, payment: B.Paid)
      modifies this`charges, this`rewards, this`allocations, this`events
      ensures Account() == B.ReversePayment(old(Account()), event, payment)
    {
      hide B.RefundCharge, B.Recover;
      if !payment.refunded {
        return;
      }
      RecoverCredits(payment.id);
      var k := B.ChargeOfPayment(charges, payment.id);
      if k < |charges| {
        events := events + {event};
        RefundCharge(k);
      }
    }

    method SettleReferralReward(invoice: nat) returns (reply: B.Reply)
      modifies this`rewards
      ensures (Account(), reply) == B.SettleReward(old(Account()), invoice)
    {
      if terms.None? || !terms.value.influencer || invoice !in rewards || !rewards[invoice].status.Owed? {
        return B.Conflict;
      }
      rewards := rewards[invoice := rewards[invoice].(status := B.Settled)];
      return B.Accepted;
    }

    /** What was allocated in all and to one payment. */
    method SumAllocations(payment: nat) returns (total: int, ofPayment: int)
      ensures total == B.AllocatedInAll(allocations) && ofPayment == B.AllocatedTo(allocations, payment)
    {
      total, ofPayment := 0, 0;
      for i := 0 to |allocations|
        invariant total == B.AllocatedInAll(allocations[..i]) && ofPayment == B.AllocatedTo(allocations[..i], payment)
      {
        assert allocations[..i + 1][..i] == allocations[..i];
        var x := allocations[i];
        total := total + x.amount;
        if x.payment == payment {
          ofPayment := ofPayment + x.amount;
        }
      }
      assert allocations[..|allocations|] == allocations;
    }

    method RecordMerchantCreditAllocation(c: B.Credit) returns (reply: B.Reply)
      modifies this`allocations
      ensures (Account(), reply) == B.Allocate(old(Account()), c)
    {
      if c.amount < 1 || c.invoicePayment != c.payment.id || !c.payment.approved || c.payment.refunded
         || c.payment.amount != c.invoice.amount {
        return B.Invalid;
      }
      if !c.finance {
        return B.Forbidden;
      }
      var k := B.AllocationOf(allocations, c.key);
      if k < |allocations| {
        var x := allocations[k];
        return if x.invoice != c.invoice.id || x.payment != c.payment.id || x.amount != c.amount || x.settlement != c.settlement
          then B.Conflict else B.Existing;
      }
      if row.None? || row.value.provider != Some(c.invoice.subscription) {
        return B.NotFound;
      }
      var total, ofPayment := SumAllocations(c.payment.id);
      if c.amount > c.accrued - total || c.amount > c.payment.amount - ofPayment {
        return B.Insufficient;
      }
      var settled := exists i :: 0 <= i < |allocations| && allocations[i].settlement == c.settlement;
      if settled {
        return B.Conflict;
      }
      allocations := allocations + [B.Allocation(c.key, c.invoice.id, c.payment.id, c.amount, c.settlement, false)];
      return B.Accepted;
    }

    method ChangeSubscriptionPrice(key: nat, change: B.PriceChange, fallback: int) returns (reply: B.Reply)
      modifies this`catalog
      ensures (Account(), reply) == B.ChangePrice(old(Account()), key, change, fallback)
    {
      var amount := change.amount;
      if amount < 1 || amount > B.MAX_AMOUNT || fallback < 1 || fallback > B.MAX_AMOUNT || change.previousVersion < 0 {
        return B.Invalid;
      }
      if key in catalog.changes {
        return if catalog.changes[key] != change then B.Conflict else B.Existing;
      }
      if catalog.version != change.previousVersion {
        return B.Conflict;
      }
      var items := catalog.items;
      if change.includeExisting && shop.active && row.Some? && B.Live(row.value.state) && row.value.provider.Some? {
        if row.value.count > B.MAX_AMOUNT / amount {
          return B.Invalid;
        }
        items := items + [B.Item(catalog.version + 1, amount, row.value.provider.value, row.value.reference, B.ItemPending)];
      }
      assert catalog.items + [] == catalog.items;
      catalog := B.Catalog(Some(amount), catalog.version + 1, items, catalog.changes[key := change]);
      return B.Accepted;
    }

    method FinishItem(k: nat, status: B.ItemStatus)
      requires k < |catalog.items|
      modifies this`catalog
      ensures Account() == B.Marked(old(Account()), k, status)
    {
      catalog := catalog.(items := catalog.items[k := catalog.items[k].(status := status)]);
    }

    method ApplySubscriptionPriceChange(k: nat, updated: bool) returns (reply: B.Reply)
      modifies this`row, this`prices, this`catalog
      ensures (Account(), reply) == B.ApplyPrice(old(Account()), k, updated)
    {
      hide B.UnitFor;
      if k >= |catalog.items| || !catalog.items[k].status.ItemPending? || shop.pending {
        return B.NotFound;
      }
      var item := catalog.items[k];
      if catalog.version != item.version || row.None? || !shop.active || row.value.provider != Some(item.provider)
         || row.value.reference != item.reference || !B.Live(row.value.state) {
        FinishItem(k, B.Skipped);
        return B.Accepted;
      }
      var r := row.value;
      var unit := PriceFor(item.amount);
      if r.count < 1 || item.amount > B.MAX_AMOUNT / r.count || unit < 1 {
        FinishItem(k, B.ItemFailed);
        return B.Accepted;
      }
      if r.unit == unit && r.full == item.amount {
        FinishItem(k, B.Applied);
        return B.Accepted;
      }
      if !updated {
        FinishItem(k, B.ItemFailed);
        return B.ProviderFailed;
      }
      prices := prices + [B.Window(item.provider, r.validFrom, now, r.unit, r.full, r.count)];
      row := Some(r.(unit := unit, full := item.amount, monthly := unit * r.count, validFrom := now));
      FinishItem(k, B.Applied);
      return B.Accepted;
    }

    method RetrySubscriptionPriceChange(version: nat) returns (reply: B.Reply)
      modifies this`catalog
      ensures (Account(), reply) == B.RetryPrices(old(Account()), version)
    {
      var items, affected := catalog.items, 0;
      for i := 0 to |items|
        invariant |items| == |catalog.items|
        invariant forall k | 0 <= k < i :: items[k] == if B.Retried(catalog.items[k], version)
                                                       then catalog.items[k].(status := B.ItemPending) else catalog.items[k]
        invariant forall k | i <= k < |items| :: items[k] == catalog.items[k]
        invariant affected >= 0 && (affected > 0 <==> exists k :: 0 <= k < i && B.Retried(catalog.items[k], version))
      {
        if items[i].version == version && items[i].status.ItemFailed? {
          items := items[i := items[i].(status := B.ItemPending)];
          affected := affected + 1;
          assert B.Retried(catalog.items[i], version);
        }
      }
      if affected == 0 {
        return B.Conflict;
      }
      assert items == B.RetryPrices(Account(), version).0.catalog.items;
      catalog := catalog.(items := items);
      return B.Accepted;
    }
  }

  /** The lookup of an old price by date and amount. */
  method FindWindow(ws: seq<B.Window>, provider: nat, at: int, amount: int) returns (found: bool)
    ensures found == B.WasPriced(ws, provider, at, amount)
  {
    for i := 0 to |ws|
      invariant forall k | 0 <= k < i :: !(ws[k].provider == provider && B.InWindow(ws[k], at) && ws[k].unit * ws[k].branches == amount)
    {
      if ws[i].provider == provider && B.InWindow(ws[i], at) && ws[i].unit * ws[i].branches == amount {
        return true;
      }
    }
    return false;
  }
}
