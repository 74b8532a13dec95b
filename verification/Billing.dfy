/** The subscription of one brand, its charges, rewards, credits and price histories. Every writer
    locks the brand or its subscription row first, so a run is a sequence of whole transactions
    (internal/repository/subscription.go, subscription_prices.go, referral_credit.go, commercial.go,
    branch_cancel.go, account.go, backoffice.go and the activation of branch_reconcile.go). */
module Billing {
  import opened Common
  import Money

  const MAX_AMOUNT: int := 9007199254740991

  // ---------------------------------------------------------------------------
  // Rows
  // ---------------------------------------------------------------------------

  datatype State = Creating | Pending | Authorized | Paused | Cancelled

  /** The subscription row. `called` says that the request to create it at the provider was claimed. */
  datatype Row = Row(reference: nat, provider: Option<nat>, state: State, unit: int, full: int, count: int, monthly: int,
                     called: bool, validFrom: int)

  /** What the referral of the brand promised when the brand was created. */
  datatype Terms = Terms(discountBps: int, discountCharges: int, rewardBps: int, rewardCharges: int, influencer: bool)

  datatype Shop = Shop(active: bool, branches: int, pending: bool)

  datatype Charge = Charge(invoice: nat, payment: nat, amount: int, index: int, refunded: bool)

  datatype RewardStatus = Owed | Settled | Void | RecoveryDue
  datatype Reward = Reward(amount: int, status: RewardStatus)

  /** Credit of this brand that was paid out against one of its own invoices. */
  datatype Allocation = Allocation(key: nat, invoice: nat, payment: nat, amount: int, settlement: nat, recovery: bool)

  /** A price that held from one moment until another, the end excluded. */
  datatype Window = Window(provider: nat, from: int, until: int, unit: int, full: int, branches: int)

  datatype ItemStatus = ItemPending | Applied | Skipped | ItemFailed
  datatype Item = Item(version: nat, amount: int, provider: nat, reference: nat, status: ItemStatus)

  /** What a price change was asked for, under its idempotency key. */
  datatype PriceChange = PriceChange(amount: int, previousVersion: int, includeExisting: bool)

  datatype Catalog = Catalog(price: Option<int>, version: nat, items: seq<Item>, changes: map<nat, PriceChange>)

  datatype History = History(prices: seq<Window>, quantities: seq<Window>)

  /** Never read by a transaction: the references reserved and claimed so far, the provider ids that were
      assigned, and what the provider says each payment was. */
  datatype Trace = Trace(reserved: multiset<nat>, claimed: multiset<nat>, providers: set<nat>, paid: map<nat, int>)

  /** Everything the rows of one brand hold; `events` are the notifications that were recorded. */
  datatype Account = Account(terms: Option<Terms>, shop: Shop, row: Option<Row>, charges: seq<Charge>, rewards: map<nat, Reward>,
                             allocations: seq<Allocation>, history: History, catalog: Catalog, events: set<nat>, trace: Trace, now: int)

  datatype Reply = Accepted | Existing | Forbidden | Invalid | Conflict | NotFound | Insufficient | InProgress | Mismatch | ProviderFailed

  // ---------------------------------------------------------------------------
  // Prices
  // ---------------------------------------------------------------------------

  function Discounted(full: int, bps: int): int {
    Money.Split(full, 10000 - bps)
  }

  /** The price of a branch for the next charge. */
  function UnitFor(a: Account, full: int): int {
    if a.terms.Some? && |a.charges| < a.terms.value.discountCharges then Discounted(full, a.terms.value.discountBps) else full
  }

  predicate Live(s: State) {
    s.Pending? || s.Authorized? || s.Paused?
  }

  predicate NoActiveSubscription(a: Account) {
    a.row.None? || a.row.value.state.Cancelled?
  }

  // ---------------------------------------------------------------------------
  // Checkout
  // ---------------------------------------------------------------------------

  /** ReserveSubscriptionCheckout: the row is committed before the provider is called. `at` is the start
      of the transaction, which may lie before the moment its locks were granted. */
  function Reserve(a: Account, reference: nat, fallback: int, at: int): (Account, Reply) {
    if !a.shop.active then (a, Forbidden)
    else if a.shop.branches < 1 || fallback < 1 then (a, Invalid)
    else
      var full := if a.catalog.price.Some? then a.catalog.price.value else fallback;
      var unit := UnitFor(a, full);
      if full > MAX_AMOUNT / a.shop.branches || unit < 1 then (a, Invalid)
      else if a.row.Some? && (a.row.value.state.Creating? || a.row.value.reference == reference) then (a, Existing)
      else if a.row.Some? && !a.row.value.state.Cancelled? then (a, Conflict)
      else
        (a.(row := Some(Row(reference, None, Creating, unit, full, a.shop.branches, unit * a.shop.branches, false, at)),
            trace := a.trace.(reserved := a.trace.reserved + multiset{reference})), Accepted)
  }

  /** ClaimSubscriptionProviderCall: at most one request to create a subscription. */
  function ClaimCall(a: Account, reference: nat): (Account, Reply) {
    if a.row.Some? && a.row.value.reference == reference && a.row.value.state.Creating? && !a.row.value.called then
      (a.(row := Some(a.row.value.(called := true)), trace := a.trace.(claimed := a.trace.claimed + multiset{reference})), Accepted)
    else (a, InProgress)
  }

  function Assigned(a: Account, provider: nat): Trace {
    a.trace.(providers := a.trace.providers + {provider})
  }

  function SaveCheckout(a: Account, reference: nat, provider: nat, state: State): (Account, Reply) {
    if a.row.Some? && a.row.value.reference == reference && a.row.value.state.Creating? && a.row.value.called then
      (a.(row := Some(a.row.value.(provider := Some(provider), state := state)), trace := Assigned(a, provider)), Accepted)
    else (a, Conflict)
  }

  function RejectCheckout(a: Account, reference: nat): Account {
    if a.row.Some? && a.row.value.reference == reference && a.row.value.state.Creating? && a.row.value.provider.None? then
      a.(row := Some(a.row.value.(state := Cancelled)))
    else a
  }

  /** A notification or a readback never brings a cancelled row back. */
  function Reported(a: Account, state: State): State
    requires a.row.Some?
  {
    if !a.row.value.state.Cancelled? && a.shop.active then state else Cancelled
  }

  /** A notification is recorded with the change it brings; one that finds no row is not. */
  function Webhook(a: Account, event: nat, reference: nat, provider: nat, state: State): (Account, Reply) {
    if event in a.events then (a, Existing)
    else if a.row.Some? && a.row.value.reference == reference
       && (a.row.value.provider == Some(provider) || (a.row.value.state.Creating? && a.row.value.provider.None? && a.row.value.called)) then
      (a.(row := Some(a.row.value.(provider := if a.row.value.provider.Some? then a.row.value.provider else
          Some(provider), state := Reported(a, state))),
          events := a.events + {event}, trace := Assigned(a, provider)), Accepted)
    else (a, NotFound)
  }

  function Readback(a: Account, reference: nat, provider: nat, state: State): (Account, Reply) {
    if a.row.Some? && a.row.value.reference == reference && a.row.value.provider == Some(provider) then
      (a.(row := Some(a.row.value.(state := Reported(a, state)))), Accepted)
    else (a, NotFound)
  }

  datatype Member = Owner | Staff | Outsider

  /** CancelSubscriptionLocked. `confirmed` says that the provider answered with this subscription cancelled;
      a cancelled row is answered without asking it. */
  function Cancel(a: Account, member: Member, confirmed: bool): (Account, Reply) {
    if member.Outsider? || !a.shop.active then (a, NotFound)
    else if member.Staff? then (a, Forbidden)
    else if a.shop.pending then (a, InProgress)
    else if a.row.None? then (a, NotFound)
    else if a.row.value.state.Cancelled? then (a, Accepted)
    else if a.row.value.state.Creating? then (a, InProgress)
    else if !confirmed then (a, ProviderFailed)
    else (a.(row := Some(a.row.value.(state := Cancelled))), Accepted)
  }

  // ---------------------------------------------------------------------------
  // Branches and brand
  // ---------------------------------------------------------------------------

  function CreateBranch(a: Account): Account {
    if a.shop.active && NoActiveSubscription(a) then a.(shop := a.shop.(branches := a.shop.branches + 1)) else a
  }

  function DeleteBranch(a: Account, primary: bool): Account {
    if NoActiveSubscription(a) && !primary && a.shop.branches > 1 then a.(shop := a.shop.(branches := a.shop.branches - 1)) else a
  }

  function DeleteBrand(a: Account): Account {
    if NoActiveSubscription(a) then a.(shop := a.shop.(active := false, branches := 0)) else a
  }

  /** The brand of a deleted account. The table refuses to cancel a row without a provider id that was
      not rejected, so an account with an open reservation cannot be deleted. */
  function CloseAccount(a: Account): Account {
    if NoActiveSubscription(a) then DeleteBrand(a)
    else if a.row.value.provider.None? then a
    else a.(row := Some(a.row.value.(state := Cancelled)), shop := a.shop.(active := false, branches := 0))
  }

  /** The part of a branch operation that this row takes: the rest is in BranchSaga. */
  function ActivateBranch(a: Account, at: int): (Account, Reply) {
    if !a.shop.pending || !a.shop.active || a.row.None? then (a, Conflict)
    else
      var row := a.row.value;
      if !row.state.Authorized? || row.provider.None? || row.unit < 0 || row.count < 1 || row.count != a.shop.branches
         || row.monthly != row.unit * row.count then (a, Conflict)
      else
        var from := if a.history.quantities == [] then row.validFrom else Later(LastEnd(a.history.quantities), row.validFrom);
        (a.(row := Some(row.(count := row.count + 1, monthly := row.monthly + row.unit)),
            shop := a.shop.(branches := a.shop.branches + 1, pending := false),
            history := a.history.(quantities := a.history.quantities + [Window(row.provider.value, from, at, row.unit,
                row.full, row.count)])), Accepted)
  }

  function Later(a: int, b: int): int {
    if a >= b then a else b
  }

  /** The latest end of the windows. */
  function LastEnd(ws: seq<Window>): (m: int)
    requires ws != []
    ensures forall i | 0 <= i < |ws| :: ws[i].until <= m
    ensures exists i :: 0 <= i < |ws| && ws[i].until == m
  {
    if |ws| == 1 then ws[0].until
    else
      var m := LastEnd(ws[..|ws| - 1]);
      assert forall i | 0 <= i < |ws| - 1 :: ws[i] == ws[..|ws| - 1][i];
      assert ws[|ws| - 1].until == ws[|ws| - 1].until;
      Later(m, ws[|ws| - 1].until)
  }

  // ---------------------------------------------------------------------------
  // Charges
  // ---------------------------------------------------------------------------

  datatype Invoice = Invoice(id: nat, subscription: nat, amount: int, created: Option<int>)
  datatype Paid = Paid(id: nat, approved: bool, amount: int, refunded: bool)

  /** Position of the charge of an invoice, or the number of charges. */
  function ChargeOf(charges: seq<Charge>, invoice: nat): (k: nat)
    ensures k <= |charges| && (k < |charges| ==> charges[k].invoice == invoice)
    ensures forall i | 0 <= i < k :: charges[i].invoice != invoice
  {
    if charges == [] || charges[0].invoice == invoice then 0 else 1 + ChargeOf(charges[1..], invoice)
  }

  function ChargeOfPayment(charges: seq<Charge>, payment: nat): (k: nat)
    ensures k <= |charges| && (k < |charges| ==> charges[k].payment == payment)
    ensures forall i | 0 <= i < k :: charges[i].payment != payment
  {
    if charges == [] || charges[0].payment == payment then 0 else 1 + ChargeOfPayment(charges[1..], payment)
  }

  function VoidReward(rewards: map<nat, Reward>, invoice: nat): map<nat, Reward> {
    if invoice in rewards && (rewards[invoice].status.Owed? || rewards[invoice].status.Settled?) then
      rewards[invoice := rewards[invoice].(status := if rewards[invoice].status.Settled? then RecoveryDue else Void)]
    else rewards
  }

  function Recover(allocations: seq<Allocation>, payment: nat): (r: seq<Allocation>)
    ensures |r| == |allocations|
    ensures forall i | 0 <= i < |r| :: r[i] == if allocations[i].payment == payment then
        allocations[i].(recovery := true) else allocations[i]
  {
    seq(|allocations|, i requires 0 <= i < |allocations| =>
      if allocations[i].payment == payment then allocations[i].(recovery := true) else allocations[i])
  }

  /** The charge is refunded and its reward is taken back. */
  function RefundCharge(a: Account, k: nat): Account
    requires k < |a.charges|
  {
    if a.charges[k].refunded then a
    else a.(charges := a.charges[k := a.charges[k].(refunded := true)], rewards := VoidReward(a.rewards, a.charges[k].invoice))
  }

  predicate InWindow(w: Window, at: int) {
    w.from <= at < w.until
  }

  /** An invoice issued under an earlier price keeps that price. */
  predicate WasPriced(ws: seq<Window>, provider: nat, at: int, amount: int) {
    exists i :: 0 <= i < |ws| && ws[i].provider == provider && InWindow(ws[i], at) && ws[i].unit * ws[i].branches == amount
  }

  predicate AmountIsValid(a: Account, row: Row, invoice: Invoice) {
    || invoice.amount == UnitFor(a, row.full) * row.count
    || (invoice.created.Some? && (WasPriced(a.history.prices, invoice.subscription, invoice.created.value, invoice.amount)
                                  || WasPriced(a.history.quantities, invoice.subscription, invoice.created.value, invoice.amount)))
  }

  function RewardFor(a: Account, amount: int, index: int): int {
    if a.terms.None? || amount < 1 || index < 1 || index > a.terms.value.rewardCharges || a.terms.value.rewardBps < 1 then 0
    else Money.Split(amount, a.terms.value.rewardBps)
  }

  /** The price changes with the charge that uses up the discount. */
  predicate EndsDiscount(a: Account, row: Row, index: int) {
    a.terms.Some? && index == a.terms.value.discountCharges && UnitFor(a, row.full) != row.full
  }

  function RecordInvoice(a: Account, event: nat, invoice: Invoice, payment: Paid, advanced: bool): (Account, Reply) {
    if a.row.None? || a.row.value.provider != Some(invoice.subscription) then (a, NotFound)
    else
      var row := a.row.value;
      var a1 := if payment.refunded then a.(allocations := Recover(a.allocations, payment.id)) else a;
      var k := ChargeOf(a.charges, invoice.id);
      if k < |a.charges| then (if payment.refunded then RefundCharge(a1, k) else a1, Accepted)
      else if payment.refunded || !payment.approved || payment.amount < 1 then (a1, Accepted)
      else if invoice.amount != payment.amount || !AmountIsValid(a, row, invoice) then (a, Mismatch)
      else
        var index := |a.charges| + 1;
        var ends := EndsDiscount(a, row, index);
        if ends && a.shop.pending then (a, InProgress)
        else if ends && !advanced then (a, ProviderFailed)
        else if ChargeOfPayment(a.charges, payment.id) < |a.charges| then (a, Conflict)
        else
          var reward := RewardFor(a, payment.amount, index);
          (a.(charges := a.charges + [Charge(invoice.id, payment.id, payment.amount, index, false)],
              rewards := if reward > 0 then a.rewards[invoice.id := Reward(reward, Owed)] else a.rewards,
              row := if ends then Some(row.(unit := row.full, monthly := row.full * row.count)) else a.row,
              events := a.events + {event}), Accepted)
  }

  function ReversePayment(a: Account, event: nat, payment: Paid): Account {
    if !payment.refunded then a
    else
      var a1 := a.(allocations := Recover(a.allocations, payment.id));
      var k := ChargeOfPayment(a.charges, payment.id);
      if k < |a.charges| then RefundCharge(a1.(events := a.events + {event}), k) else a1
  }

  function SettleReward(a: Account, invoice: nat): (Account, Reply) {
    if a.terms.Some? && a.terms.value.influencer && invoice in a.rewards && a.rewards[invoice].status.Owed? then
      (a.(rewards := a.rewards[invoice := a.rewards[invoice].(status := Settled)]), Accepted)
    else (a, Conflict)
  }

  function AllocatedTo(allocations: seq<Allocation>, payment: nat): int {
    if allocations == [] then 0
    else
      var x := allocations[|allocations| - 1];
      AllocatedTo(allocations[..|allocations| - 1], payment) + (if x.payment == payment then x.amount else 0)
  }

  function AllocatedInAll(allocations: seq<Allocation>): int {
    if allocations == [] then 0 else AllocatedInAll(allocations[..|allocations| - 1]) + allocations[|allocations| - 1].amount
  }

  /** Position of the allocation of a key, or the number of allocations. */
  function AllocationOf(allocations: seq<Allocation>, key: nat): (k: nat)
    ensures k <= |allocations| && (k < |allocations| ==> allocations[k].key == key)
    ensures forall i | 0 <= i < k :: allocations[i].key != key
  {
    if allocations == [] || allocations[0].key == key then 0 else 1 + AllocationOf(allocations[1..], key)
  }

  predicate Settles(allocations: seq<Allocation>, settlement: nat) {
    exists i :: 0 <= i < |allocations| && allocations[i].settlement == settlement
  }

  /** A credit to record: the invoice and payment as the provider holds them, whether a finance user asks for it,
      and `accrued`, the sum of the rewards other brands earned for this one. */
  datatype Credit = Credit(key: nat, invoice: Invoice, invoicePayment: nat, payment: Paid, amount: int, settlement: nat,
                           finance: bool, accrued: int)

  predicate Creditable(c: Credit) {
    && c.amount >= 1 && c.invoicePayment == c.payment.id && c.payment.approved && !c.payment.refunded
    && c.payment.amount == c.invoice.amount
  }

  predicate IsFor(x: Allocation, c: Credit) {
    x.invoice == c.invoice.id && x.payment == c.payment.id && x.amount == c.amount && x.settlement == c.settlement
  }

  /** RecordMerchantCreditAllocation. */
  function Allocate(a: Account, c: Credit): (Account, Reply) {
    if !Creditable(c) then (a, Invalid)
    else if !c.finance then (a, Forbidden)
    else
      var k := AllocationOf(a.allocations, c.key);
      if k < |a.allocations| then (a, if IsFor(a.allocations[k], c) then Existing else Conflict)
      else if a.row.None? || a.row.value.provider != Some(c.invoice.subscription) then (a, NotFound)
      else if c.amount > c.accrued - AllocatedInAll(a.allocations)
              || c.amount > c.payment.amount - AllocatedTo(a.allocations, c.payment.id) then (a, Insufficient)
      else if Settles(a.allocations, c.settlement) then (a, Conflict)
      else
        (a.(allocations := a.allocations + [Allocation(c.key, c.invoice.id, c.payment.id, c.amount, c.settlement, false)]), Accepted)
  }

  // ---------------------------------------------------------------------------
  // Bulk price changes
  // ---------------------------------------------------------------------------

  /** ChangeSubscriptionPrice: a new catalogue version, and one durable item for an existing subscription. */
  function ChangePrice(a: Account, key: nat, change: PriceChange, fallback: int): (Account, Reply) {
    var amount := change.amount;
    if amount < 1 || amount > MAX_AMOUNT || fallback < 1 || fallback > MAX_AMOUNT || change.previousVersion < 0 then (a, Invalid)
    else if key in a.catalog.changes then (a, if a.catalog.changes[key] == change then Existing else Conflict)
    else if a.catalog.version != change.previousVersion then (a, Conflict)
    else
      var affected := change.includeExisting && a.shop.active && a.row.Some? && Live(a.row.value.state) && a.row.value.provider.Some?;
      if affected && a.row.value.count > MAX_AMOUNT / amount then (a, Invalid)
      else
        var items := if affected then [Item(a.catalog.version + 1, amount, a.row.value.provider.value,
            a.row.value.reference, ItemPending)] else [];
        (a.(catalog := Catalog(Some(amount), a.catalog.version + 1, a.catalog.items + items, a.catalog.changes[key := change])), Accepted)
  }

  function Marked(a: Account, k: nat, status: ItemStatus): Account
    requires k < |a.catalog.items|
  {
    a.(catalog := a.catalog.(items := a.catalog.items[k := a.catalog.items[k].(status := status)]))
  }

  predicate Retried(x: Item, version: nat) {
    x.version == version && x.status.ItemFailed?
  }

  /** RetrySubscriptionPriceChange: the failed items of a change become pending again; without one it is a conflict. */
  function RetryPrices(a: Account, version: nat): (Account, Reply) {
    var items := seq(|a.catalog.items|, i requires 0 <= i < |a.catalog.items| =>
                     if Retried(a.catalog.items[i], version) then a.catalog.items[i].(status := ItemPending) else a.catalog.items[i]);
    if exists i :: 0 <= i < |a.catalog.items| && Retried(a.catalog.items[i], version) then
      (a.(catalog := a.catalog.(items := items)), Accepted)
    else (a, Conflict)
  }

  /** ApplyNextSubscriptionPriceChange: one item in one transaction. */
  function ApplyPrice(a: Account, k: nat, updated: bool): (Account, Reply) {
    if k >= |a.catalog.items| || !a.catalog.items[k].status.ItemPending? || a.shop.pending then (a, NotFound)
    else
      var item := a.catalog.items[k];
      if a.catalog.version != item.version || a.row.None? || !a.shop.active || a.row.value.provider != Some(item.provider)
         || a.row.value.reference != item.reference || !Live(a.row.value.state) then (Marked(a, k, Skipped), Accepted)
      else
        var row := a.row.value;
        var unit := UnitFor(a, item.amount);
        if row.count < 1 || item.amount > MAX_AMOUNT / row.count || unit < 1 then (Marked(a, k, ItemFailed), Accepted)
        else if row.unit == unit && row.full == item.amount then (Marked(a, k, Applied), Accepted)
        else if !updated then (Marked(a, k, ItemFailed), ProviderFailed)
        else
          (Marked(a, k, Applied).(
             row := Some(row.(unit := unit, full := item.amount, monthly := unit * row.count, validFrom := a.now)),
             history := a.history.(prices := a.history.prices + [Window(item.provider, row.validFrom, a.now, row.unit,
                 row.full, row.count)])), Accepted)
  }

  // ---------------------------------------------------------------------------
  // Runs
  // ---------------------------------------------------------------------------

  datatype Choice =
    | Tick(seconds: nat)
    | DoReserve(reference: nat, fallback: int, at: int)
    | DoClaim(reference: nat)
    | DoSave(reference: nat, provider: nat, state: State)
    | DoReject(reference: nat)
    | DoWebhook(event: nat, reference: nat, provider: nat, state: State)
    | DoReadback(reference: nat, provider: nat, state: State)
    | DoCancel(member: Member, confirmed: bool)
    | DoCreateBranch
    | DoDeleteBranch(primary: bool)
    | DoDeleteBrand
    | DoCloseAccount
    | OpenOperation
    | CloseOperation
    | DoActivate(at: int)
    | DoRecord(event: nat, invoice: Invoice, payment: Paid, advanced: bool)
    | DoReverse(event: nat, payment: Paid)
    | DoSettle(invoiceId: nat)
    | DoAllocate(credit: Credit)
    | DoChangePrice(key: nat, change: PriceChange, fallback: int)
    | DoRetryPrices(version: nat)
    | DoApplyPrice(item: nat, updated: bool)

  /** The provider gives every subscription an id of its own, reports no state of ours, and does not
      change the amount of a payment; no transaction starts in the future. */
  predicate Plausible(a: Account, c: Choice) {
    match c
    case DoReserve(_, _, at) => at <= a.now
    case DoSave(_, provider, state) => !state.Creating? && provider !in a.trace.providers
    case DoWebhook(_, _, provider, state) =>
      !state.Creating? && (provider !in a.trace.providers || (a.row.Some? && a.row.value.provider == Some(provider)))
    case DoReadback(_, _, state) => !state.Creating?
    case DoAllocate(c) => c.payment.id in a.trace.paid ==> a.trace.paid[c.payment.id] == c.payment.amount
    case _ => true
  }

  function Act(a: Account, c: Choice): Account {
    match c
    case Tick(seconds) => a.(now := a.now + seconds)
    case DoReserve(reference, fallback, at) => Reserve(a, reference, fallback, at).0
    case DoClaim(reference) => ClaimCall(a, reference).0
    case DoSave(reference, provider, state) => SaveCheckout(a, reference, provider, state).0
    case DoReject(reference) => RejectCheckout(a, reference)
    case DoWebhook(event, reference, provider, state) => Webhook(a, event, reference, provider, state).0
    case DoReadback(reference, provider, state) => Readback(a, reference, provider, state).0
    case DoCancel(member, confirmed) => Cancel(a, member, confirmed).0
    case DoCreateBranch => CreateBranch(a)
    case DoDeleteBranch(primary) => DeleteBranch(a, primary)
    case DoDeleteBrand => DeleteBrand(a)
    case DoCloseAccount => CloseAccount(a)
    case OpenOperation => a.(shop := a.shop.(pending := true))
    case CloseOperation => a.(shop := a.shop.(pending := false))
    case DoActivate(at) => ActivateBranch(a, at).0
    case DoRecord(event, invoice, payment, advanced) => RecordInvoice(a, event, invoice, payment, advanced).0
    case DoReverse(event, payment) => ReversePayment(a, event, payment)
    case DoSettle(invoice) => SettleReward(a, invoice).0
    case DoAllocate(c) => Allocate(a.(trace := a.trace.(paid := a.trace.paid[c.payment.id := c.payment.amount])), c).0
    case DoChangePrice(key, change, fallback) => ChangePrice(a, key, change, fallback).0
    case DoRetryPrices(version) => RetryPrices(a, version).0
    case DoApplyPrice(k, updated) => ApplyPrice(a, k, updated).0
  }

  function Step(a: Account, c: Choice): Account {
    if Plausible(a, c) then Act(a, c) else a
  }

  function Run(a: Account, cs: seq<Choice>): Account {
    if cs == [] then a else Step(Run(a, cs[..|cs| - 1]), cs[|cs| - 1])
  }

  predicate ValidTerms(t: Option<Terms>) {
    t.Some? ==> && 0 <= t.value.discountBps <= 9999 && 0 <= t.value.discountCharges <= 36
                && 0 <= t.value.rewardBps <= 10000 && 0 <= t.value.rewardCharges <= 36
  }

  /** A new brand, with the referral terms that were fixed in the transaction that created it. */
  function NewBrand(terms: Option<Terms>, now: int): Account {
    Account(terms, Shop(true, 1, false), None, [], map[], [], History([], []), Catalog(None, 0, [], map[]), {},
            Trace(multiset{}, multiset{}, {}, map[]), now)
  }
}
