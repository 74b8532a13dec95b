/** Adding a branch in the middle of a billing cycle: a transaction over two parties, the
    database and the payment provider (internal/repository/branch_reconcile.go).

    A reconcile is split at every provider call. The database part of the world changes only
    when a reconcile commits; what the provider did stays done when a reconcile dies. */
module BranchSaga {
  import opened Common
  import opened BranchPayments

  // ---------------------------------------------------------------------------
  // The two worlds
  // ---------------------------------------------------------------------------

  datatype SubscriptionState = Creating | PendingState | Authorized | Paused | CancelledState

  /** What a quote remembers of the subscription row. */
  datatype Snapshot = Snapshot(providerId: string, reference: string, unit: int, fullUnit: int, monthly: int,
                               count: int, next: int, trial: Option<int>, state: SubscriptionState, anchor: int)

  /** The subscription row of the brand and the number of its active branches. */
  datatype Row = Row(providerId: string, reference: string, unit: int, fullUnit: int, monthly: int, count: int,
                     next: Option<int>, trial: Option<int>, state: SubscriptionState, anchor: int, branches: int)

  datatype Quote = Quote(createdAt: int, expiry: int, proration: int, newMonthly: int, paymentRequired: bool)

  datatype Status = PaymentPending | PlanUpdating | RefundPending | Completed | PaymentRejected | RefundedInFull | FailedOperation

  datatype Code = NoCode | PaymentVerificationRetry | CheckoutRetry | PaymentMismatch | PaymentRefused | QuoteExpired
                | PlanUpdateRetry | PlanRestoreRetry | PlanRestoreReview | PlanUpdateFailed | RefundRetry | DuplicateRefundRetry

  /** The branch_operations row. */
  datatype Op = Op(status: Status, code: Code, paymentStatus: PaymentStatus, paymentId: Option<nat>, amount: int,
                   refunded: int, planAmount: Option<int>, approvedAt: Option<int>, planStarted: bool, checkout: bool)

  /** The recurring subscription as the provider holds it. */
  datatype Plan = Plan(id: string, reference: string, authorized: bool, next: Option<int>, amount: int)

  /** Everything that survives a crash. The last five fields only record history:
      `base` is the recurring amount that other writers left, `released` that another writer
      changed it after this operation had started its plan change, `rowTouched` that another
      writer changed the subscription row, `taken` the payments a reconcile gave back and
      `early` those it gave back while the committed status was still PLAN_UPDATING. */
  datatype World = World(quote: Quote, snap: Snapshot, paymentReference: string, op: Op, row: Row, owner: bool,
                         otherPending: bool, inserted: nat, plan: Plan, payments: seq<Payment>, checkoutIssued: bool,
                         base: int, released: bool, rowTouched: bool, taken: set<nat>, early: set<nat>)

  /** Where a running reconcile stands: the next request it will make. `mem` is the operation
      row as the reconcile holds it in memory. */
  datatype Site = FindPayment | CreateCheckout | GetPlan | PutPlan | VerifyPlan | GetRestore | PutRestore | CheckRestore
                | RefundPrimary | ConfirmRefund | SweepDuplicates | Saving(activate: bool)

  datatype Pc = Idle | Running(site: Site, mem: Op, now: int, eligible: bool)

  datatype Machine = Machine(w: World, pc: Pc)

  // ---------------------------------------------------------------------------
  // Guards
  // ---------------------------------------------------------------------------

  function SnapshotOf(row: Row): Snapshot {
    Snapshot(row.providerId, row.reference, row.unit, row.fullUnit, row.monthly, row.count,
             if row.next.Some? then row.next.value else 0, row.trial, row.state, row.anchor)
  }

  predicate Billable(row: Row) {
    && row.state.Authorized? && row.providerId != "" && row.unit >= 0 && row.count >= 1
    && row.branches == row.count && row.monthly == row.unit * row.count
  }

  predicate Eligible(w: World) {
    w.owner && Billable(w.row) && SnapshotOf(w.row) == w.snap
  }

  predicate Active(s: Status) {
    s.PaymentPending? || s.PlanUpdating? || s.RefundPending?
  }

  predicate Reconcilable(s: Status) {
    Active(s) || s.FailedOperation?
  }

  predicate PlanIsSnapshots(w: World) {
    w.plan.id == w.snap.providerId && w.plan.reference == w.snap.reference
  }

  predicate PlanRenews(w: World) {
    w.plan.authorized && w.plan.next == Some(w.snap.next)
  }

  /** The comparison of the locked row with the snapshot. A null renewal date makes the whole
      comparison null unless another column already differs. */
  function SameProvider(w: World): Option<bool> {
    var others := && w.row.providerId == w.snap.providerId && w.row.reference == w.snap.reference
                  && w.row.unit == w.snap.unit && w.row.monthly == w.snap.monthly && w.row.count == w.snap.count
                  && w.row.state.Authorized?;
    if w.row.next.Some? then Some(others && w.row.next.value == w.snap.next)
    else if others then None else Some(false)
  }

  // ---------------------------------------------------------------------------
  // Control flow between provider calls
  // ---------------------------------------------------------------------------

  function Save(mem: Op, status: Status, code: Code, now: int, eligible: bool): Pc {
    Running(Saving(false), mem.(status := status, code := code), now, eligible)
  }

  function Activate(mem: Op, amount: int, now: int, eligible: bool): Pc {
    Running(Saving(true), mem.(status := Completed, code := NoCode, planAmount := Some(amount)), now, eligible)
  }

  function EnterRefund(mem: Op, now: int, eligible: bool): Pc {
    Running(GetRestore, mem.(status := RefundPending), now, eligible)
  }

  function EnterPlan(mem: Op, now: int, eligible: bool): Pc {
    if !eligible then EnterRefund(mem, now, eligible)
    else if !mem.planStarted then Save(mem.(planStarted := true), PlanUpdating, NoCode, now, eligible)
    else Running(GetPlan, mem.(status := PlanUpdating), now, eligible)
  }

  predicate InWindow(q: Quote, approvedAt: Option<int>) {
    approvedAt.Some? && q.createdAt <= approvedAt.value < q.expiry
  }

  /** Decides on a verified payment, or on the absence of one. */
  function AfterVerification(w: World, mem: Op, now: int, eligible: bool): Pc {
    if mem.paymentStatus.Rejected? || mem.paymentStatus.Cancelled? then
      Save(mem, PaymentRejected, PaymentRefused, now, eligible)
    else if mem.paymentStatus.Refunded? || (mem.refunded >= w.quote.proration && w.quote.paymentRequired) then
      Save(mem, RefundedInFull, NoCode, now, eligible)
    else if !mem.paymentStatus.Approved? then
      if w.quote.expiry <= now then Save(mem, FailedOperation, QuoteExpired, now, eligible)
      else Save(mem, mem.status, NoCode, now, eligible)
    else if !InWindow(w.quote, mem.approvedAt) || mem.refunded > 0 || !eligible || mem.status.RefundPending? then
      EnterRefund(mem, now, eligible)
    else EnterPlan(mem, now, eligible)
  }

  function Adopt(mem: Op, p: Payment): Op {
    mem.(paymentId := Some(p.id), paymentStatus := p.status, amount := p.amount,
         refunded := p.refunded, approvedAt := p.approvedAt)
  }

  predicate Matches(w: World, p: Payment) {
    p.reference == w.paymentReference && p.currency == "ARS" && p.amount == w.quote.proration
  }

  function OnPayment(w: World, mem: Op, found: Search, now: int, eligible: bool): Pc {
    match found
    case Failed => Save(mem, mem.status, PaymentVerificationRetry, now, eligible)
    case Found(p) =>
      var adopted := Adopt(mem, p);
      if Matches(w, p) then AfterVerification(w, adopted, now, eligible)
      else if p.status.Approved? then AfterVerification(w, adopted.(status := RefundPending), now, eligible)
      else Save(adopted, FailedOperation, PaymentMismatch, now, eligible)
    case Missing =>
      if !mem.checkout && w.quote.expiry > now && eligible then Running(CreateCheckout, mem, now, eligible)
      else AfterVerification(w, mem, now, eligible)
  }

  function OnPlan(w: World, mem: Op, now: int, eligible: bool): Pc {
    if !PlanIsSnapshots(w) || !PlanRenews(w) then EnterRefund(mem, now, eligible)
    else if mem.planStarted && w.plan.amount == w.quote.newMonthly then Activate(mem, w.plan.amount, now, eligible)
    else if w.plan.amount != w.snap.monthly then EnterRefund(mem, now, eligible)
    else Running(PutPlan, mem, now, eligible)
  }

  function OnVerify(w: World, mem: Op, now: int, eligible: bool): Pc {
    if w.plan.amount != w.quote.newMonthly || !PlanRenews(w) then Save(mem, mem.status, PlanUpdateRetry, now, eligible)
    else Activate(mem, w.plan.amount, now, eligible)
  }

  function AfterRestore(w: World, mem: Op, now: int, eligible: bool): Pc {
    if !w.quote.paymentRequired then Save(mem, FailedOperation, PlanUpdateFailed, now, eligible)
    else if mem.paymentId.None? then Save(mem, mem.status, PaymentVerificationRetry, now, eligible)
    else if mem.refunded >= mem.amount && mem.amount > 0 then Save(mem, RefundedInFull, NoCode, now, eligible)
    else Running(RefundPrimary, mem, now, eligible)
  }

  function OnRestore(w: World, mem: Op, now: int, eligible: bool): Pc {
    var same := SameProvider(w);
    if !PlanIsSnapshots(w) || (mem.planStarted && !PlanRenews(w)) then
      Save(mem, mem.status, PlanRestoreReview, now, eligible)
    else if same.None? then Idle
    else if !same.value && mem.planStarted then Save(mem, mem.status, PlanRestoreReview, now, eligible)
    else if mem.planStarted && w.plan.amount == w.quote.newMonthly then Running(PutRestore, mem, now, eligible)
    else if mem.planStarted && w.plan.amount != w.snap.monthly then Save(mem, mem.status, PlanRestoreReview, now, eligible)
    else AfterRestore(w, mem, now, eligible)
  }

  function OnCheckRestore(w: World, mem: Op, now: int, eligible: bool): Pc {
    if PlanIsSnapshots(w) && w.plan.amount == w.snap.monthly && PlanRenews(w) then AfterRestore(w, mem, now, eligible)
    else Save(mem, mem.status, PlanRestoreRetry, now, eligible)
  }

  function OnConfirmRefund(mem: Op, found: Search, now: int, eligible: bool): Pc {
    if found.Found? && found.payment.refunded >= mem.amount then
      Save(mem.(refunded := found.payment.refunded, paymentStatus := found.payment.status), RefundedInFull, NoCode, now, eligible)
    else Save(mem, mem.status, RefundRetry, now, eligible)
  }

  // ---------------------------------------------------------------------------
  // Effects of the requests
  // ---------------------------------------------------------------------------

  predicate Applied(o: Outcome) {
    o.Done? || o == Lost(true)
  }

  /** The recurring-amount request. The client refuses an amount below one itself. */
  function PutAmount(w: World, amount: int, o: Outcome): World {
    if amount >= 1 && Applied(o) then w.(plan := w.plan.(amount := amount)) else w
  }

  function Given(before: seq<Payment>, after: seq<Payment>): set<nat>
    requires |after| == |before|
  {
    set i | 0 <= i < |before| && before[i].status.Approved? && after[i] != before[i] :: before[i].id
  }

  /** Payments changed by a reconcile: remembers which ones it gave back, and how early. */
  function WithPayments(w: World, after: seq<Payment>): World
    requires |after| == |w.payments|
  {
    var given := Given(w.payments, after);
    w.(payments := after, taken := w.taken + given,
       early := w.early + (if w.op.status.PlanUpdating? then given else {}))
  }

  /** What the transaction writes. It fails on the unique index when the operation would become
      active while another one of the brand is. */
  function Committed(w: World, mem: Op, activate: bool): World {
    var written := w.(op := mem);
    if activate then
      written.(row := w.row.(count := w.row.count + 1, monthly := w.quote.newMonthly, branches := w.row.branches + 1),
               inserted := w.inserted + 1)
    else written
  }

  predicate IndexBlocks(w: World, mem: Op) {
    Active(mem.status) && !Active(w.op.status) && w.otherPending
  }

  function Call(m: Machine, o: Outcome, refunds: seq<Outcome>): Machine
    requires m.pc.Running?
  {
    var w, mem, now, eligible := m.w, m.pc.mem, m.pc.now, m.pc.eligible;
    match m.pc.site
    case FindPayment =>
      var (after, found) := Find(w.payments, w.paymentReference, o, refunds);
      var w1 := WithPayments(w, after);
      Machine(w1, OnPayment(w1, mem, found, now, eligible))
    case CreateCheckout =>
      if w.quote.proration < 1 then Machine(w, Save(mem, mem.status, CheckoutRetry, now, eligible))
      else
        var w1 := if Applied(o) then w.(checkoutIssued := true) else w;
        if o.Done? then Machine(w1, Save(mem.(checkout := true), mem.status, NoCode, now, eligible))
        else Machine(w1, Save(mem, mem.status, CheckoutRetry, now, eligible))
    case GetPlan =>
      Machine(w, if o.Done? then OnPlan(w, mem, now, eligible) else Save(mem, mem.status, PlanUpdateRetry, now, eligible))
    case PutPlan =>
      var w1 := PutAmount(w, w.quote.newMonthly, o);
      if w.quote.newMonthly >= 1 && o.Done? then Machine(w1, Running(VerifyPlan, mem, now, eligible))
      else if w.quote.newMonthly >= 1 && o.Refused? then Machine(w1, EnterRefund(mem, now, eligible))
      else Machine(w1, Save(mem, mem.status, PlanUpdateRetry, now, eligible))
    case VerifyPlan =>
      Machine(w, if o.Done? then OnVerify(w, mem, now, eligible) else Save(mem, mem.status, PlanUpdateRetry, now, eligible))
    case GetRestore =>
      Machine(w, if o.Done? then OnRestore(w, mem, now, eligible) else Save(mem, mem.status, PlanRestoreRetry, now, eligible))
    case PutRestore =>
      var w1 := PutAmount(w, w.snap.monthly, o);
      if w.snap.monthly >= 1 && o.Done? then Machine(w1, Running(CheckRestore, mem, now, eligible))
      else Machine(w1, Save(mem, mem.status, PlanRestoreRetry, now, eligible))
    case CheckRestore =>
      Machine(w, if o.Done? then OnCheckRestore(w, mem, now, eligible) else Save(mem, mem.status, PlanRestoreRetry, now, eligible))
    case RefundPrimary =>
      if mem.paymentId.None? then Machine(w, Idle)
      else
        var (after, ok) := Refund(w.payments, mem.paymentId.value, o);
        var w1 := WithPayments(w, after);
        Machine(w1, if ok then Running(ConfirmRefund, mem, now, eligible) else Save(mem, mem.status, RefundRetry, now, eligible))
    case ConfirmRefund =>
      var (after, found) := Find(w.payments, w.paymentReference, o, refunds);
      var w1 := WithPayments(w, after);
      Machine(w1, OnConfirmRefund(mem, found, now, eligible))
    case SweepDuplicates =>
      if mem.paymentId.None? then Machine(w, Idle)
      else
        var (after, ok) := ClearDuplicates(w.payments, w.paymentReference, mem.paymentId.value, refunds);
        var w1 := WithPayments(w, after);
        Machine(w1, Save(mem, mem.status, if ok && o.Done? then NoCode else DuplicateRefundRetry, now, eligible))
    case Saving(activate) =>
      if Applied(o) && !IndexBlocks(w, mem) then Machine(Committed(w, mem, activate), Idle) else Machine(w, Idle)
  }

  /** A reconcile starts from the committed row alone. */
  function Begin(m: Machine, now: int): Machine {
    if !m.pc.Idle? then m
    else
      var w, op := m.w, m.w.op;
      var eligible := Eligible(w);
      if op.status.Completed? && op.paymentId.Some? then Machine(w, Running(SweepDuplicates, op, now, eligible))
      else if !Reconcilable(op.status) then m
      else if op.status.PaymentPending? || op.status.FailedOperation? then Machine(w, Running(FindPayment, op, now, eligible))
      else if op.status.PlanUpdating? then Machine(w, EnterPlan(op, now, eligible))
      else Machine(w, EnterRefund(op, now, eligible))
  }

  // ---------------------------------------------------------------------------
  // Everybody else
  // ---------------------------------------------------------------------------

  /** What can happen around this operation: owners and rows change, the provider pauses or
      renews the plan, customers pay, banks settle and return payments, and the other writers
      of the recurring amount run while no operation of the brand is active. */
  datatype Event =
    | OwnerChanged(owner: bool)
    | RowChanged(row: Row)
    | OtherOperation(pending: bool)
    | PlanChanged(authorized: bool, next: Option<int>)
    | OtherWriter(amount: int)
    | Paid(payment: Payment)
    | Settled(k: nat, status: PaymentStatus, at: int)
    | Returned(k: nat, refunded: int)

  predicate MayPay(w: World, p: Payment) {
    && Sound(p) && p.refunded == 0
    && (forall i | 0 <= i < |w.payments| :: w.payments[i].id != p.id)
    && (p.reference == w.paymentReference ==> w.checkoutIssued)
  }

  function Settle(p: Payment, status: PaymentStatus, at: int): Payment {
    if p.status.Refunded? || status.Refunded? then p
    else p.(status := status, approvedAt := if status.Approved? && p.approvedAt.None? then Some(at) else p.approvedAt)
  }

  function Return(p: Payment, refunded: int): Payment {
    if !p.status.Approved? || refunded < p.refunded || refunded > p.amount then p
    else p.(refunded := refunded, status := if refunded == p.amount then Refunded else p.status)
  }

  function PaymentsAfter(w: World, e: Event): seq<Payment> {
    match e
    case Paid(p) => if MayPay(w, p) then [p] + w.payments else w.payments
    case Settled(k, status, at) =>
      if k < |w.payments| then w.payments[k := Settle(w.payments[k], status, at)] else w.payments
    case Returned(k, refunded) =>
      if k < |w.payments| then w.payments[k := Return(w.payments[k], refunded)] else w.payments
    case _ => w.payments
  }

  /** Events that need none of the locks a reconcile holds. */
  function Drift(w: World, e: Event): World {
    w.(owner := if e.OwnerChanged? then e.owner else w.owner,
       plan := if e.PlanChanged? then w.plan.(authorized := e.authorized, next := e.next) else w.plan,
       payments := PaymentsAfter(w, e))
  }

  /** Events that wait for the brand and subscription locks, and for every active operation
      where their writer checks for one. */
  function Intervene(w: World, e: Event): World {
    var writes := e.OtherWriter? && !Active(w.op.status);
    w.(row := if e.RowChanged? then e.row else w.row,
       rowTouched := w.rowTouched || e.RowChanged?,
       otherPending := if e.OtherOperation? && !Active(w.op.status) then e.pending else w.otherPending,
       plan := if writes then w.plan.(amount := e.amount) else w.plan,
       base := if writes then e.amount else w.base,
       released := if writes then w.op.planStarted else w.released)
  }

  function Happen(m: Machine, e: Event): Machine {
    if m.pc.Idle? then m.(w := Intervene(Drift(m.w, e), e)) else m.(w := Drift(m.w, e))
  }

  datatype Choice = Start(now: int) | Answer(o: Outcome, refunds: seq<Outcome>) | Crash | Outside(e: Event)

  function Step(m: Machine, c: Choice): Machine {
    match c
    case Start(now) => Begin(m, now)
    case Answer(o, refunds) => if m.pc.Running? then Call(m, o, refunds) else m
    case Crash => m.(pc := Idle)
    case Outside(e) => Happen(m, e)
  }

  function Run(m: Machine, cs: seq<Choice>): Machine {
    if cs == [] then m else Step(Run(m, cs[..|cs| - 1]), cs[|cs| - 1])
  }

  /** The quote was computed from a billable row with a price of at least one cent. */
  predicate QuoteOf(q: Quote, s: Snapshot) {
    && s.unit >= 1 && s.count >= 1 && s.monthly == s.unit * s.count && s.state.Authorized? && s.providerId != ""
    && q.newMonthly == s.monthly + s.unit
    && q.proration >= 0 && (q.paymentRequired <==> q.proration > 0)
  }

  /** A quote that was just confirmed. */
  predicate Confirmed(m: Machine) {
    && m.pc.Idle?
    && QuoteOf(m.w.quote, m.w.snap) && Eligible(m.w)
    && m.w.op == Op(if m.w.quote.paymentRequired then PaymentPending else PlanUpdating, NoCode, Pending, None,
                    m.w.quote.proration, 0, None, None, false, false)
    && !m.w.otherPending && m.w.inserted == 0
    && m.w.plan.amount == m.w.base && !m.w.released && !m.w.rowTouched
    && Book(m.w.payments) && !m.w.checkoutIssued
    && (forall i | 0 <= i < |m.w.payments| :: m.w.payments[i].reference != m.w.paymentReference)
    && m.w.taken == {} && m.w.early == {}
  }
}
