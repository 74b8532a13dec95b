/** What holds in every state a branch operation can reach, whichever requests fail, take
    effect unnoticed or are cut off by a crash. */
module BranchSagaSafety {
  import opened Common
  import opened BranchPayments
  import opened BranchSaga

  // ---------------------------------------------------------------------------
  // How payments evolve
  // ---------------------------------------------------------------------------

  predicate Later(p: Payment, q: Payment) {
    && q.id == p.id && q.reference == p.reference && q.amount == p.amount && p.refunded <= q.refunded
    && (p.approvedAt.Some? ==> q.approvedAt == p.approvedAt)
    && (p.status.Refunded? ==> q.status.Refunded?)
  }

  /** Payments are only added in front, and each keeps its identity, amount and approval. */
  predicate Evolves(ps: seq<Payment>, qs: seq<Payment>) {
    && |ps| <= |qs|
    && forall i | 0 <= i < |ps| :: Later(ps[i], qs[i + |qs| - |ps|])
  }

  lemma ProgressEvolves(ps: seq<Payment>, qs: seq<Payment>)
    requires Book(ps) && Progress(ps, qs)
    ensures Evolves(ps, qs)
  {
  }

  lemma RefundProgress(ps: seq<Payment>, id: nat, o: Outcome)
    requires Book(ps)
    ensures var r := Refund(ps, id, o);
            && Book(r.0) && Progress(ps, r.0)
            && (forall i | 0 <= i < |ps| :: ps[i].id != id ==> r.0[i] == ps[i])
            && (r.1 ==> exists i :: 0 <= i < |ps| && r.0[i].id == id && r.0[i].status.Refunded?)
  {
    var k := Locate(ps, id);
    if k < |ps| {
      GiveBackKeepsBook(ps, [id]);
      if Refund(ps, id, o).1 { assert Refund(ps, id, o).0[k].id == id; }
    }
  }

  // ---------------------------------------------------------------------------
  // Invariant of the committed world
  // ---------------------------------------------------------------------------

  /** How far an operation still has to go. A failed operation that needed a payment can come
      back when the payment settles late; one that needed none is over. */
  function Rank(q: Quote, status: Status): nat {
    match status
    case PaymentPending => 4
    case FailedOperation => if q.paymentRequired then 3 else 0
    case PlanUpdating => 2
    case RefundPending => 1
    case _ => 0
  }

  /** Nobody can pay before a checkout exists, and none exists for a free addition. */
  predicate BooksKept(w: World) {
    Book(w.payments) && PaidOnlyAfterCheckout(w.payments, w.paymentReference, w.checkoutIssued)
    && (w.checkoutIssued ==> w.quote.paymentRequired)
  }

  predicate PaidOnlyAfterCheckout(ps: seq<Payment>, reference: string, issued: bool) {
    !issued ==> forall i | 0 <= i < |ps| :: ps[i].reference != reference
  }

  /** The payment an operation names exists with the amount and approval it recorded. */
  predicate Backs(p: Payment, reference: string, op: Op) {
    && op.paymentId == Some(p.id) && p.reference == reference && p.amount == op.amount
    && (op.status.RefundedInFull? || op.refunded <= p.refunded)
    && (op.approvedAt.Some? ==> p.approvedAt == op.approvedAt)
  }

  predicate Backed(ps: seq<Payment>, reference: string, op: Op) {
    op.paymentId.Some? ==> exists i :: 0 <= i < |ps| && Backs(ps[i], reference, op)
  }

  /** The verified payment a plan change rests on. */
  predicate Evidence(q: Quote, op: Op) {
    && op.paymentId.Some? && op.paymentStatus.Approved? && op.amount == q.proration && op.refunded == 0
    && InWindow(q, op.approvedAt)
  }

  predicate Shaped(q: Quote, op: Op) {
    && (op.planStarted ==> op.status.PlanUpdating? || op.status.RefundPending? || op.status.Completed?
                           || op.status.RefundedInFull? || (op.status.FailedOperation? && !q.paymentRequired))
    && (!q.paymentRequired ==> && (op.status.PlanUpdating? || op.status.RefundPending? || op.status.Completed? || op.status.FailedOperation?)
                               && op.paymentId.None? && op.refunded == 0)
    && (q.paymentRequired && (op.status.PlanUpdating? || op.status.Completed?) ==> Evidence(q, op))
    && (q.paymentRequired && (op.status.RefundPending? || op.status.RefundedInFull?) ==> op.paymentId.Some?)
    && (q.paymentRequired && op.status.RefundPending? ==> op.refunded < op.amount)
    && (op.status.Completed? ==> op.planStarted && op.planAmount == Some(q.newMonthly))
    && (op.paymentId.None? ==> op.paymentStatus.Pending? && op.refunded == 0)
  }

  /** A fully refunded operation: its payment was given back whole, unless the payment was larger
      than the quote and the part that was given back already covered the quote. */
  predicate GivenBack(ps: seq<Payment>, q: Quote, op: Op) {
    op.status.RefundedInFull? && op.paymentId.Some? ==>
      exists i :: 0 <= i < |ps| && op.paymentId == Some(ps[i].id)
                  && (ps[i].status.Refunded? || q.proration <= ps[i].refunded < ps[i].amount)
  }

  predicate Either(a: int, x: int, y: int) {
    a == x || a == y
  }

  /** The provider's recurring amount. */
  predicate Trail(w: World, op: Op) {
    var m, n := w.snap.monthly, w.quote.newMonthly;
    && (!op.planStarted ==> w.plan.amount == w.base && !w.released)
    && (op.planStarted && !w.released ==>
          w.plan.amount == w.base || (Either(w.base, m, n) && Either(w.plan.amount, m, n)))
    && (w.released ==> op.planStarted && !Active(op.status))
    && (op.status.Completed? && !w.released ==> w.plan.amount == n)
    && ((op.status.RefundedInFull? || op.status.FailedOperation?) && op.planStarted && !w.released ==> w.plan.amount == m)
  }

  predicate TakenBack(w: World) {
    && w.early <= w.taken
    && forall id | id in w.taken :: exists i :: 0 <= i < |w.payments| && w.payments[i].id == id && w.payments[i].status.Refunded?
  }

  /** A payment that a plan change rests on was not given back by the operation itself, unless
      that happened before the decision to refund was committed. */
  predicate KeptOrEarly(w: World, op: Op) {
    (op.status.PlanUpdating? || op.status.Completed?) && op.paymentId.Some? && op.paymentId.value in w.taken
    ==> op.paymentId.value in w.early
  }

  function Grown(s: Snapshot, newMonthly: int): Snapshot {
    s.(count := s.count + 1, monthly := newMonthly)
  }

  predicate Counted(w: World, op: Op) {
    && w.inserted == (if op.status.Completed? then 1 else 0)
    && (Active(op.status) ==> !w.otherPending)
    && (!w.rowTouched ==> && w.row.branches == w.row.count
                          && SnapshotOf(w.row) == if op.status.Completed? then Grown(w.snap, w.quote.newMonthly) else w.snap)
  }

  predicate WorldInv(w: World) {
    && QuoteOf(w.quote, w.snap)
    && BooksKept(w) && Backed(w.payments, w.paymentReference, w.op) && Shaped(w.quote, w.op)
    && GivenBack(w.payments, w.quote, w.op) && Trail(w, w.op) && TakenBack(w) && KeptOrEarly(w, w.op) && Counted(w, w.op)
  }

  // ---------------------------------------------------------------------------
  // Invariant of a running reconcile
  // ---------------------------------------------------------------------------

  predicate StillEligible(w: World) {
    Billable(w.row) && SnapshotOf(w.row) == w.snap
  }

  /** Facts about a reconcile that decided to restore and refund. */
  predicate Refunding(w: World, mem: Op) {
    && Rank(w.quote, w.op.status) >= 1 && mem.status.RefundPending? && mem.planStarted == w.op.planStarted
    && (mem.planStarted ==> Active(w.op.status))
    && (w.op.status.PlanUpdating? || w.op.status.RefundPending? ==> mem.paymentId == w.op.paymentId)
    && Backed(w.payments, w.paymentReference, mem) && Shaped(w.quote, mem)
  }

  predicate RefundedAlready(ps: seq<Payment>, mem: Op) {
    exists i :: 0 <= i < |ps| && mem.paymentId == Some(ps[i].id) && ps[i].status.Refunded?
  }

  /** What a save is about to write leads to an invariant world, or is stopped by the index. */
  predicate SaveInv(w: World, activate: bool, mem: Op, eligible: bool) {
    && Rank(w.quote, mem.status) <= Rank(w.quote, w.op.status) && (Rank(w.quote, w.op.status) == 0 ==> mem.status == w.op.status)
    && (activate ==> eligible && w.op.status.PlanUpdating? && mem.status.Completed? && w.plan.amount == w.quote.newMonthly)
    && (IndexBlocks(w, mem) || WorldInv(Committed(w, mem, activate)))
  }

  predicate CallInv(w: World, site: Site, mem: Op, eligible: bool)
    requires !site.Saving?
  {
    match site
    case FindPayment => mem == w.op && (w.op.status.PaymentPending? || w.op.status.FailedOperation?)
    case CreateCheckout => mem == w.op && (w.op.status.PaymentPending? || w.op.status.FailedOperation?)
    case GetPlan => mem == w.op && w.op.status.PlanUpdating? && w.op.planStarted && eligible
    case PutPlan => mem == w.op && w.op.status.PlanUpdating? && w.op.planStarted && eligible && w.plan.amount == w.snap.monthly
    case VerifyPlan => mem == w.op && w.op.status.PlanUpdating? && w.op.planStarted && eligible && w.plan.amount == w.quote.newMonthly
    case GetRestore => Refunding(w, mem)
    case PutRestore => Refunding(w, mem) && mem.planStarted && w.plan.amount == w.quote.newMonthly
    case CheckRestore => Refunding(w, mem) && mem.planStarted && w.plan.amount == w.snap.monthly
    case RefundPrimary =>
      Refunding(w, mem) && w.quote.paymentRequired && (mem.planStarted ==> w.plan.amount == w.snap.monthly)
    case ConfirmRefund =>
      && Refunding(w, mem) && w.quote.paymentRequired && (mem.planStarted ==> w.plan.amount == w.snap.monthly)
      && RefundedAlready(w.payments, mem)
    case SweepDuplicates => mem == w.op && w.op.status.Completed? && w.op.paymentId.Some?
  }

  predicate RunInv(w: World, site: Site, mem: Op, eligible: bool) {
    && (eligible ==> StillEligible(w))
    && if site.Saving? then SaveInv(w, site.activate, mem, eligible) else CallInv(w, site, mem, eligible)
  }

  predicate Inv(m: Machine) {
    WorldInv(m.w) && (m.pc.Running? ==> RunInv(m.w, m.pc.site, m.pc.mem, m.pc.eligible))
  }

  // ---------------------------------------------------------------------------
  // Frame lemmas
  // ---------------------------------------------------------------------------

  lemma BackedEvolves(ps: seq<Payment>, qs: seq<Payment>, reference: string, op: Op)
    requires Evolves(ps, qs) && Backed(ps, reference, op)
    ensures Backed(qs, reference, op)
  {
    if op.paymentId.Some? {
      var i :| 0 <= i < |ps| && Backs(ps[i], reference, op);
      assert Later(ps[i], qs[i + |qs| - |ps|]);
      assert Backs(qs[i + |qs| - |ps|], reference, op);
    }
  }

  lemma GivenBackEvolves(ps: seq<Payment>, qs: seq<Payment>, q: Quote, op: Op)
    requires Book(qs) && Evolves(ps, qs) && GivenBack(ps, q, op)
    ensures GivenBack(qs, q, op)
  {
    if op.status.RefundedInFull? && op.paymentId.Some? {
      var i :| 0 <= i < |ps| && op.paymentId == Some(ps[i].id)
               && (ps[i].status.Refunded? || q.proration <= ps[i].refunded < ps[i].amount);
      assert Later(ps[i], qs[i + |qs| - |ps|]);
    }
  }

  lemma RefundedEvolves(ps: seq<Payment>, qs: seq<Payment>, id: nat)
    requires Evolves(ps, qs)
    requires exists i :: 0 <= i < |ps| && ps[i].id == id && ps[i].status.Refunded?
    ensures exists i :: 0 <= i < |qs| && qs[i].id == id && qs[i].status.Refunded?
  {
    var i :| 0 <= i < |ps| && ps[i].id == id && ps[i].status.Refunded?;
    assert Later(ps[i], qs[i + |qs| - |ps|]);
  }

  lemma TakenEvolves(w: World, qs: seq<Payment>)
    requires TakenBack(w) && Evolves(w.payments, qs)
    ensures TakenBack(w.(payments := qs))
  {
    forall id | id in w.taken ensures exists i :: 0 <= i < |qs| && qs[i].id == id && qs[i].status.Refunded? {
      RefundedEvolves(w.payments, qs, id);
    }
  }

  lemma GivenAreRefunded(ps: seq<Payment>, after: seq<Payment>)
    requires |after| == |ps| && Progress(ps, after)
    ensures forall id | id in Given(ps, after) :: exists i :: 0 <= i < |after| && after[i].id == id && after[i].status.Refunded?
  {
    forall id | id in Given(ps, after) ensures exists i :: 0 <= i < |after| && after[i].id == id && after[i].status.Refunded? {
      var i :| 0 <= i < |ps| && ps[i].status.Approved? && after[i] != ps[i] && ps[i].id == id;
      assert after[i].id == id;
    }
  }

  /** Payments that changed because a reconcile gave some back. */
  lemma GivingBackKeeps(w: World, after: seq<Payment>)
    requires WorldInv(w) && Book(after) && Progress(w.payments, after)
    requires forall i | 0 <= i < |w.payments| :: w.payments[i].reference != w.paymentReference ==> after[i] == w.payments[i]
    requires w.op.status.Completed? ==> forall i | 0 <= i < |w.payments| ::
        Some(w.payments[i].id) == w.op.paymentId ==> after[i] == w.payments[i]
    ensures WorldInv(WithPayments(w, after))
  {
    hide Backed, GivenBack, Evolves;
    ProgressEvolves(w.payments, after);
    BackedEvolves(w.payments, after, w.paymentReference, w.op);
    GivenBackEvolves(w.payments, after, w.quote, w.op);
    TakenEvolves(w, after);
    GivenAreRefunded(w.payments, after);
  }

  lemma SearchKeeps(w: World, o: Outcome, refunds: seq<Outcome>)
    requires WorldInv(w) && !w.op.status.Completed?
    ensures WorldInv(WithPayments(w, Find(w.payments, w.paymentReference, o, refunds).0))
    ensures Evolves(w.payments, Find(w.payments, w.paymentReference, o, refunds).0)
  {
    FindIsSafe(w.payments, w.paymentReference, o, refunds);
    GivingBackKeeps(w, Find(w.payments, w.paymentReference, o, refunds).0);
    ProgressEvolves(w.payments, Find(w.payments, w.paymentReference, o, refunds).0);
  }

  // ---------------------------------------------------------------------------
  // Events keep the invariant
  // ---------------------------------------------------------------------------

  lemma SameEvolves(ps: seq<Payment>)
    ensures Evolves(ps, ps)
  {
  }

  lemma PaidEvolves(w: World, p: Payment)
    requires Book(w.payments) && MayPay(w, p)
    ensures Book([p] + w.payments) && Evolves(w.payments, [p] + w.payments)
    ensures PaidOnlyAfterCheckout(w.payments, w.paymentReference, w.checkoutIssued)
            ==> PaidOnlyAfterCheckout([p] + w.payments, w.paymentReference, w.checkoutIssued)
  {
  }

  lemma UpdateEvolves(ps: seq<Payment>, k: nat, p: Payment)
    requires Book(ps) && k < |ps| && Later(ps[k], p) && Sound(p)
    ensures Book(ps[k := p]) && Evolves(ps, ps[k := p])
    ensures forall reference, issued :: PaidOnlyAfterCheckout(ps, reference,
        issued) ==> PaidOnlyAfterCheckout(ps[k := p], reference, issued)
  {
  }

  lemma SettleIsLater(p: Payment, status: PaymentStatus, at: int)
    requires Sound(p)
    ensures Later(p, Settle(p, status, at)) && Sound(Settle(p, status, at))
  {
  }

  lemma ReturnIsLater(p: Payment, refunded: int)
    requires Sound(p)
    ensures Later(p, Return(p, refunded)) && Sound(Return(p, refunded))
  {
  }

  lemma PaymentsAfterEvolve(w: World, e: Event)
    requires Book(w.payments)
    ensures Book(PaymentsAfter(w, e)) && Evolves(w.payments, PaymentsAfter(w, e))
    ensures PaidOnlyAfterCheckout(w.payments, w.paymentReference, w.checkoutIssued)
            ==> PaidOnlyAfterCheckout(PaymentsAfter(w, e), w.paymentReference, w.checkoutIssued)
  {
    hide MayPay, Settle, Return, Evolves, Later, PaidOnlyAfterCheckout;
    SameEvolves(w.payments);
    match e
    case Paid(p) => if MayPay(w, p) { PaidEvolves(w, p); }
    case Settled(k, status, at) =>
      if k < |w.payments| {
        SettleIsLater(w.payments[k], status, at);
        UpdateEvolves(w.payments, k, Settle(w.payments[k], status, at));
      }
    case Returned(k, refunded) =>
      if k < |w.payments| {
        ReturnIsLater(w.payments[k], refunded);
        UpdateEvolves(w.payments, k, Return(w.payments[k], refunded));
      }
    case _ =>
  }

  lemma DriftKeeps(w: World, e: Event)
    requires WorldInv(w)
    ensures WorldInv(Drift(w, e))
  {
    hide PaymentsAfter, Later, Backs, Book, PaidOnlyAfterCheckout;
    PaymentsAfterEvolve(w, e);
    var qs := PaymentsAfter(w, e);
    BackedEvolves(w.payments, qs, w.paymentReference, w.op);
    GivenBackEvolves(w.payments, qs, w.quote, w.op);
    TakenEvolves(w, qs);
  }

  lemma InterveneKeeps(w: World, e: Event)
    requires WorldInv(w)
    ensures WorldInv(Intervene(w, e))
  {
  }

  lemma DriftCommutes(w: World, e: Event, mem: Op, activate: bool)
    ensures Committed(Drift(w, e), mem, activate) == Drift(Committed(w, mem, activate), e)
  {
    assert PaymentsAfter(Committed(w, mem, activate), e) == PaymentsAfter(w, e);
  }

  lemma DriftKeepsSave(w: World, e: Event, mem: Op, activate: bool, eligible: bool)
    requires SaveInv(w, activate, mem, eligible)
    ensures SaveInv(Drift(w, e), activate, mem, eligible)
  {
    hide PaymentsAfter, WorldInv, Committed;
    DriftCommutes(w, e, mem, activate);
    if !IndexBlocks(w, mem) { DriftKeeps(Committed(w, mem, activate), e); }
  }

  lemma DriftKeepsRun(w: World, e: Event, site: Site, mem: Op, eligible: bool)
    requires WorldInv(w) && RunInv(w, site, mem, eligible)
    ensures RunInv(Drift(w, e), site, mem, eligible)
  {
    hide WorldInv, SaveInv, CallInv, PaymentsAfter;
    if site.Saving? {
      DriftKeepsSave(w, e, mem, site.activate, eligible);
    } else {
      DriftKeepsCall(w, e, site, mem, eligible);
    }
  }

  lemma RefundingDrifts(w: World, e: Event, mem: Op)
    requires Book(w.payments) && Refunding(w, mem)
    ensures Refunding(Drift(w, e), mem)
    ensures RefundedAlready(w.payments, mem) ==> RefundedAlready(PaymentsAfter(w, e), mem)
  {
    hide PaymentsAfter, Evolves, Book, RefundedAlready, Backed;
    PaymentsAfterEvolve(w, e);
    BackedEvolves(w.payments, PaymentsAfter(w, e), w.paymentReference, mem);
    if RefundedAlready(w.payments, mem) { RefundedAlreadyEvolves(w.payments, PaymentsAfter(w, e), mem); }
  }

  lemma RefundedAlreadyEvolves(ps: seq<Payment>, qs: seq<Payment>, mem: Op)
    requires Evolves(ps, qs) && RefundedAlready(ps, mem)
    ensures RefundedAlready(qs, mem)
  {
    var i :| 0 <= i < |ps| && mem.paymentId == Some(ps[i].id) && ps[i].status.Refunded?;
    assert Later(ps[i], qs[i + |qs| - |ps|]);
  }

  lemma DriftKeepsFields(w: World, e: Event)
    ensures var w1 := Drift(w, e);
            && w1.op == w.op && w1.quote == w.quote && w1.snap == w.snap && w1.row == w.row
            && w1.plan.amount == w.plan.amount && w1.payments == PaymentsAfter(w, e)
  {
  }

  lemma DriftKeepsCall(w: World, e: Event, site: Site, mem: Op, eligible: bool)
    requires WorldInv(w) && !site.Saving? && CallInv(w, site, mem, eligible)
    ensures CallInv(Drift(w, e), site, mem, eligible)
  {
    hide Drift, PaymentsAfter, WorldInv, Refunding, RefundedAlready;
    WorldBook(w);
    DriftKeepsFields(w, e);
    if Refunding(w, mem) { RefundingDrifts(w, e, mem); }
  }

  lemma WorldBook(w: World)
    requires WorldInv(w)
    ensures Book(w.payments)
  {
  }

  // ---------------------------------------------------------------------------
  // Every saving keeps the invariant
  // ---------------------------------------------------------------------------

  /** The shape every decision of a reconcile has: an invariant state, or a save that leads to one. */
  predicate Good(w: World, pc: Pc) {
    pc.Running? ==> RunInv(w, pc.site, pc.mem, pc.eligible)
  }

  lemma SaveKeeps(w: World, mem: Op, status: Status, code: Code, now: int, eligible: bool)
    requires WorldInv(w) && (eligible ==> StillEligible(w))
    requires !status.Completed? && !w.op.status.Completed?
    requires Rank(w.quote, status) <= Rank(w.quote, w.op.status) && (Rank(w.quote, w.op.status) == 0 ==> status == w.op.status)
    requires var op := mem.(status := status, code := code);
             && Backed(w.payments, w.paymentReference, op) && Shaped(w.quote, op) && GivenBack(w.payments, w.quote, op)
             && Trail(w, op) && KeptOrEarly(w, op)
    ensures Good(w, Save(mem, status, code, now, eligible))
  {
  }

  /** Saving the committed row again, with another code. */
  lemma SaveSame(w: World, mem: Op, code: Code, now: int, eligible: bool)
    requires WorldInv(w) && (eligible ==> StillEligible(w)) && mem == w.op
    ensures Good(w, Save(mem, mem.status, code, now, eligible))
  {
  }

  lemma ActivateKeeps(w: World, mem: Op, now: int, eligible: bool)
    requires WorldInv(w) && eligible && StillEligible(w)
    requires mem == w.op && w.op.status.PlanUpdating? && w.op.planStarted && w.plan.amount == w.quote.newMonthly
    ensures Good(w, Activate(mem, w.plan.amount, now, eligible))
  {
  }

  lemma EnterRefundKeeps(w: World, mem: Op, now: int, eligible: bool)
    requires WorldInv(w) && (eligible ==> StillEligible(w)) && Rank(w.quote, w.op.status) >= 1
    requires mem.planStarted == w.op.planStarted && (mem.planStarted ==> Active(w.op.status))
    requires w.op.status.PlanUpdating? || w.op.status.RefundPending? ==> mem.paymentId == w.op.paymentId
    requires Backed(w.payments, w.paymentReference, mem.(status := RefundPending))
    requires w.quote.paymentRequired ==> mem.paymentId.Some? && mem.refunded < mem.amount
    requires !w.quote.paymentRequired ==> mem.paymentId.None?
    requires mem.paymentId.None? ==> mem.paymentStatus.Pending? && mem.refunded == 0
    ensures Good(w, EnterRefund(mem, now, eligible))
  {
  }

  lemma EnterPlanFromVerification(w: World, mem: Op, now: int, eligible: bool)
    requires WorldInv(w) && eligible && StillEligible(w)
    requires w.op.status.PaymentPending? || w.op.status.FailedOperation?
    requires w.quote.paymentRequired && Evidence(w.quote, mem) && mem.planStarted == w.op.planStarted
    requires Backed(w.payments, w.paymentReference, mem.(status := PlanUpdating))
    requires mem.paymentId.value !in w.taken
    ensures Good(w, EnterPlan(mem, now, eligible))
  {
  }

  /** A payment found approved was not given back before. */
  lemma ApprovedNotTaken(w: World, p: Payment)
    requires WorldInv(w) && p in w.payments && p.status.Approved?
    ensures p.id !in w.taken
  {
    var j :| 0 <= j < |w.payments| && w.payments[j] == p;
    forall i | 0 <= i < |w.payments| && w.payments[i].id == p.id ensures !w.payments[i].status.Refunded? {
      assert i == j;
    }
  }

  lemma AdoptedIsBacked(w: World, mem: Op, p: Payment)
    requires p in w.payments && p.reference == w.paymentReference
    ensures forall status: Status :: Backed(w.payments, w.paymentReference, Adopt(mem, p).(status := status))
    ensures forall status: Status, code: Code :: Backed(w.payments, w.paymentReference, Adopt(mem, p).(status := status, code := code))
  {
    var i :| 0 <= i < |w.payments| && w.payments[i] == p;
    forall status: Status ensures Backed(w.payments, w.paymentReference, Adopt(mem, p).(status := status)) {
      assert Backs(w.payments[i], w.paymentReference, Adopt(mem, p).(status := status));
    }
    forall status: Status, code: Code ensures Backed(w.payments, w.paymentReference, Adopt(mem, p).(status := status, code := code)) {
      assert Backs(w.payments[i], w.paymentReference, Adopt(mem, p).(status := status, code := code));
    }
  }

  lemma GivenBackFrom(ps: seq<Payment>, q: Quote, op: Op, p: Payment)
    requires p in ps && Sound(p) && op.paymentId == Some(p.id)
    ensures p.status.Refunded? || p.refunded >= q.proration ==> GivenBack(ps, q, op)
  {
    var i :| 0 <= i < |ps| && ps[i] == p;
  }

  lemma SomeonePaid(w: World, p: Payment)
    requires WorldInv(w) && p in w.payments && p.reference == w.paymentReference
    ensures w.checkoutIssued && w.quote.paymentRequired && Sound(p)
  {
    var i :| 0 <= i < |w.payments| && w.payments[i] == p;
  }

  /** Decisions that end the reconcile at once. */
  lemma DecideToStop(w: World, mem: Op, p: Payment, now: int, eligible: bool)
    requires WorldInv(w) && (eligible ==> StillEligible(w)) && w.quote.paymentRequired
    requires w.op.status.PaymentPending? || w.op.status.FailedOperation?
    requires p in w.payments && p.reference == w.paymentReference
    requires mem == Adopt(w.op, p).(status := mem.status)
    requires !p.status.Approved? ==> mem.status == w.op.status && p.amount == w.quote.proration
    ensures Good(w, Save(mem, PaymentRejected, PaymentRefused, now, eligible))
    ensures p.status.Refunded? || p.refunded >= w.quote.proration ==> Good(w, Save(mem, RefundedInFull, NoCode, now, eligible))
    ensures !p.status.Approved? ==> Good(w, Save(mem, FailedOperation, QuoteExpired, now, eligible))
                                    && Good(w, Save(mem, mem.status, NoCode, now, eligible))
  {
    hide Backed, BooksKept, TakenBack;
    AdoptedIsBacked(w, w.op, p);
    SomeonePaid(w, p);
    GivenBackFrom(w.payments, w.quote, mem.(status := RefundedInFull, code := NoCode), p);
    SaveKeeps(w, mem, PaymentRejected, PaymentRefused, now, eligible);
    if p.status.Refunded? || p.refunded >= w.quote.proration { SaveKeeps(w, mem, RefundedInFull, NoCode, now, eligible); }
    if !p.status.Approved? {
      SaveKeeps(w, mem, FailedOperation, QuoteExpired, now, eligible);
      SaveKeeps(w, mem, mem.status, NoCode, now, eligible);
    }
  }

  /** Decisions on an approved payment. */
  lemma DecideToGoOn(w: World, mem: Op, p: Payment, now: int, eligible: bool)
    requires WorldInv(w) && (eligible ==> StillEligible(w)) && w.quote.paymentRequired
    requires w.op.status.PaymentPending? || w.op.status.FailedOperation?
    requires p in w.payments && p.reference == w.paymentReference && p.status.Approved?
    requires mem == Adopt(w.op, p).(status := mem.status)
    ensures Good(w, EnterRefund(mem, now, eligible))
    ensures eligible && InWindow(w.quote, p.approvedAt) && p.refunded == 0 && p.amount == w.quote.proration
            ==> Good(w, EnterPlan(mem, now, eligible))
  {
    AdoptedIsBacked(w, w.op, p);
    var i :| 0 <= i < |w.payments| && w.payments[i] == p;
    assert Sound(p);
    EnterRefundKeeps(w, mem, now, eligible);
    if eligible && InWindow(w.quote, p.approvedAt) && p.refunded == 0 && p.amount == w.quote.proration {
      ApprovedNotTaken(w, p);
      EnterPlanFromVerification(w, mem, now, eligible);
    }
  }

  /** The decision on a payment that was just read. */
  lemma DecideOnPayment(w: World, status: Status, p: Payment, now: int, eligible: bool)
    requires WorldInv(w) && (eligible ==> StillEligible(w))
    requires w.op.status.PaymentPending? || w.op.status.FailedOperation?
    requires p in w.payments && p.reference == w.paymentReference
    requires status == w.op.status || (status.RefundPending? && p.status.Approved?)
    requires status == w.op.status ==> p.amount == w.quote.proration
    ensures Good(w, AfterVerification(w, Adopt(w.op, p).(status := status), now, eligible))
  {
    hide WorldInv, RunInv, Save, EnterPlan, EnterRefund, StillEligible, InWindow;
    var mem := Adopt(w.op, p).(status := status);
    SomeonePaid(w, p);
    DecideToStop(w, mem, p, now, eligible);
    if p.status.Approved? { DecideToGoOn(w, mem, p, now, eligible); }
  }

  lemma DecideWithoutPayment(w: World, now: int, eligible: bool)
    requires WorldInv(w) && (eligible ==> StillEligible(w))
    requires w.op.status.PaymentPending? || w.op.status.FailedOperation?
    requires w.op.paymentId.None?
    ensures Good(w, AfterVerification(w, w.op, now, eligible))
  {
    SaveKeeps(w, w.op, FailedOperation, QuoteExpired, now, eligible);
    SaveSame(w, w.op, NoCode, now, eligible);
  }

  lemma PaymentFound(w: World, found: Search, now: int, eligible: bool)
    requires WorldInv(w) && (eligible ==> StillEligible(w))
    requires w.op.status.PaymentPending? || w.op.status.FailedOperation?
    requires found.Found? ==> found.payment in w.payments && found.payment.reference == w.paymentReference
    requires found.Missing? ==> forall i | 0 <= i < |w.payments| :: w.payments[i].reference != w.paymentReference
    ensures Good(w, OnPayment(w, w.op, found, now, eligible))
  {
    match found {
      case Failed => SaveSame(w, w.op, PaymentVerificationRetry, now, eligible);
      case Missing =>
        DecideWithoutPayment(w, now, eligible);
      case Found(p) =>
        if Matches(w, p) {
          DecideOnPayment(w, w.op.status, p, now, eligible);
          assert Adopt(w.op, p).(status := w.op.status) == Adopt(w.op, p);
        } else if p.status.Approved? {
          DecideOnPayment(w, RefundPending, p, now, eligible);
        } else {
          AdoptedIsBacked(w, w.op, p);
          var i :| 0 <= i < |w.payments| && w.payments[i] == p;
          assert w.checkoutIssued && w.quote.paymentRequired;
          SaveKeeps(w, Adopt(w.op, p), FailedOperation, PaymentMismatch, now, eligible);
        }
    }
  }

  // ---------------------------------------------------------------------------
  // Every step keeps the invariant
  // ---------------------------------------------------------------------------

  /** Starting from a committed decision to change the plan. */
  lemma ResumePlan(w: World, now: int)
    requires WorldInv(w) && w.op.status.PlanUpdating?
    ensures Good(w, EnterPlan(w.op, now, Eligible(w)))
  {
    RestatusBacked(w, w.op, RefundPending);
    EnterRefundKeeps(w, w.op, now, Eligible(w));
  }

  lemma ResumeRefund(w: World, now: int)
    requires WorldInv(w) && w.op.status.RefundPending?
    ensures Good(w, EnterRefund(w.op, now, Eligible(w)))
  {
    RestatusBacked(w, w.op, RefundPending);
    EnterRefundKeeps(w, w.op, now, Eligible(w));
  }

  lemma BeginKeeps(m: Machine, now: int)
    requires Inv(m)
    ensures Inv(Begin(m, now))
  {
    hide WorldInv, EnterPlan, EnterRefund, Billable, SnapshotOf;
    if m.w.op.status.PlanUpdating? { ResumePlan(m.w, now); }
    if m.w.op.status.RefundPending? { ResumeRefund(m.w, now); }
  }

  lemma RestatusBacked(w: World, op: Op, status: Status)
    requires Backed(w.payments, w.paymentReference, op) && !op.status.RefundedInFull?
    ensures Backed(w.payments, w.paymentReference, op.(status := status))
  {
    if op.paymentId.Some? {
      var i :| 0 <= i < |w.payments| && Backs(w.payments[i], w.paymentReference, op);
      assert Backs(w.payments[i], w.paymentReference, op.(status := status));
    }
  }

  lemma VerificationFacts(m: Machine)
    requires Inv(m) && m.pc.Running? && (m.pc.site.FindPayment? || m.pc.site.CreateCheckout?)
    ensures m.pc.mem == m.w.op && (m.w.op.status.PaymentPending? || m.w.op.status.FailedOperation?)
    ensures m.pc.eligible ==> StillEligible(m.w)
  {
  }

  lemma SearchAnswer(w: World, o: Outcome, refunds: seq<Outcome>)
    requires WorldInv(w)
    ensures var (after, found) := Find(w.payments, w.paymentReference, o, refunds);
            && (found.Found? ==> found.payment in after && found.payment.reference == w.paymentReference)
            && (found.Missing? ==> forall i | 0 <= i < |after| :: after[i].reference != w.paymentReference)
  {
    hide Find;
    FindIsSafe(w.payments, w.paymentReference, o, refunds);
    FindAnswers(w.payments, w.paymentReference, o, refunds);
  }

  lemma FindPaymentKeeps(m: Machine, o: Outcome, refunds: seq<Outcome>)
    requires Inv(m) && m.pc.Running? && m.pc.site.FindPayment?
    ensures Inv(Call(m, o, refunds))
  {
    hide WorldInv, RunInv, Find, OnPayment;
    VerificationFacts(m);
    var w := m.w;
    var (after, found) := Find(w.payments, w.paymentReference, o, refunds);
    SearchKeeps(w, o, refunds);
    SearchAnswer(w, o, refunds);
    PaymentFound(WithPayments(w, after), found, m.pc.now, m.pc.eligible);
  }

  lemma PlanFacts(m: Machine)
    requires Inv(m) && m.pc.Running? && (m.pc.site.GetPlan? || m.pc.site.PutPlan? || m.pc.site.VerifyPlan?)
    ensures var w, mem := m.w, m.pc.mem;
            && mem == w.op && w.op.status.PlanUpdating? && w.op.planStarted && m.pc.eligible && StillEligible(w)
            && (m.pc.site.PutPlan? ==> w.plan.amount == w.snap.monthly)
  {
  }

  /** Where a reconcile can go while the plan change is under way. */
  lemma PlanMoves(w: World, mem: Op, now: int, eligible: bool)
    requires WorldInv(w) && eligible && StillEligible(w)
    requires mem == w.op && w.op.status.PlanUpdating? && w.op.planStarted
    ensures Good(w, Save(mem, mem.status, PlanUpdateRetry, now, eligible))
    ensures Good(w, EnterRefund(mem, now, eligible))
    ensures w.plan.amount == w.quote.newMonthly ==> Good(w, Activate(mem, w.plan.amount, now, eligible))
    ensures w.plan.amount == w.quote.newMonthly ==> Good(w, Running(VerifyPlan, mem, now, eligible))
    ensures w.plan.amount == w.snap.monthly ==> Good(w, Running(PutPlan, mem, now, eligible))
  {
    SaveSame(w, mem, PlanUpdateRetry, now, eligible);
    RestatusBacked(w, mem, RefundPending);
    EnterRefundKeeps(w, mem, now, eligible);
    if w.plan.amount == w.quote.newMonthly { ActivateKeeps(w, mem, now, eligible); }
  }

  /** Raising the amount keeps the invariant, whether or not the answer arrives. */
  lemma RaisedWorld(w: World, o: Outcome)
    requires WorldInv(w) && w.op.status.PlanUpdating? && w.op.planStarted && w.plan.amount == w.snap.monthly
    ensures WorldInv(PutAmount(w, w.quote.newMonthly, o))
  {
  }

  lemma PlanReadKeeps(m: Machine, o: Outcome, refunds: seq<Outcome>)
    requires Inv(m) && m.pc.Running? && (m.pc.site.GetPlan? || m.pc.site.VerifyPlan?)
    ensures Inv(Call(m, o, refunds))
  {
    hide WorldInv, RunInv, Save, Activate, EnterRefund;
    PlanFacts(m);
    PlanMoves(m.w, m.pc.mem, m.pc.now, m.pc.eligible);
  }

  lemma PutPlanKeeps(m: Machine, o: Outcome, refunds: seq<Outcome>)
    requires Inv(m) && m.pc.Running? && m.pc.site.PutPlan?
    ensures Inv(Call(m, o, refunds))
  {
    hide WorldInv, RunInv, Save, Activate, EnterRefund;
    PlanFacts(m);
    RaisedWorld(m.w, o);
    var w1 := PutAmount(m.w, m.w.quote.newMonthly, o);
    PlanMoves(w1, m.pc.mem, m.pc.now, m.pc.eligible);
  }

  /** Saving a refund decision whose amount is restored where it had been raised. */
  lemma RefundDecisionKeeps(w: World, mem: Op, code: Code, now: int, eligible: bool)
    requires WorldInv(w) && (eligible ==> StillEligible(w)) && Refunding(w, mem)
    ensures Good(w, Save(mem, mem.status, code, now, eligible))
  {
    RestatusBacked(w, mem, RefundPending);
    var op := mem.(status := mem.status, code := code);
    if op.paymentId.Some? {
      var i :| 0 <= i < |w.payments| && Backs(w.payments[i], w.paymentReference, mem);
      assert Backs(w.payments[i], w.paymentReference, op);
    }
    SaveKeeps(w, mem, mem.status, code, now, eligible);
  }

  lemma AfterRestoreKeeps(w: World, mem: Op, now: int, eligible: bool)
    requires WorldInv(w) && (eligible ==> StillEligible(w)) && Refunding(w, mem)
    requires mem.planStarted ==> w.plan.amount == w.snap.monthly
    ensures Good(w, AfterRestore(w, mem, now, eligible))
  {
    RefundDecisionKeeps(w, mem, PaymentVerificationRetry, now, eligible);
    if !w.quote.paymentRequired {
      SaveKeeps(w, mem, FailedOperation, PlanUpdateFailed, now, eligible);
    }
  }

  lemma GetRestoreKeeps(m: Machine, o: Outcome, refunds: seq<Outcome>)
    requires Inv(m) && m.pc.Running? && m.pc.site.GetRestore?
    ensures Inv(Call(m, o, refunds))
  {
    hide WorldInv, RunInv, AfterRestore, Save;
    RefundingFacts(m);
    var w, mem, now, eligible := m.w, m.pc.mem, m.pc.now, m.pc.eligible;
    RefundDecisionKeeps(w, mem, PlanRestoreRetry, now, eligible);
    RefundDecisionKeeps(w, mem, PlanRestoreReview, now, eligible);
    if mem.planStarted ==> w.plan.amount == w.snap.monthly { AfterRestoreKeeps(w, mem, now, eligible); }
    PutRestoreGood(w, mem, now, eligible);
  }

  lemma RefundingFacts(m: Machine)
    requires Inv(m) && m.pc.Running? && (m.pc.site.GetRestore? || m.pc.site.PutRestore? || m.pc.site.CheckRestore?)
    ensures Refunding(m.w, m.pc.mem) && (m.pc.eligible ==> StillEligible(m.w))
    ensures m.pc.site.CheckRestore? ==> m.pc.mem.planStarted && m.w.plan.amount == m.w.snap.monthly
    ensures m.pc.site.PutRestore? ==> m.pc.mem.planStarted && m.w.plan.amount == m.w.quote.newMonthly
  {
  }

  lemma PutRestoreGood(w: World, mem: Op, now: int, eligible: bool)
    requires WorldInv(w) && (eligible ==> StillEligible(w)) && Refunding(w, mem)
    ensures mem.planStarted && w.plan.amount == w.quote.newMonthly ==> Good(w, Running(PutRestore, mem, now, eligible))
  {
  }

  lemma PutRestoreKeeps(m: Machine, o: Outcome, refunds: seq<Outcome>)
    requires Inv(m) && m.pc.Running? && m.pc.site.PutRestore?
    ensures Inv(Call(m, o, refunds))
  {
    hide WorldInv, RunInv, Save, PutAmount;
    RefundingFacts(m);
    var w, mem, now, eligible := m.w, m.pc.mem, m.pc.now, m.pc.eligible;
    var w1 := PutAmount(w, w.snap.monthly, o);
    RestoredWorld(w, mem, o);
    RestoredGood(w, mem, o, now, eligible);
    RefundDecisionKeeps(w1, mem, PlanRestoreRetry, now, eligible);
  }

  lemma RestoredWorld(w: World, mem: Op, o: Outcome)
    requires WorldInv(w) && Refunding(w, mem) && mem.planStarted && w.plan.amount == w.quote.newMonthly
    ensures WorldInv(PutAmount(w, w.snap.monthly, o)) && Refunding(PutAmount(w, w.snap.monthly, o), mem)
  {
  }

  lemma RestoredGood(w: World, mem: Op, o: Outcome, now: int, eligible: bool)
    requires Refunding(w, mem) && mem.planStarted && (eligible ==> StillEligible(w))
    ensures eligible ==> StillEligible(PutAmount(w, w.snap.monthly, o))
    ensures w.snap.monthly >= 1 && o.Done? ==> Good(PutAmount(w, w.snap.monthly, o), Running(CheckRestore, mem, now, eligible))
  {
  }

  lemma CheckRestoreKeeps(m: Machine, o: Outcome, refunds: seq<Outcome>)
    requires Inv(m) && m.pc.Running? && m.pc.site.CheckRestore?
    ensures Inv(Call(m, o, refunds))
  {
    hide WorldInv, RunInv, AfterRestore, Save;
    RefundingFacts(m);
    RefundDecisionKeeps(m.w, m.pc.mem, PlanRestoreRetry, m.pc.now, m.pc.eligible);
    AfterRestoreKeeps(m.w, m.pc.mem, m.pc.now, m.pc.eligible);
  }

  lemma RefundingEvolves(w: World, after: seq<Payment>, mem: Op)
    requires Refunding(w, mem) && Evolves(w.payments, after) && |after| == |w.payments|
    ensures Refunding(WithPayments(w, after), mem)
  {
    BackedEvolves(w.payments, after, w.paymentReference, mem);
  }

  lemma RefundLeavesOthers(ps: seq<Payment>, reference: string, mem: Op, after: seq<Payment>)
    requires Book(ps) && Backed(ps, reference, mem) && mem.paymentId.Some? && |after| == |ps|
    requires forall i | 0 <= i < |ps| :: ps[i].id != mem.paymentId.value ==> after[i] == ps[i]
    ensures forall j | 0 <= j < |ps| :: ps[j].reference != reference ==> after[j] == ps[j]
  {
    var i :| 0 <= i < |ps| && Backs(ps[i], reference, mem);
    forall j | 0 <= j < |ps| && ps[j].reference != reference ensures after[j] == ps[j] {
      assert ps[j].id != ps[i].id;
    }
  }

  lemma RefundTakes(w: World, mem: Op, o: Outcome)
    requires WorldInv(w) && Refunding(w, mem) && w.quote.paymentRequired
    ensures var after := Refund(w.payments, mem.paymentId.value, o).0;
            && WorldInv(WithPayments(w, after)) && Evolves(w.payments, after)
            && (Refund(w.payments, mem.paymentId.value, o).1 ==> RefundedAlready(after, mem))
  {
    hide Refund, WorldInv, Book, Evolves, Progress;
    var id := mem.paymentId.value;
    var after := Refund(w.payments, id, o).0;
    WorldBook(w);
    RefundProgress(w.payments, id, o);
    RefundLeavesOthers(w.payments, w.paymentReference, mem, after);
    ProgressEvolves(w.payments, after);
    GivingBackKeeps(w, after);
  }

  lemma RefundPrimaryKeeps(m: Machine, o: Outcome, refunds: seq<Outcome>)
    requires Inv(m) && m.pc.Running? && m.pc.site.RefundPrimary?
    ensures Inv(Call(m, o, refunds))
  {
    hide Refund, Evolves, WorldInv;
    var w, mem, now, eligible := m.w, m.pc.mem, m.pc.now, m.pc.eligible;
    RefundPrimaryFacts(m);
    var (after, ok) := Refund(w.payments, mem.paymentId.value, o);
    RefundTakes(w, mem, o);
    RefundingEvolves(w, after, mem);
    RefundDecisionKeeps(WithPayments(w, after), mem, RefundRetry, now, eligible);
  }

  lemma RefundPrimaryFacts(m: Machine)
    requires Inv(m) && m.pc.Running? && m.pc.site.RefundPrimary?
    ensures m.w.quote.paymentRequired && m.pc.mem.paymentId.Some?
  {
  }

  /** Recording a refund after the payment was seen given back. */
  lemma RefundConfirmed(w: World, mem: Op, p: Payment, now: int, eligible: bool)
    requires WorldInv(w) && (eligible ==> StillEligible(w)) && Refunding(w, mem) && w.quote.paymentRequired
    requires mem.planStarted ==> w.plan.amount == w.snap.monthly
    requires RefundedAlready(w.payments, mem)
    ensures Good(w, Save(mem.(refunded := p.refunded, paymentStatus := p.status), RefundedInFull, NoCode, now, eligible))
  {
    var next := mem.(refunded := p.refunded, paymentStatus := p.status);
    var op := next.(status := RefundedInFull, code := NoCode);
    var i :| 0 <= i < |w.payments| && Backs(w.payments[i], w.paymentReference, mem);
    assert Backs(w.payments[i], w.paymentReference, op);
    SaveKeeps(w, next, RefundedInFull, NoCode, now, eligible);
  }

  lemma StillRefunding(w: World, after: seq<Payment>, mem: Op)
    requires Refunding(w, mem) && RefundedAlready(w.payments, mem)
    requires |after| == |w.payments| && Evolves(w.payments, after)
    ensures Refunding(WithPayments(w, after), mem) && RefundedAlready(after, mem)
  {
    hide Evolves, RefundedAlready, Refunding, Given;
    RefundingEvolves(w, after, mem);
    RefundedAlreadyEvolves(w.payments, after, mem);
  }

  lemma RefundAnswerKeeps(w: World, mem: Op, found: Search, now: int, eligible: bool)
    requires WorldInv(w) && (eligible ==> StillEligible(w)) && Refunding(w, mem) && w.quote.paymentRequired
    requires mem.planStarted ==> w.plan.amount == w.snap.monthly
    requires RefundedAlready(w.payments, mem)
    ensures Good(w, OnConfirmRefund(mem, found, now, eligible))
  {
    if found.Found? && found.payment.refunded >= mem.amount {
      RefundConfirmed(w, mem, found.payment, now, eligible);
    } else {
      RefundDecisionKeeps(w, mem, RefundRetry, now, eligible);
    }
  }

  lemma ConfirmRefundFacts(m: Machine)
    requires Inv(m) && m.pc.Running? && m.pc.site.ConfirmRefund?
    ensures Refunding(m.w, m.pc.mem) && m.w.quote.paymentRequired && RefundedAlready(m.w.payments, m.pc.mem)
    ensures m.pc.mem.planStarted ==> m.w.plan.amount == m.w.snap.monthly
    ensures m.pc.eligible ==> StillEligible(m.w)
    ensures !m.w.op.status.Completed?
  {
  }

  lemma WithPaymentsFields(w: World, after: seq<Payment>)
    requires |after| == |w.payments|
    ensures var w1 := WithPayments(w, after);
            && w1.op == w.op && w1.quote == w.quote && w1.snap == w.snap && w1.row == w.row && w1.plan == w.plan
            && w1.payments == after && w1.paymentReference == w.paymentReference
  {
  }

  lemma ConfirmRefundKeeps(m: Machine, o: Outcome, refunds: seq<Outcome>)
    requires Inv(m) && m.pc.Running? && m.pc.site.ConfirmRefund?
    ensures Inv(Call(m, o, refunds))
  {
    hide WorldInv, RunInv, Find, OnConfirmRefund, Evolves, Refunding, RefundedAlready, WithPayments;
    ConfirmRefundFacts(m);
    var (after, found) := Find(m.w.payments, m.w.paymentReference, o, refunds);
    SearchKeeps(m.w, o, refunds);
    WithPaymentsFields(m.w, after);
    StillRefunding(m.w, after, m.pc.mem);
    RefundAnswerKeeps(WithPayments(m.w, after), m.pc.mem, found, m.pc.now, m.pc.eligible);
  }

  lemma SweepKeeps(m: Machine, o: Outcome, refunds: seq<Outcome>)
    requires Inv(m) && m.pc.Running? && m.pc.site.SweepDuplicates?
    ensures Inv(Call(m, o, refunds))
  {
    var w, mem := m.w, m.pc.mem;
    var (after, ok) := ClearDuplicates(w.payments, w.paymentReference, mem.paymentId.value, refunds);
    DuplicatesSparePrimary(w.payments, w.paymentReference, mem.paymentId.value, refunds);
    GivingBackKeeps(w, after);
    SaveSame(WithPayments(w, after), mem, NoCode, m.pc.now, m.pc.eligible);
    SaveSame(WithPayments(w, after), mem, DuplicateRefundRetry, m.pc.now, m.pc.eligible);
  }

  lemma CheckoutIssued(w: World)
    requires WorldInv(w) && w.quote.proration >= 1
    ensures WorldInv(w.(checkoutIssued := true))
  {
  }

  lemma CheckoutSaved(w: World, now: int, eligible: bool)
    requires WorldInv(w) && (eligible ==> StillEligible(w)) && !w.op.status.Completed?
    ensures Good(w, Save(w.op.(checkout := true), w.op.status, NoCode, now, eligible))
  {
    var next := w.op.(checkout := true);
    var op := next.(status := next.status, code := NoCode);
    if op.paymentId.Some? {
      var i :| 0 <= i < |w.payments| && Backs(w.payments[i], w.paymentReference, w.op);
      assert Backs(w.payments[i], w.paymentReference, op);
    }
    SaveKeeps(w, next, next.status, NoCode, now, eligible);
  }

  lemma CheckoutKeeps(m: Machine, o: Outcome, refunds: seq<Outcome>)
    requires Inv(m) && m.pc.Running? && m.pc.site.CreateCheckout?
    ensures Inv(Call(m, o, refunds))
  {
    hide WorldInv, RunInv, Save;
    VerificationFacts(m);
    var w, now, eligible := m.w, m.pc.now, m.pc.eligible;
    SaveSame(w, w.op, CheckoutRetry, now, eligible);
    if w.quote.proration >= 1 {
      CheckoutIssued(w);
      SaveSame(w.(checkoutIssued := true), w.op, CheckoutRetry, now, eligible);
      CheckoutSaved(w.(checkoutIssued := true), now, eligible);
    }
  }

  lemma SavingKeeps(m: Machine, o: Outcome, refunds: seq<Outcome>)
    requires Inv(m) && m.pc.Running? && m.pc.site.Saving?
    ensures Inv(Call(m, o, refunds))
  {
  }

  lemma CallKeeps(m: Machine, o: Outcome, refunds: seq<Outcome>)
    requires Inv(m) && m.pc.Running?
    ensures Inv(Call(m, o, refunds))
  {
    hide Inv, Call;
    var site := m.pc.site;
    if site.FindPayment? { FindPaymentKeeps(m, o, refunds); }
    else if site.CreateCheckout? { CheckoutKeeps(m, o, refunds); }
    else if site.GetPlan? || site.VerifyPlan? { PlanReadKeeps(m, o, refunds); }
    else if site.PutPlan? { PutPlanKeeps(m, o, refunds); }
    else if site.GetRestore? { GetRestoreKeeps(m, o, refunds); }
    else if site.PutRestore? { PutRestoreKeeps(m, o, refunds); }
    else if site.CheckRestore? { CheckRestoreKeeps(m, o, refunds); }
    else if site.RefundPrimary? { RefundPrimaryKeeps(m, o, refunds); }
    else if site.ConfirmRefund? { ConfirmRefundKeeps(m, o, refunds); }
    else if site.SweepDuplicates? { SweepKeeps(m, o, refunds); }
    else { SavingKeeps(m, o, refunds); }
  }

  lemma HappenKeeps(m: Machine, e: Event)
    requires Inv(m)
    ensures Inv(Happen(m, e))
  {
    DriftKeeps(m.w, e);
    if m.pc.Idle? {
      InterveneKeeps(Drift(m.w, e), e);
    } else {
      DriftKeepsRun(m.w, e, m.pc.site, m.pc.mem, m.pc.eligible);
    }
  }

  lemma StepKeeps(m: Machine, c: Choice)
    requires Inv(m)
    ensures Inv(Step(m, c))
  {
    match c
    case Start(now) => BeginKeeps(m, now);
    case Answer(o, refunds) => if m.pc.Running? { CallKeeps(m, o, refunds); }
    case Crash =>
    case Outside(e) => HappenKeeps(m, e);
  }

  /** The invariant holds after every run, crashes and lost answers included. */
  lemma {:induction false} RunKeeps(m: Machine, cs: seq<Choice>)
    requires Confirmed(m)
    ensures Inv(Run(m, cs))
  {
    if cs != [] {
      RunKeeps(m, cs[..|cs| - 1]);
      StepKeeps(Run(m, cs[..|cs| - 1]), cs[|cs| - 1]);
    }
  }
}
