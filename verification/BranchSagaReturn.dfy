/** The way back: an operation that cannot go through restores the recurring amount, gives the
    payment back and ends, however often its attempts were cut off. */
module BranchSagaReturn {
  import opened Common
  import opened BranchPayments
  import opened BranchSaga
  import opened BranchSagaSafety
  import opened BranchReconciler
  import opened BranchSagaConvergence

  /** The recurring amount can be put back. */
  predicate Restorable(w: World) {
    && PlanIsSnapshots(w) && SameProvider(w).Some? && w.snap.monthly >= 1
    && (w.op.planStarted ==> && PlanRenews(w) && SameProvider(w) == Some(true)
                             && (w.plan.amount == w.snap.monthly || w.plan.amount == w.quote.newMonthly))
  }

  /** No payment was asked for, and none was made. */
  predicate Free(w: World) {
    && !w.quote.paymentRequired && w.quote.proration < 1 && w.op.paymentStatus.Pending?
    && forall j | 0 <= j < |w.payments| :: w.payments[j].reference != w.paymentReference
  }

  predicate Collected(p: Payment) {
    p.status.Approved? || p.status.Refunded?
  }

  predicate Owed(w: World, i: nat) {
    && Alone(w.payments, w.paymentReference, i) && Collected(w.payments[i])
    && w.op.paymentId == Some(w.payments[i].id) && w.op.amount == w.payments[i].amount && w.op.refunded < w.op.amount
  }

  /** The payment is the quoted one, but it came late, was returned in part, or the account changed. */
  predicate Declines(w: World, i: nat) {
    && Alone(w.payments, w.paymentReference, i) && Collected(w.payments[i]) && Matches(w, w.payments[i])
    && (w.payments[i].status.Refunded? || !Eligible(w) || !InWindow(w.quote, w.payments[i].approvedAt) || w.payments[i].refunded > 0)
  }

  predicate Finished(w: World, op: Op) {
    op.status.RefundedInFull? || (op.status.FailedOperation? && !w.quote.paymentRequired)
  }

  /** Committed states from which the operation is undone. */
  predicate Falling(w: World, i: nat) {
    if Finished(w, w.op) then w.op.status.FailedOperation? ==> Free(w)
    else if w.op.status.RefundPending? || (w.op.status.PlanUpdating? && !Eligible(w)) then
      Restorable(w) && (if w.quote.paymentRequired then Owed(w, i) else Free(w))
    else && Restorable(w) && Verifying(w.op.status) && w.quote.paymentRequired && w.quote.proration >= 1 && !w.op.planStarted
         && Declines(w, i)
  }

  function Closing(op: Op, amount: int): Op {
    op.(status := RefundedInFull, code := NoCode, refunded := amount, paymentStatus := Refunded)
  }

  /** Where it ends: the payment given back whole, the provider at the old amount, no branch. */
  function Returned(w: World, i: nat): Outlook {
    if Finished(w, w.op) || (i >= |w.payments| && w.quote.paymentRequired) then Seen(w)
    else
      Outlook(if w.quote.paymentRequired then Closing(Bearing(w, i), w.payments[i].amount)
              else w.op.(status := FailedOperation, code := NoCode),
              w.row, w.inserted, if w.op.planStarted then w.plan.(amount := w.snap.monthly) else w.plan,
              if w.quote.paymentRequired then GiveBackIds(w.payments, [w.payments[i].id]) else w.payments)
  }

  /** The decision to restore and refund, as a running reconcile holds it. */
  predicate Decided(w: World, mem: Op, i: nat) {
    && Restorable(w) && mem.status.RefundPending? && mem.planStarted == w.op.planStarted && !Finished(w, w.op)
    && if w.quote.paymentRequired then
         && Alone(w.payments, w.paymentReference, i) && Collected(w.payments[i])
         && mem.paymentId == Some(w.payments[i].id) && mem.amount == w.payments[i].amount && mem.refunded < mem.amount
         && Closing(mem, w.payments[i].amount) == Returned(w, i).op
       else mem == w.op.(status := RefundPending) && Free(w)
  }

  predicate FallsAt(w: World, site: Site, mem: Op, eligible: bool, i: nat) {
    match site
    case FindPayment => mem == w.op && Verifying(w.op.status) && eligible == Eligible(w)
    case CreateCheckout => mem == w.op && Finished(w, w.op) && w.op.status.FailedOperation?
    case GetRestore => Decided(w, mem, i)
    case PutRestore => Decided(w, mem, i) && mem.planStarted
    case CheckRestore => Decided(w, mem, i) && mem.planStarted
    case RefundPrimary => Decided(w, mem, i) && w.quote.paymentRequired && (mem.planStarted ==> w.plan.amount == w.snap.monthly)
    case ConfirmRefund => && Decided(w, mem, i) && w.quote.paymentRequired && (mem.planStarted ==> w.plan.amount == w.snap.monthly)
                          && w.payments[i].status.Refunded?
    case Saving(activate) => Falling(Committed(w, mem, activate), i) && Returned(Committed(w, mem, activate), i) == Returned(w, i)
    case _ => false
  }

  predicate Falls(m: Machine, i: nat) {
    Falling(m.w, i) && (m.pc.Running? ==> FallsAt(m.w, m.pc.site, m.pc.mem, m.pc.eligible, i))
  }

  /** A commit that is about to be written ends the operation. */
  predicate Ends(m: Machine) {
    m.pc.Running? && m.pc.site.Saving? ==> Finished(m.w, m.pc.mem)
  }

  /** A call in an undisturbed reconcile goes on, ends in good order, or reads the restored amount. */
  predicate EndsAt(m: Machine) {
    && Ends(m) && m.pc.Running?
    && (m.pc.site.CheckRestore? ==> m.w.plan.amount == m.w.snap.monthly)
  }

  lemma RestoreUnmoved(w: World, mem: Op)
    requires mem.planStarted == w.op.planStarted
    ensures Restorable(w.(op := mem)) == Restorable(w) && SameProvider(w.(op := mem)) == SameProvider(w)
    ensures Eligible(w.(op := mem)) == Eligible(w)
  {
  }

  lemma SaveSameFalls(w: World, code: Code, now: int, eligible: bool, i: nat)
    requires Falling(w, i)
    ensures Falls(Machine(w, Save(w.op, w.op.status, code, now, eligible)), i)
  {
    hide Restorable, Book, GiveBackIds, Eligible, InWindow;
    RestoreUnmoved(w, w.op.(code := code));
  }

  /** A retry commits the decision to refund. */
  lemma RetryFalls(w: World, mem: Op, code: Code, now: int, eligible: bool, i: nat)
    requires Falling(w, i) && Decided(w, mem, i)
    ensures Falls(Machine(w, Save(mem, mem.status, code, now, eligible)), i)
  {
    hide Restorable, Book, GiveBackIds;
    RestoreUnmoved(w, mem.(code := code));
  }

  lemma ClosedOutlook(w: World, mem: Op, i: nat)
    requires Decided(w, mem, i) && w.quote.paymentRequired && (mem.planStarted ==> w.plan.amount == w.snap.monthly)
    requires GiveBackIds(w.payments, [w.payments[i].id]) == w.payments
    ensures Returned(w, i) == Outlook(Closing(mem, w.payments[i].amount), w.row, w.inserted, w.plan, w.payments)
  {
    hide Restorable, GiveBackIds, Book;
    assert w.plan.(amount := w.plan.amount) == w.plan;
  }

  lemma ClosedIsSeen(w: World, i: nat)
    requires w.op.status.RefundedInFull?
    ensures Falling(w, i) && Returned(w, i) == Seen(w)
  {
  }

  lemma CloseFalls(w: World, mem: Op, p: Payment, now: int, eligible: bool, i: nat)
    requires Falling(w, i) && Decided(w, mem, i) && w.quote.paymentRequired && (mem.planStarted ==> w.plan.amount == w.snap.monthly)
    requires w.payments[i].status.Refunded? && p == w.payments[i] && GiveBackIds(w.payments, [p.id]) == w.payments
    requires p.refunded == p.amount
    ensures var m := Machine(w, Save(mem.(refunded := p.refunded, paymentStatus := p.status), RefundedInFull, NoCode, now, eligible));
            Falls(m, i) && EndsAt(m)
  {
    hide Decided, Falling, Returned, GiveBackIds;
    ClosedOutlook(w, mem, i);
    ClosedIsSeen(w.(op := Closing(mem, p.amount)), i);
    assert Closing(mem, p.amount) == mem.(refunded := p.refunded, paymentStatus := p.status).(status := RefundedInFull, code := NoCode);
  }

  lemma GiveUpFalls(w: World, mem: Op, now: int, eligible: bool, i: nat)
    requires Falling(w, i) && Decided(w, mem, i) && !w.quote.paymentRequired && (mem.planStarted ==> w.plan.amount == w.snap.monthly)
    ensures var m := Machine(w, Save(mem, FailedOperation, PlanUpdateFailed, now, eligible)); Falls(m, i) && EndsAt(m)
  {
    hide Restorable;
    assert w.plan.(amount := w.plan.amount) == w.plan;
  }

  lemma AfterRestoreFalls(w: World, mem: Op, now: int, eligible: bool, i: nat)
    requires Falling(w, i) && Decided(w, mem, i) && (mem.planStarted ==> w.plan.amount == w.snap.monthly)
    ensures var m := Machine(w, AfterRestore(w, mem, now, eligible)); Falls(m, i) && EndsAt(m)
  {
    hide Falling, Returned, Save, Restorable;
    if !w.quote.paymentRequired { GiveUpFalls(w, mem, now, eligible, i); }
  }

  lemma GetRestoreFalls(m: Machine, i: nat, o: Outcome, refunds: seq<Outcome>)
    requires Falls(m, i) && m.pc.Running? && m.pc.site.GetRestore?
    ensures var r := Call(m, o, refunds); r.w == m.w && Falls(r, i) && (o.Done? ==> EndsAt(r))
  {
    hide Falling, Returned, Save, AfterRestore, Alone, Free;
    var w, mem, now, eligible := m.w, m.pc.mem, m.pc.now, m.pc.eligible;
    RetryFalls(w, mem, PlanRestoreRetry, now, eligible, i);
    if mem.planStarted ==> w.plan.amount == w.snap.monthly { AfterRestoreFalls(w, mem, now, eligible, i); }
  }

  lemma LoweredStays(w: World, mem: Op, i: nat, o: Outcome)
    requires Falling(w, i) && Decided(w, mem, i) && mem.planStarted
    ensures var w1 := PutAmount(w, w.snap.monthly, o);
            && Falling(w1, i) && Decided(w1, mem, i) && Returned(w1, i) == Returned(w, i)
            && w1.op == w.op && w1.quote == w.quote && w1.snap == w.snap
            && (o.Done? ==> w1.plan.amount == w1.snap.monthly)
  {
    hide Alone, Book, GiveBackIds, Eligible, InWindow, Matches, Collected;
    LoweredFields(w, o);
  }

  lemma LoweredFields(w: World, o: Outcome)
    ensures var w1 := PutAmount(w, w.snap.monthly, o);
            && w1.op == w.op && w1.quote == w.quote && w1.snap == w.snap && w1.row == w.row && w1.owner == w.owner
            && w1.payments == w.payments && w1.paymentReference == w.paymentReference && w1.inserted == w.inserted
            && SameProvider(w1) == SameProvider(w) && Eligible(w1) == Eligible(w) && PlanIsSnapshots(w1) == PlanIsSnapshots(w) && PlanRenews(w1) == PlanRenews(w)
            && w1.plan.(amount := w.snap.monthly) == w.plan.(amount := w.snap.monthly)
  {
  }

  lemma PutRestoreFalls(m: Machine, i: nat, o: Outcome, refunds: seq<Outcome>)
    requires Falls(m, i) && m.pc.Running? && m.pc.site.PutRestore?
    ensures var r := Call(m, o, refunds);
            && r.w.op == m.w.op && r.w.quote == m.w.quote && Returned(r.w, i) == Returned(m.w, i) && Falls(r, i)
            && (o.Done? ==> EndsAt(r))
  {
    hide Falling, Returned, Save, PutAmount, Decided;
    var w, mem, now, eligible := m.w, m.pc.mem, m.pc.now, m.pc.eligible;
    LoweredStays(w, mem, i, o);
    assert w.snap.monthly >= 1 by { OldAmountIsPositive(w, mem, i); }
    RetryFalls(PutAmount(w, w.snap.monthly, o), mem, PlanRestoreRetry, now, eligible, i);
  }

  lemma OldAmountIsPositive(w: World, mem: Op, i: nat)
    requires Decided(w, mem, i)
    ensures w.snap.monthly >= 1
  {
  }

  lemma CheckRestoreFalls(m: Machine, i: nat, o: Outcome, refunds: seq<Outcome>)
    requires Falls(m, i) && m.pc.Running? && m.pc.site.CheckRestore?
    ensures var r := Call(m, o, refunds); r.w == m.w && Falls(r, i) && (o.Done? && EndsAt(m) ==> EndsAt(r))
  {
    hide Falling, Returned, Save, AfterRestore, Alone, Free, SameProvider;
    var w, mem, now, eligible := m.w, m.pc.mem, m.pc.now, m.pc.eligible;
    RetryFalls(w, mem, PlanRestoreRetry, now, eligible, i);
    if w.plan.amount == w.snap.monthly { AfterRestoreFalls(w, mem, now, eligible, i); }
  }

  // The refund itself.

  lemma AloneRefund(ps: seq<Payment>, reference: string, i: nat, o: Outcome)
    requires Alone(ps, reference, i) && Collected(ps[i])
    ensures Refund(ps, ps[i].id, o) == (if Applied(o) then GiveBackIds(ps, [ps[i].id]) else ps, o.Done?)
    ensures var after := GiveBackIds(ps, [ps[i].id]);
            && Alone(after, reference, i) && after[i] == GiveBack(ps[i]) && after[i].status.Refunded?
            && GiveBackIds(after, [after[i].id]) == after && Sound(after[i])
  {
    assert Locate(ps, ps[i].id) == i;
    GiveBackKeepsBook(ps, [ps[i].id]);
    assert Sound(ps[i]);
    if ps[i].status.Refunded? { assert GiveBackIds(ps, [ps[i].id]) == ps; }
    GiveBackTwice(ps, [ps[i].id], [ps[i].id]);
    assert GiveBackIds(ps, [ps[i].id] + [ps[i].id]) == GiveBackIds(ps, [ps[i].id]);
  }

  lemma WithPaymentsLooks(w: World, after: seq<Payment>)
    requires |after| == |w.payments|
    ensures var w1 := WithPayments(w, after);
            && w1.op == w.op && w1.quote == w.quote && w1.snap == w.snap && w1.row == w.row && w1.plan == w.plan && w1.owner == w.owner
            && w1.payments == after && w1.paymentReference == w.paymentReference && w1.inserted == w.inserted
            && w1.otherPending == w.otherPending
  {
  }

  lemma RefundedStays(w: World, mem: Op, i: nat)
    requires Falling(w, i) && Decided(w, mem, i) && w.quote.paymentRequired
    ensures var after := GiveBackIds(w.payments, [w.payments[i].id]);
            var w1 := WithPayments(w, after);
            && Falling(w1, i) && Decided(w1, mem, i) && Returned(w1, i) == Returned(w, i)
            && w1.op == w.op && w1.quote == w.quote && w1.snap == w.snap && w1.plan == w.plan && w1.payments[i].status.Refunded?
  {
    hide WithPayments, GiveBackIds, Alone;
    AloneRefund(w.payments, w.paymentReference, i, Done);
    WithPaymentsLooks(w, GiveBackIds(w.payments, [w.payments[i].id]));
  }

  lemma RefundFalls(m: Machine, i: nat, o: Outcome, refunds: seq<Outcome>)
    requires Falls(m, i) && m.pc.Running? && m.pc.site.RefundPrimary?
    ensures var r := Call(m, o, refunds);
            && r.w.op == m.w.op && r.w.quote == m.w.quote && Returned(r.w, i) == Returned(m.w, i) && Falls(r, i)
            && (o.Done? ==> EndsAt(r))
  {
    hide Falling, Returned, Save, Refund, WithPayments, GiveBackIds, Alone, Restorable;
    var w, mem, now, eligible := m.w, m.pc.mem, m.pc.now, m.pc.eligible;
    AloneRefund(w.payments, w.paymentReference, i, o);
    RefundedStays(w, mem, i);
    NothingGiven(w);
    RetryFalls(w, mem, RefundRetry, now, eligible, i);
    RetryFalls(WithPayments(w, GiveBackIds(w.payments, [w.payments[i].id])), mem, RefundRetry, now, eligible, i);
  }

  lemma ConfirmFalls(m: Machine, i: nat, o: Outcome, refunds: seq<Outcome>)
    requires Falls(m, i) && m.pc.Running? && m.pc.site.ConfirmRefund?
    ensures var r := Call(m, o, refunds); r.w == m.w && Falls(r, i) && (o.Done? ==> EndsAt(r))
  {
    hide Falling, Returned, Save, Find, WithPayments, Restorable, Book;
    var w, mem, now, eligible := m.w, m.pc.mem, m.pc.now, m.pc.eligible;
    AloneFind(w.payments, w.paymentReference, i, o, refunds);
    NothingGiven(w);
    RetryFalls(w, mem, RefundRetry, now, eligible, i);
    RefundedIsWhole(w, i);
    CloseFalls(w, mem, w.payments[i], now, eligible, i);
  }

  lemma RefundedIsWhole(w: World, i: nat)
    requires Alone(w.payments, w.paymentReference, i) && w.payments[i].status.Refunded?
    ensures w.payments[i].refunded == w.payments[i].amount >= 1
    ensures GiveBackIds(w.payments, [w.payments[i].id]) == w.payments
  {
    assert Sound(w.payments[i]);
    assert GiveBackIds(w.payments, [w.payments[i].id]) == w.payments;
  }

  // Looking for the payment.

  lemma DecidedAfterPayment(w: World, i: nat)
    requires Falling(w, i) && Verifying(w.op.status) && w.quote.paymentRequired && w.payments[i].status.Approved?
    ensures Decided(w, Adopt(w.op, w.payments[i]).(status := RefundPending), i)
  {
    hide Restorable;
    assert Sound(w.payments[i]);
  }

  lemma AlreadyReturned(w: World, now: int, eligible: bool, i: nat)
    requires Falling(w, i) && Verifying(w.op.status) && w.quote.paymentRequired && w.payments[i].status.Refunded?
    ensures var m := Machine(w, Save(Adopt(w.op, w.payments[i]), RefundedInFull, NoCode, now, eligible)); Falls(m, i) && EndsAt(m)
  {
    hide Restorable, Book, GiveBackIds, Eligible;
    RefundedIsWhole(w, i);
    assert w.plan.(amount := w.plan.amount) == w.plan;
  }

  lemma PaymentFalls(w: World, now: int, i: nat)
    requires Falling(w, i) && Verifying(w.op.status) && w.quote.paymentRequired
    ensures var m := Machine(w, OnPayment(w, w.op, Found(w.payments[i]), now, Eligible(w))); Falls(m, i) && EndsAt(m)
  {
    hide Restorable, Book, Eligible, InWindow, Save, Returned, PlanIsSnapshots;
    if w.payments[i].status.Approved? { DecidedAfterPayment(w, i); ApprovedIsPartial(w, i); } else { AlreadyReturned(w,
        now, Eligible(w), i); }
  }

  lemma ApprovedIsPartial(w: World, i: nat)
    requires Alone(w.payments, w.paymentReference, i) && w.payments[i].status.Approved?
    ensures w.payments[i].refunded < w.payments[i].amount
  {
    assert Sound(w.payments[i]);
  }

  /** A free addition that was given up stays given up. */
  lemma GivenUpFalls(w: World, mem: Op, code: Code, now: int, eligible: bool, i: nat)
    requires Falling(w, i) && Finished(w, w.op) && w.op.status.FailedOperation? && mem == w.op
    ensures var m := Machine(w, Save(mem, FailedOperation, code, now, eligible)); Falls(m, i) && EndsAt(m)
  {
    hide Restorable;
  }

  lemma NobodyFalls(w: World, now: int, eligible: bool, i: nat)
    requires Falling(w, i) && Finished(w, w.op) && w.op.status.FailedOperation?
    ensures var m := Machine(w, OnPayment(w, w.op, Missing, now, eligible)); Falls(m, i) && EndsAt(m)
  {
    hide Returned;
    GivenUpFalls(w, w.op, NoCode, now, eligible, i);
    GivenUpFalls(w, w.op, QuoteExpired, now, eligible, i);
  }

  lemma SearchFalls(m: Machine, i: nat, o: Outcome, refunds: seq<Outcome>)
    requires Falls(m, i) && m.pc.Running? && m.pc.site.FindPayment?
    ensures var r := Call(m, o, refunds); r.w == m.w && Falls(r, i) && (o.Done? ==> EndsAt(r))
  {
    hide Find, WithPayments, Returned, Restorable, Eligible, Save, AfterVerification, Book, Matches;
    var w := m.w;
    SaveSameFalls(w, PaymentVerificationRetry, m.pc.now, m.pc.eligible, i);
    NothingGiven(w);
    if w.quote.paymentRequired {
      AloneFind(w.payments, w.paymentReference, i, o, refunds);
      PaymentFalls(w, m.pc.now, i);
    } else {
      NobodyPaid(w.payments, w.paymentReference, o, refunds);
      NobodyFalls(w, m.pc.now, m.pc.eligible, i);
    }
  }

  lemma CheckoutFalls(m: Machine, i: nat, o: Outcome, refunds: seq<Outcome>)
    requires Falls(m, i) && m.pc.Running? && m.pc.site.CreateCheckout?
    ensures var r := Call(m, o, refunds); r.w == m.w && Falls(r, i) && EndsAt(r)
  {
    hide Returned, Restorable, Save;
    GivenUpFalls(m.w, m.w.op, CheckoutRetry, m.pc.now, m.pc.eligible, i);
  }

  lemma BeginFalls(w: World, now: int, i: nat)
    requires Falling(w, i)
    ensures var m := Begin(Machine(w, Idle), now);
            m.w == w && Falls(m, i) && (if m.pc.Idle? then Finished(w, w.op) else EndsAt(m))
  {
    hide Returned, Restorable, Eligible;
    if w.op.status.RefundPending? || w.op.status.PlanUpdating? { DecidedBefore(w, i); }
  }

  lemma DecidedBefore(w: World, i: nat)
    requires Falling(w, i) && (w.op.status.RefundPending? || w.op.status.PlanUpdating?)
    ensures Decided(w, w.op.(status := RefundPending), i)
    ensures w.op.status.RefundPending? ==> w.op.(status := RefundPending) == w.op
  {
    hide Restorable, Eligible;
  }

  lemma SavingFalls(m: Machine, i: nat, o: Outcome, refunds: seq<Outcome>)
    requires Falls(m, i) && m.pc.Running? && m.pc.site.Saving?
    ensures var r := Call(m, o, refunds);
            && r.pc.Idle? && Returned(r.w, i) == Returned(m.w, i) && Falls(r, i)
            && (o.Done? && Ends(m) ==> Finished(r.w, r.w.op))
  {
    hide Returned, Falling;
  }

  lemma OnlyTheseFall(m: Machine, i: nat)
    requires Falls(m, i) && m.pc.Running?
    ensures !m.pc.site.GetPlan? && !m.pc.site.PutPlan? && !m.pc.site.VerifyPlan? && !m.pc.site.SweepDuplicates?
  {
  }

  lemma CallFalls(m: Machine, i: nat, o: Outcome, refunds: seq<Outcome>)
    requires Falls(m, i) && m.pc.Running?
    ensures var r := Call(m, o, refunds);
            && Falls(r, i) && Returned(r.w, i) == Returned(m.w, i)
            && (o.Done? && EndsAt(m) ==> if r.pc.Idle? then Finished(r.w, r.w.op) else EndsAt(r))
  {
    hide Call, Falls, Returned, Ends, Finished;
    OnlyTheseFall(m, i);
    var site := m.pc.site;
    if site.FindPayment? { SearchFalls(m, i, o, refunds); }
    else if site.CreateCheckout? { CheckoutFalls(m, i, o, refunds); }
    else if site.GetRestore? { GetRestoreFalls(m, i, o, refunds); }
    else if site.PutRestore? { PutRestoreFalls(m, i, o, refunds); }
    else if site.CheckRestore? { CheckRestoreFalls(m, i, o, refunds); }
    else if site.RefundPrimary? { RefundFalls(m, i, o, refunds); }
    else if site.ConfirmRefund? { ConfirmFalls(m, i, o, refunds); }
    else { SavingFalls(m, i, o, refunds); }
  }

  lemma StepFalls(m: Machine, i: nat, c: Choice)
    requires Falls(m, i) && !c.Outside?
    ensures Falls(Step(m, c), i) && Returned(Step(m, c).w, i) == Returned(m.w, i)
  {
    hide Call, Begin, Falling, FallsAt, Returned;
    match c
    case Start(now) => if m.pc.Idle? { BeginFalls(m.w, now, i); } else { BusyBegin(m, now); }
    case Answer(o, refunds) => if m.pc.Running? { CallFalls(m, i, o, refunds); }
    case Crash =>
  }

  /** Nobody but the operation itself acts. */
  predicate Undisturbing(cs: seq<Choice>) {
    forall k | 0 <= k < |cs| :: !cs[k].Outside?
  }

  lemma {:induction false} AttemptsFall(m: Machine, i: nat, cs: seq<Choice>)
    requires Falls(m, i) && Undisturbing(cs)
    ensures Falls(Run(m, cs), i) && Returned(Run(m, cs).w, i) == Returned(m.w, i)
  {
    hide Falls, Returned, Step;
    if cs != [] {
      AttemptsFall(m, i, cs[..|cs| - 1]);
      StepFalls(Run(m, cs[..|cs| - 1]), i, cs[|cs| - 1]);
    }
  }

  lemma {:induction false} CleanFalls(m: Machine, i: nat)
    requires Falls(m, i) && (if m.pc.Idle? then Finished(m.w, m.w.op) else EndsAt(m))
    ensures var r := Clean(m).w; Falling(r, i) && Returned(r, i) == Returned(m.w, i) && Finished(r, r.op)
    decreases Left(m.pc)
  {
    hide Call, Returned, Falling, FallsAt, EndsAt, Finished;
    if m.pc.Running? {
      EachCallSpendsBudget(m, Done, []);
      CallFalls(m, i, Done, []);
      CleanFalls(Call(m, Done, []), i);
    }
  }

  /** One reconcile with a responsive provider undoes the operation: the old amount is charged
      again, the payment is given back whole, and no branch was added. */
  lemma RefundTakesOneReconcile(w: World, now: int, i: nat)
    requires Falling(w, i)
    ensures var r := Reconciled(w, now); Seen(r) == Returned(w, i) && Finished(r, r.op) && Falling(r, i)
  {
    hide Begin, Clean, Falling;
    BeginFalls(w, now, i);
    CleanFalls(Begin(Machine(w, Idle), now), i);
  }

  /** Attempts of the operation that were cut off anywhere, before or after the refund took effect,
      leave no trace once one undisturbed reconcile has run. */
  lemma CrashesLeaveNoTraceOfReturn(w: World, cs: seq<Choice>, now: int, i: nat)
    requires Falling(w, i) && Undisturbing(cs)
    ensures var r := Run(Machine(w, Idle), cs).w; Seen(Reconciled(r, now)) == Seen(Reconciled(w, now)) == Returned(w, i)
  {
    hide Reconciled, Falling, Returned, Run;
    AttemptsFall(Machine(w, Idle), i, cs);
    RefundTakesOneReconcile(w, now, i);
    RefundTakesOneReconcile(Run(Machine(w, Idle), cs).w, now, i);
  }

  /** What was collected for the reference is back with the customer, the recurring amount is the old
      one when it had been touched, and the branches are as they were. */
  lemma ReturnKeepsNoMoney(w: World, i: nat)
    requires Falling(w, i) && !Finished(w, w.op) && w.quote.paymentRequired
    ensures var r := Returned(w, i);
            && Net(r.payments, w.paymentReference) == 0
            && (w.op.planStarted ==> r.plan.amount == w.snap.monthly)
            && r.row == w.row && r.inserted == w.inserted
  {
    AloneRefund(w.payments, w.paymentReference, i, Done);
    var after := GiveBackIds(w.payments, [w.payments[i].id]);
    forall k | 0 <= k < |after| ensures !(after[k].reference == w.paymentReference && after[k].status.Approved?) {
      assert after[k].reference == w.payments[k].reference;
    }
    NetZero(after, w.paymentReference);
  }

  // ---------------------------------------------------------------------------
  // Reachable states
  // ---------------------------------------------------------------------------

  /** A free addition can go through from the moment it is confirmed. */
  lemma ConfirmedFreeAdditionRises(m: Machine, i: nat)
    requires Confirmed(m) && !m.w.quote.paymentRequired && PlanIsSnapshots(m.w) && PlanRenews(m.w)
    requires m.w.plan.amount == m.w.snap.monthly
    ensures Rising(m.w, i)
  {
    PositiveProduct(m.w.snap.unit, m.w.snap.count);
  }

  /** A paid one from the moment its checkout was issued and the quoted payment is the only one. */
  lemma PaidAdditionRises(m: Machine, cs: seq<Choice>, i: nat)
    requires Confirmed(m)
    requires var w := Run(m, cs).w;
             && w.quote.paymentRequired && w.op.status.PaymentPending? && Pays(w, i)
             && Eligible(w) && PlanIsSnapshots(w) && PlanRenews(w) && w.plan.amount == w.snap.monthly
    ensures Rising(Run(m, cs).w, i)
  {
    hide Run, Confirmed, Eligible, PlanIsSnapshots, PlanRenews, Pays;
    RunKeeps(m, cs);
    NothingStarted(Run(m, cs).w);
  }

  lemma NothingStarted(w: World)
    requires WorldInv(w) && w.op.status.PaymentPending? && w.quote.paymentRequired
    ensures !w.op.planStarted && !w.otherPending && w.quote.newMonthly >= 1 && w.quote.proration >= 1
  {
    PositiveProduct(w.snap.unit, w.snap.count);
  }

  /** In a reachable state the conditions of the two convergence results come down to what the provider
      and the row show at the moment, and to a single payment. */
  lemma ReachablePlanRises(m: Machine, cs: seq<Choice>, i: nat)
    requires Confirmed(m)
    requires var w := Run(m, cs).w;
             && w.op.status.PlanUpdating? && Eligible(w) && PlanIsSnapshots(w) && PlanRenews(w)
             && Either(w.plan.amount, w.snap.monthly, w.quote.newMonthly)
             && (w.quote.paymentRequired ==> Alone(w.payments, w.paymentReference, i))
    ensures Rising(Run(m, cs).w, i)
  {
    hide Run, Confirmed, Eligible, PlanIsSnapshots, PlanRenews, Book;
    RunKeeps(m, cs);
    PlanIsNamed(Run(m, cs).w, i);
  }

  lemma PlanIsNamed(w: World, i: nat)
    requires WorldInv(w) && w.op.status.PlanUpdating?
    requires w.quote.paymentRequired ==> Alone(w.payments, w.paymentReference, i)
    ensures Named(w, i) && !w.otherPending && w.quote.newMonthly >= 1
  {
    assert w.snap.unit * w.snap.count >= 1 by { PositiveProduct(w.snap.unit, w.snap.count); }
  }

  lemma PositiveProduct(a: int, b: int)
    requires a >= 1 && b >= 1
    ensures a * b >= 1
  {
  }

  /** The same where the operation is undone: a refund was decided, or the owner or the subscription changed since the
      plan change was. */
  lemma ReachableRefundFalls(m: Machine, cs: seq<Choice>, i: nat)
    requires Confirmed(m)
    requires var w := Run(m, cs).w;
             && (w.op.status.RefundPending? || (w.op.status.PlanUpdating? && !Eligible(w))) && PlanIsSnapshots(w) && SameProvider(w).Some?
             && (w.op.planStarted ==> && PlanRenews(w) && SameProvider(w) == Some(true)
                                      && Either(w.plan.amount, w.snap.monthly, w.quote.newMonthly))
             && (w.quote.paymentRequired ==> Alone(w.payments, w.paymentReference, i) && Collected(w.payments[i]))
    ensures Falling(Run(m, cs).w, i)
  {
    hide Run, Confirmed, Eligible, PlanIsSnapshots, PlanRenews, SameProvider, Book;
    RunKeeps(m, cs);
    RefundIsOwed(Run(m, cs).w, i);
  }

  lemma RefundIsOwed(w: World, i: nat)
    requires WorldInv(w) && (w.op.status.RefundPending? || w.op.status.PlanUpdating?)
    requires w.quote.paymentRequired ==> Alone(w.payments, w.paymentReference, i) && Collected(w.payments[i])
    ensures if w.quote.paymentRequired then Owed(w, i) else Free(w)
    ensures w.snap.monthly >= 1
  {
    assert w.snap.unit * w.snap.count >= 1 by { PositiveProduct(w.snap.unit, w.snap.count); }
    if w.quote.paymentRequired {
      var k :| 0 <= k < |w.payments| && Backs(w.payments[k], w.paymentReference, w.op);
      assert k == i;
    }
  }
}
