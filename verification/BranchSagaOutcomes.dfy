/** What one undisturbed reconcile makes of every state of a branch operation, and what a failed request leaves: the
    checkout, the verdict on a payment, the sweep of duplicates, and the states that wait for somebody to look. */
module BranchSagaOutcomes {
  import opened Common
  import opened BranchPayments
  import opened BranchSaga
  import opened BranchSagaSafety
  import opened BranchReconciler
  import opened BranchSagaConvergence
  import opened BranchSagaReturn
  import opened BranchSagaLimits

  predicate Nobody(w: World) {
    forall j | 0 <= j < |w.payments| :: w.payments[j].reference != w.paymentReference
  }

  // ---------------------------------------------------------------------------
  // Before anybody paid
  // ---------------------------------------------------------------------------

  lemma CleanNobody(w: World, now: int)
    requires Verifying(w.op.status) && Nobody(w)
    ensures Reconciled(w, now) == Clean(Machine(w, OnPayment(w, w.op, Missing, now, Eligible(w)))).w
  {
    hide Call, Clean, Find, OnPayment, WithPayments, Eligible;
    CleanStep(Begin(Machine(w, Idle), now));
    PerformSearch(w, w.op, now, Eligible(w), GOOD);
    NobodyPaid(w.payments, w.paymentReference, Done, []);
    NothingGiven(w);
    PerformNone(Machine(w, OnPayment(w, w.op, Missing, now, Eligible(w))), GOOD[1..]);
  }

  /** A confirmed paid addition is given its checkout, so that it can be paid, and nothing else happens. */
  lemma CheckoutIsCreated(w: World, now: int)
    requires w.op.status.PaymentPending? && !w.op.checkout && now < w.quote.expiry && Eligible(w) && w.quote.proration >= 1 && Nobody(w)
    ensures Reconciled(w, now) == w.(checkoutIssued := true, op := w.op.(checkout := true, code := NoCode))
  {
    hide Clean, Eligible;
    CleanNobody(w, now);
    var m := Machine(w, Running(CreateCheckout, w.op, now, true));
    CleanMore(m);
    var w1 := w.(checkoutIssued := true);
    CleanSave(w1, w.op.(checkout := true), PaymentPending, NoCode, now, true);
    assert Call(m, Done, []) == Machine(w1, Save(w.op.(checkout := true), PaymentPending, NoCode, now, true));
  }

  /** With a checkout, or without one for somebody who lost access, the operation waits as it is until its quote ends. */
  lemma WaitsForItsPayment(w: World, now: int)
    requires Verifying(w.op.status) && Nobody(w) && (w.op.checkout || !Eligible(w)) && now < w.quote.expiry
    requires w.op.paymentStatus.Pending? && w.op.refunded < w.quote.proration
    ensures Reconciled(w, now) == w.(op := w.op.(code := NoCode))
  {
    hide Clean, Eligible;
    CleanNobody(w, now);
    CleanSave(w, w.op, w.op.status, NoCode, now, Eligible(w));
  }

  /** An unpaid quote that ended ends the operation. */
  lemma UnpaidQuoteExpires(w: World, now: int)
    requires Verifying(w.op.status) && Nobody(w) && w.quote.expiry <= now
    requires w.op.paymentStatus.Pending? && w.op.refunded < w.quote.proration
    ensures Reconciled(w, now) == w.(op := w.op.(status := FailedOperation, code := QuoteExpired))
  {
    hide Clean, Eligible;
    CleanNobody(w, now);
    CleanSave(w, w.op, FailedOperation, QuoteExpired, now, Eligible(w));
  }

  // ---------------------------------------------------------------------------
  // The verdict on a payment
  // ---------------------------------------------------------------------------

  /** What becomes of an operation whose only payment is not approved. */
  function Verdict(w: World, p: Payment, now: int): (Status, Code) {
    if !Matches(w, p) then (FailedOperation, PaymentMismatch)
    else
      match p.status
      case Rejected => (PaymentRejected, PaymentRefused)
      case Cancelled => (PaymentRejected, PaymentRefused)
      case Refunded => (RefundedInFull, NoCode)
      case _ =>
        if p.refunded >= w.quote.proration then (RefundedInFull, NoCode)
        else if now < w.quote.expiry then (w.op.status, NoCode) else (FailedOperation, QuoteExpired)
  }

  lemma VerdictIsSaved(w: World, p: Payment, now: int, eligible: bool)
    requires w.quote.paymentRequired && !p.status.Approved?
    ensures OnPayment(w, w.op, Found(p), now, eligible)
            == Save(Adopt(w.op, p), Verdict(w, p, now).0, Verdict(w, p, now).1, now, eligible)
  {
    hide Matches;
  }

  /** Its row is adopted with the verdict: refused, given back, still open, too late, or not what was asked for. */
  lemma PaymentIsJudged(w: World, now: int, i: nat)
    requires Verifying(w.op.status) && w.quote.paymentRequired && Alone(w.payments, w.paymentReference, i)
    requires !w.payments[i].status.Approved?
    ensures var p := w.payments[i];
            Reconciled(w, now) == w.(op := w.op.(paymentId := Some(p.id), paymentStatus := p.status, amount := p.amount,
              refunded := p.refunded, approvedAt := p.approvedAt, status := Verdict(w, p, now).0, code := Verdict(w, p, now).1))
  {
    hide Clean, Eligible, OnPayment, Matches, Save;
    var p := w.payments[i];
    var (status, code) := Verdict(w, p, now);
    CleanSearch(w, now, i);
    VerdictIsSaved(w, p, now, Eligible(w));
    VerdictIsFinal(w, p, now);
    CleanSave(w, Adopt(w.op, p), status, code, now, Eligible(w));
  }

  lemma VerdictIsFinal(w: World, p: Payment, now: int)
    requires Verifying(w.op.status)
    ensures Active(Verdict(w, p, now).0) ==> Active(w.op.status)
  {
  }

  /** The quoted payment, approved in time for an account that did not change, commits the operation to the plan change. */
  lemma ApprovedPaymentStartsPlan(w: World, now: int, i: nat)
    requires Verifying(w.op.status) && w.quote.paymentRequired && w.quote.proration >= 1 && Pays(w, i) && Eligible(w)
    requires !w.op.planStarted && !w.otherPending
    ensures var p := w.payments[i];
            Reconciled(w, now) == w.(op := w.op.(paymentId := Some(p.id), paymentStatus := Approved, amount := p.amount, refunded := 0,
              approvedAt := p.approvedAt, planStarted := true, status := PlanUpdating, code := NoCode))
  {
    hide Clean, Eligible;
    CleanSearch(w, now, i);
    CleanSave(w, Adopt(w.op, w.payments[i]).(planStarted := true), PlanUpdating, NoCode, now, true);
  }

  /** The payment is the one the quote asked for, whole, in pesos and approved while the quote held. */
  predicate Buys(w: World, p: Payment) {
    && p.reference == w.paymentReference && p.currency == "ARS" && p.amount == w.quote.proration && p.refunded == 0
    && p.status == Approved && p.approvedAt.Some? && w.quote.createdAt <= p.approvedAt.value < w.quote.expiry
  }

  /** The owner still has access, and the subscription takes another branch and is the quoted one. */
  predicate Unchanged(w: World) {
    && w.owner && w.row.state == Authorized && w.row.providerId != "" && w.row.unit >= 0 && w.row.count >= 1
    && w.row.branches == w.row.count && w.row.monthly == w.row.unit * w.row.count && SnapshotOf(w.row) == w.snap
  }

  /** What one approved payment does: it commits the operation to the plan change exactly when it is what was asked for and
      the account did not change, and otherwise it is turned back and the operation ends REFUNDED. */
  lemma ApprovedPaymentBuysWhen(w: World, now: int, i: nat)
    requires Verifying(w.op.status) && w.quote.paymentRequired && w.quote.proration >= 1 && !w.op.planStarted && !w.otherPending
    requires Restorable(w) && Alone(w.payments, w.paymentReference, i) && w.payments[i].status.Approved?
    ensures var r := Reconciled(w, now);
            && i < |w.payments|
            && (r.op.status.PlanUpdating? <==> Buys(w, w.payments[i]) && Unchanged(w))
            && (r.op.status.RefundedInFull? <==> !(Buys(w, w.payments[i]) && Unchanged(w)))
  {
    hide Reconciled, Restorable, Alone;
    assert Eligible(w) <==> Unchanged(w);
    AloneIsItsOwn(w, i);
    if Buys(w, w.payments[i]) && Unchanged(w) {
      ApprovedPaymentStartsPlan(w, now, i);
    } else {
      RefundedWithMoneyKept(w, now, i);
    }
  }

  lemma AloneIsItsOwn(w: World, i: nat)
    requires Alone(w.payments, w.paymentReference, i)
    ensures i < |w.payments| && w.payments[i].reference == w.paymentReference
  {
  }

  // ---------------------------------------------------------------------------
  // After completion
  // ---------------------------------------------------------------------------

  /** A completed operation that was paid keeps looking for second payments: none of its reference is left approved but
      the one it rests on, which is not touched. */
  lemma CompletedSweepsDuplicates(w: World, now: int)
    requires w.op.status.Completed? && w.op.paymentId.Some? && Book(w.payments)
    ensures var r := Reconciled(w, now);
            && |r.payments| == |w.payments|
            && (forall k | 0 <= k < |r.payments| ::
                  r.payments[k].reference == w.paymentReference && r.payments[k].status.Approved? ==> Some(r.payments[k].id) == w.op.paymentId)
            && (forall k | 0 <= k < |w.payments| ::
                  Some(w.payments[k].id) == w.op.paymentId || w.payments[k].reference != w.paymentReference ==> r.payments[k] == w.payments[k])
            && r.op == w.op.(code := NoCode) && r.row == w.row && r.plan == w.plan && r.inserted == w.inserted
  {
    hide Clean, Eligible, ClearDuplicates, WithPayments;
    var m := Begin(Machine(w, Idle), now);
    var id := w.op.paymentId.value;
    var after := ClearDuplicates(w.payments, w.paymentReference, id, []).0;
    DuplicatesSparePrimary(w.payments, w.paymentReference, id, []);
    WithPaymentsLooks(w, after);
    CleanMore(m);
    CleanSave(WithPayments(w, after), w.op, Completed, NoCode, now, Eligible(w));
  }

  // ---------------------------------------------------------------------------
  // Waiting for somebody to look
  // ---------------------------------------------------------------------------

  /** The provider's subscription is no longer the one the quote was for. */
  predicate Stray(w: World) {
    || w.plan.id != w.snap.providerId || w.plan.reference != w.snap.reference
    || !w.plan.authorized || w.plan.next != Some(w.snap.next)
    || (w.plan.amount != w.snap.monthly && w.plan.amount != w.quote.newMonthly)
  }

  /** The subscription row is the one of the snapshot, its renewal date aside. */
  predicate RowAgrees(w: World) {
    && w.row.providerId == w.snap.providerId && w.row.reference == w.snap.reference && w.row.unit == w.snap.unit
    && w.row.monthly == w.snap.monthly && w.row.count == w.snap.count && w.row.state == Authorized
  }

  /** A plan change that finds a subscription somebody else changed, or an owner who lost access, turns to the refund; where
      the subscription cannot be put back the operation keeps that decision and waits for a review. Nothing is charged,
      given back or written elsewhere. */
  lemma StrayPlanNeedsReview(w: World, now: int)
    requires w.op.planStarted && Stray(w) && !(RowAgrees(w) && w.row.next.None?)
    requires w.op.status.PlanUpdating? || w.op.status.RefundPending?
    ensures Reconciled(w, now) == w.(op := w.op.(status := RefundPending, code := PlanRestoreReview))
  {
    hide Clean, Eligible;
    var e, mem := Eligible(w), w.op.(status := RefundPending);
    CleanSave(w, mem, RefundPending, PlanRestoreReview, now, e);
    var m := Machine(w, Running(GetRestore, mem, now, e));
    CleanMore(m);
    if Begin(Machine(w, Idle), now) != m {
      CleanMore(Machine(w, Running(GetPlan, w.op, now, e)));
    }
  }

  /** So does a refund whose subscription row was changed since. */
  lemma ChangedRowNeedsReview(w: World, now: int)
    requires w.op.planStarted && w.op.status.RefundPending?
    requires !RowAgrees(w) || (w.row.next.Some? && w.row.next.value != w.snap.next)
    ensures Reconciled(w, now) == w.(op := w.op.(code := PlanRestoreReview))
  {
    hide Clean, Eligible;
    CleanSave(w, w.op, RefundPending, PlanRestoreReview, now, Eligible(w));
    CleanMore(Machine(w, Running(GetRestore, w.op, now, Eligible(w))));
  }

  /** A row without a renewal date that agrees in everything else makes the comparison null: the reconcile fails and
      leaves everything as it is. */
  lemma UndatedRowStops(w: World, now: int)
    requires w.op.status.RefundPending? && PlanIsSnapshots(w) && (w.op.planStarted ==> PlanRenews(w))
    requires RowAgrees(w) && w.row.next.None?
    ensures Reconciled(w, now) == w
  {
    hide Clean, Eligible, PlanIsSnapshots, PlanRenews;
    CleanMore(Machine(w, Running(GetRestore, w.op, now, Eligible(w))));
    CleanIdle(Machine(w, Idle));
  }

  lemma CleanIdle(m: Machine)
    requires m.pc.Idle?
    ensures Clean(m) == m
  {
  }

  /** A free addition that cannot go through is given up once the old amount is charged again. */
  lemma FreeAdditionIsGivenUp(w: World, now: int)
    requires w.op.status.RefundPending? && !w.quote.paymentRequired && Restorable(w)
    requires w.op.planStarted ==> w.plan.amount == w.snap.monthly < w.quote.newMonthly
    ensures Reconciled(w, now) == w.(op := w.op.(status := FailedOperation, code := PlanUpdateFailed))
  {
    hide Clean, Eligible, SameProvider, PlanIsSnapshots, PlanRenews;
    CleanSave(w, w.op, FailedOperation, PlanUpdateFailed, now, Eligible(w));
    CleanMore(Machine(w, Running(GetRestore, w.op, now, Eligible(w))));
  }

  /** A refund that names no payment waits for one to be found. */
  lemma UnnamedPaymentWaits(w: World, now: int)
    requires w.op.status.RefundPending? && w.quote.paymentRequired && w.op.paymentId.None? && Restorable(w) && !w.op.planStarted
    ensures Reconciled(w, now) == w.(op := w.op.(code := PaymentVerificationRetry))
  {
    hide Clean, Eligible, SameProvider, PlanIsSnapshots, PlanRenews;
    CleanSave(w, w.op, RefundPending, PaymentVerificationRetry, now, Eligible(w));
    CleanMore(Machine(w, Running(GetRestore, w.op, now, Eligible(w))));
  }

  /** A raise that the provider turns down is undone at once: the payment is given back whole and the operation ends. */
  lemma RejectedRaiseIsUndone(w: World, now: int, i: nat)
    requires w.op.status.PlanUpdating? && w.op.planStarted && w.quote.paymentRequired && Clear(w) && Restorable(w) && Owed(w, i)
    requires w.plan.amount == w.snap.monthly < w.quote.newMonthly
    ensures var m := Machine(w, Running(PutPlan, w.op, now, true));
            && Begin(Machine(w, Idle), now).pc.Running? && Call(Begin(Machine(w, Idle), now), Done, []) == m
            && var r := Clean(Call(m, Refused, [])).w;
               && r.op.status.RefundedInFull? && r.op.code.NoCode? && r.payments == GivenBackWorld(w, i).payments
               && Net(r.payments, w.paymentReference) == 0 && r.plan == w.plan && r.row == w.row && r.inserted == w.inserted
  {
    hide Clean, WithPayments, Restorable, Find, GiveBackIds, Refund, SameProvider, Alone;
    var mem := w.op.(status := RefundPending);
    RaiseRefused(w, now);
    CallRestore(w, mem, now, true);
    SoundAlone(w.payments, w.paymentReference, i);
    AloneIsBook(w, i);
    CallRefund(w, mem, now, true, i);
    BookRefund(w.payments, i);
    AloneRefund(w.payments, w.paymentReference, i, Done);
    var w1 := GivenBackWorld(w, i);
    WithPaymentsLooks(w, GiveBackIds(w.payments, [w.payments[i].id]));
    AloneFind(w1.payments, w1.paymentReference, i, Done, []);
    CallConfirm(w1, mem, now, true, w1.payments[i]);
    CleanMore(Machine(w, Running(GetRestore, mem, now, true)));
    CleanMore(Machine(w, Running(RefundPrimary, mem, now, true)));
    CleanMore(Machine(w1, Running(ConfirmRefund, mem, now, true)));
    CleanSave(w1, mem.(refunded := w1.payments[i].refunded, paymentStatus := w1.payments[i].status), RefundedInFull, NoCode, now, true);
    AloneNet(w1.payments, w1.paymentReference, i);
  }

  lemma AloneIsBook(w: World, i: nat)
    requires Alone(w.payments, w.paymentReference, i)
    ensures Book(w.payments) && i < |w.payments|
  {
  }

  lemma AloneNet(ps: seq<Payment>, reference: string, i: nat)
    requires Alone(ps, reference, i) && ps[i].status.Refunded?
    ensures Net(ps, reference) == 0
  {
    assert Sound(ps[i]);
    NetOne(ps, reference, i);
  }

  lemma RaiseRefused(w: World, now: int)
    requires w.op.status.PlanUpdating? && w.op.planStarted && Clear(w) && w.plan.amount == w.snap.monthly < w.quote.newMonthly
    ensures Begin(Machine(w, Idle), now) == Machine(w, Running(GetPlan, w.op, now, true))
    ensures Call(Machine(w, Running(GetPlan, w.op, now, true)), Done, []) == Machine(w, Running(PutPlan, w.op, now, true))
    ensures Call(Machine(w, Running(PutPlan, w.op, now, true)), Refused, [])
            == Machine(w, Running(GetRestore, w.op.(status := RefundPending), now, true))
  {
    hide Eligible;
  }

  // ---------------------------------------------------------------------------
  // Failed requests
  // ---------------------------------------------------------------------------

  /** The note a failed request leaves for the next attempt. */
  function Note(site: Site): Code {
    match site
    case FindPayment => PaymentVerificationRetry
    case CreateCheckout => CheckoutRetry
    case GetPlan => PlanUpdateRetry
    case PutPlan => PlanUpdateRetry
    case VerifyPlan => PlanUpdateRetry
    case GetRestore => PlanRestoreRetry
    case PutRestore => PlanRestoreRetry
    case CheckRestore => PlanRestoreRetry
    case RefundPrimary => RefundRetry
    case ConfirmRefund => RefundRetry
    case SweepDuplicates => DuplicateRefundRetry
    case Saving(_) => NoCode
  }

  /** A request that got no good answer ends the reconcile with the status it stood at and a note of where it failed; a
      raise that was turned down is the one exception. */
  lemma FailedRequestIsNoted(m: Machine, o: Outcome)
    requires m.pc.Running? && !m.pc.site.Saving? && !o.Done? && !(m.pc.site.PutPlan? && o.Refused?)
    requires m.pc.site.RefundPrimary? || m.pc.site.SweepDuplicates? ==> m.pc.mem.paymentId.Some?
    requires m.pc.site.PutPlan? ==> m.w.quote.newMonthly >= 1
    ensures var r := Call(m, o, []);
            r.pc == Running(Saving(false), m.pc.mem.(code := Note(m.pc.site)), m.pc.now, m.pc.eligible) && r.w.op == m.w.op && r.w.row == m.w.row
  {
    hide Find, Refund, ClearDuplicates, WithPayments, OnPlan, OnVerify, OnRestore, OnCheckRestore, AfterVerification;
    var w := m.w;
    FailedSearch(w);
    if m.pc.site.RefundPrimary? {
      FailedRefund(w.payments, m.pc.mem.paymentId.value, o);
      WithPaymentsLooks(w, Refund(w.payments, m.pc.mem.paymentId.value, o).0);
    }
    if m.pc.site.SweepDuplicates? { WithPaymentsLooks(w, ClearDuplicates(w.payments, w.paymentReference, m.pc.mem.paymentId.value, []).0); }
    WithPaymentsLooks(w, Find(w.payments, w.paymentReference, o, []).0);
    assert m.pc.mem.(status := m.pc.mem.status, code := Note(m.pc.site)) == m.pc.mem.(code := Note(m.pc.site));
  }

  /** A change that was answered but does not show when it is read back is tried again. */
  lemma UnseenChangeIsNoted(m: Machine)
    requires m.pc.Running?
    requires m.pc.site.VerifyPlan? || m.pc.site.CheckRestore?
    requires m.w.plan.amount != (if m.pc.site.VerifyPlan? then m.w.quote.newMonthly else m.w.snap.monthly)
             || !m.w.plan.authorized || m.w.plan.next != Some(m.w.snap.next)
    ensures Call(m, Done, []) == m.(pc := Running(Saving(false), m.pc.mem.(code := Note(m.pc.site)), m.pc.now, m.pc.eligible))
  {
    assert m.pc.mem.(status := m.pc.mem.status, code := Note(m.pc.site)) == m.pc.mem.(code := Note(m.pc.site));
  }

  lemma FailedSearch(w: World)
    ensures forall o: Outcome | !o.Done? :: Find(w.payments, w.paymentReference, o, []).1.Failed?
  {
    hide RefundAll;
  }

  lemma FailedRefund(ps: seq<Payment>, id: nat, o: Outcome)
    requires !o.Done?
    ensures !Refund(ps, id, o).1
  {
  }

  // ---------------------------------------------------------------------------
  // One checkout
  // ---------------------------------------------------------------------------

  /** A checkout is asked for only while the committed operation has none, its quote runs and its account is as quoted. */
  predicate AsksRightly(m: Machine) {
    m.pc.Running? && m.pc.site.CreateCheckout? ==> !m.w.op.checkout && !m.pc.mem.checkout && m.pc.eligible && m.pc.now < m.w.quote.expiry
  }

  lemma OnlySearchesAsk(m: Machine, o: Outcome, refunds: seq<Outcome>)
    requires m.pc.Running? && !m.pc.site.FindPayment?
    ensures Call(m, o, refunds).pc.Running? ==> !Call(m, o, refunds).pc.site.CreateCheckout?
  {
    hide Find, Refund, ClearDuplicates, PutAmount, Committed, SameProvider, PlanIsSnapshots, PlanRenews, WithPayments;
  }

  lemma SearchAsksRightly(m: Machine, o: Outcome, refunds: seq<Outcome>)
    requires m.pc.Running? && m.pc.site.FindPayment? && m.pc.mem == m.w.op
    ensures AsksRightly(Call(m, o, refunds))
  {
    hide Find, Matches, InWindow, WithPayments;
    WithPaymentsLooks(m.w, Find(m.w.payments, m.w.paymentReference, o, refunds).0);
  }

  lemma AsksAtCall(m: Machine, o: Outcome, refunds: seq<Outcome>)
    requires Inv(m) && m.pc.Running?
    ensures AsksRightly(Call(m, o, refunds))
  {
    hide Call, Inv;
    if m.pc.site.FindPayment? {
      SearchersHoldTheRow(m);
      SearchAsksRightly(m, o, refunds);
    } else {
      OnlySearchesAsk(m, o, refunds);
    }
  }

  lemma SearchersHoldTheRow(m: Machine)
    requires Inv(m) && m.pc.Running? && m.pc.site.FindPayment?
    ensures m.pc.mem == m.w.op
  {
  }

  lemma AsksAfterStep(m: Machine, c: Choice)
    requires Inv(m) && AsksRightly(m)
    ensures AsksRightly(Step(m, c))
  {
    hide Inv, Call;
    if c.Answer? && m.pc.Running? { AsksAtCall(m, c.o, c.refunds); }
  }

  /** Over every run, a checkout that was issued and committed is not issued again. */
  lemma {:induction false} OneCheckout(m: Machine, cs: seq<Choice>)
    requires Confirmed(m)
    ensures AsksRightly(Run(m, cs))
  {
    hide Step, Inv, AsksRightly;
    if cs != [] {
      OneCheckout(m, cs[..|cs| - 1]);
      RunKeeps(m, cs[..|cs| - 1]);
      AsksAfterStep(Run(m, cs[..|cs| - 1]), cs[|cs| - 1]);
    } else {
      AtRestNobodyAsks(m);
    }
  }

  lemma AtRestNobodyAsks(m: Machine)
    requires m.pc.Idle?
    ensures AsksRightly(m)
  {
  }

  // ---------------------------------------------------------------------------
  // A paid addition from beginning to end
  // ---------------------------------------------------------------------------

  /** What the provider and the brand must offer for a confirmed addition to go through. */
  predicate Ready(w: World) {
    PlanIsSnapshots(w) && PlanRenews(w) && w.plan.amount == w.snap.monthly
  }

  /** The payment the checkout asks for. */
  predicate AsAsked(w: World, p: Payment) {
    && Buys(w, p) && forall k | 0 <= k < |w.payments| :: w.payments[k].id != p.id
  }

  /** The customer pays at the checkout. */
  function PaidWorld(w: World, p: Payment): World {
    Step(Machine(w, Idle), Outside(Paid(p))).w
  }

  lemma CheckoutCanBePaid(w: World, p: Payment)
    requires w.checkoutIssued && AsAsked(w, p) && w.quote.proration >= 1 && Book(w.payments) && Nobody(w)
    ensures var r := PaidWorld(w, p);
            && r.payments == [p] + w.payments && r.op == w.op && r.quote == w.quote && r.snap == w.snap && r.row == w.row && r.plan == w.plan
            && r.owner == w.owner && r.otherPending == w.otherPending && r.paymentReference == w.paymentReference && r.inserted == w.inserted
            && Pays(r, 0)
  {
  }

  /** From the confirmation of a paid addition to the new branch: one reconcile creates the checkout, the customer pays what
      it asks for, and two more complete the addition. The branch is there, the new amount is charged, and the payment was
      kept. */
  lemma PaidAdditionGoesThrough(m: Machine, p: Payment, now: int, later: int, last: int)
    requires Confirmed(m) && m.w.quote.paymentRequired && Ready(m.w) && AsAsked(m.w, p) && now < m.w.quote.expiry
    ensures var w := Reconciled(m.w, now);
            var r := Reconciled(Reconciled(PaidWorld(w, p), later), last);
            && w.checkoutIssued && r.op.status.Completed? && r.inserted == 1 && r.op.paymentId == Some(p.id)
            && r.plan.amount == m.w.quote.newMonthly == r.row.monthly && r.row.count == m.w.row.count + 1
            && Net(r.payments, m.w.paymentReference) == m.w.quote.proration
  {
    hide Reconciled, Rising, Raised, PaidWorld, Ready, AsAsked, Eligible, Pays;
    ConfirmedLooks(m);
    CheckoutIsCreated(m.w, now);
    var w := Reconciled(m.w, now);
    SamePromise(m.w, w, p);
    CheckoutCanBePaid(w, p);
    var paid := PaidWorld(w, p);
    PaidRises(m.w, paid);
    AdditionGoesThrough(paid, later, last, 0);
    RaisedLooks(paid);
    PaysNet(paid);
  }

  lemma ConfirmedLooks(m: Machine)
    requires Confirmed(m) && m.w.quote.paymentRequired
    ensures m.w.op.status.PaymentPending? && !m.w.op.checkout && Eligible(m.w) && m.w.quote.proration >= 1 && Nobody(m.w)
    ensures Book(m.w.payments) && m.w.inserted == 0 && !m.w.op.planStarted && !m.w.otherPending
    ensures m.w.snap.monthly >= 1 && m.w.quote.newMonthly >= 1 && m.w.row.count >= 1
  {
    PositiveProduct(m.w.snap.unit, m.w.snap.count);
  }

  lemma SamePromise(w: World, r: World, p: Payment)
    requires r == w.(checkoutIssued := true, op := w.op.(checkout := true, code := NoCode))
    ensures AsAsked(r, p) == AsAsked(w, p) && Ready(r) == Ready(w) && Eligible(r) == Eligible(w) && Nobody(r) == Nobody(w)
  {
  }

  lemma PaidRises(w: World, paid: World)
    requires Eligible(w) && Ready(w) && !w.otherPending && w.quote.newMonthly >= 1 && w.quote.paymentRequired && w.quote.proration >= 1
    requires paid.quote == w.quote && paid.snap == w.snap && paid.row == w.row && paid.plan == w.plan && paid.owner == w.owner
    requires paid.otherPending == w.otherPending && paid.op.status.PaymentPending? && !paid.op.planStarted && Pays(paid, 0)
    ensures Rising(paid, 0)
  {
  }

  lemma RaisedLooks(w: World)
    requires w.op.status.PaymentPending? && |w.payments| > 0
    ensures var r := Raised(w, 0);
            && r.op.paymentId == Some(w.payments[0].id) && r.inserted == w.inserted + 1 && r.plan.amount == w.quote.newMonthly == r.row.monthly
            && r.row.count == w.row.count + 1 && r.payments == w.payments
  {
  }

  lemma PaysNet(w: World)
    requires Pays(w, 0)
    ensures |w.payments| > 0 && Net(w.payments, w.paymentReference) == w.quote.proration
  {
    NetOne(w.payments, w.paymentReference, 0);
  }

  /** An undisturbed reconcile is a run of the machine. */
  lemma ReconcileIsRun(m: Machine, cs: seq<Choice>, now: int)
    requires Run(m, cs).pc.Idle?
    ensures exists more: seq<Choice> :: Run(m, cs + more) == Machine(Reconciled(Run(m, cs).w, now), Idle)
  {
    hide Step, Run, Begin, Clean, Perform;
    var w := Run(m, cs).w;
    assert Run(m, cs) == Machine(w, Idle);
    RunMore(m, cs, Start(now));
    var begun := Begin(Machine(w, Idle), now);
    StartIsBegin(Machine(w, Idle), now);
    var answers := seq(Left(begun.pc), _ => Response(Done, []));
    CleanIsPerform(begun, answers);
    PerformIsRun(m, cs + [Start(now)], answers);
    assert cs + [Start(now)] + ChoicesOf(answers) == cs + ([Start(now)] + ChoicesOf(answers));
  }

  lemma StartIsBegin(m: Machine, now: int)
    ensures Step(m, Start(now)) == Begin(m, now)
  {
  }

  /** So there are runs of every confirmed paid addition that end with the branch, the new amount and the payment. */
  lemma PaidAdditionHasARun(m: Machine, p: Payment, now: int)
    requires Confirmed(m) && m.w.quote.paymentRequired && Ready(m.w) && AsAsked(m.w, p) && now < m.w.quote.expiry
    ensures exists cs: seq<Choice> :: && Run(m, cs).pc.Idle? && Run(m, cs).w.op.status.Completed? && Run(m, cs).w.inserted == 1
                                      && Net(Run(m, cs).w.payments, m.w.paymentReference) == m.w.quote.proration
  {
    hide Step, Run, Reconciled, Ready, AsAsked, Net;
    assert Run(m, []) == m && m == Machine(m.w, Idle) by { EmptyRun(m); }
    ReconcileIsRun(m, [], now);
    var a: seq<Choice> :| Run(m, [] + a) == Machine(Reconciled(m.w, now), Idle);
    RunMore(m, [] + a, Outside(Paid(p)));
    var b := [] + a + [Outside(Paid(p))];
    PaidAtRest(Reconciled(m.w, now), p);
    ReconcileIsRun(m, b, now);
    var c: seq<Choice> :| Run(m, b + c) == Machine(Reconciled(Run(m, b).w, now), Idle);
    ReconcileIsRun(m, b + c, now);
    var d: seq<Choice> :| Run(m, b + c + d) == Machine(Reconciled(Run(m, b + c).w, now), Idle);
    PaidAdditionGoesThrough(m, p, now, now, now);
  }

  lemma EmptyRun(m: Machine)
    requires m.pc.Idle?
    ensures Run(m, []) == m == Machine(m.w, Idle)
  {
  }

  lemma PaidAtRest(w: World, p: Payment)
    ensures Step(Machine(w, Idle), Outside(Paid(p))) == Machine(PaidWorld(w, p), Idle)
  {
  }
}
