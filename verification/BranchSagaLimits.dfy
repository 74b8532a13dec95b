/** What the operation does not give, stated exactly: for each promise that fails, when it fails
    and when it holds. */
module BranchSagaLimits {
  import opened Common
  import opened BranchPayments
  import opened BranchSaga
  import opened BranchSagaSafety
  import opened BranchReconciler
  import opened BranchSagaConvergence
  import opened BranchSagaReturn

  const GOOD: seq<Response> := [Response(Done, [])]

  lemma CleanStep(m: Machine)
    requires m.pc.Running?
    ensures Clean(m) == Clean(Perform(m, GOOD)) && Perform(m, GOOD) == Call(m, Done, [])
  {
    hide Call;
    EachCallSpendsBudget(m, Done, []);
    PerformCall(m, GOOD);
    PerformNone(Call(m, Done, []), GOOD[1..]);
  }

  lemma CleanSave(w: World, mem: Op, status: Status, code: Code, now: int, eligible: bool)
    requires !IndexBlocks(w, mem.(status := status, code := code))
    ensures Clean(Machine(w, Save(mem, status, code, now, eligible))).w == w.(op := mem.(status := status, code := code))
  {
    hide Call;
    var m := Machine(w, Save(mem, status, code, now, eligible));
    CleanStep(m);
    SavedByCall(w, mem.(status := status, code := code), now, eligible);
  }

  lemma SavedByCall(w: World, mem: Op, now: int, eligible: bool)
    requires !IndexBlocks(w, mem)
    ensures Call(Machine(w, Running(Saving(false), mem, now, eligible)), Done, []) == Machine(w.(op := mem), Idle)
  {
  }

  lemma CleanSearch(w: World, now: int, i: nat)
    requires Verifying(w.op.status) && Alone(w.payments, w.paymentReference, i)
    ensures Reconciled(w, now) == Clean(Machine(w, OnPayment(w, w.op, Found(w.payments[i]), now, Eligible(w)))).w
  {
    hide Call, Clean, Find, OnPayment, WithPayments, Eligible;
    var m := Begin(Machine(w, Idle), now);
    CleanStep(m);
    PerformSearch(w, w.op, now, Eligible(w), GOOD);
    AloneFind(w.payments, w.paymentReference, i, Done, []);
    NothingGiven(w);
    PerformNone(Machine(w, OnPayment(w, w.op, Found(w.payments[i]), now, Eligible(w))), GOOD[1..]);
  }

  // ---------------------------------------------------------------------------
  // A payment larger than the quote that was returned in part
  // ---------------------------------------------------------------------------

  /** The refunded part is compared with the quote and not with the payment. So an operation whose
      payment was returned up to the quoted amount counts as refunded although money was kept;
      it cannot happen to a payment of the quoted amount. When it happens: RefundedWithMoneyKept. */
  lemma PartReturnCountsAsRefund(w: World, now: int, i: nat)
    requires Verifying(w.op.status) && w.quote.paymentRequired && w.quote.proration >= 1
    requires Alone(w.payments, w.paymentReference, i) && w.payments[i].status.Approved?
    requires w.payments[i].refunded >= w.quote.proration
    ensures var r := Reconciled(w, now);
            && r.op.status.RefundedInFull? && r.payments == w.payments
            && Net(r.payments, w.paymentReference) == w.payments[i].amount - w.payments[i].refunded > 0
            && w.payments[i].amount > w.quote.proration
  {
    hide Clean, Call, Eligible;
    CleanSearch(w, now, i);
    var mem := Adopt(w.op, w.payments[i]);
    CleanSave(w, mem, RefundedInFull, NoCode, now, Eligible(w));
    CleanSave(w, mem.(status := RefundPending), RefundedInFull, NoCode, now, Eligible(w));
    assert Sound(w.payments[i]);
    NetOne(w.payments, w.paymentReference, i);
  }

  // ---------------------------------------------------------------------------
  // A refund sent before the decision to refund was committed
  // ---------------------------------------------------------------------------

  /** A plan change that was interrupted by a loss of eligibility sends the refund before it commits
      that decision. When the reconcile then crashes and eligibility returns, the addition still
      completes: the payment is not looked at again. */
  lemma EarlyRefundIsForgotten(w: World, now: int, later: int, i: nat)
    requires Rising(w, i) && w.op.status.PlanUpdating? && w.op.planStarted && w.quote.paymentRequired
    requires Owed(w, i) && w.payments[i].status.Approved? && w.row.next.Some?
    requires w.plan.amount == w.snap.monthly < w.quote.newMonthly
    ensures var r := Reconciled(RefundCutOff(w, now), later);
            && r.op.status.Completed? && r.inserted == w.inserted + 1
            && i < |r.payments| && r.op.paymentId == Some(r.payments[i].id) && r.payments[i].status.Refunded?
            && Net(r.payments, w.paymentReference) == 0
  {
    hide Reconciled, Rising, RefundCutOff, Raised;
    RefundIsCutOff(w, now, i);
    var w1 := RefundCutOff(w, now);
    RisesAgain(w, i);
    AdditionGoesThrough(w1, later, later, i);
    NetOne(w1.payments, w.paymentReference, i);
    RaisedFields(w1, i);
  }

  /** Exactly when the payment a completed addition rests on is still there: when it was still there
      in the state the last reconcile started from. */
  lemma CompletionKeepsPaymentAsItIs(w: World, now: int, i: nat)
    requires Rising(w, i) && w.op.status.PlanUpdating? && w.op.planStarted && w.quote.paymentRequired && w.op.paymentId.Some?
    ensures var r := Reconciled(w, now);
            && i < |w.payments| && r.op.status.Completed? && r.op.paymentId == Some(w.payments[i].id)
            && (Net(r.payments, w.paymentReference) > 0 <==> w.payments[i].status.Approved?)
  {
    hide Reconciled, Rising, Raised;
    NamedAlone(w, i);
    AdditionGoesThrough(w, now, now, i);
    RaisedFields(w, i);
    NetOne(w.payments, w.paymentReference, i);
    assert Sound(w.payments[i]);
  }

  lemma NamedAlone(w: World, i: nat)
    requires Rising(w, i) && w.op.status.PlanUpdating? && w.op.paymentId.Some?
    ensures Alone(w.payments, w.paymentReference, i) && w.op.paymentId == Some(w.payments[i].id)
  {
  }

  lemma RaisedFields(w: World, i: nat)
    requires w.op.status.PlanUpdating?
    ensures Raised(w, i).payments == w.payments && Raised(w, i).inserted == w.inserted + 1 && Raised(w, i).op.paymentId == w.op.paymentId
  {
  }

  /** The owner's access lapses, a reconcile sends the refund and dies, the access returns. */
  function RefundCutOff(w: World, now: int): World {
    Run(Machine(w, Idle), [Outside(OwnerChanged(false)), Start(now), Answer(Done, []), Answer(Lost(true), []), Crash,
                           Outside(OwnerChanged(true))]).w
  }

  lemma OwnerOnly(m: Machine, owner: bool)
    ensures Step(m, Outside(OwnerChanged(owner))) == m.(w := m.w.(owner := owner))
  {
  }

  lemma RunMore(m: Machine, cs: seq<Choice>, c: Choice)
    ensures Run(m, cs + [c]) == Step(Run(m, cs), c)
  {
    hide Step;
    assert (cs + [c])[..|cs|] == cs;
  }

  lemma RunOne(m: Machine, a: Choice)
    ensures Run(m, [a]) == Step(m, a)
  {
    hide Step;
    assert [] + [a] == [a];
    RunMore(m, [], a);
  }

  lemma RunFive(m: Machine, a: Choice, b: Choice, c: Choice, d: Choice, e: Choice)
    ensures Run(m, [a, b, c, d, e]) == Step(Step(Step(Step(Step(m, a), b), c), d), e)
  {
    hide Step, Run;
    RunOne(m, a);
    RunMore(m, [a], b);
    RunMore(m, [a, b], c);
    RunMore(m, [a, b, c], d);
    RunMore(m, [a, b, c, d], e);
    assert [a] + [b] == [a, b] && [a, b] + [c] == [a, b, c] && [a, b, c] + [d] == [a, b, c, d];
    assert [a, b, c, d] + [e] == [a, b, c, d, e];
  }

  lemma RunSix(m: Machine, a: Choice, b: Choice, c: Choice, d: Choice, e: Choice, f: Choice)
    ensures Run(m, [a, b, c, d, e, f]) == Step(Step(Step(Step(Step(Step(m, a), b), c), d), e), f)
  {
    hide Step, Run;
    RunFive(m, a, b, c, d, e);
    RunMore(m, [a, b, c, d, e], f);
    assert [a, b, c, d, e] + [f] == [a, b, c, d, e, f];
  }

  lemma LapsedBegins(w: World, now: int)
    requires w.op.status.PlanUpdating? && !w.owner
    ensures Begin(Machine(w, Idle), now) == Machine(w, Running(GetRestore, w.op.(status := RefundPending), now, false))
  {
  }

  lemma LapsedRestores(w: World, mem: Op, now: int)
    requires PlanIsSnapshots(w) && PlanRenews(w) && SameProvider(w) == Some(true) && w.plan.amount == w.snap.monthly < w.quote.newMonthly
    requires mem.planStarted && w.quote.paymentRequired && mem.paymentId.Some? && mem.refunded < mem.amount
    ensures Call(Machine(w, Running(GetRestore, mem, now, false)), Done, []) == Machine(w, Running(RefundPrimary, mem, now, false))
  {
  }

  lemma LapsedRefunds(w: World, mem: Op, now: int, i: nat)
    requires Alone(w.payments, w.paymentReference, i) && w.payments[i].status.Approved? && mem.paymentId == Some(w.payments[i].id)
    ensures Call(Machine(w, Running(RefundPrimary, mem, now, false)), Lost(true), []).w
            == WithPayments(w, GiveBackIds(w.payments, [w.payments[i].id]))
  {
    hide WithPayments, GiveBackIds, Refund, Alone;
    AloneRefund(w.payments, w.paymentReference, i, Lost(true));
  }

  lemma RefundIsCutOff(w: World, now: int, i: nat)
    requires Rising(w, i) && w.op.status.PlanUpdating? && w.op.planStarted && w.quote.paymentRequired
    requires Owed(w, i) && w.payments[i].status.Approved? && w.row.next.Some?
    requires w.plan.amount == w.snap.monthly < w.quote.newMonthly
    ensures RefundCutOff(w, now)
            == WithPayments(w.(owner := false), GiveBackIds(w.payments, [w.payments[i].id])).(owner := true)
  {
    hide Call, Begin, WithPayments, GiveBackIds, Run, Alone;
    var m0, w0, mem := Machine(w, Idle), w.(owner := false), w.op.(status := RefundPending);
    RunSix(m0, Outside(OwnerChanged(false)), Start(now), Answer(Done, []), Answer(Lost(true), []), Crash, Outside(OwnerChanged(true)));
    OwnerOnly(m0, false);
    LapsedBegins(w0, now);
    SameWithOwner(w);
    LapsedRestores(w0, mem, now);
    LapsedRefunds(w0, mem, now, i);
    var m4 := Call(Machine(w0, Running(RefundPrimary, mem, now, false)), Lost(true), []);
    OwnerOnly(m4.(pc := Idle), true);
  }

  lemma SameWithOwner(w: World)
    requires Eligible(w) && w.row.next.Some?
    ensures SameProvider(w.(owner := false)) == Some(true)
  {
  }

  lemma RisesAgain(w: World, i: nat)
    requires Rising(w, i) && w.op.status.PlanUpdating? && Owed(w, i)
    ensures var w1 := WithPayments(w.(owner := false), GiveBackIds(w.payments, [w.payments[i].id])).(owner := true);
            && Rising(w1, i) && w1.op == w.op && w1.inserted == w.inserted && w1.paymentReference == w.paymentReference
            && Alone(w1.payments, w1.paymentReference, i) && w1.payments[i].status.Refunded? && w1.op.paymentId == Some(w1.payments[i].id)
            && w1.payments[i].amount == w1.payments[i].refunded
  {
    hide Alone, GiveBackIds, WithPayments;
    AloneRefund(w.payments, w.paymentReference, i, Done);
    var w0 := w.(owner := false);
    WithPaymentsLooks(w0, GiveBackIds(w.payments, [w.payments[i].id]));
    assert Sound(w.payments[i]) by { SoundAlone(w.payments, w.paymentReference, i); }
  }

  lemma SoundAlone(ps: seq<Payment>, reference: string, i: nat)
    requires Alone(ps, reference, i)
    ensures Sound(ps[i])
  {
  }

  // ---------------------------------------------------------------------------
  // A payment of another amount or currency
  // ---------------------------------------------------------------------------

  /** The payment stage of an operation whose only payment is approved and cannot buy the branch: it does not
      match the quote, part of it was returned, the owner lost access or it came too late. */
  predicate TurnsBack(w: World, i: nat) {
    && Verifying(w.op.status) && w.quote.paymentRequired && w.quote.proration >= 1 && !w.op.planStarted && Restorable(w)
    && Alone(w.payments, w.paymentReference, i) && w.payments[i].status.Approved?
    && !(Matches(w, w.payments[i]) && w.payments[i].refunded == 0 && Eligible(w) && InWindow(w.quote, w.payments[i].approvedAt))
  }

  /** Such a payment that will be given back whole. */
  predicate GoesBack(w: World, i: nat) {
    TurnsBack(w, i) && w.payments[i].refunded < w.quote.proration
  }

  /** The reconcile dies right after its refund took effect. */
  function DiesAfterRefund(w: World, now: int): World {
    Run(Machine(w, Idle), [Start(now), Answer(Done, []), Answer(Done, []), Answer(Done, []), Crash]).w
  }

  function GivenBackWorld(w: World, i: nat): World
    requires i < |w.payments|
  {
    WithPayments(w, GiveBackIds(w.payments, [w.payments[i].id]))
  }

  /** Undisturbed, the payment is given back and the operation ends refunded. After a crash between the
      refund and the commit it ends refunded exactly when the payment was the quoted one; otherwise the
      next reconcile reads a payment that is no longer approved and reports a mismatch. */
  lemma CrashChangesTheEndOfAMismatch(w: World, now: int, later: int, i: nat)
    requires GoesBack(w, i)
    ensures Reconciled(w, now).op.status.RefundedInFull?
    ensures var r := Reconciled(DiesAfterRefund(w, now), later);
            && (r.op.status.RefundedInFull? <==> Matches(w, w.payments[i]))
            && (!Matches(w, w.payments[i]) ==> r.op.status.FailedOperation? && r.op.code.PaymentMismatch?)
            && i < |r.payments| && r.payments[i].status.Refunded?
  {
    hide Clean, Call, Run, Restorable, WithPayments, Begin, Eligible, DiesAfterRefund, Reconciled, GiveBackIds;
    PaymentGoesBack(w, now, i);
    UndisturbedGoesBack(w, now, i);
    ReadAfterRefund(w, later, i);
  }

  lemma PaymentGoesBack(w: World, now: int, i: nat)
    requires GoesBack(w, i)
    ensures DiesAfterRefund(w, now) == GivenBackWorld(w, i)
  {
    hide Clean, Call, Run, Restorable, WithPayments, Begin, Eligible, GiveBackIds;
    RunFive(Machine(w, Idle), Start(now), Answer(Done, []), Answer(Done, []), Answer(Done, []), Crash);
    Calls(w, now, i);
  }

  /** The requests of the refund of an approved payment, one by one. */
  lemma Calls(w: World, now: int, i: nat)
    requires GoesBack(w, i)
    ensures var mem, e := Adopt(w.op, w.payments[i]).(status := RefundPending), Eligible(w);
            && Begin(Machine(w, Idle), now) == Machine(w, Running(FindPayment, w.op, now, e))
            && Call(Machine(w, Running(FindPayment, w.op, now, e)), Done, []) == Machine(w, Running(GetRestore, mem, now, e))
            && Call(Machine(w, Running(GetRestore, mem, now, e)), Done, []) == Machine(w, Running(RefundPrimary, mem, now, e))
            && Call(Machine(w, Running(RefundPrimary, mem, now, e)), Done, []) == Machine(GivenBackWorld(w, i),
                Running(ConfirmRefund, mem, now, e))
  {
    hide Call;
    var mem, e := Adopt(w.op, w.payments[i]).(status := RefundPending), Eligible(w);
    CallSearch(w, now, i);
    CallRestore(w, mem, now, e);
    CallRefund(w, mem, now, e, i);
  }

  lemma CallSearch(w: World, now: int, i: nat)
    requires GoesBack(w, i)
    ensures var mem, e := Adopt(w.op, w.payments[i]).(status := RefundPending), Eligible(w);
            Call(Machine(w, Running(FindPayment, w.op, now, e)), Done, []) == Machine(w, Running(GetRestore, mem, now, e))
            && mem.refunded < mem.amount
  {
    hide Find, WithPayments, Restorable, Eligible, InWindow;
    AloneFind(w.payments, w.paymentReference, i, Done, []);
    NothingGiven(w);
    assert Sound(w.payments[i]);
  }

  lemma CallRestore(w: World, mem: Op, now: int, e: bool)
    requires Restorable(w) && (mem.planStarted ==> w.op.planStarted && w.plan.amount == w.snap.monthly < w.quote.newMonthly)
    requires w.quote.paymentRequired && mem.paymentId.Some? && mem.refunded < mem.amount
    ensures Call(Machine(w, Running(GetRestore, mem, now, e)), Done, []) == Machine(w, Running(RefundPrimary, mem, now, e))
  {
    hide PlanIsSnapshots, SameProvider, PlanRenews;
  }

  lemma BookRefund(ps: seq<Payment>, i: nat)
    requires Book(ps) && i < |ps| && Collected(ps[i])
    ensures Refund(ps, ps[i].id, Done) == (GiveBackIds(ps, [ps[i].id]), true)
    ensures Book(GiveBackIds(ps, [ps[i].id])) && GiveBackIds(ps, [ps[i].id])[i] == GiveBack(ps[i]) && GiveBack(ps[i]).status.Refunded?
    ensures forall k | 0 <= k < |ps| && k != i :: GiveBackIds(ps, [ps[i].id])[k] == ps[k]
    ensures GiveBack(ps[i]).refunded == ps[i].amount
  {
    assert Locate(ps, ps[i].id) == i;
    GiveBackKeepsBook(ps, [ps[i].id]);
    assert Sound(ps[i]);
    if ps[i].status.Refunded? { assert GiveBackIds(ps, [ps[i].id]) == ps; }
  }

  lemma CallRefund(w: World, mem: Op, now: int, e: bool, i: nat)
    requires Book(w.payments) && i < |w.payments| && Collected(w.payments[i]) && mem.paymentId == Some(w.payments[i].id)
    ensures Call(Machine(w, Running(RefundPrimary, mem, now, e)), Done, []) == Machine(GivenBackWorld(w, i),
        Running(ConfirmRefund, mem, now, e))
  {
    hide Refund, WithPayments, GiveBackIds, Book;
    BookRefund(w.payments, i);
  }

  lemma CallConfirm(w: World, mem: Op, now: int, e: bool, p: Payment)
    requires Find(w.payments, w.paymentReference, Done, []) == (w.payments, Found(p))
    ensures Call(Machine(w, Running(ConfirmRefund, mem, now, e)), Done, []) == Machine(w, OnConfirmRefund(mem, Found(p), now, e))
  {
    hide Find, WithPayments, OnConfirmRefund;
    NothingGiven(w);
  }

  lemma CleanMore(m: Machine)
    requires m.pc.Running?
    ensures Clean(m) == Clean(Call(m, Done, []))
  {
    hide Call;
    EachCallSpendsBudget(m, Done, []);
  }

  lemma UndisturbedGoesBack(w: World, now: int, i: nat)
    requires GoesBack(w, i)
    ensures Reconciled(w, now).op.status.RefundedInFull? && Reconciled(w, now).payments == GivenBackWorld(w, i).payments
  {
    hide Clean, Call, Restorable, WithPayments, Begin, Eligible, Find, Matches, InWindow, GiveBackIds;
    var mem, e := Adopt(w.op, w.payments[i]).(status := RefundPending), Eligible(w);
    Calls(w, now, i);
    CleanMore(Machine(w, Running(FindPayment, w.op, now, e)));
    CleanMore(Machine(w, Running(GetRestore, mem, now, e)));
    CleanMore(Machine(w, Running(RefundPrimary, mem, now, e)));
    var w1 := GivenBackWorld(w, i);
    CleanMore(Machine(w1, Running(ConfirmRefund, mem, now, e)));
    WithPaymentsLooks(w, GiveBackIds(w.payments, [w.payments[i].id]));
    BookRefund(w.payments, i);
    AloneRefund(w.payments, w.paymentReference, i, Done);
    AloneFind(w1.payments, w1.paymentReference, i, Done, []);
    var p := w1.payments[i];
    CallConfirm(w1, mem, now, e, p);
    CleanSave(w1, mem.(refunded := p.refunded, paymentStatus := p.status), RefundedInFull, NoCode, now, e);
  }

  lemma ReadAfterRefund(w: World, later: int, i: nat)
    requires GoesBack(w, i)
    ensures var r := Reconciled(GivenBackWorld(w, i), later);
            && (r.op.status.RefundedInFull? <==> Matches(w, w.payments[i]))
            && (!Matches(w, w.payments[i]) ==> r.op.status.FailedOperation? && r.op.code.PaymentMismatch?)
            && i < |r.payments| && r.payments[i].status.Refunded?
  {
    hide Clean, Call, Restorable, WithPayments, Begin, Eligible, InWindow, GiveBackIds, Reconciled;
    var w1 := GivenBackWorld(w, i);
    WithPaymentsLooks(w, GiveBackIds(w.payments, [w.payments[i].id]));
    AloneRefund(w.payments, w.paymentReference, i, Done);
    CleanSearch(w1, later, i);
    var p := w1.payments[i];
    CleanSave(w1, Adopt(w1.op, p), RefundedInFull, NoCode, later, Eligible(w1));
    CleanSave(w1, Adopt(w1.op, p), FailedOperation, PaymentMismatch, later, Eligible(w1));
  }

  /** Exactly when an operation that turns its payment back ends REFUNDED with money kept: when, before the
      reconcile, at least the quoted amount of the payment had been returned. The approved payment was then
      larger than the quote, and what exceeds the returned part stays. */
  lemma RefundedWithMoneyKept(w: World, now: int, i: nat)
    requires TurnsBack(w, i)
    ensures var r := Reconciled(w, now);
            && r.op.status.RefundedInFull?
            && (Net(r.payments, w.paymentReference) > 0 <==> w.payments[i].refunded >= w.quote.proration)
            && Net(r.payments, w.paymentReference)
               == if w.payments[i].refunded >= w.quote.proration then w.payments[i].amount - w.payments[i].refunded else 0
  {
    hide Reconciled, Restorable, Eligible, Matches, InWindow, GiveBackIds, WithPayments;
    if w.payments[i].refunded >= w.quote.proration {
      PartReturnCountsAsRefund(w, now, i);
    } else {
      UndisturbedGoesBack(w, now, i);
      WithPaymentsLooks(w, GiveBackIds(w.payments, [w.payments[i].id]));
      AloneRefund(w.payments, w.paymentReference, i, Done);
      BookRefund(w.payments, i);
      NetOne(GivenBackWorld(w, i).payments, w.paymentReference, i);
    }
  }

  // ---------------------------------------------------------------------------
  // A later attempt to pay
  // ---------------------------------------------------------------------------

  lemma {:induction false} NewestIsFirstOpen(ps: seq<Payment>, reference: string, j: nat)
    requires j < |ps| && ps[j].reference == reference
    requires forall k | 0 <= k < j :: ps[k].reference != reference
    requires forall k | 0 <= k < |ps| :: ps[k].reference == reference ==> !ps[k].status.Approved?
    ensures FirstOpen(ps, reference) == Some(ps[j].id)
  {
    var n := |ps| - 1;
    FirstOpenIs(ps[..n], reference);
    if j < n { NewestIsFirstOpen(ps[..n], reference, j); }
  }

  lemma NewestIsFound(ps: seq<Payment>, reference: string, j: nat)
    requires Book(ps) && j < |ps| && ps[j].reference == reference
    requires forall k | 0 <= k < j :: ps[k].reference != reference
    requires forall k | 0 <= k < |ps| :: ps[k].reference == reference ==> !ps[k].status.Approved?
    ensures Find(ps, reference, Done, []) == (ps, Found(ps[j]))
  {
    if ApprovedIds(ps, reference) != [] { ApprovedIdsMembers(ps, reference, ApprovedIds(ps, reference)[0]); }
    NewestIsFirstOpen(ps, reference, j);
    assert Locate(ps, ps[j].id) == j;
  }

  /** The refund of payment i with the recurring amount restored and no second approved payment; j is the
      newest payment of the operation. */
  predicate RefundStage(w: World, i: nat, j: nat) {
    && w.op.status.RefundPending? && w.quote.paymentRequired && Restorable(w)
    && (w.op.planStarted ==> w.plan.amount == w.snap.monthly < w.quote.newMonthly)
    && Book(w.payments) && i < |w.payments| && Collected(w.payments[i]) && w.payments[i].reference == w.paymentReference
    && w.op.paymentId == Some(w.payments[i].id) && w.op.refunded < w.op.amount == w.payments[i].amount
    && (forall k | 0 <= k < |w.payments| && k != i :: w.payments[k].reference == w.paymentReference ==> !w.payments[k].status.Approved?)
    && j <= i && w.payments[j].reference == w.paymentReference
    && forall k | 0 <= k < j :: w.payments[k].reference != w.paymentReference
  }

  /** The requests of the refund stage: payment i is given back, and the newest payment is read. */
  lemma RefundReadsNewest(w: World, now: int, i: nat, j: nat)
    requires RefundStage(w, i, j)
    ensures var w1 := GivenBackWorld(w, i);
            && j < |w1.payments| && w1.payments == GiveBackIds(w.payments, [w.payments[i].id]) && w1.op == w.op
            && w1.payments[j].refunded == (if j == i then w.op.amount else w.payments[j].refunded)
            && Reconciled(w, now) == Clean(Machine(w1, OnConfirmRefund(w.op, Found(w1.payments[j]), now, Eligible(w)))).w
  {
    hide Clean, Call, Restorable, WithPayments, Begin, Eligible, Find, GiveBackIds, Book, OnConfirmRefund;
    var e := Eligible(w);
    BeginsRefund(w, now);
    CallRestore(w, w.op, now, e);
    CallRefund(w, w.op, now, e, i);
    BookRefund(w.payments, i);
    var w1 := GivenBackWorld(w, i);
    WithPaymentsLooks(w, GiveBackIds(w.payments, [w.payments[i].id]));
    NewestIsFound(w1.payments, w1.paymentReference, j);
    CallConfirm(w1, w.op, now, e, w1.payments[j]);
    CleanMore(Machine(w, Running(GetRestore, w.op, now, e)));
    CleanMore(Machine(w, Running(RefundPrimary, w.op, now, e)));
    CleanMore(Machine(w1, Running(ConfirmRefund, w.op, now, e)));
  }

  /** The refund is confirmed by reading the newest payment of the operation, not the one that was
      given back. So a reconcile gives payment i back and then ends exactly when i is the newest payment j,
      or j was returned as much; after a newer attempt that was rejected it retries. */
  lemma LaterAttemptBlocksTheRefund(w: World, now: int, i: nat, j: nat)
    requires RefundStage(w, i, j)
    ensures var r := Reconciled(w, now);
            && r.payments == GiveBackIds(w.payments, [w.payments[i].id])
            && (r.op.status.RefundedInFull? <==> j == i || w.payments[j].refunded >= w.op.amount)
            && (!r.op.status.RefundedInFull? ==> r == GivenBackWorld(w, i).(op := w.op.(code := RefundRetry)))
  {
    hide Clean, Reconciled, GivenBackWorld, Restorable, Eligible, GiveBackIds, Book;
    RefundReadsNewest(w, now, i, j);
    var w1, e := GivenBackWorld(w, i), Eligible(w);
    var p := w1.payments[j];
    CleanSave(w1, w.op.(refunded := p.refunded, paymentStatus := p.status), RefundedInFull, NoCode, now, e);
    CleanSave(w1, w.op, RefundPending, RefundRetry, now, e);
  }

  /** Undisturbed reconciles, one after the other. */
  function Reconciles(w: World, nows: seq<int>): World {
    if nows == [] then w else Reconciled(Reconciles(w, nows[..|nows| - 1]), nows[|nows| - 1])
  }

  lemma StaysAtRefund(w: World, i: nat, j: nat)
    requires RefundStage(w, i, j) && j != i
    ensures var r := GivenBackWorld(w, i).(op := w.op.(code := RefundRetry));
            && RefundStage(r, i, j) && r.payments[j] == w.payments[j] && r.payments[i].status.Refunded? && r.op.amount == w.op.amount
  {
    hide Restorable, WithPayments, GiveBackIds, Book;
    BookRefund(w.payments, i);
    WithPaymentsLooks(w, GiveBackIds(w.payments, [w.payments[i].id]));
    var w1 := GivenBackWorld(w, i);
    assert w1.op == w.op && w1.quote == w.quote;
    StillRestorable(w, w1, w.op.(code := RefundRetry));
    forall k | 0 <= k < |w1.payments|
      ensures w1.payments[k].reference == w.payments[k].reference && w1.payments[k].amount == w.payments[k].amount
    {}
  }

  lemma StillRestorable(w: World, w1: World, mem: Op)
    requires Restorable(w) && mem.planStarted == w.op.planStarted
    requires w1.plan == w.plan && w1.snap == w.snap && w1.row == w.row && w1.quote == w.quote
    ensures Restorable(w1.(op := mem))
  {
  }

  /** Repeating the reconcile does not help: the money is back after the first, and the operation stays
      REFUND_PENDING after any number of them. */
  lemma {:induction false} RefundStaysBlocked(w: World, nows: seq<int>, i: nat, j: nat)
    requires RefundStage(w, i, j) && j != i && w.payments[j].refunded < w.op.amount
    ensures var r := Reconciles(w, nows);
            && RefundStage(r, i, j) && r.payments[j] == w.payments[j] && r.op.amount == w.op.amount
            && (nows != [] ==> r.op.code.RefundRetry? && r.payments[i].status.Refunded?)
  {
    hide RefundStage, Reconciled, GivenBackWorld;
    if nows != [] {
      var r := Reconciles(w, nows[..|nows| - 1]);
      RefundStaysBlocked(w, nows[..|nows| - 1], i, j);
      LaterAttemptBlocksTheRefund(r, nows[|nows| - 1], i, j);
      StaysAtRefund(r, i, j);
    }
  }

  lemma BeginsRefund(w: World, now: int)
    requires w.op.status.RefundPending?
    ensures Begin(Machine(w, Idle), now) == Machine(w, Running(GetRestore, w.op, now, Eligible(w)))
  {
    hide Eligible;
  }
}
