/** The promises of the branch operation, over every run. */
module BranchSagaTheorems {
  import opened Common
  import opened BranchPayments
  import opened BranchSaga
  import opened BranchSagaSafety

  /** The recurring amount at the provider is the amount other writers left, or one of the two
      amounts of the quote; it moves only after the intent to move it was committed, and no other
      writer can interfere while the operation is active. */
  lemma ProviderAmountStaysOnCourse(m: Machine, cs: seq<Choice>)
    requires Confirmed(m)
    ensures var w := Run(m, cs).w;
            && (Active(w.op.status) ==> !w.released)
            && (!w.released ==>
                  || w.plan.amount == w.base
                  || (w.op.planStarted && Either(w.base, w.snap.monthly, w.quote.newMonthly)
                      && Either(w.plan.amount, w.snap.monthly, w.quote.newMonthly)))
            && (w.base == w.snap.monthly && w.plan.amount == w.quote.newMonthly && !w.released ==> w.op.planStarted)
  {
    RunKeeps(m, cs);
  }

  /** Once an operation is over and nobody else has written since, the provider charges exactly
      what the local row says: the raised amount after COMPLETED, the old one otherwise. */
  lemma RestMeansAgreement(m: Machine, cs: seq<Choice>)
    requires Confirmed(m)
    ensures var w := Run(m, cs).w;
            !Active(w.op.status) && w.base == w.snap.monthly && !w.released && !w.rowTouched ==>
              && w.plan.amount == w.row.monthly == w.row.unit * w.row.count && w.row.count == w.row.branches
              && w.row.count == w.snap.count + w.inserted
  {
    hide Run, Step;
    RunKeeps(m, cs);
    AgreementAtRest(Run(m, cs).w);
  }

  lemma AgreementAtRest(w: World)
    requires WorldInv(w)
    ensures !Active(w.op.status) && w.base == w.snap.monthly && !w.released && !w.rowTouched ==>
              && w.plan.amount == w.row.monthly == w.row.unit * w.row.count && w.row.count == w.row.branches
              && w.row.count == w.snap.count + w.inserted
  {
    assert w.snap.unit * (w.snap.count + 1) == w.snap.unit * w.snap.count + w.snap.unit;
  }

  /** Requests touch the provider; only a commit touches the database. */
  lemma OnlySavingWrites(m: Machine, o: Outcome, refunds: seq<Outcome>)
    requires m.pc.Running? && !m.pc.site.Saving?
    ensures var after := Call(m, o, refunds).w;
            after.op == m.w.op && after.row == m.w.row && after.inserted == m.w.inserted && after.quote == m.w.quote
  {
    hide Find, Refund, ClearDuplicates, OnPayment, OnPlan, OnVerify, OnRestore, OnCheckRestore, OnConfirmRefund, Save,
        EnterRefund, IndexBlocks;
    match m.pc.site
    case FindPayment =>
    case CreateCheckout =>
    case GetPlan =>
    case PutPlan =>
    case VerifyPlan =>
    case GetRestore =>
    case PutRestore =>
    case CheckRestore =>
    case RefundPrimary =>
    case ConfirmRefund =>
    case SweepDuplicates =>
  }

  predicate Commits(m: Machine, c: Choice) {
    c.Answer? && Applied(c.o) && m.pc.Running? && m.pc.site.Saving? && !IndexBlocks(m.w, m.pc.mem)
  }

  /** The only steps that write the operation are commits of what the reconcile holds. */
  lemma WritesAreCommits(m: Machine, c: Choice)
    ensures Commits(m, c) ==> Step(m, c).w == Committed(m.w, m.pc.mem, m.pc.site.activate)
    ensures !Commits(m, c) ==>
              && Step(m, c).w.op == m.w.op && Step(m, c).w.inserted == m.w.inserted && Step(m, c).w.quote == m.w.quote
              && (Step(m, c).w.row == m.w.row || (c.Outside? && c.e.RowChanged?))
  {
    match c
    case Answer(o, refunds) =>
      if m.pc.Running? {
        if m.pc.site.Saving? { SavingWrites(m, o, refunds); } else { OnlySavingWrites(m, o, refunds); }
        hide Call;
      }
    case Outside(e) => EventsWrite(m, e);
    case Start(now) => hide EnterPlan, EnterRefund;
    case Crash =>
  }

  lemma SavingWrites(m: Machine, o: Outcome, refunds: seq<Outcome>)
    requires m.pc.Running? && m.pc.site.Saving?
    ensures Call(m, o, refunds).w
            == if Applied(o) && !IndexBlocks(m.w, m.pc.mem) then Committed(m.w, m.pc.mem, m.pc.site.activate) else m.w
  {
  }

  lemma EventsWrite(m: Machine, e: Event)
    ensures var after := Happen(m, e).w;
            && after.op == m.w.op && after.inserted == m.w.inserted && after.quote == m.w.quote
            && (after.row == m.w.row || e.RowChanged?)
  {
    hide Drift, Intervene;
    DriftFields(m.w, e);
    InterveneFields(Drift(m.w, e), e);
  }

  lemma DriftFields(w: World, e: Event)
    ensures Drift(w, e).op == w.op && Drift(w, e).inserted == w.inserted && Drift(w, e).quote == w.quote && Drift(w, e).row == w.row
  {
  }

  lemma InterveneFields(w: World, e: Event)
    ensures var after := Intervene(w, e);
            && after.op == w.op && after.inserted == w.inserted && after.quote == w.quote
            && (after.row == w.row || e.RowChanged?)
  {
  }

  /** The branch, the quantity and the local amount change together, once, in the commit that
      writes COMPLETED, and only over a row that was rechecked against the quote. */
  lemma ActivationIsAtomic(m: Machine, c: Choice)
    requires Inv(m)
    requires Step(m, c).w.inserted != m.w.inserted || (Step(m, c).w.row != m.w.row && !(c.Outside? && c.e.RowChanged?))
    ensures var w, after := m.w, Step(m, c).w;
            && c.Answer? && m.pc.Running? && m.pc.site == Saving(true)
            && w.op.status.PlanUpdating? && after.op.status.Completed?
            && w.inserted == 0 && after.inserted == 1
            && Billable(w.row) && SnapshotOf(w.row) == w.snap
            && after.row == w.row.(count := w.row.count + 1, monthly := w.row.unit * (w.row.count + 1), branches := w.row.branches + 1)
            && Billable(after.row)
            && after.plan.amount == after.row.monthly
  {
    WritesAreCommits(m, c);
    hide Step;
    var w := m.w;
    assert w.snap.unit * (w.snap.count + 1) == w.snap.unit * w.snap.count + w.snap.unit;
  }

  lemma AtMostOneBranch(m: Machine, cs: seq<Choice>)
    requires Confirmed(m)
    ensures var w := Run(m, cs).w; w.inserted == if w.op.status.Completed? then 1 else 0
  {
    RunKeeps(m, cs);
  }

  /** A completed operation that needed a payment rests on one that exists with the quoted amount,
      was approved inside the quote's window, and was not given back by the operation itself unless
      the refund had been sent before the decision to refund was committed. */
  lemma CompletedWasPaid(m: Machine, cs: seq<Choice>)
    requires Confirmed(m)
    ensures var w := Run(m, cs).w;
            w.op.status.Completed? && w.quote.paymentRequired ==>
              && w.op.paymentId.Some?
              && (w.op.paymentId.value in w.taken ==> w.op.paymentId.value in w.early)
              && exists i :: && 0 <= i < |w.payments| && w.op.paymentId == Some(w.payments[i].id)
                             && w.payments[i].reference == w.paymentReference
                             && w.payments[i].amount == w.quote.proration && w.payments[i].approvedAt.Some?
                             && w.quote.createdAt <= w.payments[i].approvedAt.value < w.quote.expiry
  {
    RunKeeps(m, cs);
    var w := Run(m, cs).w;
    if w.op.status.Completed? && w.quote.paymentRequired {
      var i :| 0 <= i < |w.payments| && Backs(w.payments[i], w.paymentReference, w.op);
      assert w.op.paymentId == Some(w.payments[i].id) && InWindow(w.quote, w.payments[i].approvedAt);
    }
  }

  /** Of the payment of a refunded operation everything was given back, or at least the quoted amount of a
      larger one; of a payment within the quote nothing was kept. */
  lemma RefundedKeepsNothing(m: Machine, cs: seq<Choice>, i: nat)
    requires Confirmed(m)
    requires var w := Run(m, cs).w;
             w.op.status.RefundedInFull? && i < |w.payments| && w.op.paymentId == Some(w.payments[i].id)
    ensures var w := Run(m, cs).w;
            && (w.payments[i].refunded == w.payments[i].amount || w.quote.proration <= w.payments[i].refunded < w.payments[i].amount)
            && (w.payments[i].amount <= w.quote.proration ==> w.payments[i].refunded == w.payments[i].amount)
  {
    RunKeeps(m, cs);
    var w := Run(m, cs).w;
    var j :| 0 <= j < |w.payments| && w.op.paymentId == Some(w.payments[j].id)
             && (w.payments[j].status.Refunded? || w.quote.proration <= w.payments[j].refunded < w.payments[j].amount);
    assert i == j;
    assert Sound(w.payments[i]);
  }

  /** The duplicate searches never give back a payment that was given back before. */
  lemma SearchSparesRefunded(w: World, id: nat, o: Outcome, refunds: seq<Outcome>)
    requires BooksKept(w)
    requires exists k :: 0 <= k < |w.payments| && w.payments[k].id == id && w.payments[k].status.Refunded?
    ensures id !in Given(w.payments, Find(w.payments, w.paymentReference, o, refunds).0)
  {
    var k :| 0 <= k < |w.payments| && w.payments[k].id == id && w.payments[k].status.Refunded?;
    FindIsSafe(w.payments, w.paymentReference, o, refunds);
    forall i | 0 <= i < |w.payments| && w.payments[i].id == id ensures !w.payments[i].status.Approved? {
      assert i == k;
    }
  }

  lemma SweepSparesPrimary(w: World, primary: nat, refunds: seq<Outcome>)
    requires BooksKept(w)
    ensures primary !in Given(w.payments, ClearDuplicates(w.payments, w.paymentReference, primary, refunds).0)
  {
    DuplicatesSparePrimary(w.payments, w.paymentReference, primary, refunds);
  }

  /** What a reconcile gives back depends on where it stands. */
  lemma TakenWhere(m: Machine, o: Outcome, refunds: seq<Outcome>)
    requires m.pc.Running?
    requires !m.pc.site.FindPayment? && !m.pc.site.RefundPrimary? && !m.pc.site.ConfirmRefund? && !m.pc.site.SweepDuplicates?
    ensures Call(m, o, refunds).w.taken == m.w.taken
  {
    hide Find, Refund, ClearDuplicates, OnPayment, OnPlan, OnVerify, OnRestore, OnCheckRestore, OnConfirmRefund, Save,
        EnterRefund, IndexBlocks;
    match m.pc.site
    case CreateCheckout =>
    case GetPlan =>
    case PutPlan =>
    case VerifyPlan =>
    case GetRestore =>
    case PutRestore =>
    case CheckRestore =>
    case Saving(activate) =>
  }

  lemma TakenBySearch(m: Machine, o: Outcome, refunds: seq<Outcome>)
    requires m.pc.Running? && m.pc.site.ConfirmRefund?
    ensures Call(m, o, refunds).w.taken
            == m.w.taken + Given(m.w.payments, Find(m.w.payments, m.w.paymentReference, o, refunds).0)
  {
  }

  lemma TakenBySweep(m: Machine, o: Outcome, refunds: seq<Outcome>)
    requires m.pc.Running? && m.pc.site.SweepDuplicates? && m.pc.mem.paymentId.Some?
    ensures Call(m, o, refunds).w.taken
            == m.w.taken + Given(m.w.payments, ClearDuplicates(m.w.payments, m.w.paymentReference, m.pc.mem.paymentId.value, refunds).0)
  {
  }

  /** The named payment of an operation whose plan change was decided is given back at one place
      only, and only while the provider charges the old amount again. */
  lemma RefundOnlyAfterRestore(m: Machine, c: Choice, id: nat)
    requires Inv(m) && (m.w.op.status.PlanUpdating? || m.w.op.status.RefundPending? || m.w.op.status.Completed?)
    requires m.w.op.paymentId == Some(id) && id in Step(m, c).w.taken && id !in m.w.taken
    ensures && c.Answer? && m.pc.Running? && m.pc.site.RefundPrimary?
            && !m.w.op.status.Completed?
            && (m.w.op.planStarted ==> m.w.plan.amount == m.w.snap.monthly)
  {
    hide Call, Find, ClearDuplicates;
    assert c.Answer? && m.pc.Running?;
    if m.pc.site.ConfirmRefund? {
      TakenBySearch(m, c.o, c.refunds);
      SearchSparesRefunded(m.w, id, c.o, c.refunds);
    } else if m.pc.site.SweepDuplicates? {
      TakenBySweep(m, c.o, c.refunds);
      SweepSparesPrimary(m.w, id, c.refunds);
    } else if !m.pc.site.RefundPrimary? {
      TakenWhere(m, c.o, c.refunds);
    }
  }

  /** Progress is never undone: no step brings an operation back to an earlier status. */
  lemma RankNeverRises(m: Machine, c: Choice)
    requires Inv(m)
    ensures Rank(m.w.quote, Step(m, c).w.op.status) <= Rank(m.w.quote, m.w.op.status)
    ensures Rank(m.w.quote, m.w.op.status) == 0 ==> Step(m, c).w.op.status == m.w.op.status
    ensures Step(m, c).w.quote == m.w.quote
  {
    WritesAreCommits(m, c);
    hide Step;
  }

  lemma {:induction false} QuoteIsFixed(m: Machine, cs: seq<Choice>)
    requires Confirmed(m)
    ensures Run(m, cs).w.quote == m.w.quote
  {
    if cs != [] {
      QuoteIsFixed(m, cs[..|cs| - 1]);
      WritesAreCommits(Run(m, cs[..|cs| - 1]), cs[|cs| - 1]);
      hide Step;
    }
  }

  lemma {:induction false} RankNeverRisesOverRuns(m: Machine, before: seq<Choice>, after: seq<Choice>)
    requires Confirmed(m)
    ensures Rank(m.w.quote, Run(m, before + after).w.op.status) <= Rank(m.w.quote, Run(m, before).w.op.status)
    ensures Rank(m.w.quote, Run(m, before).w.op.status) == 0 ==> Run(m, before + after).w.op.status == Run(m, before).w.op.status
    decreases |after|
  {
    if after == [] {
      assert before + after == before;
    } else {
      var n := |after| - 1;
      assert (before + after)[..|before + after| - 1] == before + after[..n];
      var last := Run(m, before + after[..n]);
      RankNeverRisesOverRuns(m, before, after[..n]);
      RunKeeps(m, before + after[..n]);
      QuoteIsFixed(m, before + after[..n]);
      RankNeverRises(last, after[n]);
      hide Step;
    }
  }
}
