/** Where a branch operation ends. With a responsive provider the addition goes through in two
    reconciles and a refund in one; and it makes no difference how often the attempts before were
    cut off by a crash, lost their answers or lost their commit. */
module BranchSagaConvergence {
  import opened Common
  import opened BranchPayments
  import opened BranchSaga
  import opened BranchReconciler

  // ---------------------------------------------------------------------------
  // Undisturbed reconciles
  // ---------------------------------------------------------------------------

  /** What is left of a reconcile when every request succeeds. */
  function Clean(m: Machine): (r: Machine)
    ensures r.pc.Idle?
    decreases Left(m.pc)
  {
    if m.pc.Idle? then m
    else
      EachCallSpendsBudget(m, Done, []);
      Clean(Call(m, Done, []))
  }

  function Reconciled(w: World, now: int): World {
    Clean(Begin(Machine(w, Idle), now)).w
  }

  predicate Undisturbed(answers: seq<Response>) {
    forall k | 0 <= k < |answers| :: answers[k] == Response(Done, [])
  }

  /** The repository's reconcile is the undisturbed one when all its answers are good. */
  lemma {:induction false} CleanIsPerform(m: Machine, answers: seq<Response>)
    requires Undisturbed(answers) && Left(m.pc) <= |answers|
    ensures Perform(m, answers) == Clean(m)
    decreases |answers|
  {
    hide Call;
    if m.pc.Idle? {
      PerformIdle(m, answers);
    } else {
      PerformCall(m, answers);
      EachCallSpendsBudget(m, Done, []);
      CleanIsPerform(Call(m, Done, []), answers[1..]);
    }
  }

  /** Attempts of the operation itself: nobody else acts and the provider turns nothing down. */
  predicate Attempt(c: Choice) {
    !c.Outside? && (c.Answer? ==> !c.o.Refused?)
  }

  predicate Attempts(cs: seq<Choice>) {
    forall k | 0 <= k < |cs| :: Attempt(cs[k])
  }

  /** What a world at rest shows of the operation, retry codes aside. */
  datatype Outlook = Outlook(op: Op, row: Row, inserted: nat, plan: Plan, payments: seq<Payment>)

  function Seen(w: World): Outlook {
    Outlook(w.op.(code := NoCode), w.row, w.inserted, w.plan, w.payments)
  }

  predicate Verifying(s: Status) {
    s.PaymentPending? || s.FailedOperation?
  }

  /** The operation row once the payment has been looked up. */
  function Bearing(w: World, i: nat): Op {
    if Verifying(w.op.status) && i < |w.payments| then Adopt(w.op, w.payments[i]) else w.op
  }

  // ---------------------------------------------------------------------------
  // One payment
  // ---------------------------------------------------------------------------

  /** Payment i is the only one of the reference. */
  predicate Alone(ps: seq<Payment>, reference: string, i: nat) {
    && Book(ps) && i < |ps| && ps[i].reference == reference
    && forall j | 0 <= j < |ps| && ps[j].reference == reference :: j == i
  }

  lemma AloneApproved(ps: seq<Payment>, reference: string, i: nat)
    requires Alone(ps, reference, i)
    ensures ApprovedIds(ps, reference) == if ps[i].status.Approved? then [ps[i].id] else []
  {
    var approved := ApprovedIds(ps, reference);
    ApprovedIdsDistinct(ps, reference);
    forall k | 0 <= k < |approved| ensures approved[k] == ps[i].id && ps[i].status.Approved? {
      ApprovedIdsMembers(ps, reference, approved[k]);
    }
    ApprovedIdsMembers(ps, reference, ps[i].id);
    DistinctHead(approved);
    assert |approved| > 0 ==> approved[0] == ps[i].id;
    if ps[i].status.Approved? { assert ps[i].id in approved; }
  }

  lemma DistinctHead(ids: seq<nat>)
    requires Distinct(ids)
    ensures |ids| <= 1 || ids[0] != ids[1]
  {
  }

  lemma AloneFind(ps: seq<Payment>, reference: string, i: nat, o: Outcome, refunds: seq<Outcome>)
    requires Alone(ps, reference, i)
    ensures Find(ps, reference, o, refunds) == (ps, if o.Done? then Found(ps[i]) else Failed)
  {
    AloneApproved(ps, reference, i);
    assert Extras(ps, reference) == [];
    KeptExists(ps, reference);
    assert Kept(ps, reference) == Some(ps[i].id);
    assert Locate(ps, ps[i].id) == i;
  }

  lemma AloneSweep(ps: seq<Payment>, reference: string, i: nat, refunds: seq<Outcome>)
    requires Alone(ps, reference, i)
    ensures ClearDuplicates(ps, reference, ps[i].id, refunds) == (ps, true)
  {
    AloneApproved(ps, reference, i);
    assert Without(ApprovedIds(ps, reference), ps[i].id) == [];
  }

  lemma NothingGiven(w: World)
    ensures WithPayments(w, w.payments) == w
  {
    assert Given(w.payments, w.payments) == {};
    assert w.taken + {} == w.taken && w.early + {} == w.early;
  }

  lemma NobodyPaid(ps: seq<Payment>, reference: string, o: Outcome, refunds: seq<Outcome>)
    requires forall j | 0 <= j < |ps| :: ps[j].reference != reference
    ensures Find(ps, reference, o, refunds) == (ps, if o.Done? then Missing else Failed)
  {
    if ApprovedIds(ps, reference) != [] { ApprovedIdsMembers(ps, reference, ApprovedIds(ps, reference)[0]); }
    FirstOpenIs(ps, reference);
  }

  // ---------------------------------------------------------------------------
  // Going up: the addition goes through
  // ---------------------------------------------------------------------------

  /** Payment i is the one the quote asked for. */
  predicate Pays(w: World, i: nat) {
    && Alone(w.payments, w.paymentReference, i) && Matches(w, w.payments[i])
    && w.payments[i].status.Approved? && w.payments[i].refunded == 0 && InWindow(w.quote, w.payments[i].approvedAt)
  }

  predicate Named(w: World, i: nat) {
    w.op.paymentId.Some? ==> Alone(w.payments, w.paymentReference, i) && w.op.paymentId == Some(w.payments[i].id)
  }

  /** Everything the plan change needs is in place. */
  predicate Clear(w: World) {
    && Eligible(w) && !w.otherPending && PlanIsSnapshots(w) && PlanRenews(w) && w.quote.newMonthly >= 1
    && (w.plan.amount == w.snap.monthly || w.plan.amount == w.quote.newMonthly)
  }

  /** Committed states from which the addition goes through. */
  predicate Rising(w: World, i: nat) {
    if w.op.status.Completed? then Named(w, i)
    else Clear(w) && if w.op.status.PlanUpdating? then Named(w, i)
                     else Verifying(w.op.status) && w.quote.paymentRequired && w.quote.proration >= 1 && Pays(w, i) && !w.op.planStarted
  }

  /** Where it ends: completed, one branch and one quantity more, the provider at the new amount. */
  function Raised(w: World, i: nat): Outlook {
    if w.op.status.Completed? then Seen(w)
    else Outlook(Bearing(w, i).(status := Completed, code := NoCode, planStarted := true, planAmount := Some(w.quote.newMonthly)),
                 w.row.(count := w.row.count + 1, monthly := w.quote.newMonthly, branches := w.row.branches + 1),
                 w.inserted + 1, w.plan.(amount := w.quote.newMonthly), w.payments)
  }

  /** How many undisturbed reconciles are still needed. */
  function Ahead(op: Op): nat {
    if op.status.Completed? then 0 else if op.status.PlanUpdating? && op.planStarted then 1 else 2
  }

  predicate ClimbsAt(w: World, site: Site, mem: Op, eligible: bool, i: nat) {
    match site
    case FindPayment => mem == w.op && Verifying(w.op.status) && eligible
    case GetPlan => mem == w.op && w.op.status.PlanUpdating? && w.op.planStarted && eligible
    case PutPlan => mem == w.op && w.op.status.PlanUpdating? && w.op.planStarted && eligible && w.plan.amount == w.snap.monthly
    case VerifyPlan => mem == w.op && w.op.status.PlanUpdating? && w.op.planStarted && eligible && w.plan.amount == w.quote.newMonthly
    case SweepDuplicates => mem == w.op && w.op.status.Completed? && w.op.paymentId.Some?
    case Saving(activate) => Rising(Committed(w, mem, activate), i) && Raised(Committed(w, mem, activate), i) == Raised(w, i)
    case _ => false
  }

  predicate Climbs(m: Machine, i: nat) {
    Rising(m.w, i) && (m.pc.Running? ==> ClimbsAt(m.w, m.pc.site, m.pc.mem, m.pc.eligible, i))
  }

  /** A commit that is about to be written brings the end nearer. */
  predicate Advances(m: Machine) {
    m.pc.Running? && m.pc.site.Saving? ==> Ahead(m.pc.mem) < Ahead(m.w.op) || Ahead(m.pc.mem) == 0
  }

  lemma RetryClimbs(w: World, code: Code, now: int, eligible: bool, i: nat)
    requires Rising(w, i)
    ensures Climbs(Machine(w, Save(w.op, w.op.status, code, now, eligible)), i)
  {
  }

  lemma StartOfPlanClimbs(w: World, op: Op, now: int, i: nat)
    requires Rising(w, i) && !w.op.status.Completed? && !w.op.planStarted && op == Bearing(w, i)
    ensures Climbs(Machine(w, EnterPlan(op, now, true)), i) && Advances(Machine(w, EnterPlan(op, now, true)))
  {
    hide Eligible, PlanIsSnapshots, PlanRenews, Book, Sound, InWindow;
    StartIsCommitted(w, op.(planStarted := true, status := PlanUpdating, code := NoCode));
  }

  lemma StartIsCommitted(w: World, mem: Op)
    ensures Committed(w, mem, false) == w.(op := mem) && (Eligible(w) ==> Eligible(w.(op := mem)))
    ensures PlanIsSnapshots(w.(op := mem)) == PlanIsSnapshots(w) && PlanRenews(w.(op := mem)) == PlanRenews(w)
  {
  }

  lemma ActivationClimbs(w: World, now: int, i: nat)
    requires Rising(w, i) && w.op.status.PlanUpdating? && w.op.planStarted && w.plan.amount == w.quote.newMonthly
    ensures Climbs(Machine(w, Activate(w.op, w.plan.amount, now, true)), i)
  {
  }

  lemma BeginClimbs(w: World, now: int, i: nat)
    requires Rising(w, i)
    ensures var m := Begin(Machine(w, Idle), now);
            m.w == w && Climbs(m, i) && Advances(m) && (m.pc.Idle? ==> w.op.status.Completed?)
  {
    hide Raised, Save, EnterPlan, EnterRefund;
    if w.op.status.PlanUpdating? {
      if w.op.planStarted { PlanReadStarts(w, now, i); } else { StartOfPlanClimbs(w, w.op, now, i); EntersPlan(w, now); }
    }
  }

  lemma EntersPlan(w: World, now: int)
    ensures EnterPlan(w.op, now, true).Running?
  {
  }

  lemma PlanReadStarts(w: World, now: int, i: nat)
    requires Rising(w, i) && w.op.status.PlanUpdating? && w.op.planStarted
    ensures EnterPlan(w.op, now, true) == Running(GetPlan, w.op, now, true)
  {
  }

  lemma SearchClimbs(m: Machine, i: nat, o: Outcome, refunds: seq<Outcome>)
    requires Climbs(m, i) && m.pc.Running? && m.pc.site.FindPayment?
    ensures var r := Call(m, o, refunds); r.w == m.w && Climbs(r, i) && (o.Done? ==> Advances(r) && r.pc.Running?)
  {
    hide Find, WithPayments, Raised, EnterPlan, EnterRefund, Save;
    var w := m.w;
    AloneFind(w.payments, w.paymentReference, i, o, refunds);
    NothingGiven(w);
    RetryClimbs(w, PaymentVerificationRetry, m.pc.now, m.pc.eligible, i);
    StartOfPlanClimbs(w, Adopt(w.op, w.payments[i]), m.pc.now, i);
    EntersPlan(w.(op := Adopt(w.op, w.payments[i])), m.pc.now);
  }

  lemma PlanReadClimbs(m: Machine, i: nat, o: Outcome, refunds: seq<Outcome>)
    requires Climbs(m, i) && m.pc.Running? && (m.pc.site.GetPlan? || m.pc.site.VerifyPlan?)
    ensures var r := Call(m, o, refunds); r.w == m.w && Climbs(r, i) && (o.Done? ==> Advances(r) && r.pc.Running?)
  {
    hide Raised, Save;
    RetryClimbs(m.w, PlanUpdateRetry, m.pc.now, m.pc.eligible, i);
    if m.w.plan.amount == m.w.quote.newMonthly { ActivationClimbs(m.w, m.pc.now, i); }
  }

  lemma RaisedStays(w: World, i: nat, o: Outcome)
    requires Rising(w, i) && w.op.status.PlanUpdating?
    ensures Rising(PutAmount(w, w.quote.newMonthly, o), i)
    ensures Raised(PutAmount(w, w.quote.newMonthly, o), i) == Raised(w, i)
    ensures o.Done? ==> PutAmount(w, w.quote.newMonthly, o).plan.amount == w.quote.newMonthly
    ensures PutAmount(w, w.quote.newMonthly, o).op == w.op && PutAmount(w, w.quote.newMonthly, o).quote == w.quote
  {
  }

  lemma RaiseClimbs(m: Machine, i: nat, o: Outcome, refunds: seq<Outcome>)
    requires Climbs(m, i) && m.pc.Running? && m.pc.site.PutPlan? && !o.Refused?
    ensures var r := Call(m, o, refunds);
            Raised(r.w, i) == Raised(m.w, i) && Climbs(r, i) && r.w.op == m.w.op && (o.Done? ==> Advances(r) && r.pc.Running?)
  {
    hide Raised, Save, PutAmount, Rising;
    var w := m.w;
    assert w.quote.newMonthly >= 1 by { AmountIsPositive(w, i); }
    RaisedStays(w, i, o);
    RetryClimbs(PutAmount(w, w.quote.newMonthly, o), PlanUpdateRetry, m.pc.now, m.pc.eligible, i);
  }

  lemma AmountIsPositive(w: World, i: nat)
    requires Rising(w, i) && !w.op.status.Completed?
    ensures w.quote.newMonthly >= 1
  {
  }

  lemma SweepClimbs(m: Machine, i: nat, o: Outcome, refunds: seq<Outcome>)
    requires Climbs(m, i) && m.pc.Running? && m.pc.site.SweepDuplicates?
    ensures var r := Call(m, o, refunds); r.w == m.w && Climbs(r, i) && Advances(r) && r.pc.Running?
  {
    hide ClearDuplicates, WithPayments, Raised;
    var w := m.w;
    AloneSweep(w.payments, w.paymentReference, i, refunds);
    NothingGiven(w);
    RetryClimbs(w, NoCode, m.pc.now, m.pc.eligible, i);
    RetryClimbs(w, DuplicateRefundRetry, m.pc.now, m.pc.eligible, i);
  }

  lemma NotBlocked(w: World, mem: Op, i: nat)
    requires Rising(w, i) && Advances(Machine(w, Running(Saving(true), mem, 0, true)))
    ensures !IndexBlocks(w, mem)
  {
  }

  lemma SavingClimbs(m: Machine, i: nat, o: Outcome, refunds: seq<Outcome>)
    requires Climbs(m, i) && m.pc.Running? && m.pc.site.Saving?
    ensures var r := Call(m, o, refunds);
            && r.pc.Idle? && Raised(r.w, i) == Raised(m.w, i) && Climbs(r, i)
            && (o.Done? && Advances(m) ==> r.w.op == m.pc.mem)
  {
    hide Raised, Rising, Ahead;
    if Advances(m) { NotBlocked(m.w, m.pc.mem, i); }
    hide IndexBlocks;
  }

  lemma CallClimbs(m: Machine, i: nat, o: Outcome, refunds: seq<Outcome>)
    requires Climbs(m, i) && m.pc.Running? && !o.Refused?
    ensures var r := Call(m, o, refunds);
            && Climbs(r, i) && Raised(r.w, i) == Raised(m.w, i)
            && (o.Done? && Advances(m) ==> Advances(r) && if r.pc.Idle? then r.w.op == m.pc.mem else r.w.op == m.w.op)
  {
    hide Call, Climbs, Raised, Advances;
    var site := m.pc.site;
    OnlyTheseSites(m, i);
    if site.FindPayment? { SearchClimbs(m, i, o, refunds); }
    else if site.GetPlan? || site.VerifyPlan? { PlanReadClimbs(m, i, o, refunds); }
    else if site.PutPlan? { RaiseClimbs(m, i, o, refunds); }
    else if site.SweepDuplicates? { SweepClimbs(m, i, o, refunds); }
    else { SavingClimbs(m, i, o, refunds); AdvancesAtRest(Call(m, o, refunds)); }
  }

  lemma AdvancesAtRest(m: Machine)
    requires m.pc.Idle?
    ensures Advances(m)
  {
  }

  lemma OnlyTheseSites(m: Machine, i: nat)
    requires Climbs(m, i) && m.pc.Running?
    ensures m.pc.site.FindPayment? || m.pc.site.GetPlan? || m.pc.site.VerifyPlan? || m.pc.site.PutPlan?
            || m.pc.site.SweepDuplicates? || m.pc.site.Saving?
  {
  }

  lemma StepClimbs(m: Machine, i: nat, c: Choice)
    requires Climbs(m, i) && Attempt(c)
    ensures Climbs(Step(m, c), i) && Raised(Step(m, c).w, i) == Raised(m.w, i)
  {
    hide Call, Begin, Rising, ClimbsAt, Raised;
    match c
    case Start(now) => if m.pc.Idle? { BeginClimbs(m.w, now, i); } else { BusyBegin(m, now); }
    case Answer(o, refunds) => if m.pc.Running? { CallClimbs(m, i, o, refunds); }
    case Crash =>
  }

  lemma BusyBegin(m: Machine, now: int)
    requires m.pc.Running?
    ensures Begin(m, now) == m
  {
  }

  lemma {:induction false} AttemptsClimb(m: Machine, i: nat, cs: seq<Choice>)
    requires Climbs(m, i) && Attempts(cs)
    ensures Climbs(Run(m, cs), i) && Raised(Run(m, cs).w, i) == Raised(m.w, i)
  {
    hide Climbs, Raised, Step;
    if cs != [] {
      AttemptsClimb(m, i, cs[..|cs| - 1]);
      StepClimbs(Run(m, cs[..|cs| - 1]), i, cs[|cs| - 1]);
    }
  }

  /** An undisturbed reconcile gets one commit further. */
  lemma {:induction false} CleanClimbs(m: Machine, i: nat)
    requires Climbs(m, i) && Advances(m) && (m.pc.Idle? ==> Ahead(m.w.op) == 0)
    ensures var r := Clean(m).w;
            Rising(r, i) && Raised(r, i) == Raised(m.w, i) && (Ahead(r.op) < Ahead(m.w.op) || Ahead(r.op) == 0)
    decreases Left(m.pc)
  {
    hide Call, Raised, Rising, ClimbsAt, Ahead;
    if m.pc.Running? {
      EachCallSpendsBudget(m, Done, []);
      var r := Call(m, Done, []);
      CallClimbs(m, i, Done, []);
      if r.pc.Running? {
        CleanClimbs(r, i);
      } else {
        CommitAdvances(m, i);
      }
    }
  }

  lemma CommitAdvances(m: Machine, i: nat)
    requires Climbs(m, i) && Advances(m) && m.pc.Running? && Call(m, Done, []).pc.Idle?
    ensures Ahead(m.pc.mem) < Ahead(m.w.op) || Ahead(m.pc.mem) == 0
  {
    hide Raised, Rising;
    OnlyTheseSites(m, i);
    if !m.pc.site.Saving? { CallClimbs(m, i, Done, []); StaysRunning(m, i); }
  }

  lemma StaysRunning(m: Machine, i: nat)
    requires Climbs(m, i) && m.pc.Running? && !m.pc.site.Saving?
    ensures Call(m, Done, []).pc.Running?
  {
    hide Call, Climbs, Raised, Advances;
    OnlyTheseSites(m, i);
    var site := m.pc.site;
    if site.FindPayment? { SearchClimbs(m, i, Done, []); }
    else if site.GetPlan? || site.VerifyPlan? { PlanReadClimbs(m, i, Done, []); }
    else if site.PutPlan? { RaiseClimbs(m, i, Done, []); }
    else { SweepClimbs(m, i, Done, []); }
  }

  lemma ReconciledRises(w: World, now: int, i: nat)
    requires Rising(w, i)
    ensures var r := Reconciled(w, now);
            Rising(r, i) && Raised(r, i) == Raised(w, i) && (Ahead(r.op) < Ahead(w.op) || Ahead(r.op) == 0)
  {
    hide Begin, Clean, Rising, Raised;
    BeginClimbs(w, now, i);
    var m := Begin(Machine(w, Idle), now);
    CleanClimbs(m, i);
  }

  /** Two reconciles with a responsive provider complete the addition, one when the plan change had
      been committed, with one more branch and the provider at the new amount. */
  lemma AdditionGoesThrough(w: World, now: int, later: int, i: nat)
    requires Rising(w, i)
    ensures Ahead(w.op) <= 1 ==> Seen(Reconciled(w, now)) == Raised(w, i) && Reconciled(w, now).op.status.Completed?
    ensures var r := Reconciled(Reconciled(w, now), later);
            r.op.status.Completed? && Seen(r) == Raised(w, i)
  {
    hide Reconciled, Rising;
    ReconciledRises(w, now, i);
    ReconciledRises(Reconciled(w, now), later, i);
  }

  /** Attempts that crash after any request, lose answers or lose their commit leave no trace: two
      undisturbed reconciles later the world looks exactly as if they had never been made. */
  lemma CrashesLeaveNoTrace(w: World, cs: seq<Choice>, now: int, later: int, i: nat)
    requires Rising(w, i) && Attempts(cs)
    ensures var r := Run(Machine(w, Idle), cs).w;
            Seen(Reconciled(Reconciled(r, now), later)) == Seen(Reconciled(Reconciled(w, now), later)) == Raised(w, i)
  {
    hide Reconciled, Rising, Raised, Run;
    AttemptsClimb(Machine(w, Idle), i, cs);
    AdditionGoesThrough(w, now, later, i);
    AdditionGoesThrough(Run(Machine(w, Idle), cs).w, now, later, i);
  }
}
