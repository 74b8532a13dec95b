/** ReconcileBranch as the repository runs it: a chain of provider requests inside one
    transaction, and one commit at its end. Every method is proved to be a run of the machine of
    module BranchSaga from the state it starts in. A list of answers that ends before the
    transaction does is a crash: what the provider did stays, the database is left as it was. */
module BranchReconciler {
  import opened Common
  import opened BranchPayments
  import opened BranchSaga

  /** How the network answers one request, and the refunds a search has to make on the way. */
  datatype Response = Response(o: Outcome, refunds: seq<Outcome>)

  function Perform(m: Machine, answers: seq<Response>): Machine
    decreases |answers|
  {
    if answers == [] then m else Perform(Step(m, Answer(answers[0].o, answers[0].refunds)), answers[1..])
  }

  lemma PerformNone(m: Machine, answers: seq<Response>)
    requires answers == []
    ensures Perform(m, answers) == m
  {
  }

  lemma PerformCall(m: Machine, answers: seq<Response>)
    requires answers != [] && m.pc.Running?
    ensures Perform(m, answers) == Perform(Call(m, answers[0].o, answers[0].refunds), answers[1..])
  {
  }

  lemma {:induction false} PerformIdle(m: Machine, answers: seq<Response>)
    requires m.pc.Idle?
    ensures Perform(m, answers) == m
  {
    if answers != [] { PerformIdle(m, answers[1..]); }
  }

  function ChoicesOf(answers: seq<Response>): seq<Choice> {
    seq(|answers|, k requires 0 <= k < |answers| => Answer(answers[k].o, answers[k].refunds))
  }

  /** A reconcile of the repository is a run of the machine, so what holds over all runs holds for it. */
  lemma {:induction false} PerformIsRun(m: Machine, cs: seq<Choice>, answers: seq<Response>)
    ensures Perform(Run(m, cs), answers) == Run(m, cs + ChoicesOf(answers))
    decreases |answers|
  {
    hide Step;
    if answers == [] {
      assert cs + ChoicesOf(answers) == cs;
    } else {
      var first := Answer(answers[0].o, answers[0].refunds);
      assert (cs + [first])[..|cs|] == cs;
      PerformIsRun(m, cs + [first], answers[1..]);
      assert cs + ChoicesOf(answers) == cs + [first] + ChoicesOf(answers[1..]);
    }
  }

  /** Most requests a reconcile that stands at a site still makes, its commit included. */
  function Budget(site: Site): nat {
    match site
    case FindPayment => 10
    case CreateCheckout => 2
    case GetPlan => 9
    case PutPlan => 8
    case VerifyPlan => 2
    case GetRestore => 6
    case PutRestore => 5
    case CheckRestore => 4
    case RefundPrimary => 3
    case ConfirmRefund => 2
    case SweepDuplicates => 2
    case Saving(_) => 1
  }

  function Left(pc: Pc): nat {
    if pc.Idle? then 0 else Budget(pc.site)
  }

  /** The locks are held for a bounded number of requests: each one brings the end nearer. */
  lemma EachCallSpendsBudget(m: Machine, o: Outcome, refunds: seq<Outcome>)
    requires m.pc.Running?
    ensures Left(Call(m, o, refunds).pc) < Left(m.pc)
  {
    hide Find, Refund, ClearDuplicates, WithPayments, PutAmount, Committed, PlanIsSnapshots, PlanRenews, SameProvider, Matches, InWindow;
    match m.pc.site
    case FindPayment =>
    case CreateCheckout =>
    case GetPlan =>
    case PutPlan =>
    case VerifyPlan =>
    case GetRestore =>
    case PutRestore =>
    case CheckRestore =>
    case RefundPrimary =>
    case ConfirmRefund =>
    case SweepDuplicates =>
    case Saving(activate) =>
  }

  /** So every reconcile that is answered ten times has released its locks. */
  lemma {:induction false} ReconcileEnds(m: Machine, answers: seq<Response>)
    requires Left(m.pc) <= |answers|
    ensures Perform(m, answers).pc.Idle?
    decreases |answers|
  {
    hide Call;
    if m.pc.Idle? {
      PerformIdle(m, answers);
    } else {
      PerformCall(m, answers);
      EachCallSpendsBudget(m, answers[0].o, answers[0].refunds);
      ReconcileEnds(Call(m, answers[0].o, answers[0].refunds), answers[1..]);
    }
  }

  // ---------------------------------------------------------------------------
  // One request at a time
  // ---------------------------------------------------------------------------

  lemma PerformSearch(w: World, mem: Op, now: int, eligible: bool, answers: seq<Response>)
    requires answers != []
    ensures var (after, found) := Find(w.payments, w.paymentReference, answers[0].o, answers[0].refunds);
            var w1 := WithPayments(w, after);
            Perform(Machine(w, Running(FindPayment, mem, now, eligible)), answers)
            == Perform(Machine(w1, OnPayment(w1, mem, found, now, eligible)), answers[1..])
  {
    hide Perform, Find, WithPayments, OnPayment;
    PerformCall(Machine(w, Running(FindPayment, mem, now, eligible)), answers);
  }

  lemma PerformCheckout(w: World, mem: Op, now: int, eligible: bool, answers: seq<Response>)
    requires answers != []
    ensures var ok := w.quote.proration >= 1 && answers[0].o.Done?;
            Perform(Machine(w, Running(CreateCheckout, mem, now, eligible)), answers)
            == Perform(Machine(if w.quote.proration >= 1 && Applied(answers[0].o) then w.(checkoutIssued := true) else w,
                               if ok then Save(mem.(checkout := true), mem.status, NoCode, now, eligible)
                               else Save(mem, mem.status, CheckoutRetry, now, eligible)), answers[1..])
  {
    hide Perform, Save;
    PerformCall(Machine(w, Running(CreateCheckout, mem, now, eligible)), answers);
  }

  /** The four requests that only read the subscription. */
  lemma PerformRead(w: World, site: Site, mem: Op, now: int, eligible: bool, answers: seq<Response>)
    requires answers != [] && (site.GetPlan? || site.VerifyPlan? || site.GetRestore? || site.CheckRestore?)
    ensures Perform(Machine(w, Running(site, mem, now, eligible)), answers)
            == Perform(Machine(w, if !answers[0].o.Done? then
                                    Save(mem, mem.status, if site.GetPlan? || site.VerifyPlan? then PlanUpdateRetry else
                                        PlanRestoreRetry, now, eligible)
                                  else if site.GetPlan? then OnPlan(w, mem, now, eligible)
                                  else if site.VerifyPlan? then OnVerify(w, mem, now, eligible)
                                  else if site.GetRestore? then OnRestore(w, mem, now, eligible)
                                  else OnCheckRestore(w, mem, now, eligible)), answers[1..])
  {
    hide Perform, Save, OnPlan, OnVerify, OnRestore, OnCheckRestore;
    PerformCall(Machine(w, Running(site, mem, now, eligible)), answers);
  }

  lemma PerformRaise(w: World, mem: Op, now: int, eligible: bool, answers: seq<Response>)
    requires answers != []
    ensures var o := if w.quote.newMonthly >= 1 then answers[0].o else Lost(false);
            Perform(Machine(w, Running(PutPlan, mem, now, eligible)), answers)
            == Perform(Machine(PutAmount(w, w.quote.newMonthly, answers[0].o),
                               if o.Done? then Running(VerifyPlan, mem, now, eligible)
                               else if o.Refused? then EnterRefund(mem, now, eligible)
                               else Save(mem, mem.status, PlanUpdateRetry, now, eligible)), answers[1..])
  {
    hide Perform, Save, EnterRefund, PutAmount;
    PerformCall(Machine(w, Running(PutPlan, mem, now, eligible)), answers);
  }

  lemma CallLower(w: World, mem: Op, now: int, eligible: bool, o: Outcome, refunds: seq<Outcome>)
    ensures Call(Machine(w, Running(PutRestore, mem, now, eligible)), o, refunds)
            == Machine(PutAmount(w, w.snap.monthly, o), if w.snap.monthly >= 1 && o.Done? then Running(CheckRestore, mem, now, eligible)
                                                        else Save(mem, mem.status, PlanRestoreRetry, now, eligible))
  {
    hide Save, PutAmount;
  }

  lemma PerformLower(w: World, mem: Op, now: int, eligible: bool, answers: seq<Response>)
    requires answers != []
    ensures Perform(Machine(w, Running(PutRestore, mem, now, eligible)), answers)
            == Perform(Machine(PutAmount(w, w.snap.monthly, answers[0].o),
                               if w.snap.monthly >= 1 && answers[0].o.Done? then Running(CheckRestore, mem, now, eligible)
                               else Save(mem, mem.status, PlanRestoreRetry, now, eligible)), answers[1..])
  {
    hide Perform, Call, Save, PutAmount;
    CallLower(w, mem, now, eligible, answers[0].o, answers[0].refunds);
    PerformCall(Machine(w, Running(PutRestore, mem, now, eligible)), answers);
  }

  lemma PerformRefund(w: World, mem: Op, now: int, eligible: bool, answers: seq<Response>)
    requires answers != [] && mem.paymentId.Some?
    ensures var (after, ok) := Refund(w.payments, mem.paymentId.value, answers[0].o);
            Perform(Machine(w, Running(RefundPrimary, mem, now, eligible)), answers)
            == Perform(Machine(WithPayments(w, after), if ok then Running(ConfirmRefund, mem, now, eligible)
                                                       else Save(mem, mem.status, RefundRetry, now, eligible)), answers[1..])
  {
    hide Perform, Refund, WithPayments, Save;
    PerformCall(Machine(w, Running(RefundPrimary, mem, now, eligible)), answers);
  }

  lemma PerformConfirm(w: World, mem: Op, now: int, eligible: bool, answers: seq<Response>)
    requires answers != []
    ensures var (after, found) := Find(w.payments, w.paymentReference, answers[0].o, answers[0].refunds);
            Perform(Machine(w, Running(ConfirmRefund, mem, now, eligible)), answers)
            == Perform(Machine(WithPayments(w, after), OnConfirmRefund(mem, found, now, eligible)), answers[1..])
  {
    hide Perform, Find, WithPayments, OnConfirmRefund;
    PerformCall(Machine(w, Running(ConfirmRefund, mem, now, eligible)), answers);
  }

  lemma PerformSweep(w: World, mem: Op, now: int, eligible: bool, answers: seq<Response>)
    requires answers != [] && mem.paymentId.Some?
    ensures var (after, ok) := ClearDuplicates(w.payments, w.paymentReference, mem.paymentId.value, answers[0].refunds);
            Perform(Machine(w, Running(SweepDuplicates, mem, now, eligible)), answers)
            == Perform(Machine(WithPayments(w, after),
                               Save(mem, mem.status, if ok && answers[0].o.Done? then NoCode else DuplicateRefundRetry,
                                   now, eligible)), answers[1..])
  {
    hide Perform, ClearDuplicates, WithPayments, Save;
    PerformCall(Machine(w, Running(SweepDuplicates, mem, now, eligible)), answers);
  }

  lemma PerformSave(w: World, activate: bool, mem: Op, now: int, eligible: bool, answers: seq<Response>)
    ensures Perform(Machine(w, Running(Saving(activate), mem, now, eligible)), answers).w
            == if answers != [] && Applied(answers[0].o) && !IndexBlocks(w, mem) then Committed(w, mem, activate) else w
  {
    hide Perform, Committed, IndexBlocks;
    var m := Machine(w, Running(Saving(activate), mem, now, eligible));
    if answers == [] {
      PerformNone(m, answers);
    } else {
      PerformCall(m, answers);
      PerformIdle(Call(m, answers[0].o, answers[0].refunds), answers[1..]);
    }
  }

  class BillingProvider {
    var plan: Plan
    var checkoutIssued: bool
    const client: PaymentClient

    constructor (plan: Plan, client: PaymentClient)
      ensures this.plan == plan && this.client == client && !checkoutIssued
    {
      this.plan, this.client, checkoutIssued := plan, client, false;
    }

    method GetSubscription(o: Outcome) returns (r: Option<Plan>)
      ensures r == if o.Done? then Some(plan) else None
    {
      r := if o.Done? then Some(plan) else None;
    }

    /** The client itself refuses an amount below one, with an error that is not a rejection. */
    method UpdateSubscriptionAmount(amount: int, o: Outcome) returns (r: Outcome)
      modifies this`plan
      ensures plan == if amount >= 1 && Applied(o) then old(plan).(amount := amount) else old(plan)
      ensures r == if amount >= 1 then o else Lost(false)
    {
      if amount < 1 {
        return Lost(false);
      }
      if Applied(o) {
        plan := plan.(amount := amount);
      }
      return o;
    }

    method CreateBranchCheckout(amount: int, o: Outcome) returns (ok: bool)
      modifies this`checkoutIssued
      ensures ok == (amount >= 1 && o.Done?)
      ensures checkoutIssued == (old(checkoutIssued) || (amount >= 1 && Applied(o)))
    {
      if amount < 1 {
        return false;
      }
      checkoutIssued := checkoutIssued || Applied(o);
      return o.Done?;
    }
  }

  class BranchRepository {
    var op: Op
    var row: Row
    var owner: bool
    var otherPending: bool
    var inserted: nat
    const quote: Quote
    const snap: Snapshot
    const paymentReference: string
    const provider: BillingProvider
    ghost var base: int
    ghost var released: bool
    ghost var rowTouched: bool
    ghost var taken: set<nat>
    ghost var early: set<nat>

    constructor (provider: BillingProvider, quote: Quote, snap: Snapshot, paymentReference: string, op: Op, row: Row)
      ensures this.provider == provider
      ensures World() == BranchSaga.World(quote, snap, paymentReference, op, row, true, false, 0, provider.plan, provider.client.payments,
                                          provider.checkoutIssued, provider.plan.amount, false, false, {}, {})
    {
      this.provider, this.quote, this.snap, this.paymentReference := provider, quote, snap, paymentReference;
      this.op, this.row, owner, otherPending, inserted := op, row, true, false, 0;
      base, released, rowTouched, taken, early := provider.plan.amount, false, false, {}, {};
    }

    ghost function World(): World
      reads this, provider, provider.client
    {
      BranchSaga.World(quote, snap, paymentReference, op, row, owner, otherPending, inserted, provider.plan, provider.client.payments,
                       provider.checkoutIssued, base, released, rowTouched, taken, early)
    }

    // Requests that change what the provider holds.

    ghost method Remember(before: seq<Payment>)
      requires |before| == |provider.client.payments|
      modifies this`taken, this`early
      ensures taken == old(taken) + Given(before, provider.client.payments)
      ensures early == old(early) + if op.status.PlanUpdating? then Given(before, provider.client.payments) else {}
    {
      var given := Given(before, provider.client.payments);
      taken := taken + given;
      early := early + if op.status.PlanUpdating? then given else {};
    }

    method RefundPayment(id: nat, o: Outcome) returns (ok: bool)
      modifies this, provider.client
      ensures World() == WithPayments(old(World()), Refund(old(World()).payments, id, o).0)
      ensures ok == Refund(old(World()).payments, id, o).1
    {
      ghost var before := provider.client.payments;
      ok := provider.client.RefundBranchPayment(id, o);
      Remember(before);
    }

    method FindPayments(answer: Response) returns (found: Search)
      modifies this, provider.client
      ensures World() == WithPayments(old(World()), Find(old(World()).payments, paymentReference, answer.o, answer.refunds).0)
      ensures found == Find(old(World()).payments, paymentReference, answer.o, answer.refunds).1
    {
      ghost var before := provider.client.payments;
      found := provider.client.FindBranchPayment(paymentReference, answer.o, answer.refunds);
      Remember(before);
    }

    method ClearDuplicatePayments(primary: nat, answer: Response) returns (ok: bool)
      modifies this, provider.client
      ensures World() == WithPayments(old(World()), ClearDuplicates(old(World()).payments, paymentReference, primary, answer.refunds).0)
      ensures ok == (ClearDuplicates(old(World()).payments, paymentReference, primary, answer.refunds).1 && answer.o.Done?)
    {
      ghost var before := provider.client.payments;
      ok := provider.client.ReconcileBranchDuplicatePayments(paymentReference, primary, answer.refunds);
      ok := ok && answer.o.Done?;
      Remember(before);
    }

    method ChangeAmount(amount: int, o: Outcome) returns (r: Outcome)
      modifies provider
      ensures World() == PutAmount(old(World()), amount, o)
      ensures r == if amount >= 1 then o else Lost(false)
    {
      r := provider.UpdateSubscriptionAmount(amount, o);
    }

    method OpenCheckout(o: Outcome) returns (ok: bool)
      modifies provider
      ensures World() == if quote.proration >= 1 && Applied(o) then old(World()).(checkoutIssued := true) else old(World())
      ensures ok == (quote.proration >= 1 && o.Done?)
    {
      ok := provider.CreateBranchCheckout(quote.proration, o);
    }

    // The stages of a reconcile.

    method SaveOperation(mem: Op, activate: bool, now: int, eligible: bool, answers: seq<Response>)
      modifies this
      ensures World() == Perform(Machine(old(World()), Running(Saving(activate), mem, now, eligible)), answers).w
    {
      hide Perform, Call;
      PerformSave(World(), activate, mem, now, eligible, answers);
      if answers != [] && Applied(answers[0].o) && !(Active(mem.status) && !Active(op.status) && otherPending) {
        op := mem;
        if activate {
          row := row.(count := row.count + 1, monthly := quote.newMonthly, branches := row.branches + 1);
          inserted := inserted + 1;
        }
      }
    }

    /** Reads the payment again after giving it back. */
    method ConfirmRefunded(mem: Op, now: int, eligible: bool, answers: seq<Response>)
      modifies this, provider.client
      ensures World() == Perform(Machine(old(World()), Running(ConfirmRefund, mem, now, eligible)), answers).w
    {
      hide Perform, Call, WithPayments, Find;
      if answers == [] {
        PerformNone(Machine(World(), Running(ConfirmRefund, mem, now, eligible)), answers);
        return;
      }
      PerformConfirm(World(), mem, now, eligible, answers);
      var found := FindPayments(answers[0]);
      if !found.Found? || found.payment.refunded < mem.amount {
        SaveOperation(mem.(code := RefundRetry), false, now, eligible, answers[1..]);
      } else {
        SaveOperation(mem.(refunded := found.payment.refunded, paymentStatus := found.payment.status,
                           status := RefundedInFull, code := NoCode), false, now, eligible, answers[1..]);
      }
    }

    /** The recurring amount is back: settle the payment. */
    method SettleRefund(mem: Op, now: int, eligible: bool, answers: seq<Response>)
      modifies this, provider.client
      ensures World() == Perform(Machine(old(World()), AfterRestore(old(World()), mem, now, eligible)), answers).w
    {
      hide Perform, Call, WithPayments, Refund;
      if !quote.paymentRequired {
        SaveOperation(mem.(status := FailedOperation, code := PlanUpdateFailed), false, now, eligible, answers);
        return;
      }
      if mem.paymentId.None? {
        SaveOperation(mem.(code := PaymentVerificationRetry), false, now, eligible, answers);
        return;
      }
      if mem.refunded >= mem.amount && mem.amount > 0 {
        SaveOperation(mem.(status := RefundedInFull, code := NoCode), false, now, eligible, answers);
        return;
      }
      if answers == [] {
        PerformNone(Machine(World(), Running(RefundPrimary, mem, now, eligible)), answers);
        return;
      }
      PerformRefund(World(), mem, now, eligible, answers);
      var ok := RefundPayment(mem.paymentId.value, answers[0].o);
      if !ok {
        SaveOperation(mem.(code := RefundRetry), false, now, eligible, answers[1..]);
        return;
      }
      ConfirmRefunded(mem, now, eligible, answers[1..]);
    }

    method CheckRestored(mem: Op, now: int, eligible: bool, answers: seq<Response>)
      modifies this, provider, provider.client
      ensures World() == Perform(Machine(old(World()), Running(CheckRestore, mem, now, eligible)), answers).w
    {
      hide Perform, Call, AfterRestore;
      if answers == [] {
        PerformNone(Machine(World(), Running(CheckRestore, mem, now, eligible)), answers);
        return;
      }
      PerformRead(World(), CheckRestore, mem, now, eligible, answers);
      var check := provider.GetSubscription(answers[0].o);
      if check.None? || check.value.id != snap.providerId || check.value.reference != snap.reference
         || check.value.amount != snap.monthly || !check.value.authorized || check.value.next != Some(snap.next) {
        SaveOperation(mem.(code := PlanRestoreRetry), false, now, eligible, answers[1..]);
      } else {
        SettleRefund(mem, now, eligible, answers[1..]);
      }
    }

    method RestoreAmount(mem: Op, now: int, eligible: bool, answers: seq<Response>)
      modifies this, provider, provider.client
      ensures World() == Perform(Machine(old(World()), Running(PutRestore, mem, now, eligible)), answers).w
    {
      hide Perform, Call, PutAmount;
      if answers == [] {
        PerformNone(Machine(World(), Running(PutRestore, mem, now, eligible)), answers);
        return;
      }
      PerformLower(World(), mem, now, eligible, answers);
      var put := ChangeAmount(snap.monthly, answers[0].o);
      if !put.Done? {
        SaveOperation(mem.(code := PlanRestoreRetry), false, now, eligible, answers[1..]);
      } else {
        CheckRestored(mem, now, eligible, answers[1..]);
      }
    }

    /** The row is compared in the database, where a null renewal date makes the answer null. */
    method SameProviderRow() returns (same: Option<bool>)
      ensures same == SameProvider(World())
    {
      var others := && row.providerId == snap.providerId && row.reference == snap.reference && row.unit == snap.unit
                    && row.monthly == snap.monthly && row.count == snap.count && row.state.Authorized?;
      if row.next.Some? {
        return Some(others && row.next.value == snap.next);
      }
      return if others then None else Some(false);
    }

    /** Restores the previous recurring amount before refunding. */
    method RestoreAndRefund(entered: Op, now: int, eligible: bool, answers: seq<Response>)
      modifies this, provider, provider.client
      ensures World() == Perform(Machine(old(World()), EnterRefund(entered, now, eligible)), answers).w
    {
      hide Perform, Call, OnRestore;
      var mem := entered.(status := RefundPending);
      if answers == [] {
        PerformNone(Machine(World(), Running(GetRestore, mem, now, eligible)), answers);
        return;
      }
      PerformRead(World(), GetRestore, mem, now, eligible, answers);
      var current := provider.GetSubscription(answers[0].o);
      if current.None? {
        SaveOperation(mem.(code := PlanRestoreRetry), false, now, eligible, answers[1..]);
      } else {
        DecideOnRestore(mem, current.value, now, eligible, answers[1..]);
      }
    }

    method DecideOnRestore(mem: Op, plan: Plan, now: int, eligible: bool, answers: seq<Response>)
      requires plan == provider.plan
      modifies this, provider, provider.client
      ensures World() == Perform(Machine(old(World()), OnRestore(old(World()), mem, now, eligible)), answers).w
    {
      hide Perform, Call, AfterRestore, SameProvider;
      if plan.id != snap.providerId || plan.reference != snap.reference
         || (mem.planStarted && (!plan.authorized || plan.next != Some(snap.next))) {
        SaveOperation(mem.(code := PlanRestoreReview), false, now, eligible, answers);
        return;
      }
      var same := SameProviderRow();
      if same.None? {
        PerformIdle(Machine(World(), Idle), answers);
      } else if !same.value && mem.planStarted {
        SaveOperation(mem.(code := PlanRestoreReview), false, now, eligible, answers);
      } else if mem.planStarted && plan.amount == quote.newMonthly {
        RestoreAmount(mem, now, eligible, answers);
      } else if mem.planStarted && plan.amount != snap.monthly {
        SaveOperation(mem.(code := PlanRestoreReview), false, now, eligible, answers);
      } else {
        SettleRefund(mem, now, eligible, answers);
      }
    }

    method ActivateBranch(mem: Op, amount: int, now: int, eligible: bool, answers: seq<Response>)
      modifies this
      ensures World() == Perform(Machine(old(World()), Activate(mem, amount, now, eligible)), answers).w
    {
      SaveOperation(mem.(status := Completed, code := NoCode, planAmount := Some(amount)), true, now, eligible, answers);
    }

    method VerifyRaised(mem: Op, now: int, eligible: bool, answers: seq<Response>)
      modifies this
      ensures World() == Perform(Machine(old(World()), Running(VerifyPlan, mem, now, eligible)), answers).w
    {
      hide Perform, Call, Activate;
      if answers == [] {
        PerformNone(Machine(World(), Running(VerifyPlan, mem, now, eligible)), answers);
        return;
      }
      PerformRead(World(), VerifyPlan, mem, now, eligible, answers);
      var verified := provider.GetSubscription(answers[0].o);
      if verified.None? || verified.value.amount != quote.newMonthly || verified.value.next != Some(snap.next) || !verified.value.authorized {
        SaveOperation(mem.(code := PlanUpdateRetry), false, now, eligible, answers[1..]);
      } else {
        ActivateBranch(mem, verified.value.amount, now, eligible, answers[1..]);
      }
    }

    method RaiseAmount(mem: Op, now: int, eligible: bool, answers: seq<Response>)
      modifies this, provider, provider.client
      ensures World() == Perform(Machine(old(World()), Running(PutPlan, mem, now, eligible)), answers).w
    {
      hide Perform, Call, PutAmount, EnterRefund;
      if answers == [] {
        PerformNone(Machine(World(), Running(PutPlan, mem, now, eligible)), answers);
        return;
      }
      PerformRaise(World(), mem, now, eligible, answers);
      var put := ChangeAmount(quote.newMonthly, answers[0].o);
      if put.Refused? {
        RestoreAndRefund(mem, now, eligible, answers[1..]);
      } else if put.Lost? {
        SaveOperation(mem.(code := PlanUpdateRetry), false, now, eligible, answers[1..]);
      } else {
        VerifyRaised(mem, now, eligible, answers[1..]);
      }
    }

    /** Raises the recurring amount and activates the branch. */
    method UpdatePlan(entered: Op, now: int, eligible: bool, answers: seq<Response>)
      modifies this, provider, provider.client
      ensures World() == Perform(Machine(old(World()), EnterPlan(entered, now, eligible)), answers).w
    {
      hide Perform, Call, EnterRefund, Activate;
      if !eligible {
        RestoreAndRefund(entered, now, eligible, answers);
        return;
      }
      if !entered.planStarted {
        SaveOperation(entered.(planStarted := true, status := PlanUpdating, code := NoCode), false, now, eligible, answers);
        return;
      }
      var mem := entered.(status := PlanUpdating);
      if answers == [] {
        PerformNone(Machine(World(), Running(GetPlan, mem, now, eligible)), answers);
        return;
      }
      PerformRead(World(), GetPlan, mem, now, eligible, answers);
      var current := provider.GetSubscription(answers[0].o);
      var rest := answers[1..];
      if current.None? {
        SaveOperation(mem.(code := PlanUpdateRetry), false, now, eligible, rest);
        return;
      }
      var plan := current.value;
      if plan.id != snap.providerId || plan.reference != snap.reference || !plan.authorized || plan.next != Some(snap.next) {
        RestoreAndRefund(mem, now, eligible, rest);
      } else if plan.amount == quote.newMonthly {
        ActivateBranch(mem, plan.amount, now, eligible, rest);
      } else if plan.amount != snap.monthly {
        RestoreAndRefund(mem, now, eligible, rest);
      } else {
        RaiseAmount(mem, now, eligible, rest);
      }
    }

    /** Decides what the verified payment allows. */
    method DecideOnPayment(mem: Op, now: int, eligible: bool, answers: seq<Response>)
      modifies this, provider, provider.client
      ensures World() == Perform(Machine(old(World()), AfterVerification(old(World()), mem, now, eligible)), answers).w
    {
      hide Perform, Call, EnterRefund, EnterPlan;
      if mem.paymentStatus.Rejected? || mem.paymentStatus.Cancelled? {
        SaveOperation(mem.(status := PaymentRejected, code := PaymentRefused), false, now, eligible, answers);
      } else if mem.paymentStatus.Refunded? || (mem.refunded >= quote.proration && quote.paymentRequired) {
        SaveOperation(mem.(status := RefundedInFull, code := NoCode), false, now, eligible, answers);
      } else if !mem.paymentStatus.Approved? {
        if quote.expiry <= now {
          SaveOperation(mem.(status := FailedOperation, code := QuoteExpired), false, now, eligible, answers);
        } else {
          SaveOperation(mem.(code := NoCode), false, now, eligible, answers);
        }
      } else if mem.approvedAt.None? || mem.approvedAt.value < quote.createdAt || quote.expiry <= mem.approvedAt.value
                || mem.refunded > 0 || !eligible || mem.status.RefundPending? {
        RestoreAndRefund(mem, now, eligible, answers);
      } else {
        UpdatePlan(mem, now, eligible, answers);
      }
    }

    method IssueCheckout(mem: Op, now: int, eligible: bool, answers: seq<Response>)
      modifies this, provider
      ensures World() == Perform(Machine(old(World()), Running(CreateCheckout, mem, now, eligible)), answers).w
    {
      hide Perform, Call;
      if answers == [] {
        PerformNone(Machine(World(), Running(CreateCheckout, mem, now, eligible)), answers);
        return;
      }
      PerformCheckout(World(), mem, now, eligible, answers);
      var ok := OpenCheckout(answers[0].o);
      if !ok {
        SaveOperation(mem.(code := CheckoutRetry), false, now, eligible, answers[1..]);
      } else {
        SaveOperation(mem.(checkout := true, code := NoCode), false, now, eligible, answers[1..]);
      }
    }

    method VerifyPayment(mem: Op, now: int, eligible: bool, answers: seq<Response>)
      modifies this, provider, provider.client
      ensures World() == Perform(Machine(old(World()), Running(FindPayment, mem, now, eligible)), answers).w
    {
      hide Perform, Call, WithPayments, Find, AfterVerification;
      if answers == [] {
        PerformNone(Machine(World(), Running(FindPayment, mem, now, eligible)), answers);
        return;
      }
      PerformSearch(World(), mem, now, eligible, answers);
      var found := FindPayments(answers[0]);
      var rest := answers[1..];
      match found
      case Failed =>
        SaveOperation(mem.(code := PaymentVerificationRetry), false, now, eligible, rest);
      case Missing =>
        if !mem.checkout && quote.expiry > now && eligible {
          IssueCheckout(mem, now, eligible, rest);
        } else {
          DecideOnPayment(mem, now, eligible, rest);
        }
      case Found(payment) =>
        var adopted := mem.(paymentId := Some(payment.id), paymentStatus := payment.status, amount := payment.amount,
                            refunded := payment.refunded, approvedAt := payment.approvedAt);
        if payment.reference == paymentReference && payment.currency == "ARS" && payment.amount == quote.proration {
          DecideOnPayment(adopted, now, eligible, rest);
        } else if payment.status.Approved? {
          DecideOnPayment(adopted.(status := RefundPending), now, eligible, rest);
        } else {
          SaveOperation(adopted.(status := FailedOperation, code := PaymentMismatch), false, now, eligible, rest);
        }
    }

    method SweepDuplicatePayments(primary: nat, now: int, eligible: bool, answers: seq<Response>)
      requires op.paymentId == Some(primary)
      modifies this, provider.client
      ensures World() == Perform(Machine(old(World()), Running(SweepDuplicates, old(op), now, eligible)), answers).w
    {
      hide Perform, Call, WithPayments, ClearDuplicates;
      if answers == [] {
        PerformNone(Machine(World(), Running(SweepDuplicates, op, now, eligible)), answers);
        return;
      }
      PerformSweep(World(), op, now, eligible, answers);
      var mem := op;
      var ok := ClearDuplicatePayments(primary, answers[0]);
      SaveOperation(mem.(code := if ok then NoCode else DuplicateRefundRetry), false, now, eligible, answers[1..]);
    }

    /** One reconcile, from the committed row to the commit, or to the crash that cuts it off. */
    method ReconcileBranch(now: int, answers: seq<Response>)
      modifies this, provider, provider.client
      ensures World() == Perform(Begin(Machine(old(World()), Idle), now), answers).w
    {
      hide Perform, Call, EnterPlan, EnterRefund;
      var rowSnapshot := Snapshot(row.providerId, row.reference, row.unit, row.fullUnit, row.monthly, row.count,
                                  if row.next.Some? then row.next.value else 0, row.trial, row.state, row.anchor);
      var eligible := owner && Billable(row) && rowSnapshot == snap;
      if op.status.Completed? && op.paymentId.Some? {
        SweepDuplicatePayments(op.paymentId.value, now, eligible, answers);
      } else if op.status.PaymentPending? || op.status.FailedOperation? {
        VerifyPayment(op, now, eligible, answers);
      } else if op.status.PlanUpdating? {
        UpdatePlan(op, now, eligible, answers);
      } else if op.status.RefundPending? {
        RestoreAndRefund(op, now, eligible, answers);
      } else {
        PerformIdle(Machine(World(), Idle), answers);
      }
    }
  }
}
