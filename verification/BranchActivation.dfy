/** The one subscription row that branch operations and billing share: what the commit of COMPLETED does
    to it in module BranchSaga is what module Billing says an activation does. */
module BranchActivation {
  import opened Common
  import B = Billing
  import opened BranchSaga
  import opened BranchSagaSafety
  import opened BranchSagaTheorems

  function StateOf(s: SubscriptionState): B.State {
    match s
    case Creating => B.Creating
    case PendingState => B.Pending
    case Authorized => B.Authorized
    case Paused => B.Paused
    case CancelledState => B.Cancelled
  }

  /** The world of an operation and the account of its brand show the same row, the same number of
      branches and the same operations under way. */
  predicate SameRow(w: World, a: B.Account) {
    && a.row.Some?
    && a.row.value.state == StateOf(w.row.state) && (a.row.value.provider.Some? <==> w.row.providerId != "")
    && a.row.value.unit == w.row.unit && a.row.value.full == w.row.fullUnit
    && a.row.value.count == w.row.count && a.row.value.monthly == w.row.monthly && a.shop.branches == w.row.branches
    && (a.shop.pending <==> Active(w.op.status) || w.otherPending)
  }

  /** Both sides refuse the same rows. */
  lemma GuardsAgree(w: World, a: B.Account, at: int)
    requires SameRow(w, a)
    ensures B.ActivateBranch(a, at).1.Accepted? <==> a.shop.active && a.shop.pending && Billable(w.row)
    ensures !B.ActivateBranch(a, at).1.Accepted? ==> B.ActivateBranch(a, at).0 == a
  {
    hide B.LastEnd;
  }

  /** In every run, the step that adds the branch leaves row, branches and pending operations as the
      activation of the account leaves them, and the account never refuses it. */
  lemma CompletionIsActivation(m: Machine, cs: seq<Choice>, c: Choice, a: B.Account, at: int)
    requires Confirmed(m) && SameRow(Run(m, cs).w, a) && a.shop.active
    requires Step(Run(m, cs), c).w.inserted != Run(m, cs).w.inserted
    ensures B.ActivateBranch(a, at).1.Accepted?
    ensures SameRow(Step(Run(m, cs), c).w, B.ActivateBranch(a, at).0)
  {
    hide Step, Run, Inv, B.ActivateBranch;
    RunKeeps(m, cs);
    var before := Run(m, cs);
    ActivationIsAtomic(before, c);
    OthersWait(before, c);
    GuardsAgree(before.w, a, at);
    Activated(a, at);
    assert before.w.row.unit * (before.w.row.count + 1) == before.w.row.unit * before.w.row.count + before.w.row.unit;
  }

  lemma Activated(a: B.Account, at: int)
    requires B.ActivateBranch(a, at).1.Accepted?
    ensures var b := B.ActivateBranch(a, at).0;
            && a.row.Some? && b.row == Some(a.row.value.(count := a.row.value.count + 1, monthly := a.row.value.monthly + a.row.value.unit))
            && b.shop == a.shop.(branches := a.shop.branches + 1, pending := false)
  {
    hide B.LastEnd;
  }

  lemma OthersWait(m: Machine, c: Choice)
    requires Inv(m) && m.w.op.status.PlanUpdating? && c.Answer? && m.pc.Running? && m.pc.site == Saving(true)
    ensures !m.w.otherPending && !Step(m, c).w.otherPending
  {
  }
}
