/** The payments of the provider and the searches that read and refund them
    (internal/mercadopago/branch.go). Payments are kept newest first, the order the
    search asks for. */
module BranchPayments {
  import opened Common

  datatype PaymentStatus = Pending | Approved | Rejected | Cancelled | Refunded | Other

  datatype Payment = Payment(id: nat, reference: string, status: PaymentStatus, currency: string,
                             amount: int, refunded: int, approvedAt: Option<int>)

  /** What the provider guarantees of each payment it reports. */
  predicate Sound(p: Payment) {
    && p.amount >= 1
    && 0 <= p.refunded <= p.amount
    && (p.status.Refunded? <==> p.refunded == p.amount)
    && (p.status.Approved? || p.status.Refunded? ==> p.approvedAt.Some?)
  }

  predicate Book(ps: seq<Payment>) {
    && (forall i | 0 <= i < |ps| :: Sound(ps[i]))
    && (forall i, j | 0 <= i < j < |ps| :: ps[i].id != ps[j].id)
  }

  predicate PaidOff(p: Payment) {
    p.refunded >= p.amount && p.amount > 0
  }

  /** The provider gives back everything that is left of an approved payment. */
  function GiveBack(p: Payment): Payment {
    if p.status.Approved? then p.(refunded := p.amount, status := Refunded) else p
  }

  function GiveBackIds(ps: seq<Payment>, ids: seq<nat>): (r: seq<Payment>)
    ensures |r| == |ps|
  {
    seq(|ps|, i requires 0 <= i < |ps| => if ps[i].id in ids then GiveBack(ps[i]) else ps[i])
  }

  /** Position of a payment, or |ps| when the provider does not know it. */
  function Locate(ps: seq<Payment>, id: nat): (k: nat)
    ensures k <= |ps|
    ensures k < |ps| ==> ps[k].id == id
    ensures forall i | 0 <= i < k :: ps[i].id != id
  {
    if ps == [] then 0 else if ps[0].id == id then 0 else 1 + Locate(ps[1..], id)
  }

  /** One refund request: the payment is read first, so a payment that was already
      given back in full is not refunded again. */
  function Refund(ps: seq<Payment>, id: nat, o: Outcome): (r: (seq<Payment>, bool))
    ensures |r.0| == |ps|
  {
    var k := Locate(ps, id);
    if k == |ps| then (ps, false)
    else if PaidOff(ps[k]) then (ps, o.Done?)
    else if !ps[k].status.Approved? then (ps, false)
    else if o.Done? || o == Lost(true) then (GiveBackIds(ps, [id]), o.Done?)
    else (ps, false)
  }

  /** The refunds of a list of payments, stopping at the first error. */
  function RefundAll(ps: seq<Payment>, ids: seq<nat>, outcomes: seq<Outcome>): (r: (seq<Payment>, bool))
    ensures |r.0| == |ps|
    decreases |ids|
  {
    if ids == [] then (ps, true)
    else
      var (after, ok) := Refund(ps, ids[0], Head(outcomes));
      if !ok then (after, false) else RefundAll(after, ids[1..], Rest(outcomes))
  }

  function ApprovedIds(ps: seq<Payment>, reference: string): seq<nat> {
    if ps == [] then []
    else
      var last := ps[|ps| - 1];
      ApprovedIds(ps[..|ps| - 1], reference)
      + (if last.reference == reference && last.status.Approved? then [last.id] else [])
  }

  /** First payment of the reference that is not approved. */
  function FirstOpen(ps: seq<Payment>, reference: string): Option<nat> {
    if ps == [] then None
    else
      var first := FirstOpen(ps[..|ps| - 1], reference);
      var last := ps[|ps| - 1];
      if first.Some? then first
      else if last.reference == reference && !last.status.Approved? then Some(last.id)
      else None
  }

  function Without(ids: seq<nat>, primary: nat): seq<nat> {
    if ids == [] then []
    else Without(ids[..|ids| - 1], primary) + (if ids[|ids| - 1] == primary then [] else [ids[|ids| - 1]])
  }

  /** Every approved payment but the newest. */
  function Extras(ps: seq<Payment>, reference: string): seq<nat> {
    var approved := ApprovedIds(ps, reference);
    if approved == [] then [] else approved[1..]
  }

  /** The payment a search answers with: the newest approved one, else the newest of all. */
  function Kept(ps: seq<Payment>, reference: string): Option<nat> {
    var approved := ApprovedIds(ps, reference);
    if approved == [] then FirstOpen(ps, reference) else Some(approved[0])
  }

  datatype Search = Failed | Missing | Found(payment: Payment)

  /** FindBranchPayment: keep the newest approved payment, give every other approved
      payment back, then read the kept one. */
  function Find(ps: seq<Payment>, reference: string, o: Outcome, refunds: seq<Outcome>): (r: (seq<Payment>, Search))
    ensures |r.0| == |ps|
  {
    var kept := Kept(ps, reference);
    var (after, ok) := RefundAll(ps, Extras(ps, reference), refunds);
    if !ok then (after, Failed)
    else if kept.None? then (after, if o.Done? then Missing else Failed)
    else
      var k := Locate(after, kept.value);
      (after, if o.Done? && k < |after| then Found(after[k]) else Failed)
  }

  /** ReconcileBranchDuplicatePayments: give back every approved payment but the primary one. */
  function ClearDuplicates(ps: seq<Payment>, reference: string, primary: nat, refunds: seq<Outcome>): (r: (seq<Payment>, bool))
    ensures |r.0| == |ps|
  {
    RefundAll(ps, Without(ApprovedIds(ps, reference), primary), refunds)
  }

  // ---------------------------------------------------------------------------
  // What the searches leave behind
  // ---------------------------------------------------------------------------

  lemma {:induction false} ApprovedIdsMembers(ps: seq<Payment>, reference: string, id: nat)
    ensures id in ApprovedIds(ps, reference)
            <==> exists i :: 0 <= i < |ps| && ps[i].id == id && ps[i].reference == reference && ps[i].status.Approved?
  {
    if ps != [] {
      var n := |ps| - 1;
      ApprovedIdsMembers(ps[..n], reference, id);
      if i :| 0 <= i < |ps| && ps[i].id == id && ps[i].reference == reference && ps[i].status.Approved? {
        if i < n { assert ps[..n][i].id == id; }
      }
      if id in ApprovedIds(ps[..n], reference) {
        var i :| 0 <= i < n && ps[..n][i].id == id && ps[..n][i].reference == reference && ps[..n][i].status.Approved?;
        assert ps[i].id == id;
      }
    }
  }

  lemma {:induction false} ApprovedIdsDistinct(ps: seq<Payment>, reference: string)
    requires Book(ps)
    ensures Distinct(ApprovedIds(ps, reference))
  {
    if ps != [] {
      var n := |ps| - 1;
      ApprovedIdsDistinct(ps[..n], reference);
      var earlier := ApprovedIds(ps[..n], reference);
      forall k | 0 <= k < |earlier| ensures earlier[k] != ps[n].id {
        ApprovedIdsMembers(ps[..n], reference, earlier[k]);
      }
    }
  }

  lemma {:induction false} FirstOpenIs(ps: seq<Payment>, reference: string)
    ensures match FirstOpen(ps, reference)
            case None => forall i | 0 <= i < |ps| :: ps[i].reference == reference ==> ps[i].status.Approved?
            case Some(id) => exists i :: 0 <= i < |ps| && ps[i].id == id && ps[i].reference == reference && !ps[i].status.Approved?
  {
    if ps != [] {
      var n := |ps| - 1;
      FirstOpenIs(ps[..n], reference);
      match FirstOpen(ps[..n], reference)
      case None =>
        forall i | 0 <= i < n ensures ps[i].reference == reference ==> ps[i].status.Approved? {
          assert ps[..n][i] == ps[i];
        }
        if FirstOpen(ps, reference).Some? { assert ps[n].id == FirstOpen(ps, reference).value; }
      case Some(id) =>
        var i :| 0 <= i < n && ps[..n][i].id == id && ps[..n][i].reference == reference && !ps[..n][i].status.Approved?;
        assert ps[i].id == id;
    }
  }

  lemma {:induction false} WithoutMembers(ids: seq<nat>, primary: nat, id: nat)
    ensures id in Without(ids, primary) <==> id in ids && id != primary
  {
    if ids != [] {
      WithoutMembers(ids[..|ids| - 1], primary, id);
    }
  }

  lemma {:induction false} WithoutDistinct(ids: seq<nat>, primary: nat)
    requires Distinct(ids)
    ensures Distinct(Without(ids, primary))
  {
    if ids != [] {
      var n := |ids| - 1;
      WithoutDistinct(ids[..n], primary);
      var kept := Without(ids[..n], primary);
      forall k | 0 <= k < |kept| ensures kept[k] != ids[n] {
        WithoutMembers(ids[..n], primary, kept[k]);
        var j :| 0 <= j < n && ids[..n][j] == kept[k];
        assert ids[j] == kept[k];
      }
    }
  }

  lemma GiveBackKeepsBook(ps: seq<Payment>, ids: seq<nat>)
    requires Book(ps)
    ensures Book(GiveBackIds(ps, ids))
  {
  }

  lemma GiveBackTwice(ps: seq<Payment>, a: seq<nat>, b: seq<nat>)
    ensures GiveBackIds(GiveBackIds(ps, a), b) == GiveBackIds(ps, a + b)
  {
  }

  predicate IsApproved(ps: seq<Payment>, id: nat) {
    exists i :: 0 <= i < |ps| && ps[i].id == id && ps[i].status.Approved?
  }

  predicate OpenApproved(ps: seq<Payment>, ids: seq<nat>) {
    forall k | 0 <= k < |ids| :: IsApproved(ps, ids[k])
  }

  predicate Distinct(ids: seq<nat>) {
    forall i, j | 0 <= i < j < |ids| :: ids[i] != ids[j]
  }

  /** One refund of an approved payment: it is given back whole, or nothing happens. */
  lemma RefundOne(ps: seq<Payment>, id: nat, o: Outcome)
    requires Book(ps) && IsApproved(ps, id)
    ensures Refund(ps, id, o) == (if o.Done? || o == Lost(true) then GiveBackIds(ps, [id]) else ps, o.Done?)
  {
    var i :| 0 <= i < |ps| && ps[i].id == id && ps[i].status.Approved?;
    assert i == Locate(ps, id);
  }

  /** A refund reports success exactly when it was answered and the payment was approved or is back already; any other
      payment, or one nobody knows, is an error that changes nothing. */
  lemma RefundSucceedsWhen(ps: seq<Payment>, id: nat, o: Outcome)
    requires Book(ps)
    ensures Refund(ps, id, o).1 <==> o.Done? && exists i :: 0 <= i < |ps| && ps[i].id == id && (ps[i].status.Approved? || ps[i].status.Refunded?)
    ensures !IsApproved(ps, id) ==> Refund(ps, id, o).0 == ps
  {
    var k := Locate(ps, id);
    if k < |ps| { assert Sound(ps[k]); }
    forall i | 0 <= i < |ps| && ps[i].id == id ensures i == k {}
  }

  lemma GiveBackNone(ps: seq<Payment>)
    ensures GiveBackIds(ps, []) == ps
  {
  }

  lemma StillApproved(ps: seq<Payment>, ids: seq<nat>)
    requires OpenApproved(ps, ids) && Distinct(ids) && ids != []
    ensures OpenApproved(GiveBackIds(ps, [ids[0]]), ids[1..]) && Distinct(ids[1..])
  {
    var after := GiveBackIds(ps, [ids[0]]);
    forall m | 0 <= m < |ids[1..]| ensures IsApproved(after, ids[1..][m]) {
      assert IsApproved(ps, ids[m + 1]);
      var i :| 0 <= i < |ps| && ps[i].id == ids[m + 1] && ps[i].status.Approved?;
      assert after[i] == ps[i];
    }
  }

  lemma HeadDone(outcomes: seq<Outcome>)
    requires AllDone(outcomes)
    ensures Head(outcomes).Done? && AllDone(Rest(outcomes))
  {
    if outcomes != [] {
      assert outcomes[0] in outcomes;
      forall o | o in Rest(outcomes) ensures o == Done { assert o in outcomes; }
    }
  }

  lemma RefundAllNothing(ps: seq<Payment>, outcomes: seq<Outcome>)
    ensures RefundAll(ps, [], outcomes) == (GiveBackIds(ps, []), true)
  {
    GiveBackNone(ps);
  }

  lemma RefundAllStep(ps: seq<Payment>, ids: seq<nat>, outcomes: seq<Outcome>)
    requires Book(ps) && OpenApproved(ps, ids) && ids != []
    ensures RefundAll(ps, ids, outcomes)
            == match Head(outcomes)
               case Done => RefundAll(GiveBackIds(ps, [ids[0]]), ids[1..], Rest(outcomes))
               case Lost(applied) => (GiveBackIds(ps, if applied then [ids[0]] else []), false)
               case Refused => (GiveBackIds(ps, []), false)
  {
    GiveBackNone(ps);
    assert IsApproved(ps, ids[0]);
    RefundOne(ps, ids[0], Head(outcomes));
  }

  /** Whatever the network does, the refunds that took effect are a prefix of the ones
      asked for, each payment is given back once and in full, and success means all of them. */
  lemma {:induction false} RefundAllIsPrefix(ps: seq<Payment>, ids: seq<nat>, outcomes: seq<Outcome>) returns (k: nat)
    requires Book(ps) && OpenApproved(ps, ids) && Distinct(ids)
    ensures k <= |ids| && RefundAll(ps, ids, outcomes).0 == GiveBackIds(ps, ids[..k])
    ensures RefundAll(ps, ids, outcomes).1 ==> k == |ids|
    ensures AllDone(outcomes) ==> RefundAll(ps, ids, outcomes).1
    decreases |ids|
  {
    hide *;
    if AllDone(outcomes) { HeadDone(outcomes); }
    k := 0;
    if ids == [] {
      RefundAllNothing(ps, outcomes);
    } else {
      RefundAllStep(ps, ids, outcomes);
      match Head(outcomes)
      case Done =>
        GiveBackKeepsBook(ps, [ids[0]]);
        StillApproved(ps, ids);
        var rest := RefundAllIsPrefix(GiveBackIds(ps, [ids[0]]), ids[1..], Rest(outcomes));
        k := rest + 1;
        GiveBackTwice(ps, [ids[0]], ids[1..][..rest]);
        assert ids[..k] == [ids[0]] + ids[1..][..rest];
      case Lost(applied) =>
        k := if applied then 1 else 0;
        assert ids[..k] == if applied then [ids[0]] else [];
      case Refused =>
    }
  }

  /** Same shape as the book before, with some approved payments given back. */
  predicate Progress(ps: seq<Payment>, after: seq<Payment>) {
    && |after| == |ps|
    && forall i | 0 <= i < |ps| :: after[i] == ps[i] || (ps[i].status.Approved? && after[i] == GiveBack(ps[i]))
  }

  lemma ExtrasAreOpen(ps: seq<Payment>, reference: string)
    requires Book(ps)
    ensures OpenApproved(ps, ApprovedIds(ps, reference))
    ensures Distinct(ApprovedIds(ps, reference))
  {
    ApprovedIdsDistinct(ps, reference);
    forall k | 0 <= k < |ApprovedIds(ps, reference)| ensures IsApproved(ps, ApprovedIds(ps, reference)[k]) {
      ApprovedIdsMembers(ps, reference, ApprovedIds(ps, reference)[k]);
    }
  }

  predicate HasApproved(ps: seq<Payment>, reference: string) {
    exists i :: 0 <= i < |ps| && ps[i].reference == reference && ps[i].status.Approved?
  }

  /** What a search did to the books: a prefix of the duplicates was given back. */
  lemma FindGivesBack(ps: seq<Payment>, reference: string, o: Outcome, refunds: seq<Outcome>) returns (k: nat)
    requires Book(ps)
    ensures k <= |Extras(ps, reference)|
    ensures Find(ps, reference, o, refunds).0 == GiveBackIds(ps, Extras(ps, reference)[..k])
    ensures RefundAll(ps, Extras(ps, reference), refunds).1 ==> k == |Extras(ps, reference)|
    ensures AllDone(refunds) ==> RefundAll(ps, Extras(ps, reference), refunds).1
    ensures forall i | 0 <= i < |ps| && ps[i].id in Extras(ps, reference)[..k] ::
              ps[i].reference == reference && ps[i].status.Approved? && ps[i].id != ApprovedIds(ps, reference)[0]
  {
    var approved, extras := ApprovedIds(ps, reference), Extras(ps, reference);
    ExtrasAreApproved(ps, reference);
    ApprovedIdsDistinct(ps, reference);
    k := RefundAllIsPrefix(ps, extras, refunds);
    forall i | 0 <= i < |ps| && ps[i].id in extras[..k]
      ensures ps[i].reference == reference && ps[i].status.Approved? && ps[i].id != approved[0]
    {
      var j :| 0 <= j < k && extras[j] == ps[i].id;
      assert approved[j + 1] == ps[i].id;
      ApprovedIdsMembers(ps, reference, ps[i].id);
    }
  }

  lemma FindKeepsApproved(ps: seq<Payment>, reference: string, o: Outcome, refunds: seq<Outcome>)
    requires Book(ps) && ApprovedIds(ps, reference) != []
    ensures var after := Find(ps, reference, o, refunds).0;
            && |after| == |ps|
            && exists i :: 0 <= i < |ps| && ps[i].id == ApprovedIds(ps, reference)[0]
                           && ps[i].reference == reference && ps[i].status.Approved? && after[i] == ps[i]
  {
    var k := FindGivesBack(ps, reference, o, refunds);
    var newest := ApprovedIds(ps, reference)[0];
    assert newest in ApprovedIds(ps, reference);
    ApprovedIdsMembers(ps, reference, newest);
    var i :| 0 <= i < |ps| && ps[i].id == newest && ps[i].reference == reference && ps[i].status.Approved?;
    assert Find(ps, reference, o, refunds).0[i] == ps[i];
  }

  predicate ReferenceIntact(ps: seq<Payment>, after: seq<Payment>, reference: string)
    requires |after| == |ps|
  {
    forall i | 0 <= i < |ps| :: ps[i].reference != reference ==> after[i] == ps[i]
  }

  /** Only duplicates are ever given back: other references are untouched, a payment is never
      refunded beyond what it collected, and one approved payment survives if there was one. */
  lemma FindIsSafe(ps: seq<Payment>, reference: string, o: Outcome, refunds: seq<Outcome>)
    requires Book(ps)
    ensures var after := Find(ps, reference, o, refunds).0;
            Book(after) && Progress(ps, after) && ReferenceIntact(ps, after, reference)
    ensures HasApproved(ps, reference) ==> HasApproved(Find(ps, reference, o, refunds).0, reference)
  {
    var k := FindGivesBack(ps, reference, o, refunds);
    GiveBackKeepsBook(ps, Extras(ps, reference)[..k]);
    if HasApproved(ps, reference) {
      var i :| 0 <= i < |ps| && ps[i].reference == reference && ps[i].status.Approved?;
      ApprovedIdsMembers(ps, reference, ps[i].id);
      FindKeepsApproved(ps, reference, o, refunds);
    }
  }

  lemma KeptExists(ps: seq<Payment>, reference: string)
    ensures match Kept(ps, reference)
            case None => forall i | 0 <= i < |ps| :: ps[i].reference != reference
            case Some(id) => exists i :: 0 <= i < |ps| && ps[i].id == id && ps[i].reference == reference
  {
    var approved := ApprovedIds(ps, reference);
    if approved != [] {
      assert approved[0] in approved;
      ApprovedIdsMembers(ps, reference, approved[0]);
    } else {
      FirstOpenIs(ps, reference);
      forall i | 0 <= i < |ps| ensures ps[i].reference == reference ==> !ps[i].status.Approved? {
        ApprovedIdsMembers(ps, reference, ps[i].id);
      }
    }
  }

  lemma GiveBackLocates(ps: seq<Payment>, ids: seq<nat>, i: nat)
    requires Book(ps) && i < |ps|
    ensures Locate(GiveBackIds(ps, ids), ps[i].id) == i
    ensures GiveBackIds(ps, ids)[i].reference == ps[i].reference
  {
  }

  /** What a search answers: a payment of the reference as the provider holds it, or that
      there is none; it fails only when a request failed. */
  lemma FindAnswers(ps: seq<Payment>, reference: string, o: Outcome, refunds: seq<Outcome>)
    requires Book(ps)
    ensures var r := Find(ps, reference, o, refunds);
            && (r.1.Found? ==> r.1.payment.reference == reference && r.1.payment in r.0)
            && (r.1.Missing? ==> forall i | 0 <= i < |ps| :: ps[i].reference != reference)
            && (o.Done? && AllDone(refunds) ==> !r.1.Failed?)
  {
    hide Kept, Extras, RefundAll, GiveBackIds, AllDone, Locate, ApprovedIds, Book;
    KeptExists(ps, reference);
    var k := FindGivesBack(ps, reference, o, refunds);
    if Kept(ps, reference).Some? {
      var i :| 0 <= i < |ps| && ps[i].id == Kept(ps, reference).value && ps[i].reference == reference;
      GiveBackLocates(ps, Extras(ps, reference)[..k], i);
    }
  }

  lemma ExtrasAreApproved(ps: seq<Payment>, reference: string)
    requires Book(ps)
    ensures OpenApproved(ps, Extras(ps, reference)) && Distinct(Extras(ps, reference))
  {
    ExtrasAreOpen(ps, reference);
    var approved := ApprovedIds(ps, reference);
    forall k | 0 <= k < |Extras(ps, reference)| ensures IsApproved(ps, Extras(ps, reference)[k]) {
      assert IsApproved(ps, approved[k + 1]);
    }
  }

  /** A successful search leaves at most one approved payment of the reference, and it is
      the one it returns: the newest that was approved before. */
  lemma FindKeepsOne(ps: seq<Payment>, reference: string, o: Outcome, refunds: seq<Outcome>)
    requires Book(ps)
    ensures var r := Find(ps, reference, o, refunds);
            r.1.Found? ==>
              && |r.0| == |ps|
              && (forall i | 0 <= i < |ps| ::
                    r.0[i].reference == reference && r.0[i].status.Approved? ==> r.0[i] == r.1.payment)
              && (HasApproved(ps, reference) <==> r.1.payment.status.Approved?)
              && (HasApproved(ps, reference) ==> r.1.payment in ps)
  {
    var approved, extras := ApprovedIds(ps, reference), Extras(ps, reference);
    var r := Find(ps, reference, o, refunds);
    FindIsSafe(ps, reference, o, refunds);
    FindAnswers(ps, reference, o, refunds);
    if r.1.Found? {
      var k := FindGivesBack(ps, reference, o, refunds);
      assert extras[..k] == extras;
      assert |r.0| == |ps|;
      hide RefundAll;
      forall i | 0 <= i < |ps| && r.0[i].reference == reference && r.0[i].status.Approved?
        ensures r.0[i] == r.1.payment && r.0[i] == ps[i]
      {
        ApprovedIdsMembers(ps, reference, ps[i].id);
        assert ps[i].id in approved && ps[i].id !in extras;
        forall j | 0 < j < |approved| ensures approved[j] in extras { assert extras[j - 1] == approved[j]; }
      }
      if r.1.payment.status.Approved? {
        var i :| 0 <= i < |r.0| && r.0[i] == r.1.payment;
        assert ps[i].status.Approved? && ps[i].reference == reference;
      }
    }
  }

  /** A search without errors gives back exactly the duplicates. */
  lemma CleanFind(ps: seq<Payment>, reference: string)
    requires Book(ps)
    ensures Find(ps, reference, Done, []).0 == GiveBackIds(ps, Extras(ps, reference))
  {
    var k := FindGivesBack(ps, reference, Done, []);
    assert Extras(ps, reference)[..k] == Extras(ps, reference);
  }

  lemma RemainingExtras(ps: seq<Payment>, reference: string, k: nat)
    requires Book(ps) && k <= |Extras(ps, reference)|
    ensures Extras(GiveBackIds(ps, Extras(ps, reference)[..k]), reference) == Extras(ps, reference)[k..]
  {
    RemainingApproved(ps, reference, Extras(ps, reference), k);
  }

  /** Repeating the search after any interruption ends in the books of one clean search:
      a crash or an uncertain refund never costs a second refund. */
  lemma FindRecovers(ps: seq<Payment>, reference: string, o: Outcome, refunds: seq<Outcome>)
    requires Book(ps)
    ensures Find(Find(ps, reference, o, refunds).0, reference, Done, []).0 == Find(ps, reference, Done, []).0
  {
    hide *;
    var extras := Extras(ps, reference);
    var mid := Find(ps, reference, o, refunds).0;
    var k := FindGivesBack(ps, reference, o, refunds);
    GiveBackKeepsBook(ps, extras[..k]);
    RemainingExtras(ps, reference, k);
    CleanFind(ps, reference);
    CleanFind(mid, reference);
    GiveBackTwice(ps, extras[..k], extras[k..]);
    assert extras[..k] + extras[k..] == extras;
  }

  /** After the first k duplicates were given back, the approved list is the kept payment
      followed by the duplicates that remain. */
  lemma {:induction false} RemainingApproved(ps: seq<Payment>, reference: string, extras: seq<nat>, k: nat)
    requires Book(ps) && k <= |extras|
    requires extras == Extras(ps, reference)
    ensures ApprovedIds(GiveBackIds(ps, extras[..k]), reference)
            == if ApprovedIds(ps, reference) == [] then [] else [ApprovedIds(ps, reference)[0]] + extras[k..]
  {
    var approved := ApprovedIds(ps, reference);
    ApprovedAfterGiveBack(ps, reference, extras[..k]);
    ApprovedIdsDistinct(ps, reference);
    if approved == [] {
    } else {
      assert approved == [approved[0]] + extras;
      DropPrefix([approved[0]], extras, k, approved);
    }
  }

  function Minus(ids: seq<nat>, gone: seq<nat>): seq<nat> {
    if ids == [] then []
    else Minus(ids[..|ids| - 1], gone) + (if ids[|ids| - 1] in gone then [] else [ids[|ids| - 1]])
  }

  lemma {:induction false} ApprovedAfterGiveBack(ps: seq<Payment>, reference: string, gone: seq<nat>)
    ensures ApprovedIds(GiveBackIds(ps, gone), reference) == Minus(ApprovedIds(ps, reference), gone)
  {
    if ps != [] {
      var n := |ps| - 1;
      ApprovedAfterGiveBack(ps[..n], reference, gone);
      assert GiveBackIds(ps, gone)[..n] == GiveBackIds(ps[..n], gone);
      var front := ApprovedIds(ps[..n], reference);
      if ps[n].reference == reference && ps[n].status.Approved? {
        assert (front + [ps[n].id])[..|front|] == front;
      } else {
        assert front + [] == front;
      }
    }
  }

  lemma {:induction false} DropPrefix(first: seq<nat>, extras: seq<nat>, k: nat, all: seq<nat>)
    requires k <= |extras| && all == first + extras
    requires Distinct(all)
    ensures Minus(all, extras[..k]) == first + extras[k..]
    decreases |extras|
  {
    var n := |all| - 1;
    if extras == [] {
      assert all == first && extras[..k] == [];
      MinusNothing(first, []);
    } else {
      var last := extras[|extras| - 1];
      assert all[n] == last;
      if k == |extras| {
        MinusAll(first, extras, all);
      } else {
        var shorter := extras[..|extras| - 1];
        assert shorter[..k] == extras[..k];
        assert all[..n] == first + shorter;
        DropPrefix(first, shorter, k, all[..n]);
        forall j | 0 <= j < k ensures extras[..k][j] != last {
          assert all[|first| + j] == extras[j];
        }
        assert first + shorter[k..] + [last] == first + extras[k..];
      }
    }
  }

  lemma {:induction false} MinusNothing(ids: seq<nat>, gone: seq<nat>)
    requires forall id | id in ids :: id !in gone
    ensures Minus(ids, gone) == ids
  {
    if ids != [] {
      MinusNothing(ids[..|ids| - 1], gone);
    }
  }

  lemma {:induction false} MinusAll(first: seq<nat>, extras: seq<nat>, all: seq<nat>)
    requires all == first + extras
    requires Distinct(all)
    ensures Minus(all, extras[..|extras|]) == first + extras[|extras|..]
  {
    assert extras[..|extras|] == extras;
    MinusTail(first, extras, |extras|, all);
  }

  lemma {:induction false} MinusTail(first: seq<nat>, extras: seq<nat>, n: nat, all: seq<nat>)
    requires n <= |extras| && all == first + extras
    requires Distinct(all)
    ensures Minus(first + extras[..n], extras) == first
    decreases n
  {
    if n == 0 {
      assert first + extras[..0] == first;
      forall i, j | 0 <= i < |first| && 0 <= j < |extras| ensures first[i] != extras[j] {
        assert all[i] == first[i] && all[|first| + j] == extras[j];
      }
      MinusNothing(first, extras);
    } else {
      var part := first + extras[..n];
      assert part[..|part| - 1] == first + extras[..n - 1];
      assert part[|part| - 1] == extras[n - 1];
      MinusTail(first, extras, n - 1, all);
    }
  }

  /** The payment that activated the branch is never given back by the duplicate sweep,
      and a sweep without errors gives back every other approved payment. */
  lemma DuplicatesSparePrimary(ps: seq<Payment>, reference: string, primary: nat, refunds: seq<Outcome>)
    requires Book(ps)
    ensures var r := ClearDuplicates(ps, reference, primary, refunds);
            && Book(r.0) && Progress(ps, r.0)
            && (forall i | 0 <= i < |ps| :: ps[i].id == primary || ps[i].reference != reference ==> r.0[i] == ps[i])
            && (r.1 ==> forall i | 0 <= i < |ps| ::
                  r.0[i].reference == reference && r.0[i].status.Approved? ==> r.0[i].id == primary)
            && (AllDone(refunds) ==> r.1)
  {
    var approved := ApprovedIds(ps, reference);
    var others := Without(approved, primary);
    var r := ClearDuplicates(ps, reference, primary, refunds);
    ExtrasAreOpen(ps, reference);
    WithoutDistinct(approved, primary);
    forall m | 0 <= m < |others| ensures others[m] in approved && others[m] != primary && IsApproved(ps, others[m]) {
      WithoutMembers(approved, primary, others[m]);
      ApprovedIdsMembers(ps, reference, others[m]);
    }
    var k := RefundAllIsPrefix(ps, others, refunds);
    GiveBackKeepsBook(ps, others[..k]);
    forall i | 0 <= i < |ps| && ps[i].id in others[..k]
      ensures ps[i].reference == reference && ps[i].status.Approved? && ps[i].id != primary
    {
      assert ps[i].id in others;
      ApprovedIdsMembers(ps, reference, ps[i].id);
    }
    if r.1 {
      assert others[..k] == others;
      forall i | 0 <= i < |ps| && r.0[i].reference == reference && r.0[i].status.Approved?
        ensures r.0[i].id == primary
      {
        ApprovedIdsMembers(ps, reference, ps[i].id);
        WithoutMembers(approved, primary, ps[i].id);
      }
    }
  }

  /** What the payments of a reference have brought in, after refunds. */
  function Net(ps: seq<Payment>, reference: string): int {
    if ps == [] then 0
    else Net(ps[..|ps| - 1], reference) + NetOf(ps[|ps| - 1], reference)
  }

  function NetOf(p: Payment, reference: string): int {
    if p.reference == reference && (p.status.Approved? || p.status.Refunded?) then p.amount - p.refunded else 0
  }

  /** After a clean search exactly the returned payment is still collected, so the money kept
      for the reference is what is left of that one payment. */
  lemma FindNetIsOnePayment(ps: seq<Payment>, reference: string)
    requires Book(ps)
    ensures var r := Find(ps, reference, Done, []);
            Net(r.0, reference) == if r.1.Found? then NetOf(r.1.payment, reference) else 0
  {
    var r := Find(ps, reference, Done, []);
    FindIsSafe(ps, reference, Done, []);
    FindAnswers(ps, reference, Done, []);
    FindKeepsOne(ps, reference, Done, []);
    if r.1.Found? && r.1.payment.status.Approved? {
      var i :| 0 <= i < |r.0| && r.0[i] == r.1.payment;
      NetOne(r.0, reference, i);
    } else {
      NetZero(r.0, reference);
    }
  }

  lemma {:induction false} NetZero(ps: seq<Payment>, reference: string)
    requires Book(ps)
    requires forall i | 0 <= i < |ps| :: !(ps[i].reference == reference && ps[i].status.Approved?)
    ensures Net(ps, reference) == 0
  {
    if ps != [] {
      NetZero(ps[..|ps| - 1], reference);
    }
  }

  lemma {:induction false} NetOne(ps: seq<Payment>, reference: string, k: nat)
    requires Book(ps) && k < |ps|
    requires forall i | 0 <= i < |ps| :: ps[i].reference == reference && ps[i].status.Approved? ==> ps[i] == ps[k]
    ensures Net(ps, reference) == NetOf(ps[k], reference)
  {
    var n := |ps| - 1;
    if k == n {
      forall i | 0 <= i < n ensures !(ps[..n][i].reference == reference && ps[..n][i].status.Approved?) {
        assert ps[i].id != ps[k].id;
      }
      NetZero(ps[..n], reference);
    } else {
      assert ps[n].id != ps[k].id;
      NetOne(ps[..n], reference, k);
    }
  }

  // ---------------------------------------------------------------------------
  // The client that runs these requests
  // ---------------------------------------------------------------------------

  class PaymentClient {
    var payments: seq<Payment>

    constructor (ps: seq<Payment>)
      ensures payments == ps
    {
      payments := ps;
    }

    method RefundBranchPayment(id: nat, o: Outcome) returns (ok: bool)
      modifies this
      ensures (payments, ok) == Refund(old(payments), id, o)
    {
      var k := 0;
      while k < |payments| && payments[k].id != id
        invariant 0 <= k <= |payments| && k + Locate(payments[k..], id) == Locate(payments, id)
      {
        assert payments[k..][1..] == payments[k + 1..];
        k := k + 1;
      }
      if k == |payments| {
        return false;
      }
      if PaidOff(payments[k]) {
        return o.Done?;
      }
      if !payments[k].status.Approved? || o == Lost(false) || o.Refused? {
        return false;
      }
      payments := GiveBackIds(payments, [id]);
      return o.Done?;
    }

    /** Splits the search result the way the two searches do. */
    method CollectApproved(reference: string) returns (approved: seq<nat>, open: Option<nat>)
      ensures approved == ApprovedIds(payments, reference)
      ensures open == FirstOpen(payments, reference)
    {
      approved, open := [], None;
      for i := 0 to |payments|
        invariant approved == ApprovedIds(payments[..i], reference)
        invariant open == FirstOpen(payments[..i], reference)
      {
        var item := payments[i];
        assert payments[..i + 1][..i] == payments[..i];
        if item.reference == reference {
          if item.status.Approved? {
            approved := approved + [item.id];
          } else if open.None? {
            open := Some(item.id);
          }
        }
      }
      assert payments[..|payments|] == payments;
    }

    method RefundEach(ids: seq<nat>, refunds: seq<Outcome>) returns (ok: bool)
      modifies this
      ensures (payments, ok) == RefundAll(old(payments), ids, refunds)
    {
      var left, answers := ids, refunds;
      while left != []
        invariant RefundAll(payments, left, answers) == RefundAll(old(payments), ids, refunds)
        decreases |left|
      {
        ok := RefundBranchPayment(left[0], Head(answers));
        if !ok {
          return;
        }
        left, answers := left[1..], Rest(answers);
      }
      ok := true;
    }

    method FindBranchPayment(reference: string, o: Outcome, refunds: seq<Outcome>) returns (r: Search)
      modifies this
      ensures (payments, r) == Find(old(payments), reference, o, refunds)
    {
      var approved, id := CollectApproved(reference);
      var extras: seq<nat> := [];
      if |approved| > 0 {
        id := Some(approved[0]);
        extras := approved[1..];
      }
      var ok := RefundEach(extras, refunds);
      if !ok || !o.Done? {
        return Failed;
      }
      if id.None? {
        return Missing;
      }
      var k := Locate(payments, id.value);
      return if k < |payments| then Found(payments[k]) else Failed;
    }

    method ReconcileBranchDuplicatePayments(reference: string, primary: nat, refunds: seq<Outcome>) returns (ok: bool)
      modifies this
      ensures (payments, ok) == ClearDuplicates(old(payments), reference, primary, refunds)
    {
      var approved, _ := CollectApproved(reference);
      var others: seq<nat> := [];
      for i := 0 to |approved|
        invariant others == Without(approved[..i], primary)
      {
        assert approved[..i + 1][..i] == approved[..i];
        if approved[i] != primary {
          others := others + [approved[i]];
        }
      }
      assert approved[..|approved|] == approved;
      ok := RefundEach(others, refunds);
    }
  }
}
