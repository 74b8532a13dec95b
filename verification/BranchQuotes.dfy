/** Quoting and confirming the addition of a branch (internal/service/branch_proration.go and
    internal/repository/branch_proration.go): where branch operations come from. */
module BranchQuotes {
  import opened Common
  import opened BranchPayments
  import opened BranchSaga
  import Calendar

  const QUOTE_LIFETIME: int := 600

  /** A quote as it is stored, with the subscription it was computed from and who asked for it. */
  datatype Stored = Stored(actor: nat, quote: Quote, snap: Snapshot)

  datatype Operation = Operation(quote: nat, key: nat, status: Status, amount: int)

  /** What the billing context of a brand needs: an active program and an active branch. */
  datatype Context = Ready | NoProgram | NoBranch

  datatype Desk = Desk(row: Option<Row>, owner: bool, context: Context, quotes: map<nat, Stored>, operations: map<nat, Operation>,
      nextQuote: nat, nextOperation: nat)

  datatype Reply = Quoted(quote: nat) | Opened(operation: nat) | Forbidden | SubscriptionChangeRequired | QuoteChanged | Expired
                 | NotFound | Invalid | IdempotencyConflict | InProgress

  /** lockBranchBilling: the snapshot of a subscription that can take another branch. */
  function Locked(d: Desk): (Option<Snapshot>, Reply) {
    if !d.owner then (None, Forbidden)
    else if d.row.None? then (None, SubscriptionChangeRequired)
    else if !Billable(d.row.value) then (None, QuoteChanged)
    else (Some(SnapshotOf(d.row.value)), Quoted(0))
  }

  /** The civil dates around a quote: today, the renewal date and the instant of the next midnight. */
  datatype Clock = Clock(now: int, midnight: int, today: Calendar.Date, renewal: Calendar.Date, onTrial: bool)

  predicate ClockRuns(c: Clock) {
    Calendar.Valid(c.today) && Calendar.Valid(c.renewal) && c.now < c.midnight
  }

  datatype Answer = Offer(quote: Quote) | Refusal(reply: Reply)

  function QuoteFor(s: Snapshot, c: Clock): Answer
    requires ClockRuns(c)
  {
    match Calendar.Prorate(c.today, c.renewal, s.unit, c.onTrial, s.anchor)
    case QuoteChanged => Refusal(QuoteChanged)
    case Prorated(_, _, amount, _, _) =>
      if s.monthly > MAX_INT64 - s.unit then Refusal(Invalid)
      else
        Offer(Quote(c.now, if c.now + QUOTE_LIFETIME > c.midnight then c.midnight else c.now + QUOTE_LIFETIME,
                   amount, s.monthly + s.unit, amount > 0))
  }

  function SaveQuote(d: Desk, actor: nat, c: Clock): (Desk, Reply)
    requires ClockRuns(c)
  {
    var (snap, refusal) := Locked(d);
    if snap.None? then (d, refusal)
    else
      var q := QuoteFor(snap.value, c);
      if q.Refusal? then (d, q.reply)
      else (d.(quotes := d.quotes[d.nextQuote := Stored(actor, q.quote, snap.value)], nextQuote := d.nextQuote + 1), Quoted(d.nextQuote))
  }

  predicate KeyTaken(d: Desk, key: nat) {
    exists o :: o in d.operations && d.operations[o].key == key
  }

  predicate Busy(d: Desk) {
    exists o :: o in d.operations && Active(d.operations[o].status)
  }

  predicate Used(d: Desk, quote: nat) {
    exists o :: o in d.operations && d.operations[o].quote == quote
  }

  predicate IsFirst(d: Desk, key: nat, o: nat) {
    && o in d.operations && d.operations[o].key == key
    && forall p | p in d.operations && d.operations[p].key == key :: o <= p
  }

  lemma {:induction false} FirstExists(d: Desk, key: nat, o: nat)
    requires o in d.operations && d.operations[o].key == key
    ensures exists p :: p in d.operations && IsFirst(d, key, p)
  {
    if !IsFirst(d, key, o) {
      var p :| p in d.operations && d.operations[p].key == key && p < o;
      FirstExists(d, key, p);
    }
  }

  /** A key that was used before answers with its operation, if it is for the same quote. The unique index
      leaves one such operation. */
  function Replayed(d: Desk, key: nat, quote: nat): Reply
    requires KeyTaken(d, key)
  {
    assert exists o :: o in d.operations && IsFirst(d, key, o) by {
      var o :| o in d.operations && d.operations[o].key == key;
      FirstExists(d, key, o);
    }
    var o :| o in d.operations && IsFirst(d, key, o);
    if d.operations[o].quote == quote then Opened(o) else IdempotencyConflict
  }

  predicate KeysDiffer(d: Desk) {
    forall o, p | o in d.operations && p in d.operations && d.operations[o].key == d.operations[p].key :: o == p
  }

  function ConfirmQuote(d: Desk, actor: nat, quote: nat, key: nat, now: int): (Desk, Reply) {
    var (snap, refusal) := Locked(d);
    if !d.owner || d.context.NoProgram? then (d, Forbidden)
    else if d.context.NoBranch? then (d, Invalid)
    else if KeyTaken(d, key) then (d, Replayed(d, key, quote))
    else if snap.None? then (d, refusal)
    else if quote !in d.quotes || d.quotes[quote].actor != actor then (d, NotFound)
    else if d.quotes[quote].quote.expiry <= now then (d, Expired)
    else if snap.value != d.quotes[quote].snap then (d, QuoteChanged)
    else if Busy(d) || Used(d, quote) then (d, InProgress)
    else
      var q := d.quotes[quote].quote;
      (d.(operations := d.operations[d.nextOperation := Operation(quote, key, if q.paymentRequired then
          PaymentPending else PlanUpdating, q.proration)],
          nextOperation := d.nextOperation + 1), Opened(d.nextOperation))
  }

  // ---------------------------------------------------------------------------
  // What a quote is worth
  // ---------------------------------------------------------------------------

  /** A quote for a subscription with a price of at least a cent raises the monthly amount by exactly one
      branch, asks for at most one branch's price, asks for nothing exactly when it needs no payment, and
      expires within ten minutes and before midnight. */
  lemma QuoteIsSound(row: Row, c: Clock)
    requires Billable(row) && row.unit >= 1 && ClockRuns(c)
    ensures var q := QuoteFor(SnapshotOf(row), c);
            q.Offer? ==>
              && QuoteOf(q.quote, SnapshotOf(row))
              && q.quote.newMonthly == row.unit * (row.count + 1) <= MAX_INT64
              && 0 <= q.quote.proration <= row.unit && (c.onTrial ==> !q.quote.paymentRequired)
              && c.now < q.quote.expiry <= c.midnight && q.quote.expiry <= c.now + QUOTE_LIFETIME
  {
    Calendar.QuoteIsFair(c.today, c.renewal, row.unit, c.onTrial, row.anchor);
    Distributes(row.unit, row.count);
  }

  lemma Distributes(unit: int, count: int)
    ensures unit * (count + 1) == unit * count + unit
  {
  }

  /** Stored quotes are sound for the subscription they name, one operation of the brand is active at most,
      and neither a key nor a quote opened two operations. */
  predicate DeskInv(d: Desk) {
    && (forall q | q in d.quotes :: q < d.nextQuote && QuoteOf(d.quotes[q].quote,
        d.quotes[q].snap) && d.quotes[q].quote.createdAt < d.quotes[q].quote.expiry)
    && (forall o | o in d.operations :: o < d.nextOperation && d.operations[o].quote in d.quotes)
    && (forall o, p | o in d.operations && p in d.operations && Active(d.operations[o].status) && Active(d.operations[p].status) :: o == p)
    && KeysDiffer(d)
    && (forall o, p | o in d.operations && p in d.operations && d.operations[o].quote == d.operations[p].quote :: o == p)
    && (d.row.Some? ==> d.row.value.unit >= 1)
  }

  lemma SaveKeeps(d: Desk, actor: nat, c: Clock)
    requires DeskInv(d) && ClockRuns(c)
    ensures DeskInv(SaveQuote(d, actor, c).0)
  {
    hide QuoteFor, QuoteOf;
    if d.row.Some? && Billable(d.row.value) {
      QuoteIsSound(d.row.value, c);
      CreatedNow(SnapshotOf(d.row.value), c);
    }
  }

  lemma CreatedNow(s: Snapshot, c: Clock)
    requires ClockRuns(c)
    ensures QuoteFor(s, c).Offer? ==> QuoteFor(s, c).quote.createdAt == c.now
  {
  }

  lemma ConfirmKeeps(d: Desk, actor: nat, quote: nat, key: nat, now: int)
    requires DeskInv(d)
    ensures DeskInv(ConfirmQuote(d, actor, quote, key, now).0)
  {
    hide QuoteOf, Billable;
  }

  /** An operation moves on. The unique index keeps one that ended from becoming active beside another. */
  function MoveOn(d: Desk, o: nat, status: Status): Desk
    requires o in d.operations
  {
    if Active(status) && !Active(d.operations[o].status) && Busy(d) then d
    else d.(operations := d.operations[o := d.operations[o].(status := status)])
  }

  lemma MoveOnKeeps(d: Desk, o: nat, status: Status)
    requires DeskInv(d) && o in d.operations
    ensures DeskInv(MoveOn(d, o, status))
  {
    hide QuoteOf, Billable;
  }

  // ---------------------------------------------------------------------------
  // Runs
  // ---------------------------------------------------------------------------

  /** Everything that changes what a quote or a confirmation reads. The row may change to any other with a
      price of at least a cent, and an operation may move to any status. */
  datatype Choice =
    | DoSave(actor: nat, clock: Clock)
    | DoConfirm(actor: nat, quote: nat, key: nat, now: int)
    | DoMoveOn(operation: nat, status: Status)
    | RowChanges(row: Option<Row>)
    | OwnerChanges(owner: bool)
    | ContextChanges(context: Context)

  function Step(d: Desk, c: Choice): Desk {
    match c
    case DoSave(actor, clock) => if ClockRuns(clock) then SaveQuote(d, actor, clock).0 else d
    case DoConfirm(actor, quote, key, now) => ConfirmQuote(d, actor, quote, key, now).0
    case DoMoveOn(o, status) => if o in d.operations then MoveOn(d, o, status) else d
    case RowChanges(row) => if row.Some? && row.value.unit < 1 then d else d.(row := row)
    case OwnerChanges(owner) => d.(owner := owner)
    case ContextChanges(context) => d.(context := context)
  }

  function Run(d: Desk, cs: seq<Choice>): Desk {
    if cs == [] then d else Step(Run(d, cs[..|cs| - 1]), cs[|cs| - 1])
  }

  function EmptyDesk(row: Option<Row>, owner: bool, context: Context): Desk {
    Desk(row, owner, context, map[], map[], 0, 0)
  }

  lemma StepKeeps(d: Desk, c: Choice)
    requires DeskInv(d)
    ensures DeskInv(Step(d, c))
  {
    hide SaveQuote, ConfirmQuote, MoveOn, QuoteOf;
    match c
    case DoSave(actor, clock) => if ClockRuns(clock) { SaveKeeps(d, actor, clock); }
    case DoConfirm(actor, quote, key, now) => ConfirmKeeps(d, actor, quote, key, now);
    case DoMoveOn(o, status) => if o in d.operations { MoveOnKeeps(d, o, status); }
    case _ =>
  }

  lemma {:induction false} RunKeeps(d: Desk, cs: seq<Choice>)
    requires DeskInv(d)
    ensures DeskInv(Run(d, cs))
  {
    hide DeskInv, Step;
    if cs != [] {
      RunKeeps(d, cs[..|cs| - 1]);
      StepKeeps(Run(d, cs[..|cs| - 1]), cs[|cs| - 1]);
    }
  }

  /** In every state a brand can reach at most one operation is active, and neither a key nor a quote has
      opened two; an operation is for a stored quote that raises the amount by one branch and says whether
      anything is to be paid. */
  lemma OneOperationAtATime(row: Option<Row>, owner: bool, context: Context, cs: seq<Choice>, o: nat, p: nat)
    requires row.Some? ==> row.value.unit >= 1
    requires var d := Run(EmptyDesk(row, owner, context), cs); o in d.operations && p in d.operations
    ensures var d := Run(EmptyDesk(row, owner, context), cs);
            && (Active(d.operations[o].status) && Active(d.operations[p].status) ==> o == p)
            && (d.operations[o].key == d.operations[p].key ==> o == p)
            && (d.operations[o].quote == d.operations[p].quote ==> o == p)
            && d.operations[o].quote in d.quotes
            && QuoteOf(d.quotes[d.operations[o].quote].quote, d.quotes[d.operations[o].quote].snap)
  {
    hide QuoteOf, Run;
    RunKeeps(EmptyDesk(row, owner, context), cs);
  }

  /** An operation keeps its key, its quote and its amount, and a stored quote never changes. */
  predicate Grows(d: Desk, e: Desk) {
    && (forall o | o in d.operations :: && o in e.operations && e.operations[o].key == d.operations[o].key
                                        && e.operations[o].quote == d.operations[o].quote && e.operations[o].amount == d.operations[o].amount)
    && (forall q | q in d.quotes :: q in e.quotes && e.quotes[q] == d.quotes[q])
  }

  lemma StepGrows(d: Desk, c: Choice)
    requires DeskInv(d)
    ensures Grows(d, Step(d, c))
  {
    hide QuoteFor, Locked, QuoteOf, Billable;
  }

  lemma {:induction false} RunGrows(d: Desk, cs: seq<Choice>)
    requires DeskInv(d)
    ensures Grows(d, Run(d, cs))
  {
    hide DeskInv, Step;
    if cs != [] {
      RunKeeps(d, cs[..|cs| - 1]);
      RunGrows(d, cs[..|cs| - 1]);
      StepGrows(Run(d, cs[..|cs| - 1]), cs[|cs| - 1]);
    }
  }

  /** Repeating a confirmation opens no second operation, whatever happened since, and it answers with the
      first one exactly while the owner has access and the brand a program and a branch. */
  lemma ConfirmIsReplayed(d: Desk, actor: nat, quote: nat, key: nat, now: int, cs: seq<Choice>, later: int)
    requires DeskInv(d) && ConfirmQuote(d, actor, quote, key, now).1.Opened?
    ensures var r := ConfirmQuote(d, actor, quote, key, now);
            var e := Run(r.0, cs);
            && ConfirmQuote(e, actor, quote, key, later).0 == e
            && (ConfirmQuote(e, actor, quote, key, later).1 == r.1 <==> e.owner && e.context.Ready?)
  {
    hide QuoteOf, Billable, Step, Run, Locked;
    ConfirmKeeps(d, actor, quote, key, now);
    var r := ConfirmQuote(d, actor, quote, key, now);
    OpenedHasKey(d, actor, quote, key, now);
    RunKeeps(r.0, cs);
    RunGrows(r.0, cs);
    var e := Run(r.0, cs);
    assert e.operations[r.1.operation].key == key && KeyTaken(e, key);
  }

  /** At once, because its answer was lost, it answers with it. */
  lemma ConfirmTwice(d: Desk, actor: nat, quote: nat, key: nat, now: int, later: int)
    requires DeskInv(d) && ConfirmQuote(d, actor, quote, key, now).1.Opened?
    ensures var r := ConfirmQuote(d, actor, quote, key, now); ConfirmQuote(r.0, actor, quote, key, later) == r
  {
    hide QuoteOf, Billable, Locked;
    ConfirmIsReplayed(d, actor, quote, key, now, [], later);
    OpenedHasAccess(d, actor, quote, key, now);
  }

  lemma OpenedHasAccess(d: Desk, actor: nat, quote: nat, key: nat, now: int)
    requires ConfirmQuote(d, actor, quote, key, now).1.Opened?
    ensures var e := ConfirmQuote(d, actor, quote, key, now).0; e.owner && e.context.Ready?
  {
  }

  lemma OpenedHasKey(d: Desk, actor: nat, quote: nat, key: nat, now: int)
    requires DeskInv(d) && ConfirmQuote(d, actor, quote, key, now).1.Opened?
    ensures var r := ConfirmQuote(d, actor, quote, key, now);
            && r.1.operation in r.0.operations && r.0.operations[r.1.operation].key == key && r.0.operations[r.1.operation].quote == quote
  {
    hide QuoteOf, Billable;
  }

  /** The world of an operation that was just confirmed. */
  function Opening(d: Desk, o: nat, plan: Plan, payments: seq<Payment>, reference: string): Machine
    requires DeskInv(d) && o in d.operations && d.row.Some?
  {
    var op, stored := d.operations[o], d.quotes[d.operations[o].quote];
    Machine(World(stored.quote, stored.snap, reference,
                  Op(op.status, NoCode, Pending, None, op.amount, 0, None, None, false, false), d.row.value, d.owner,
                      false, 0, plan, payments,
                  false, plan.amount, false, false, {}, {}), Idle)
  }

  /** Every confirmation of a new operation starts a run of the branch operation, so everything that module
      BranchSagaTheorems says of confirmed operations holds of it. */
  lemma ConfirmationStartsASaga(d: Desk, actor: nat, quote: nat, key: nat, now: int, plan: Plan, payments: seq<Payment>, reference: string)
    requires DeskInv(d) && !KeyTaken(d, key) && ConfirmQuote(d, actor, quote, key, now).1.Opened?
    requires Book(payments) && forall i | 0 <= i < |payments| :: payments[i].reference != reference
    ensures var r := ConfirmQuote(d, actor, quote, key, now);
            && DeskInv(r.0) && r.1.operation in r.0.operations && r.0.row.Some?
            && Confirmed(Opening(r.0, r.1.operation, plan, payments, reference))
            && now < r.0.quotes[quote].quote.expiry
  {
    ConfirmKeeps(d, actor, quote, key, now);
  }

  // ---------------------------------------------------------------------------
  // The rows
  // ---------------------------------------------------------------------------

  class BranchDesk {
    var row: Option<Row>
    var owner: bool
    var context: Context
    var quotes: map<nat, Stored>
    var operations: map<nat, Operation>
    var nextQuote: nat
    var nextOperation: nat

    constructor (row: Option<Row>, owner: bool, context: Context)
      ensures State() == EmptyDesk(row, owner, context)
    {
      this.row, this.owner, this.context := row, owner, context;
      quotes, operations, nextQuote, nextOperation := map[], map[], 0, 0;
    }

    ghost function State(): Desk
      reads this
    {
      Desk(row, owner, context, quotes, operations, nextQuote, nextOperation)
    }

    method LockBranchBilling() returns (snap: Option<Snapshot>, refusal: Reply)
      ensures (snap, refusal) == Locked(State())
    {
      if !owner {
        return None, Forbidden;
      }
      if row.None? {
        return None, SubscriptionChangeRequired;
      }
      var r := row.value;
      if !r.state.Authorized? || r.providerId == "" || r.unit < 0 || r.count < 1 || r.branches != r.count || r.monthly != r.unit * r.count {
        return None, QuoteChanged;
      }
      return Some(SnapshotOf(r)), Quoted(0);
    }

    method SaveBranchQuote(actor: nat, c: Clock) returns (reply: Reply)
      requires ClockRuns(c)
      modifies this`quotes, this`nextQuote
      ensures (State(), reply) == SaveQuote(old(State()), actor, c)
    {
      hide QuoteFor, Locked;
      var snap, refusal := LockBranchBilling();
      if snap.None? {
        return refusal;
      }
      var q := QuoteFor(snap.value, c);
      if q.Refusal? {
        return q.reply;
      }
      quotes := quotes[nextQuote := Stored(actor, q.quote, snap.value)];
      reply := Quoted(nextQuote);
      nextQuote := nextQuote + 1;
    }

    method ConfirmBranchQuote(actor: nat, quote: nat, key: nat, now: int) returns (reply: Reply)
      requires KeysDiffer(State())
      modifies this`operations, this`nextOperation
      ensures (State(), reply) == ConfirmQuote(old(State()), actor, quote, key, now)
    {
      hide Locked;
      if !owner || context.NoProgram? {
        return Forbidden;
      }
      if context.NoBranch? {
        return Invalid;
      }
      var taken := exists o :: o in operations && operations[o].key == key;
      if taken {
        var o :| o in operations && operations[o].key == key;
        return if operations[o].quote == quote then Opened(o) else IdempotencyConflict;
      }
      var snap, refusal := LockBranchBilling();
      if snap.None? {
        return refusal;
      }
      if quote !in quotes || quotes[quote].actor != actor {
        return NotFound;
      }
      var stored := quotes[quote];
      if now >= stored.quote.expiry {
        return Expired;
      }
      if snap.value != stored.snap {
        return QuoteChanged;
      }
      var busy := exists o :: o in operations && Active(operations[o].status);
      var used := exists o :: o in operations && operations[o].quote == quote;
      if busy || used {
        return InProgress;
      }
      var status := PaymentPending;
      if !stored.quote.paymentRequired {
        status := PlanUpdating;
      }
      operations := operations[nextOperation := Operation(quote, key, status, stored.quote.proration)];
      reply := Opened(nextOperation);
      nextOperation := nextOperation + 1;
    }
  }
}
