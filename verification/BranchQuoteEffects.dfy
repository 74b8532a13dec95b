/** What a quote says and when it is given, what a confirmation opens and when, told from the subscription row, the
    calendar and the stored rows. */
module BranchQuoteEffects {
  import opened Common
  import opened BranchSaga
  import opened BranchQuotes
  import opened Calendar

  // ---------------------------------------------------------------------------
  // Days
  // ---------------------------------------------------------------------------

  function AddDays(d: Date, n: nat): (r: Date)
    requires Valid(d)
    ensures Valid(r)
  {
    if n == 0 then d else NextDay(AddDays(d, n - 1))
  }

  lemma {:induction false} AddDaysCounts(d: Date, n: nat)
    requires Valid(d)
    ensures DayNumber(AddDays(d, n)) == DayNumber(d) + n
  {
    hide DayNumber, NextDay;
    if n > 0 {
      AddDaysCounts(d, n - 1);
      NextDayNumber(AddDays(d, n - 1));
    }
  }

  lemma DaysApart(a: Date, b: Date, n: nat)
    requires Valid(a) && Valid(b) && Distance(a, b) == n
    ensures AddDays(a, n) == b
  {
    hide DayNumber, AddDays;
    AddDaysCounts(a, n);
    NumbersKeepOrder(AddDays(a, n), b);
  }

  /** The days a quote charges for: from today it is so many days to the end of the cycle, which is the renewal date or,
      on that date itself, the next one; and from the date a month before it is so many days in all. */
  lemma QuoteCoversTheRest(start: Date, next: Date, unit: int, onTrial: bool, anchor: int)
    requires Valid(start) && Valid(next) && Prorate(start, next, unit, onTrial, anchor).Prorated?
    ensures var r := Prorate(start, next, unit, onTrial, anchor);
            && r.remaining >= 1 && r.days >= 28 && Valid(AnchoredMonth(r.end, -1, anchor))
            && r.end == (if start == next then AnchoredMonth(next, 1, anchor) else next)
            && AddDays(start, r.remaining) == r.end
            && AddDays(AnchoredMonth(r.end, -1, anchor), r.days) == r.end
  {
    hide DayNumber, NearestShare, AddDays;
    var r := Prorate(start, next, unit, onTrial, anchor);
    RemainingDays(start, next, unit, onTrial, anchor);
    AnchoredIsValid(next, 1, anchor);
    AnchoredIsValid(r.end, -1, anchor);
    DaysApart(start, r.end, r.remaining);
    DaysApart(AnchoredMonth(r.end, -1, anchor), r.end, r.days);
  }

  // ---------------------------------------------------------------------------
  // Quotes
  // ---------------------------------------------------------------------------

  /** The subscription is live, at the provider, and its quantity, amount and branches agree. */
  predicate TakesBranches(row: Row) {
    && row.state == Authorized && row.providerId != "" && row.unit >= 0 && row.count >= 1
    && row.branches == row.count && row.monthly == row.unit * row.count
  }

  /** A quote is given exactly to an owner, for a subscription that takes another branch, on dates the calendar accepts,
      when the new amount fits; a refusal stores nothing and says why. */
  lemma QuotedWhen(d: Desk, actor: nat, c: Clock)
    requires ClockRuns(c)
    ensures var (e, reply) := SaveQuote(d, actor, c);
            && (reply.Quoted? <==>
                  && d.owner && d.row.Some? && TakesBranches(d.row.value)
                  && Prorate(c.today, c.renewal, d.row.value.unit, c.onTrial, d.row.value.anchor).Prorated?
                  && d.row.value.monthly + d.row.value.unit <= 0x7FFF_FFFF_FFFF_FFFF)
            && (!reply.Quoted? ==> e == d)
            && (reply.Forbidden? <==> !d.owner)
            && (reply.SubscriptionChangeRequired? <==> d.owner && d.row.None?)
            && (reply.Invalid? <==> && d.owner && d.row.Some? && TakesBranches(d.row.value)
                                    && Prorate(c.today, c.renewal, d.row.value.unit, c.onTrial, d.row.value.anchor).Prorated?
                                    && d.row.value.monthly + d.row.value.unit > 0x7FFF_FFFF_FFFF_FFFF)
  {
    hide Prorate;
  }

  /** What the stored quote says: outside the trial the share of one branch for the rest of the cycle, to the nearest
      cent, and nothing in the trial; a payment exactly when that is not nothing; the monthly amount of one branch more;
      and an end after ten minutes or at midnight, whichever comes first. It names its member and its subscription. */
  lemma QuoteSays(d: Desk, actor: nat, c: Clock)
    requires ClockRuns(c) && SaveQuote(d, actor, c).1.Quoted?
    ensures d.row.Some?
    ensures var (e, reply) := SaveQuote(d, actor, c);
            && reply.quote in e.quotes && reply.quote == d.nextQuote && e == d.(quotes := d.quotes[reply.quote := e.quotes[reply.quote]],
                nextQuote := d.nextQuote + 1)
            && var row, stored := d.row.value, e.quotes[reply.quote];
               var r, q := Prorate(c.today, c.renewal, row.unit, false, row.anchor), stored.quote;
               && stored.actor == actor && stored.snap == SnapshotOf(row)
               && r.Prorated?
               && (!c.onTrial ==> -r.days <= 2 * (q.proration * r.days - row.unit * r.remaining) <= r.days && 0 <= q.proration <= row.unit)
               && (c.onTrial ==> q.proration == 0)
               && (q.paymentRequired <==> q.proration != 0)
               && q.newMonthly == row.monthly + row.unit == row.unit * (row.count + 1)
               && q.createdAt == c.now
               && q.expiry == (if c.now + 600 <= c.midnight then c.now + 600 else c.midnight)
  {
    hide Prorate;
    QuotedWhen(d, actor, c);
    var row := d.row.value;
    TrialChangesTheAmount(c.today, c.renewal, row.unit, row.anchor);
    QuoteIsFair(c.today, c.renewal, row.unit, false, row.anchor);
    QuoteIsFair(c.today, c.renewal, row.unit, true, row.anchor);
    assert row.unit * (row.count + 1) == row.unit * row.count + row.unit;
  }

  lemma TrialChangesTheAmount(start: Date, next: Date, unit: int, anchor: int)
    requires Valid(start) && Valid(next)
    ensures Prorate(start, next, unit, true, anchor).Prorated? <==> Prorate(start, next, unit, false, anchor).Prorated?
  {
    hide AnchoredMonth, Distance, NearestShare;
  }

  // ---------------------------------------------------------------------------
  // Confirmations
  // ---------------------------------------------------------------------------

  /** Nothing stands against opening an operation for the quote now. */
  predicate CanOpen(d: Desk, actor: nat, quote: nat, now: int) {
    && d.row.Some? && TakesBranches(d.row.value)
    && quote in d.quotes && d.quotes[quote].actor == actor
    && now < d.quotes[quote].quote.expiry && d.quotes[quote].snap == SnapshotOf(d.row.value)
    && forall o | o in d.operations :: !Active(d.operations[o].status) && d.operations[o].quote != quote
  }

  predicate HasAccess(d: Desk) {
    d.owner && d.context.Ready?
  }

  /** Under a free key an operation is opened exactly for an owner of a brand with program and branch, over the member's
      own quote, before it ends, while the subscription is the quoted one, no operation is active and the quote is unused. */
  lemma OpenedWhen(d: Desk, actor: nat, quote: nat, key: nat, now: int)
    requires !KeyTaken(d, key)
    ensures var (e, reply) := ConfirmQuote(d, actor, quote, key, now);
            && (reply.Opened? <==> HasAccess(d) && CanOpen(d, actor, quote, now))
            && (!reply.Opened? ==> e == d)
            && (reply.Opened? ==> reply.operation == d.nextOperation && reply.operation in e.operations
                                  && e == d.(operations := d.operations[reply.operation := e.operations[reply.operation]],
                                             nextOperation := d.nextOperation + 1))
  {
    if o :| o in d.operations && Active(d.operations[o].status) { assert Busy(d); }
    if o :| o in d.operations && d.operations[o].quote == quote { assert Used(d, quote); }
  }

  /** The operation asks for the quoted amount, and waits for it exactly when it is not nothing. */
  lemma OpenedSays(d: Desk, actor: nat, quote: nat, key: nat, now: int)
    requires !KeyTaken(d, key) && ConfirmQuote(d, actor, quote, key, now).1.Opened?
    ensures quote in d.quotes
    ensures var (e, reply) := ConfirmQuote(d, actor, quote, key, now);
            && reply.operation in e.operations
            && e.operations[reply.operation] == Operation(quote, key, if d.quotes[quote].quote.paymentRequired then PaymentPending else PlanUpdating,
                                                          d.quotes[quote].quote.proration)
  {
  }

  /** Why an owner's confirmation under a free key is refused, the first reason that applies. */
  lemma OpeningRefusedBecause(d: Desk, actor: nat, quote: nat, key: nat, now: int)
    requires !KeyTaken(d, key) && HasAccess(d) && d.row.Some? && TakesBranches(d.row.value)
    ensures var reply := ConfirmQuote(d, actor, quote, key, now).1;
            && (quote !in d.quotes || d.quotes[quote].actor != actor <==> reply.NotFound?)
            && (quote in d.quotes && d.quotes[quote].actor == actor ==>
                  && (reply.Expired? <==> d.quotes[quote].quote.expiry <= now)
                  && (reply.QuoteChanged? <==> now < d.quotes[quote].quote.expiry && d.quotes[quote].snap != SnapshotOf(d.row.value))
                  && (reply.InProgress? <==> now < d.quotes[quote].quote.expiry && d.quotes[quote].snap == SnapshotOf(d.row.value)
                                             && !CanOpen(d, actor, quote, now)))
  {
    if o :| o in d.operations && Active(d.operations[o].status) { assert Busy(d); }
    if o :| o in d.operations && d.operations[o].quote == quote { assert Used(d, quote); }
  }

  /** A key that was used answers with its operation for the same quote, and with a conflict for another. */
  lemma UsedKeyAnswers(d: Desk, actor: nat, quote: nat, key: nat, now: int, o: nat)
    requires DeskInv(d) && HasAccess(d) && o in d.operations && d.operations[o].key == key
    ensures ConfirmQuote(d, actor, quote, key, now) == (d, if d.operations[o].quote == quote then Opened(o) else IdempotencyConflict)
  {
    hide QuoteOf;
    assert KeyTaken(d, key);
  }

  /** Quoting and confirming together: what was quoted and is confirmed in time, with nothing changed and nothing under way,
      opens an operation; outside the trial it waits for the share of one branch for the rest of the cycle, to the nearest
      cent, and needs no payment only when that is nothing. */
  lemma QuotedAdditionOpens(d: Desk, actor: nat, c: Clock, key: nat, now: int)
    requires DeskInv(d) && ClockRuns(c) && SaveQuote(d, actor, c).1.Quoted? && HasAccess(d) && !KeyTaken(d, key)
    requires forall o | o in d.operations :: !Active(d.operations[o].status)
    requires now < c.midnight && now < c.now + 600
    ensures d.row.Some?
    ensures var (e, q) := SaveQuote(d, actor, c);
            var (f, reply) := ConfirmQuote(e, actor, q.quote, key, now);
            var row := d.row.value;
            var r := Prorate(c.today, c.renewal, row.unit, false, row.anchor);
            && reply.Opened? && reply.operation in f.operations && r.Prorated?
            && var op := f.operations[reply.operation];
               && op.status == (if op.amount == 0 then PlanUpdating else PaymentPending)
               && (c.onTrial ==> op.amount == 0)
               && (!c.onTrial ==> -r.days <= 2 * (op.amount * r.days - row.unit * r.remaining) <= r.days)
  {
    hide Prorate, SaveQuote, ConfirmQuote;
    QuoteSays(d, actor, c);
    QuotedWhen(d, actor, c);
    var e, q := SaveQuote(d, actor, c).0, SaveQuote(d, actor, c).1;
    assert !KeyTaken(e, key);
    QuoteIsNew(d, q.quote);
    OpenedWhen(e, actor, q.quote, key, now);
    OpenedSays(e, actor, q.quote, key, now);
  }

  lemma QuoteIsNew(d: Desk, quote: nat)
    requires DeskInv(d) && quote == d.nextQuote
    ensures forall o | o in d.operations :: d.operations[o].quote != quote
  {
    hide QuoteOf;
  }
}
