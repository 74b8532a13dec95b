/** What each loyalty transaction does, told from its request and the rows it found: when it is granted,
    what it answers otherwise, and which rows it changes. */
module LoyaltyEffects {
  import opened Common
  import opened Loyalty

  /** The column of a program, and the one of the other program. */
  function Column(c: Card, p: Program): int {
    match p
    case Stamps => c.stamps
    case Points => c.points
  }

  /** What a customer sees: nothing without an active card. */
  function Seen(b: Books, at: (nat, nat), p: Program): int {
    if at in b.cards && b.cards[at].active then Column(b.cards[at], p) else 0
  }

  // ---------------------------------------------------------------------------
  // Previews
  // ---------------------------------------------------------------------------

  /** What the request asks for makes sense in the program of the brand. */
  predicate WellAsked(r: PreviewRequest, p: Program) {
    if p == Points && r.operation == Earn then r.points.Some? && 1 <= r.points.value <= 100000 else r.points.None?
  }

  /** A redemption names a benefit that can be had, for no more than the customer has. */
  predicate Affordable(r: PreviewRequest, look: Lookup, balance: int) {
    r.operation == Redeem ==> r.benefit.Some? && look.cost.Some? && look.cost.value <= balance
  }

  predicate PreviewGranted(b: Books, r: PreviewRequest, look: Lookup) {
    && look.allowed && look.brand in b.programs && look.holder.Some?
    && WellAsked(r, b.programs[look.brand])
    && Affordable(r, look, Seen(b, (look.holder.value, look.brand), b.programs[look.brand]))
  }

  /** A preview is granted exactly to whoever works at the branch, for a code that belongs to somebody, when the
      request fits the program and the customer can afford it; a refusal changes nothing and says why. */
  lemma PreviewGrantedWhen(b: Books, r: PreviewRequest, look: Lookup)
    ensures CreatePreview(b, r, look).1.Quoted? <==> PreviewGranted(b, r, look)
    ensures !CreatePreview(b, r, look).1.Quoted? ==> CreatePreview(b, r, look).0 == b
    ensures !look.allowed || look.brand !in b.programs || look.holder.None? ==> CreatePreview(b, r, look).1 == Failed(NotFound)
    ensures look.allowed && look.brand in b.programs && look.holder.Some? && !WellAsked(r, b.programs[look.brand])
            ==> CreatePreview(b, r, look).1 == Failed(InvalidRequest)
    ensures look.allowed && look.brand in b.programs && look.holder.Some? && WellAsked(r, b.programs[look.brand])
            && !PreviewGranted(b, r, look)
            ==> CreatePreview(b, r, look).1
                == Failed(if r.benefit.None? then PreviewChanged else if look.cost.None? then NotFound else InsufficientBalance)
  {
  }

  /** A preview is for the points that were asked for, for the price of the benefit, or for one stamp; it shows what
      the customer has, is good for five minutes and for one use, and names who asked, where and whose code it was. */
  lemma PreviewIsFor(b: Books, r: PreviewRequest, look: Lookup)
    requires CreatePreview(b, r, look).1.Quoted?
    ensures var (after, reply) := CreatePreview(b, r, look);
            && look.holder.Some? && look.brand in b.programs && reply.preview in after.previews
            && var row, at, p := after.previews[reply.preview], (look.holder.value, look.brand), b.programs[look.brand];
               && row.actor == r.actor && row.branch == r.branch && row.qr == r.qr && row.operation == r.operation && row.benefit == r.benefit
               && row.brand == look.brand && row.customer == look.holder.value && row.program == p
               && row.before == Seen(b, at, p)
               && (r.operation == Redeem ==> Some(row.amount) == look.cost && row.amount <= row.before)
               && (r.operation == Earn && p == Points ==> Some(row.amount) == r.points && 1 <= row.amount <= 100000)
               && (r.operation == Earn && p == Stamps ==> row.amount == 1)
               && row.expires == look.now + 300 && !row.consumed
               && after == b.(previews := b.previews[reply.preview := row], nextPreview := b.nextPreview + 1)
  {
  }

  // ---------------------------------------------------------------------------
  // Confirmations
  // ---------------------------------------------------------------------------

  /** The request repeats what was previewed. */
  predicate SameTerms(p: Preview, r: Request) {
    p.actor == r.actor && p.branch == r.branch && p.operation == r.operation && p.qr == r.qr && p.benefit == r.benefit
  }

  /** The world is as it was when the preview was shown. */
  predicate StillStands(b: Books, p: Preview, look: Lookup) {
    var at := (p.customer, p.brand);
    && look.allowed && p.brand in b.programs && b.programs[p.brand] == p.program && look.holder == Some(p.customer)
    && (at in b.cards ==> b.cards[at].active && Column(b.cards[at], p.program) == p.before)
    && (at !in b.cards ==> p.operation == Earn && p.before == 0)
    && (p.operation == Redeem ==> look.cost.Some? && look.cost.value == p.amount <= p.before)
  }

  predicate Confirmable(b: Books, r: Request, look: Lookup) {
    && r.preview in b.previews && SameTerms(b.previews[r.preview], r)
    && !b.previews[r.preview].consumed && look.now < b.previews[r.preview].expires
    && StillStands(b, b.previews[r.preview], look)
  }

  /** A movement is confirmed exactly under a free key, by the member, at the branch and with the code, the operation
      and the benefit of an unused preview that has not expired, while balance, program, card and price are those
      of the preview. Everything else is refused and changes nothing. */
  lemma ConfirmedWhen(b: Books, r: Request, look: Lookup)
    ensures Confirm(b, r, look).1.Fresh? <==> r.key !in b.keys && Confirmable(b, r, look)
    ensures !Confirm(b, r, look).1.Fresh? ==> Confirm(b, r, look).0 == b && (Confirm(b, r, look).1.Failed? || r.key in b.keys)
  {
    if r.preview in b.previews { assert Balance(CardFor(b, (0, 0)), Stamps) == Column(CardFor(b, (0, 0)), Stamps); }
  }

  /** Why an unclaimed request is refused, the first reason that applies. */
  lemma RefusedBecause(b: Books, r: Request, look: Lookup)
    requires r.key !in b.keys
    ensures r.preview !in b.previews ==> Confirm(b, r, look).1 == Failed(NotFound)
    ensures r.preview in b.previews && !SameTerms(b.previews[r.preview], r) ==> Confirm(b, r, look).1 == Failed(PreviewChanged)
    ensures r.preview in b.previews && SameTerms(b.previews[r.preview], r) && b.previews[r.preview].consumed
            ==> Confirm(b, r, look).1 == Failed(PreviewConsumed)
    ensures r.preview in b.previews && SameTerms(b.previews[r.preview], r) && !b.previews[r.preview].consumed
            && b.previews[r.preview].expires <= look.now
            ==> Confirm(b, r, look).1 == Failed(PreviewExpired)
  {
  }

  /** The answer to a taken key depends on its row alone. */
  lemma TakenKeyAnswers(b: Books, r: Request, look: Lookup)
    requires r.key in b.keys
    ensures var row := b.keys[r.key];
            var mine := row.scope == User(r.actor) && row.operation == r.operation && row.fingerprint == r.fingerprint;
            && Confirm(b, r, look).0 == b
            && (Confirm(b, r, look).1 == Replayed(row.body) <==> mine && row.completed)
            && (Confirm(b, r, look).1 == Failed(IdempotencyInProgress) <==> mine && !row.completed)
            && (Confirm(b, r, look).1 == Failed(IdempotencyConflict) <==> !mine)
  {
  }

  function Change(p: Preview): int {
    match p.operation
    case Earn => p.amount
    case Redeem => -p.amount
  }

  /** A confirmation moves one column of one card by the previewed amount, up or down, writes one movement with the
      balances before and after, uses the preview up and completes the key; all other rows stay. */
  lemma ConfirmMoves(b: Books, r: Request, look: Lookup)
    requires Confirm(b, r, look).1.Fresh?
    ensures r.preview in b.previews
    ensures var c, p := Confirm(b, r, look).0, b.previews[r.preview];
            var at := (p.customer, p.brand);
            && at in c.cards
            && (at in b.cards ==> c.cards[at].id == b.cards[at].id)
            && Column(c.cards[at], p.program) == p.before + Change(p)
            && (forall q | q != p.program :: Column(c.cards[at], q) == if at in b.cards then Column(b.cards[at], q) else 0)
            && c.cards[at].active
            && (forall other | other != at :: (other in c.cards <==> other in b.cards) && (other in b.cards ==> c.cards[other] == b.cards[other]))
            && c.movements == b.movements + [Movement(b.nextMovement, c.cards[at].id, p.customer, p.brand, r.preview, p.operation, p.program,
                                                      p.amount, p.before, p.before + Change(p))]
            && c.previews == b.previews[r.preview := p.(consumed := true)]
            && c.keys == b.keys[r.key := KeyRow(User(r.actor), r.operation, r.fingerprint, true, look.databaseNow, Confirmed(b.nextMovement))]
            && c.reversals == b.reversals && c.programs == b.programs && c.versions == b.versions
            && Confirm(b, r, look).1.body == Confirmed(b.nextMovement) && c.nextMovement == b.nextMovement + 1
  {
    ConfirmedWhen(b, r, look);
    var p := b.previews[r.preview];
    assert Signed(p.operation, p.amount) == Change(p);
  }

  /** The two steps of a visit together: whoever asked for a preview and confirms it within five minutes, with the
      same code and nothing changed in between, moves the balance the customer saw by what was asked, unless the card
      was closed. For a visit in a stamp program that is one stamp. */
  lemma VisitCounts(b: Books, r: PreviewRequest, look: Lookup, key: nat, fingerprint: nat, later: Lookup)
    requires CreatePreview(b, r, look).1.Quoted? && key !in b.keys
    requires later.allowed && later.holder == look.holder && later.cost == look.cost && later.now < look.now + 300
    ensures look.holder.Some? && look.brand in b.programs
    ensures var (shown, reply) := CreatePreview(b, r, look);
            var done := Confirm(shown, Request(r.actor, key, fingerprint, reply.preview, r.qr, r.branch, r.benefit, r.operation), later);
            var at, p := (look.holder.value, look.brand), b.programs[look.brand];
            && (done.1.Fresh? <==> at in b.cards ==> b.cards[at].active)
            && (done.1.Fresh? ==> Seen(done.0, at, p) == Seen(b, at, p)
                                  + (if r.operation == Redeem then 0 - look.cost.value else if p == Points then r.points.value else 1))
  {
    PreviewIsFor(b, r, look);
    PreviewGrantedWhen(b, r, look);
    var (shown, reply) := CreatePreview(b, r, look);
    var again := Request(r.actor, key, fingerprint, reply.preview, r.qr, r.branch, r.benefit, r.operation);
    ConfirmedWhen(shown, again, later);
    if Confirm(shown, again, later).1.Fresh? { ConfirmMoves(shown, again, later); }
  }

  // ---------------------------------------------------------------------------
  // Reversals
  // ---------------------------------------------------------------------------

  predicate Reversible(b: Books, brand: nat, movement: nat, allowed: bool) {
    exists k :: && 0 <= k < |b.movements| && b.movements[k].id == movement && b.movements[k].brand == brand && allowed
                && (b.movements[k].customer, brand) in b.cards
                && b.cards[(b.movements[k].customer, brand)].id == b.movements[k].card
                && b.cards[(b.movements[k].customer, brand)].active
                && (movement in b.reversals || b.movements[k].operation == Redeem
                    || b.movements[k].amount <= Column(b.cards[(b.movements[k].customer, brand)], b.movements[k].program))
  }

  /** A movement is reversed exactly for a member of its own brand, while its card is open and still has what was
      earned; a refusal changes nothing and is an overdraft or not found. */
  lemma ReversedWhen(b: Books, brand: nat, movement: nat, allowed: bool)
    requires Inv(b)
    ensures Reverse(b, brand, movement, allowed).1.Reversed? <==> Reversible(b, brand, movement, allowed)
    ensures !Reverse(b, brand, movement, allowed).1.Reversed?
            ==> || Reverse(b, brand, movement, allowed) == (b, Failed(NotFound))
                || Reverse(b, brand, movement, allowed) == (b, Failed(InsufficientBalance))
  {
    hide BalancesSound, CardsSound, PreviewsSound, KeysSound, Linked;
    var k := Position(b.movements, movement);
    forall j | 0 <= j < |b.movements| && b.movements[j].id == movement ensures j == k {}
    if k < |b.movements| { assert b.movements[k].id == movement; }
  }

  /** The answer of a reversal tells the balance it found and left, and a reversal is stored under its movement. */
  lemma ReversalAnswers(b: Books, brand: nat, movement: nat, allowed: bool)
    requires Reverse(b, brand, movement, allowed).1.Reversed?
    ensures var (c, reply) := Reverse(b, brand, movement, allowed);
            && movement in c.reversals && reply == Reversed(c.reversals[movement])
            && (movement in b.reversals ==> c == b)
            && (movement !in b.reversals ==>
                  exists k :: && 0 <= k < |b.movements| && b.movements[k].id == movement
                              && var m := b.movements[k];
                                 && (m.customer, m.brand) in b.cards && (m.customer, m.brand) in c.cards
                                 && reply.reversal.before == Column(b.cards[(m.customer, m.brand)], m.program)
                                 && reply.reversal.after == Column(c.cards[(m.customer, m.brand)], m.program)
                                 && reply.reversal.after == reply.reversal.before + (if m.operation == Earn then -m.amount else m.amount))
            && c.movements == b.movements && c.previews == b.previews && c.keys == b.keys && c.programs == b.programs
  {
    var k := Position(b.movements, movement);
    assert b.movements[k].id == movement;
  }

  // ---------------------------------------------------------------------------
  // Retention and account deletion
  // ---------------------------------------------------------------------------

  /** Retention never touches what can still be used: as long as its cutoff is not in the future, every request that
      could be confirmed still can, with the same rows written. */
  lemma RetentionSparesLive(b: Books, r: Request, look: Lookup, expired: set<nat>, cutoff: int, aged: set<nat>, keyCutoff: int)
    requires Confirm(b, r, look).1.Fresh? && cutoff <= look.now
    ensures var c := Retain(b, expired, cutoff, aged, keyCutoff);
            && Confirm(c, r, look).1 == Confirm(b, r, look).1
            && Confirm(c, r, look).0.cards == Confirm(b, r, look).0.cards && Confirm(c, r, look).0.movements == Confirm(b, r, look).0.movements
  {
    var c := Retain(b, expired, cutoff, aged, keyCutoff);
    ConfirmedWhen(b, r, look);
    ConfirmedWhen(c, r, look);
    assert r.preview in c.previews && c.previews[r.preview] == b.previews[r.preview];
  }

  /** Of the batch it deletes exactly the previews that expired and the keys that were completed before the cutoffs. */
  lemma RetentionDeletes(b: Books, expired: set<nat>, cutoff: int, aged: set<nat>, keyCutoff: int)
    ensures var c := Retain(b, expired, cutoff, aged, keyCutoff);
            && c.previews.Keys == b.previews.Keys - (set i | i in expired && i in b.previews && b.previews[i].expires < cutoff)
            && c.keys.Keys == b.keys.Keys - (set k | k in aged && k in b.keys && b.keys[k].completed && b.keys[k].completedAt < keyCutoff)
            && (forall i | i in c.previews :: c.previews[i] == b.previews[i]) && (forall k | k in c.keys :: c.keys[k] == b.keys[k])
            && c == b.(previews := c.previews, keys := c.keys)
  {
  }

  /** No card, movement, reversal or preview of a deleted account is left, and the cards of brands that close with it
      are closed. */
  lemma DeletionErases(b: Books, user: nat, closed: set<nat>, deletedAt: int)
    ensures var c := Anonymize(b, user, closed, deletedAt);
            && (forall at | at in c.cards :: at.0 != user && at in b.cards && (at.1 in closed ==> !c.cards[at].active))
            && (forall m | m in c.movements :: m.customer != user)
            && (forall i | i in c.previews :: c.previews[i].customer != user && c.previews[i].actor != user)
            && (forall i, m | i in c.reversals && m in b.movements && m.customer == user :: m.id != i)
  {
    hide KeysLeft;
    var c := Anonymize(b, user, closed, deletedAt);
    forall m | m in c.movements ensures m.customer != user { OthersMembers(b.movements, user, m); }
    forall i, m | i in c.reversals && m in b.movements && m.customer == user ensures m.id != i {
      var j :| 0 <= j < |b.movements| && b.movements[j] == m;
    }
  }

  /** No key is left in its name, those it had are blank, and no stored answer tells one of its movements. */
  lemma DeletionBlanksKeys(b: Books, user: nat, closed: set<nat>, deletedAt: int, k: nat)
    requires k in b.keys
    ensures var c := Anonymize(b, user, closed, deletedAt);
            && k in c.keys && c.keys[k].scope != User(user)
            && (b.keys[k].scope == User(user) ==> c.keys[k].scope == Deleted(user) && c.keys[k].fingerprint == 0 && c.keys[k].body == Blank)
            && (forall m | m in b.movements && m.customer == user :: c.keys[k].body != Confirmed(m.id))
  {
    hide CardsLeft, ReversalsLeft, PreviewsLeft, Others;
    var c := Anonymize(b, user, closed, deletedAt);
    forall m | m in b.movements && m.customer == user ensures c.keys[k].body != Confirmed(m.id) {
      var i :| 0 <= i < |b.movements| && b.movements[i] == m;
      assert Owns(b.movements, user, m.id);
    }
  }

  /** Everybody else's rows are left as they are, but for the cards of closing brands and their unused previews, which end. */
  lemma DeletionLeaves(b: Books, user: nat, closed: set<nat>, deletedAt: int)
    requires Inv(b)
    ensures var c := Anonymize(b, user, closed, deletedAt);
            && (forall at | at in b.cards && at.0 != user ::
                  at in c.cards && c.cards[at] == b.cards[at].(active := b.cards[at].active && at.1 !in closed))
            && (forall m | m in b.movements && m.customer != user :: m in c.movements)
            && (forall i | i in b.previews && b.previews[i].customer != user && b.previews[i].actor != user ::
                  && i in c.previews && c.previews[i] == b.previews[i].(expires := c.previews[i].expires)
                  && c.previews[i].expires <= b.previews[i].expires
                  && (b.previews[i].brand in closed && !b.previews[i].consumed ==> c.previews[i].expires <= deletedAt)
                  && (b.previews[i].brand !in closed || b.previews[i].consumed ==> c.previews[i] == b.previews[i]))
            && c.keys.Keys == b.keys.Keys
            && (forall k | k in b.keys && b.keys[k].scope != User(user) && !Owned(b, user, b.keys[k].body) :: c.keys[k] == b.keys[k])
            && c.programs == b.programs && c.versions == b.versions && c.log == b.log
  {
    var c := Anonymize(b, user, closed, deletedAt);
    forall m | m in b.movements && m.customer != user ensures m in c.movements { OthersMembers(b.movements, user, m); }
    forall id | Owns(b.movements, user, id) ensures Owned(b, user, Confirmed(id)) { OwnedMovement(b, user, id); }
  }

  lemma OwnedMovement(b: Books, user: nat, id: nat)
    requires Owns(b.movements, user, id)
    ensures Owned(b, user, Confirmed(id))
  {
    var i :| 0 <= i < |b.movements| && b.movements[i].id == id && b.movements[i].customer == user;
    assert b.movements[i] in b.movements;
  }

  predicate Owned(b: Books, user: nat, body: Body) {
    exists m :: m in b.movements && m.customer == user && body == Confirmed(m.id)
  }

  // ---------------------------------------------------------------------------
  // Programs
  // ---------------------------------------------------------------------------

  /** A program is updated exactly by a member who manages the brand, with the current version, and to another type
      only without a subscription, a movement or a benefit. */
  lemma UpdatedWhen(b: Books, brand: nat, version: nat, kind: Program, manages: bool, subscribed: bool, hasBenefits: bool)
    ensures var (c, reply) := UpdateProgram(b, brand, version, kind, manages, subscribed, hasBenefits);
            && (reply.Changed? <==>
                  && brand in b.programs && manages && VersionOf(b, brand) == version
                  && (kind != b.programs[brand] ==> !subscribed && !hasBenefits && forall m | m in b.movements :: m.brand != brand))
            && (reply.Changed? ==> && brand in c.programs && c.programs[brand] == kind && VersionOf(c, brand) == version + 1
                                   && (forall other | other != brand :: VersionOf(c, other) == VersionOf(b, other))
                                   && c == b.(programs := b.programs[brand := kind], versions := c.versions))
            && (!reply.Changed? ==> c == b)
            && (brand !in b.programs <==> reply == Failed(NotFound))
            && (brand in b.programs && !manages ==> reply == Failed(Forbidden))
            && (brand in b.programs && manages && kind == b.programs[brand] && VersionOf(b, brand) != version ==> reply == Failed(PreconditionFailed))
  {
    if brand in b.programs && !Moved(b.movements, brand) {
      forall m | m in b.movements ensures m.brand != brand { var i :| 0 <= i < |b.movements| && b.movements[i] == m; }
    }
  }
}
