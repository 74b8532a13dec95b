/** The loyalty ledger: previews, confirmed movements, reversals, idempotency keys, retention, account
    deletion and program changes. Every transaction is serializable or holds the rows it reads, so a
    run is a sequence of transactions; one that aborts leaves no trace. */
module Loyalty {
  import opened Common

  datatype Program = Stamps | Points
  datatype Operation = Earn | Redeem

  datatype Card = Card(id: nat, stamps: int, points: int, active: bool)

  datatype Movement = Movement(id: nat, card: nat, customer: nat, brand: nat, preview: nat, operation: Operation,
                               program: Program, amount: int, before: int, after: int)

  datatype Reversal = Reversal(before: int, after: int)

  datatype Preview = Preview(actor: nat, branch: nat, brand: nat, customer: nat, operation: Operation, program: Program,
                             benefit: Option<nat>, qr: nat, before: int, amount: int, expires: int, consumed: bool)

  /** The response of a confirmed movement names it; account deletion blanks it. */
  datatype Body = Blank | Confirmed(movement: nat)

  /** A scope is the actor of the request, or a deleted actor. */
  datatype Scope = User(id: nat) | Deleted(id: nat)

  datatype KeyRow = KeyRow(scope: Scope, operation: Operation, fingerprint: nat, completed: bool, completedAt: int, body: Body)

  /** One change of a balance, in the order of the commits; it outlives the rows and is never read. */
  datatype Entry = Entry(card: nat, program: Program, before: int, after: int, preview: Option<nat>)

  /** Cards are unique per customer and brand, reversals per movement. */
  datatype Books = Books(cards: map<(nat, nat), Card>, movements: seq<Movement>, reversals: map<nat, Reversal>,
                         previews: map<nat, Preview>, keys: map<nat, KeyRow>, programs: map<nat, Program>, versions: map<nat, nat>,
                         nextCard: nat, nextMovement: nat, nextPreview: nat, log: seq<Entry>)

  datatype Error = NotFound | PreviewChanged | PreviewConsumed | PreviewExpired | InsufficientBalance | InvalidRequest
                 | Forbidden | PreconditionFailed | IdempotencyConflict | IdempotencyInProgress | ProgramImmutable
                 | SubscriptionActive | ProgramHasBenefits

  datatype Reply = Failed(error: Error) | Fresh(body: Body) | Replayed(body: Body) | Reversed(reversal: Reversal)
                 | Quoted(preview: nat) | Changed

  function Balance(c: Card, p: Program): int {
    if p.Points? then c.points else c.stamps
  }

  function WithBalance(c: Card, p: Program, value: int): Card {
    if p.Points? then c.(points := value) else c.(stamps := value)
  }

  // ---------------------------------------------------------------------------
  // Preview
  // ---------------------------------------------------------------------------

  /** The table allows no benefit that costs nothing. */
  type Requirement = n: int | 1 <= n <= 10000000 witness 1

  /** What the joins of a request answer: whether the actor may work at the branch, its brand, the
      holder of the scanned code and the price of the benefit; and the clocks of the service and of the database. */
  datatype Lookup = Lookup(now: int, databaseNow: int, allowed: bool, brand: nat, holder: Option<nat>, cost: Option<Requirement>)

  datatype PreviewRequest = PreviewRequest(actor: nat, branch: nat, operation: Operation, points: Option<int>,
                                           benefit: Option<nat>, qr: nat)

  /** Balance of an active card; a customer without one starts at zero. */
  function Shown(b: Books, customer: nat, brand: nat, p: Program): int {
    if (customer, brand) in b.cards && b.cards[(customer, brand)].active then Balance(b.cards[(customer, brand)], p) else 0
  }

  /** The amount a preview is for, or why there is none. */
  function Priced(b: Books, r: PreviewRequest, look: Lookup, customer: nat, p: Program): Result {
    if p.Points? && r.operation.Earn? then
      if r.points.None? || r.points.value < 1 || r.points.value > 100000 then Refuse(InvalidRequest) else Amount(r.points.value)
    else if r.points.Some? then Refuse(InvalidRequest)
    else if r.operation.Redeem? then
      if r.benefit.None? then Refuse(PreviewChanged)
      else if look.cost.None? then Refuse(NotFound)
      else if Shown(b, customer, look.brand, p) < look.cost.value then Refuse(InsufficientBalance)
      else Amount(look.cost.value)
    else Amount(1)
  }

  datatype Result = Amount(value: int) | Refuse(error: Error)

  function CreatePreview(b: Books, r: PreviewRequest, look: Lookup): (Books, Reply) {
    if !look.allowed || look.brand !in b.programs || look.holder.None? then (b, Failed(NotFound))
    else
      var customer, p := look.holder.value, b.programs[look.brand];
      match Priced(b, r, look, customer, p)
      case Refuse(e) => (b, Failed(e))
      case Amount(amount) =>
        var row := Preview(r.actor, r.branch, look.brand, customer, r.operation, p, r.benefit, r.qr,
                           Shown(b, customer, look.brand, p), amount, look.now + 300, false);
        (b.(previews := b.previews[b.nextPreview := row], nextPreview := b.nextPreview + 1), Quoted(b.nextPreview))
  }

  // ---------------------------------------------------------------------------
  // Confirm
  // ---------------------------------------------------------------------------

  datatype Request = Request(actor: nat, key: nat, fingerprint: nat, preview: nat, qr: nat, branch: nat,
                             benefit: Option<nat>, operation: Operation)

  /** Answer of an idempotency key that is already taken, or none when this request claims it. */
  function Claim(b: Books, r: Request): Option<Reply> {
    if r.key !in b.keys then None
    else
      var row := b.keys[r.key];
      if row.scope != User(r.actor) || row.operation != r.operation || row.fingerprint != r.fingerprint then
          Some(Failed(IdempotencyConflict))
      else if !row.completed then Some(Failed(IdempotencyInProgress))
      else Some(Replayed(row.body))
  }

  /** First reason not to confirm a preview, in the order the checks are made. */
  function Objection(b: Books, r: Request, look: Lookup): Option<Error> {
    if r.preview !in b.previews then Some(NotFound)
    else
      var p := b.previews[r.preview];
      if p.actor != r.actor || p.branch != r.branch || p.operation != r.operation || p.qr != r.qr || p.benefit != r.benefit then
        Some(PreviewChanged)
      else if p.consumed then Some(PreviewConsumed)
      else if p.expires <= look.now then Some(PreviewExpired)
      else if !look.allowed || p.brand !in b.programs then Some(NotFound)
      else if b.programs[p.brand] != p.program then Some(PreviewChanged)
      else if look.holder.None? then Some(NotFound)
      else if look.holder.value != p.customer then Some(PreviewChanged)
      else CardObjection(b, p, look)
  }

  /** Earning creates a missing card, so an empty balance is compared. */
  function CardObjection(b: Books, p: Preview, look: Lookup): Option<Error> {
    var at := (p.customer, p.brand);
    if at in b.cards && !b.cards[at].active then Some(InsufficientBalance)
    else if at !in b.cards && p.operation.Redeem? then Some(InsufficientBalance)
    else
      var balance := if at in b.cards then Balance(b.cards[at], p.program) else 0;
      if p.operation.Redeem? && look.cost.None? then Some(NotFound)
      else if p.operation.Redeem? && look.cost.value != p.amount then Some(PreviewChanged)
      else if balance != p.before then Some(PreviewChanged)
      else if p.operation.Redeem? && balance < p.amount then Some(InsufficientBalance)
      else None
  }

  function Signed(operation: Operation, amount: int): int {
    if operation.Earn? then amount else -amount
  }

  function CardFor(b: Books, at: (nat, nat)): Card {
    if at in b.cards then b.cards[at] else Card(b.nextCard, 0, 0, true)
  }

  /** The rows a confirmed movement writes. */
  function Recorded(b: Books, r: Request, p: Preview, at: int): Books {
    var holder := (p.customer, p.brand);
    var card := CardFor(b, holder);
    var after := p.before + Signed(p.operation, p.amount);
    var m := Movement(b.nextMovement, card.id, p.customer, p.brand, r.preview, p.operation, p.program, p.amount, p.before, after);
    b.(cards := b.cards[holder := WithBalance(card, p.program, after)],
       movements := b.movements + [m],
       previews := b.previews[r.preview := p.(consumed := true)],
       keys := b.keys[r.key := KeyRow(User(r.actor), r.operation, r.fingerprint, true, at, Confirmed(b.nextMovement))],
       nextCard := if holder in b.cards then b.nextCard else b.nextCard + 1,
       nextMovement := b.nextMovement + 1,
       log := b.log + [Entry(card.id, p.program, p.before, after, Some(r.preview))])
  }

  function Confirm(b: Books, r: Request, look: Lookup): (Books, Reply) {
    var claimed := Claim(b, r);
    var objection := Objection(b, r, look);
    if claimed.Some? then (b, claimed.value)
    else if objection.Some? then (b, Failed(objection.value))
    else (Recorded(b, r, b.previews[r.preview], look.databaseNow), Fresh(Confirmed(b.nextMovement)))
  }

  // ---------------------------------------------------------------------------
  // Reverse
  // ---------------------------------------------------------------------------

  /** Position of a movement, or the number of movements. */
  function Position(ms: seq<Movement>, id: nat): (k: nat)
    ensures k <= |ms| && (k < |ms| ==> ms[k].id == id) && forall i | 0 <= i < k :: ms[i].id != id
  {
    if ms == [] || ms[0].id == id then 0 else 1 + Position(ms[1..], id)
  }

  function Reverse(b: Books, brand: nat, movement: nat, allowed: bool): (Books, Reply) {
    var k := Position(b.movements, movement);
    if k == |b.movements| || b.movements[k].brand != brand || !allowed then (b, Failed(NotFound))
    else
      var m := b.movements[k];
      var at := (m.customer, m.brand);
      if at !in b.cards || b.cards[at].id != m.card || !b.cards[at].active then (b, Failed(NotFound))
      else if m.id in b.reversals then (b, Reversed(b.reversals[m.id]))
      else
        var balance := Balance(b.cards[at], m.program);
        var after := balance - Signed(m.operation, m.amount);
        if m.operation.Earn? && balance < m.amount then (b, Failed(InsufficientBalance))
        else
          (b.(cards := b.cards[at := WithBalance(b.cards[at], m.program, after)],
              reversals := b.reversals[m.id := Reversal(balance, after)],
              log := b.log + [Entry(m.card, m.program, balance, after, None)]),
           Reversed(Reversal(balance, after)))
  }

  // ---------------------------------------------------------------------------
  // Retention, accounts, brands and programs
  // ---------------------------------------------------------------------------

  /** A batch of long expired previews and of keys completed long ago is deleted. */
  function Retain(b: Books, expired: set<nat>, cutoff: int, aged: set<nat>, keyCutoff: int): Books {
    b.(previews := map i | i in b.previews && !(i in expired && b.previews[i].expires < cutoff) :: b.previews[i],
       keys := map k | k in b.keys && !(k in aged && b.keys[k].completed && b.keys[k].completedAt < keyCutoff) :: b.keys[k])
  }

  function Others(ms: seq<Movement>, customer: nat): seq<Movement> {
    if ms == [] then []
    else Others(ms[..|ms| - 1], customer) + (if ms[|ms| - 1].customer == customer then [] else [ms[|ms| - 1]])
  }

  predicate Owns(ms: seq<Movement>, customer: nat, id: nat) {
    exists i :: 0 <= i < |ms| && ms[i].id == id && ms[i].customer == customer
  }

  function Anonymous(row: KeyRow, ms: seq<Movement>, user: nat): KeyRow {
    var blanked := if row.body.Confirmed? && Owns(ms, user, row.body.movement) then row.(body := Blank) else row;
    if blanked.scope == User(user) then blanked.(scope := Deleted(user), fingerprint := 0, body := Blank) else blanked
  }

  function CardsLeft(cards: map<(nat, nat), Card>, user: nat, closed: set<nat>): map<(nat, nat), Card> {
    map at | at in cards && at.0 != user :: if at.1 in closed then cards[at].(active := false) else cards[at]
  }

  function ReversalsLeft(reversals: map<nat, Reversal>, ms: seq<Movement>, user: nat): map<nat, Reversal> {
    map i | i in reversals && !Owns(ms, user, i) :: reversals[i]
  }

  /** An unused preview of a brand that closes is over. */
  function Ended(p: Preview, closed: set<nat>, at: int): Preview {
    if p.brand in closed && !p.consumed && at < p.expires then p.(expires := at) else p
  }

  function PreviewsLeft(previews: map<nat, Preview>, user: nat, closed: set<nat>, at: int): map<nat, Preview> {
    map i | i in previews && previews[i].customer != user && previews[i].actor != user :: Ended(previews[i], closed, at)
  }

  function KeysLeft(keys: map<nat, KeyRow>, ms: seq<Movement>, user: nat): map<nat, KeyRow> {
    map k | k in keys :: Anonymous(keys[k], ms, user)
  }

  /** Account deletion: the user's cards, movements (with their reversals) and previews go, the keys
      are blanked, the cards of the brands that close with the account are deactivated and their unused previews end. */
  function Anonymize(b: Books, user: nat, closed: set<nat>, deletedAt: int): Books {
    b.(cards := CardsLeft(b.cards, user, closed),
       movements := Others(b.movements, user),
       reversals := ReversalsLeft(b.reversals, b.movements, user),
       previews := PreviewsLeft(b.previews, user, closed, deletedAt),
       keys := KeysLeft(b.keys, b.movements, user))
  }

  predicate Moved(ms: seq<Movement>, brand: nat) {
    exists i :: 0 <= i < |ms| && ms[i].brand == brand
  }

  /** A program keeps its type while the brand has a subscription, movements or benefits. `manages` says that the
      member may change it. */
  function UpdateProgram(b: Books, brand: nat, version: nat, kind: Program, manages: bool, subscribed: bool, hasBenefits: bool): (Books, Reply) {
    if brand !in b.programs then (b, Failed(NotFound))
    else if !manages then (b, Failed(Forbidden))
    else if b.programs[brand] != kind && subscribed then (b, Failed(SubscriptionActive))
    else if b.programs[brand] != kind && Moved(b.movements, brand) then (b, Failed(ProgramImmutable))
    else if b.programs[brand] != kind && hasBenefits then (b, Failed(ProgramHasBenefits))
    else if VersionOf(b, brand) != version then (b, Failed(PreconditionFailed))
    else (b.(programs := b.programs[brand := kind], versions := b.versions[brand := version + 1]), Changed)
  }

  /** A program starts with version one. */
  function VersionOf(b: Books, brand: nat): nat {
    if brand in b.versions then b.versions[brand] else 1
  }

  // ---------------------------------------------------------------------------
  // Runs
  // ---------------------------------------------------------------------------

  datatype Action =
    | DoPreview(preview: PreviewRequest, look: Lookup)
    | DoConfirm(request: Request, look: Lookup)
    | DoReverse(brand: nat, movement: nat, allowed: bool)
    | DoRetain(expired: set<nat>, cutoff: int, aged: set<nat>, keyCutoff: int)
    | DoAnonymize(user: nat, closed: set<nat>, deletedAt: int)
    | DoUpdateProgram(brand: nat, version: nat, kind: Program, manages: bool, subscribed: bool, hasBenefits: bool)
    | DoOpenBrand(brand: nat, kind: Program)
    | Abort

  function Act(b: Books, a: Action): Books {
    match a
    case DoPreview(r, look) => CreatePreview(b, r, look).0
    case DoConfirm(r, look) => Confirm(b, r, look).0
    case DoReverse(brand, movement, allowed) => Reverse(b, brand, movement, allowed).0
    case DoRetain(expired, cutoff, aged, keyCutoff) => Retain(b, expired, cutoff, aged, keyCutoff)
    case DoAnonymize(user, closed, deletedAt) => Anonymize(b, user, closed, deletedAt)
    case DoUpdateProgram(brand, version, kind, manages, subscribed, hasBenefits) =>
      UpdateProgram(b, brand, version, kind, manages, subscribed, hasBenefits).0
    case DoOpenBrand(brand, kind) => if brand in b.programs then b else b.(programs := b.programs[brand := kind])
    case Abort => b
  }

  function Run(b: Books, actions: seq<Action>): Books {
    if actions == [] then b else Act(Run(b, actions[..|actions| - 1]), actions[|actions| - 1])
  }

  function Empty(): Books {
    Books(map[], [], map[], map[], map[], map[], map[], 0, 0, 0, [])
  }

  // ---------------------------------------------------------------------------
  // Invariant
  // ---------------------------------------------------------------------------

  /** The movements of a card that were not reversed, with their signs. */
  function NetOf(ms: seq<Movement>, reversed: set<nat>, card: nat, p: Program): int {
    if ms == [] then 0
    else
      var m := ms[|ms| - 1];
      NetOf(ms[..|ms| - 1], reversed, card, p)
      + (if m.card == card && m.program == p && m.id !in reversed then Signed(m.operation, m.amount) else 0)
  }

  /** The balance the last entry of a card left. */
  function LastLeft(log: seq<Entry>, card: nat, p: Program): int {
    if log == [] then 0
    else if log[|log| - 1].card == card && log[|log| - 1].program == p then log[|log| - 1].after
    else LastLeft(log[..|log| - 1], card, p)
  }

  /** Each entry starts from the balance the previous one of its card left. */
  predicate Linked(log: seq<Entry>) {
    forall i | 0 <= i < |log| :: log[i].before == LastLeft(log[..i], log[i].card, log[i].program)
  }

  predicate CardsSound(b: Books) {
    && (forall at | at in b.cards :: b.cards[at].id < b.nextCard)
    && (forall at, other | at in b.cards && other in b.cards && b.cards[at].id == b.cards[other].id :: at == other)
    && (forall i | 0 <= i < |b.log| :: b.log[i].card < b.nextCard)
  }

  predicate BalanceIs(b: Books, at: (nat, nat), p: Program)
    requires at in b.cards
  {
    var value := Balance(b.cards[at], p);
    value >= 0 && value == NetOf(b.movements, b.reversals.Keys, b.cards[at].id, p) == LastLeft(b.log, b.cards[at].id, p)
  }

  predicate BalancesSound(b: Books) {
    forall at, p | at in b.cards :: BalanceIs(b, at, p)
  }

  predicate MovementSound(b: Books, m: Movement) {
    && m.id < b.nextMovement && m.amount >= 1 && m.preview < b.nextPreview
    && (m.customer, m.brand) in b.cards && b.cards[(m.customer, m.brand)].id == m.card
    && m.brand in b.programs && m.program == b.programs[m.brand]
    && m.after == m.before + Signed(m.operation, m.amount)
  }

  predicate MovementsSound(b: Books) {
    && (forall i | 0 <= i < |b.movements| :: MovementSound(b, b.movements[i]))
    && (forall i, j | 0 <= i < j < |b.movements| :: b.movements[i].id != b.movements[j].id)
    && (forall id | id in b.reversals :: exists i :: 0 <= i < |b.movements| && b.movements[i].id == id)
  }

  /** A preview that was confirmed is consumed for as long as it exists, and is confirmed once. */
  predicate PreviewsSound(b: Books) {
    && (forall i | i in b.previews :: i < b.nextPreview && b.previews[i].amount >= 1)
    && (forall k | 0 <= k < |b.log| && b.log[k].preview.Some? ::
          b.log[k].preview.value < b.nextPreview
          && (b.log[k].preview.value in b.previews ==> b.previews[b.log[k].preview.value].consumed))
    && (forall j, k | 0 <= j < k < |b.log| && b.log[j].preview.Some? :: b.log[k].preview != b.log[j].preview)
  }

  predicate KeysSound(b: Books) {
    forall k | k in b.keys :: b.keys[k].completed
  }

  predicate Inv(b: Books) {
    CardsSound(b) && BalancesSound(b) && MovementsSound(b) && PreviewsSound(b) && KeysSound(b) && Linked(b.log)
  }

  // ---------------------------------------------------------------------------
  // Sums and links
  // ---------------------------------------------------------------------------

  lemma NetAppend(ms: seq<Movement>, m: Movement, reversed: set<nat>, card: nat, p: Program)
    ensures NetOf(ms + [m], reversed, card, p)
            == NetOf(ms, reversed, card, p) + (if m.card == card && m.program == p && m.id !in reversed then
                Signed(m.operation, m.amount) else 0)
  {
    assert (ms + [m])[..|ms|] == ms;
  }

  lemma {:induction false} NetReverse(ms: seq<Movement>, reversed: set<nat>, k: nat, card: nat, p: Program)
    requires k < |ms| && ms[k].id !in reversed
    requires forall i, j | 0 <= i < j < |ms| :: ms[i].id != ms[j].id
    ensures NetOf(ms, reversed + {ms[k].id}, card, p)
            == NetOf(ms, reversed, card, p) - (if ms[k].card == card && ms[k].program == p then Signed(ms[k].operation,
                ms[k].amount) else 0)
  {
    var n := |ms| - 1;
    if k == n {
      NetSame(ms[..n], ms[..n], reversed, reversed + {ms[k].id}, card, p);
    } else {
      NetReverse(ms[..n], reversed, k, card, p);
    }
  }

  lemma {:induction false} NetSame(ms: seq<Movement>, copy: seq<Movement>, a: set<nat>, b: set<nat>, card: nat, p: Program)
    requires copy == ms && forall i | 0 <= i < |ms| && ms[i].card == card :: ms[i].id in a <==> ms[i].id in b
    ensures NetOf(ms, a, card, p) == NetOf(ms, b, card, p)
  {
    if ms != [] { NetSame(ms[..|ms| - 1], ms[..|ms| - 1], a, b, card, p); }
  }

  lemma {:induction false} NetZero(ms: seq<Movement>, reversed: set<nat>, card: nat, p: Program)
    requires forall i | 0 <= i < |ms| :: ms[i].card != card || ms[i].program != p
    ensures NetOf(ms, reversed, card, p) == 0
  {
    if ms != [] { NetZero(ms[..|ms| - 1], reversed, card, p); }
  }

  lemma {:induction false} NetOthers(ms: seq<Movement>, user: nat, reversed: set<nat>, card: nat, p: Program)
    requires forall i | 0 <= i < |ms| && ms[i].card == card :: ms[i].customer != user
    ensures NetOf(Others(ms, user), reversed, card, p) == NetOf(ms, reversed, card, p)
  {
    if ms != [] {
      var n := |ms| - 1;
      NetOthers(ms[..n], user, reversed, card, p);
      if ms[n].customer != user {
        NetAppend(Others(ms[..n], user), ms[n], reversed, card, p);
      } else {
        assert Others(ms, user) == Others(ms[..n], user);
      }
    }
  }

  lemma {:induction false} OthersMembers(ms: seq<Movement>, user: nat, m: Movement)
    ensures m in Others(ms, user) <==> m in ms && m.customer != user
  {
    if ms != [] {
      var n := |ms| - 1;
      OthersMembers(ms[..n], user, m);
      assert m in ms <==> m in ms[..n] || m == ms[n];
    }
  }

  lemma {:induction false} OthersDistinct(ms: seq<Movement>, user: nat)
    requires forall i, j | 0 <= i < j < |ms| :: ms[i].id != ms[j].id
    ensures forall i, j | 0 <= i < j < |Others(ms, user)| :: Others(ms, user)[i].id != Others(ms, user)[j].id
  {
    if ms != [] {
      var n := |ms| - 1;
      OthersDistinct(ms[..n], user);
      var front := Others(ms[..n], user);
      forall k | 0 <= k < |front| ensures front[k].id != ms[n].id {
        OthersMembers(ms[..n], user, front[k]);
        var j :| 0 <= j < n && ms[..n][j] == front[k];
        assert ms[j].id == front[k].id;
      }
    }
  }

  lemma LastAppend(log: seq<Entry>, e: Entry, card: nat, p: Program)
    ensures LastLeft(log + [e], card, p) == if e.card == card && e.program == p then e.after else LastLeft(log, card, p)
  {
    assert (log + [e])[..|log|] == log;
  }

  lemma LinkAppend(log: seq<Entry>, e: Entry)
    requires Linked(log) && e.before == LastLeft(log, e.card, e.program)
    ensures Linked(log + [e])
  {
    var more := log + [e];
    forall i | 0 <= i < |more| ensures more[i].before == LastLeft(more[..i], more[i].card, more[i].program) {
      if i < |log| { assert more[..i] == log[..i]; } else { assert more[..i] == log; }
    }
  }

  lemma {:induction false} NeverUsed(log: seq<Entry>, card: nat, p: Program)
    requires forall i | 0 <= i < |log| :: log[i].card != card
    ensures LastLeft(log, card, p) == 0
  {
    if log != [] { NeverUsed(log[..|log| - 1], card, p); }
  }

  // ---------------------------------------------------------------------------
  // Every transaction keeps the invariant
  // ---------------------------------------------------------------------------

  lemma PreviewLeaves(b: Books, r: PreviewRequest, look: Lookup)
    ensures var after := CreatePreview(b, r, look).0;
            && (CardsSound(b) ==> CardsSound(after)) && (KeysSound(b) ==> KeysSound(after)) && after.log == b.log
  {
    hide Priced;
  }

  lemma PreviewKeeps(b: Books, r: PreviewRequest, look: Lookup)
    requires Inv(b)
    ensures Inv(CreatePreview(b, r, look).0)
  {
    hide Linked, KeysSound, CardsSound, NetOf, LastLeft;
    var after := CreatePreview(b, r, look).0;
    forall i | 0 <= i < |after.movements| ensures MovementSound(after, after.movements[i]) { assert MovementSound(b, b.movements[i]); }
    PreviewLeaves(b, r, look);
    forall at, p | at in after.cards ensures BalanceIs(after, at, p) { assert BalanceIs(b, at, p); }
  }

  /** What no objection means. */
  lemma NoObjection(b: Books, r: Request, look: Lookup)
    requires Inv(b) && Objection(b, r, look).None?
    ensures r.preview in b.previews
    ensures var p := b.previews[r.preview];
            && !p.consumed && p.amount >= 1 && p.brand in b.programs && b.programs[p.brand] == p.program
            && p.before == Balance(CardFor(b, (p.customer, p.brand)), p.program)
            && p.before + Signed(p.operation, p.amount) >= 0
  {
    var p := b.previews[r.preview];
    var at := (p.customer, p.brand);
    if at in b.cards { assert BalanceIs(b, at, p.program); }
  }

  lemma ConfirmedBalances(b: Books, r: Request, look: Lookup)
    requires Inv(b) && Objection(b, r, look).None?
    ensures var after := Recorded(b, r, b.previews[r.preview], look.databaseNow); BalancesSound(after) && Linked(after.log)
  {
    hide Objection;
    NoObjection(b, r, look);
    var p := b.previews[r.preview];
    var at := (p.customer, p.brand);
    var card := CardFor(b, at);
    var after := Recorded(b, r, p, look.databaseNow);
    var m, e := after.movements[|b.movements|], after.log[|b.log|];
    CardWas(b, at, p.program);
    LinkAppend(b.log, e);
    forall other, q | other in after.cards ensures BalanceIs(after, other, q) {
      if other in b.cards { assert BalanceIs(b, other, q); } else { CardWas(b, at, q); }
      NetAppend(b.movements, m, b.reversals.Keys, after.cards[other].id, q);
      LastAppend(b.log, e, after.cards[other].id, q);
      assert m.id !in b.reversals;
    }
  }

  /** The card a movement is for, new or not, stands where its movements left it. */
  lemma CardWas(b: Books, at: (nat, nat), p: Program)
    requires Inv(b)
    ensures var card := CardFor(b, at);
            && Balance(card, p) == NetOf(b.movements, b.reversals.Keys, card.id, p) == LastLeft(b.log, card.id, p)
            && Balance(card, p) >= 0
  {
    if at in b.cards {
      assert BalanceIs(b, at, p);
    } else {
      forall i | 0 <= i < |b.movements| ensures b.movements[i].card != b.nextCard {
        assert MovementSound(b, b.movements[i]);
      }
      NetZero(b.movements, b.reversals.Keys, b.nextCard, p);
      NeverUsed(b.log, b.nextCard, p);
    }
  }

  lemma PreviewIsSound(b: Books, i: nat)
    requires PreviewsSound(b) && i in b.previews
    ensures i < b.nextPreview && b.previews[i].amount >= 1
  {
  }

  lemma ConfirmedMovements(b: Books, r: Request, look: Lookup)
    requires Inv(b) && Objection(b, r, look).None?
    ensures var after := Recorded(b, r, b.previews[r.preview], look.databaseNow); CardsSound(after) && MovementsSound(after)
  {
    hide Objection, BalancesSound, Linked, PreviewsSound, KeysSound, LastLeft, NetOf;
    NoObjection(b, r, look);
    var p := b.previews[r.preview];
    assert p.amount >= 1 && r.preview < b.nextPreview by { PreviewIsSound(b, r.preview); }
    var after := Recorded(b, r, p, look.databaseNow);
    forall i | 0 <= i < |after.movements| ensures MovementSound(after, after.movements[i]) {
      if i < |b.movements| { assert MovementSound(b, b.movements[i]); }
    }
    forall i | 0 <= i < |b.movements| ensures after.movements[i] == b.movements[i] && b.movements[i].id < b.nextMovement {
      assert MovementSound(b, b.movements[i]);
    }
    forall id | id in after.reversals ensures exists i :: 0 <= i < |after.movements| && after.movements[i].id == id {
      var i :| 0 <= i < |b.movements| && b.movements[i].id == id;
      assert after.movements[i].id == id;
    }
  }

  lemma ConfirmedPreviews(b: Books, r: Request, look: Lookup)
    requires Inv(b) && Objection(b, r, look).None?
    ensures var after := Recorded(b, r, b.previews[r.preview], look.databaseNow); PreviewsSound(after) && KeysSound(after)
  {
    hide Objection, BalancesSound, Linked, MovementsSound;
    NoObjection(b, r, look);
  }

  lemma ConfirmKeeps(b: Books, r: Request, look: Lookup)
    requires Inv(b)
    ensures Inv(Confirm(b, r, look).0)
  {
    hide Inv, Recorded, Objection, Claim;
    if Claim(b, r).None? && Objection(b, r, look).None? { RecordedKeeps(b, r, look); }
  }

  lemma RecordedKeeps(b: Books, r: Request, look: Lookup)
    requires Inv(b) && Objection(b, r, look).None?
    ensures r.preview in b.previews && Inv(Recorded(b, r, b.previews[r.preview], look.databaseNow))
  {
    hide Objection, Recorded, BalancesSound, Linked, MovementsSound, CardsSound, KeysSound, PreviewsSound;
    NoObjection(b, r, look);
    ConfirmedBalances(b, r, look);
    ConfirmedMovements(b, r, look);
    ConfirmedPreviews(b, r, look);
  }

  /** The rows a reversal writes. */
  function Undone(b: Books, k: nat): Books
    requires k < |b.movements| && (b.movements[k].customer, b.movements[k].brand) in b.cards
  {
    var m := b.movements[k];
    var at := (m.customer, m.brand);
    var balance := Balance(b.cards[at], m.program);
    var after := balance - Signed(m.operation, m.amount);
    b.(cards := b.cards[at := WithBalance(b.cards[at], m.program, after)],
       reversals := b.reversals[m.id := Reversal(balance, after)],
       log := b.log + [Entry(m.card, m.program, balance, after, None)])
  }

  lemma ReversesIsUndone(b: Books, brand: nat, movement: nat, allowed: bool)
    requires Inv(b) && Reverse(b, brand, movement, allowed).0 != b
    ensures var k := Position(b.movements, movement);
            && k < |b.movements| && (b.movements[k].customer, b.movements[k].brand) in b.cards
            && b.movements[k].id !in b.reversals
            && Balance(b.cards[(b.movements[k].customer, b.movements[k].brand)], b.movements[k].program)
               >= Signed(b.movements[k].operation, b.movements[k].amount)
            && Reverse(b, brand, movement, allowed).0 == Undone(b, k)
  {
    hide CardsSound, PreviewsSound, KeysSound, Linked;
    var m := b.movements[Position(b.movements, movement)];
    assert MovementSound(b, m);
    assert BalanceIs(b, (m.customer, m.brand), m.program);
  }

  lemma UndoneBalances(b: Books, k: nat)
    requires Inv(b) && k < |b.movements| && (b.movements[k].customer, b.movements[k].brand) in b.cards
    requires b.movements[k].id !in b.reversals
    requires Balance(b.cards[(b.movements[k].customer, b.movements[k].brand)], b.movements[k].program)
             >= Signed(b.movements[k].operation, b.movements[k].amount)
    ensures BalancesSound(Undone(b, k)) && Linked(Undone(b, k).log)
  {
    hide PreviewsSound, KeysSound, Linked;
    var m := b.movements[k];
    var at := (m.customer, m.brand);
    var after := Undone(b, k);
    assert MovementSound(b, m);
    var e := after.log[|b.log|];
    assert BalanceIs(b, at, m.program);
    LinkAppend(b.log, e);
    assert after.reversals.Keys == b.reversals.Keys + {m.id};
    forall other, q | other in after.cards ensures BalanceIs(after, other, q) {
      assert BalanceIs(b, other, q);
      NetReverse(b.movements, b.reversals.Keys, k, after.cards[other].id, q);
      LastAppend(b.log, e, after.cards[other].id, q);
    }
  }

  lemma UndoneRows(b: Books, k: nat)
    requires Inv(b) && k < |b.movements| && (b.movements[k].customer, b.movements[k].brand) in b.cards
    ensures var after := Undone(b, k); CardsSound(after) && MovementsSound(after) && PreviewsSound(after) && KeysSound(after)
  {
    hide BalancesSound, Linked;
    var after := Undone(b, k);
    assert MovementSound(b, b.movements[k]);
    forall i | 0 <= i < |after.movements| ensures MovementSound(after, after.movements[i]) {
      assert MovementSound(b, b.movements[i]);
    }
  }

  lemma ReverseKeeps(b: Books, brand: nat, movement: nat, allowed: bool)
    requires Inv(b)
    ensures Inv(Reverse(b, brand, movement, allowed).0)
  {
    hide Reverse, Undone, BalancesSound, Linked, CardsSound, PreviewsSound, KeysSound;
    if Reverse(b, brand, movement, allowed).0 != b {
      ReversesIsUndone(b, brand, movement, allowed);
      UndoneBalances(b, Position(b.movements, movement));
      UndoneRows(b, Position(b.movements, movement));
    }
  }

  lemma RetainKeeps(b: Books, expired: set<nat>, cutoff: int, aged: set<nat>, keyCutoff: int)
    requires Inv(b)
    ensures Inv(Retain(b, expired, cutoff, aged, keyCutoff))
  {
    var after := Retain(b, expired, cutoff, aged, keyCutoff);
    forall at, p | at in after.cards ensures BalanceIs(after, at, p) { assert BalanceIs(b, at, p); }
    forall i | 0 <= i < |after.movements| ensures MovementSound(after, after.movements[i]) { assert MovementSound(b, b.movements[i]); }
  }

  /** Deleting an account leaves every other card with its balance, its movements and its reversals. */
  lemma AnonymizeLeavesOthers(b: Books, user: nat, closed: set<nat>, deletedAt: int, at: (nat, nat), p: Program)
    requires Inv(b) && at in b.cards && at.0 != user
    ensures var after := Anonymize(b, user, closed, deletedAt);
            && at in after.cards && after.cards[at].id == b.cards[at].id
            && Balance(after.cards[at], p) == Balance(b.cards[at], p)
            && NetOf(after.movements, after.reversals.Keys, b.cards[at].id, p) == NetOf(b.movements, b.reversals.Keys, b.cards[at].id, p)
  {
    hide Linked, PreviewsSound, KeysSound, Anonymous, BalancesSound, NetOf;
    var after := Anonymize(b, user, closed, deletedAt);
    var card := b.cards[at].id;
    forall i | 0 <= i < |b.movements| && b.movements[i].card == card
      ensures b.movements[i].customer != user && (b.movements[i].id in b.reversals <==> b.movements[i].id in after.reversals)
    {
      assert MovementSound(b, b.movements[i]);
    }
    NetOthers(b.movements, user, after.reversals.Keys, card, p);
    NetSame(b.movements, b.movements, b.reversals.Keys, after.reversals.Keys, card, p);
  }

  lemma AnonymizedMovement(b: Books, user: nat, closed: set<nat>, deletedAt: int, m: Movement)
    requires Inv(b) && m in Others(b.movements, user)
    ensures MovementSound(Anonymize(b, user, closed, deletedAt), m)
  {
    hide BalancesSound, Linked, PreviewsSound, KeysSound, Anonymous, CardsSound, Owns;
    OthersMembers(b.movements, user, m);
    assert MovementSound(b, m);
  }

  lemma AnonymizedReversal(b: Books, user: nat, closed: set<nat>, deletedAt: int, id: nat)
    requires Inv(b) && id in b.reversals && !Owns(b.movements, user, id)
    ensures exists i :: 0 <= i < |Others(b.movements, user)| && Others(b.movements, user)[i].id == id
  {
    hide BalancesSound, Linked, PreviewsSound, KeysSound, CardsSound;
    var j :| 0 <= j < |b.movements| && b.movements[j].id == id;
    OthersMembers(b.movements, user, b.movements[j]);
    var i :| 0 <= i < |Others(b.movements, user)| && Others(b.movements, user)[i] == b.movements[j];
  }

  lemma AnonymizedMovements(b: Books, user: nat, closed: set<nat>, deletedAt: int)
    requires Inv(b)
    ensures MovementsSound(Anonymize(b, user, closed, deletedAt))
  {
    hide MovementSound, BalancesSound, Linked, PreviewsSound, KeysSound, Anonymous, CardsSound, Owns;
    var after := Anonymize(b, user, closed, deletedAt);
    OthersDistinct(b.movements, user);
    forall i | 0 <= i < |after.movements| ensures MovementSound(after, after.movements[i]) {
      AnonymizedMovement(b, user, closed, deletedAt, after.movements[i]);
    }
    forall id | id in after.reversals ensures exists i :: 0 <= i < |after.movements| && after.movements[i].id == id {
      AnonymizedReversal(b, user, closed, deletedAt, id);
    }
  }

  lemma AnonymizedRows(b: Books, user: nat, closed: set<nat>, deletedAt: int)
    requires Inv(b)
    ensures var after := Anonymize(b, user, closed, deletedAt); CardsSound(after) && PreviewsSound(after) && KeysSound(after)
  {
    hide BalancesSound, Linked, MovementsSound, Others, Owns;
  }

  lemma AnonymizeKeeps(b: Books, user: nat, closed: set<nat>, deletedAt: int)
    requires Inv(b)
    ensures Inv(Anonymize(b, user, closed, deletedAt))
  {
    hide Linked, MovementsSound, PreviewsSound, KeysSound, CardsSound, Anonymous, Owns, NetOf, LastLeft;
    var after := Anonymize(b, user, closed, deletedAt);
    forall at, p | at in after.cards ensures BalanceIs(after, at, p) {
      assert BalanceIs(b, at, p);
      AnonymizeLeavesOthers(b, user, closed, deletedAt, at, p);
    }
    AnonymizedMovements(b, user, closed, deletedAt);
    AnonymizedRows(b, user, closed, deletedAt);
  }

  /** A program can change its type only when every card of the brand is empty in both columns. */
  lemma TypeChangesOnlyWhenEmpty(b: Books, brand: nat, version: nat, kind: Program, manages: bool, subscribed: bool, hasBenefits: bool,
                                 at: (nat, nat))
    requires Inv(b) && brand in b.programs
    requires UpdateProgram(b, brand, version, kind, manages, subscribed, hasBenefits).0.programs[brand] != b.programs[brand]
    requires at in b.cards && at.1 == brand
    ensures b.cards[at].stamps == 0 && b.cards[at].points == 0
  {
    var card := b.cards[at].id;
    forall i | 0 <= i < |b.movements| ensures b.movements[i].card != card {
      assert MovementSound(b, b.movements[i]);
    }
    NetZero(b.movements, b.reversals.Keys, card, Stamps);
    NetZero(b.movements, b.reversals.Keys, card, Points);
    assert BalanceIs(b, at, Stamps) && BalanceIs(b, at, Points);
  }

  lemma ProgramsKeep(b: Books, programs: map<nat, Program>, versions: map<nat, nat>)
    requires Inv(b)
    requires forall brand | brand in b.programs :: brand in programs && (programs[brand] == b.programs[brand] || !Moved(b.movements, brand))
    ensures Inv(b.(programs := programs, versions := versions))
  {
    var after := b.(programs := programs, versions := versions);
    forall at, p | at in after.cards ensures BalanceIs(after, at, p) { assert BalanceIs(b, at, p); }
    forall i | 0 <= i < |after.movements| ensures MovementSound(after, after.movements[i]) { assert MovementSound(b, b.movements[i]); }
  }

  lemma ActKeeps(b: Books, a: Action)
    requires Inv(b)
    ensures Inv(Act(b, a))
  {
    hide Inv, CreatePreview, Confirm, Reverse, Retain, Anonymize;
    match a
    case DoPreview(r, look) => PreviewKeeps(b, r, look);
    case DoConfirm(r, look) => ConfirmKeeps(b, r, look);
    case DoReverse(brand, movement, allowed) => ReverseKeeps(b, brand, movement, allowed);
    case DoRetain(expired, cutoff, aged, keyCutoff) => RetainKeeps(b, expired, cutoff, aged, keyCutoff);
    case DoAnonymize(user, closed, deletedAt) => AnonymizeKeeps(b, user, closed, deletedAt);
    case DoUpdateProgram(brand, version, kind, manages, subscribed, hasBenefits) =>
      if UpdateProgram(b, brand, version, kind, manages, subscribed, hasBenefits).1.Changed? {
        ProgramsKeep(b, b.programs[brand := kind], b.versions[brand := version + 1]);
      }
    case DoOpenBrand(brand, kind) => if brand !in b.programs { ProgramsKeep(b, b.programs[brand := kind], b.versions); }
    case Abort =>
  }

  lemma {:induction false} RunKeeps(actions: seq<Action>)
    ensures Inv(Run(Empty(), actions))
  {
    if actions != [] {
      RunKeeps(actions[..|actions| - 1]);
      ActKeeps(Run(Empty(), actions[..|actions| - 1]), actions[|actions| - 1]);
      hide Act, Inv;
    }
  }

  // ---------------------------------------------------------------------------
  // The promises
  // ---------------------------------------------------------------------------

  /** Every balance is the signed sum of the card's movements that were not reversed, and never negative. */
  lemma BalancesAreSums(actions: seq<Action>, at: (nat, nat), p: Program)
    requires at in Run(Empty(), actions).cards
    ensures var b := Run(Empty(), actions);
            0 <= Balance(b.cards[at], p) == NetOf(b.movements, b.reversals.Keys, b.cards[at].id, p)
  {
    RunKeeps(actions);
    assert BalanceIs(Run(Empty(), actions), at, p);
  }

  /** Each movement and each reversal starts from the balance the card's previous one left, and the
      card stands where its last one left it. */
  lemma BalancesContinue(actions: seq<Action>, i: nat, at: (nat, nat), p: Program)
    requires i < |Run(Empty(), actions).log| && at in Run(Empty(), actions).cards
    ensures var b := Run(Empty(), actions);
            && b.log[i].before == LastLeft(b.log[..i], b.log[i].card, b.log[i].program)
            && Balance(b.cards[at], p) == LastLeft(b.log, b.cards[at].id, p)
  {
    RunKeeps(actions);
    assert BalanceIs(Run(Empty(), actions), at, p);
  }

  /** Brands keep to one program: the balance in the other column is zero. */
  lemma OtherColumnIsEmpty(actions: seq<Action>, at: (nat, nat), p: Program)
    requires var b := Run(Empty(), actions); at in b.cards && at.1 in b.programs && b.programs[at.1] != p
    ensures Balance(Run(Empty(), actions).cards[at], p) == 0
  {
    RunKeeps(actions);
    var b := Run(Empty(), actions);
    forall i | 0 <= i < |b.movements| ensures b.movements[i].card != b.cards[at].id || b.movements[i].program != p {
      assert MovementSound(b, b.movements[i]);
    }
    NetZero(b.movements, b.reversals.Keys, b.cards[at].id, p);
    assert BalanceIs(b, at, p);
  }

  /** Over a whole run, rows deleted since included, no preview is confirmed twice. */
  lemma ConfirmedAtMostOnce(actions: seq<Action>, j: nat, k: nat)
    requires j < |Run(Empty(), actions).log| && k < |Run(Empty(), actions).log|
    requires Run(Empty(), actions).log[j].preview.Some? && Run(Empty(), actions).log[j].preview == Run(Empty(), actions).log[k].preview
    ensures j == k
  {
    RunKeeps(actions);
  }

  /** What makes the books forget the answer of a request that was completed at a time: a retention pass for keys
      completed before a later time takes its key, or the account of its actor or of its customer is deleted. */
  predicate Forgets(a: Action, r: Request, customer: nat, at: int) {
    || (a.DoRetain? && r.key in a.aged && at < a.keyCutoff)
    || (a.DoAnonymize? && (a.user == r.actor || a.user == customer))
  }

  function CustomerOf(b: Books, preview: nat): nat {
    if preview in b.previews then b.previews[preview].customer else 0
  }

  /** Movement numbers are not given twice. */
  predicate Dealt(b: Books, movement: nat, customer: nat) {
    movement < b.nextMovement && forall i | 0 <= i < |b.movements| && b.movements[i].id == movement :: b.movements[i].customer == customer
  }

  predicate Remembers(b: Books, r: Request, movement: nat, customer: nat, at: int) {
    && r.key in b.keys && b.keys[r.key] == KeyRow(User(r.actor), r.operation, r.fingerprint, true, at, Confirmed(movement))
    && Owns(b.movements, customer, movement)
  }

  predicate Forgot(b: Books, r: Request, movement: nat) {
    r.key in b.keys ==> b.keys[r.key].body != Confirmed(movement)
  }

  predicate Logged(b: Books, preview: nat) {
    exists k :: 0 <= k < |b.log| && b.log[k].preview == Some(preview)
  }

  lemma LogGrows(b: Books, a: Action)
    ensures b.log <= Act(b, a).log
  {
    hide Objection, Priced;
  }

  lemma LoggedStep(b: Books, a: Action, preview: nat)
    requires Logged(b, preview)
    ensures Logged(Act(b, a), preview)
  {
    hide Act;
    LogGrows(b, a);
    var k :| 0 <= k < |b.log| && b.log[k].preview == Some(preview);
    assert Act(b, a).log[k] == b.log[k];
  }

  /** Movements are appended with the next number or removed with their customer. */
  lemma MovementsMove(b: Books, a: Action)
    ensures var c := Act(b, a);
            && b.nextMovement <= c.nextMovement
            && (a.DoAnonymize? ==> c.movements == Others(b.movements, a.user))
            && (!a.DoAnonymize? ==> b.movements <= c.movements)
            && (!a.DoAnonymize? ==> forall i | |b.movements| <= i < |c.movements| :: c.movements[i].id == b.nextMovement < c.nextMovement)
  {
    hide Objection, Priced;
  }

  lemma DealtStep(b: Books, a: Action, movement: nat, customer: nat)
    requires Dealt(b, movement, customer)
    ensures Dealt(Act(b, a), movement, customer)
  {
    hide Act;
    MovementsMove(b, a);
    var c := Act(b, a);
    forall i | 0 <= i < |c.movements| && c.movements[i].id == movement ensures c.movements[i].customer == customer {
      if a.DoAnonymize? {
        OthersMembers(b.movements, a.user, c.movements[i]);
      } else if i < |b.movements| {
        assert c.movements[i] == b.movements[i];
      }
    }
  }

  lemma OwnsStep(b: Books, a: Action, movement: nat, customer: nat)
    requires Owns(b.movements, customer, movement) && !(a.DoAnonymize? && a.user == customer)
    ensures Owns(Act(b, a).movements, customer, movement)
  {
    hide Act;
    MovementsMove(b, a);
    var c := Act(b, a);
    var i :| 0 <= i < |b.movements| && b.movements[i].id == movement && b.movements[i].customer == customer;
    if a.DoAnonymize? {
      OthersMembers(b.movements, a.user, b.movements[i]);
      var j :| 0 <= j < |c.movements| && c.movements[j] == b.movements[i];
    } else {
      assert c.movements[i] == b.movements[i];
    }
  }

  lemma OwnedByOne(b: Books, movement: nat, customer: nat, user: nat)
    requires Dealt(b, movement, customer) && user != customer
    ensures !Owns(b.movements, user, movement)
  {
  }

  lemma RemembersStep(b: Books, a: Action, r: Request, movement: nat, customer: nat, at: int)
    requires Dealt(b, movement, customer) && Remembers(b, r, movement, customer, at)
    ensures if Forgets(a, r, customer, at) then Forgot(Act(b, a), r, movement) else Remembers(Act(b, a), r, movement, customer, at)
  {
    hide Objection, Priced, Dealt, Recorded, Others, Owns;
    if !Forgets(a, r, customer, at) {
      OwnsStep(b, a, movement, customer);
      if a.DoAnonymize? { OwnedByOne(b, movement, customer, a.user); }
      if a.DoConfirm? { ConfirmsKeepKeys(b, a, r.key); }
    }
  }

  lemma ConfirmsKeepKeys(b: Books, a: Action, key: nat)
    requires a.DoConfirm? && key in b.keys
    ensures key in Act(b, a).keys && Act(b, a).keys[key] == b.keys[key]
  {
    hide Objection;
  }

  lemma ForgotStep(b: Books, a: Action, r: Request, movement: nat)
    requires movement < b.nextMovement && Forgot(b, r, movement)
    ensures Forgot(Act(b, a), r, movement)
  {
    hide Objection, Priced, Others, Owns;
  }

  predicate NoneForgets(actions: seq<Action>, r: Request, customer: nat, at: int) {
    forall i | 0 <= i < |actions| :: !Forgets(actions[i], r, customer, at)
  }

  lemma {:induction false} RememberedOverRuns(b: Books, actions: seq<Action>, r: Request, movement: nat, customer: nat, at: int)
    requires Inv(b) && Dealt(b, movement, customer) && Remembers(b, r, movement, customer, at) && Logged(b, r.preview)
    ensures var c := Run(b, actions);
            && Inv(c) && Dealt(c, movement, customer) && Logged(c, r.preview)
            && if NoneForgets(actions, r, customer, at) then Remembers(c, r, movement, customer, at) else Forgot(c, r, movement)
  {
    hide Inv, Act, Dealt, Remembers, Forgot, Logged, Forgets;
    if actions != [] {
      var front, a := actions[..|actions| - 1], actions[|actions| - 1];
      RememberedOverRuns(b, front, r, movement, customer, at);
      var c := Run(b, front);
      ActKeeps(c, a);
      DealtStep(c, a, movement, customer);
      LoggedStep(c, a, r.preview);
      MovementsMove(c, a);
      FrontForgets(actions, r, customer, at);
      WasDealt(c, movement, customer);
      if NoneForgets(front, r, customer, at) {
        RemembersStep(c, a, r, movement, customer, at);
      } else {
        ForgotStep(c, a, r, movement);
      }
    }
  }

  lemma WasDealt(b: Books, movement: nat, customer: nat)
    requires Dealt(b, movement, customer)
    ensures movement < b.nextMovement
  {
  }

  lemma FrontForgets(actions: seq<Action>, r: Request, customer: nat, at: int)
    requires actions != []
    ensures NoneForgets(actions, r, customer, at)
            <==> NoneForgets(actions[..|actions| - 1], r, customer, at) && !Forgets(actions[|actions| - 1], r, customer, at)
  {
    hide Forgets;
    var n := |actions| - 1;
    forall i | 0 <= i < |actions| && NoneForgets(actions[..n], r, customer, at) && !Forgets(actions[n], r, customer, at)
      ensures !Forgets(actions[i], r, customer, at)
    {
      if i < n { assert actions[..n][i] == actions[i]; }
    }
    forall i | 0 <= i < n && NoneForgets(actions, r, customer, at) ensures !Forgets(actions[..n][i], r, customer, at) {
      assert actions[..n][i] == actions[i];
    }
  }

  lemma RecordedIsRemembered(b: Books, r: Request, look: Lookup)
    requires Inv(b) && Confirm(b, r, look).1.Fresh?
    ensures var c := Confirm(b, r, look).0;
            && Confirm(b, r, look).1.body == Confirmed(b.nextMovement) && Inv(c) && Logged(c, r.preview)
            && Dealt(c, b.nextMovement, CustomerOf(b, r.preview)) && Remembers(c, r, b.nextMovement, CustomerOf(b, r.preview), look.databaseNow)
  {
    hide Inv, Objection;
    ConfirmKeeps(b, r, look);
    NoObjection(b, r, look);
    var c := Confirm(b, r, look).0;
    assert c.log[|b.log|].preview == Some(r.preview);
    var n := |b.movements|;
    assert c.movements[n].id == b.nextMovement && c.movements[n].customer == CustomerOf(b, r.preview);
    forall i | 0 <= i < n ensures c.movements[i].id != b.nextMovement {
      assert c.movements[i] == b.movements[i];
      MovementIsOld(b, i);
    }
  }

  lemma MovementIsOld(b: Books, i: nat)
    requires Inv(b) && i < |b.movements|
    ensures b.movements[i].id < b.nextMovement
  {
    assert MovementSound(b, b.movements[i]);
  }

  lemma AnswersWhenLogged(b: Books, r: Request, look: Lookup)
    requires Inv(b) && Logged(b, r.preview)
    ensures Confirm(b, r, look).0 == b && !Confirm(b, r, look).1.Fresh?
  {
  }

  /** A client that repeats a confirmed request, because the answer was lost or the transaction was retried, moves
      nothing, whatever happened in between, and it gets the stored answer
      exactly while nothing made the books forget it: neither did retention take the key, after its time, nor was the
      account of the actor or of the customer deleted. */
  lemma RepeatsAreReplayed(b: Books, r: Request, look: Lookup, actions: seq<Action>, later: Lookup)
    requires Inv(b) && Confirm(b, r, look).1.Fresh?
    ensures var c := Run(Confirm(b, r, look).0, actions);
            && Confirm(c, r, later).0 == c && !Confirm(c, r, later).1.Fresh?
            && (Confirm(c, r, later).1 == Replayed(Confirm(b, r, look).1.body)
                <==> forall i | 0 <= i < |actions| :: !Forgets(actions[i], r, CustomerOf(b, r.preview), look.databaseNow))
  {
    hide Inv, Run, Act, Dealt, Logged, Forgets, CustomerOf;
    RecordedIsRemembered(b, r, look);
    var customer, c := CustomerOf(b, r.preview), Run(Confirm(b, r, look).0, actions);
    RememberedOverRuns(Confirm(b, r, look).0, actions, r, b.nextMovement, customer, look.databaseNow);
    AnswersWhenLogged(c, r, later);
    RemembersAnswers(c, r, later, b.nextMovement, customer, look.databaseNow);
  }

  lemma RemembersAnswers(b: Books, r: Request, look: Lookup, movement: nat, customer: nat, at: int)
    ensures Remembers(b, r, movement, customer, at) ==> Confirm(b, r, look).1 == Replayed(Confirmed(movement))
    ensures Forgot(b, r, movement) ==> Confirm(b, r, look).1 != Replayed(Confirmed(movement))
  {
    hide Objection;
  }

  lemma VersionGrows(b: Books, a: Action, brand: nat)
    ensures VersionOf(Act(b, a), brand) >= VersionOf(b, brand)
  {
    hide Objection, Priced, Claim, Moved, Others, Owns;
  }

  lemma {:induction false} VersionGrowsOverRuns(b: Books, actions: seq<Action>, brand: nat)
    ensures VersionOf(Run(b, actions), brand) >= VersionOf(b, brand)
  {
    hide Act, VersionOf;
    if actions != [] {
      VersionGrowsOverRuns(b, actions[..|actions| - 1], brand);
      VersionGrows(Run(b, actions[..|actions| - 1]), actions[|actions| - 1], brand);
    }
  }

  /** Optimistic locking: after an update of a program, whatever happens next, no other update made for the same
      version goes through. */
  lemma OneUpdatePerVersion(b: Books, brand: nat, version: nat, kind: Program, manages: bool, subscribed: bool, hasBenefits: bool,
                            actions: seq<Action>, other: Program, otherManages: bool, otherSubscribed: bool, otherBenefits: bool)
    requires UpdateProgram(b, brand, version, kind, manages, subscribed, hasBenefits).1.Changed?
    ensures var c := Run(UpdateProgram(b, brand, version, kind, manages, subscribed, hasBenefits).0, actions);
            && UpdateProgram(c, brand, version, other, otherManages, otherSubscribed, otherBenefits).0 == c
            && !UpdateProgram(c, brand, version, other, otherManages, otherSubscribed, otherBenefits).1.Changed?
  {
    hide Run;
    VersionGrowsOverRuns(UpdateProgram(b, brand, version, kind, manages, subscribed, hasBenefits).0, actions, brand);
  }

  /** A second key does not help: once a preview was confirmed, every further request for it fails
      and leaves the books as they are. */
  lemma SecondKeyFails(actions: seq<Action>, r: Request, look: Lookup, k: nat)
    requires k < |Run(Empty(), actions).log| && Run(Empty(), actions).log[k].preview == Some(r.preview)
    ensures var b := Run(Empty(), actions);
            Confirm(b, r, look).0 == b && !Confirm(b, r, look).1.Fresh?
  {
    RunKeeps(actions);
  }

  /** A movement is reversed once; asking again returns the same reversal. */
  lemma ReverseTwice(b: Books, brand: nat, movement: nat)
    requires Reverse(b, brand, movement, true).1.Reversed?
    ensures Reverse(Reverse(b, brand, movement, true).0, brand, movement, true) == Reverse(b, brand, movement, true)
  {
  }

  /** A reversal undoes its movement: the card has the balance it would have without it. */
  lemma ReversalUndoes(b: Books, brand: nat, movement: nat)
    requires Inv(b) && Reverse(b, brand, movement, true).0 != b
    ensures var k := Position(b.movements, movement);
            && k < |b.movements| && b.movements[k].id !in b.reversals
            && var m, at := b.movements[k], (b.movements[k].customer, b.movements[k].brand);
               && at in b.cards
               && Balance(Reverse(b, brand, movement, true).0.cards[at], m.program)
                  == Balance(b.cards[at], m.program) - Signed(m.operation, m.amount) >= 0
               && forall other | other in b.cards && other != at :: Reverse(b, brand, movement, true).0.cards[other] == b.cards[other]
  {
    var m := b.movements[Position(b.movements, movement)];
    assert BalanceIs(b, (m.customer, m.brand), m.program);
    assert MovementSound(b, m);
  }
}
