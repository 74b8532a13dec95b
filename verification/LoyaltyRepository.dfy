/** The loyalty transactions as the repository runs them, on the rows they update. Each method is
    one transaction; what it leaves and answers is the value given by module Loyalty. */
module LoyaltyRepository {
  import opened Common
  import L = Loyalty

  class Repository {
    var cards: map<(nat, nat), L.Card>
    var movements: seq<L.Movement>
    var reversals: map<nat, L.Reversal>
    var previews: map<nat, L.Preview>
    var keys: map<nat, L.KeyRow>
    var programs: map<nat, L.Program>
    var versions: map<nat, nat>
    var nextCard: nat
    var nextMovement: nat
    var nextPreview: nat
    ghost var log: seq<L.Entry>

    constructor ()
      ensures Books() == L.Empty()
    {
      cards, movements, reversals, previews, keys, programs, versions := map[], [], map[], map[], map[], map[], map[];
      nextCard, nextMovement, nextPreview, log := 0, 0, 0, [];
    }

    ghost function Books(): L.Books
      reads this
    {
      L.Books(cards, movements, reversals, previews, keys, programs, versions, nextCard, nextMovement, nextPreview, log)
    }

    method CreatePreview(r: L.PreviewRequest, look: L.Lookup) returns (reply: L.Reply)
      modifies this`previews, this`nextPreview
      ensures (Books(), reply) == L.CreatePreview(old(Books()), r, look)
    {
      if !look.allowed || look.brand !in programs || look.holder.None? {
        return L.Failed(L.NotFound);
      }
      var customer, program := look.holder.value, programs[look.brand];
      var at := (customer, look.brand);
      var balance := 0;
      if at in cards && cards[at].active {
        balance := L.Balance(cards[at], program);
      }
      var amount := 1;
      if program.Points? && r.operation.Earn? {
        if r.points.None? || r.points.value < 1 || r.points.value > 100000 {
          return L.Failed(L.InvalidRequest);
        }
        amount := r.points.value;
      } else if r.points.Some? {
        return L.Failed(L.InvalidRequest);
      }
      if r.operation.Redeem? {
        if r.benefit.None? {
          return L.Failed(L.PreviewChanged);
        }
        if look.cost.None? {
          return L.Failed(L.NotFound);
        }
        amount := look.cost.value;
        if balance < amount {
          return L.Failed(L.InsufficientBalance);
        }
      }
      previews := previews[nextPreview := L.Preview(r.actor, r.branch, look.brand, customer, r.operation, program, r.benefit, r.qr,
                                                    balance, amount, look.now + 300, false)];
      reply := L.Quoted(nextPreview);
      nextPreview := nextPreview + 1;
    }

    /** The idempotency key is inserted first, and read only when it was already there. */
    method ClaimIdempotency(r: L.Request) returns (claimed: Option<L.Reply>)
      ensures claimed == L.Claim(Books(), r)
    {
      if r.key !in keys {
        return None;
      }
      var row := keys[r.key];
      if row.scope != L.User(r.actor) || row.operation != r.operation || row.fingerprint != r.fingerprint {
        return Some(L.Failed(L.IdempotencyConflict));
      }
      if !row.completed {
        return Some(L.Failed(L.IdempotencyInProgress));
      }
      return Some(L.Replayed(row.body));
    }

    method CheckPreview(r: L.Request, look: L.Lookup) returns (objection: Option<L.Error>)
      ensures objection == L.Objection(Books(), r, look)
    {
      if r.preview !in previews {
        return Some(L.NotFound);
      }
      var p := previews[r.preview];
      if p.actor != r.actor || p.branch != r.branch || p.operation != r.operation || p.qr != r.qr || p.benefit != r.benefit {
        return Some(L.PreviewChanged);
      }
      if p.consumed {
        return Some(L.PreviewConsumed);
      }
      if look.now >= p.expires {
        return Some(L.PreviewExpired);
      }
      if !look.allowed || p.brand !in programs {
        return Some(L.NotFound);
      }
      if programs[p.brand] != p.program {
        return Some(L.PreviewChanged);
      }
      if look.holder.None? {
        return Some(L.NotFound);
      }
      if look.holder.value != p.customer {
        return Some(L.PreviewChanged);
      }
      var at, balance := (p.customer, p.brand), 0;
      if at in cards {
        if !cards[at].active {
          return Some(L.InsufficientBalance);
        }
        balance := L.Balance(cards[at], p.program);
      } else if r.operation.Redeem? {
        return Some(L.InsufficientBalance);
      }
      if r.operation.Redeem? {
        if look.cost.None? {
          return Some(L.NotFound);
        }
        if look.cost.value != p.amount {
          return Some(L.PreviewChanged);
        }
      }
      if balance != p.before {
        return Some(L.PreviewChanged);
      }
      if r.operation.Redeem? && balance < p.amount {
        return Some(L.InsufficientBalance);
      }
      return None;
    }

    method ConfirmMovement(r: L.Request, look: L.Lookup) returns (reply: L.Reply)
      modifies this
      ensures (Books(), reply) == L.Confirm(old(Books()), r, look)
    {
      hide L.Objection, L.Claim, L.Recorded;
      var claimed := ClaimIdempotency(r);
      if claimed.Some? {
        return claimed.value;
      }
      var objection := CheckPreview(r, look);
      if objection.Some? {
        return L.Failed(objection.value);
      }
      ObjectionFree(r, look);
      reply := L.Fresh(L.Confirmed(nextMovement));
      RecordMovement(r, previews[r.preview], look.databaseNow);
    }

    /** The card of a customer is created with the first movement. */
    method LockCard(at: (nat, nat)) returns (card: L.Card)
      modifies this`cards, this`nextCard
      ensures card == L.CardFor(old(Books()), at)
      ensures cards == old(cards)[at := card] && nextCard == if at in old(cards) then old(nextCard) else old(nextCard) + 1
    {
      if at !in cards {
        cards := cards[at := L.Card(nextCard, 0, 0, true)];
        nextCard := nextCard + 1;
      }
      card := cards[at];
    }

    /** The ledger row of a movement. */
    method InsertMovement(r: L.Request, p: L.Preview, card: nat, after: int) returns (id: nat)
      modifies this`movements, this`nextMovement, this`log
      ensures id == old(nextMovement) && nextMovement == id + 1
      ensures movements == old(movements) + [L.Movement(id, card, p.customer, p.brand, r.preview, p.operation, p.program, p.amount,
                                                        p.before, after)]
      ensures log == old(log) + [L.Entry(card, p.program, p.before, after, Some(r.preview))]
    {
      id := nextMovement;
      movements := movements + [L.Movement(id, card, p.customer, p.brand, r.preview, p.operation, p.program, p.amount, p.before, after)];
      log := log + [L.Entry(card, p.program, p.before, after, Some(r.preview))];
      nextMovement := nextMovement + 1;
    }

    /** The writes of a confirmed movement. */
    method RecordMovement(r: L.Request, p: L.Preview, databaseNow: int)
      modifies this
      ensures Books() == L.Recorded(old(Books()), r, p, databaseNow)
    {
      hide L.CardFor, L.WithBalance;
      var at := (p.customer, p.brand);
      var card := LockCard(at);
      var after := p.before + p.amount;
      if p.operation.Redeem? {
        after := p.before - p.amount;
      }
      Overwritten(old(cards), at, card, L.WithBalance(card, p.program, after));
      cards := cards[at := L.WithBalance(card, p.program, after)];
      var id := InsertMovement(r, p, card.id, after);
      previews := previews[r.preview := p.(consumed := true)];
      keys := keys[r.key := L.KeyRow(L.User(r.actor), r.operation, r.fingerprint, true, databaseNow, L.Confirmed(id))];
    }

    lemma Overwritten(m: map<(nat, nat), L.Card>, at: (nat, nat), first: L.Card, second: L.Card)
      ensures m[at := first][at := second] == m[at := second]
    {
    }

    lemma ObjectionFree(r: L.Request, look: L.Lookup)
      requires L.Objection(Books(), r, look).None?
      ensures r.preview in previews
    {
    }

    method ReverseBrandMovement(brand: nat, movement: nat, allowed: bool) returns (reply: L.Reply)
      modifies this`cards, this`reversals, this`log
      ensures (Books(), reply) == L.Reverse(old(Books()), brand, movement, allowed)
    {
      var k := L.Position(movements, movement);
      if k == |movements| || movements[k].brand != brand || !allowed {
        return L.Failed(L.NotFound);
      }
      var m := movements[k];
      var at := (m.customer, m.brand);
      if at !in cards || cards[at].id != m.card || !cards[at].active {
        return L.Failed(L.NotFound);
      }
      if m.id in reversals {
        return L.Reversed(reversals[m.id]);
      }
      var current := L.Balance(cards[at], m.program);
      var after := current;
      match m.operation {
        case Earn =>
          if current < m.amount {
            return L.Failed(L.InsufficientBalance);
          }
          after := current - m.amount;
        case Redeem =>
          after := current + m.amount;
      }
      cards := cards[at := L.WithBalance(cards[at], m.program, after)];
      reversals := reversals[m.id := L.Reversal(current, after)];
      log := log + [L.Entry(m.card, m.program, current, after, None)];
      return L.Reversed(L.Reversal(current, after));
    }

    method ApplyRetention(expired: set<nat>, cutoff: int, aged: set<nat>, keyCutoff: int)
      modifies this`previews, this`keys
      ensures Books() == L.Retain(old(Books()), expired, cutoff, aged, keyCutoff)
    {
      previews := map i | i in previews && !(i in expired && previews[i].expires < cutoff) :: previews[i];
      keys := map k | k in keys && !(k in aged && keys[k].completed && keys[k].completedAt < keyCutoff) :: keys[k];
    }

    /** Goes through the ledger and sets the rows of one user's cards apart. */
    method SplitLedger(user: nat) returns (kept: seq<L.Movement>, gone: set<nat>)
      ensures kept == L.Others(movements, user)
      ensures forall id :: id in gone <==> L.Owns(movements, user, id)
    {
      hide L.Owns;
      kept, gone := [], {};
      OwnsNothing(user);
      for i := 0 to |movements|
        invariant kept == L.Others(movements[..i], user)
        invariant forall id :: id in gone <==> L.Owns(movements[..i], user, id)
      {
        assert movements[..i + 1][..i] == movements[..i];
        assert movements[..i + 1] == movements[..i] + [movements[i]];
        OwnsOneMore(movements[..i], movements[i], user);
        if movements[i].customer == user {
          gone := gone + {movements[i].id};
        } else {
          kept := kept + [movements[i]];
        }
      }
      assert movements[..|movements|] == movements;
    }

    method BlankKeys(gone: set<nat>, user: nat)
      requires forall id :: id in gone <==> L.Owns(movements, user, id)
      modifies this`keys
      ensures keys == L.KeysLeft(old(keys), movements, user)
    {
      AnonymousKeys(keys, gone, movements, user);
      keys := map k | k in keys :: AnonymousKey(keys[k], gone, user);
    }

    method DeleteRows(gone: set<nat>, user: nat, closed: set<nat>, deletedAt: int)
      requires forall id :: id in gone <==> L.Owns(movements, user, id)
      modifies this`cards, this`previews, this`reversals
      ensures cards == L.CardsLeft(old(cards), user, closed)
      ensures previews == L.PreviewsLeft(old(previews), user, closed, deletedAt)
      ensures reversals == L.ReversalsLeft(old(reversals), movements, user)
    {
      hide L.Owns;
      cards := map at | at in cards && at.0 != user :: if at.1 in closed then cards[at].(active := false) else cards[at];
      previews := map i | i in previews && previews[i].customer != user && previews[i].actor != user ::
        if previews[i].brand in closed && !previews[i].consumed && deletedAt < previews[i].expires then previews[i].(expires := deletedAt) else previews[i];
      reversals := map i | i in reversals && i !in gone :: reversals[i];
    }

    method AnonymizeAccount(user: nat, closed: set<nat>, deletedAt: int)
      modifies this
      ensures Books() == L.Anonymize(old(Books()), user, closed, deletedAt)
    {
      hide L.Owns, L.KeysLeft, L.CardsLeft, L.PreviewsLeft, L.ReversalsLeft;
      var kept, gone := SplitLedger(user);
      BlankKeys(gone, user);
      DeleteRows(gone, user, closed, deletedAt);
      movements := kept;
    }

    method UpdateProgram(brand: nat, version: nat, kind: L.Program, manages: bool, subscribed: bool, hasBenefits: bool) returns (reply: L.Reply)
      modifies this`programs, this`versions
      ensures (Books(), reply) == L.UpdateProgram(old(Books()), brand, version, kind, manages, subscribed, hasBenefits)
    {
      if brand !in programs {
        return L.Failed(L.NotFound);
      }
      if !manages {
        return L.Failed(L.Forbidden);
      }
      if programs[brand] != kind {
        if subscribed {
          return L.Failed(L.SubscriptionActive);
        }
        var moved := exists i :: 0 <= i < |movements| && movements[i].brand == brand;
        if moved {
          return L.Failed(L.ProgramImmutable);
        }
        if hasBenefits {
          return L.Failed(L.ProgramHasBenefits);
        }
      }
      var current := if brand in versions then versions[brand] else 1;
      if current != version {
        return L.Failed(L.PreconditionFailed);
      }
      programs := programs[brand := kind];
      versions := versions[brand := version + 1];
      return L.Changed;
    }
  }

  function AnonymousKey(row: L.KeyRow, gone: set<nat>, user: nat): L.KeyRow {
    var blanked := if row.body.Confirmed? && row.body.movement in gone then row.(body := L.Blank) else row;
    if blanked.scope == L.User(user) then blanked.(scope := L.Deleted(user), fingerprint := 0, body := L.Blank) else blanked
  }

  lemma AnonymousKeys(keys: map<nat, L.KeyRow>, gone: set<nat>, ms: seq<L.Movement>, user: nat)
    requires forall id :: id in gone <==> L.Owns(ms, user, id)
    ensures (map k | k in keys :: AnonymousKey(keys[k], gone, user)) == L.KeysLeft(keys, ms, user)
  {
    hide L.Owns;
  }

  lemma OwnsNothing(user: nat)
    ensures forall id :: !L.Owns([], user, id)
  {
  }

  lemma OwnsOneMore(ms: seq<L.Movement>, m: L.Movement, user: nat)
    ensures forall id :: L.Owns(ms + [m], user, id) <==> L.Owns(ms, user, id) || (m.customer == user && m.id == id)
  {
    forall id ensures L.Owns(ms + [m], user, id) <==> L.Owns(ms, user, id) || (m.customer == user && m.id == id) {
      if L.Owns(ms, user, id) {
        var i :| 0 <= i < |ms| && ms[i].id == id && ms[i].customer == user;
        assert (ms + [m])[i] == ms[i];
      }
      if m.customer == user && m.id == id { assert (ms + [m])[|ms|] == m; }
    }
  }
}
