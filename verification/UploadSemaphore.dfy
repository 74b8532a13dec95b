/** The upload limiter (internal/middleware/upload_semaphore.go): a global channel, one gate per
    actor with a reference count, and requests that interleave between every channel operation and
    every critical section. */
module UploadSemaphore {
  import opened Common

  /** Where a request stands, by the next thing it does. */
  datatype Pc = AttachGate | TakeSlot | Holding | GiveGlobalBack | GiveSlotBack | GiveRefBack

  /** A request that entered: its actor and, once attached, its gate. */
  datatype Upload = Upload(actor: nat, pc: Pc, gate: nat)

  datatype Gate = Gate(slots: nat, refs: nat)

  /** Gates live on the heap; `actors` names the current one of each actor. */
  datatype Semaphore = Semaphore(globalLimit: nat, actorLimit: nat, global: nat, gates: map<nat, Gate>, actors: map<nat, nat>,
                                 uploads: map<nat, Upload>, nextGate: nat, nextUpload: nat)

  function New(globalLimit: nat, actorLimit: nat): Semaphore {
    Semaphore(globalLimit, actorLimit, 0, map[], map[], map[], 0, 0)
  }

  /** A request enters when the global channel has room; otherwise it is rejected at once. */
  function Enter(s: Semaphore, actor: nat): Semaphore {
    if s.global < s.globalLimit then
      s.(global := s.global + 1, uploads := s.uploads[s.nextUpload := Upload(actor, AttachGate, 0)], nextUpload := s.nextUpload + 1)
    else s
  }

  function Attach(s: Semaphore, u: nat): Semaphore
    requires u in s.uploads
  {
    var actor := s.uploads[u].actor;
    if actor in s.actors && s.actors[actor] in s.gates then
      var g := s.actors[actor];
      s.(gates := s.gates[g := s.gates[g].(refs := s.gates[g].refs + 1)], uploads := s.uploads[u := Upload(actor, TakeSlot, g)])
    else
      s.(gates := s.gates[s.nextGate := Gate(0, 1)], actors := s.actors[actor := s.nextGate],
         uploads := s.uploads[u := Upload(actor, TakeSlot, s.nextGate)], nextGate := s.nextGate + 1)
  }

  function MoveTo(s: Semaphore, u: nat, pc: Pc): Semaphore
    requires u in s.uploads
  {
    s.(uploads := s.uploads[u := s.uploads[u].(pc := pc)])
  }

  function WithGate(s: Semaphore, g: nat, gate: Gate): Semaphore {
    s.(gates := s.gates[g := gate])
  }

  /** One atomic operation of a request. A receive from an empty channel would block; such a step
      leaves the state as it is. */
  function Advance(s: Semaphore, u: nat): Semaphore
    requires u in s.uploads
  {
    var upload := s.uploads[u];
    match upload.pc
    case AttachGate => Attach(s, u)
    case TakeSlot =>
      if upload.gate !in s.gates then s
      else if s.gates[upload.gate].slots < s.actorLimit then
        MoveTo(WithGate(s, upload.gate, s.gates[upload.gate].(slots := s.gates[upload.gate].slots + 1)), u, Holding)
      else MoveTo(s, u, GiveGlobalBack)
    case Holding => MoveTo(s, u, GiveSlotBack)
    case GiveSlotBack =>
      if upload.gate !in s.gates || s.gates[upload.gate].slots == 0 then s
      else MoveTo(WithGate(s, upload.gate, s.gates[upload.gate].(slots := s.gates[upload.gate].slots - 1)), u, GiveGlobalBack)
    case GiveGlobalBack =>
      if s.global == 0 then s else MoveTo(s.(global := s.global - 1), u, GiveRefBack)
    case GiveRefBack =>
      if upload.gate !in s.gates || s.gates[upload.gate].refs == 0 then s
      else
        var gate := s.gates[upload.gate];
        var s1 := WithGate(s, upload.gate, gate.(refs := gate.refs - 1));
        s1.(actors := if gate.refs == 1 then s.actors - {upload.actor} else s.actors, uploads := s.uploads - {u})
  }

  datatype Choice = Arrive(actor: nat) | Go(upload: nat)

  function Step(s: Semaphore, c: Choice): Semaphore {
    match c
    case Arrive(actor) => Enter(s, actor)
    case Go(u) => if u in s.uploads then Advance(s, u) else s
  }

  function Run(s: Semaphore, cs: seq<Choice>): Semaphore {
    if cs == [] then s else Step(Run(s, cs[..|cs| - 1]), cs[|cs| - 1])
  }

  // ---------------------------------------------------------------------------
  // Counting requests
  // ---------------------------------------------------------------------------

  predicate HasGlobal(u: Upload) {
    !u.pc.GiveRefBack?
  }

  predicate HasSlot(u: Upload, g: nat) {
    (u.pc.Holding? || u.pc.GiveSlotBack?) && u.gate == g
  }

  predicate HasRef(u: Upload, g: nat) {
    !u.pc.AttachGate? && u.gate == g
  }

  /** Which share of the semaphore a count is about. */
  datatype Share = OfGlobal | OfSlots(gate: nat) | OfRefs(gate: nat) | OfHolders | OfActor(actor: nat) | OfLeaving(actor: nat)

  predicate Has(u: Upload, share: Share) {
    match share
    case OfGlobal => HasGlobal(u)
    case OfSlots(g) => HasSlot(u, g)
    case OfRefs(g) => HasRef(u, g)
    case OfHolders => u.pc.Holding?
    case OfActor(a) => u.actor == a && u.pc.Holding?
    case OfLeaving(a) => u.actor == a && u.pc.GiveSlotBack?
  }

  function Sharing(uploads: map<nat, Upload>, share: Share): set<nat> {
    set u | u in uploads && Has(uploads[u], share)
  }

  function Count(uploads: map<nat, Upload>, share: Share): nat {
    |Sharing(uploads, share)|
  }

  function One(b: bool): nat {
    if b then 1 else 0
  }

  lemma CountMoves(uploads: map<nat, Upload>, u: nat, to: Upload, share: Share)
    ensures Count(uploads[u := to], share)
            == Count(uploads, share) - One(u in uploads && Has(uploads[u], share)) + One(Has(to, share))
  {
    hide Has;
    var before, after := Sharing(uploads, share), Sharing(uploads[u := to], share);
    if Has(to, share) {
      if u in before { assert after == before; } else { assert after == before + {u}; }
    } else {
      assert after == before - {u};
    }
  }

  lemma CountLeaves(uploads: map<nat, Upload>, u: nat, share: Share)
    requires u in uploads
    ensures Count(uploads - {u}, share) == Count(uploads, share) - One(Has(uploads[u], share))
  {
    assert Sharing(uploads - {u}, share) == Sharing(uploads, share) - {u};
  }

  lemma Counted(uploads: map<nat, Upload>, u: nat, share: Share)
    requires u in uploads && Has(uploads[u], share)
    ensures Count(uploads, share) >= 1
  {
    assert u in Sharing(uploads, share);
  }

  lemma CountNone(uploads: map<nat, Upload>, share: Share)
    requires forall u | u in uploads :: !Has(uploads[u], share)
    ensures Count(uploads, share) == 0
  {
    assert Sharing(uploads, share) == {};
  }

  lemma CountFits(uploads: map<nat, Upload>, part: Share, whole: Share)
    requires forall u | u in uploads && Has(uploads[u], part) :: Has(uploads[u], whole)
    ensures Count(uploads, part) <= Count(uploads, whole)
  {
    var a, b := Sharing(uploads, part), Sharing(uploads, whole);
    assert b == a + (b - a);
  }

  lemma CountSplits(uploads: map<nat, Upload>, a: Share, b: Share, whole: Share)
    requires forall u | u in uploads :: Has(uploads[u], whole) <==> Has(uploads[u], a) || Has(uploads[u], b)
    requires forall u | u in uploads :: !(Has(uploads[u], a) && Has(uploads[u], b))
    ensures Count(uploads, whole) == Count(uploads, a) + Count(uploads, b)
  {
    var sa, sb := Sharing(uploads, a), Sharing(uploads, b);
    assert Sharing(uploads, whole) == sa + sb && sa !! sb;
  }

  // ---------------------------------------------------------------------------
  // Invariant
  // ---------------------------------------------------------------------------

  /** Every counter is the number of requests that hold a share of it. */
  predicate CountersRight(s: Semaphore) {
    && s.global == Count(s.uploads, OfGlobal) <= s.globalLimit
    && forall g | g in s.gates :: && s.gates[g].slots == Count(s.uploads, OfSlots(g)) <= s.actorLimit
                                  && s.gates[g].refs == Count(s.uploads, OfRefs(g))
  }

  predicate Fresh(s: Semaphore) {
    && (forall g | g in s.gates :: g < s.nextGate)
    && (forall u | u in s.uploads :: u < s.nextUpload && (!s.uploads[u].pc.AttachGate? ==> s.uploads[u].gate in s.gates))
  }

  /** A gate is in the table exactly while somebody refers to it, under the actor of all who do. */
  predicate TableRight(s: Semaphore) {
    && (forall u | u in s.uploads && !s.uploads[u].pc.AttachGate? ::
          s.uploads[u].actor in s.actors && s.actors[s.uploads[u].actor] == s.uploads[u].gate)
    && (forall a | a in s.actors :: s.actors[a] in s.gates && s.gates[s.actors[a]].refs >= 1)
    && (forall a, b | a in s.actors && b in s.actors && s.actors[a] == s.actors[b] :: a == b)
  }

  predicate Inv(s: Semaphore) {
    CountersRight(s) && Fresh(s) && TableRight(s)
  }

  lemma EnterKeeps(s: Semaphore, actor: nat)
    requires Inv(s)
    ensures Inv(Enter(s, actor))
  {
    hide Count;
    var to := Upload(actor, AttachGate, 0);
    CountMoves(s.uploads, s.nextUpload, to, OfGlobal);
    forall g ensures Count(s.uploads[s.nextUpload := to], OfSlots(g)) == Count(s.uploads, OfSlots(g))
                     && Count(s.uploads[s.nextUpload := to], OfRefs(g)) == Count(s.uploads, OfRefs(g))
    {
      CountMoves(s.uploads, s.nextUpload, to, OfSlots(g));
      CountMoves(s.uploads, s.nextUpload, to, OfRefs(g));
    }
  }

  lemma MoveCounts(s: Semaphore, u: nat, to: Upload, g: nat)
    requires u in s.uploads
    ensures Count(s.uploads[u := to], OfGlobal) == Count(s.uploads, OfGlobal) - One(HasGlobal(s.uploads[u])) + One(HasGlobal(to))
    ensures Count(s.uploads[u := to], OfSlots(g)) == Count(s.uploads, OfSlots(g)) - One(HasSlot(s.uploads[u], g)) + One(HasSlot(to, g))
    ensures Count(s.uploads[u := to], OfRefs(g)) == Count(s.uploads, OfRefs(g)) - One(HasRef(s.uploads[u], g)) + One(HasRef(to, g))
  {
    CountMoves(s.uploads, u, to, OfGlobal);
    CountMoves(s.uploads, u, to, OfSlots(g));
    CountMoves(s.uploads, u, to, OfRefs(g));
  }

  lemma AttachKeeps(s: Semaphore, u: nat)
    requires Inv(s) && u in s.uploads && s.uploads[u].pc.AttachGate?
    ensures Inv(Attach(s, u))
  {
    hide Count;
    var after := Attach(s, u);
    var to := after.uploads[u];
    if after.nextGate > s.nextGate {
      forall v | v in s.uploads ensures !Has(s.uploads[v], OfSlots(s.nextGate)) && !Has(s.uploads[v], OfRefs(s.nextGate)) {}
      CountNone(s.uploads, OfSlots(s.nextGate));
      CountNone(s.uploads, OfRefs(s.nextGate));
    }
    MoveCounts(s, u, to, to.gate);
    forall g | g in after.gates
      ensures after.gates[g].slots == Count(after.uploads,
          OfSlots(g)) <= s.actorLimit && after.gates[g].refs == Count(after.uploads, OfRefs(g))
    {
      MoveCounts(s, u, to, g);
    }
  }

  lemma MoveKeeps(s: Semaphore, u: nat)
    requires Inv(s) && u in s.uploads && !s.uploads[u].pc.AttachGate? && !s.uploads[u].pc.GiveRefBack?
    ensures Inv(Advance(s, u))
  {
    hide Count;
    var after := Advance(s, u);
    var to := after.uploads[u];
    MoveCounts(s, u, to, to.gate);
    if Has(s.uploads[u], OfSlots(to.gate)) { Counted(s.uploads, u, OfSlots(to.gate)); }
    Counted(s.uploads, u, OfGlobal);
    forall g | g in after.gates
      ensures after.gates[g].slots == Count(after.uploads,
          OfSlots(g)) <= s.actorLimit && after.gates[g].refs == Count(after.uploads, OfRefs(g))
    {
      MoveCounts(s, u, to, g);
    }
    assert after.uploads == s.uploads[u := to];
  }

  lemma LeaveKeeps(s: Semaphore, u: nat)
    requires Inv(s) && u in s.uploads && s.uploads[u].pc.GiveRefBack?
    ensures Inv(Advance(s, u))
  {
    hide Count;
    var upload, after := s.uploads[u], Advance(s, u);
    Counted(s.uploads, u, OfRefs(upload.gate));
    CountLeaves(s.uploads, u, OfGlobal);
    forall g | g in after.gates
      ensures after.gates[g].slots == Count(after.uploads,
          OfSlots(g)) <= s.actorLimit && after.gates[g].refs == Count(after.uploads, OfRefs(g))
    {
      CountLeaves(s.uploads, u, OfSlots(g));
      CountLeaves(s.uploads, u, OfRefs(g));
    }
    forall v | v in after.uploads && !after.uploads[v].pc.AttachGate? ensures after.uploads[v].actor in after.actors {
      if s.uploads[v].actor == upload.actor { Counted(after.uploads, v, OfRefs(upload.gate)); }
    }
  }

  lemma StepKeeps(s: Semaphore, c: Choice)
    requires Inv(s)
    ensures Inv(Step(s, c))
  {
    match c
    case Arrive(actor) => EnterKeeps(s, actor);
    case Go(u) =>
      hide Inv;
      if u in s.uploads {
        if s.uploads[u].pc.AttachGate? { AttachKeeps(s, u); }
        else if s.uploads[u].pc.GiveRefBack? { LeaveKeeps(s, u); }
        else { MoveKeeps(s, u); }
      }
  }

  lemma {:induction false} RunKeeps(globalLimit: nat, actorLimit: nat, cs: seq<Choice>)
    ensures Inv(Run(New(globalLimit, actorLimit), cs))
  {
    if cs == [] {
      CountNone(map[], OfGlobal);
    } else {
      RunKeeps(globalLimit, actorLimit, cs[..|cs| - 1]);
      StepKeeps(Run(New(globalLimit, actorLimit), cs[..|cs| - 1]), cs[|cs| - 1]);
    }
  }

  // ---------------------------------------------------------------------------
  // The promises
  // ---------------------------------------------------------------------------

  lemma LimitsAreFixed(s: Semaphore, c: Choice)
    ensures Step(s, c).globalLimit == s.globalLimit && Step(s, c).actorLimit == s.actorLimit
  {
  }

  lemma {:induction false} RunLimits(s: Semaphore, cs: seq<Choice>)
    ensures Run(s, cs).globalLimit == s.globalLimit && Run(s, cs).actorLimit == s.actorLimit
  {
    if cs != [] {
      RunLimits(s, cs[..|cs| - 1]);
      LimitsAreFixed(Run(s, cs[..|cs| - 1]), cs[|cs| - 1]);
    }
  }

  /** Whatever the interleaving, an actor never holds more than its limit and all actors together
      never more than the global limit: a gate that is dropped and made again never adds a quota. */
  lemma QuotasHold(globalLimit: nat, actorLimit: nat, cs: seq<Choice>, actor: nat)
    ensures var s := Run(New(globalLimit, actorLimit), cs);
            && Count(s.uploads, OfActor(actor)) <= actorLimit
            && Count(s.uploads, OfHolders) <= globalLimit
  {
    hide Run;
    RunKeeps(globalLimit, actorLimit, cs);
    RunLimits(New(globalLimit, actorLimit), cs);
    HoldersWithinLimits(Run(New(globalLimit, actorLimit), cs), actor);
  }

  lemma GateFacts(s: Semaphore, actor: nat)
    requires Inv(s)
    ensures actor in s.actors ==>
              && s.actors[actor] in s.gates
              && s.gates[s.actors[actor]].slots == Count(s.uploads, OfSlots(s.actors[actor])) <= s.actorLimit
              && forall u | u in s.uploads && !s.uploads[u].pc.AttachGate? ::
                  s.uploads[u].gate == s.actors[actor] <==> s.uploads[u].actor == actor
    ensures actor !in s.actors ==> forall u | u in s.uploads && s.uploads[u].actor == actor :: s.uploads[u].pc.AttachGate?
    ensures s.global == Count(s.uploads, OfGlobal) <= s.globalLimit
  {
    hide Count, Fresh;
  }

  lemma HoldersWithinLimits(s: Semaphore, actor: nat)
    requires Inv(s)
    ensures Count(s.uploads, OfActor(actor)) <= s.actorLimit && Count(s.uploads, OfHolders) <= s.globalLimit
  {
    hide Inv, Count;
    GateFacts(s, actor);
    CountFits(s.uploads, OfHolders, OfGlobal);
    if actor in s.actors {
      CountFits(s.uploads, OfActor(actor), OfSlots(s.actors[actor]));
    } else {
      CountNone(s.uploads, OfActor(actor));
    }
  }

  /** An actor has an entry exactly while one of its requests refers to its gate. */
  lemma EntriesAreReferred(globalLimit: nat, actorLimit: nat, cs: seq<Choice>, actor: nat)
    ensures var s := Run(New(globalLimit, actorLimit), cs);
            && (actor in s.actors ==> s.actors[actor] in s.gates)
            && (actor in s.actors <==> exists u :: u in s.uploads && s.uploads[u].actor == actor && !s.uploads[u].pc.AttachGate?)
            && forall u, v | u in s.uploads && v in s.uploads && !s.uploads[u].pc.AttachGate? && !s.uploads[v].pc.AttachGate?
                             && s.uploads[u].actor == s.uploads[v].actor :: s.uploads[u].gate == s.uploads[v].gate
  {
    RunKeeps(globalLimit, actorLimit, cs);
    var s := Run(New(globalLimit, actorLimit), cs);
    if actor in s.actors {
      var g := s.actors[actor];
      assert Sharing(s.uploads, OfRefs(g)) != {};
      var u :| u in Sharing(s.uploads, OfRefs(g));
      assert s.actors[s.uploads[u].actor] == g;
    }
  }

  /** What a request will take back is there. */
  lemma HeldShares(s: Semaphore, u: nat)
    requires Inv(s) && u in s.uploads
    ensures HasGlobal(s.uploads[u]) ==> s.global >= 1
    ensures !s.uploads[u].pc.AttachGate? ==> s.uploads[u].gate in s.gates && s.gates[s.uploads[u].gate].refs >= 1
    ensures HasSlot(s.uploads[u], s.uploads[u].gate) ==> s.gates[s.uploads[u].gate].slots >= 1
  {
    hide Count;
    var upload := s.uploads[u];
    if HasSlot(upload, upload.gate) { Counted(s.uploads, u, OfSlots(upload.gate)); }
    if HasGlobal(upload) { Counted(s.uploads, u, OfGlobal); }
    if HasRef(upload, upload.gate) { Counted(s.uploads, u, OfRefs(upload.gate)); }
  }

  /** No request ever waits for a channel: each of its operations goes through. */
  lemma NothingBlocks(globalLimit: nat, actorLimit: nat, cs: seq<Choice>, u: nat)
    requires u in Run(New(globalLimit, actorLimit), cs).uploads
    ensures var s := Run(New(globalLimit, actorLimit), cs);
            u in Advance(s, u).uploads ==> Advance(s, u).uploads[u].pc != s.uploads[u].pc
  {
    hide Run, Inv;
    RunKeeps(globalLimit, actorLimit, cs);
    HeldShares(Run(New(globalLimit, actorLimit), cs), u);
  }

  /** When everybody is gone all counts are back to zero and the table is empty. */
  lemma AllReturns(globalLimit: nat, actorLimit: nat, cs: seq<Choice>)
    requires Run(New(globalLimit, actorLimit), cs).uploads == map[]
    ensures var s := Run(New(globalLimit, actorLimit), cs);
            s.global == 0 && s.actors == map[] && forall g | g in s.gates :: s.gates[g] == Gate(0, 0)
  {
    RunKeeps(globalLimit, actorLimit, cs);
    var s := Run(New(globalLimit, actorLimit), cs);
    CountNone(s.uploads, OfGlobal);
    forall g | g in s.gates ensures s.gates[g] == Gate(0, 0) {
      CountNone(s.uploads, OfSlots(g));
      CountNone(s.uploads, OfRefs(g));
    }
    assert s.actors.Keys == {};
  }

  // ---------------------------------------------------------------------------
  // One request after the other
  // ---------------------------------------------------------------------------

  /** The next n operations of one request. */
  function Steps(s: Semaphore, u: nat, n: nat): Semaphore
    decreases n
  {
    if n == 0 then s else Steps(Step(s, Go(u)), u, n - 1)
  }

  /** A whole acquire: enter, attach, take a slot; and the way back out when the actor is at its limit. */
  function Acquired(s: Semaphore, actor: nat): (Semaphore, Option<nat>) {
    if s.global >= s.globalLimit then (s, None)
    else
      var u := s.nextUpload;
      var s1 := Steps(Enter(s, actor), u, 2);
      if u in s1.uploads && s1.uploads[u].pc.Holding? then (s1, Some(u)) else (Steps(s1, u, 2), None)
  }

  /** An acquire succeeds exactly when both limits have room; then its actor holds one slot more. A
      rejected one leaves the counts, the table and the other requests as they were. */
  lemma AcquireSucceedsWhen(s: Semaphore, actor: nat)
    requires Inv(s)
    ensures var (after, handle) := Acquired(s, actor);
            && (handle.Some? <==>
                  s.global < s.globalLimit && Count(s.uploads, OfActor(actor)) + Count(s.uploads, OfLeaving(actor)) < s.actorLimit)
            && (handle.Some? ==> && handle.value == s.nextUpload && actor in after.actors
                                 && after.uploads == s.uploads[s.nextUpload := Upload(actor, Holding, after.actors[actor])])
            && (handle.None? ==> after.uploads == s.uploads && after.actors == s.actors && after.global == s.global)
  {
    hide Inv, Count, Attach, Advance;
    SlotsTaken(s, actor);
    if s.global < s.globalLimit { AcquireSteps(s, actor); }
  }

  lemma NewIsUnused(s: Semaphore)
    requires Inv(s)
    ensures s.nextUpload !in s.uploads && s.nextGate !in s.gates
  {
    hide Count;
  }

  lemma AcquireSteps(s: Semaphore, actor: nat)
    requires Inv(s) && s.global < s.globalLimit
    ensures var (after, handle) := Acquired(s, actor);
            && (handle.Some? <==> (if actor in s.actors && s.actors[actor] in s.gates then
                s.gates[s.actors[actor]].slots else 0) < s.actorLimit)
            && (handle.Some? ==> && handle.value == s.nextUpload && actor in after.actors
                                 && after.uploads == s.uploads[s.nextUpload := Upload(actor, Holding, after.actors[actor])])
            && (handle.None? ==> after.uploads == s.uploads && after.actors == s.actors && after.global == s.global)
  {
    hide Inv, Count, Steps, Attach, Advance, Step;
    NewIsUnused(s);
    RefsCounted(s, actor);
    var u := s.nextUpload;
    var s0 := Enter(s, actor);
    TwoSteps(s0, u);
    var s1 := Attach(s0, u);
    Attaches(s0, u);
    var s2 := Advance(s1, u);
    TakesSlot(s1, u);
    TwoSteps(s2, u);
    if !s2.uploads[u].pc.Holding? {
      GoesAway(s2, u);
      assert s0.uploads - {u} == s.uploads;
      if actor !in s.actors { assert s1.actors - {actor} == s.actors; }
    }
  }

  lemma TwoSteps(s: Semaphore, u: nat)
    ensures Steps(s, u, 2) == Step(Step(s, Go(u)), Go(u))
  {
    hide Step;
    assert Steps(Step(s, Go(u)), u, 1) == Steps(Step(Step(s, Go(u)), Go(u)), u, 0);
  }

  lemma Attaches(s: Semaphore, u: nat)
    requires u in s.uploads && s.uploads[u].pc.AttachGate?
    ensures var actor, s1 := s.uploads[u].actor, Attach(s, u);
            && actor in s1.actors && s1.actors[actor] in s1.gates && Step(s, Go(u)) == s1
            && s1.uploads == s.uploads[u := Upload(actor, TakeSlot, s1.actors[actor])]
            && s1.actors == (if actor in s.actors && s.actors[actor] in s.gates then s.actors else s.actors[actor := s.nextGate])
            && s1.gates[s1.actors[actor]].slots == (if actor in s.actors && s.actors[actor] in s.gates then
                s.gates[s.actors[actor]].slots else 0)
            && s1.gates[s1.actors[actor]].refs == (if actor in s.actors && s.actors[actor] in s.gates then
                s.gates[s.actors[actor]].refs else 0) + 1
            && s1.global == s.global && s1.actorLimit == s.actorLimit
  {
  }

  lemma TakesSlot(s: Semaphore, u: nat)
    requires u in s.uploads && s.uploads[u].pc.TakeSlot? && s.uploads[u].gate in s.gates
    ensures var upload, s1 := s.uploads[u], Advance(s, u);
            && Step(s, Go(u)) == s1 && s1.actors == s.actors && s1.global == s.global
            && s1.uploads == s.uploads[u := upload.(pc := if s.gates[upload.gate].slots < s.actorLimit then Holding else GiveGlobalBack)]
            && upload.gate in s1.gates && s1.gates[upload.gate].refs == s.gates[upload.gate].refs
  {
  }

  lemma GoesAway(s: Semaphore, u: nat)
    requires u in s.uploads && s.uploads[u].pc.GiveGlobalBack? && s.global >= 1
    requires s.uploads[u].gate in s.gates && s.gates[s.uploads[u].gate].refs >= 1
    ensures var after := Step(Step(s, Go(u)), Go(u));
            && after.uploads == s.uploads - {u} && after.global == s.global - 1
            && after.actors == if s.gates[s.uploads[u].gate].refs == 1 then s.actors - {s.uploads[u].actor} else s.actors
  {
  }

  lemma RefsCounted(s: Semaphore, actor: nat)
    requires Inv(s)
    ensures actor in s.actors ==> s.actors[actor] in s.gates && s.gates[s.actors[actor]].refs >= 1
  {
    hide Count;
  }

  lemma SlotsTaken(s: Semaphore, actor: nat)
    requires Inv(s)
    ensures actor in s.actors ==> s.actors[actor] in s.gates
    ensures Count(s.uploads, OfActor(actor)) + Count(s.uploads, OfLeaving(actor))
            == if actor in s.actors then s.gates[s.actors[actor]].slots else 0
  {
    hide Inv, Count;
    GateFacts(s, actor);
    if actor in s.actors {
      CountSplits(s.uploads, OfActor(actor), OfLeaving(actor), OfSlots(s.actors[actor]));
    } else {
      CountNone(s.uploads, OfActor(actor));
      CountNone(s.uploads, OfLeaving(actor));
    }
  }

  class Limiter {
    const globalLimit: nat
    const actorLimit: nat
    var global: nat
    var gates: map<nat, Gate>
    var actors: map<nat, nat>
    var uploads: map<nat, Upload>
    var nextGate: nat
    var nextUpload: nat

    constructor (globalLimit: nat, actorLimit: nat)
      ensures State() == New(globalLimit, actorLimit)
    {
      this.globalLimit, this.actorLimit, global, gates, actors := globalLimit, actorLimit, 0, map[], map[];
      uploads, nextGate, nextUpload := map[], 0, 0;
    }

    ghost function State(): Semaphore
      reads this
    {
      Semaphore(globalLimit, actorLimit, global, gates, actors, uploads, nextGate, nextUpload)
    }

    /** The critical section that finds or makes the actor's gate. */
    method AttachTo(u: nat)
      requires Inv(State()) && u in uploads && uploads[u].pc.AttachGate?
      modifies this`gates, this`actors, this`uploads, this`nextGate
      ensures Inv(State()) && State() == Step(old(State()), Go(u))
    {
      hide Inv;
      Attaches(State(), u);
      AttachKeeps(State(), u);
      RefsCounted(State(), uploads[u].actor);
      var actor := uploads[u].actor;
      if actor !in actors {
        gates, actors := gates[nextGate := Gate(0, 0)], actors[actor := nextGate];
        nextGate := nextGate + 1;
      }
      var g := actors[actor];
      gates := gates[g := gates[g].(refs := gates[g].refs + 1)];
      uploads := uploads[u := Upload(actor, TakeSlot, g)];
      assert gates == Attach(old(State()), u).gates;
    }

    method TrySlot(u: nat) returns (ok: bool)
      requires Inv(State()) && u in uploads && uploads[u].pc.TakeSlot?
      modifies this`gates, this`uploads
      ensures Inv(State()) && State() == Step(old(State()), Go(u))
      ensures u in uploads && uploads[u].pc == if ok then Holding else GiveGlobalBack
    {
      hide Inv;
      MoveKeeps(State(), u);
      HeldShares(State(), u);
      var upload := uploads[u];
      if gates[upload.gate].slots >= actorLimit {
        uploads := uploads[u := upload.(pc := GiveGlobalBack)];
        return false;
      }
      gates := gates[upload.gate := gates[upload.gate].(slots := gates[upload.gate].slots + 1)];
      uploads := uploads[u := upload.(pc := Holding)];
      return true;
    }

    method EnterGlobal(actor: nat)
      requires Inv(State()) && global < globalLimit
      modifies this`global, this`uploads, this`nextUpload
      ensures Inv(State()) && State() == Enter(old(State()), actor)
    {
      hide Inv;
      EnterKeeps(State(), actor);
      global := global + 1;
      uploads := uploads[nextUpload := Upload(actor, AttachGate, 0)];
      nextUpload := nextUpload + 1;
    }

    method Acquire(actor: nat) returns (handle: Option<nat>)
      requires Inv(State())
      modifies this
      ensures Inv(State()) && (State(), handle) == Acquired(old(State()), actor)
    {
      hide Inv, Step, Steps;
      if global >= globalLimit {
        return None;
      }
      var u := nextUpload;
      EnterGlobal(actor);
      TwoSteps(State(), u);
      StepsTo(old(State()), actor);
      AttachTo(u);
      var ok := TrySlot(u);
      if !ok {
        GiveBack(u);
        return None;
      }
      return Some(u);
    }

    /** `<-s.global`, then releaseRef. */
    method GiveBack(u: nat)
      requires Inv(State()) && u in uploads && uploads[u].pc.GiveGlobalBack?
      modifies this`global, this`gates, this`actors, this`uploads
      ensures Inv(State()) && State() == Steps(old(State()), u, 2)
    {
      hide Inv, Steps;
      TwoSteps(State(), u);
      MoveKeeps(State(), u);
      HeldShares(State(), u);
      global := global - 1;
      uploads := uploads[u := uploads[u].(pc := GiveRefBack)];
      ReleaseRef(u);
    }

    method GiveSlot(u: nat)
      requires Inv(State()) && u in uploads && uploads[u].pc.Holding?
      modifies this`gates, this`uploads
      ensures Inv(State()) && State() == Steps(old(State()), u, 2)
      ensures u in uploads && uploads[u].pc.GiveGlobalBack?
    {
      hide Inv, Steps;
      TwoSteps(State(), u);
      MoveKeeps(State(), u);
      HeldShares(State(), u);
      MoveKeeps(Step(State(), Go(u)), u);
      var upload := uploads[u];
      gates := gates[upload.gate := gates[upload.gate].(slots := gates[upload.gate].slots - 1)];
      uploads := uploads[u := upload.(pc := GiveGlobalBack)];
      assert uploads == Step(Step(old(State()), Go(u)), Go(u)).uploads;
    }

    /** The returned closure. It runs once; calling it again does nothing. */
    method Release(handle: nat)
      requires Inv(State())
      requires handle in uploads ==> uploads[handle].pc.Holding?
      modifies this
      ensures Inv(State()) && State() == if handle in old(uploads) then Steps(Steps(old(State()), handle, 2), handle, 2) else old(State())
    {
      hide Inv, Steps;
      if handle in uploads {
        GiveSlot(handle);
        GiveBack(handle);
      }
    }

    method ReleaseRef(u: nat)
      requires Inv(State()) && u in uploads && uploads[u].pc.GiveRefBack?
      modifies this`gates, this`actors, this`uploads
      ensures Inv(State()) && State() == Step(old(State()), Go(u))
    {
      hide Inv;
      LeaveKeeps(State(), u);
      HeldShares(State(), u);
      var upload := uploads[u];
      gates := gates[upload.gate := gates[upload.gate].(refs := gates[upload.gate].refs - 1)];
      if gates[upload.gate].refs == 0 {
        actors := actors - {upload.actor};
      }
      uploads := uploads - {u};
    }
  }

  lemma StepsTo(s: Semaphore, actor: nat)
    requires s.global < s.globalLimit
    ensures var u, s1 := s.nextUpload, Step(Enter(s, actor), Go(s.nextUpload)); u in s1.uploads && s1.uploads[u].pc.TakeSlot?
  {
  }
}
