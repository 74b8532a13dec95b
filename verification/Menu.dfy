/** Branch menus: immutable uploads, the draft and published pointers of a branch, signed links and
    the leased deletion of what is no longer named (internal/repository/menu.go, its callers in
    internal/service/menu.go and internal/maintenance/worker.go, and the trigger of migration 0041).
    Seconds on the database clock; the clock of the service may differ from it by up to a minute. */
module Menu {
  import opened Common

  const GRACE: int := 360
  const URL_MAX_TTL: int := 300
  const CLOCK_MARGIN: int := 60
  const LEASE: int := 300
  const ABANDONED_AFTER: int := 900
  const RETRY_AFTER: int := 3600

  datatype State = UploadPending | Ready | DeletePending | Deleted

  datatype Document = Document(branch: nat, state: State, created: int, deleteAfter: Option<int>, leaseOwner: Option<nat>, leaseUntil: int)

  datatype Pointers = Pointers(version: nat, draft: Option<nat>, published: Option<nat>)

  /** How far the service is with an upload it reserved: its object is being stored, is stored, or the
      upload is over. */
  datatype Phase = Storing | Stored | Over

  datatype Upload = Upload(version: nat, phase: Phase)

  datatype Link = Link(document: nat, expires: int)

  /** A deletion a worker has claimed and not reported yet. */
  datatype Task = Task(owner: nat, document: nat)

  datatype Shelf = Shelf(now: int, active: set<nat>, menus: map<nat, Pointers>, docs: map<nat, Document>, uploads: map<nat, Upload>,
                         stored: set<nat>, links: set<Link>, tasks: set<Task>)

  datatype Error = NotFound | PreconditionFailed | StorageFailed | Conflict
  datatype Reply = Failed(error: Error) | Shown(pointers: Pointers) | Accepted

  function MenuOf(s: Shelf, branch: nat): Pointers {
    if branch in s.menus then s.menus[branch] else Pointers(1, None, None)
  }

  predicate Names(p: Pointers, d: nat) {
    p.draft == Some(d) || p.published == Some(d)
  }

  // ---------------------------------------------------------------------------
  // Links
  // ---------------------------------------------------------------------------

  function LinkTtl(configured: int): (ttl: int)
    ensures 0 < ttl <= URL_MAX_TTL
    ensures 0 < configured <= URL_MAX_TTL ==> ttl == configured
  {
    if configured <= 0 || configured > URL_MAX_TTL then URL_MAX_TTL else configured
  }

  function SignOne(s: Shelf, d: Option<nat>, offset: int, configured: int): set<Link> {
    if d.None? then {} else {Link(d.value, s.now + offset + LinkTtl(configured))}
  }

  /** Links to what a menu names, signed at the service's own time. */
  function Sign(s: Shelf, p: Pointers, offset: int, configured: int): Shelf {
    s.(links := s.links + SignOne(s, p.draft, offset, configured) + SignOne(s, p.published, offset, configured))
  }

  // ---------------------------------------------------------------------------
  // Transactions
  // ---------------------------------------------------------------------------

  /** Detached for good: deleted after the grace that outlives every link. */
  function Retired(doc: Document, now: int): Document {
    if doc.state.UploadPending? || doc.state.Ready? then
      doc.(state := DeletePending, deleteAfter := Some(now + GRACE), leaseOwner := None)
    else doc
  }

  function Retire(s: Shelf, d: Option<nat>): Shelf {
    if d.Some? && d.value in s.docs then s.(docs := s.docs[d.value := Retired(s.docs[d.value], s.now)]) else s
  }

  function Reserve(s: Shelf, branch: nat, version: nat, d: nat): (Shelf, Reply) {
    if branch !in s.active || d in s.docs then (s, Failed(NotFound))
    else if MenuOf(s, branch).version != version then (s, Failed(PreconditionFailed))
    else
      (s.(docs := s.docs[d := Document(branch, UploadPending, s.now, None, None, 0)],
          uploads := s.uploads[d := Upload(version, Storing)]), Accepted)
  }

  function PutMenu(s: Shelf, branch: nat, p: Pointers): Shelf {
    s.(menus := s.menus[branch := p])
  }

  /** A stored upload becomes the draft, and the draft it replaces is retired. */
  function Activate(s: Shelf, branch: nat, version: nat, d: nat): (Shelf, Reply) {
    var p := MenuOf(s, branch);
    if branch !in s.active then (s, Failed(NotFound))
    else if p.version != version then (s, Failed(PreconditionFailed))
    else if d !in s.docs || s.docs[d].branch != branch || !s.docs[d].state.UploadPending? || s.docs[d].leaseOwner.Some? then (s, Failed(NotFound))
    else
      var s1 := s.(docs := s.docs[d := s.docs[d].(state := Ready)]);
      var p1 := Pointers(p.version + 1, Some(d), p.published);
      (Retire(PutMenu(s1, branch, p1), p.draft), Shown(p1))
  }

  datatype Change = Publish(document: nat) | Unpublish | Discard

  function ChangePublication(s: Shelf, branch: nat, version: nat, change: Change): (Shelf, Reply) {
    var p := MenuOf(s, branch);
    if branch !in s.active then (s, Failed(NotFound))
    else if p.version != version then (s, Failed(PreconditionFailed))
    else
      match change
      case Publish(d) =>
        if p.published == Some(d) then (s, Shown(p))
        else if p.draft != Some(d) then (s, Failed(NotFound))
        else
          var p1 := Pointers(p.version + 1, None, p.draft);
          (Retire(PutMenu(s, branch, p1), p.published), Shown(p1))
      case Unpublish =>
        if p.published.None? then (s, Shown(p))
        else
          var p1 := Pointers(p.version + 1, p.draft, None);
          (Retire(PutMenu(s, branch, p1), p.published), Shown(p1))
      case Discard =>
        if p.draft.None? then (s, Shown(p))
        else
          var p1 := Pointers(p.version + 1, None, p.published);
          (Retire(PutMenu(s, branch, p1), p.draft), Shown(p1))
  }

  /** Compensation of an upload that did not finish; an activated one is left alone. */
  function FailUpload(s: Shelf, d: nat): Shelf {
    if d in s.docs && s.docs[d].state.UploadPending? && !Names(MenuOf(s, s.docs[d].branch), d) then Retire(s, Some(d)) else s
  }

  /** Closing branches retires their menus and uploads. */
  function Close(s: Shelf, branches: set<nat>): Shelf {
    s.(active := s.active - branches,
       menus := map b | b in s.menus :: if b in branches && (s.menus[b].draft.Some? || s.menus[b].published.Some?)
                                        then Pointers(s.menus[b].version + 1, None, None) else s.menus[b],
       docs := map d | d in s.docs :: if s.docs[d].branch in branches then Retired(s.docs[d], s.now) else s.docs[d])
  }

  /** A document a worker may take: due or abandoned, not leased, not named. */
  predicate Claimable(s: Shelf, d: nat) {
    && d in s.docs
    && (s.docs[d].leaseOwner.None? || s.docs[d].leaseUntil < s.now)
    && ((s.docs[d].state.DeletePending? && s.docs[d].deleteAfter.Some? && s.docs[d].deleteAfter.value <= s.now)
        || (s.docs[d].state.UploadPending? && s.docs[d].created < s.now - ABANDONED_AFTER))
    && !Names(MenuOf(s, s.docs[d].branch), d)
  }

  function Claim(s: Shelf, owner: nat, wanted: set<nat>): Shelf {
    s.(docs := map d | d in s.docs :: if d in wanted && Claimable(s, d)
                                      then s.docs[d].(state := DeletePending, leaseOwner := Some(owner), leaseUntil := s.now + LEASE)
                                      else s.docs[d],
       tasks := s.tasks + set d | d in wanted && Claimable(s, d) :: Task(owner, d))
  }

  /** The worker deletes the object and reports; a failure may still have deleted it. The report is
      refused when the lease was taken over. */
  function Finish(s: Shelf, t: Task, deleted: bool, failed: bool): (Shelf, Reply) {
    var s1 := s.(stored := if deleted then s.stored - {t.document} else s.stored, tasks := s.tasks - {t});
    if t.document !in s.docs || s.docs[t.document].leaseOwner != Some(t.owner) || !s.docs[t.document].state.DeletePending? then (s1, Failed(Conflict))
    else if failed then
      (s1.(docs := s.docs[t.document := s.docs[t.document].(leaseOwner := None, deleteAfter := Some(s.now + RETRY_AFTER))]), Accepted)
    else (s1.(docs := s.docs[t.document := s.docs[t.document].(state := Deleted, leaseOwner := None, deleteAfter := None)]), Accepted)
  }

  // ---------------------------------------------------------------------------
  // Runs
  // ---------------------------------------------------------------------------

  /** Everything that can happen. An upload stores its object before it activates the document, and
      activates it with the version it was reserved for; its compensation can come at any time. */
  datatype Choice =
    | Tick(seconds: nat)
    | OpenBranch(branch: nat)
    | CloseBranches(branches: set<nat>)
    | StartUpload(branch: nat, version: nat, document: nat)
    | StoreObject(document: nat, applied: bool, ok: bool)
    | ActivateUpload(document: nat, offset: int, configured: int, answered: bool)
    | Compensate(document: nat)
    | Edit(branch: nat, version: nat, change: Change, offset: int, configured: int, answered: bool)
    | ReadMenu(branch: nat, offset: int, configured: int)
    | ReadPublicMenu(branch: nat, offset: int, configured: int)
    | ClaimDeletions(owner: nat, wanted: set<nat>)
    | FinishDeletion(task: Task, deleted: bool, failed: bool)
    | WorkerDies(task: Task)

  function EndUpload(s: Shelf, d: nat, phase: Phase): Shelf {
    if d in s.uploads then s.(uploads := s.uploads[d := s.uploads[d].(phase := phase)]) else s
  }

  predicate Margin(offset: int) {
    -CLOCK_MARGIN <= offset <= CLOCK_MARGIN
  }

  function Answered(r: (Shelf, Reply), offset: int, configured: int, answered: bool): Shelf {
    if answered && r.1.Shown? then Sign(r.0, r.1.pointers, offset, configured) else r.0
  }

  function Step(s: Shelf, c: Choice): Shelf {
    match c
    case Tick(seconds) => s.(now := s.now + seconds)
    case OpenBranch(branch) => s.(active := s.active + {branch})
    case CloseBranches(branches) => Close(s, branches)
    case StartUpload(branch, version, d) => Reserve(s, branch, version, d).0
    case StoreObject(d, applied, ok) =>
      if d in s.uploads && s.uploads[d].phase.Storing? then
        EndUpload(s.(stored := if applied || ok then s.stored + {d} else s.stored), d, if ok then Stored else Over)
      else s
    case ActivateUpload(d, offset, configured, answered) =>
      if d in s.uploads && s.uploads[d].phase.Stored? && d in s.docs && Margin(offset) then
        EndUpload(Answered(Activate(s, s.docs[d].branch, s.uploads[d].version, d), offset, configured, answered), d, Over)
      else s
    case Compensate(d) => FailUpload(s, d)
    case Edit(branch, version, change, offset, configured, answered) =>
      if Margin(offset) then Answered(ChangePublication(s, branch, version, change), offset, configured, answered) else s
    case ReadMenu(branch, offset, configured) =>
      if branch in s.active && Margin(offset) then Sign(s, MenuOf(s, branch), offset, configured) else s
    case ReadPublicMenu(branch, offset, configured) =>
      if branch in s.active && Margin(offset) then Sign(s, Pointers(0, None, MenuOf(s, branch).published), offset, configured) else s
    case ClaimDeletions(owner, wanted) => Claim(s, owner, wanted)
    case FinishDeletion(t, deleted, failed) => if t in s.tasks && (deleted || failed) then Finish(s, t, deleted, failed).0 else s
    case WorkerDies(t) => s.(tasks := s.tasks - {t})
  }

  function Run(s: Shelf, cs: seq<Choice>): Shelf {
    if cs == [] then s else Step(Run(s, cs[..|cs| - 1]), cs[|cs| - 1])
  }

  function Empty(now: int): Shelf {
    Shelf(now, {}, map[], map[], map[], {}, {}, {})
  }

  // ---------------------------------------------------------------------------
  // Invariant
  // ---------------------------------------------------------------------------

  predicate IsReady(s: Shelf, branch: nat, d: Option<nat>) {
    d.Some? ==> d.value in s.docs && s.docs[d.value].state.Ready? && s.docs[d.value].branch == branch
  }

  /** Pointers name distinct ready documents of their branch, and every ready document is named. */
  predicate Pointing(s: Shelf) {
    && (forall b | b in s.menus :: && IsReady(s, b, s.menus[b].draft) && IsReady(s, b, s.menus[b].published)
                                   && (s.menus[b].draft.Some? ==> s.menus[b].draft != s.menus[b].published))
    && (forall d | d in s.docs && s.docs[d].state.Ready? :: Names(MenuOf(s, s.docs[d].branch), d))
  }

  /** Objects of ready documents and of finished uploads are stored. */
  predicate Kept(s: Shelf) {
    && (forall d | d in s.docs && s.docs[d].state.Ready? :: d in s.stored)
    && (forall d | d in s.uploads && s.uploads[d].phase.Stored? && d in s.docs && s.docs[d].state.UploadPending? :: d in s.stored)
    && (forall d | d in s.uploads :: d in s.docs)
  }

  /** Links are for documents that were ready, and run out before their document can be deleted. */
  predicate LinkRight(s: Shelf, l: Link) {
    && l.document in s.docs && !s.docs[l.document].state.UploadPending?
    && match s.docs[l.document].state
       case Ready => l.expires <= s.now + GRACE
       case DeletePending => s.docs[l.document].deleteAfter.Some? && l.expires <= s.docs[l.document].deleteAfter.value
       case Deleted => l.expires <= s.now
       case UploadPending => false
  }

  predicate TaskRight(s: Shelf, t: Task) {
    && t.document in s.docs && (s.docs[t.document].state.DeletePending? || s.docs[t.document].state.Deleted?)
    && forall l | l in s.links && l.document == t.document :: l.expires <= s.now
  }

  predicate LinksRight(s: Shelf) {
    forall l | l in s.links :: LinkRight(s, l)
  }

  predicate TasksRight(s: Shelf) {
    forall t | t in s.tasks :: TaskRight(s, t)
  }

  /** A leased document has been due since before, so its links ran out. */
  predicate LeasesRight(s: Shelf) {
    forall d | d in s.docs && s.docs[d].leaseOwner.Some? :: && s.docs[d].state.DeletePending?
                                                            && forall l | l in s.links && l.document == d :: l.expires <= s.now
  }

  predicate Inv(s: Shelf) {
    Pointing(s) && Kept(s) && LinksRight(s) && TasksRight(s) && LeasesRight(s)
  }

  // ---------------------------------------------------------------------------
  // Documents only move forward
  // ---------------------------------------------------------------------------

  /** What a transaction of the repository may do to the documents: add uploads, activate one, retire some. */
  predicate Moves(s: Shelf, t: Shelf) {
    && t.links == s.links && t.tasks == s.tasks && t.now == s.now && t.stored == s.stored
    && (forall d | d in s.docs :: && d in t.docs
                                  && (t.docs[d] == s.docs[d] || t.docs[d] == Retired(s.docs[d], s.now)
                                      || (s.docs[d].state.UploadPending? && s.docs[d].leaseOwner.None? && t.docs[d] == s.docs[d].(state := Ready))))
    && (forall d | d in t.docs && d !in s.docs :: t.docs[d].state.UploadPending? && t.docs[d].leaseOwner.None?)
  }

  lemma MovesKeep(s: Shelf, t: Shelf)
    requires Moves(s, t) && LinksRight(s) && TasksRight(s) && LeasesRight(s)
    ensures LinksRight(t) && TasksRight(t) && LeasesRight(t)
  {
    forall l | l in t.links ensures LinkRight(t, l) { assert LinkRight(s, l); }
    forall x | x in t.tasks ensures TaskRight(t, x) { assert TaskRight(s, x); }
  }

  lemma ReserveMoves(s: Shelf, branch: nat, version: nat, d: nat)
    ensures Moves(s, Reserve(s, branch, version, d).0)
    ensures Kept(s) ==> Kept(Reserve(s, branch, version, d).0)
  {
  }

  lemma ReserveKeeps(s: Shelf, branch: nat, version: nat, d: nat)
    requires Inv(s)
    ensures Inv(Reserve(s, branch, version, d).0)
  {
    hide LinksRight, TasksRight, LeasesRight, Kept, Moves;
    var t := Reserve(s, branch, version, d).0;
    ReserveMoves(s, branch, version, d);
    MovesKeep(s, t);
    forall e | e in t.docs && t.docs[e].state.Ready? ensures Names(MenuOf(t, t.docs[e].branch), e) {
      assert e in s.docs && Names(MenuOf(s, s.docs[e].branch), e);
    }
  }

  lemma RetireMoves(s: Shelf, t: Shelf, d: Option<nat>)
    requires Moves(s, t) && (d.Some? ==> d.value in s.docs && t.docs[d.value] == s.docs[d.value])
    ensures Moves(s, Retire(t, d))
  {
  }

  /** The documents and the menu after a successful activation. */
  lemma ActivateDocs(s: Shelf, branch: nat, version: nat, d: nat)
    requires Pointing(s) && Activate(s, branch, version, d).1.Shown?
    ensures var t, p := Activate(s, branch, version, d).0, MenuOf(s, branch);
            && Moves(s, t) && t.docs.Keys == s.docs.Keys && d in s.docs && s.docs[d].state.UploadPending? && s.docs[d].branch == branch
            && t.uploads == s.uploads
            && t.menus == s.menus[branch := Pointers(p.version + 1, Some(d), p.published)]
            && t.docs[d] == s.docs[d].(state := Ready)
            && (forall e | e in s.docs && e != d && p.draft != Some(e) :: t.docs[e] == s.docs[e])
            && (p.draft.Some? ==> p.draft.value in s.docs && p.draft.value != d && t.docs[p.draft.value].state.DeletePending?)
  {
    var p := MenuOf(s, branch);
    var s1 := s.(docs := s.docs[d := s.docs[d].(state := Ready)]);
    RetireMoves(s, PutMenu(s1, branch, Pointers(p.version + 1, Some(d), p.published)), p.draft);
  }

  lemma ActivatePoints(s: Shelf, branch: nat, version: nat, d: nat)
    requires Pointing(s) && Activate(s, branch, version, d).1.Shown?
    ensures Pointing(Activate(s, branch, version, d).0)
  {
    hide Activate, Moves;
    ActivateDocs(s, branch, version, d);
    var t, p := Activate(s, branch, version, d).0, MenuOf(s, branch);
    forall e | e in t.docs && t.docs[e].state.Ready? ensures Names(MenuOf(t, t.docs[e].branch), e) {
      if e != d { assert p.draft != Some(e) && t.docs[e] == s.docs[e] && Names(MenuOf(s, s.docs[e].branch), e); }
    }
  }

  lemma ActivateKeeps(s: Shelf, branch: nat, version: nat, d: nat)
    requires Inv(s) && (d in s.docs && s.docs[d].state.UploadPending? ==> d in s.stored)
    ensures Inv(Activate(s, branch, version, d).0)
  {
    hide Activate, Pointing, LinksRight, TasksRight, LeasesRight;
    if Activate(s, branch, version, d).1.Shown? {
      ActivateDocs(s, branch, version, d);
      ActivatePoints(s, branch, version, d);
      MovesKeep(s, Activate(s, branch, version, d).0);
    } else {
      ActivateFails(s, branch, version, d);
    }
  }

  lemma ActivateFails(s: Shelf, branch: nat, version: nat, d: nat)
    ensures !Activate(s, branch, version, d).1.Shown? ==> Activate(s, branch, version, d).0 == s
  {
  }

  lemma ChangeMoves(s: Shelf, branch: nat, version: nat, change: Change)
    ensures Moves(s, ChangePublication(s, branch, version, change).0)
  {
  }

  lemma PublishPoints(s: Shelf, branch: nat, version: nat, d: nat)
    requires Pointing(s)
    ensures Pointing(ChangePublication(s, branch, version, Publish(d)).0)
  {
    var t, p := ChangePublication(s, branch, version, Publish(d)).0, MenuOf(s, branch);
    forall e | e in t.docs && t.docs[e].state.Ready? ensures Names(MenuOf(t, t.docs[e].branch), e) {
      assert t.docs[e] == s.docs[e] && Names(MenuOf(s, s.docs[e].branch), e);
    }
  }

  lemma WithdrawPoints(s: Shelf, branch: nat, version: nat, change: Change)
    requires Pointing(s) && (change.Unpublish? || change.Discard?)
    ensures Pointing(ChangePublication(s, branch, version, change).0)
  {
    var t := ChangePublication(s, branch, version, change).0;
    forall e | e in t.docs && t.docs[e].state.Ready? ensures Names(MenuOf(t, t.docs[e].branch), e) {
      assert t.docs[e] == s.docs[e] && Names(MenuOf(s, s.docs[e].branch), e);
    }
  }

  lemma ChangeKept(s: Shelf, branch: nat, version: nat, change: Change)
    requires Kept(s)
    ensures Kept(ChangePublication(s, branch, version, change).0)
  {
  }

  lemma ChangeKeeps(s: Shelf, branch: nat, version: nat, change: Change)
    requires Inv(s)
    ensures Inv(ChangePublication(s, branch, version, change).0)
  {
    hide ChangePublication, Pointing, Kept, LinksRight, TasksRight, LeasesRight, Moves;
    match change {
      case Publish(d) => PublishPoints(s, branch, version, d);
      case Unpublish => WithdrawPoints(s, branch, version, change);
      case Discard => WithdrawPoints(s, branch, version, change);
    }
    ChangeKept(s, branch, version, change);
    ChangeMoves(s, branch, version, change);
    MovesKeep(s, ChangePublication(s, branch, version, change).0);
  }

  lemma FailKeeps(s: Shelf, d: nat)
    requires Inv(s)
    ensures Inv(FailUpload(s, d))
  {
    hide LinksRight, TasksRight, LeasesRight;
    MovesKeep(s, FailUpload(s, d));
  }

  lemma CloseMoves(s: Shelf, branches: set<nat>)
    ensures Moves(s, Close(s, branches))
  {
  }

  lemma ClosePoints(s: Shelf, branches: set<nat>)
    requires Pointing(s)
    ensures Pointing(Close(s, branches))
  {
    var t := Close(s, branches);
    forall d | d in t.docs && t.docs[d].state.Ready? ensures Names(MenuOf(t, t.docs[d].branch), d) {
      assert t.docs[d] == s.docs[d] && s.docs[d].branch !in branches && Names(MenuOf(s, s.docs[d].branch), d);
    }
    forall b | b in t.menus
      ensures IsReady(t, b, t.menus[b].draft) && IsReady(t, b, t.menus[b].published)
              && (t.menus[b].draft.Some? ==> t.menus[b].draft != t.menus[b].published)
    {
      if b !in branches { assert t.menus[b] == s.menus[b]; }
    }
  }

  lemma CloseKeeps(s: Shelf, branches: set<nat>)
    requires Inv(s)
    ensures Inv(Close(s, branches))
  {
    hide Pointing, LinksRight, TasksRight, LeasesRight, Moves;
    CloseMoves(s, branches);
    ClosePoints(s, branches);
    MovesKeep(s, Close(s, branches));
  }

  // ---------------------------------------------------------------------------
  // Links, leases and time
  // ---------------------------------------------------------------------------

  lemma SignKeeps(s: Shelf, p: Pointers, offset: int, configured: int)
    requires Inv(s) && Margin(offset)
    requires forall d | Names(p, d) :: d in s.docs && s.docs[d].state.Ready?
    ensures Inv(Sign(s, p, offset, configured))
  {
    hide Pointing, Kept;
    var t := Sign(s, p, offset, configured);
    SignedLinks(s, p, offset, configured);
    forall l | l in t.links ensures LinkRight(t, l) {
      if l in s.links { assert LinkRight(s, l); }
    }
    forall x | x in t.tasks ensures TaskRight(t, x) { assert TaskRight(s, x); }
    SameShelf(s, t);
  }

  lemma SameShelf(s: Shelf, t: Shelf)
    requires t.docs == s.docs && t.menus == s.menus && t.uploads == s.uploads && t.stored == s.stored
    ensures Pointing(s) ==> Pointing(t)
    ensures Kept(s) ==> Kept(t)
  {
  }

  lemma SignedLinks(s: Shelf, p: Pointers, offset: int, configured: int)
    requires Margin(offset)
    ensures forall l | l in Sign(s, p, offset, configured).links && l !in s.links :: Names(p, l.document) && l.expires <= s.now + GRACE
  {
  }

  lemma TickKeeps(s: Shelf, seconds: nat)
    requires Inv(s)
    ensures Inv(s.(now := s.now + seconds))
  {
    hide Pointing, Kept;
    var t := s.(now := s.now + seconds);
    SameShelf(s, t);
    forall l | l in t.links ensures LinkRight(t, l) { assert LinkRight(s, l); }
    forall x | x in t.tasks ensures TaskRight(t, x) { assert TaskRight(s, x); }
  }

  lemma StoreKeeps(s: Shelf, d: nat, applied: bool, ok: bool)
    requires Inv(s)
    ensures Inv(Step(s, StoreObject(d, applied, ok)))
  {
    hide Pointing, LinksRight, LeasesRight, TasksRight;
    var t := Step(s, StoreObject(d, applied, ok));
    StorageApart(s, t);
  }

  lemma StorageApart(s: Shelf, t: Shelf)
    requires t.docs == s.docs && t.menus == s.menus && t.links == s.links && t.tasks == s.tasks && t.now == s.now
    ensures Pointing(s) ==> Pointing(t)
    ensures LinksRight(s) ==> LinksRight(t)
    ensures TasksRight(s) ==> TasksRight(t)
    ensures LeasesRight(s) ==> LeasesRight(t)
  {
    if LinksRight(s) { forall l | l in t.links ensures LinkRight(t, l) { assert LinkRight(s, l); } }
    if TasksRight(s) { forall x | x in t.tasks ensures TaskRight(t, x) { assert TaskRight(s, x); } }
  }

  /** A document that a worker may take is on its way out and its links have run out. */
  lemma ClaimableIsOver(s: Shelf, d: nat)
    requires Inv(s) && Claimable(s, d)
    ensures (s.docs[d].state.DeletePending? || s.docs[d].state.UploadPending?) && forall l | l in s.links && l.document == d :: l.expires <= s.now
  {
    hide Pointing, Kept, TasksRight, LeasesRight;
    forall l | l in s.links && l.document == d ensures l.expires <= s.now { assert LinkRight(s, l); }
  }

  lemma ClaimDocs(s: Shelf, owner: nat, wanted: set<nat>)
    requires Inv(s)
    ensures var t := Claim(s, owner, wanted);
            && t.docs.Keys == s.docs.Keys
            && forall d | d in s.docs ::
                 || t.docs[d] == s.docs[d]
                 || (&& (s.docs[d].state.DeletePending? || s.docs[d].state.UploadPending?) && t.docs[d].state.DeletePending?
                     && t.docs[d].branch == s.docs[d].branch && t.docs[d].deleteAfter == s.docs[d].deleteAfter
                     && forall l | l in s.links && l.document == d :: l.expires <= s.now)
  {
    hide Inv, Claimable;
    forall d | d in s.docs && d in wanted && Claimable(s, d)
      ensures (s.docs[d].state.DeletePending? || s.docs[d].state.UploadPending?) && forall l | l in s.links && l.document == d :: l.expires <= s.now
    {
      ClaimableIsOver(s, d);
    }
  }

  lemma ClaimRests(s: Shelf, owner: nat, wanted: set<nat>)
    requires Inv(s)
    ensures Pointing(Claim(s, owner, wanted)) && Kept(Claim(s, owner, wanted))
  {
    hide Claimable, LinksRight, TasksRight, LeasesRight;
    var t := Claim(s, owner, wanted);
    ClaimDocs(s, owner, wanted);
    forall e | e in t.docs && t.docs[e].state.Ready? ensures Names(MenuOf(t, t.docs[e].branch), e) && e in t.stored {
      assert t.docs[e] == s.docs[e] && Names(MenuOf(s, s.docs[e].branch), e);
    }
  }

  lemma ClaimLinks(s: Shelf, owner: nat, wanted: set<nat>)
    requires Inv(s)
    ensures LinksRight(Claim(s, owner, wanted)) && LeasesRight(Claim(s, owner, wanted))
  {
    hide Claimable, Pointing, Kept, TasksRight;
    var t := Claim(s, owner, wanted);
    ClaimDocs(s, owner, wanted);
    forall l | l in t.links ensures LinkRight(t, l) { assert LinkRight(s, l); }
    forall d | d in t.docs && t.docs[d].leaseOwner.Some?
      ensures t.docs[d].state.DeletePending? && forall l | l in t.links && l.document == d :: l.expires <= t.now
    {
      if t.docs[d] == s.docs[d] { assert s.docs[d].leaseOwner.Some?; }
    }
  }

  lemma ClaimKeeps(s: Shelf, owner: nat, wanted: set<nat>)
    requires Inv(s)
    ensures Inv(Claim(s, owner, wanted))
  {
    hide Claimable, Pointing, Kept, LinksRight, LeasesRight;
    var t := Claim(s, owner, wanted);
    ClaimRests(s, owner, wanted);
    ClaimLinks(s, owner, wanted);
    ClaimDocs(s, owner, wanted);
    forall x | x in t.tasks ensures TaskRight(t, x) {
      if x in s.tasks { assert TaskRight(s, x); } else { ClaimableIsOver(s, x.document); ClaimedIsPending(s, owner, wanted, x.document); }
    }
  }

  lemma ClaimedIsPending(s: Shelf, owner: nat, wanted: set<nat>, d: nat)
    requires d in wanted && Claimable(s, d)
    ensures d in Claim(s, owner, wanted).docs && Claim(s, owner, wanted).docs[d].state.DeletePending?
  {
  }

  lemma FinishRests(s: Shelf, x: Task, deleted: bool, failed: bool)
    requires Pointing(s) && Kept(s) && TaskRight(s, x)
    ensures Pointing(Finish(s, x, deleted, failed).0) && Kept(Finish(s, x, deleted, failed).0)
  {
    var t := Finish(s, x, deleted, failed).0;
    forall e | e in t.docs && t.docs[e].state.Ready? ensures Names(MenuOf(t, t.docs[e].branch), e) && e in t.stored {
      assert t.docs[e] == s.docs[e] && Names(MenuOf(s, s.docs[e].branch), e);
    }
  }

  lemma FinishKeeps(s: Shelf, x: Task, deleted: bool, failed: bool)
    requires Inv(s) && x in s.tasks
    ensures Inv(Finish(s, x, deleted, failed).0)
  {
    hide Pointing, Kept;
    var t := Finish(s, x, deleted, failed).0;
    assert TaskRight(s, x);
    FinishRests(s, x, deleted, failed);
    forall l | l in t.links ensures LinkRight(t, l) { assert LinkRight(s, l); }
    forall y | y in t.tasks ensures TaskRight(t, y) { assert TaskRight(s, y); }
  }

  lemma DeadWorkerKeeps(s: Shelf, x: Task)
    requires Inv(s)
    ensures Inv(s.(tasks := s.tasks - {x}))
  {
    hide Pointing, Kept;
    var t := s.(tasks := s.tasks - {x});
    SameShelf(s, t);
    forall l | l in t.links ensures LinkRight(t, l) { assert LinkRight(s, l); }
    forall y | y in t.tasks ensures TaskRight(t, y) { assert TaskRight(s, y); }
  }

  lemma EndUploadKeeps(s: Shelf, d: nat)
    requires Inv(s)
    ensures Inv(EndUpload(s, d, Over))
  {
    hide Pointing, LinksRight, LeasesRight, TasksRight;
    StorageApart(s, EndUpload(s, d, Over));
  }

  lemma ShownIsReady(s: Shelf, p: Pointers, branch: nat)
    requires Inv(s) && p == MenuOf(s, branch)
    ensures forall d | Names(p, d) :: d in s.docs && s.docs[d].state.Ready?
  {
    hide Kept, LinksRight, LeasesRight, TasksRight;
  }

  lemma ReplyIsMenu(s: Shelf, branch: nat, version: nat, d: nat, change: Change)
    ensures Activate(s, branch, version, d).1.Shown? ==> Activate(s, branch, version, d).1.pointers == MenuOf(Activate(s,
        branch, version, d).0, branch)
    ensures ChangePublication(s, branch, version, change).1.Shown?
            ==> ChangePublication(s, branch, version, change).1.pointers == MenuOf(ChangePublication(s, branch, version, change).0, branch)
  {
  }

  lemma AnsweredKeeps(r: (Shelf, Reply), branch: nat, offset: int, configured: int, answered: bool)
    requires Inv(r.0) && Margin(offset) && (r.1.Shown? ==> r.1.pointers == MenuOf(r.0, branch))
    ensures Inv(Answered(r, offset, configured, answered))
  {
    hide Inv, Sign;
    if r.1.Shown? {
      ShownIsReady(r.0, r.1.pointers, branch);
      SignKeeps(r.0, r.1.pointers, offset, configured);
    }
  }

  lemma UploadStep(s: Shelf, d: nat, offset: int, configured: int, answered: bool)
    requires Inv(s)
    ensures Inv(Step(s, ActivateUpload(d, offset, configured, answered)))
  {
    hide Inv, Activate, Answered, EndUpload;
    if d in s.uploads && s.uploads[d].phase.Stored? && d in s.docs && Margin(offset) {
      UploadIsStored(s, d);
      var branch, version := s.docs[d].branch, s.uploads[d].version;
      ActivateKeeps(s, branch, version, d);
      ReplyIsMenu(s, branch, version, d, Unpublish);
      AnsweredKeeps(Activate(s, branch, version, d), branch, offset, configured, answered);
      EndUploadKeeps(Answered(Activate(s, branch, version, d), offset, configured, answered), d);
    }
  }

  lemma UploadIsStored(s: Shelf, d: nat)
    requires Inv(s) && d in s.uploads && s.uploads[d].phase.Stored?
    ensures d in s.docs && s.docs[d].state.UploadPending? ==> d in s.stored
  {
    hide Pointing, LinksRight, LeasesRight, TasksRight;
  }

  lemma EditStep(s: Shelf, branch: nat, version: nat, change: Change, offset: int, configured: int, answered: bool)
    requires Inv(s)
    ensures Inv(Step(s, Edit(branch, version, change, offset, configured, answered)))
  {
    hide Inv, ChangePublication, Answered;
    if Margin(offset) {
      ChangeKeeps(s, branch, version, change);
      ReplyIsMenu(s, branch, version, 0, change);
      AnsweredKeeps(ChangePublication(s, branch, version, change), branch, offset, configured, answered);
    }
  }

  lemma ReadStep(s: Shelf, branch: nat, offset: int, configured: int)
    requires Inv(s)
    ensures Inv(Step(s, ReadMenu(branch, offset, configured))) && Inv(Step(s, ReadPublicMenu(branch, offset, configured)))
  {
    hide Inv, Sign;
    if branch in s.active && Margin(offset) {
      ShownIsReady(s, MenuOf(s, branch), branch);
      var public := Pointers(0, None, MenuOf(s, branch).published);
      forall d | Names(public, d) ensures d in s.docs && s.docs[d].state.Ready? { assert Names(MenuOf(s, branch), d); }
      SignKeeps(s, MenuOf(s, branch), offset, configured);
      SignKeeps(s, public, offset, configured);
    }
  }

  lemma OpenKeeps(s: Shelf, branch: nat)
    requires Inv(s)
    ensures Inv(s.(active := s.active + {branch}))
  {
    hide Pointing, Kept, LinksRight, LeasesRight, TasksRight;
    SameShelf(s, s.(active := s.active + {branch}));
    StorageApart(s, s.(active := s.active + {branch}));
  }

  lemma StepKeeps(s: Shelf, c: Choice)
    requires Inv(s)
    ensures Inv(Step(s, c))
  {
    hide Inv;
    match c
    case Tick(seconds) => TickKeeps(s, seconds);
    case OpenBranch(branch) => OpenKeeps(s, branch);
    case CloseBranches(branches) => CloseKeeps(s, branches);
    case StartUpload(branch, version, d) => ReserveKeeps(s, branch, version, d);
    case StoreObject(d, applied, ok) => StoreKeeps(s, d, applied, ok);
    case ActivateUpload(d, offset, configured, answered) => UploadStep(s, d, offset, configured, answered);
    case Compensate(d) => FailKeeps(s, d);
    case Edit(branch, version, change, offset, configured, answered) => EditStep(s, branch, version, change, offset, configured, answered);
    case ReadMenu(branch, offset, configured) => ReadStep(s, branch, offset, configured);
    case ReadPublicMenu(branch, offset, configured) => ReadStep(s, branch, offset, configured);
    case ClaimDeletions(owner, wanted) => ClaimKeeps(s, owner, wanted);
    case FinishDeletion(x, deleted, failed) => if x in s.tasks { FinishKeeps(s, x, deleted, failed); }
    case WorkerDies(x) => DeadWorkerKeeps(s, x);
  }

  lemma {:induction false} RunKeeps(now: int, cs: seq<Choice>)
    ensures Inv(Run(Empty(now), cs))
  {
    hide Step;
    if cs != [] {
      RunKeeps(now, cs[..|cs| - 1]);
      StepKeeps(Run(Empty(now), cs[..|cs| - 1]), cs[|cs| - 1]);
    }
  }

  // ---------------------------------------------------------------------------
  // The promises
  // ---------------------------------------------------------------------------

  /** A document is named by one pointer of one branch exactly while it is ready, and its object is stored. */
  lemma ReadyIsNamedOnce(now: int, cs: seq<Choice>, d: nat, branch: nat)
    ensures var s := Run(Empty(now), cs);
            && (Names(MenuOf(s, branch), d) <==> d in s.docs && s.docs[d].state.Ready? && s.docs[d].branch == branch)
            && (Names(MenuOf(s, branch), d) ==> MenuOf(s, branch).draft != MenuOf(s, branch).published && d in s.stored)
  {
    hide Run, LinksRight, TasksRight, LeasesRight;
    RunKeeps(now, cs);
    var s := Run(Empty(now), cs);
    if Names(MenuOf(s, branch), d) { assert branch in s.menus; }
  }

  /** The only step that removes an object removes one that no pointer names and whose links, all of
      them, have run out. */
  lemma DeletionIsSafe(now: int, cs: seq<Choice>, c: Choice, d: nat, branch: nat)
    requires d in Run(Empty(now), cs).stored && d !in Step(Run(Empty(now), cs), c).stored
    ensures var s := Run(Empty(now), cs);
            && c.FinishDeletion? && c.task.document == d
            && !Names(MenuOf(s, branch), d)
            && forall l | l in s.links && l.document == d :: l.expires <= s.now
  {
    hide Run, Pointing, Kept, LeasesRight, Activate, ChangePublication, Sign, Claim, Close, FailUpload, Reserve;
    RunKeeps(now, cs);
    var s := Run(Empty(now), cs);
    OnlyFinishRemoves(s, c, d);
    assert TaskRight(s, c.task);
    if Names(MenuOf(s, branch), d) { ReadyIsNamedOnce(now, cs, d, branch); }
  }

  lemma OnlyFinishRemoves(s: Shelf, c: Choice, d: nat)
    requires d in s.stored && d !in Step(s, c).stored
    ensures c.FinishDeletion? && c.task.document == d && c.task in s.tasks
  {
  }

  lemma EditsRaise(s: Shelf, of: nat, version: nat, d: nat, change: Change, branches: set<nat>, branch: nat)
    ensures MenuOf(Activate(s, of, version, d).0, branch).version >= MenuOf(s, branch).version
    ensures MenuOf(ChangePublication(s, of, version, change).0, branch).version >= MenuOf(s, branch).version
    ensures MenuOf(Close(s, branches), branch).version >= MenuOf(s, branch).version
  {
  }

  lemma VersionStep(s: Shelf, c: Choice, branch: nat)
    ensures MenuOf(Step(s, c), branch).version >= MenuOf(s, branch).version
  {
    hide Activate, ChangePublication, Close, Claimable;
    match c
    case ActivateUpload(d, _, _, _) =>
      if d in s.uploads && d in s.docs { EditsRaise(s, s.docs[d].branch, s.uploads[d].version, d, Unpublish, {}, branch); }
    case Edit(of, version, change, _, _, _) => EditsRaise(s, of, version, 0, change, {}, branch);
    case CloseBranches(branches) => EditsRaise(s, 0, 0, 0, Unpublish, branches, branch);
    case _ =>
  }

  lemma {:induction false} VersionRuns(s: Shelf, cs: seq<Choice>, branch: nat)
    ensures MenuOf(Run(s, cs), branch).version >= MenuOf(s, branch).version
  {
    hide Step, MenuOf;
    if cs != [] {
      VersionRuns(s, cs[..|cs| - 1], branch);
      VersionStep(Run(s, cs[..|cs| - 1]), cs[|cs| - 1], branch);
    }
  }

  /** Optimistic locking: once a request with a version changed a menu, whatever happens next, no other request
      with that version changes it. */
  lemma StaleVersionFails(s: Shelf, branch: nat, version: nat, change: Change, cs: seq<Choice>, other: Change, d: nat)
    requires ChangePublication(s, branch, version, change).0 != s
    ensures var t := Run(ChangePublication(s, branch, version, change).0, cs);
            && ChangePublication(t, branch, version, other).0 == t && !ChangePublication(t, branch, version, other).1.Shown?
            && Activate(t, branch, version, d).0 == t && !Activate(t, branch, version, d).1.Shown?
            && Reserve(t, branch, version, d).0 == t
  {
    hide Run, Retire;
    ChangeRaises(s, branch, version, change);
    VersionRuns(ChangePublication(s, branch, version, change).0, cs, branch);
  }

  lemma ChangeRaises(s: Shelf, branch: nat, version: nat, change: Change)
    requires ChangePublication(s, branch, version, change).0 != s
    ensures MenuOf(ChangePublication(s, branch, version, change).0, branch).version == version + 1
  {
  }

  // ---------------------------------------------------------------------------
  // What is left behind
  // ---------------------------------------------------------------------------

  lemma RunOne(s: Shelf, c: Choice)
    ensures Run(s, [c]) == Step(s, c)
  {
    hide Step;
    assert [c][..0] == [] && Run(s, []) == s;
  }

  lemma RunMore(s: Shelf, cs: seq<Choice>, c: Choice)
    ensures Run(s, cs + [c]) == Step(Run(s, cs), c)
  {
    hide Step;
    assert (cs + [c])[..|cs|] == cs;
  }

  /** Some worker has taken the document and not reported on it. */
  predicate Working(s: Shelf, d: nat) {
    exists t :: t in s.tasks && t.document == d
  }

  /** Once its document is over, an object comes back into the store only by an upload that is still
      storing: one whose put arrives after the cleanup. */
  lemma OrphansComeFromLatePuts(s: Shelf, c: Choice, d: nat)
    requires d in s.docs && s.docs[d].state.Deleted? && d !in s.stored
    ensures d in Step(s, c).stored
            <==> c.StoreObject? && c.document == d && (c.applied || c.ok) && d in s.uploads && s.uploads[d].phase.Storing?
  {
    hide Activate, ChangePublication, Sign, Claim, Close, FailUpload, Reserve;
    EditsStoreNothing(s, c);
  }

  lemma EditsStoreNothing(s: Shelf, c: Choice)
    ensures !c.StoreObject? && !c.FinishDeletion? ==> Step(s, c).stored == s.stored
  {
  }

  predicate StillStoring(s: Shelf, d: nat) {
    d in s.uploads && s.uploads[d].phase.Storing?
  }

  predicate Gone(s: Shelf, d: nat) {
    d in s.docs && s.docs[d].state.Deleted?
  }

  lemma GoneInTransactions(s: Shelf, d: nat, branch: nat, version: nat, e: nat, change: Change, branches: set<nat>)
    requires Gone(s, d)
    ensures Gone(Activate(s, branch, version, e).0, d) && Activate(s, branch, version, e).0.tasks == s.tasks
    ensures Gone(ChangePublication(s, branch, version, change).0, d) && ChangePublication(s, branch, version, change).0.tasks == s.tasks
    ensures Gone(Close(s, branches), d) && Close(s, branches).tasks == s.tasks
  {
  }

  lemma UploadsInTransactions(s: Shelf, branch: nat, version: nat, e: nat, change: Change, branches: set<nat>)
    ensures Activate(s, branch, version, e).0.uploads == s.uploads
    ensures ChangePublication(s, branch, version, change).0.uploads == s.uploads
    ensures Close(s, branches).uploads == s.uploads
  {
  }

  /** A deleted document stays deleted; nobody starts to store or to delete its object again. */
  lemma GoneStep(s: Shelf, c: Choice, d: nat)
    requires Gone(s, d)
    ensures Gone(Step(s, c), d) && (StillStoring(Step(s, c), d) ==> StillStoring(s, d)) && (Working(Step(s, c), d) ==> Working(s, d))
  {
    hide Activate, ChangePublication, Close;
    match c
    case ActivateUpload(e, offset, configured, answered) =>
      if e in s.uploads && e in s.docs {
        GoneInTransactions(s, d, s.docs[e].branch, s.uploads[e].version, e, Unpublish, {});
        UploadsInTransactions(s, s.docs[e].branch, s.uploads[e].version, e, Unpublish, {});
      }
    case Edit(branch, version, change, offset, configured, answered) =>
      GoneInTransactions(s, d, branch, version, 0, change, {});
      UploadsInTransactions(s, branch, version, 0, change, {});
    case CloseBranches(branches) =>
      GoneInTransactions(s, d, 0, 0, 0, Unpublish, branches);
      UploadsInTransactions(s, 0, 0, 0, Unpublish, branches);
    case _ =>
  }

  lemma {:induction false} GoneForever(s: Shelf, cs: seq<Choice>, d: nat)
    requires Gone(s, d)
    ensures var t := Run(s, cs);
            && Gone(t, d) && (StillStoring(t, d) ==> StillStoring(s, d)) && (Working(t, d) ==> Working(s, d))
            && (d in t.stored ==> d in s.stored || StillStoring(s, d))
            && (d in s.stored && d !in t.stored ==> Working(s, d))
  {
    hide Step, StillStoring, Working, Gone;
    if cs != [] {
      var before, c := Run(s, cs[..|cs| - 1]), cs[|cs| - 1];
      GoneForever(s, cs[..|cs| - 1], d);
      GoneStep(before, c, d);
      GoneStores(before, c, d);
    }
  }

  lemma GoneStores(s: Shelf, c: Choice, d: nat)
    requires Gone(s, d)
    ensures d in Step(s, c).stored && d !in s.stored ==> StillStoring(s, d)
    ensures d in s.stored && d !in Step(s, c).stored ==> Working(s, d)
  {
    hide Step;
    if d !in s.stored {
      OrphansComeFromLatePuts(s, c, d);
    } else if d !in Step(s, c).stored {
      OnlyFinishRemoves(s, c, d);
    }
  }

  /** Exactly when a deleted document can get its object back: while its put is still under way. */
  lemma OrphanExactly(s: Shelf, d: nat)
    requires Gone(s, d) && d !in s.stored
    ensures (exists cs :: d in Run(s, cs).stored) <==> StillStoring(s, d)
  {
    if StillStoring(s, d) {
      RunOne(s, StoreObject(d, true, true));
    }
    forall cs | d in Run(s, cs).stored ensures StillStoring(s, d) { GoneForever(s, cs, d); }
    hide Step, Run;
  }

  /** Exactly when such an object is removed once more: while some worker has not reported on its document
      yet. Otherwise it stays in every continuation, and no later pass of the cleanup takes it. */
  lemma OrphanStaysExactly(s: Shelf, d: nat)
    requires Gone(s, d) && d in s.stored
    ensures (exists cs :: d !in Run(s, cs).stored) <==> Working(s, d)
    ensures forall cs :: !Claimable(Run(s, cs), d)
  {
    if Working(s, d) {
      var x :| x in s.tasks && x.document == d;
      RunOne(s, FinishDeletion(x, true, false));
    }
    forall cs ensures (d !in Run(s, cs).stored ==> Working(s, d)) && !Claimable(Run(s, cs), d) { GoneForever(s, cs, d); }
    hide Step, Run;
  }

  /** How it comes about: the upload is given up while its put is under way, its document is cleaned up after
      the grace, and the put arrives. */
  function LatePut(d: nat): seq<Choice> {
    [OpenBranch(0), StartUpload(0, 1, d), Compensate(d), Tick(GRACE), ClaimDeletions(0, {d}),
     FinishDeletion(Task(0, d), true, false), StoreObject(d, true, true)]
  }

  /** The shelf in between: the document at its state, its put still under way. */
  function OneDocument(now: int, d: nat, doc: Document, tasks: set<Task>): Shelf {
    Shelf(now, {0}, map[], map[d := doc], map[d := Upload(1, Storing)], {}, {}, tasks)
  }

  lemma GivenUp(now: int, d: nat)
    ensures Step(Step(Step(Empty(now), OpenBranch(0)), StartUpload(0, 1, d)), Compensate(d))
            == OneDocument(now, d, Document(0, DeletePending, now, Some(now + GRACE), None, 0), {})
  {
    var s := Step(Empty(now), OpenBranch(0));
    assert s == Shelf(now, {0}, map[], map[], map[], {}, {}, {});
    assert Step(s, StartUpload(0, 1, d)) == OneDocument(now, d, Document(0, UploadPending, now, None, None, 0), {});
  }

  lemma CleanedUp(now: int, d: nat, doc: Document)
    requires doc == Document(0, DeletePending, now - GRACE, Some(now), None, 0)
    ensures var s := Step(Step(OneDocument(now, d, doc, {}), ClaimDeletions(0, {d})), FinishDeletion(Task(0, d), true, false));
            s == OneDocument(now, d, Document(0, Deleted, now - GRACE, None, None, now + LEASE), {})
  {
    var s := OneDocument(now, d, doc, {});
    assert Claimable(s, d);
    var t := Claim(s, 0, {d});
    assert t == OneDocument(now, d, doc.(leaseOwner := Some(0), leaseUntil := now + LEASE), {Task(0, d)});
  }

  lemma LatePutRuns(now: int, d: nat)
    ensures var s := Run(Empty(now), LatePut(d)); Gone(s, d) && d in s.stored && !Working(s, d)
  {
    hide Run, Claim, Reserve, FailUpload, Finish;
    SevenSteps(Empty(now), OpenBranch(0), StartUpload(0, 1, d), Compensate(d), Tick(GRACE), ClaimDeletions(0, {d}),
               FinishDeletion(Task(0, d), true, false), StoreObject(d, true, true));
    GivenUp(now, d);
    CleanedUp(now + GRACE, d, Document(0, DeletePending, now, Some(now + GRACE), None, 0));
  }

  lemma SevenSteps(s: Shelf, a: Choice, b: Choice, c: Choice, d: Choice, e: Choice, f: Choice, g: Choice)
    ensures Run(s, [a, b, c, d, e, f, g]) == Step(Step(Step(Step(Step(Step(Step(s, a), b), c), d), e), f), g)
  {
    hide Step, Run;
    RunOne(s, a);
    RunMore(s, [a], b);
    RunMore(s, [a, b], c);
    RunMore(s, [a, b, c], d);
    RunMore(s, [a, b, c, d], e);
    RunMore(s, [a, b, c, d, e], f);
    RunMore(s, [a, b, c, d, e, f], g);
    assert [a] + [b] == [a, b] && [a, b] + [c] == [a, b, c] && [a, b, c] + [d] == [a, b, c, d];
    assert [a, b, c, d] + [e] == [a, b, c, d, e] && [a, b, c, d, e] + [f] == [a, b, c, d, e, f];
    assert [a, b, c, d, e, f] + [g] == [a, b, c, d, e, f, g];
  }

  /** So there are runs that leave an object which nothing names and which stays whatever happens next. */
  lemma LatePutLeavesAnOrphan(now: int, d: nat, later: seq<Choice>)
    ensures var t := Run(Run(Empty(now), LatePut(d)), later);
            Gone(t, d) && d in t.stored && !Claimable(t, d)
  {
    hide Run, LatePut, Claimable;
    LatePutRuns(now, d);
    var s := Run(Empty(now), LatePut(d));
    OrphanStaysExactly(s, d);
    GoneForever(s, later, d);
  }

  /** An abandoned upload that a worker took without reporting back. */
  predicate Forgotten(s: Shelf, d: nat) {
    d in s.docs && s.docs[d].state.DeletePending? && s.docs[d].deleteAfter.None? && !Working(s, d)
  }

  /** A worker that dies between claiming an abandoned upload and reporting on it leaves a document that
      no worker can ever take again: the claim moved it out of the abandoned uploads without a date from
      which its deletion is due. A retired document in the same position is taken again once its lease
      has run out. */
  lemma {:induction false} ForgottenForever(s: Shelf, cs: seq<Choice>, d: nat)
    requires Forgotten(s, d)
    ensures var t := Run(s, cs);
            Forgotten(t, d) && !Claimable(t, d) && t.docs[d] == s.docs[d] && (d in s.stored ==> d in t.stored)
  {
    if cs != [] {
      ForgottenForever(s, cs[..|cs| - 1], d);
      ForgottenStep(Run(s, cs[..|cs| - 1]), cs[|cs| - 1], d);
      hide Step;
    }
  }

  predicate Untouched(s: Shelf, t: Shelf, d: nat)
    requires d in s.docs
  {
    d in t.docs && t.docs[d] == s.docs[d] && t.tasks == s.tasks && (d in s.stored ==> d in t.stored)
  }

  lemma ActivateLeaves(s: Shelf, branch: nat, version: nat, e: nat, d: nat)
    requires d in s.docs && s.docs[d].state.DeletePending?
    ensures Untouched(s, Activate(s, branch, version, e).0, d)
  {
  }

  lemma ChangeLeaves(s: Shelf, branch: nat, version: nat, change: Change, d: nat)
    requires d in s.docs && s.docs[d].state.DeletePending?
    ensures Untouched(s, ChangePublication(s, branch, version, change).0, d)
  {
  }

  lemma CloseLeaves(s: Shelf, branches: set<nat>, d: nat)
    requires d in s.docs && s.docs[d].state.DeletePending?
    ensures Untouched(s, Close(s, branches), d)
  {
  }

  lemma ForgottenStep(s: Shelf, c: Choice, d: nat)
    requires Forgotten(s, d)
    ensures Forgotten(Step(s, c), d) && Step(s, c).docs[d] == s.docs[d] && (d in s.stored ==> d in Step(s, c).stored)
  {
    hide Activate, ChangePublication, Close;
    match c
    case ActivateUpload(e, offset, configured, answered) =>
      if e in s.uploads && e in s.docs { ActivateLeaves(s, s.docs[e].branch, s.uploads[e].version, e, d); }
    case Edit(branch, version, change, offset, configured, answered) => ChangeLeaves(s, branch, version, change, d);
    case CloseBranches(branches) => CloseLeaves(s, branches, d);
    case _ =>
  }

  /** An upload that was never finished is taken after a quarter of an hour by a worker that dies. */
  lemma AbandonedUploadIsForgotten(s: Shelf, owner: nat, wanted: set<nat>, d: nat)
    requires d in wanted && Claimable(s, d) && s.docs[d].state.UploadPending? && s.docs[d].deleteAfter.None?
    requires !Working(s, d)
    ensures Forgotten(AfterDeath(s, owner, wanted, d), d)
  {
    var t := Claim(s, owner, wanted);
    assert t.docs[d].state.DeletePending?;
  }

  /** A worker claims a batch and dies before it reports on document d. */
  function AfterDeath(s: Shelf, owner: nat, wanted: set<nat>, d: nat): Shelf {
    Step(Step(s, ClaimDeletions(owner, wanted)), WorkerDies(Task(owner, d)))
  }

  /** A retired document in the same position is taken again: a claim leaves its date in place. */
  lemma RetiredIsTakenAgain(s: Shelf, owner: nat, wanted: set<nat>, d: nat, seconds: nat)
    requires d in wanted && Claimable(s, d) && s.docs[d].state.DeletePending? && seconds > LEASE
    ensures Claimable(Step(AfterDeath(s, owner, wanted, d), Tick(seconds)), d)
  {
    var t := Claim(s, owner, wanted);
    assert t.docs[d] == s.docs[d].(state := DeletePending, leaseOwner := Some(owner), leaseUntil := s.now + LEASE);
  }

  /** Only retiring a document dates its deletion, and no document goes back to a pending upload. */
  predicate UploadsUndated(s: Shelf) {
    forall d | d in s.docs && s.docs[d].state.UploadPending? :: s.docs[d].deleteAfter.None?
  }

  lemma UndatedStep(s: Shelf, c: Choice)
    requires UploadsUndated(s)
    ensures UploadsUndated(Step(s, c))
  {
  }

  lemma {:induction false} UndatedRuns(now: int, cs: seq<Choice>)
    ensures UploadsUndated(Run(Empty(now), cs))
  {
    hide Step;
    if cs != [] {
      UndatedRuns(now, cs[..|cs| - 1]);
      UndatedStep(Run(Empty(now), cs[..|cs| - 1]), cs[|cs| - 1]);
    }
  }

  /** Exactly when a document whose worker died is ever taken again: when it had been retired before the
      claim, and not when it was an abandoned upload. */
  lemma TakenAgainExactly(now: int, before: seq<Choice>, owner: nat, wanted: set<nat>, d: nat)
    requires d in wanted && Claimable(Run(Empty(now), before), d)
    ensures var s := Run(Empty(now), before);
            (exists cs :: Claimable(Run(AfterDeath(s, owner, wanted, d), cs), d)) <==> s.docs[d].state.DeletePending?
  {
    hide Run, Step, AfterDeath, Pointing, Kept, LinksRight, LeasesRight;
    var s := Run(Empty(now), before);
    var t := AfterDeath(s, owner, wanted, d);
    if s.docs[d].state.DeletePending? {
      RetiredIsTakenAgain(s, owner, wanted, d, LEASE + 1);
      RunOne(t, Tick(LEASE + 1));
    } else {
      UndatedRuns(now, before);
      RunKeeps(now, before);
      assert forall x | x in s.tasks :: TaskRight(s, x);
      AbandonedUploadIsForgotten(s, owner, wanted, d);
      forall cs ensures !Claimable(Run(t, cs), d) { ForgottenForever(t, cs, d); }
    }
  }
}
