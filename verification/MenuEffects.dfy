/** What each menu transaction does, told from the menu and the documents it found: when it goes through, which
    pointers and documents it leaves, what its links show, and how long a lease or a delay protects. */
module MenuEffects {
  import opened Common
  import opened Menu

  /** A document that is on its way out since now. */
  predicate JustRetired(s: Shelf, t: Shelf, d: nat) {
    && d in s.docs && d in t.docs && t.docs[d].state.DeletePending? && t.docs[d].leaseOwner.None?
    && t.docs[d].deleteAfter == Some(s.now + 360)
    && t.docs[d].branch == s.docs[d].branch && t.docs[d].created == s.docs[d].created
  }

  /** Apart from these documents and one menu nothing changed. */
  ghost predicate OnlyTouches(s: Shelf, t: Shelf, branch: nat, touched: set<nat>) {
    && t.docs.Keys == s.docs.Keys && (forall e | e in s.docs && e !in touched :: t.docs[e] == s.docs[e])
    && (forall b | b != branch :: MenuOf(t, b) == MenuOf(s, b))
    && t.active == s.active && t.uploads == s.uploads && t.stored == s.stored && t.links == s.links && t.tasks == s.tasks && t.now == s.now
  }

  function Just(d: Option<nat>): set<nat> {
    if d.Some? then {d.value} else {}
  }

  // ---------------------------------------------------------------------------
  // Publishing
  // ---------------------------------------------------------------------------

  /** Publishing the draft makes it the public menu, leaves no draft, and retires the menu it replaces. */
  lemma PublishShowsTheDraft(s: Shelf, branch: nat, version: nat, d: nat)
    requires Inv(s) && branch in s.active
    requires MenuOf(s, branch).version == version && MenuOf(s, branch).draft == Some(d)
    ensures var (t, reply) := ChangePublication(s, branch, version, Publish(d));
            var was, now := MenuOf(s, branch), MenuOf(t, branch);
            && reply == Shown(now)
            && now.published == Some(d) && now.draft.None? && now.version == version + 1
            && d in t.docs && t.docs[d].state.Ready? && t.docs[d] == s.docs[d]
            && (was.published.Some? ==> JustRetired(s, t, was.published.value))
            && OnlyTouches(s, t, branch, Just(was.published))
  {
    hide LinksRight, TasksRight, LeasesRight;
  }

  /** Unpublishing takes the public menu away and leaves the draft. */
  lemma UnpublishLeavesTheDraft(s: Shelf, branch: nat, version: nat)
    requires Inv(s) && branch in s.active
    requires MenuOf(s, branch).version == version && MenuOf(s, branch).published.Some?
    ensures var (t, reply) := ChangePublication(s, branch, version, Unpublish);
            var was, now := MenuOf(s, branch), MenuOf(t, branch);
            && reply == Shown(now)
            && now.published.None? && now.draft == was.draft && now.version == version + 1
            && (was.draft.Some? ==> was.draft.value in t.docs && t.docs[was.draft.value].state.Ready?)
            && JustRetired(s, t, was.published.value)
            && OnlyTouches(s, t, branch, Just(was.published))
  {
    hide LinksRight, TasksRight, LeasesRight;
  }

  /** Discarding takes the draft away and leaves the public menu. */
  lemma DiscardLeavesThePublished(s: Shelf, branch: nat, version: nat)
    requires Inv(s) && branch in s.active
    requires MenuOf(s, branch).version == version && MenuOf(s, branch).draft.Some?
    ensures var (t, reply) := ChangePublication(s, branch, version, Discard);
            var was, now := MenuOf(s, branch), MenuOf(t, branch);
            && reply == Shown(now)
            && now.draft.None? && now.published == was.published && now.version == version + 1
            && (was.published.Some? ==> was.published.value in t.docs && t.docs[was.published.value].state.Ready?)
            && JustRetired(s, t, was.draft.value)
            && OnlyTouches(s, t, branch, Just(was.draft))
  {
    hide LinksRight, TasksRight, LeasesRight;
  }

  /** Something to do: the draft to publish, a public menu to take away, a draft to discard. */
  predicate Changes(p: Pointers, change: Change) {
    match change
    case Publish(d) => p.draft == Some(d) && p.published != Some(d)
    case Unpublish => p.published.Some?
    case Discard => p.draft.Some?
  }

  /** A menu changes exactly on an active branch, for its current version, when there is something to do; what is
      already so is shown as it is, another document or branch is not found, and another version is a conflict. */
  lemma ChangedWhen(s: Shelf, branch: nat, version: nat, change: Change)
    ensures var (t, reply) := ChangePublication(s, branch, version, change);
            var p := MenuOf(s, branch);
            && (t != s <==> branch in s.active && p.version == version && Changes(p, change))
            && (reply == Failed(PreconditionFailed) <==> branch in s.active && p.version != version)
            && (reply == Failed(NotFound) <==>
                  branch !in s.active || (p.version == version && change.Publish? && p.draft != Some(change.document)
                                          && p.published != Some(change.document)))
            && (reply.Failed? ==> reply.error.NotFound? || reply.error.PreconditionFailed?)
            && (reply.Shown? ==> reply.pointers == MenuOf(t, branch))
  {
    hide Retired;
    var t, p := ChangePublication(s, branch, version, change).0, MenuOf(s, branch);
    if branch in s.active && p.version == version && Changes(p, change) { assert MenuOf(t, branch).version == version + 1; }
  }

  // ---------------------------------------------------------------------------
  // Uploads
  // ---------------------------------------------------------------------------

  /** An upload is reserved exactly for the current version of an active branch, under a new name; it is pending, not
      due and not named. */
  lemma ReservedWhen(s: Shelf, branch: nat, version: nat, d: nat)
    ensures var (t, reply) := Reserve(s, branch, version, d);
            && (reply.Accepted? <==> branch in s.active && d !in s.docs && MenuOf(s, branch).version == version)
            && (reply.Accepted? ==> t == s.(docs := s.docs[d := Document(branch, UploadPending, s.now, None, None, 0)],
                                            uploads := s.uploads[d := Upload(version, Storing)]))
            && (!reply.Accepted? ==> t == s)
            && (reply == Failed(PreconditionFailed) <==> branch in s.active && d !in s.docs && MenuOf(s, branch).version != version)
  {
  }

  /** A stored upload becomes the draft exactly while it is pending and not taken for deletion, on its own active
      branch, for the version it was reserved for. The public menu stays, the draft it replaces is retired. */
  lemma ActivatedWhen(s: Shelf, branch: nat, version: nat, d: nat)
    requires Inv(s)
    ensures var (t, reply) := Activate(s, branch, version, d);
            var was, now := MenuOf(s, branch), MenuOf(t, branch);
            && (reply.Shown? <==> && branch in s.active && was.version == version && d in s.docs && s.docs[d].branch == branch
                                  && s.docs[d].state.UploadPending? && s.docs[d].leaseOwner.None?)
            && (!reply.Shown? ==> t == s && reply == Failed(if branch in s.active && was.version != version then PreconditionFailed else NotFound))
            && (reply.Shown? ==> && reply == Shown(now)
                                 && now.draft == Some(d) && now.published == was.published && now.version == version + 1
                                 && d in t.docs && t.docs[d] == s.docs[d].(state := Ready)
                                 && (was.draft.Some? ==> was.draft.value != d && JustRetired(s, t, was.draft.value))
                                 && OnlyTouches(s, t, branch, Just(was.draft) + {d}))
  {
    hide LinksRight, TasksRight, LeasesRight;
    if Activate(s, branch, version, d).1.Shown? { ActivateDocs(s, branch, version, d); }
  }

  /** The whole way of a menu: reserved, stored, activated and published with the versions shown on the way, a document
      is the public menu of its branch. */
  lemma UploadReachesThePublic(s: Shelf, branch: nat, d: nat)
    requires Inv(s) && branch in s.active && d !in s.docs
    ensures var version := MenuOf(s, branch).version;
            var stored := Step(Reserve(s, branch, version, d).0, StoreObject(d, true, true));
            var drafted := Activate(stored, branch, version, d);
            var public := ChangePublication(drafted.0, branch, version + 1, Publish(d));
            && Reserve(s, branch, version, d).1.Accepted? && drafted.1.Shown? && public.1.Shown?
            && MenuOf(public.0, branch).published == Some(d) && d in public.0.stored
  {
    hide Inv, Reserve, Activate, ChangePublication;
    var version := MenuOf(s, branch).version;
    var reserved := Reserve(s, branch, version, d).0;
    ReservedWhen(s, branch, version, d);
    ReserveKeeps(s, branch, version, d);
    var stored := Step(reserved, StoreObject(d, true, true));
    StoreKeeps(reserved, d, true, true);
    ActivatedWhen(stored, branch, version, d);
    ActivateKeeps(stored, branch, version, d);
    var drafted := Activate(stored, branch, version, d).0;
    PublishShowsTheDraft(drafted, branch, version + 1, d);
  }

  /** Giving an upload up retires it while it is pending, and leaves everything else alone. */
  lemma GivingUpRetires(s: Shelf, d: nat)
    requires Inv(s)
    ensures var t := FailUpload(s, d);
            && (d in s.docs && s.docs[d].state.UploadPending? ==> JustRetired(s, t, d) && t == s.(docs := s.docs[d := t.docs[d]]))
            && (d in s.docs && !s.docs[d].state.UploadPending? ==> t == s)
            && (d !in s.docs ==> t == s)
  {
    hide Kept, LinksRight, TasksRight, LeasesRight;
  }

  /** Closing branches leaves them no menu and retires all their uploads and menus; other branches keep theirs. */
  lemma ClosingClears(s: Shelf, branches: set<nat>)
    ensures var t := Close(s, branches);
            && (forall b | b in branches :: b !in t.active && MenuOf(t, b).draft.None? && MenuOf(t, b).published.None?)
            && (forall b | b !in branches :: (b in t.active <==> b in s.active) && MenuOf(t, b) == MenuOf(s, b))
            && t.docs.Keys == s.docs.Keys
            && (forall d | d in s.docs && s.docs[d].branch in branches && (s.docs[d].state.UploadPending? || s.docs[d].state.Ready?) ::
                  JustRetired(s, t, d))
            && (forall d | d in s.docs && !(s.docs[d].branch in branches && (s.docs[d].state.UploadPending? || s.docs[d].state.Ready?)) ::
                  t.docs[d] == s.docs[d])
  {
  }

  // ---------------------------------------------------------------------------
  // What readers are shown
  // ---------------------------------------------------------------------------

  /** The public is given a link to the published document and to no other; it lives at most five minutes on the
      clock that signed it. */
  lemma PublicSeesThePublished(s: Shelf, branch: nat, offset: int, configured: int)
    requires branch in s.active && -60 <= offset <= 60
    ensures var t := Step(s, ReadPublicMenu(branch, offset, configured));
            && (MenuOf(s, branch).published.Some? <==> exists l :: l in t.links && MenuOf(s, branch).published == Some(l.document)
                                                                   && s.now + offset < l.expires <= s.now + offset + 300)
            && (forall l | l in t.links && l !in s.links :: MenuOf(s, branch).published == Some(l.document))
            && t.links >= s.links && t == s.(links := t.links)
  {
    var p := MenuOf(s, branch).published;
    if p.Some? { assert Link(p.value, s.now + offset + LinkTtl(configured)) in Step(s, ReadPublicMenu(branch, offset, configured)).links; }
  }

  /** A member is given links to draft and published document. */
  lemma MembersSeeBoth(s: Shelf, branch: nat, offset: int, configured: int, d: nat)
    requires branch in s.active && -60 <= offset <= 60 && Names(MenuOf(s, branch), d)
    ensures var t := Step(s, ReadMenu(branch, offset, configured));
            exists l :: l in t.links && l.document == d && s.now + offset < l.expires <= s.now + offset + 300
  {
    assert Link(d, s.now + offset + LinkTtl(configured)) in Step(s, ReadMenu(branch, offset, configured)).links;
  }

  // ---------------------------------------------------------------------------
  // Cleanup
  // ---------------------------------------------------------------------------

  /** Which documents the cleanup may take, in hours and minutes: those whose date has come and uploads older than
      fifteen minutes, unless named or under a lease that runs. */
  lemma TakenWhen(s: Shelf, d: nat)
    requires Inv(s) && d in s.docs
    ensures var doc := s.docs[d];
            Claimable(s, d) <==>
              && ((doc.state.DeletePending? && doc.deleteAfter.Some? && s.now >= doc.deleteAfter.value)
                  || (doc.state.UploadPending? && s.now - doc.created > 900))
              && !(doc.leaseOwner.Some? && s.now <= doc.leaseUntil)
  {
    hide Kept, LinksRight, TasksRight, LeasesRight;
    if Names(MenuOf(s, s.docs[d].branch), d) { assert s.docs[d].branch in s.menus; }
  }

  /** The document is under the lease of a worker. */
  predicate LeasedTo(s: Shelf, d: nat, owner: nat) {
    d in s.docs && s.docs[d].state.DeletePending? && s.docs[d].leaseOwner == Some(owner)
  }

  predicate Reports(c: Choice, owner: nat, d: nat) {
    c.FinishDeletion? && c.task == Task(owner, d)
  }

  lemma LeaseStep(s: Shelf, c: Choice, owner: nat, d: nat)
    requires LeasedTo(s, d, owner) && s.now <= s.docs[d].leaseUntil && !Reports(c, owner, d)
    ensures LeasedTo(Step(s, c), d, owner) && Step(s, c).docs[d] == s.docs[d]
  {
    hide Activate, ChangePublication, Close;
    match c
    case ActivateUpload(e, offset, configured, answered) =>
      if e in s.uploads && e in s.docs { ActivateLeaves(s, s.docs[e].branch, s.uploads[e].version, e, d); }
    case Edit(branch, version, change, offset, configured, answered) => ChangeLeaves(s, branch, version, change, d);
    case CloseBranches(branches) => CloseLeaves(s, branches, d);
    case _ =>
  }

  lemma ClockRises(s: Shelf, c: Choice)
    ensures Step(s, c).now >= s.now
  {
    hide Claimable;
  }

  /** A lease protects: for five minutes after a worker took a document nobody else can take it, until the worker itself
      has reported on it. */
  lemma {:induction false} LeaseProtects(s: Shelf, cs: seq<Choice>, owner: nat, d: nat)
    requires LeasedTo(s, d, owner) && Run(s, cs).now <= s.docs[d].leaseUntil
    requires forall k | 0 <= k < |cs| :: !Reports(cs[k], owner, d)
    ensures LeasedTo(Run(s, cs), d, owner) && Run(s, cs).docs[d] == s.docs[d] && !Claimable(Run(s, cs), d)
  {
    hide Step;
    if cs != [] {
      var front, c := cs[..|cs| - 1], cs[|cs| - 1];
      ClockRises(Run(s, front), c);
      forall k | 0 <= k < |front| ensures !Reports(front[k], owner, d) { assert front[k] == cs[k]; }
      LeaseProtects(s, front, owner, d);
      LeaseStep(Run(s, front), c, owner, d);
    }
  }

  /** A claim takes exactly the wanted documents that may be taken, puts each under a lease of five minutes and into the
      hands of the worker. */
  lemma ClaimLeases(s: Shelf, owner: nat, wanted: set<nat>, d: nat)
    requires d in s.docs
    ensures var t := Claim(s, owner, wanted);
            && (d in wanted && Claimable(s, d) ==> LeasedTo(t, d, owner) && t.docs[d].leaseUntil == s.now + 300 && Task(owner, d) in t.tasks
                                                   && t.docs[d].deleteAfter == s.docs[d].deleteAfter)
            && (!(d in wanted && Claimable(s, d)) ==> t.docs[d] == s.docs[d] && (Task(owner, d) in t.tasks <==> Task(owner, d) in s.tasks))
  {
    hide Claimable;
  }

  /** What a report does: the owner of the lease closes the document, or, after a failure, gives it up for an hour; any
      other worker is refused and changes no document. */
  lemma ReportWrites(s: Shelf, x: Task, deleted: bool, failed: bool)
    ensures var (t, reply) := Finish(s, x, deleted, failed);
            && (reply.Accepted? <==> LeasedTo(s, x.document, x.owner))
            && (!reply.Accepted? ==> reply == Failed(Conflict) && t.docs == s.docs)
            && (reply.Accepted? && !failed ==> x.document in t.docs && t.docs[x.document].state.Deleted?)
            && (reply.Accepted? && failed ==> && x.document in t.docs && t.docs[x.document].state.DeletePending?
                                              && t.docs[x.document].leaseOwner.None? && t.docs[x.document].deleteAfter == Some(s.now + 3600))
            && (forall e | e in s.docs && e != x.document :: e in t.docs && t.docs[e] == s.docs[e])
            && t.stored == (if deleted then s.stored - {x.document} else s.stored) && x !in t.tasks
  {
  }
}
