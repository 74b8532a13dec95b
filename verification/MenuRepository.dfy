/** The menu transactions and the cleanup worker on the rows they update. Each method is proved to
    leave and answer what module Menu says. */
module MenuRepository {
  import opened Common
  import M = Menu

  /** The reports of a batch of deletions, one document after the other. */
  function FinishEach(s: M.Shelf, owner: nat, items: seq<nat>, outcomes: seq<Outcome>): M.Shelf
    decreases |items|
  {
    if items == [] then s
    else
      var o := Head(outcomes);
      FinishEach(M.Finish(s, M.Task(owner, items[0]), o.Done? || o == Lost(true), !o.Done?).0, owner, items[1..], Rest(outcomes))
  }

  /** How many of them were deleted and accepted. */
  function CountFinished(s: M.Shelf, owner: nat, items: seq<nat>, outcomes: seq<Outcome>): nat
    decreases |items|
  {
    if items == [] then 0
    else
      var o := Head(outcomes);
      var r := M.Finish(s, M.Task(owner, items[0]), o.Done? || o == Lost(true), !o.Done?);
      (if r.1.Accepted? && o.Done? then 1 else 0) + CountFinished(r.0, owner, items[1..], Rest(outcomes))
  }

  class Repository {
    var now: int
    var active: set<nat>
    var menus: map<nat, M.Pointers>
    var docs: map<nat, M.Document>
    ghost var uploads: map<nat, M.Upload>
    var stored: set<nat>
    ghost var links: set<M.Link>
    ghost var tasks: set<M.Task>

    constructor (now: int)
      ensures Shelf() == M.Empty(now)
    {
      this.now, active, menus, docs, uploads := now, {}, map[], map[], map[];
      stored, links, tasks := {}, {}, {};
    }

    ghost function Shelf(): M.Shelf
      reads this
    {
      M.Shelf(now, active, menus, docs, uploads, stored, links, tasks)
    }

    method ReadMenu(branch: nat) returns (p: M.Pointers)
      ensures p == M.MenuOf(Shelf(), branch)
    {
      if branch in menus {
        return menus[branch];
      }
      return M.Pointers(1, None, None);
    }

    method ReserveMenuDocument(branch: nat, version: nat, d: nat) returns (reply: M.Reply)
      modifies this`docs, this`uploads
      ensures (Shelf(), reply) == M.Reserve(old(Shelf()), branch, version, d)
    {
      if branch !in active || d in docs {
        return M.Failed(M.NotFound);
      }
      var state := ReadMenu(branch);
      if state.version != version {
        return M.Failed(M.PreconditionFailed);
      }
      docs := docs[d := M.Document(branch, M.UploadPending, now, None, None, 0)];
      uploads := uploads[d := M.Upload(version, M.Storing)];
      return M.Accepted;
    }

    method RetireMenuDocument(d: Option<nat>)
      modifies this`docs
      ensures Shelf() == M.Retire(old(Shelf()), d)
    {
      if d.Some? && d.value in docs && (docs[d.value].state.UploadPending? || docs[d.value].state.Ready?) {
        docs := docs[d.value := docs[d.value].(state := M.DeletePending, deleteAfter := Some(now + M.GRACE), leaseOwner := None)];
      } else if d.Some? && d.value in docs {
        assert docs[d.value := docs[d.value]] == docs;
      }
    }

    method ActivateMenuDraft(branch: nat, version: nat, d: nat) returns (reply: M.Reply)
      modifies this`docs, this`menus
      ensures (Shelf(), reply) == M.Activate(old(Shelf()), branch, version, d)
    {
      hide M.Retire;
      if branch !in active {
        return M.Failed(M.NotFound);
      }
      var state := ReadMenu(branch);
      if state.version != version {
        return M.Failed(M.PreconditionFailed);
      }
      if d !in docs || docs[d].branch != branch || !docs[d].state.UploadPending? || docs[d].leaseOwner.Some? {
        return M.Failed(M.NotFound);
      }
      docs := docs[d := docs[d].(state := M.Ready)];
      var next := M.Pointers(state.version + 1, Some(d), state.published);
      menus := menus[branch := next];
      RetireMenuDocument(state.draft);
      return M.Shown(next);
    }

    method ChangeMenuPublication(branch: nat, version: nat, change: M.Change) returns (reply: M.Reply)
      modifies this`docs, this`menus
      ensures (Shelf(), reply) == M.ChangePublication(old(Shelf()), branch, version, change)
    {
      hide M.Retire;
      if branch !in active {
        return M.Failed(M.NotFound);
      }
      var state := ReadMenu(branch);
      if state.version != version {
        return M.Failed(M.PreconditionFailed);
      }
      var retired, next := None, state;
      match change {
        case Publish(d) =>
          if state.published == Some(d) {
            return M.Shown(state);
          }
          if state.draft != Some(d) {
            return M.Failed(M.NotFound);
          }
          retired, next := state.published, M.Pointers(state.version + 1, None, state.draft);
        case Unpublish =>
          if state.published.None? {
            return M.Shown(state);
          }
          retired, next := state.published, M.Pointers(state.version + 1, state.draft, None);
        case Discard =>
          if state.draft.None? {
            return M.Shown(state);
          }
          retired, next := state.draft, M.Pointers(state.version + 1, None, state.published);
      }
      menus := menus[branch := next];
      RetireMenuDocument(retired);
      return M.Shown(next);
    }

    method FailMenuUpload(d: nat)
      modifies this`docs
      ensures Shelf() == M.FailUpload(old(Shelf()), d)
    {
      if d in docs && docs[d].state.UploadPending? {
        var menu := ReadMenu(docs[d].branch);
        if menu.draft != Some(d) && menu.published != Some(d) {
          RetireMenuDocument(Some(d));
        }
      }
    }

    /** The first due documents in the order given, as many as the limit allows. */
    method SelectDue(order: seq<nat>, limit: nat) returns (items: seq<nat>)
      requires forall i, j | 0 <= i < j < |order| :: order[i] != order[j]
      ensures |items| <= limit && forall i | 0 <= i < |items| :: items[i] in order && M.Claimable(Shelf(), items[i])
      ensures forall i, j | 0 <= i < j < |items| :: items[i] != items[j]
      ensures |items| < limit ==> forall d | d in order && M.Claimable(Shelf(), d) :: d in items
      ensures forall j, k | 0 <= j < k < |order| && order[k] in items && M.Claimable(Shelf(), order[j]) :: order[j] in items
    {
      hide M.Claimable;
      items := [];
      var i := 0;
      while i < |order| && |items| < limit
        invariant i <= |order| && |items| <= limit
        invariant forall k | 0 <= k < |items| :: items[k] in order[..i] && M.Claimable(Shelf(), items[k])
        invariant forall j, k | 0 <= j < k < |items| :: items[j] != items[k]
        invariant forall k | 0 <= k < i && M.Claimable(Shelf(), order[k]) :: order[k] in items
      {
        var due := IsDue(order[i]);
        assert order[..i + 1] == order[..i] + [order[i]];
        if due {
          items := items + [order[i]];
        }
        i := i + 1;
      }
      forall d | d in items ensures d in order[..i] {}
    }

    /** Takes the first due documents under a lease of the worker. */
    method DueMenuMedia(order: seq<nat>, limit: nat, owner: nat) returns (items: seq<nat>)
      requires forall i, j | 0 <= i < j < |order| :: order[i] != order[j]
      modifies this`docs, this`tasks
      ensures |items| <= limit && forall i | 0 <= i < |items| :: items[i] in order && M.Claimable(old(Shelf()), items[i])
      ensures forall i, j | 0 <= i < j < |items| :: items[i] != items[j]
      ensures |items| < limit ==> forall d | d in order && M.Claimable(old(Shelf()), d) :: d in items
      ensures forall j, k | 0 <= j < k < |order| && order[k] in items && M.Claimable(old(Shelf()), order[j]) :: order[j] in items
      ensures Shelf() == M.Claim(old(Shelf()), owner, set d | d in items)
    {
      hide M.Claimable;
      items := SelectDue(order, limit);
      var wanted := set d | d in items;
      tasks := tasks + set d | d in wanted :: M.Task(owner, d);
      docs := map d | d in docs :: if d in wanted then docs[d].(state := M.DeletePending, leaseOwner := Some(owner),
          leaseUntil := now + M.LEASE)
                                   else docs[d];
    }

    method IsDue(d: nat) returns (due: bool)
      ensures due == M.Claimable(Shelf(), d)
    {
      if d !in docs {
        return false;
      }
      var doc := docs[d];
      var menu := ReadMenu(doc.branch);
      return && (doc.leaseOwner.None? || doc.leaseUntil < now)
             && ((doc.state.DeletePending? && doc.deleteAfter.Some? && doc.deleteAfter.value <= now)
                 || (doc.state.UploadPending? && doc.created < now - M.ABANDONED_AFTER))
             && menu.draft != Some(d) && menu.published != Some(d);
    }

    method CompleteMenuMediaDeletion(d: nat, owner: nat, failed: bool) returns (reply: M.Reply)
      modifies this`docs
      ensures reply.Accepted? <==> d in old(docs) && old(docs)[d].leaseOwner == Some(owner) && old(docs)[d].state.DeletePending?
      ensures !reply.Accepted? ==> reply == M.Failed(M.Conflict) && docs == old(docs)
      ensures reply.Accepted? ==>
                docs == old(docs)[d := if failed then old(docs)[d].(leaseOwner := None, deleteAfter := Some(now + M.RETRY_AFTER))
                                       else old(docs)[d].(state := M.Deleted, leaseOwner := None, deleteAfter := None)]
    {
      if d !in docs || docs[d].leaseOwner != Some(owner) || !docs[d].state.DeletePending? {
        return M.Failed(M.Conflict);
      }
      if failed {
        docs := docs[d := docs[d].(leaseOwner := None, deleteAfter := Some(now + M.RETRY_AFTER))];
      } else {
        docs := docs[d := docs[d].(state := M.Deleted, leaseOwner := None, deleteAfter := None)];
      }
      return M.Accepted;
    }

    /** Deletes one object and reports. */
    method DeleteOne(d: nat, owner: nat, o: Outcome) returns (ok: bool)
      modifies this`docs, this`stored, this`tasks
      ensures (Shelf(), if ok then M.Accepted else M.Failed(M.Conflict))
              == M.Finish(old(Shelf()), M.Task(owner, d), o.Done? || o == Lost(true), !o.Done?)
    {
      if o.Done? || o == Lost(true) {
        stored := stored - {d};
      }
      tasks := tasks - {M.Task(owner, d)};
      var reply := CompleteMenuMediaDeletion(d, owner, !o.Done?);
      ok := reply.Accepted?;
    }

    /** One pass of the worker. */
    method RunMenuCleanup(order: seq<nat>, limit: nat, owner: nat, outcomes: seq<Outcome>) returns (items: seq<nat>, completed: nat)
      requires forall i, j | 0 <= i < j < |order| :: order[i] != order[j]
      modifies this
      ensures Shelf() == FinishEach(M.Claim(old(Shelf()), owner, set d | d in items), owner, items, outcomes)
      ensures |items| < limit ==> forall d | d in order && M.Claimable(old(Shelf()), d) :: d in items
      ensures |items| <= limit && completed == CountFinished(M.Claim(old(Shelf()), owner, set d | d in items), owner, items, outcomes)
    {
      hide M.Finish, M.Claim, M.Claimable;
      items := DueMenuMedia(order, limit, owner);
      ghost var claimed := Shelf();
      completed := 0;
      var answers := outcomes;
      for i := 0 to |items|
        invariant FinishEach(Shelf(), owner, items[i..], answers) == FinishEach(claimed, owner, items, outcomes)
        invariant completed + CountFinished(Shelf(), owner, items[i..], answers) == CountFinished(claimed, owner, items, outcomes)
      {
        assert items[i..][1..] == items[i + 1..];
        var o := Head(answers);
        var ok := DeleteOne(items[i], owner, o);
        if ok && o.Done? {
          completed := completed + 1;
        }
        answers := Rest(answers);
      }
      assert items[|items|..] == [];
    }
  }
}
