/** Card refreshes: the broker that fans database notifications out to browser streams
    (internal/cardevents/broker.go) and the loop of one stream (internal/handler/card_events.go). */
module CardEvents {
  import opened Common

  const MAX_SUBSCRIBERS: nat := 128
  const MAX_PER_CUSTOMER: nat := 4

  /** `pending` holds the subscriptions whose event channel is full, `closed` those whose down channel
      was closed and `reclosed` those whose down channel was closed again, which would panic. */
  datatype Broker = Broker(ready: bool, groups: map<nat, set<nat>>, total: int, pending: set<nat>, closed: set<nat>, reclosed: set<nat>,
                           enqueued: nat, coalesced: nat, rejected: nat, disconnects: nat)

  datatype Grant = Unavailable | AtCapacity | Granted(subscription: nat)

  function GroupOf(b: Broker, customer: nat): set<nat> {
    if customer in b.groups then b.groups[customer] else {}
  }

  function Subscribe(b: Broker, customer: nat, id: nat): (Broker, Grant) {
    if !b.ready then (b, Unavailable)
    else if b.total >= MAX_SUBSCRIBERS || |GroupOf(b, customer)| >= MAX_PER_CUSTOMER then (b.(rejected := b.rejected + 1), AtCapacity)
    else (b.(groups := b.groups[customer := GroupOf(b, customer) + {id}], total := b.total + 1), Granted(id))
  }

  function Unsubscribe(b: Broker, customer: nat, s: nat): Broker {
    if s !in GroupOf(b, customer) then b
    else
      var left := GroupOf(b, customer) - {s};
      b.(groups := if left == {} then b.groups - {customer} else b.groups[customer := left], total := b.total - 1)
  }

  /** A full channel coalesces: one pending refresh covers all changes before it is read. */
  function Publish(b: Broker, customer: nat): Broker {
    var group := GroupOf(b, customer);
    b.(pending := b.pending + group, enqueued := b.enqueued + |group - b.pending|, coalesced := b.coalesced + |group * b.pending|)
  }

  function AllOf(groups: map<nat, set<nat>>): set<nat> {
    set c, s | c in groups && s in groups[c] :: s
  }

  function SetDown(b: Broker): Broker {
    b.(disconnects := if b.ready then b.disconnects + 1 else b.disconnects, ready := false, groups := map[], total := 0,
       closed := b.closed + AllOf(b.groups), reclosed := b.reclosed + AllOf(b.groups) * b.closed)
  }

  // ---------------------------------------------------------------------------
  // The broker's invariant
  // ---------------------------------------------------------------------------

  ghost function SumOfSizes(groups: map<nat, set<nat>>): nat
    decreases |groups|
  {
    if groups == map[] then 0
    else
      var c :| c in groups;
      |groups[c]| + SumOfSizes(groups - {c})
  }

  lemma {:induction false} SumTakesAny(groups: map<nat, set<nat>>, c: nat)
    requires c in groups
    ensures SumOfSizes(groups) == |groups[c]| + SumOfSizes(groups - {c})
    decreases |groups|
  {
    var d :| d in groups && SumOfSizes(groups) == |groups[d]| + SumOfSizes(groups - {d});
    if d != c {
      assert |groups - {d}| < |groups| by { Smaller(groups, d); }
      assert |groups - {c}| < |groups| by { Smaller(groups, c); }
      SumTakesAny(groups - {d}, c);
      SumTakesAny(groups - {c}, d);
      assert groups - {d} - {c} == groups - {c} - {d};
    }
  }

  lemma Smaller(groups: map<nat, set<nat>>, c: nat)
    requires c in groups
    ensures |groups - {c}| == |groups| - 1
  {
    assert (groups - {c}).Keys == groups.Keys - {c};
    assert |groups.Keys - {c}| == |groups.Keys| - 1;
    assert |groups| == |groups.Keys| && |groups - {c}| == |(groups - {c}).Keys|;
  }

  lemma SumPuts(groups: map<nat, set<nat>>, c: nat, group: set<nat>)
    ensures SumOfSizes(groups[c := group]) == SumOfSizes(groups) + |group| - (if c in groups then |groups[c]| else 0)
  {
    SumTakesAny(groups[c := group], c);
    if c in groups {
      SumTakesAny(groups, c);
      assert groups[c := group] - {c} == groups - {c};
    } else {
      assert groups[c := group] - {c} == groups;
    }
  }

  /** The total is the sum of the group sizes, within the cap. */
  ghost predicate Totalled(b: Broker) {
    b.total == SumOfSizes(b.groups) <= MAX_SUBSCRIBERS
  }

  /** No group is empty or over its cap, and no subscription is in two groups. */
  predicate Grouped(groups: map<nat, set<nat>>) {
    && (forall c | c in groups :: 1 <= |groups[c]| <= MAX_PER_CUSTOMER)
    && (forall c, d | c in groups && d in groups && c != d :: groups[c] !! groups[d])
  }

  /** A registered subscription has its down channel open, and none was closed twice. */
  predicate ClosedOnce(b: Broker) {
    && b.reclosed == {} && (!b.ready ==> b.groups == map[])
    && forall c | c in b.groups :: b.groups[c] !! b.closed
  }

  ghost predicate Sound(b: Broker) {
    Totalled(b) && Grouped(b.groups) && ClosedOnce(b)
  }

  predicate Unused(b: Broker, s: nat) {
    s !in b.closed && s !in b.pending && forall c | c in b.groups :: s !in b.groups[c]
  }

  lemma GroupedPut(groups: map<nat, set<nat>>, c: nat, group: set<nat>)
    requires Grouped(groups) && 1 <= |group| <= MAX_PER_CUSTOMER
    requires forall d | d in groups && d != c :: groups[d] !! group
    ensures Grouped(groups[c := group])
  {
  }

  lemma SubscribeKeeps(b: Broker, customer: nat, id: nat)
    requires Sound(b) && Unused(b, id)
    ensures Sound(Subscribe(b, customer, id).0)
  {
    hide SumOfSizes, Grouped;
    var group := GroupOf(b, customer);
    if b.ready && b.total < MAX_SUBSCRIBERS && |group| < MAX_PER_CUSTOMER {
      SumPuts(b.groups, customer, group + {id});
      GroupsAreApart(b, customer, id);
      GroupedPut(b.groups, customer, group + {id});
    }
  }

  lemma GroupsAreApart(b: Broker, customer: nat, id: nat)
    requires Grouped(b.groups) && Unused(b, id)
    ensures forall d | d in b.groups && d != customer :: b.groups[d] !! GroupOf(b, customer) + {id}
  {
  }

  lemma UnsubscribeKeeps(b: Broker, customer: nat, s: nat)
    requires Sound(b)
    ensures Sound(Unsubscribe(b, customer, s))
  {
    hide SumOfSizes;
    if s in GroupOf(b, customer) {
      var left := GroupOf(b, customer) - {s};
      SumTakesAny(b.groups, customer);
      SumPuts(b.groups, customer, left);
      if left != {} { GroupedPut(b.groups, customer, left); }
    }
  }

  lemma SetDownKeeps(b: Broker)
    requires Sound(b)
    ensures Sound(SetDown(b))
  {
    assert AllOf(b.groups) * b.closed == {};
  }

  lemma PublishKeeps(b: Broker, customer: nat)
    requires Sound(b)
    ensures Sound(Publish(b, customer))
  {
  }

  // ---------------------------------------------------------------------------
  // The object
  // ---------------------------------------------------------------------------

  class CardBroker {
    var ready: bool
    var groups: map<nat, set<nat>>
    var total: int
    var pending: set<nat>
    var closed: set<nat>
    var reclosed: set<nat>
    var enqueued: nat
    var coalesced: nat
    var rejected: nat
    var disconnects: nat

    constructor ()
      ensures State() == Broker(false, map[], 0, {}, {}, {}, 0, 0, 0, 0)
    {
      ready, groups, total, pending, closed, reclosed := false, map[], 0, {}, {}, {};
      enqueued, coalesced, rejected, disconnects := 0, 0, 0, 0;
    }

    ghost function State(): Broker
      reads this
    {
      Broker(ready, groups, total, pending, closed, reclosed, enqueued, coalesced, rejected, disconnects)
    }

    method SubscribeCustomer(customer: nat, id: nat) returns (grant: Grant)
      requires Sound(State()) && Unused(State(), id)
      modifies this
      ensures Sound(State()) && (State(), grant) == Subscribe(old(State()), customer, id)
    {
      hide Sound;
      SubscribeKeeps(State(), customer, id);
      if !ready {
        return Unavailable;
      }
      var size := if customer in groups then |groups[customer]| else 0;
      if total >= MAX_SUBSCRIBERS || size >= MAX_PER_CUSTOMER {
        rejected := rejected + 1;
        return AtCapacity;
      }
      if customer !in groups {
        groups := groups[customer := {}];
      }
      groups := groups[customer := groups[customer] + {id}];
      total := total + 1;
      assert groups == old(groups)[customer := GroupOf(old(State()), customer) + {id}];
      return Granted(id);
    }

    method UnsubscribeCustomer(customer: nat, s: nat)
      requires Sound(State())
      modifies this
      ensures Sound(State()) && State() == Unsubscribe(old(State()), customer, s)
    {
      hide Sound;
      UnsubscribeKeeps(State(), customer, s);
      if customer !in groups || s !in groups[customer] {
        return;
      }
      groups := groups[customer := groups[customer] - {s}];
      if groups[customer] == {} {
        groups := groups - {customer};
      }
      total := total - 1;
      assert groups == Unsubscribe(old(State()), customer, s).groups;
    }

    /** One send to an event channel of capacity one. */
    method Notify(s: nat)
      modifies this`pending, this`enqueued, this`coalesced
      ensures pending == old(pending) + {s}
      ensures enqueued == old(enqueued) + (if s in old(pending) then 0 else 1)
      ensures coalesced == old(coalesced) + (if s in old(pending) then 1 else 0)
    {
      if s in pending {
        coalesced := coalesced + 1;
      } else {
        pending := pending + {s};
        enqueued := enqueued + 1;
      }
    }

    method PublishTo(customer: nat)
      modifies this`pending, this`enqueued, this`coalesced
      ensures State() == Publish(old(State()), customer)
    {
      var group := if customer in groups then groups[customer] else {};
      var done: set<nat> := {};
      ghost var full := pending;
      while done != group
        invariant done <= group
        invariant pending == full + done
        invariant enqueued == old(enqueued) + |done - full|
        invariant coalesced == old(coalesced) + |done * full|
        decreases group - done
      {
        var s := AnyOf(group, done);
        CountOneMore(done, full, s);
        Notify(s);
        done := done + {s};
      }
    }

    /** Closes every down channel, group by group, then forgets the subscriptions. */
    method GoDown()
      requires Sound(State())
      modifies this
      ensures Sound(State()) && State() == SetDown(old(State()))
    {
      SetDownKeeps(State());
      hide SumOfSizes;
      if ready {
        disconnects := disconnects + 1;
      }
      ready := false;
      CloseAll();
      groups, total := map[], 0;
    }

    method CloseAll()
      requires Grouped(groups)
      modifies this`closed, this`reclosed
      ensures closed == old(closed) + AllOf(groups) && reclosed == old(reclosed) + AllOf(groups) * old(closed)
    {
      hide Grouped, AllOf;
      var done: set<nat> := {};
      AllOfNone(groups);
      while done != groups.Keys
        invariant done <= groups.Keys
        invariant closed == old(closed) + AllOf(Part(groups, done))
        invariant reclosed == old(reclosed) + AllOf(Part(groups, done)) * old(closed)
        decreases groups.Keys - done
      {
        var c := AnyOf(groups.Keys, done);
        AllOfOneMore(groups, done, c);
        CloseGroup(groups[c]);
        done := done + {c};
      }
      assert Part(groups, done) == groups;
    }

    method CloseGroup(group: set<nat>)
      modifies this`closed, this`reclosed
      ensures closed == old(closed) + group && reclosed == old(reclosed) + group * old(closed)
    {
      var done: set<nat> := {};
      while done != group
        invariant done <= group
        invariant closed == old(closed) + done && reclosed == old(reclosed) + done * old(closed)
        decreases group - done
      {
        var s := AnyOf(group, done);
        if s in closed {
          reclosed := reclosed + {s};
        }
        closed := closed + {s};
        done := done + {s};
      }
    }
  }

  function Part(groups: map<nat, set<nat>>, done: set<nat>): map<nat, set<nat>> {
    map c | c in groups && c in done :: groups[c]
  }

  lemma AllOfNone(groups: map<nat, set<nat>>)
    ensures AllOf(Part(groups, {})) == {}
  {
  }

  lemma PartMore(groups: map<nat, set<nat>>, done: set<nat>, c: nat)
    requires c in groups && c !in done
    ensures Part(groups, done + {c}) == Part(groups, done)[c := groups[c]] && c !in Part(groups, done)
  {
  }

  lemma AllOfPut(groups: map<nat, set<nat>>, c: nat, group: set<nat>)
    requires c !in groups
    ensures AllOf(groups[c := group]) == AllOf(groups) + group
  {
    var more := groups[c := group];
    forall s | s in AllOf(groups) ensures s in AllOf(more) {
      var d :| d in groups && s in groups[d];
      assert more[d] == groups[d];
    }
    assert more[c] == group;
  }

  lemma AllOfApart(groups: map<nat, set<nat>>, done: set<nat>, c: nat)
    requires Grouped(groups) && c in groups && c !in done
    ensures AllOf(Part(groups, done)) !! groups[c]
  {
    forall s | s in AllOf(Part(groups, done)) ensures s !in groups[c] {
      var d :| d in Part(groups, done) && s in Part(groups, done)[d];
      assert groups[d] !! groups[c];
    }
  }

  lemma AllOfOneMore(groups: map<nat, set<nat>>, done: set<nat>, c: nat)
    requires Grouped(groups) && c in groups && c !in done
    ensures AllOf(Part(groups, done + {c})) == AllOf(Part(groups, done)) + groups[c]
    ensures AllOf(Part(groups, done)) !! groups[c]
  {
    hide Part, AllOf, Grouped;
    PartMore(groups, done, c);
    AllOfPut(Part(groups, done), c, groups[c]);
    AllOfApart(groups, done, c);
  }

  /** The next element of a range over a map, in no particular order. */
  method AnyOf(all: set<nat>, done: set<nat>) returns (s: nat)
    requires done <= all && done != all
    ensures s in all && s !in done
  {
    SomethingLeft(done, all);
    s :| s in all - done;
  }

  lemma SomethingLeft(done: set<nat>, all: set<nat>)
    requires done <= all
    ensures done == all || exists s :: s in all - done
  {
    var left := all - done;
    assert all == done + left;
    if left != {} { var s :| s in left; }
  }

  lemma CountOneMore(done: set<nat>, full: set<nat>, s: nat)
    requires s !in done
    ensures |(done + {s}) - full| == |done - full| + (if s in full + done then 0 else 1)
    ensures |(done + {s}) * full| == |done * full| + (if s in full + done then 1 else 0)
  {
    if s in full {
      assert (done + {s}) - full == done - full;
      assert (done + {s}) * full == done * full + {s};
    } else {
      assert (done + {s}) - full == (done - full) + {s};
      assert (done + {s}) * full == done * full;
    }
  }

  // ---------------------------------------------------------------------------
  // Streams
  // ---------------------------------------------------------------------------

  /** The loop of one stream, by what it does next. `lastSent` is the revision the browser has. */
  datatype Place = ReadFirst | Send(revision: nat) | Waiting | Woken

  datatype Stream = Stream(customer: nat, place: Place, lastSent: Option<nat>)

  /** The listening connection: absent, up with the notifications not yet read, or lost while the
      broker has not noticed. */
  datatype Link = Absent | Up(queue: seq<nat>) | Broken

  /** `revision` numbers the states of each customer's cards; a stream is keyed by its subscription. */
  datatype System = System(broker: Broker, link: Link, revision: map<nat, nat>, streams: map<nat, Stream>, next: nat)

  function Revision(s: System, customer: nat): nat {
    if customer in s.revision then s.revision[customer] else 0
  }

  datatype Choice =
    | Commit(customer: nat)
    | Connect
    | BecomeReady
    | LoseLink
    | NoticeDown
    | Deliver
    | Open(customer: nat, lastEventId: Option<nat>)
    | Proceed(stream: nat, ok: bool)
    | Leave(stream: nat)

  function At(s: System, i: nat, place: Place): System
    requires i in s.streams
  {
    s.(streams := s.streams[i := s.streams[i].(place := place)])
  }

  function CloseStream(s: System, i: nat): System
    requires i in s.streams
  {
    s.(broker := Unsubscribe(s.broker, s.streams[i].customer, i), streams := s.streams - {i})
  }

  /** One step of a stream: it reads the revision only after it was registered, and again after each
      event it took. */
  function Advance(s: System, i: nat, ok: bool): System
    requires i in s.streams
  {
    var stream := s.streams[i];
    if !ok then CloseStream(s, i)
    else
      match stream.place
      case ReadFirst => At(s, i, Send(Revision(s, stream.customer)))
      case Send(r) => s.(streams := s.streams[i := stream.(place := Waiting, lastSent := Some(r))])
      case Waiting =>
        if i in s.broker.closed then CloseStream(s, i)
        else if i in s.broker.pending then At(s.(broker := s.broker.(pending := s.broker.pending - {i})), i, Woken)
        else s
      case Woken => At(s, i, Send(Revision(s, stream.customer)))
  }

  /** A commit notifies the connection that listens at that moment. The listener is only started
      again after the broker went down. */
  function Step(s: System, c: Choice): System {
    match c
    case Commit(customer) =>
      var s1 := s.(revision := s.revision[customer := Revision(s, customer) + 1]);
      if s.link.Up? then s1.(link := Up(s.link.queue + [customer])) else s1
    case Connect => if s.link.Absent? then s.(link := Up([])) else s
    case BecomeReady => if s.link.Up? then s.(broker := s.broker.(ready := true)) else s
    case LoseLink => if s.link.Up? then s.(link := Broken) else s
    case NoticeDown => s.(broker := SetDown(s.broker), link := Absent)
    case Deliver =>
      if s.link.Up? && s.link.queue != [] then s.(broker := Publish(s.broker, s.link.queue[0]), link := Up(s.link.queue[1..])) else s
    case Open(customer, lastEventId) =>
      var (broker, grant) := Subscribe(s.broker, customer, s.next);
      if grant.Granted? then
        s.(broker := broker, streams := s.streams[s.next := Stream(customer, ReadFirst, lastEventId)], next := s.next + 1)
      else s.(broker := broker)
    case Proceed(i, ok) => if i in s.streams then Advance(s, i, ok) else s
    case Leave(i) => if i in s.streams then CloseStream(s, i) else s
  }

  function Run(s: System, cs: seq<Choice>): System {
    if cs == [] then s else Step(Run(s, cs[..|cs| - 1]), cs[|cs| - 1])
  }

  function Start(): System {
    System(Broker(false, map[], 0, {}, {}, {}, 0, 0, 0, 0), Absent, map[], map[], 0)
  }

  predicate Registered(s: System, i: nat) {
    i in s.streams && i in GroupOf(s.broker, s.streams[i].customer)
  }

  /** What a stream has seen, or is about to send, is current, or news is on its way to it. */
  predicate Informed(s: System, i: nat, seen: Option<nat>)
    requires i in s.streams
  {
    || seen == Some(Revision(s, s.streams[i].customer)) || i in s.broker.pending
    || (s.link.Up? && s.streams[i].customer in s.link.queue)
  }

  predicate StreamRight(s: System, i: nat)
    requires i in s.streams
  {
    match s.streams[i].place
    case ReadFirst => true
    case Woken => true
    case Send(r) => Informed(s, i, Some(r))
    case Waiting => Informed(s, i, s.streams[i].lastSent)
  }

  predicate Below(ids: set<nat>, n: nat) {
    forall i | i in ids :: i < n
  }

  /** Streams and registrations match; a stream that is not registered any more sees its down channel
      closed. */
  predicate Matched(s: System) {
    && (forall c, i | c in s.broker.groups && i in s.broker.groups[c] :: i in s.streams && s.streams[i].customer == c)
    && (forall i | i in s.streams :: i < s.next && (Registered(s, i) || i in s.broker.closed))
    && Below(s.broker.closed, s.next) && Below(s.broker.pending, s.next)
    && (s.broker.ready ==> !s.link.Absent?)
  }

  predicate AllInformed(s: System) {
    s.link.Up? ==> forall i | i in s.streams && Registered(s, i) :: StreamRight(s, i)
  }

  ghost predicate Inv(s: System) {
    Sound(s.broker) && Matched(s) && AllInformed(s)
  }

  lemma CommitKeeps(s: System, customer: nat)
    requires Inv(s)
    ensures Inv(Step(s, Commit(customer)))
  {
    hide Sound;
    var t := Step(s, Commit(customer));
    if s.link.Up? {
      forall i | i in t.streams && Registered(t, i) ensures StreamRight(t, i) {
        assert Registered(s, i) && StreamRight(s, i);
      }
    }
  }

  lemma DeliverKeeps(s: System)
    requires Inv(s)
    ensures Inv(Step(s, Deliver))
  {
    hide Sound;
    var t := Step(s, Deliver);
    if s.link.Up? && s.link.queue != [] {
      PublishKeeps(s.broker, s.link.queue[0]);
      forall i | i in t.streams && Registered(t, i) ensures StreamRight(t, i) {
        assert Registered(s, i) && StreamRight(s, i);
        assert s.link.queue == [s.link.queue[0]] + s.link.queue[1..];
      }
      forall i | i in t.broker.pending ensures i < t.next {
        if i !in s.broker.pending { assert i in s.streams; }
      }
    }
  }

  lemma DownKeeps(s: System)
    requires Inv(s)
    ensures Inv(Step(s, NoticeDown))
  {
    hide Sound;
    SetDownKeeps(s.broker);
    forall i | i in s.streams && Registered(s, i) ensures i in AllOf(s.broker.groups) {}
    forall i | i in AllOf(s.broker.groups) ensures i in s.streams {}
  }

  lemma LinkKeeps(s: System, c: Choice)
    requires Inv(s) && (c.Connect? || c.BecomeReady? || c.LoseLink?)
    ensures Inv(Step(s, c))
  {
    hide SumOfSizes, Grouped;
    var t := Step(s, c);
    if s.link.Absent? { NobodyRegistered(s); }
    if s.link.Up? && t.link.Up? {
      forall i | i in t.streams && Registered(t, i) ensures StreamRight(t, i) {
        assert Registered(s, i) && StreamRight(s, i);
      }
    }
  }

  lemma NobodyRegistered(s: System)
    requires Sound(s.broker) && Matched(s) && s.link.Absent?
    ensures forall i :: !Registered(s, i)
  {
    hide SumOfSizes, Grouped;
  }

  lemma OpenKeeps(s: System, customer: nat, lastEventId: Option<nat>)
    requires Inv(s)
    ensures Inv(Step(s, Open(customer, lastEventId)))
  {
    hide Sound, StreamRight, Matched;
    NextIsUnused(s);
    SubscribeKeeps(s.broker, customer, s.next);
    var t := Step(s, Open(customer, lastEventId));
    OpenMatches(s, customer, lastEventId);
    if t.next > s.next && s.link.Up? {
      forall i | i in t.streams && Registered(t, i) ensures StreamRight(t, i) {
        if i == s.next { FirstRead(t, i); } else { assert Registered(s, i); StillInformed(s, t, i); }
      }
    }
    if t.next == s.next && s.link.Up? {
      forall i | i in t.streams && Registered(t, i) ensures StreamRight(t, i) {
        assert Registered(s, i);
        StillInformed(s, t, i);
      }
    }
  }

  lemma OpenMatches(s: System, customer: nat, lastEventId: Option<nat>)
    requires Matched(s)
    ensures Matched(Step(s, Open(customer, lastEventId)))
  {
    hide Step;
    NextIsUnused(s);
    var t := Step(s, Open(customer, lastEventId));
    var granted := t.next > s.next;
    OpenFields(s, customer, lastEventId);
    forall c, i | c in t.broker.groups && i in t.broker.groups[c] ensures i in t.streams && t.streams[i].customer == c {
      if i != s.next || !granted || c != customer { assert i in GroupOf(s.broker, c); }
    }
    forall i | i in t.streams ensures i < t.next && (Registered(t, i) || i in t.broker.closed) {
      if i in s.streams { assert Registered(s, i) || i in s.broker.closed; }
    }
  }

  lemma OpenFields(s: System, customer: nat, lastEventId: Option<nat>)
    requires s.next !in s.streams
    ensures var t := Step(s, Open(customer, lastEventId));
            var granted := t.next > s.next;
            && t.next == s.next + (if granted then 1 else 0) && t.link == s.link && t.broker.ready == s.broker.ready
            && t.broker.closed == s.broker.closed && t.broker.pending == s.broker.pending
            && t.streams == (if granted then s.streams[s.next := Stream(customer, ReadFirst, lastEventId)] else s.streams)
            && forall c :: GroupOf(t.broker, c) == if granted && c == customer then GroupOf(s.broker, c) + {s.next} else
                GroupOf(s.broker, c)
  {
  }

  lemma NextIsUnused(s: System)
    requires Matched(s)
    ensures Unused(s.broker, s.next) && s.next !in s.streams
  {
    forall c, i | c in s.broker.groups && i in s.broker.groups[c] ensures i < s.next {
      assert i in s.streams;
    }
    assert s.next !in s.streams && s.next !in s.broker.closed && s.next !in s.broker.pending;
  }

  lemma FirstRead(s: System, i: nat)
    requires i in s.streams && s.streams[i].place.ReadFirst?
    ensures StreamRight(s, i)
  {
  }

  /** What a stream knows depends on its own record, the revisions and the news on their way. */
  lemma StillInformed(s: System, t: System, i: nat)
    requires i in s.streams && i in t.streams && t.streams[i] == s.streams[i] && t.revision == s.revision && t.link == s.link
    requires i in s.broker.pending ==> i in t.broker.pending
    ensures StreamRight(s, i) ==> StreamRight(t, i)
  {
  }

  lemma CloseKeeps(s: System, i: nat)
    requires Inv(s) && i in s.streams
    ensures Inv(CloseStream(s, i))
  {
    hide Sound, StreamRight;
    UnsubscribeKeeps(s.broker, s.streams[i].customer, i);
    var t := CloseStream(s, i);
    forall j | j in t.streams ensures Registered(t, j) <==> Registered(s, j) {}
    if s.link.Up? {
      forall j | j in t.streams && Registered(t, j) ensures StreamRight(t, j) { StillInformed(s, t, j); }
    }
  }

  lemma AdvanceKeeps(s: System, i: nat)
    requires Inv(s) && i in s.streams
    ensures Inv(Advance(s, i, true))
  {
    hide Sound, StreamRight, CloseStream;
    if s.streams[i].place.Waiting? && i in s.broker.closed {
      CloseKeeps(s, i);
    } else {
      var t := Advance(s, i, true);
      PendingKeeps(s.broker, i);
      if s.link.Up? {
        forall j | j in t.streams && Registered(t, j) ensures StreamRight(t, j) {
          if j == i { OwnStep(s, i); } else { StillInformed(s, t, j); }
        }
      }
    }
  }

  lemma OwnStep(s: System, i: nat)
    requires i in s.streams && !(s.streams[i].place.Waiting? && i in s.broker.closed)
    requires StreamRight(s, i)
    ensures i in Advance(s, i, true).streams && StreamRight(Advance(s, i, true), i)
  {
  }

  lemma PendingKeeps(b: Broker, i: nat)
    requires Sound(b)
    ensures Sound(b.(pending := b.pending - {i}))
  {
  }

  lemma StepKeeps(s: System, c: Choice)
    requires Inv(s)
    ensures Inv(Step(s, c))
  {
    hide Inv, Advance, CloseStream, Subscribe, Publish, SetDown;
    match c
    case Commit(customer) => CommitKeeps(s, customer);
    case Connect => LinkKeeps(s, c);
    case BecomeReady => LinkKeeps(s, c);
    case LoseLink => LinkKeeps(s, c);
    case NoticeDown => DownKeeps(s);
    case Deliver => DeliverKeeps(s);
    case Open(customer, lastEventId) => OpenKeeps(s, customer, lastEventId);
    case Proceed(i, ok) =>
      if i in s.streams {
        if ok { AdvanceKeeps(s, i); } else { CloseKeeps(s, i); BrokenStream(s, i); }
      }
    case Leave(i) => if i in s.streams { CloseKeeps(s, i); }
  }

  lemma BrokenStream(s: System, i: nat)
    requires i in s.streams
    ensures Advance(s, i, false) == CloseStream(s, i)
  {
  }

  lemma {:induction false} RunKeeps(cs: seq<Choice>)
    ensures Inv(Run(Start(), cs))
  {
    hide Step;
    if cs != [] {
      RunKeeps(cs[..|cs| - 1]);
      StepKeeps(Run(Start(), cs[..|cs| - 1]), cs[|cs| - 1]);
    }
  }

  /** No refresh is lost: while the listener is connected, a stream that waits with no event pending and
      no notification under way has sent the current revision, or its down channel is closed. */
  lemma NoLostRefresh(cs: seq<Choice>, i: nat)
    requires var s := Run(Start(), cs);
             && i in s.streams && s.streams[i].place.Waiting? && i !in s.broker.pending
             && s.link.Up? && s.streams[i].customer !in s.link.queue
    ensures var s := Run(Start(), cs);
            s.streams[i].lastSent == Some(Revision(s, s.streams[i].customer)) || i in s.broker.closed
  {
    hide Run;
    RunKeeps(cs);
    var s := Run(Start(), cs);
    if Registered(s, i) { assert StreamRight(s, i); }
  }

  /** The broker keeps both caps, its total is the sum of the group sizes, and no down channel is
      closed twice, whatever the order of subscribing, leaving and losing the listener. */
  lemma BrokerKeepsItsBooks(cs: seq<Choice>, customer: nat, subscription: nat)
    ensures var b := Run(Start(), cs).broker;
            && b.total == SumOfSizes(b.groups) <= MAX_SUBSCRIBERS && |GroupOf(b, customer)| <= MAX_PER_CUSTOMER
            && b.reclosed == {} && (subscription in GroupOf(b, customer) ==> subscription !in b.closed)
  {
    hide Run;
    RunKeeps(cs);
  }

  /** Each publication reaches every subscription of its customer once, as a new or a coalesced event. */
  lemma PublicationsAreCounted(b: Broker, customer: nat)
    ensures var after := Publish(b, customer);
            && after.enqueued + after.coalesced == b.enqueued + b.coalesced + |GroupOf(b, customer)|
            && GroupOf(b, customer) <= after.pending
  {
    var group := GroupOf(b, customer);
    assert group == (group - b.pending) + (group * b.pending);
  }

  /** A stream is admitted exactly while the broker listens and both caps have room, and is then registered under its
      customer and nowhere else; a refusal is counted. */
  lemma AdmittedWhen(b: Broker, customer: nat, id: nat)
    ensures var (c, grant) := Subscribe(b, customer, id);
            && (grant.Granted? <==> b.ready && b.total < 128 && |GroupOf(b, customer)| < 4)
            && (grant.Unavailable? <==> !b.ready)
            && (grant.Granted? ==> && grant.subscription == id && GroupOf(c, customer) == GroupOf(b, customer) + {id} && c.total == b.total + 1
                                   && forall other | other != customer :: GroupOf(c, other) == GroupOf(b, other))
            && (grant.AtCapacity? ==> c == b.(rejected := b.rejected + 1))
            && (grant.Unavailable? ==> c == b)
  {
  }

  /** Losing the listener ends every stream: each registered one sees its down channel closed, nobody stays registered, and
      an outage is counted once. */
  lemma OutageEndsAll(b: Broker)
    ensures var c := SetDown(b);
            && !c.ready && c.total == 0 && (forall customer :: GroupOf(c, customer) == {})
            && (forall customer :: GroupOf(b, customer) <= c.closed) && b.closed <= c.closed
            && c.disconnects == b.disconnects + (if b.ready then 1 else 0) && SetDown(c).disconnects == c.disconnects
  {
    forall customer ensures GroupOf(b, customer) <= SetDown(b).closed {
      forall s | s in GroupOf(b, customer) ensures s in AllOf(b.groups) { assert customer in b.groups && s in b.groups[customer]; }
    }
  }

  // ---------------------------------------------------------------------------
  // Catching up
  // ---------------------------------------------------------------------------

  function Delivered(s: System, k: nat): System
    decreases k
  {
    if k == 0 then s else Delivered(Step(s, Deliver), k - 1)
  }

  function Proceeds(s: System, i: nat, n: nat): System
    decreases n
  {
    if n == 0 then s else Proceeds(Step(s, Proceed(i, true)), i, n - 1)
  }

  predicate Listening(s: System, i: nat) {
    s.link.Up? && i in s.streams && i !in s.broker.closed
  }

  /** Steps a stream has before it waits with nothing pending, at most. */
  function ToGo(s: System, i: nat): nat
    requires i in s.streams
  {
    (if i in s.broker.pending then 3 else 0)
    + match s.streams[i].place
      case ReadFirst => 2
      case Woken => 2
      case Send(_) => 1
      case Waiting => 0
  }

  predicate Current(s: System, i: nat, customer: nat, revision: nat) {
    && i in s.streams && s.streams[i].customer == customer && s.streams[i].place.Waiting?
    && s.streams[i].lastSent == Some(revision)
  }

  lemma ProceedGoesOn(s: System, i: nat)
    requires Listening(s, i) && ToGo(s, i) > 0
    ensures var t := Step(s, Proceed(i, true));
            && Listening(t, i) && t.link == s.link && t.revision == s.revision && t.streams[i].customer == s.streams[i].customer
            && ToGo(t, i) < ToGo(s, i)
  {
  }

  lemma {:induction false} ReachesCurrent(s: System, i: nat)
    requires Inv(s) && Listening(s, i) && s.link.queue == []
    ensures exists n: nat :: Current(Proceeds(s, i, n), i, s.streams[i].customer, Revision(s, s.streams[i].customer))
    decreases ToGo(s, i)
  {
    hide Sound, Step;
    var customer, revision := s.streams[i].customer, Revision(s, s.streams[i].customer);
    if ToGo(s, i) == 0 {
      assert Registered(s, i) && StreamRight(s, i);
      assert Current(Proceeds(s, i, 0), i, customer, revision);
    } else {
      var t := Step(s, Proceed(i, true));
      ProceedGoesOn(s, i);
      StepKeeps(s, Proceed(i, true));
      ReachesCurrent(t, i);
      var n: nat :| Current(Proceeds(t, i, n), i, customer, revision);
      assert Proceeds(s, i, n + 1) == Proceeds(t, i, n);
    }
  }

  lemma DeliverGoesOn(s: System, i: nat)
    requires Listening(s, i) && s.link.queue != []
    ensures var t := Step(s, Deliver);
            && Listening(t, i) && t.revision == s.revision && t.streams == s.streams && |t.link.queue| == |s.link.queue| - 1
  {
  }

  lemma {:induction false} CatchesUp(s: System, i: nat)
    requires Inv(s) && Listening(s, i)
    ensures exists k: nat, n: nat :: Current(Proceeds(Delivered(s, k), i, n), i, s.streams[i].customer, Revision(s, s.streams[i].customer))
    decreases |s.link.queue|
  {
    hide Inv, Step;
    var customer, revision := s.streams[i].customer, Revision(s, s.streams[i].customer);
    if s.link.queue == [] {
      ReachesCurrent(s, i);
      var n: nat :| Current(Proceeds(s, i, n), i, customer, revision);
      assert Current(Proceeds(Delivered(s, 0), i, n), i, customer, revision);
    } else {
      var t := Step(s, Deliver);
      DeliverGoesOn(s, i);
      StepKeeps(s, Deliver);
      CatchesUp(t, i);
      var k: nat, n: nat :| Current(Proceeds(Delivered(t, k), i, n), i, customer, revision);
      assert Delivered(s, k + 1) == Delivered(t, k);
    }
  }

  /** Every stream catches up, in whatever state its system is: once the notifications under way are delivered and it
      has gone on for a few steps, it waits, and the browser has the current revision. */
  lemma EveryStreamCatchesUp(cs: seq<Choice>, i: nat)
    requires Listening(Run(Start(), cs), i)
    ensures var s := Run(Start(), cs);
            exists k: nat, n: nat :: Current(Proceeds(Delivered(s, k), i, n), i, s.streams[i].customer, Revision(s, s.streams[i].customer))
  {
    hide Run, Inv, Delivered, Proceeds;
    RunKeeps(cs);
    CatchesUp(Run(Start(), cs), i);
  }
}
