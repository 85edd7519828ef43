/** When the line is in the order of publication, and when its head is the oldest message. */
module PublicationOrder {
  import opened Options
  import opened Messages
  import opened QueueModel
  import opened QueueOperations

  ghost predicate InPublicationOrder<C>(log: seq<Happening<C>>, line: seq<Content>) {
    forall i, j :: 0 <= i < j < |line| ==> Rank(log, line[i].id) < Rank(log, line[j].id)
  }

  /** The waiting messages that were delivered before stand in the order of publication. */
  ghost predicate ReturnedInOrder<C>(log: seq<Happening<C>>, line: seq<Content>) {
    forall i, j :: 0 <= i < j < |line| && WasDelivered(log, line[i].id) && WasDelivered(log, line[j].id) ==> Rank(log, line[i].id) < Rank(log, line[j].id)
  }

  ghost predicate HeadIsOldest<C>(log: seq<Happening<C>>, line: seq<Content>) {
    forall j :: 0 < j < |line| ==> Rank(log, line[0].id) < Rank(log, line[j].id)
  }

  /** The message was published before each of the waiting ones that were delivered before. */
  ghost predicate BeforeReturned<C>(log: seq<Happening<C>>, id: string, line: seq<Content>) {
    forall j :: 0 <= j < |line| && WasDelivered(log, line[j].id) ==> Rank(log, id) < Rank(log, line[j].id)
  }

  // ------------------------------------------------------------ exactly when

  lemma OrderIs<C>(log: seq<Happening<C>>, line: seq<Content>)
    requires OrderedLine(log, line)
    ensures InPublicationOrder(log, line) <==> ReturnedInOrder(log, line)
    ensures line != [] ==> (HeadIsOldest(log, line) <==> BeforeReturned(log, line[0].id, line[1..]))
  {
    hide Rank, WasDelivered;
    forall i, j | 0 <= i < j < |line| && !(WasDelivered(log, line[i].id) && WasDelivered(log, line[j].id))
      ensures Rank(log, line[i].id) < Rank(log, line[j].id)
    {
      assert !WasDelivered(log, line[j].id);
    }
    if line != [] {
      assert forall j :: 0 < j < |line| ==> line[j] == line[1..][j - 1];
    }
  }

  /**
   * The line is in the order of publication exactly when the messages in it that were delivered before are;
   * and its head is the oldest exactly when it is older than those.
   */
  lemma LineInOrder<C>(q: Queue<C>)
    requires QueueInv(q)
    ensures var line := Contents(q.pending);
            && (InPublicationOrder(q.log, line) <==> ReturnedInOrder(q.log, line))
            && (line != [] ==> (HeadIsOldest(q.log, line) <==> BeforeReturned(q.log, line[0].id, line[1..])))
  {
    hide Shape, Lives, Balance, OrderedLine, InPublicationOrder, ReturnedInOrder, HeadIsOldest, BeforeReturned;
    OrderIs(q.log, Contents(q.pending));
  }

  /** What putting a message back makes of the line and of the history. */
  lemma BackInLine<C>(q: Queue<C>, c: C, id: string, now: int)
    requires QueueInv(q) && Holds(q, c, id) && q.settings.redeliver
    ensures var q' := Abandon(q, c, id, now);
            && q.inFlight[id].content.id == id && q'.log == q.log + [Redelivered(id, c)]
            && Contents(q'.pending) == [q.inFlight[id].content] + Contents(q.pending)
  {
    hide QueueInv;
    FlyingId(q, id);
  }

  /** Who is older than the ones delivered before does not change by what neither publishes nor delivers. */
  lemma SameAges<C>(log: seq<Happening<C>>, e: Happening<C>, id: string, line: seq<Content>)
    requires !e.Published? && !e.Delivers()
    ensures BeforeReturned(log + [e], id, line) <==> BeforeReturned(log, id, line)
  {
    hide Rank, WasDelivered;
    forall other ensures WasDelivered(log + [e], other) == WasDelivered(log, other) && Rank(log + [e], other) == Rank(log, other) {
      DeliveredAfter(log, e, other);
    }
  }

  /**
   * A message that is put back is the oldest of the line exactly when it was published before the waiting
   * ones that were delivered before; in particular when the line was empty, or its head never delivered.
   */
  lemma PutBackIsOldest<C>(q: Queue<C>, c: C, id: string, now: int)
    requires QueueInv(q) && Holds(q, c, id) && q.settings.redeliver
    ensures var q', line := Abandon(q, c, id, now), Contents(q.pending);
            && Contents(q'.pending) == [q.inFlight[id].content] + line
            && (HeadIsOldest(q'.log, Contents(q'.pending)) <==> BeforeReturned(q.log, id, line))
            && (line == [] || !WasDelivered(q.log, line[0].id) ==> BeforeReturned(q.log, id, line))
  {
    hide QueueInv, Abandon, Contents, HeadIsOldest, BeforeReturned, WasDelivered;
    var q', line := Abandon(q, c, id, now), Contents(q.pending);
    BackInLine(q, c, id, now);
    AbandonKeeps(q, c, id, now);
    LineInOrder(q');
    assert ([q.inFlight[id].content] + line)[1..] == line;
    SameAges(q.log, Redelivered(id, c), id, line);
    HeadNeverDelivered(q, id);
  }

  lemma HeadNeverDelivered<C>(q: Queue<C>, id: string)
    requires QueueInv(q)
    ensures var line := Contents(q.pending); line == [] || !WasDelivered(q.log, line[0].id) ==> BeforeReturned(q.log, id, line)
  {
    hide Shape, Lives, Balance, Rank, WasDelivered;
  }

  /** As long as nothing was put back, the line is in the order of publication. */
  lemma NonePutBackInOrder<C>(q: Queue<C>)
    requires QueueInv(q) && TallyOf(q.log).redelivered == 0
    ensures InPublicationOrder(q.log, Contents(q.pending))
  {
    hide QueueInv, Rank, WasDelivered, InPublicationOrder;
    var line := Contents(q.pending);
    forall j | 0 <= j < |line| ensures !WasDelivered(q.log, line[j].id) {
      WaitingLife(q, j);
      NonePutBack(q.log, line[j].id);
      DeliveredOnce(q.log, line[j].id);
      DeliveredWasBorn(q.log, line[j].id);
    }
    LineInOrder(q);
  }

  lemma WaitingLife<C>(q: Queue<C>, j: nat)
    requires QueueInv(q) && j < |q.pending|
    ensures LifeOf(q.log, q.pending[j].content.id) == Some(Waiting(q.pending[j].content))
  {
    hide Balance, Ordered;
    LiveWaiting(q, j);
  }

  // ------------------------------------------------------------ a run after which it is not

  ghost function Waits<C>(content: Content, now: int): Entry<C> {
    Entry(content, 0, now, None, 0, None, None)
  }

  ghost function Delivery<C>(q: Queue<C>, content: Content, c: C): Happening<C> {
    Pushed(BrokerMessage(q.name, content, None), c)
  }

  ghost predicate Serves(s: Settings) {
    s.redeliver && !s.paused && s.retention >= 0
  }

  lemma NobodyFree<C>(q: Queue<C>, now: int)
    requires |q.consumers| <= 1 && q.emptySince == None && (q.inFlight != map[] || q.pending != [])
    requires q.pending != [] ==> DeadReason(q.pending[0], q.settings, now) == None
    ensures Dispatch(q, {}, now) == q
  {
    assert FirstFree(q.consumers, q.next, {}, 0) == None;
  }

  /** The one message that waits goes to the consumer whose turn it is. */
  lemma OneServed<C>(q: Queue<C>, free: set<C>, now: int, content: Content)
    requires Serves(q.settings) && q.pending == [Waits(content, now)] && q.next < |q.consumers| && q.consumers[q.next] in free
    ensures var c := q.consumers[q.next];
            Dispatch(q, free, now) == PushHead(q, c).(next := (q.next + 1) % |q.consumers|)
  {
    hide Track, Dispatch;
    var c := q.consumers[q.next];
    assert FirstFree(q.consumers, q.next, free, 0) == Some(q.next);
    assert DropDead(q, now) == q;
    DispatchStep(q, free, now);
    var q' := PushHead(q, c).(next := (q.next + 1) % |q.consumers|);
    assert q'.pending == [];
    DispatchStep(q', free - {c}, now);
    assert Track(q', now) == q' by { Occupied(q', content.id, now); }
  }

  lemma Occupied<C>(q: Queue<C>, id: string, now: int)
    requires id in q.inFlight
    ensures Track(q, now) == q
  {
  }

  /** Two consumers are bound to an empty queue. */
  lemma TwoBound<C>(name: string, s: Settings, c: C, d: C, now: int)
    requires c != d && Serves(s)
    ensures Dispatch(Join(Dispatch(Join(NewQueue<C>(name, s), c), {c}, now), d), {c, d}, now)
            == Queue(name, s, [], map[], [c, d], 0, Some(now), false, [])
  {
    assert Dispatch(Join(NewQueue<C>(name, s), c), {c}, now) == Queue(name, s, [], map[], [c], 0, Some(now), false, []);
  }

  ghost function InHandsOf<C>(content: Content, c: C, now: int): Entry<C> {
    Waits(content, now).(owner := Some(c))
  }

  /** Each message that is published goes to the next of the two. */
  lemma BothServed<C>(name: string, s: Settings, c: C, d: C, a: Content, b: Content, now: int)
    requires c != d && a.id != b.id && Serves(s)
    ensures var idle := Queue(name, s, [], map[], [c, d], 0, Some(now), false, []);
            Dispatch(Publish(Dispatch(Publish(idle, a, 0, None, now), {c, d}, now), b, 0, None, now), {d}, now)
            == Queue(name, s, [], map[a.id := InHandsOf(a, c, now), b.id := InHandsOf(b, d, now)], [c, d], 0, None, false,
                     [Published(a), Delivery(idle, a, c), Published(b), Delivery(idle, b, d)])
  {
    hide Dispatch, Serves;
    var idle := Queue(name, s, [], map[], [c, d], 0, Some(now), false, []);
    var first := Publish(idle, a, 0, None, now);
    OneServed(first, {c, d}, now, a);
    var given := Queue(name, s, [], map[a.id := InHandsOf(a, c, now)], [c, d], 1, None, false, [Published(a), Delivery(idle, a, c)]);
    assert Dispatch(first, {c, d}, now) == given;
    var second := Publish(given, b, 0, None, now);
    OneServed(second, {d}, now, b);
  }

  lemma FirstPutBack<C>(held: Queue<C>, c: C, d: C, a: Content, b: Content, now: int)
    requires c != d && a.id != b.id && Serves(held.settings) && held.pending == [] && held.consumers == [c, d] && held.emptySince == None
    requires held.inFlight == map[a.id := InHandsOf(a, c, now), b.id := InHandsOf(b, d, now)]
    ensures Holds(Part(held, c), c, a.id)
    ensures Dispatch(Abandon(Part(held, c), c, a.id, now), {}, now)
            == held.(pending := [Waits(a, now)], inFlight := map[b.id := InHandsOf(b, d, now)], consumers := [d], next := 0, log := held.log + [Redelivered(a.id, c)])
  {
    assert Part(held, c).consumers == [d];
    var back := Abandon(Part(held, c), c, a.id, now);
    assert back.pending == [Waits(a, now)];
    assert back.inFlight == map[b.id := InHandsOf(b, d, now)];
    NobodyFree(back, now);
  }

  lemma SecondPutBack<C>(once: Queue<C>, d: C, a: Content, b: Content, now: int)
    requires Serves(once.settings) && once.pending == [Waits(a, now)] && once.consumers == [d] && once.emptySince == None
    requires once.inFlight == map[b.id := InHandsOf(b, d, now)]
    ensures Holds(Part(once, d), d, b.id)
    ensures Dispatch(Abandon(Part(once, d), d, b.id, now), {}, now)
            == once.(pending := [Waits(b, now), Waits(a, now)], inFlight := map[], consumers := [], next := 0, log := once.log + [Redelivered(b.id, d)])
  {
    assert Part(once, d).consumers == [];
    var back := Abandon(Part(once, d), d, b.id, now);
    assert back.pending == [Waits(b, now), Waits(a, now)];
    assert back.inFlight == map[];
    NobodyFree(back, now);
  }

  lemma RankAfter<C>(log: seq<Happening<C>>, e: Happening<C>, id: string)
    ensures Rank(log + [e], id) == if e.Published? && e.Id() == id then Births(log) else Rank(log, id)
    ensures Births(log + [e]) == Births(log) + if e.Published? then 1 else 0
  {
    DeliveredAfter(log, e, id);
    TallyAfter(log, e);
  }

  lemma RanksThen<C>(a: Content, b: Content, e0: Happening<C>, e1: Happening<C>, e2: Happening<C>, e3: Happening<C>)
    requires a.id != b.id && !e0.Published? && !e1.Published? && !e2.Published? && !e3.Published?
    ensures var log := [Published(a), e0, Published(b), e1, e2, e3]; Rank(log, a.id) == 0 && Rank(log, b.id) == 1
  {
    hide Rank, Births;
    assert Births<C>([]) == 0 by { NoBirths<C>(); }
    var l1: seq<Happening<C>> := [Published(a)];
    assert [] + [Published(a)] == l1;
    RankAfter<C>([], Published(a), a.id);
    RankAfter(l1, e0, a.id);
    RankAfter(l1 + [e0], Published(b), a.id);
    RankAfter(l1 + [e0], Published(b), b.id);
    forall id ensures Rank(l1 + [e0] + [Published(b)] + [e1] + [e2] + [e3], id) == Rank(l1 + [e0] + [Published(b)], id) {
      RankAfter(l1 + [e0] + [Published(b)], e1, id);
      RankAfter(l1 + [e0] + [Published(b)] + [e1], e2, id);
      RankAfter(l1 + [e0] + [Published(b)] + [e1] + [e2], e3, id);
    }
    assert [Published(a), e0, Published(b), e1, e2, e3] == l1 + [e0] + [Published(b)] + [e1] + [e2] + [e3];
  }

  lemma NoBirths<C>()
    ensures Births<C>([]) == 0
  {
  }

  /**
   * Two consumers bind, two messages are published and pushed to one each, and the consumers go, the first
   * one first: the messages stand in the line the other way round, and the head is not the oldest.
   */
  lemma PutBackTheOtherWayRound<C>(name: string, s: Settings, c: C, d: C, a: Content, b: Content, now: int)
    returns (idle: Queue<C>, held: Queue<C>, once: Queue<C>, twice: Queue<C>)
    requires c != d && a.id != b.id && Serves(s)
    ensures idle == Dispatch(Join(Dispatch(Join(NewQueue<C>(name, s), c), {c}, now), d), {c, d}, now)
    ensures held == Dispatch(Publish(Dispatch(Publish(idle, a, 0, None, now), {c, d}, now), b, 0, None, now), {d}, now)
    ensures Holds(Part(held, c), c, a.id) && once == Dispatch(Abandon(Part(held, c), c, a.id, now), {}, now)
    ensures Holds(Part(once, d), d, b.id) && twice == Dispatch(Abandon(Part(once, d), d, b.id, now), {}, now)
    ensures Contents(twice.pending) == [b, a] && !HeadIsOldest(twice.log, Contents(twice.pending))
  {
    hide Dispatch, Join, Part, Abandon, Publish, Rank, Serves;
    TwoBound(name, s, c, d, now);
    idle := Queue(name, s, [], map[], [c, d], 0, Some(now), false, []);
    BothServed(name, s, c, d, a, b, now);
    held := Dispatch(Publish(Dispatch(Publish(idle, a, 0, None, now), {c, d}, now), b, 0, None, now), {d}, now);
    FirstPutBack(held, c, d, a, b, now);
    once := Dispatch(Abandon(Part(held, c), c, a.id, now), {}, now);
    SecondPutBack(once, d, a, b, now);
    twice := Dispatch(Abandon(Part(once, d), d, b.id, now), {}, now);
    var e0, e1, e2, e3 := Delivery(idle, a, c), Delivery(idle, b, d), Redelivered(a.id, c), Redelivered(b.id, d);
    assert twice.log == [Published(a), e0, Published(b), e1, e2, e3];
    RanksThen(a, b, e0, e1, e2, e3);
    var line := Contents(twice.pending);
    assert line == [b, a];
    assert Rank(twice.log, line[1].id) < Rank(twice.log, line[0].id);
  }
}
