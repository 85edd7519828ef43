/** One queue as a value, with the history of everything that happened to its messages. */
module QueueModel {
  import opened Options
  import opened Messages

  // What each operation makes of a queue is told under its lock. The class MessageQueue is proved against
  // these functions, and the interleaved broker takes its steps by them.

  datatype Queue<C> = Queue(
    name: string, settings: Settings,
    pending: seq<Entry<C>>, inFlight: map<string, Entry<C>>,
    consumers: seq<C>, next: nat,
    emptySince: Option<int>, removed: bool,
    log: seq<Happening<C>>)

  ghost function Without<T>(s: seq<T>, i: nat): seq<T>
    requires i < |s|
  {
    s[..i] + s[i + 1..]
  }

  // ------------------------------------------------------------ finding a message

  ghost function Contents<C>(entries: seq<Entry<C>>): seq<Content> {
    seq(|entries|, i requires 0 <= i < |entries| => entries[i].content)
  }

  /** Where a message waits; past the end when it does not. */
  ghost function IndexOf(line: seq<Content>, id: string): (k: nat)
    ensures k <= |line|
    ensures k < |line| ==> line[k].id == id
    ensures forall j :: 0 <= j < k ==> line[j].id != id
  {
    if line == [] || line[0].id == id then 0 else 1 + IndexOf(line[1..], id)
  }

  ghost predicate Distinct(line: seq<Content>) {
    forall i, j :: 0 <= i < j < |line| ==> line[i].id != line[j].id
  }

  /** Where a message is: waiting, in flight, or not in the queue. */
  datatype Place<C> = Nowhere | InLine(content: Content) | InFlight(content: Content, owner: Option<C>, response: Option<string>)

  ghost function PlaceIn<C>(line: seq<Content>, inFlight: map<string, Entry<C>>, id: string): Place<C> {
    if id in inFlight then InFlight(inFlight[id].content, inFlight[id].owner, inFlight[id].response)
    else if IndexOf(line, id) < |line| then InLine(line[IndexOf(line, id)])
    else Nowhere
  }

  ghost function PlaceOf<C>(q: Queue<C>, id: string): Place<C> {
    PlaceIn(Contents(q.pending), q.inFlight, id)
  }

  /** Where a message has to be at each point of its life. */
  ghost predicate Agrees<C>(life: Life<C>, place: Place<C>) {
    match life
    case Unborn => place == Nowhere
    case Over(_) => place == Nowhere
    case Waiting(content) => place == InLine(content)
    case Held(content, holder) => place == InFlight(content, Some(holder), None)
    case Out(content, answer) => place == InFlight(content, None, answer)
  }

  // ------------------------------------------------------------ what every operation keeps

  ghost predicate Lived<C>(q: Queue<C>, id: string) {
    LifeOf(q.log, id).Some? && Agrees(LifeOf(q.log, id).value, PlaceOf(q, id))
  }

  /** Every message is where its history says, and every history makes sense. */
  ghost predicate Lives<C>(q: Queue<C>) {
    forall id :: Lived(q, id)
  }

  ghost predicate NoRepeats<T>(s: seq<T>) {
    forall i, j :: 0 <= i < j < |s| ==> s[i] != s[j]
  }

  ghost predicate Shape<C>(q: Queue<C>) {
    && Distinct(Contents(q.pending))
    && (forall k :: 0 <= k < |q.pending| ==> q.pending[k].owner == None && q.pending[k].response == None && q.pending[k].content.id !in q.inFlight)
    && (forall id :: id in q.inFlight ==> q.inFlight[id].content.id == id && (q.inFlight[id].owner == None || q.inFlight[id].response == None))
    && (q.emptySince.Some? ==> q.pending == [] && q.inFlight == map[])
    && (q.removed ==> q.emptySince.Some? && q.consumers == [])
    && NoRepeats(q.consumers)
  }

  /** Nothing is lost: what came in is what waits, and what left the line; likewise in flight. */
  ghost predicate Conserved(t: Tally, waiting: nat, flying: nat) {
    && t.published + t.redelivered == waiting + t.delivered + t.expired + t.notConsumed + t.purged + t.moved
    && t.pushed + t.takenRpc + t.moved == flying + t.settled + t.sent + t.collected + t.unconfirmed + t.dropped
  }

  ghost predicate Balance<C>(q: Queue<C>) {
    Conserved(TallyOf(q.log), |q.pending|, |q.inFlight|)
  }

  /**
   * The line is a block of messages delivered before, then the ones never delivered in the order they
   * were published in; and whatever was ever delivered was published before each of these.
   */
  ghost predicate OrderedLine<C>(log: seq<Happening<C>>, line: seq<Content>) {
    && (forall i, j :: 0 <= i < j < |line| && !WasDelivered(log, line[i].id) ==> !WasDelivered(log, line[j].id) && Rank(log, line[i].id) < Rank(log, line[j].id))
    && (forall k, id :: 0 <= k < |line| && !WasDelivered(log, line[k].id) && WasDelivered(log, id) ==> Rank(log, id) < Rank(log, line[k].id))
  }

  ghost predicate Ordered<C>(q: Queue<C>) {
    InOrder(q.log) && OrderedLine(q.log, Contents(q.pending))
  }

  ghost predicate QueueInv<C>(q: Queue<C>) {
    Shape(q) && Lives(q) && Balance(q) && Ordered(q)
  }

  ghost function NewQueue<C>(name: string, settings: Settings): Queue<C> {
    Queue(name, settings, [], map[], [], 0, None, false, [])
  }

  lemma NewQueueInv<C>(name: string, settings: Settings)
    ensures QueueInv(NewQueue<C>(name, settings))
  {
    var q := NewQueue<C>(name, settings);
    forall id ensures Lived(q, id) {
    }
  }

  // ------------------------------------------------------------ the six ways a message moves

  /** It comes in. */
  ghost function Enter<C>(q: Queue<C>, e: Entry<C>): Queue<C> {
    q.(pending := q.pending + [e], emptySince := None, log := q.log + [Published(e.content)])
  }

  /** It leaves the line for good. */
  ghost function LeaveLine<C>(q: Queue<C>, i: nat, e: Happening<C>): Queue<C>
    requires i < |q.pending|
  {
    q.(pending := Without(q.pending, i), log := q.log + [e])
  }

  /** It leaves the line and is in flight. */
  ghost function TakeOff<C>(q: Queue<C>, i: nat, entry: Entry<C>, e: Happening<C>): Queue<C>
    requires i < |q.pending|
  {
    q.(pending := Without(q.pending, i), inFlight := q.inFlight[entry.content.id := entry], log := q.log + [e])
  }

  /** It stays in flight, changed. */
  ghost function Alter<C>(q: Queue<C>, entry: Entry<C>, e: Happening<C>): Queue<C> {
    q.(inFlight := q.inFlight[entry.content.id := entry], log := q.log + [e])
  }

  /** It is no longer in flight, and gone. */
  ghost function Land<C>(q: Queue<C>, id: string, e: Happening<C>): Queue<C> {
    q.(inFlight := q.inFlight - {id}, log := q.log + [e])
  }

  /** It is no longer in flight, and first in line again. */
  ghost function PutBack<C>(q: Queue<C>, entry: Entry<C>, e: Happening<C>): Queue<C> {
    q.(inFlight := q.inFlight - {entry.content.id}, pending := [entry] + q.pending, emptySince := None, log := q.log + [e])
  }

  // ---- places

  lemma IndexIsUnique(line: seq<Content>, i: nat)
    requires Distinct(line) && i < |line|
    ensures IndexOf(line, line[i].id) == i
  {
    var k := IndexOf(line, line[i].id);
    if k < i {
      assert false;
    }
  }

  lemma WithoutAt<T>(s: seq<T>, i: nat)
    requires i < |s|
    ensures |Without(s, i)| == |s| - 1 && forall j :: 0 <= j < |s| - 1 ==> Without(s, i)[j] == s[if j < i then j else j + 1]
  {
  }

  lemma DistinctWithout(line: seq<Content>, i: nat)
    requires Distinct(line) && i < |line|
    ensures Distinct(Without(line, i))
  {
    WithoutAt(line, i);
  }

  lemma PlaceWithout(line: seq<Content>, i: nat, id: string)
    requires Distinct(line) && i < |line|
    ensures id == line[i].id ==> IndexOf(Without(line, i), id) == |line| - 1
    ensures id != line[i].id ==>
              var k, k' := IndexOf(line, id), IndexOf(Without(line, i), id);
              (k == |line| <==> k' == |line| - 1) && (k < |line| ==> Without(line, i)[k'] == line[k])
  {
    hide IndexOf;
    WithoutAt(line, i);
    DistinctWithout(line, i);
    var rest := Without(line, i);
    var k, k' := IndexOf(line, id), IndexOf(rest, id);
    if id != line[i].id && k < |line| {
      var j := if k < i then k else k - 1;
      assert rest[j] == line[k];
      IndexIsUnique(rest, j);
    }
    if k' < |rest| {
      IndexIsUnique(line, if k' < i then k' else k' + 1);
    }
  }

  lemma PlaceAppended(line: seq<Content>, c: Content, id: string)
    ensures IndexOf(line + [c], id) == if IndexOf(line, id) < |line| then IndexOf(line, id) else if c.id == id then |line| else |line| + 1
  {
    var whole, k, k' := line + [c], IndexOf(line, id), IndexOf(line + [c], id);
    assert forall j :: 0 <= j < |line| ==> whole[j] == line[j];
    assert whole[|line|] == c;
  }

  lemma PlacePrepended(line: seq<Content>, c: Content, id: string)
    ensures IndexOf([c] + line, id) == if c.id == id then 0 else 1 + IndexOf(line, id)
  {
    assert ([c] + line)[1..] == line;
  }

  lemma ContentsWithout<C>(entries: seq<Entry<C>>, i: nat)
    requires i < |entries|
    ensures Contents(Without(entries, i)) == Without(Contents(entries), i)
  {
  }

  lemma LiveWaiting<C>(q: Queue<C>, i: nat)
    requires Shape(q) && Lives(q) && i < |q.pending|
    ensures LifeOf(q.log, q.pending[i].content.id) == Some(Waiting(q.pending[i].content))
    ensures PlaceOf(q, q.pending[i].content.id) == InLine(q.pending[i].content)
  {
    var id := q.pending[i].content.id;
    IndexIsUnique(Contents(q.pending), i);
    assert Lived(q, id);
  }

  lemma LiveFlying<C>(q: Queue<C>, id: string)
    requires Shape(q) && Lives(q) && id in q.inFlight
    ensures var e := q.inFlight[id];
            LifeOf(q.log, id) == Some(match e.owner case None => Out(e.content, e.response) case Some(c) => Held(e.content, c))
  {
    assert Lived(q, id);
  }

  /** One thing happened, to one message: the other lives go on as they were. */
  lemma OneHappening<C>(q: Queue<C>, q': Queue<C>, e: Happening<C>)
    requires Lives(q) && q'.log == q.log + [e]
    requires forall id :: id != e.Id() ==> PlaceOf(q', id) == PlaceOf(q, id)
    requires LifeOf(q.log, e.Id()).Some?
    requires var next := Advance(LifeOf(q.log, e.Id()).value, e); next.Some? && Agrees(next.value, PlaceOf(q', e.Id()))
    ensures Lives(q')
  {
    hide PlaceOf, Advance, Agrees;
    forall id ensures Lived(q', id) {
      LifeAfter(q.log, e, id);
      assert Lived(q, id);
    }
  }

  // ---- order

  lemma OrderAfter<C>(log: seq<Happening<C>>, line: seq<Content>, e: Happening<C>)
    requires OrderedLine(log, line) && InOrder(log) && !e.Delivers() && !e.Published?
    ensures OrderedLine(log + [e], line) && InOrder(log + [e])
  {
    forall id ensures WasDelivered(log + [e], id) == WasDelivered(log, id) && Rank(log + [e], id) == Rank(log, id) {
      DeliveredAfter(log, e, id);
    }
    DeliveredAfter(log, e, "");
  }

  lemma OrderWithout<C>(log: seq<Happening<C>>, line: seq<Content>, i: nat)
    requires OrderedLine(log, line) && i < |line|
    ensures OrderedLine(log, Without(line, i))
  {
    var rest := Without(line, i);
    assert forall j :: 0 <= j < |rest| ==> rest[j] == line[if j < i then j else j + 1];
  }

  lemma OrderPutBack<C>(log: seq<Happening<C>>, line: seq<Content>, c: Content)
    requires OrderedLine(log, line) && WasDelivered(log, c.id)
    ensures OrderedLine(log, [c] + line)
  {
    var whole := [c] + line;
    assert forall j :: 1 <= j < |whole| ==> whole[j] == line[j - 1];
  }

  lemma OrderPublished<C>(log: seq<Happening<C>>, line: seq<Content>, c: Content)
    requires OrderedLine(log, line) && InOrder(log)
    requires forall id :: LifeOf(log, id).Some?
    requires forall k :: 0 <= k < |line| ==> LifeOf(log, line[k].id) == Some(Waiting(line[k]))
    requires LifeOf(log, c.id) == Some(Unborn)
    ensures OrderedLine(log + [Published(c)], line + [c]) && InOrder(log + [Published(c)])
  {
    var log', whole := log + [Published(c)], line + [c];
    assert forall j :: 0 <= j < |line| ==> whole[j] == line[j];
    assert whole[|line|] == c;
    forall id
      ensures WasDelivered(log', id) == WasDelivered(log, id)
      ensures Rank(log', id) == if id == c.id then Births(log) else Rank(log, id)
      ensures WasDelivered(log, id) ==> id != c.id && Rank(log, id) < Births(log)
    {
      DeliveredAfter(log, Published(c), id);
      assert LifeOf(log, id).Some?;
      DeliveredWasBorn(log, id);
      if WasDelivered(log, id) {
        RankIsPast(log, id);
      }
    }
    forall k | 0 <= k < |line| ensures line[k].id != c.id && Rank(log, line[k].id) < Births(log) {
      RankIsPast(log, line[k].id);
    }
    DeliveredAfter(log, Published(c), "");
    var first := FirstDeliveries(log);
    forall i | 0 <= i < |first| ensures first[i] != c.id {
      DeliveredIsListed(log, first[i]);
    }
  }

  lemma OrderDelivered<C>(log: seq<Happening<C>>, line: seq<Content>, e: Happening<C>)
    requires OrderedLine(log, line) && InOrder(log) && line != [] && e.Delivers() && e.Id() == line[0].id
    requires Distinct(line)
    ensures OrderedLine(log + [e], line[1..]) && InOrder(log + [e])
  {
    var log', id0 := log + [e], line[0].id;
    forall id ensures WasDelivered(log', id) == (WasDelivered(log, id) || id == id0) && Rank(log', id) == Rank(log, id) {
      DeliveredAfter(log, e, id);
    }
    DeliveredAfter(log, e, "");
    var first := FirstDeliveries(log);
    if !WasDelivered(log, id0) {
      forall i | 0 <= i < |first| ensures Rank(log, first[i]) < Rank(log, id0) {
        DeliveredIsListed(log, first[i]);
      }
    }
  }

  // ---- counting

  /** A life moves the balance from one side to the other. */
  ghost function LineShare<C>(life: Life<C>): nat { if life.Waiting? then 1 else 0 }

  ghost function FlightShare<C>(life: Life<C>): nat { if life.Held? || life.Out? then 1 else 0 }

  lemma BalanceAfter<C>(log: seq<Happening<C>>, waiting: nat, flying: nat, life: Life<C>, e: Happening<C>)
    requires Conserved(TallyOf(log), waiting, flying) && Advance(life, e).Some?
    requires waiting + LineShare(Advance(life, e).value) >= LineShare(life)
    requires flying + FlightShare(Advance(life, e).value) >= FlightShare(life)
    ensures Conserved(TallyOf(log + [e]),
                      waiting + LineShare(Advance(life, e).value) - LineShare(life),
                      flying + FlightShare(Advance(life, e).value) - FlightShare(life))
  {
    hide TallyOf;
    TallyAfter(log, e);
  }

  // ---- each move keeps the invariant

  lemma EnterKeeps<C>(q: Queue<C>, e: Entry<C>)
    requires QueueInv(q) && !q.removed && LifeOf(q.log, e.content.id) == Some(Unborn) && e.owner == None && e.response == None
    ensures QueueInv(Enter(q, e))
  {
    hide LifeOf, TallyOf, Rank, WasDelivered, InOrder, OrderedLine, IndexOf;
    var q', c := Enter(q, e), e.content;
    var line := Contents(q.pending);
    assert Contents(q'.pending) == line + [c];
    assert Lived(q, c.id);
    assert Lives(q') by {
      forall id ensures PlaceOf(q', id) == if id == c.id then InLine(c) else PlaceOf(q, id) {
        PlaceAppended(line, c, id);
      }
      OneHappening(q, q', Published(c));
    }
    assert Shape(q') by {
      forall i | 0 <= i < |line| ensures line[i].id != c.id {
        LiveWaiting(q, i);
      }
    }
    assert Balance(q') by {
      TallyAfter(q.log, Published(c));
    }
    assert Ordered(q') by {
      forall id ensures LifeOf(q.log, id).Some? {
        assert Lived(q, id);
      }
      forall k | 0 <= k < |line| ensures LifeOf(q.log, line[k].id) == Some(Waiting(line[k])) {
        LiveWaiting(q, k);
      }
      OrderPublished(q.log, line, c);
    }
  }

  lemma LeaveLineKeeps<C>(q: Queue<C>, i: nat, e: Happening<C>)
    requires QueueInv(q) && i < |q.pending| && e.Id() == q.pending[i].content.id
    requires var next := Advance(Waiting(q.pending[i].content), e); next.Some? && next.value.Over?
    requires e.Delivers() ==> i == 0
    ensures QueueInv(LeaveLine(q, i, e))
  {
    hide LifeOf, TallyOf, Rank, WasDelivered, InOrder, OrderedLine, IndexOf;
    var q', line := LeaveLine(q, i, e), Contents(q.pending);
    ContentsWithout(q.pending, i);
    LiveWaiting(q, i);
    assert Lives(q') by {
      forall id ensures PlaceOf(q', id) == if id == line[i].id then Nowhere else PlaceOf(q, id) {
        PlaceWithout(line, i, id);
      }
      OneHappening(q, q', e);
    }
    ShapeLeaveLine(q, i, e);
    BalanceAfter(q.log, |q.pending|, |q.inFlight|, Waiting(line[i]), e);
    OrderLeft(q.log, line, i, e);
  }

  lemma ShapeLeaveLine<C>(q: Queue<C>, i: nat, e: Happening<C>)
    requires Shape(q) && i < |q.pending|
    ensures Shape(LeaveLine(q, i, e))
  {
    ContentsWithout(q.pending, i);
    DistinctWithout(Contents(q.pending), i);
    assert forall k :: 0 <= k < |q.pending| - 1 ==> Without(q.pending, i)[k] == q.pending[if k < i then k else k + 1];
  }

  lemma OrderLeft<C>(log: seq<Happening<C>>, line: seq<Content>, i: nat, e: Happening<C>)
    requires OrderedLine(log, line) && InOrder(log) && Distinct(line) && i < |line| && e.Id() == line[i].id
    requires !e.Published? && (e.Delivers() ==> i == 0)
    ensures OrderedLine(log + [e], Without(line, i)) && InOrder(log + [e])
  {
    hide OrderedLine, InOrder, Distinct;
    if e.Delivers() {
      OrderDelivered(log, line, e);
      assert Without(line, 0) == line[1..];
    } else {
      OrderAfter(log, line, e);
      OrderWithout(log + [e], line, i);
    }
  }

  lemma ShapeTakeOff<C>(q: Queue<C>, i: nat, entry: Entry<C>, e: Happening<C>)
    requires Shape(q) && i < |q.pending| && entry.content == q.pending[i].content && (entry.owner == None || entry.response == None)
    ensures Shape(TakeOff(q, i, entry, e))
  {
    var q', line := TakeOff(q, i, entry, e), Contents(q.pending);
    ContentsWithout(q.pending, i);
    DistinctWithout(line, i);
    forall k | 0 <= k < |q'.pending| ensures q'.pending[k].content.id != entry.content.id {
      assert q'.pending[k] == q.pending[if k < i then k else k + 1];
      assert line[i].id != line[if k < i then k else k + 1].id;
    }
  }

  lemma TakeOffKeeps<C>(q: Queue<C>, i: nat, entry: Entry<C>, e: Happening<C>)
    requires QueueInv(q) && i < |q.pending| && e.Id() == q.pending[i].content.id && entry.content == q.pending[i].content
    requires var next := Advance(Waiting(entry.content), e); next.Some? && Agrees(next.value, InFlight(entry.content, entry.owner, entry.response))
    requires e.Delivers() ==> i == 0
    ensures QueueInv(TakeOff(q, i, entry, e))
  {
    hide LifeOf, TallyOf, Rank, WasDelivered, InOrder, OrderedLine, IndexOf;
    var q', line := TakeOff(q, i, entry, e), Contents(q.pending);
    ContentsWithout(q.pending, i);
    LiveWaiting(q, i);
    ShapeTakeOff(q, i, entry, e);
    assert Lives(q') by {
      forall id ensures PlaceOf(q', id) == if id == line[i].id then InFlight(entry.content, entry.owner, entry.response) else PlaceOf(q, id) {
        PlaceWithout(line, i, id);
      }
      OneHappening(q, q', e);
    }
    BalanceAfter(q.log, |q.pending|, |q.inFlight|, Waiting(line[i]), e);
    OrderLeft(q.log, line, i, e);
  }

  lemma AlterKeeps<C>(q: Queue<C>, entry: Entry<C>, e: Happening<C>)
    requires QueueInv(q) && entry.content.id in q.inFlight && e.Id() == entry.content.id && entry.content == q.inFlight[e.Id()].content
    requires entry.owner == None || entry.response == None
    requires LifeOf(q.log, e.Id()).Some?
    requires var next := Advance(LifeOf(q.log, e.Id()).value, e); next.Some? && Agrees(next.value, InFlight(entry.content, entry.owner, entry.response))
    ensures QueueInv(Alter(q, entry, e))
  {
    hide Shape, Lives, LifeOf, TallyOf, Rank, WasDelivered, InOrder, OrderedLine, IndexOf;
    var q' := Alter(q, entry, e);
    LiveFlying(q, entry.content.id);
    ShapeAlter(q, entry, e);
    AlteredLives(q, entry, e);
    assert q'.inFlight.Keys == q.inFlight.Keys;
    assert |q'.inFlight.Keys| == |q.inFlight.Keys|;
    BalanceAfter(q.log, |q.pending|, |q.inFlight|, LifeOf(q.log, e.Id()).value, e);
    OrderAfter(q.log, Contents(q.pending), e);
  }

  lemma ShapeAlter<C>(q: Queue<C>, entry: Entry<C>, e: Happening<C>)
    requires Shape(q) && entry.content.id in q.inFlight && (entry.owner == None || entry.response == None)
    ensures Shape(Alter(q, entry, e))
  {
  }

  lemma AlteredLives<C>(q: Queue<C>, entry: Entry<C>, e: Happening<C>)
    requires Shape(q) && Lives(q) && entry.content.id in q.inFlight && e.Id() == entry.content.id && entry.content == q.inFlight[e.Id()].content
    requires LifeOf(q.log, e.Id()).Some?
    requires var next := Advance(LifeOf(q.log, e.Id()).value, e); next.Some? && Agrees(next.value, InFlight(entry.content, entry.owner, entry.response))
    ensures Lives(Alter(q, entry, e))
  {
    hide LifeOf, IndexOf;
    OneHappening(q, Alter(q, entry, e), e);
  }

  lemma PlaceLanded<C>(q: Queue<C>, id: string, other: string)
    requires Shape(q) && id in q.inFlight
    ensures PlaceIn(Contents(q.pending), q.inFlight - {id}, other) == if other == id then Nowhere else PlaceOf(q, other)
  {
    hide IndexOf;
    var line := Contents(q.pending);
    forall k | 0 <= k < |line| ensures line[k].id != id {
      assert q.pending[k].content.id !in q.inFlight;
    }
  }

  lemma OneFewer<C>(inFlight: map<string, Entry<C>>, id: string)
    requires id in inFlight
    ensures |inFlight - {id}| == |inFlight| - 1
  {
    assert (inFlight - {id}).Keys == inFlight.Keys - {id};
    assert |(inFlight - {id}).Keys| == |inFlight.Keys| - 1;
  }

  lemma LandedLives<C>(q: Queue<C>, id: string, e: Happening<C>)
    requires Shape(q) && Lives(q) && id in q.inFlight && e.Id() == id && LifeOf(q.log, id).Some?
    requires var next := Advance(LifeOf(q.log, id).value, e); next.Some? && next.value.Over?
    ensures Lives(Land(q, id, e))
  {
    hide LifeOf, IndexOf;
    var q' := Land(q, id, e);
    forall other ensures PlaceOf(q', other) == if other == id then Nowhere else PlaceOf(q, other) {
      PlaceLanded(q, id, other);
    }
    OneHappening(q, q', e);
  }

  lemma ShapeLand<C>(q: Queue<C>, id: string, e: Happening<C>)
    requires Shape(q) && id in q.inFlight
    ensures Shape(Land(q, id, e))
  {
  }

  lemma LandKeeps<C>(q: Queue<C>, id: string, e: Happening<C>)
    requires QueueInv(q) && id in q.inFlight && e.Id() == id
    requires LifeOf(q.log, id).Some?
    requires var next := Advance(LifeOf(q.log, id).value, e); next.Some? && next.value.Over?
    ensures QueueInv(Land(q, id, e))
  {
    hide Shape, Lives, LifeOf, TallyOf, Rank, WasDelivered, InOrder, OrderedLine, IndexOf;
    LiveFlying(q, id);
    ShapeLand(q, id, e);
    LandedLives(q, id, e);
    OneFewer(q.inFlight, id);
    BalanceAfter(q.log, |q.pending|, |q.inFlight|, LifeOf(q.log, e.Id()).value, e);
    OrderAfter(q.log, Contents(q.pending), e);
  }

  lemma ShapePutBack<C>(q: Queue<C>, entry: Entry<C>, e: Happening<C>)
    requires Shape(q) && entry.content.id in q.inFlight && entry.owner == None && entry.response == None
    ensures Shape(PutBack(q, entry, e))
  {
    var q', line := PutBack(q, entry, e), Contents(q.pending);
    assert Contents(q'.pending) == [entry.content] + line;
    forall k | 0 <= k < |line| ensures line[k].id != entry.content.id {
      assert q.pending[k].content.id !in q.inFlight;
    }
  }

  lemma PutBackLives<C>(q: Queue<C>, entry: Entry<C>, e: Happening<C>)
    requires Shape(q) && Lives(q) && entry.content.id in q.inFlight && entry.content == q.inFlight[entry.content.id].content
    requires e.Redelivered? && e.id == entry.content.id && q.inFlight[e.id].owner == Some(e.consumer)
    ensures Lives(PutBack(q, entry, e))
  {
    hide LifeOf, IndexOf;
    var q', line, c := PutBack(q, entry, e), Contents(q.pending), entry.content;
    LiveFlying(q, c.id);
    assert Contents(q'.pending) == [c] + line;
    forall id ensures PlaceOf(q', id) == if id == c.id then InLine(c) else PlaceOf(q, id) {
      PlaceLanded(q, c.id, id);
      PlacePrepended(line, c, id);
    }
    OneHappening(q, q', e);
  }

  lemma PutBackKeeps<C>(q: Queue<C>, entry: Entry<C>, e: Happening<C>)
    requires QueueInv(q) && entry.content.id in q.inFlight && entry.content == q.inFlight[entry.content.id].content
    requires entry.owner == None && entry.response == None
    requires e.Redelivered? && e.id == entry.content.id && q.inFlight[e.id].owner == Some(e.consumer)
    ensures QueueInv(PutBack(q, entry, e))
  {
    hide Lives, LifeOf, TallyOf, Rank, WasDelivered, InOrder, OrderedLine, IndexOf;
    var line, c := Contents(q.pending), entry.content;
    LiveFlying(q, c.id);
    ShapePutBack(q, entry, e);
    PutBackLives(q, entry, e);
    OneFewer(q.inFlight, c.id);
    BalanceAfter(q.log, |q.pending|, |q.inFlight|, LifeOf(q.log, e.Id()).value, e);
    assert Contents(PutBack(q, entry, e).pending) == [c] + line;
    DeliveredOnce(q.log, c.id);
    DeliveredWasBorn(q.log, c.id);
    OrderPutBack(q.log, line, c);
    OrderAfter(q.log, [c] + line, e);
  }

  /** What changes no message keeps everything. */
  lemma NothingHappened<C>(q: Queue<C>, q': Queue<C>)
    requires QueueInv(q) && Shape(q') && q'.log == q.log && Contents(q'.pending) == Contents(q.pending) && q'.inFlight.Keys == q.inFlight.Keys
    requires forall id :: id in q.inFlight ==> PlaceOf(q', id) == PlaceOf(q, id)
    ensures QueueInv(q')
  {
    assert |q'.inFlight.Keys| == |q.inFlight.Keys|;
    forall id ensures Lived(q', id) {
      assert Lived(q, id);
    }
  }
}
