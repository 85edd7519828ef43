/** The operations of a queue, each as what it makes of the queue while it holds the lock. */
module QueueOperations {
  import opened Options
  import opened Messages
  import opened QueueModel

  // ------------------------------------------------------------ death

  /** Why a waiting message may no longer be delivered: its own time first, then the retention of the queue. */
  ghost function DeadReason<C>(e: Entry<C>, s: Settings, now: int): Option<Reason> {
    if e.ttl > 0 && now - e.born > e.ttl then Some(Expired)
    else if now - e.born > s.retention then Some(NotConsumed)
    else None
  }

  ghost function Letter<C>(q: Queue<C>, e: Entry<C>, reason: Reason, now: int, consumer: Option<C>): DeadLetter<C> {
    DeadLetter(q.name, e.content, reason, e.born, now, consumer)
  }

  ghost function Snapshot<C>(q: Queue<C>, e: Entry<C>): BrokerMessage {
    BrokerMessage(q.name, e.content, e.response)
  }

  ghost function Bury<C>(q: Queue<C>, i: nat, now: int): Queue<C>
    requires i < |q.pending| && DeadReason(q.pending[i], q.settings, now).Some?
  {
    LeaveLine(q, i, Buried(Letter(q, q.pending[i], DeadReason(q.pending[i], q.settings, now).value, now, None)))
  }

  /** Buries the dead messages the line starts with. */
  ghost function DropDead<C>(q: Queue<C>, now: int): Queue<C>
    decreases |q.pending|
  {
    if q.pending == [] || DeadReason(q.pending[0], q.settings, now) == None then q
    else DropDead(Bury(q, 0, now), now)
  }

  ghost function Track<C>(q: Queue<C>, now: int): Queue<C> {
    if q.pending == [] && q.inFlight == map[] && q.emptySince == None then q.(emptySince := Some(now)) else q
  }

  // ------------------------------------------------------------ coming in and being asked for

  ghost function Publish<C>(q: Queue<C>, content: Content, ttl: int, replyTo: Option<C>, now: int): Queue<C> {
    Enter(q, Entry(content, ttl, now, None, 0, None, if content.rpc then replyTo else None))
  }

  /** What a caller that asks gets. */
  ghost function Offered<C>(q: Queue<C>, now: int): Option<BrokerMessage> {
    if q.settings.paused || DropDead(q, now).pending == [] then None
    else Some(Snapshot(q, DropDead(q, now).pending[0]))
  }

  ghost function Take<C>(q: Queue<C>, now: int): Queue<C> {
    if q.settings.paused then Track(q, now)
    else
      var live := DropDead(q, now);
      if live.pending == [] then Track(live, now)
      else
        var e := live.pending[0];
        Track(if e.content.rpc then TakeOff(live, 0, e, Taken(Snapshot(q, e))) else LeaveLine(live, 0, Taken(Snapshot(q, e))), now)
  }

  // ------------------------------------------------------------ being pushed

  ghost function PushHead<C>(q: Queue<C>, c: C): Queue<C>
    requires q.pending != []
  {
    var e := q.pending[0];
    TakeOff(q, 0, e.(owner := Some(c)), Pushed(Snapshot(q, e), c))
  }

  /** The first free consumer, going round from the one whose turn it is; i of them were found busy. */
  ghost function FirstFree<C>(consumers: seq<C>, next: nat, free: set<C>, i: nat): (k: Option<nat>)
    requires i <= |consumers|
    ensures k.Some? ==> k.value < |consumers| && consumers[k.value] in free
    decreases |consumers| - i
  {
    if i == |consumers| then None
    else
      var index := (next + i) % |consumers|;
      if consumers[index] in free then Some(index) else FirstFree(consumers, next, free, i + 1)
  }

  ghost function Dispatch<C>(q: Queue<C>, free: set<C>, now: int): Queue<C>
    decreases |q.pending|
  {
    if q.settings.paused || q.consumers == [] then Track(q, now)
    else
      var live := DropDead(q, now);
      if live.pending == [] then Track(live, now)
      else
        match FirstFree(q.consumers, q.next, free, 0)
        case None => Track(live, now)
        case Some(k) =>
          DropDeadShortens(q, now);
          Dispatch(PushHead(live, q.consumers[k]).(next := (k + 1) % |q.consumers|), free - {q.consumers[k]}, now)
  }

  lemma PushHeadTurn<C>(q: Queue<C>, c: C, next: nat)
    requires q.pending != []
    ensures PushHead(q.(next := next), c) == PushHead(q, c).(next := next)
  {
  }

  /** A dispatch, one push at a time. */
  lemma DispatchStep<C>(q: Queue<C>, free: set<C>, now: int)
    requires !q.settings.paused && q.consumers != []
    ensures var live := DropDead(q, now);
            var k := FirstFree(q.consumers, q.next, free, 0);
            Dispatch(q, free, now) ==
            if live.pending == [] || k == None then Track(live, now)
            else Dispatch(PushHead(live, q.consumers[k.value]).(next := (k.value + 1) % |q.consumers|), free - {q.consumers[k.value]}, now)
  {
  }

  lemma {:induction false} DropDeadShortens<C>(q: Queue<C>, now: int)
    ensures |DropDead(q, now).pending| <= |q.pending|
    ensures DropDead(q, now).(pending := q.pending, log := q.log) == q
    ensures DropDead(q, now).pending != [] ==> DeadReason(DropDead(q, now).pending[0], q.settings, now) == None
    decreases |q.pending|
  {
    if q.pending != [] && DeadReason(q.pending[0], q.settings, now) != None {
      DropDeadShortens(Bury(q, 0, now), now);
    }
  }

  ghost function Join<C>(q: Queue<C>, c: C): Queue<C> {
    if c in q.consumers then q else q.(consumers := q.consumers + [c])
  }

  ghost function WithoutFirst<T>(s: seq<T>, x: T): seq<T> {
    if s == [] then [] else if s[0] == x then s[1..] else [s[0]] + WithoutFirst(s[1..], x)
  }

  ghost function Part<C>(q: Queue<C>, c: C): Queue<C> {
    q.(consumers := WithoutFirst(q.consumers, c), next := 0)
  }

  ghost predicate Holds<C>(q: Queue<C>, c: C, id: string) {
    id in q.inFlight && q.inFlight[id].owner == Some(c)
  }

  ghost function Confirm<C>(q: Queue<C>, c: C, id: string, now: int): Queue<C> {
    if Holds(q, c, id) then Track(Land(q, id, Confirmed(id, c)), now) else q
  }

  // ------------------------------------------------------------ answers

  ghost function Store<C>(q: Queue<C>, id: string, response: string, now: int): Queue<C>
    requires id in q.inFlight
  {
    var e := q.inFlight[id];
    Alter(q, e.(response := Some(response), answeredAt := now), Stored(id, response, e.response == None))
  }

  /** Hands the answer to whoever waits for it on a live connection; otherwise it stays. */
  ghost function Send<C>(q: Queue<C>, id: string, closed: set<C>): Queue<C>
    requires id in q.inFlight
  {
    var e := q.inFlight[id];
    if e.replyTo == None || e.replyTo.value in closed then q
    else Land(q, id, Sent(Snapshot(q, e), e.replyTo.value))
  }

  /** The answer of the consumer the message was pushed to. */
  ghost function AnswerHeld<C>(q: Queue<C>, c: C, id: string, response: string, closed: set<C>, now: int): Queue<C> {
    if !Holds(q, c, id) then q
    else
      var e := q.inFlight[id];
      if !e.content.rpc then Track(Land(q, id, Answered(e.content, c)), now)
      else Track(Send(Store(Release(q, c, id), id, response, now), id, closed), now)
  }

  ghost function Release<C>(q: Queue<C>, c: C, id: string): Queue<C>
    requires Holds(q, c, id)
  {
    Alter(q, q.inFlight[id].(owner := None), Answered(q.inFlight[id].content, c))
  }

  /** Answering a message nobody consumed yet takes it out of the line first. */
  ghost function MoveAside<C>(q: Queue<C>, id: string): Queue<C> {
    var k := IndexOf(Contents(q.pending), id);
    if k < |q.pending| then TakeOff(q, k, q.pending[k], MovedAside(id)) else q
  }

  ghost function Reached<C>(q: Queue<C>, id: string, includeUndelivered: bool): Queue<C> {
    if id !in q.inFlight && includeUndelivered then MoveAside(q, id) else q
  }

  /** Whether an answer given the 1.x way is taken. */
  ghost predicate Accepts<C>(q: Queue<C>, id: string, now: int) {
    id in q.inFlight && q.inFlight[id].owner == None && (q.inFlight[id].response != None || now - q.inFlight[id].born <= q.settings.retention)
  }

  ghost function AnswerAsked<C>(q: Queue<C>, id: string, response: string, includeUndelivered: bool, closed: set<C>, now: int): Queue<C> {
    var at := Reached(q, id, includeUndelivered);
    if Accepts(at, id, now) then Track(Send(Store(at, id, response, now), id, closed), now) else at
  }

  ghost function Collect<C>(q: Queue<C>, id: string, now: int): Queue<C> {
    if id in q.inFlight && q.inFlight[id].response != None
    then Track(Land(q, id, Collected(Snapshot(q, q.inFlight[id]))), now)
    else q
  }

  /** The message is in the queue and its answer can be waited for. */
  ghost predicate Awaitable<C>(q: Queue<C>, id: string) {
    if id in q.inFlight then q.inFlight[id].content.rpc
    else
      var k := IndexOf(Contents(q.pending), id);
      k < |q.pending| && q.pending[k].content.rpc
  }

  ghost function AwaitOne<C>(q: Queue<C>, c: C, id: string, closed: set<C>): Queue<C> {
    if !Awaitable(q, id) then q
    else if id in q.inFlight then
      var q' := q.(inFlight := q.inFlight[id := q.inFlight[id].(replyTo := Some(c))]);
      if q.inFlight[id].response != None then Send(q', id, closed) else q'
    else
      var k := IndexOf(Contents(q.pending), id);
      q.(pending := q.pending[k := q.pending[k].(replyTo := Some(c))])
  }

  ghost function AwaitEach<C>(q: Queue<C>, c: C, ids: seq<string>, closed: set<C>): Queue<C> {
    if ids == [] then q else AwaitOne(AwaitEach(q, c, ids[..|ids| - 1], closed), c, ids[|ids| - 1], closed)
  }

  ghost function Await<C>(q: Queue<C>, c: C, ids: seq<string>, closed: set<C>, now: int): Queue<C> {
    Track(AwaitEach(q, c, ids, closed), now)
  }

  // ------------------------------------------------------------ giving up

  /** The message goes back to the head of the line, or is buried. */
  ghost function Abandon<C>(q: Queue<C>, c: C, id: string, now: int): Queue<C>
    requires Holds(q, c, id)
  {
    var e := q.inFlight[id];
    if q.settings.redeliver then PutBack(q, e.(owner := None), Redelivered(id, c))
    else Land(q, id, Buried(Letter(q, e, Unconfirmed, now, Some(c))))
  }

  ghost function Purge<C>(q: Queue<C>): Queue<C>
    decreases |q.pending|
  {
    if q.pending == [] then q else Purge(LeaveLine(q, 0, Purged(q.pending[0].content.id)))
  }

  ghost function SweepLine<C>(q: Queue<C>, i: nat, now: int): Queue<C>
    decreases |q.pending| - i
  {
    if i >= |q.pending| then q
    else if DeadReason(q.pending[i], q.settings, now).Some? then SweepLine(Bury(q, i, now), i, now)
    else SweepLine(q, i + 1, now)
  }

  /** A message nobody is processing waited too long for its answer, or the answer for its collector. */
  ghost predicate Stale<C>(e: Entry<C>, s: Settings, now: int) {
    e.owner == None && now - (if e.response == None then e.born else e.answeredAt) > s.retention
  }

  ghost function SweepFlight<C>(q: Queue<C>, ids: seq<string>, now: int): Queue<C> {
    if ids == [] then q
    else
      var swept, id := SweepFlight(q, ids[..|ids| - 1], now), ids[|ids| - 1];
      if id in swept.inFlight && Stale(swept.inFlight[id], q.settings, now) then Land(swept, id, Dropped(id)) else swept
  }

  ghost function Retire<C>(q: Queue<C>, now: int): Queue<C> {
    if q.consumers == [] && q.emptySince.Some? && now - q.emptySince.value > q.settings.emptyLifetime then q.(removed := true) else q
  }

  /** The messages in flight are gone through in any order. */
  ghost function Sweep<C>(q: Queue<C>, order: seq<string>, now: int): Queue<C> {
    Retire(Track(SweepFlight(SweepLine(q, 0, now), order, now), now), now)
  }

  // ------------------------------------------------------------ every operation keeps the invariant

  lemma TrackKeeps<C>(q: Queue<C>, now: int)
    requires QueueInv(q)
    ensures QueueInv(Track(q, now))
  {
    NothingHappened(q, Track(q, now));
  }

  lemma BuryKeeps<C>(q: Queue<C>, i: nat, now: int)
    requires QueueInv(q) && i < |q.pending| && DeadReason(q.pending[i], q.settings, now).Some?
    ensures QueueInv(Bury(q, i, now))
  {
    hide QueueInv;
    LeaveLineKeeps(q, i, Buried(Letter(q, q.pending[i], DeadReason(q.pending[i], q.settings, now).value, now, None)));
  }

  lemma {:induction false} DropDeadKeeps<C>(q: Queue<C>, now: int)
    requires QueueInv(q)
    ensures QueueInv(DropDead(q, now))
    decreases |q.pending|
  {
    hide QueueInv;
    if q.pending != [] && DeadReason(q.pending[0], q.settings, now) != None {
      BuryKeeps(q, 0, now);
      DropDeadKeeps(Bury(q, 0, now), now);
    }
  }

  lemma PublishKeeps<C>(q: Queue<C>, content: Content, ttl: int, replyTo: Option<C>, now: int)
    requires QueueInv(q) && !q.removed && LifeOf(q.log, content.id) == Some(Unborn)
    ensures QueueInv(Publish(q, content, ttl, replyTo, now))
  {
    hide QueueInv;
    EnterKeeps(q, Entry(content, ttl, now, None, 0, None, if content.rpc then replyTo else None));
  }

  lemma HeadIsPlain<C>(q: Queue<C>)
    requires QueueInv(q) && q.pending != []
    ensures q.pending[0].owner == None && q.pending[0].response == None
  {
  }

  lemma TakeKeeps<C>(q: Queue<C>, now: int)
    requires QueueInv(q)
    ensures QueueInv(Take(q, now))
  {
    hide QueueInv, DropDead;
    TrackKeeps(q, now);
    DropDeadKeeps(q, now);
    var live := DropDead(q, now);
    TrackKeeps(live, now);
    if live.pending != [] {
      var e := live.pending[0];
      HeadIsPlain(live);
      if e.content.rpc {
        TakeOffKeeps(live, 0, e, Taken(Snapshot(q, e)));
        TrackKeeps(TakeOff(live, 0, e, Taken(Snapshot(q, e))), now);
      } else {
        LeaveLineKeeps(live, 0, Taken(Snapshot(q, e)));
        TrackKeeps(LeaveLine(live, 0, Taken(Snapshot(q, e))), now);
      }
    }
  }

  lemma PushHeadKeeps<C>(q: Queue<C>, c: C)
    requires QueueInv(q) && q.pending != []
    ensures QueueInv(PushHead(q, c))
  {
    hide QueueInv;
    HeadIsPlain(q);
    var e := q.pending[0];
    TakeOffKeeps(q, 0, e.(owner := Some(c)), Pushed(Snapshot(q, e), c));
  }

  /** Whose turn it is, and the settings, change no message. */
  lemma TurnKeeps<C>(q: Queue<C>, next: nat, settings: Settings)
    requires QueueInv(q)
    ensures QueueInv(q.(next := next)) && QueueInv(q.(settings := settings))
  {
    NothingHappened(q, q.(next := next));
    NothingHappened(q, q.(settings := settings));
  }

  lemma {:induction false} DispatchKeeps<C>(q: Queue<C>, free: set<C>, now: int)
    requires QueueInv(q)
    ensures QueueInv(Dispatch(q, free, now))
    decreases |q.pending|
  {
    hide QueueInv, DropDead, FirstFree;
    TrackKeeps(q, now);
    if !q.settings.paused && q.consumers != [] {
      var live := DropDead(q, now);
      DropDeadKeeps(q, now);
      DropDeadShortens(q, now);
      TrackKeeps(live, now);
      if live.pending != [] {
        match FirstFree(q.consumers, q.next, free, 0)
        case None =>
        case Some(k) =>
          PushHeadKeeps(live, q.consumers[k]);
          TurnKeeps(PushHead(live, q.consumers[k]), (k + 1) % |q.consumers|, q.settings);
          DispatchKeeps(PushHead(live, q.consumers[k]).(next := (k + 1) % |q.consumers|), free - {q.consumers[k]}, now);
      }
    }
  }

  /** Whoever joins comes last; whoever is bound already keeps its place. */
  lemma JoinKeeps<C>(q: Queue<C>, c: C)
    requires QueueInv(q) && !q.removed
    ensures QueueInv(Join(q, c)) && c in Join(q, c).consumers
    ensures q.consumers <= Join(q, c).consumers && Join(q, c).next == q.next
    ensures |Join(q, c).consumers| == |q.consumers| + if c in q.consumers then 0 else 1
  {
    if c !in q.consumers {
      NothingHappened(q, Join(q, c));
    }
  }

  lemma {:induction false} WithoutFirstIs<T>(s: seq<T>, x: T)
    requires NoRepeats(s)
    ensures NoRepeats(WithoutFirst(s, x)) && forall y :: y in WithoutFirst(s, x) <==> y in s && y != x
  {
    if s != [] {
      WithoutFirstIs(s[1..], x);
      var r := WithoutFirst(s, x);
      if s[0] != x {
        assert forall j :: 1 <= j < |r| ==> r[j] == WithoutFirst(s[1..], x)[j - 1] && r[j] in WithoutFirst(s[1..], x);
      }
    }
  }

  /** The others stay in their order. */
  lemma {:induction false} WithoutFirstAt<T>(s: seq<T>, x: T, i: nat)
    requires i <= |s| && x !in s[..i] && (i < |s| ==> s[i] == x)
    ensures WithoutFirst(s, x) == if i < |s| then s[..i] + s[i + 1..] else s
  {
    if i > 0 {
      assert s[..i][0] == s[0] && s[1..][..i - 1] == s[..i][1..];
      WithoutFirstAt(s[1..], x, i - 1);
      assert s == [s[0]] + s[1..];
    }
  }

  /** Whoever leaves is gone, the others stay in their order, and the turn starts over. */
  lemma PartKeeps<C>(q: Queue<C>, c: C)
    requires QueueInv(q)
    ensures QueueInv(Part(q, c)) && (forall d :: d in Part(q, c).consumers <==> d in q.consumers && d != c) && Part(q, c).next == 0
  {
    WithoutFirstIs(q.consumers, c);
    NothingHappened(q, Part(q, c));
  }

  lemma ConfirmedKeeps<C>(q: Queue<C>, c: C, id: string)
    requires QueueInv(q) && Holds(q, c, id)
    ensures QueueInv(Land(q, id, Confirmed(id, c)))
  {
    hide QueueInv;
    FlyingLife(q, id);
    LandKeeps(q, id, Confirmed(id, c));
  }

  lemma AnsweredPlainKeeps<C>(q: Queue<C>, c: C, id: string)
    requires QueueInv(q) && Holds(q, c, id) && !q.inFlight[id].content.rpc
    ensures QueueInv(Land(q, id, Answered(q.inFlight[id].content, c)))
  {
    hide QueueInv;
    FlyingLife(q, id);
    LandKeeps(q, id, Answered(q.inFlight[id].content, c));
  }

  lemma ReleaseKeeps<C>(q: Queue<C>, c: C, id: string)
    requires QueueInv(q) && Holds(q, c, id) && q.inFlight[id].content.rpc
    ensures QueueInv(Release(q, c, id))
  {
    hide QueueInv;
    FlyingLife(q, id);
    AlterKeeps(q, q.inFlight[id].(owner := None), Answered(q.inFlight[id].content, c));
  }

  lemma CollectedKeeps<C>(q: Queue<C>, id: string)
    requires QueueInv(q) && id in q.inFlight && q.inFlight[id].response != None
    ensures QueueInv(Land(q, id, Collected(Snapshot(q, q.inFlight[id]))))
  {
    hide QueueInv;
    FlyingLife(q, id);
    LandKeeps(q, id, Collected(Snapshot(q, q.inFlight[id])));
  }

  lemma ConfirmKeeps<C>(q: Queue<C>, c: C, id: string, now: int)
    requires QueueInv(q)
    ensures QueueInv(Confirm(q, c, id, now))
  {
    hide QueueInv;
    if Holds(q, c, id) {
      ConfirmedKeeps(q, c, id);
      TrackKeeps(Land(q, id, Confirmed(id, c)), now);
    }
  }

  lemma FlyingId<C>(q: Queue<C>, id: string)
    requires QueueInv(q) && id in q.inFlight
    ensures q.inFlight[id].content.id == id && (q.inFlight[id].owner == None || q.inFlight[id].response == None)
  {
  }

  lemma FlyingLife<C>(q: Queue<C>, id: string)
    requires QueueInv(q) && id in q.inFlight
    ensures q.inFlight[id].content.id == id && (q.inFlight[id].owner == None || q.inFlight[id].response == None)
    ensures LifeOf(q.log, id) == Some(match q.inFlight[id].owner case None => Out(q.inFlight[id].content, q.inFlight[id].response) case Some(c) => Held(q.inFlight[id].content, c))
  {
    LiveFlying(q, id);
  }

  lemma StoreKeeps<C>(q: Queue<C>, id: string, response: string, now: int)
    requires QueueInv(q) && id in q.inFlight && q.inFlight[id].owner == None
    ensures QueueInv(Store(q, id, response, now))
    ensures Store(q, id, response, now).inFlight[id].owner == None && Store(q, id, response, now).inFlight[id].response == Some(response)
  {
    hide QueueInv;
    FlyingLife(q, id);
    var e := q.inFlight[id];
    AlterKeeps(q, e.(response := Some(response), answeredAt := now), Stored(id, response, e.response == None));
  }

  lemma SendKeeps<C>(q: Queue<C>, id: string, closed: set<C>)
    requires QueueInv(q) && id in q.inFlight && q.inFlight[id].response != None
    ensures QueueInv(Send(q, id, closed))
  {
    hide QueueInv;
    FlyingLife(q, id);
    var e := q.inFlight[id];
    if !(e.replyTo == None || e.replyTo.value in closed) {
      LandKeeps(q, id, Sent(Snapshot(q, e), e.replyTo.value));
    }
  }

  lemma AnswerHeldKeeps<C>(q: Queue<C>, c: C, id: string, response: string, closed: set<C>, now: int)
    requires QueueInv(q)
    ensures QueueInv(AnswerHeld(q, c, id, response, closed, now))
  {
    hide QueueInv, Track;
    if Holds(q, c, id) {
      FlyingId(q, id);
      var e := q.inFlight[id];
      if !e.content.rpc {
        AnsweredPlainKeeps(q, c, id);
        TrackKeeps(Land(q, id, Answered(e.content, c)), now);
      } else {
        ReleaseKeeps(q, c, id);
        var free := Release(q, c, id);
        StoreKeeps(free, id, response, now);
        SendKeeps(Store(free, id, response, now), id, closed);
        TrackKeeps(Send(Store(free, id, response, now), id, closed), now);
      }
    }
  }

  lemma ReachedKeeps<C>(q: Queue<C>, id: string, includeUndelivered: bool)
    requires QueueInv(q)
    ensures QueueInv(Reached(q, id, includeUndelivered))
  {
    var k := IndexOf(Contents(q.pending), id);
    if id !in q.inFlight && includeUndelivered && k < |q.pending| {
      assert q.pending[k].content.id == id;
      TakeOffKeeps(q, k, q.pending[k], MovedAside(id));
    }
  }

  lemma AnswerAskedKeeps<C>(q: Queue<C>, id: string, response: string, includeUndelivered: bool, closed: set<C>, now: int)
    requires QueueInv(q)
    ensures QueueInv(AnswerAsked(q, id, response, includeUndelivered, closed, now))
  {
    hide QueueInv, Track, Reached;
    var at := Reached(q, id, includeUndelivered);
    ReachedKeeps(q, id, includeUndelivered);
    if Accepts(at, id, now) {
      StoreKeeps(at, id, response, now);
      SendKeeps(Store(at, id, response, now), id, closed);
      TrackKeeps(Send(Store(at, id, response, now), id, closed), now);
    }
  }

  lemma CollectKeeps<C>(q: Queue<C>, id: string, now: int)
    requires QueueInv(q)
    ensures QueueInv(Collect(q, id, now))
  {
    hide QueueInv, Track;
    if id in q.inFlight && q.inFlight[id].response != None {
      CollectedKeeps(q, id);
      TrackKeeps(Land(q, id, Collected(Snapshot(q, q.inFlight[id]))), now);
    }
  }

  lemma RouteKeeps<C>(q: Queue<C>, c: C, id: string)
    requires QueueInv(q) && id in q.inFlight
    ensures QueueInv(q.(inFlight := q.inFlight[id := q.inFlight[id].(replyTo := Some(c))]))
  {
    hide Lives, Balance, Ordered;
    var q' := q.(inFlight := q.inFlight[id := q.inFlight[id].(replyTo := Some(c))]);
    assert q'.inFlight.Keys == q.inFlight.Keys;
    NothingHappened(q, q');
  }

  lemma AwaitOneKeeps<C>(q: Queue<C>, c: C, id: string, closed: set<C>)
    requires QueueInv(q)
    ensures QueueInv(AwaitOne(q, c, id, closed))
  {
    hide Lives, Balance, Ordered;
    if Awaitable(q, id) {
      if id in q.inFlight {
        var q' := q.(inFlight := q.inFlight[id := q.inFlight[id].(replyTo := Some(c))]);
        RouteKeeps(q, c, id);
        if q.inFlight[id].response != None {
          SendKeeps(q', id, closed);
        }
      } else {
        var k := IndexOf(Contents(q.pending), id);
        var q' := q.(pending := q.pending[k := q.pending[k].(replyTo := Some(c))]);
        assert Contents(q'.pending) == Contents(q.pending);
        NothingHappened(q, q');
      }
    }
  }

  lemma {:induction false} AwaitKeeps<C>(q: Queue<C>, c: C, ids: seq<string>, closed: set<C>)
    requires QueueInv(q)
    ensures QueueInv(AwaitEach(q, c, ids, closed))
  {
    hide QueueInv;
    if ids != [] {
      AwaitKeeps(q, c, ids[..|ids| - 1], closed);
      AwaitOneKeeps(AwaitEach(q, c, ids[..|ids| - 1], closed), c, ids[|ids| - 1], closed);
    }
  }

  lemma AbandonKeeps<C>(q: Queue<C>, c: C, id: string, now: int)
    requires QueueInv(q) && Holds(q, c, id)
    ensures QueueInv(Abandon(q, c, id, now))
  {
    hide QueueInv;
    FlyingLife(q, id);
    var e := q.inFlight[id];
    if q.settings.redeliver {
      PutBackKeeps(q, e.(owner := None), Redelivered(id, c));
    } else {
      LandKeeps(q, id, Buried(Letter(q, e, Unconfirmed, now, Some(c))));
    }
  }

  lemma PutBackIs<C>(q: Queue<C>, c: C, id: string, now: int)
    requires Holds(q, c, id) && q.settings.redeliver
    ensures Abandon(q, c, id, now) == PutBack(q, q.inFlight[id].(owner := None), Redelivered(id, c))
  {
  }

  lemma PutBackOf<C>(q: Queue<C>, c: C, id: string, now: int)
    requires QueueInv(q) && Holds(q, c, id) && q.settings.redeliver
    ensures QueueInv(PutBack(q, q.inFlight[id].(owner := None), Redelivered(id, c)))
  {
    AbandonKeeps(q, c, id, now);
  }

  lemma {:induction false} PurgeKeeps<C>(q: Queue<C>)
    requires QueueInv(q)
    ensures QueueInv(Purge(q)) && Purge(q).(log := q.log) == q.(pending := [])
    decreases |q.pending|
  {
    hide QueueInv;
    if q.pending != [] {
      LeaveLineKeeps(q, 0, Purged(q.pending[0].content.id));
      PurgeKeeps(LeaveLine(q, 0, Purged(q.pending[0].content.id)));
    }
  }

  lemma {:induction false} SweepLineKeeps<C>(q: Queue<C>, i: nat, now: int)
    requires QueueInv(q)
    ensures QueueInv(SweepLine(q, i, now))
    decreases |q.pending| - i
  {
    hide QueueInv;
    if i < |q.pending| {
      if DeadReason(q.pending[i], q.settings, now).Some? {
        BuryKeeps(q, i, now);
        SweepLineKeeps(Bury(q, i, now), i, now);
      } else {
        SweepLineKeeps(q, i + 1, now);
      }
    }
  }

  lemma DropStaleKeeps<C>(q: Queue<C>, swept: Queue<C>, id: string, now: int)
    requires QueueInv(swept)
    ensures QueueInv(if id in swept.inFlight && Stale(swept.inFlight[id], q.settings, now) then Land(swept, id, Dropped(id)) else swept)
  {
    hide QueueInv;
    if id in swept.inFlight && Stale(swept.inFlight[id], q.settings, now) {
      FlyingLife(swept, id);
      LandKeeps(swept, id, Dropped(id));
    }
  }

  lemma {:induction false} SweepFlightKeeps<C>(q: Queue<C>, ids: seq<string>, now: int)
    requires QueueInv(q)
    ensures QueueInv(SweepFlight(q, ids, now))
  {
    hide QueueInv;
    if ids != [] {
      SweepFlightKeeps(q, ids[..|ids| - 1], now);
      DropStaleKeeps(q, SweepFlight(q, ids[..|ids| - 1], now), ids[|ids| - 1], now);
    }
  }

  lemma SweepKeeps<C>(q: Queue<C>, order: seq<string>, now: int)
    requires QueueInv(q)
    ensures QueueInv(Sweep(q, order, now))
  {
    hide QueueInv, SweepLine, SweepFlight;
    SweepLineKeeps(q, 0, now);
    SweepFlightKeeps(SweepLine(q, 0, now), order, now);
    var swept := SweepFlight(SweepLine(q, 0, now), order, now);
    TrackKeeps(swept, now);
    RetireKeeps(Track(swept, now), now);
  }

  lemma RetireKeeps<C>(q: Queue<C>, now: int)
    requires QueueInv(q)
    ensures QueueInv(Retire(q, now))
  {
    NothingHappened(q, Retire(q, now));
  }

  // ------------------------------------------------------------ what does not hold

  /**
   * An answer that is refused may still have changed the queue. It has exactly when it was for a message
   * nobody had consumed yet, which is too old: that message has left the line by then.
   */
  lemma RefusedYetMoved<C>(q: Queue<C>, id: string, response: string, includeUndelivered: bool, closed: set<C>, now: int)
    requires QueueInv(q)
    ensures var k := IndexOf(Contents(q.pending), id);
            !Accepts(Reached(q, id, includeUndelivered), id, now) && AnswerAsked(q, id, response, includeUndelivered, closed, now) != q
            <==> includeUndelivered && k < |q.pending| && now - q.pending[k].born > q.settings.retention
  {
    hide Lives, Balance, Ordered, Send, Store, Track, LifeOf;
    var k := IndexOf(Contents(q.pending), id);
    if k < |q.pending| {
      assert q.pending[k].content.id == id && id !in q.inFlight;
      if includeUndelivered {
        var at := Reached(q, id, includeUndelivered);
        assert at == TakeOff(q, k, q.pending[k], MovedAside(id)) && |at.log| == |q.log| + 1;
      }
    }
  }
}
