/** What each operation of a queue does to what is known of its messages, and to the answers it sends. */
module Origins {
  import opened Options
  import opened Messages
  import opened QueueModel
  import QO = QueueOperations

  /** The message is here, waiting or in flight. */
  ghost predicate Has(q: Queue<nat>, x: Entry<nat>) {
    x in q.pending || (x.content.id in q.inFlight && q.inFlight[x.content.id] == x)
  }

  /** All that is known of it is as it was, but who holds it. */
  ghost predicate CameAs(q: Queue<nat>, x': Entry<nat>) {
    exists x: Entry<nat> :: Has(q, x) && x' == x.(owner := x'.owner)
  }

  ghost predicate NoneSent(log: seq<Happening<nat>>, log': seq<Happening<nat>>) {
    log <= log' && forall k :: |log| <= k < |log'| ==> !log'[k].Sent?
  }

  /** Nothing is known anew of any message, and no answer is sent. */
  ghost predicate Plain(q: Queue<nat>, q': Queue<nat>) {
    (forall x': Entry<nat> :: Has(q', x') ==> CameAs(q, x')) && NoneSent(q.log, q'.log)
  }

  lemma PlainThen(q: Queue<nat>, q': Queue<nat>, q'': Queue<nat>)
    requires Plain(q, q') && Plain(q', q'')
    ensures Plain(q, q'')
  {
    forall x'': Entry<nat> | Has(q'', x'') ensures CameAs(q, x'') {
      assert CameAs(q', x'');
      var x': Entry<nat> :| Has(q', x') && x'' == x'.(owner := x''.owner);
      assert CameAs(q, x');
    }
  }

  lemma PlainSame(q: Queue<nat>, q': Queue<nat>)
    requires q'.pending == q.pending && q'.inFlight == q.inFlight && q'.log == q.log
    ensures Plain(q, q')
  {
    forall x': Entry<nat> | Has(q', x') ensures CameAs(q, x') {
      assert Has(q, x');
    }
  }

  lemma PlainTrack(q: Queue<nat>, now: int)
    ensures Plain(q, QO.Track(q, now))
  {
    PlainSame(q, QO.Track(q, now));
  }

  lemma PlainLeaveLine(q: Queue<nat>, i: nat, e: Happening<nat>)
    requires i < |q.pending| && !e.Sent?
    ensures Plain(q, LeaveLine(q, i, e))
  {
    forall x': Entry<nat> | Has(LeaveLine(q, i, e), x') ensures CameAs(q, x') {
      assert Has(q, x');
    }
  }

  lemma PlainTakeOff(q: Queue<nat>, i: nat, entry: Entry<nat>, e: Happening<nat>)
    requires i < |q.pending| && !e.Sent? && entry == q.pending[i].(owner := entry.owner)
    ensures Plain(q, TakeOff(q, i, entry, e))
  {
    assert Has(q, q.pending[i]);
    forall x': Entry<nat> | Has(TakeOff(q, i, entry, e), x') ensures CameAs(q, x') {
      if x' != entry {
        assert Has(q, x');
      }
    }
  }

  lemma PlainLand(q: Queue<nat>, id: string, e: Happening<nat>)
    requires !e.Sent?
    ensures Plain(q, Land(q, id, e))
  {
    forall x': Entry<nat> | Has(Land(q, id, e), x') ensures CameAs(q, x') {
      assert Has(q, x');
    }
  }

  lemma PlainAlter(q: Queue<nat>, entry: Entry<nat>, e: Happening<nat>)
    requires !e.Sent? && entry.content.id in q.inFlight && entry == q.inFlight[entry.content.id].(owner := entry.owner)
    ensures Plain(q, Alter(q, entry, e))
  {
    assert Has(q, q.inFlight[entry.content.id]);
    forall x': Entry<nat> | Has(Alter(q, entry, e), x') ensures CameAs(q, x') {
      if x' != entry {
        assert Has(q, x');
      }
    }
  }

  lemma PlainPutBack(q: Queue<nat>, entry: Entry<nat>, e: Happening<nat>)
    requires !e.Sent? && entry.content.id in q.inFlight && entry == q.inFlight[entry.content.id].(owner := entry.owner)
    ensures Plain(q, PutBack(q, entry, e))
  {
    assert Has(q, q.inFlight[entry.content.id]);
    forall x': Entry<nat> | Has(PutBack(q, entry, e), x') ensures CameAs(q, x') {
      if x' != entry {
        assert Has(q, x');
      }
    }
  }

  lemma {:induction false} PlainDropDead(q: Queue<nat>, now: int)
    ensures Plain(q, QO.DropDead(q, now))
    decreases |q.pending|
  {
    hide Plain, QO.DeadReason, LeaveLine;
    if q.pending != [] && QO.DeadReason(q.pending[0], q.settings, now) != None {
      PlainLeaveLine(q, 0, Buried(QO.Letter(q, q.pending[0], QO.DeadReason(q.pending[0], q.settings, now).value, now, None)));
      Fewer(q, now);
      PlainDropDead(QO.Bury(q, 0, now), now);
      PlainThen(q, QO.Bury(q, 0, now), QO.DropDead(q, now));
    } else {
      PlainSame(q, q);
    }
  }

  lemma Fewer(q: Queue<nat>, now: int)
    requires q.pending != [] && QO.DeadReason(q.pending[0], q.settings, now) != None
    ensures |QO.Bury(q, 0, now).pending| < |q.pending|
  {
  }

  lemma PlainTake(q: Queue<nat>, now: int)
    ensures Plain(q, QO.Take(q, now))
  {
    hide Plain, QO.Track, QO.DropDead, TakeOff, LeaveLine;
    var live := QO.DropDead(q, now);
    PlainDropDead(q, now);
    PlainTrack(q, now);
    PlainTrack(live, now);
    PlainThen(q, live, QO.Track(live, now));
    if live.pending != [] {
      var e := live.pending[0];
      var taken := if e.content.rpc then TakeOff(live, 0, e, Taken(QO.Snapshot(q, e))) else LeaveLine(live, 0, Taken(QO.Snapshot(q, e)));
      PlainTakeOff(live, 0, e, Taken(QO.Snapshot(q, e)));
      PlainLeaveLine(live, 0, Taken(QO.Snapshot(q, e)));
      PlainThen(q, live, taken);
      PlainTrack(taken, now);
      PlainThen(q, taken, QO.Track(taken, now));
    }
  }

  lemma PlainPush(q: Queue<nat>, c: nat)
    requires q.pending != []
    ensures Plain(q, QO.PushHead(q, c))
  {
    hide Plain, TakeOff;
    var e := q.pending[0];
    PlainTakeOff(q, 0, e.(owner := Some(c)), Pushed(QO.Snapshot(q, e), c));
  }

  lemma {:induction false} PlainPurge(q: Queue<nat>)
    ensures Plain(q, QO.Purge(q))
    decreases |q.pending|
  {
    hide Plain;
    if q.pending == [] {
      PlainSame(q, q);
    } else {
      var q' := LeaveLine(q, 0, Purged(q.pending[0].content.id));
      PlainLeaveLine(q, 0, Purged(q.pending[0].content.id));
      PlainPurge(q');
      PlainThen(q, q', QO.Purge(q'));
    }
  }

  lemma {:induction false} PlainSweepLine(q: Queue<nat>, i: nat, now: int)
    ensures Plain(q, QO.SweepLine(q, i, now))
    decreases |q.pending| - i
  {
    hide Plain, QO.DeadReason;
    if i >= |q.pending| {
      PlainSame(q, q);
    } else if QO.DeadReason(q.pending[i], q.settings, now).Some? {
      PlainLeaveLine(q, i, Buried(QO.Letter(q, q.pending[i], QO.DeadReason(q.pending[i], q.settings, now).value, now, None)));
      PlainSweepLine(QO.Bury(q, i, now), i, now);
      PlainThen(q, QO.Bury(q, i, now), QO.SweepLine(q, i, now));
    } else {
      PlainSweepLine(q, i + 1, now);
    }
  }

  lemma {:induction false} PlainSweepFlight(q: Queue<nat>, ids: seq<string>, now: int)
    ensures Plain(q, QO.SweepFlight(q, ids, now))
  {
    hide Plain, QO.Stale, Land;
    if ids == [] {
      PlainSame(q, q);
    } else {
      var swept, id := QO.SweepFlight(q, ids[..|ids| - 1], now), ids[|ids| - 1];
      PlainSweepFlight(q, ids[..|ids| - 1], now);
      PlainLand(swept, id, Dropped(id));
      PlainThen(q, swept, Land(swept, id, Dropped(id)));
    }
  }

  lemma PlainSweep(q: Queue<nat>, order: seq<string>, now: int)
    ensures Plain(q, QO.Sweep(q, order, now))
  {
    hide Plain, QO.SweepLine, QO.SweepFlight;
    var lined := QO.SweepLine(q, 0, now);
    var swept := QO.SweepFlight(lined, order, now);
    PlainSweepLine(q, 0, now);
    PlainSweepFlight(lined, order, now);
    PlainThen(q, lined, swept);
    PlainSame(swept, QO.Sweep(q, order, now));
    PlainThen(q, swept, QO.Sweep(q, order, now));
  }

  lemma PlainConfirm(q: Queue<nat>, c: nat, id: string, now: int)
    ensures Plain(q, QO.Confirm(q, c, id, now))
  {
    hide Plain, Land, QO.Track;
    PlainSame(q, q);
    PlainLand(q, id, Confirmed(id, c));
    PlainTrack(Land(q, id, Confirmed(id, c)), now);
    PlainThen(q, Land(q, id, Confirmed(id, c)), QO.Track(Land(q, id, Confirmed(id, c)), now));
  }

  lemma PlainCollect(q: Queue<nat>, id: string, now: int)
    ensures Plain(q, QO.Collect(q, id, now))
  {
    hide Plain, Land, QO.Track;
    PlainSame(q, q);
    if id in q.inFlight {
      var e := Collected(QO.Snapshot(q, q.inFlight[id]));
      PlainLand(q, id, e);
      PlainTrack(Land(q, id, e), now);
      PlainThen(q, Land(q, id, e), QO.Track(Land(q, id, e), now));
    }
  }

  lemma PlainAbandon(q: Queue<nat>, c: nat, id: string, now: int)
    requires QO.Holds(q, c, id) && q.inFlight[id].content.id == id
    ensures Plain(q, QO.Abandon(q, c, id, now)) && Plain(q, QO.Track(QO.Abandon(q, c, id, now), now))
  {
    hide Plain, Land, PutBack, QO.Track;
    var e := q.inFlight[id];
    PlainPutBack(q, e.(owner := None), Redelivered(id, c));
    PlainLand(q, id, Buried(QO.Letter(q, e, Unconfirmed, now, Some(c))));
    PlainTrack(QO.Abandon(q, c, id, now), now);
    PlainThen(q, QO.Abandon(q, c, id, now), QO.Track(QO.Abandon(q, c, id, now), now));
  }

  // ------------------------------------------------------------ answers

  /** Only this answer to this message is sent, and only to whoever waits for it and is not closed. */
  ghost predicate SentTo(log: seq<Happening<nat>>, log': seq<Happening<nat>>, closed: set<nat>, e: Entry<nat>, response: string) {
    && log <= log'
    && forall k :: |log| <= k < |log'| && log'[k].Sent? ==>
         log'[k].message.content == e.content && log'[k].message.response == Some(response) && e.replyTo == Some(log'[k].receiver) && log'[k].receiver !in closed
  }

  /** The message it belongs to has the answer, kept only where nobody waits for it or whoever does is closed. */
  ghost predicate GivenAnswer(q: Queue<nat>, q': Queue<nat>, e: Entry<nat>, response: string, closed: set<nat>, now: int) {
    && Has(q, e) && SentTo(q.log, q'.log, closed, e, response)
    && forall x: Entry<nat> :: Has(q', x) ==>
         if x.content.id == e.content.id
         then x == e.(owner := None, response := Some(response), answeredAt := now) && (e.replyTo.Some? ==> e.replyTo.value in closed)
         else Has(q, x)
  }

  lemma NotTwice(q: Queue<nat>, x: Entry<nat>, y: Entry<nat>)
    requires QueueInv(q) && Has(q, x) && Has(q, y) && x.content.id == y.content.id
    ensures x == y
  {
    hide Lives, Balance, Ordered;
    if x in q.pending && y in q.pending {
      var j :| 0 <= j < |q.pending| && q.pending[j] == x;
      var k :| 0 <= k < |q.pending| && q.pending[k] == y;
      assert Contents(q.pending)[j].id == Contents(q.pending)[k].id;
    }
  }

  /** Storing and sending an answer, to a message in flight that nobody holds. */
  lemma StoredAndSent(q: Queue<nat>, id: string, response: string, closed: set<nat>, now: int)
    requires QueueInv(q) && id in q.inFlight && q.inFlight[id].owner == None
    ensures GivenAnswer(q, QO.Track(QO.Send(QO.Store(q, id, response, now), id, closed), now), q.inFlight[id], response, closed, now)
  {
    hide Lives, Balance, Ordered, QueueInv;
    var e, q' := q.inFlight[id], QO.Track(QO.Send(QO.Store(q, id, response, now), id, closed), now);
    QO.FlyingId(q, id);
    forall x: Entry<nat> | Has(q', x)
      ensures if x.content.id == id
              then x == e.(response := Some(response), answeredAt := now) && (e.replyTo.Some? ==> e.replyTo.value in closed)
              else Has(q, x)
    {
      if x in q.pending && x.content.id == id {
        NotTwice(q, x, e);
        PendingIsPlain(q, x);
        assert false;
      }
    }
  }

  lemma PendingIsPlain(q: Queue<nat>, x: Entry<nat>)
    requires QueueInv(q) && x in q.pending
    ensures x.content.id !in q.inFlight && x.owner == None && x.response == None
  {
  }

  /** The same message, released or taken aside before it was answered. */
  lemma AnsweredBefore(q: Queue<nat>, at: Queue<nat>, q': Queue<nat>, e: Entry<nat>, e': Entry<nat>, response: string, closed: set<nat>, now: int)
    requires GivenAnswer(at, q', e', response, closed, now) && Has(q, e) && e' == e.(owner := e'.owner) && NoneSent(q.log, at.log)
    requires forall x: Entry<nat> :: Has(at, x) && x.content.id != e.content.id ==> Has(q, x)
    ensures GivenAnswer(q, q', e, response, closed, now)
  {
  }

  lemma ReleasedHas(q: Queue<nat>, c: nat, id: string)
    requires QueueInv(q) && QO.Holds(q, c, id)
    ensures forall x: Entry<nat> :: Has(QO.Release(q, c, id), x) && x.content.id != id ==> Has(q, x)
    ensures NoneSent(q.log, QO.Release(q, c, id).log)
    ensures id in QO.Release(q, c, id).inFlight && QO.Release(q, c, id).inFlight[id] == q.inFlight[id].(owner := None)
  {
    hide QueueInv;
    QO.FlyingId(q, id);
  }

  /** The answer of whoever holds an RPC message. */
  lemma AnsweredHeld(q: Queue<nat>, c: nat, id: string, response: string, closed: set<nat>, now: int)
    requires QueueInv(q) && QO.Holds(q, c, id) && q.inFlight[id].content.rpc
    ensures GivenAnswer(q, QO.AnswerHeld(q, c, id, response, closed, now), q.inFlight[id], response, closed, now)
  {
    hide QueueInv, GivenAnswer, QO.Store, QO.Send, QO.Track, QO.Release, NoneSent;
    var at := QO.Release(q, c, id);
    QO.FlyingId(q, id);
    QO.ReleaseKeeps(q, c, id);
    ReleasedHas(q, c, id);
    StoredAndSent(at, id, response, closed, now);
    assert Has(q, q.inFlight[id]);
    AnsweredBefore(q, at, QO.AnswerHeld(q, c, id, response, closed, now), q.inFlight[id], at.inFlight[id], response, closed, now);
  }

  /** The answer of whoever holds a plain message settles it. */
  lemma PlainAnswer(q: Queue<nat>, c: nat, id: string, response: string, closed: set<nat>, now: int)
    requires QueueInv(q) && (QO.Holds(q, c, id) ==> !q.inFlight[id].content.rpc)
    ensures Plain(q, QO.AnswerHeld(q, c, id, response, closed, now))
  {
    hide QueueInv, Plain, Land, QO.Track;
    if QO.Holds(q, c, id) {
      var e := Happening.Answered(q.inFlight[id].content, c);
      PlainLand(q, id, e);
      PlainTrack(Land(q, id, e), now);
      PlainThen(q, Land(q, id, e), QO.Track(Land(q, id, e), now));
    } else {
      PlainSame(q, q);
    }
  }

  /** It can be answered by asking: it is in flight, or may be taken out of the line, nobody holds it, and it is answered already or not too old. */
  ghost predicate CanBeAnswered(q: Queue<nat>, x: Entry<nat>, includeUndelivered: bool, now: int) {
    && Has(q, x) && x.owner == None && (x.response.Some? || now - x.born <= q.settings.retention)
    && (includeUndelivered || x.content.id in q.inFlight)
  }

  lemma ReachedHas(q: Queue<nat>, id: string, includeUndelivered: bool)
    requires QueueInv(q)
    ensures var at := QO.Reached(q, id, includeUndelivered);
            && Plain(q, at) && at.settings == q.settings
            && (forall x: Entry<nat> :: Has(at, x) ==> Has(q, x))
            && (id in at.inFlight ==> at.inFlight[id].content.id == id && (includeUndelivered || id in q.inFlight))
            && (id !in at.inFlight ==> forall x: Entry<nat> :: Has(q, x) && x.content.id == id ==> !includeUndelivered && id !in q.inFlight)
  {
    hide Lives, Balance, Ordered, IndexOf;
    var k := IndexOf(Contents(q.pending), id);
    if id !in q.inFlight && includeUndelivered && k < |q.pending| {
      assert Contents(q.pending)[k].id == id;
      PlainTakeOff(q, k, q.pending[k], MovedAside(id));
    } else {
      PlainSame(q, q);
      if id !in q.inFlight && includeUndelivered {
        forall x: Entry<nat> | Has(q, x) ensures x.content.id != id {
          if x in q.pending {
            var j :| 0 <= j < |q.pending| && q.pending[j] == x;
            assert Contents(q.pending)[j].id == x.content.id;
          }
        }
      }
    }
  }

  /** An answer given by asking is taken exactly when the message can be answered so; otherwise nothing is known anew. */
  lemma AnsweredAsked(q: Queue<nat>, id: string, response: string, includeUndelivered: bool, closed: set<nat>, now: int) returns (e: Option<Entry<nat>>)
    requires QueueInv(q)
    ensures match e
            case Some(x) => x.content.id == id && CanBeAnswered(q, x, includeUndelivered, now)
                            && GivenAnswer(q, QO.AnswerAsked(q, id, response, includeUndelivered, closed, now), x, response, closed, now)
            case None => Plain(q, QO.AnswerAsked(q, id, response, includeUndelivered, closed, now))
                         && forall x: Entry<nat> :: x.content.id == id ==> !CanBeAnswered(q, x, includeUndelivered, now)
  {
    hide QueueInv, QO.Reached, QO.Store, QO.Send, QO.Track, GivenAnswer;
    var at := QO.Reached(q, id, includeUndelivered);
    QO.ReachedKeeps(q, id, includeUndelivered);
    ReachedHas(q, id, includeUndelivered);
    if QO.Accepts(at, id, now) {
      var x := at.inFlight[id];
      assert Has(at, x);
      StoredAndSent(at, id, response, closed, now);
      AnsweredBefore(q, at, QO.AnswerAsked(q, id, response, includeUndelivered, closed, now), x, x, response, closed, now);
      e := Some(x);
    } else {
      forall x: Entry<nat> | x.content.id == id ensures !CanBeAnswered(q, x, includeUndelivered, now) {
        if Has(q, x) && id in at.inFlight {
          assert Has(at, at.inFlight[id]);
          NotTwice(q, x, at.inFlight[id]);
        }
      }
      e := None;
    }
  }

  // ------------------------------------------------------------ coming back for answers

  /** The consumer that asked is waited upon from now on, where the message can be answered. */
  ghost function Rerouted(x: Entry<nat>, c: nat, ids: seq<string>): Entry<nat> {
    if x.content.rpc && x.content.id in ids then x.(replyTo := Some(c)) else x
  }

  ghost predicate ReroutedFrom(q: Queue<nat>, x': Entry<nat>, c: nat, ids: seq<string>) {
    exists x: Entry<nat> :: Has(q, x) && x' == Rerouted(x, c, ids)
  }

  /** The answer of a message asked for, which is there. */
  ghost predicate ThereFor(q: Queue<nat>, m: BrokerMessage, ids: seq<string>) {
    exists x: Entry<nat> :: Has(q, x) && x.content.id in ids && x.content.rpc && m.content == x.content && m.response == x.response && x.response.Some?
  }

  /** Every message asked for goes to the consumer; its answer is kept only when the consumer is closed, and sent to nobody else. */
  ghost predicate Awaited(q: Queue<nat>, q': Queue<nat>, c: nat, ids: seq<string>, closed: set<nat>) {
    && (forall x': Entry<nat> :: Has(q', x') ==> ReroutedFrom(q, x', c, ids))
    && (forall x': Entry<nat> :: Has(q', x') && x'.content.id in ids && x'.content.rpc && x'.response.Some? ==> c in closed)
    && q.log <= q'.log
    && forall k :: |q.log| <= k < |q'.log| && q'.log[k].Sent? ==> q'.log[k].receiver == c && c !in closed && ThereFor(q, q'.log[k].message, ids)
  }

  lemma AwaitedNone(q: Queue<nat>, c: nat, closed: set<nat>)
    ensures Awaited(q, q, c, [], closed)
  {
    forall x': Entry<nat> | Has(q, x') ensures ReroutedFrom(q, x', c, []) {
      assert x' == Rerouted(x', c, []);
    }
  }

  /** The message of that id, if it is here, is the one that is awaited. */
  lemma AwaitableIs(q: Queue<nat>, id: string)
    requires QueueInv(q)
    ensures var k := IndexOf(Contents(q.pending), id);
            forall x: Entry<nat> :: Has(q, x) && x.content.id == id ==>
              if id in q.inFlight then x == q.inFlight[id] else k < |q.pending| && x == q.pending[k]
    ensures id in q.inFlight ==> q.inFlight[id].content.id == id
  {
    hide Lives, Balance, Ordered, IndexOf;
    var k := IndexOf(Contents(q.pending), id);
    forall x: Entry<nat> | Has(q, x) && x.content.id == id
      ensures if id in q.inFlight then x == q.inFlight[id] else k < |q.pending| && x == q.pending[k]
    {
      if id in q.inFlight {
        NotTwice(q, x, q.inFlight[id]);
      } else {
        var j :| 0 <= j < |q.pending| && q.pending[j] == x;
        assert Contents(q.pending)[j].id == id;
        assert Contents(q.pending)[k].id == id;
        NotTwice(q, x, q.pending[k]);
      }
    }
  }

  lemma AwaitedOne(q: Queue<nat>, c: nat, id: string, closed: set<nat>)
    requires QueueInv(q)
    ensures Awaited(q, QO.AwaitOne(q, c, id, closed), c, [id], closed)
  {
    hide QueueInv, IndexOf;
    AwaitableIs(q, id);
    var q', k := QO.AwaitOne(q, c, id, closed), IndexOf(Contents(q.pending), id);
    if id in q.inFlight {
      var e := q.inFlight[id];
      assert Has(q, e);
      forall x': Entry<nat> | Has(q', x') ensures ReroutedFrom(q, x', c, [id]) && (x'.content.id == id && e.content.rpc && e.response.Some? ==> c in closed) {
        if x' in q.pending {
          PendingIsPlain(q, x');
        }
        if x'.content.id == id {
          assert x' == Rerouted(e, c, [id]);
        } else {
          assert Has(q, x') && x' == Rerouted(x', c, [id]);
        }
      }
    } else {
      forall x': Entry<nat> | Has(q', x') ensures ReroutedFrom(q, x', c, [id]) && (x'.content.id == id ==> x'.response == None) {
        WaitingRerouted(q, c, id, closed, x');
      }
    }
  }

  lemma WaitingRerouted(q: Queue<nat>, c: nat, id: string, closed: set<nat>, x': Entry<nat>)
    requires QueueInv(q) && id !in q.inFlight && Has(QO.AwaitOne(q, c, id, closed), x')
    ensures ReroutedFrom(q, x', c, [id]) && (x'.content.id == id ==> x'.response == None)
  {
    hide Lives, Balance, Ordered, IndexOf;
    AwaitableIs(q, id);
    var q', k := QO.AwaitOne(q, c, id, closed), IndexOf(Contents(q.pending), id);
    if x' in q'.pending {
      var j :| 0 <= j < |q.pending| && q'.pending[j] == x';
      assert Has(q, q.pending[j]) && Contents(q.pending)[j].id == q.pending[j].content.id;
      assert q.pending[j].content.id == id ==> j == k by {
        assert k < |q.pending| ==> Contents(q.pending)[k].id == id;
      }
      PendingIsPlain(q, q.pending[j]);
      assert x' == Rerouted(q.pending[j], c, [id]);
    } else {
      assert Has(q, x') && x' == Rerouted(x', c, [id]);
    }
  }

  lemma AwaitedMore(q: Queue<nat>, q': Queue<nat>, q'': Queue<nat>, c: nat, ids: seq<string>, id: string, closed: set<nat>)
    requires Awaited(q, q', c, ids, closed) && Awaited(q', q'', c, [id], closed)
    ensures Awaited(q, q'', c, ids + [id], closed)
  {
    forall x'': Entry<nat> | Has(q'', x'')
      ensures ReroutedFrom(q, x'', c, ids + [id])
      ensures x''.content.id in ids + [id] && x''.content.rpc && x''.response.Some? ==> c in closed
    {
      var x': Entry<nat> :| Has(q', x') && x'' == Rerouted(x', c, [id]);
      assert ReroutedFrom(q, x', c, ids);
      var x: Entry<nat> :| Has(q, x) && x' == Rerouted(x, c, ids);
      assert x'' == Rerouted(x, c, ids + [id]);
    }
    forall k | |q.log| <= k < |q''.log| && q''.log[k].Sent? ensures q''.log[k].receiver == c && c !in closed && ThereFor(q, q''.log[k].message, ids + [id]) {
      if k < |q'.log| {
        assert q''.log[k] == q'.log[k];
        SeenBefore(q, q'.log[k].message, ids, id);
      } else {
        ThereBefore(q, q', q''.log[k].message, c, ids, id);
      }
    }
  }

  lemma SeenBefore(q: Queue<nat>, m: BrokerMessage, ids: seq<string>, id: string)
    requires ThereFor(q, m, ids)
    ensures ThereFor(q, m, ids + [id])
  {
    var x: Entry<nat> :| Has(q, x) && x.content.id in ids && x.content.rpc && m.content == x.content && m.response == x.response && x.response.Some?;
    assert x.content.id in ids + [id];
  }

  lemma ThereBefore(q: Queue<nat>, q': Queue<nat>, m: BrokerMessage, c: nat, ids: seq<string>, id: string)
    requires ThereFor(q', m, [id]) && forall x': Entry<nat> :: Has(q', x') ==> ReroutedFrom(q, x', c, ids)
    ensures ThereFor(q, m, ids + [id])
  {
    var x': Entry<nat> :| Has(q', x') && x'.content.id in [id] && x'.content.rpc && m.content == x'.content && m.response == x'.response && x'.response.Some?;
    assert ReroutedFrom(q, x', c, ids);
    var x: Entry<nat> :| Has(q, x) && x' == Rerouted(x, c, ids);
    assert x.content.id in ids + [id];
  }

  lemma {:induction false} AwaitedEach(q: Queue<nat>, c: nat, ids: seq<string>, closed: set<nat>)
    requires QueueInv(q)
    ensures Awaited(q, QO.AwaitEach(q, c, ids, closed), c, ids, closed)
  {
    hide QueueInv, Awaited, QO.AwaitOne;
    if ids == [] {
      AwaitedNone(q, c, closed);
    } else {
      var init, id := ids[..|ids| - 1], ids[|ids| - 1];
      assert ids == init + [id];
      AwaitedEach(q, c, init, closed);
      QO.AwaitKeeps(q, c, init, closed);
      AwaitedOne(QO.AwaitEach(q, c, init, closed), c, id, closed);
      AwaitedMore(q, QO.AwaitEach(q, c, init, closed), QO.AwaitEach(q, c, ids, closed), c, init, id, closed);
    }
  }

  lemma AwaitedAll(q: Queue<nat>, c: nat, ids: seq<string>, closed: set<nat>, now: int)
    requires QueueInv(q)
    ensures Awaited(q, QO.Await(q, c, ids, closed, now), c, ids, closed)
  {
    hide QueueInv, QO.AwaitEach, ReroutedFrom, ThereFor;
    AwaitedEach(q, c, ids, closed);
    var q', q'' := QO.AwaitEach(q, c, ids, closed), QO.Await(q, c, ids, closed, now);
    assert forall x: Entry<nat> :: Has(q'', x) <==> Has(q', x);
  }
}
