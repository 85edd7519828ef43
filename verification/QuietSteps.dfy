/** The operations of a queue that leave alone what consumers hold, and bring in no message to deliver. */
module QuietSteps {
  import opened Options
  import opened Messages
  import opened QueueModel
  import QO = QueueOperations

  ghost predicate SameOwners(q: Queue<nat>, q': Queue<nat>) {
    forall c, id :: QO.Holds(q, c, id) <==> QO.Holds(q', c, id)
  }

  ghost predicate SamePlaceOf(q: Queue<nat>, q': Queue<nat>) {
    q'.name == q.name && q'.consumers == q.consumers && (q.removed ==> q'.removed)
  }

  /** What can be delivered after could be delivered before. */
  ghost predicate NoNewWork(q: Queue<nat>, q': Queue<nat>) {
    q'.settings == q.settings && forall e :: e in q'.pending ==> Stood(q, e)
  }

  ghost predicate Stood(q: Queue<nat>, e: Entry<nat>) {
    exists e0 :: e0 in q.pending && e0.ttl == e.ttl && e0.born == e.born
  }

  /** Things happened to messages that were there: none came in, and none was pushed to a consumer. */
  ghost predicate Grew(log: seq<Happening<nat>>, log': seq<Happening<nat>>) {
    log <= log' && forall k :: |log| <= k < |log'| ==> !log'[k].Published? && !log'[k].Pushed?
  }

  ghost predicate Quiet(q: Queue<nat>, q': Queue<nat>) {
    SamePlaceOf(q, q') && SameOwners(q, q') && NoNewWork(q, q') && Grew(q.log, q'.log)
  }

  lemma QuietThen(q: Queue<nat>, q': Queue<nat>, q'': Queue<nat>)
    requires Quiet(q, q') && Quiet(q', q'')
    ensures Quiet(q, q'')
  {
    forall e | e in q''.pending ensures Stood(q, e) {
      assert Stood(q', e);
      var e1 :| e1 in q'.pending && e1.ttl == e.ttl && e1.born == e.born;
      assert Stood(q, e1);
    }
  }

  lemma QuietSame(q: Queue<nat>, q': Queue<nat>)
    requires q'.inFlight == q.inFlight && q'.pending == q.pending && SamePlaceOf(q, q') && q'.settings == q.settings && q'.log == q.log
    ensures Quiet(q, q')
  {
    forall e | e in q'.pending ensures Stood(q, e) {
    }
  }

  lemma QuietTrack(q: Queue<nat>, now: int)
    ensures Quiet(q, QO.Track(q, now))
  {
    QuietSame(q, QO.Track(q, now));
  }

  lemma QuietLeave(q: Queue<nat>, i: nat, e: Happening<nat>)
    requires i < |q.pending| && !e.Published? && !e.Pushed?
    ensures Quiet(q, LeaveLine(q, i, e))
  {
    forall x | x in LeaveLine(q, i, e).pending ensures Stood(q, x) {
      assert x in q.pending;
    }
  }

  lemma QuietTakeOff(q: Queue<nat>, i: nat, entry: Entry<nat>, e: Happening<nat>)
    requires i < |q.pending| && entry.owner == None && entry.content.id !in q.inFlight && !e.Published? && !e.Pushed?
    ensures Quiet(q, TakeOff(q, i, entry, e))
  {
    forall x | x in TakeOff(q, i, entry, e).pending ensures Stood(q, x) {
      assert x in q.pending;
    }
  }

  lemma QuietAlter(q: Queue<nat>, entry: Entry<nat>, e: Happening<nat>)
    requires entry.owner == None && entry.content.id in q.inFlight && q.inFlight[entry.content.id].owner == None && !e.Published? && !e.Pushed?
    ensures Quiet(q, Alter(q, entry, e))
  {
    forall x | x in q.pending ensures Stood(q, x) {
    }
  }

  lemma QuietLand(q: Queue<nat>, id: string, e: Happening<nat>)
    requires id in q.inFlight && q.inFlight[id].owner == None && !e.Published? && !e.Pushed?
    ensures Quiet(q, Land(q, id, e))
  {
    forall x | x in q.pending ensures Stood(q, x) {
    }
  }

  lemma {:induction false} QuietDropDead(q: Queue<nat>, now: int)
    ensures Quiet(q, QO.DropDead(q, now))
    decreases |q.pending|
  {
    hide Quiet, QO.DeadReason;
    if q.pending != [] && QO.DeadReason(q.pending[0], q.settings, now) != None {
      QuietLeave(q, 0, QO.Bury(q, 0, now).log[|q.log|]);
      assert QO.Bury(q, 0, now) == LeaveLine(q, 0, QO.Bury(q, 0, now).log[|q.log|]);
      QuietDropDead(QO.Bury(q, 0, now), now);
      QuietThen(q, QO.Bury(q, 0, now), QO.DropDead(q, now));
    } else {
      ItselfQuiet(q);
    }
  }

  lemma ItselfQuiet(q: Queue<nat>)
    ensures Quiet(q, q)
  {
    QuietSame(q, q);
  }

  lemma HeadAside(q: Queue<nat>)
    requires QueueInv(q) && q.pending != []
    ensures q.pending[0].content.id !in q.inFlight && q.pending[0].owner == None
  {
  }

  lemma QuietTake(q: Queue<nat>, now: int)
    requires QueueInv(q)
    ensures Quiet(q, QO.Take(q, now))
  {
    hide Quiet, QueueInv, QO.DropDead;
    QuietTrack(q, now);
    QuietDropDead(q, now);
    QO.DropDeadKeeps(q, now);
    var live := QO.DropDead(q, now);
    QuietTrack(live, now);
    QuietThen(q, live, QO.Track(live, now));
    if live.pending != [] {
      HeadAside(live);
      var e := live.pending[0];
      var out := if e.content.rpc then TakeOff(live, 0, e, Taken(QO.Snapshot(q, e))) else LeaveLine(live, 0, Taken(QO.Snapshot(q, e)));
      QuietTakeOff(live, 0, e, Taken(QO.Snapshot(q, e)));
      QuietLeave(live, 0, Taken(QO.Snapshot(q, e)));
      QO.DropDeadShortens(q, now);
      QuietTrack(out, now);
      QuietThen(q, live, out);
      QuietThen(q, out, QO.Track(out, now));
    }
  }

  lemma QuietSend(q: Queue<nat>, id: string, closed: set<nat>)
    requires id in q.inFlight && q.inFlight[id].owner == None
    ensures Quiet(q, QO.Send(q, id, closed))
  {
    var e := q.inFlight[id];
    if e.replyTo == None || e.replyTo.value in closed {
      ItselfQuiet(q);
    } else {
      QuietLand(q, id, Sent(QO.Snapshot(q, e), e.replyTo.value));
    }
  }

  lemma QuietReached(q: Queue<nat>, id: string, includeUndelivered: bool)
    requires QueueInv(q)
    ensures Quiet(q, QO.Reached(q, id, includeUndelivered))
  {
    hide Quiet;
    ItselfQuiet(q);
    var k := IndexOf(Contents(q.pending), id);
    if id !in q.inFlight && includeUndelivered && k < |q.pending| {
      assert q.pending[k].content.id == id;
      QuietTakeOff(q, k, q.pending[k], MovedAside(id));
    }
  }

  lemma QuietAsk(q: Queue<nat>, id: string, response: string, includeUndelivered: bool, closed: set<nat>, now: int)
    requires QueueInv(q)
    ensures Quiet(q, QO.AnswerAsked(q, id, response, includeUndelivered, closed, now))
  {
    hide Quiet, QueueInv, QO.Reached, QO.Send, QO.Track;
    var at := QO.Reached(q, id, includeUndelivered);
    QuietReached(q, id, includeUndelivered);
    QO.ReachedKeeps(q, id, includeUndelivered);
    if QO.Accepts(at, id, now) {
      QO.FlyingId(at, id);
      var e := at.inFlight[id];
      var stored := QO.Store(at, id, response, now);
      QuietAlter(at, e.(response := Some(response), answeredAt := now), Stored(id, response, e.response == None));
      QuietSend(stored, id, closed);
      QuietTrack(QO.Send(stored, id, closed), now);
      QuietThen(q, at, stored);
      QuietThen(q, stored, QO.Send(stored, id, closed));
      QuietThen(q, QO.Send(stored, id, closed), QO.Track(QO.Send(stored, id, closed), now));
    }
  }

  lemma QuietCollect(q: Queue<nat>, id: string, now: int)
    requires QueueInv(q)
    ensures Quiet(q, QO.Collect(q, id, now))
  {
    hide Quiet, QueueInv, QO.Track;
    ItselfQuiet(q);
    if id in q.inFlight && q.inFlight[id].response != None {
      QO.FlyingId(q, id);
      var out := Land(q, id, Collected(QO.Snapshot(q, q.inFlight[id])));
      QuietLand(q, id, Collected(QO.Snapshot(q, q.inFlight[id])));
      QuietTrack(out, now);
      QuietThen(q, out, QO.Track(out, now));
    }
  }

  lemma QuietAwaitOne(q: Queue<nat>, c: nat, id: string, closed: set<nat>)
    requires QueueInv(q)
    ensures Quiet(q, QO.AwaitOne(q, c, id, closed))
  {
    hide QueueInv;
    ItselfQuiet(q);
    if QO.Awaitable(q, id) {
      if id in q.inFlight {
        QO.FlyingId(q, id);
        var q' := q.(inFlight := q.inFlight[id := q.inFlight[id].(replyTo := Some(c))]);
        assert SameOwners(q, q');
        assert Quiet(q, q');
        if q.inFlight[id].response != None {
          QuietSend(q', id, closed);
          QuietThen(q, q', QO.Send(q', id, closed));
        }
      } else {
        var k := IndexOf(Contents(q.pending), id);
        var q' := q.(pending := q.pending[k := q.pending[k].(replyTo := Some(c))]);
        forall x | x in q'.pending ensures Stood(q, x) {
          var j :| 0 <= j < |q'.pending| && q'.pending[j] == x;
          assert q.pending[j] in q.pending;
        }
      }
    }
  }

  lemma {:induction false} QuietAwaitEach(q: Queue<nat>, c: nat, ids: seq<string>, closed: set<nat>)
    requires QueueInv(q)
    ensures Quiet(q, QO.AwaitEach(q, c, ids, closed))
  {
    hide Quiet, QueueInv, QO.AwaitOne;
    if ids == [] {
      ItselfQuiet(q);
    } else {
      var init := ids[..|ids| - 1];
      QuietAwaitEach(q, c, init, closed);
      QO.AwaitKeeps(q, c, init, closed);
      QuietAwaitOne(QO.AwaitEach(q, c, init, closed), c, ids[|ids| - 1], closed);
      QuietThen(q, QO.AwaitEach(q, c, init, closed), QO.AwaitEach(q, c, ids, closed));
    }
  }

  lemma QuietAwait(q: Queue<nat>, c: nat, ids: seq<string>, closed: set<nat>, now: int)
    requires QueueInv(q)
    ensures Quiet(q, QO.Await(q, c, ids, closed, now))
  {
    hide Quiet, QueueInv, QO.AwaitEach, QO.Track;
    QuietAwaitEach(q, c, ids, closed);
    QuietTrack(QO.AwaitEach(q, c, ids, closed), now);
    QuietThen(q, QO.AwaitEach(q, c, ids, closed), QO.Await(q, c, ids, closed, now));
  }

  lemma {:induction false} PurgeGrew(q: Queue<nat>)
    ensures Grew(q.log, QO.Purge(q).log)
    decreases |q.pending|
  {
    if q.pending != [] {
      PurgeGrew(LeaveLine(q, 0, Purged(q.pending[0].content.id)));
    }
  }

  lemma QuietPurge(q: Queue<nat>, now: int)
    requires QueueInv(q)
    ensures Quiet(q, QO.Track(QO.Purge(q), now))
  {
    QO.PurgeKeeps(q);
    PurgeGrew(q);
    var out := QO.Purge(q);
    assert out.pending == [] && out.inFlight == q.inFlight && SamePlaceOf(q, out);
    assert Quiet(q, out);
    QuietTrack(out, now);
    QuietThen(q, out, QO.Track(out, now));
  }

  lemma {:induction false} QuietSweepLine(q: Queue<nat>, i: nat, now: int)
    ensures Quiet(q, QO.SweepLine(q, i, now))
    decreases |q.pending| - i
  {
    hide Quiet, QO.DeadReason;
    if i >= |q.pending| {
      ItselfQuiet(q);
    } else if QO.DeadReason(q.pending[i], q.settings, now).Some? {
      var out := QO.Bury(q, i, now);
      QuietLeave(q, i, out.log[|q.log|]);
      assert out == LeaveLine(q, i, out.log[|q.log|]);
      QuietSweepLine(out, i, now);
      QuietThen(q, out, QO.SweepLine(q, i, now));
    } else {
      QuietSweepLine(q, i + 1, now);
    }
  }

  lemma {:induction false} QuietSweepFlight(q: Queue<nat>, ids: seq<string>, now: int)
    ensures Quiet(q, QO.SweepFlight(q, ids, now))
  {
    hide Quiet;
    if ids == [] {
      ItselfQuiet(q);
    } else {
      var swept, id := QO.SweepFlight(q, ids[..|ids| - 1], now), ids[|ids| - 1];
      QuietSweepFlight(q, ids[..|ids| - 1], now);
      if id in swept.inFlight && QO.Stale(swept.inFlight[id], q.settings, now) {
        QuietLand(swept, id, Dropped(id));
        QuietThen(q, swept, QO.SweepFlight(q, ids, now));
      }
    }
  }

  lemma QuietSweep(q: Queue<nat>, order: seq<string>, now: int)
    ensures Quiet(q, QO.Sweep(q, order, now))
  {
    hide Quiet, QO.SweepLine, QO.SweepFlight;
    var line := QO.SweepLine(q, 0, now);
    var flight := QO.SweepFlight(line, order, now);
    QuietSweepLine(q, 0, now);
    QuietSweepFlight(line, order, now);
    QuietThen(q, line, flight);
    QuietTrack(flight, now);
    QuietThen(q, flight, QO.Track(flight, now));
    QuietSame(QO.Track(flight, now), QO.Retire(QO.Track(flight, now), now));
    QuietThen(q, QO.Track(flight, now), QO.Sweep(q, order, now));
  }
}
