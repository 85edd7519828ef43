/** What is known of every message in every run: as it was published, who waits for its answer, and the answer. */
module Answers {
  import opened Options
  import opened Messages
  import opened Consumers
  import opened QueueModel
  import QO = QueueOperations
  import opened Interleaving
  import opened RoomSteps
  import opened BrokerSafety
  import opened BrokerHistories
  import opened Moments
  import opened Origins

  // ------------------------------------------------------------ what the steps tell of one message

  /** What was published and when, who asked for the answer last, and the last answer with its time. */
  datatype Papers = Papers(content: Content, ttl: int, born: int, asker: Option<nat>, answer: Option<(string, int)>)

  /** The answer this step gives to a message, if it gives one. */
  ghost function AnswerGiven(w: World, e: Event, i: nat, id: string): Option<string>
    requires Enabled(w, e) && i in w.rooms
  {
    var q, s := w.rooms[i].q, w.rooms[i].section;
    if e.Ask? && e.i == i && e.id == id && exists x: Entry<nat> :: x.content.id == id && CanBeAnswered(q, x, e.includeUndelivered, w.now) then Some(e.response)
    else if e.AnswerEnd? && e.i == i && s.id == id && id in q.inFlight && q.inFlight[id].content.rpc then Some(s.response)
    else None
  }

  ghost predicate PublishedNow(w: World, e: Event, i: nat)
    requires i in w.rooms
  {
    e.Publish? && e.i == i && !w.rooms[i].q.removed
  }

  ghost function PapersNext(w: World, e: Event, i: nat, id: string, before: Option<Papers>): Option<Papers>
    requires Enabled(w, e) && i in w.rooms
  {
    if PublishedNow(w, e, i) && e.content.id == id then Some(Papers(e.content, e.ttl, w.now, if e.content.rpc then e.replyTo else None, None))
    else
      match before
      case None => None
      case Some(p) =>
        if e.Await? && e.i == i && id in e.ids && p.content.rpc then Some(p.(asker := Some(e.c)))
        else
          match AnswerGiven(w, e, i, id)
          case None => before
          case Some(response) => Some(p.(answer := Some((response, w.now))))
  }

  /** What the first n steps of a run tell of a message of a queue. */
  ghost function PapersAt(now: int, es: seq<Event>, i: nat, id: string, n: nat): Option<Papers>
    requires Possible(Start(now), es) && n <= |es|
  {
    if n == 0 || i !in At(now, es, n - 1).rooms then None
    else
      AtNext(now, es, n - 1);
      PapersNext(At(now, es, n - 1), es[n - 1], i, id, PapersAt(now, es, i, id, n - 1))
  }

  ghost predicate Matches(p: Option<Papers>, x: Entry<nat>) {
    && p.Some? && p.value.content == x.content && p.value.ttl == x.ttl && p.value.born == x.born && p.value.asker == x.replyTo
    && match p.value.answer
       case None => x.response == None
       case Some(given) => x.response == Some(given.0) && x.answeredAt == given.1
  }

  // ------------------------------------------------------------ one step of one queue

  /** What a step does to what is known of the messages of a queue, case by case. */
  ghost predicate Told(w: World, e: Event, i: nat, q': Queue<nat>)
    requires Enabled(w, e) && i in w.rooms
  {
    var q, closed := w.rooms[i].q, ClosedOf(w.clients);
    if PublishedNow(w, e, i) then
      && NoneSent(q.log, q'.log) && LifeOf(q.log, e.content.id) == Some(Unborn)
      && forall x: Entry<nat> :: Has(q', x) ==> Has(q, x) || x == Entry(e.content, e.ttl, w.now, None, 0, None, if e.content.rpc then e.replyTo else None)
    else if e.Await? && e.i == i then Awaited(q, q', e.c, e.ids, closed)
    else
      || (Plain(q, q') && forall id :: AnswerGiven(w, e, i, id) == None)
      || exists x: Entry<nat> :: AnsweredBy(w, e, i, q', x)
  }

  ghost predicate AnsweredBy(w: World, e: Event, i: nat, q': Queue<nat>, x: Entry<nat>)
    requires Enabled(w, e) && i in w.rooms
  {
    && AnswerGiven(w, e, i, x.content.id).Some?
    && GivenAnswer(w.rooms[i].q, q', x, AnswerGiven(w, e, i, x.content.id).value, ClosedOf(w.clients), w.now)
    && forall id :: id != x.content.id ==> AnswerGiven(w, e, i, id) == None
  }

  lemma ToldPlainly(w: World, e: Event, i: nat, q': Queue<nat>)
    requires Enabled(w, e) && i in w.rooms && Plain(w.rooms[i].q, q') && !PublishedNow(w, e, i)
    requires !(e.Await? && e.i == i) && !(e.Ask? && e.i == i) && !(e.AnswerEnd? && e.i == i)
    ensures Told(w, e, i, q')
  {
    hide Plain, GivenAnswer;
  }

  lemma ToldOfPublish(w: World, e: Event, i: nat)
    requires Enabled(w, e) && i in w.rooms && PublishedNow(w, e, i)
    ensures Told(w, e, i, ByRoom(w, e, i))
  {
  }

  lemma ToldOfAsk(w: World, e: Event, i: nat)
    requires Enabled(w, e) && i in w.rooms && QueueInv(w.rooms[i].q) && e.Ask? && e.i == i
    ensures Told(w, e, i, ByRoom(w, e, i))
  {
    hide QueueInv, Plain, GivenAnswer, QO.AnswerAsked, CanBeAnswered, ClosedOf;
    var x := AnsweredAsked(w.rooms[i].q, e.id, e.response, e.includeUndelivered, ClosedOf(w.clients), w.now);
    if x.Some? {
      assert AnsweredBy(w, e, i, ByRoom(w, e, i), x.value);
    }
  }

  lemma ToldOfRoom(w: World, e: Event, i: nat)
    requires Enabled(w, e) && e.OfRoom() && i in w.rooms && QueueInv(w.rooms[i].q)
    ensures Told(w, e, i, ByRoom(w, e, i))
  {
    hide QueueInv, Plain, Told, Awaited, ClosedOf, QO.Publish, QO.Take, QO.AnswerAsked, QO.Collect, QO.Await, QO.Purge, QO.Sweep, QO.Track;
    var q, now := w.rooms[i].q, w.now;
    if e.i != i || (e.Publish? && q.removed) {
      PlainSame(q, q);
      ToldPlainly(w, e, i, q);
    } else {
      match e
      case Publish(_, _, _, _) => ToldOfPublish(w, e, i);
      case Ask(_, _, _, _) => ToldOfAsk(w, e, i);
      case Await(_, c, ids) => ToldOfAwait(w, e, i);
      case Take(_) =>
        PlainTake(q, now);
        ToldPlainly(w, e, i, QO.Take(q, now));
      case Collect(_, id) =>
        PlainCollect(q, id, now);
        ToldPlainly(w, e, i, QO.Collect(q, id, now));
      case Purge(_) =>
        PlainPurge(q);
        PlainTrack(QO.Purge(q), now);
        PlainThen(q, QO.Purge(q), QO.Track(QO.Purge(q), now));
        ToldPlainly(w, e, i, QO.Track(QO.Purge(q), now));
      case Sweep(_, order) =>
        PlainSweep(q, order, now);
        ToldPlainly(w, e, i, QO.Sweep(q, order, now));
    }
  }

  lemma ToldOfAwait(w: World, e: Event, i: nat)
    requires Enabled(w, e) && i in w.rooms && QueueInv(w.rooms[i].q) && e.Await? && e.i == i
    ensures Told(w, e, i, ByRoom(w, e, i))
  {
    hide QueueInv, Awaited, QO.Await, ClosedOf;
    AwaitedAll(w.rooms[i].q, e.c, e.ids, ClosedOf(w.clients), w.now);
  }

  lemma PlainChecked(q: Queue<nat>, now: int)
    ensures Plain(q, Checked(q, now).q)
  {
    hide Plain, QO.DropDead, QO.Track;
    PlainTrack(q, now);
    PlainDropDead(q, now);
    PlainTrack(QO.DropDead(q, now), now);
    PlainThen(q, QO.DropDead(q, now), QO.Track(QO.DropDead(q, now), now));
  }

  lemma ToldOfDispatch(w: World, e: Event, i: nat)
    requires Enabled(w, e) && e.OfDispatch() && i in w.rooms
    ensures Told(w, e, i, ByDispatch(w, e, i))
  {
    hide Plain, Told, Checked, QO.PushHead, QO.Track, Candidate;
    var q := w.rooms[i].q;
    PlainSame(q, q);
    if e.i == i {
      if e.Check? {
        PlainChecked(q, w.now);
      } else if e.Try? {
        PlainTrack(q, w.now);
        PlainSame(q, q.(next := QueueTried(w, i).next));
      } else if q.pending != [] {
        PlainPush(q, w.rooms[i].section.taker);
      }
    }
    ToldPlainly(w, e, i, ByDispatch(w, e, i));
  }

  lemma ToldOfAnswer(w: World, e: Event, i: nat)
    requires Enabled(w, e) && i in w.rooms && QueueInv(w.rooms[i].q) && e.AnswerEnd? && e.i == i
    requires QO.Holds(w.rooms[i].q, w.rooms[i].section.answerer, w.rooms[i].section.id)
    ensures Told(w, e, i, BySettling(w, e, i))
  {
    hide QueueInv, Plain, GivenAnswer, QO.AnswerHeld, ClosedOf;
    var q, s := w.rooms[i].q, w.rooms[i].section;
    if q.inFlight[s.id].content.rpc {
      QO.FlyingId(q, s.id);
      AnsweredHeld(q, s.answerer, s.id, s.response, ClosedOf(w.clients), w.now);
      assert AnsweredBy(w, e, i, BySettling(w, e, i), q.inFlight[s.id]);
    } else {
      PlainAnswer(q, s.answerer, s.id, s.response, ClosedOf(w.clients), w.now);
    }
  }

  lemma ToldOfSettling(w: World, e: Event, i: nat)
    requires Enabled(w, e) && e.OfSettling() && i in w.rooms && QueueInv(w.rooms[i].q)
    requires w.rooms[i].section.Answering? ==> QO.Holds(w.rooms[i].q, w.rooms[i].section.answerer, w.rooms[i].section.id)
    ensures Told(w, e, i, BySettling(w, e, i))
  {
    hide QueueInv, Plain, Told, QO.Confirm, QO.AnswerHeld, ClosedOf;
    var q := w.rooms[i].q;
    if e.i == i && e.AnswerEnd? {
      ToldOfAnswer(w, e, i);
    } else {
      PlainSame(q, q);
      if e.Confirm? {
        PlainConfirm(q, e.c, e.id, w.now);
      }
      ToldPlainly(w, e, i, BySettling(w, e, i));
    }
  }

  lemma ToldOfLeaving(w: World, e: Event, i: nat)
    requires Enabled(w, e) && e.OfLeaving() && i in w.rooms && QueueInv(w.rooms[i].q)
    ensures Told(w, e, i, ByLeaving(w, e, i))
  {
    hide QueueInv, Plain, Told, QO.Abandon, QO.Track;
    var q := w.rooms[i].q;
    if e.Abandon? && w.clients[e.c].stage.inst == i && QO.Holds(q, e.c, w.clients[e.c].stage.id) {
      QO.FlyingId(q, w.clients[e.c].stage.id);
      PlainAbandon(q, e.c, w.clients[e.c].stage.id, w.now);
    } else {
      PlainSame(q, ByLeaving(w, e, i));
    }
    ToldPlainly(w, e, i, ByLeaving(w, e, i));
  }

  lemma ToldOfBroker(w: World, e: Event, i: nat)
    requires Enabled(w, e) && e.OfBroker() && i in w.rooms
    ensures Told(w, e, i, ByBroker(w, e, i))
  {
    hide Plain, Told;
    PlainSame(w.rooms[i].q, ByBroker(w, e, i));
    ToldPlainly(w, e, i, ByBroker(w, e, i));
  }

  lemma ToldOfBinding(w: World, e: Event, i: nat)
    requires Enabled(w, e) && e.OfBinding() && i in w.rooms
    ensures Told(w, e, i, ByBinding(w, e, i))
  {
    hide Plain, Told, QO.WithoutFirst;
    PlainSame(w.rooms[i].q, ByBinding(w, e, i));
    ToldPlainly(w, e, i, ByBinding(w, e, i));
  }

  lemma ToldOfTask(w: World, e: Event, i: nat)
    requires Enabled(w, e) && e.OfTask() && i in w.rooms
    ensures Told(w, e, i, w.rooms[i].q)
  {
    hide Plain, Told;
    PlainSame(w.rooms[i].q, w.rooms[i].q);
    ToldPlainly(w, e, i, w.rooms[i].q);
  }

  lemma AnsweringHolds(w: World, h: Tokens, i: nat)
    requires Inv(w, h) && i in w.rooms
    ensures QueueInv(w.rooms[i].q)
    ensures w.rooms[i].section.Answering? ==> QO.Holds(w.rooms[i].q, w.rooms[i].section.answerer, w.rooms[i].section.id)
  {
    hide QueueInv;
    assert RoomOk(i, w.rooms[i], h);
  }

  lemma ToldStep(w: World, h: Tokens, e: Event, i: nat)
    requires Inv(w, h) && Enabled(w, e) && i in w.rooms
    ensures i in Step(w, e).rooms && Told(w, e, i, Step(w, e).rooms[i].q)
  {
    hide Inv, QueueInv, Enabled, Told, Step, ByBroker, ByRoom, ByDispatch, BySettling, ByBinding, ByLeaving;
    AnsweringHolds(w, h, i);
    AfterStep(w, e, i);
    if e.OfRoom() {
      ToldOfRoom(w, e, i);
    } else if e.OfDispatch() {
      ToldOfDispatch(w, e, i);
    } else if e.OfSettling() {
      ToldOfSettling(w, e, i);
    } else if e.OfLeaving() {
      ToldOfLeaving(w, e, i);
    } else if e.OfBroker() {
      ToldOfBroker(w, e, i);
    } else if e.OfBinding() {
      ToldOfBinding(w, e, i);
    } else {
      ToldOfTask(w, e, i);
    }
  }

  // ------------------------------------------------------------ what every run keeps

  /** Everything here is as the steps so far tell. */
  ghost predicate Known(now: int, es: seq<Event>, i: nat, n: nat)
    requires Possible(Start(now), es) && n <= |es|
  {
    i in At(now, es, n).rooms ==>
      forall x: Entry<nat> :: Has(At(now, es, n).rooms[i].q, x) ==> Matches(PapersAt(now, es, i, x.content.id, n), x)
  }

  /** An answer that is kept here is waited for by nobody, or by somebody who is closed. */
  ghost predicate KeptOnly(q: Queue<nat>, closed: set<nat>) {
    forall x: Entry<nat> :: Has(q, x) && x.response.Some? && x.replyTo.Some? ==> x.replyTo.value in closed
  }

  lemma NotHereYet(q: Queue<nat>, x: Entry<nat>)
    requires QueueInv(q) && Has(q, x)
    ensures LifeOf(q.log, x.content.id) != Some(Unborn)
  {
    hide Balance, Ordered, LifeOf;
    if x in q.pending {
      var k :| 0 <= k < |q.pending| && q.pending[k] == x;
      LiveWaiting(q, k);
    } else {
      LiveFlying(q, x.content.id);
    }
  }

  lemma PapersAfter(now: int, es: seq<Event>, i: nat, id: string, n: nat, m: nat)
    requires Possible(Start(now), es) && n < |es| && m == n + 1 && i in At(now, es, n).rooms
    ensures Enabled(At(now, es, n), es[n])
    ensures PapersAt(now, es, i, id, m) == PapersNext(At(now, es, n), es[n], i, id, PapersAt(now, es, i, id, n))
  {
    hide Enabled, Step, At, PapersNext;
    AtNext(now, es, n);
  }

  /** One message after a step that tells nothing of it. */
  lemma KnownPlain(w: World, e: Event, i: nat, q': Queue<nat>, x': Entry<nat>, before: Option<Papers>)
    requires Enabled(w, e) && i in w.rooms && CameAs(w.rooms[i].q, x') && !PublishedNow(w, e, i) && !(e.Await? && e.i == i)
    requires AnswerGiven(w, e, i, x'.content.id) == None
    requires forall x: Entry<nat> :: Has(w.rooms[i].q, x) && x.content.id == x'.content.id ==> Matches(before, x)
    ensures Matches(PapersNext(w, e, i, x'.content.id, before), x')
  {
    hide Enabled, AnswerGiven, Has;
  }

  lemma KnownPublished(w: World, e: Event, i: nat, q': Queue<nat>, x': Entry<nat>, before: Option<Papers>)
    requires Enabled(w, e) && i in w.rooms && PublishedNow(w, e, i) && Told(w, e, i, q') && Has(q', x') && QueueInv(w.rooms[i].q)
    requires Has(w.rooms[i].q, x') ==> Matches(before, x')
    ensures Matches(PapersNext(w, e, i, x'.content.id, before), x')
  {
    hide Enabled, AnswerGiven, QueueInv, NoneSent, LifeOf;
    if Has(w.rooms[i].q, x') {
      NotHereYet(w.rooms[i].q, x');
      assert AnswerGiven(w, e, i, x'.content.id) == None by { NoAnswer(w, e, i, x'.content.id); }
    }
  }

  lemma NoAnswer(w: World, e: Event, i: nat, id: string)
    requires Enabled(w, e) && i in w.rooms && !e.Ask? && !e.AnswerEnd?
    ensures AnswerGiven(w, e, i, id) == None
  {
  }

  lemma KnownAwaited(w: World, e: Event, i: nat, q': Queue<nat>, x': Entry<nat>, before: Option<Papers>)
    requires Enabled(w, e) && i in w.rooms && e.Await? && e.i == i && Told(w, e, i, q') && Has(q', x')
    requires forall x: Entry<nat> :: Has(w.rooms[i].q, x) && x.content.id == x'.content.id ==> Matches(before, x)
    ensures Matches(PapersNext(w, e, i, x'.content.id, before), x')
  {
    hide Enabled, AnswerGiven, Has, ThereFor, ClosedOf;
    NoAnswer(w, e, i, x'.content.id);
    assert ReroutedFrom(w.rooms[i].q, x', e.c, e.ids);
  }

  lemma KnownAnswered(w: World, e: Event, i: nat, q': Queue<nat>, x: Entry<nat>, x': Entry<nat>, before: Option<Papers>)
    requires Enabled(w, e) && i in w.rooms && !PublishedNow(w, e, i) && !(e.Await? && e.i == i) && AnsweredBy(w, e, i, q', x) && Has(q', x')
    requires forall y: Entry<nat> :: Has(w.rooms[i].q, y) && y.content.id == x'.content.id ==> Matches(before, y)
    ensures Matches(PapersNext(w, e, i, x'.content.id, before), x')
  {
    hide Enabled, AnswerGiven, Has, SentTo, ClosedOf;
  }

  lemma KnownNext(now: int, es: seq<Event>, i: nat, n: nat, m: nat)
    requires Possible(Start(now), es) && n < |es| && m == n + 1 && i in At(now, es, n).rooms && i in At(now, es, m).rooms
    requires QueueInv(At(now, es, n).rooms[i].q) && Known(now, es, i, n)
    requires Enabled(At(now, es, n), es[n]) && Told(At(now, es, n), es[n], i, At(now, es, m).rooms[i].q)
    ensures Known(now, es, i, m)
  {
    hide Enabled, At, QueueInv, PapersAt, PapersNext, AnswerGiven, Has, Matches, Told, PublishedNow;
    var w, e, q' := At(now, es, n), es[n], At(now, es, m).rooms[i].q;
    forall x': Entry<nat> | Has(q', x') ensures Matches(PapersAt(now, es, i, x'.content.id, m), x') {
      var id := x'.content.id;
      PapersAfter(now, es, i, id, n, m);
      KnownOne(w, e, i, q', x', PapersAt(now, es, i, id, n));
    }
  }

  lemma KnownOne(w: World, e: Event, i: nat, q': Queue<nat>, x': Entry<nat>, before: Option<Papers>)
    requires Enabled(w, e) && i in w.rooms && Told(w, e, i, q') && Has(q', x') && QueueInv(w.rooms[i].q)
    requires forall x: Entry<nat> :: Has(w.rooms[i].q, x) && x.content.id == x'.content.id ==> Matches(before, x)
    ensures Matches(PapersNext(w, e, i, x'.content.id, before), x')
  {
    hide Enabled, QueueInv, PapersNext, AnswerGiven, Has, Matches, PublishedNow, CameAs, NoneSent, Awaited, LifeOf, AnsweredBy;
    if PublishedNow(w, e, i) {
      KnownPublished(w, e, i, q', x', before);
    } else if e.Await? && e.i == i {
      KnownAwaited(w, e, i, q', x', before);
    } else if Plain(w.rooms[i].q, q') && forall id :: AnswerGiven(w, e, i, id) == None {
      KnownPlain(w, e, i, q', x', before);
    } else {
      var x: Entry<nat> :| AnsweredBy(w, e, i, q', x);
      KnownAnswered(w, e, i, q', x, x', before);
    }
  }

  lemma NothingHere(name: string, settings: Settings, x: Entry<nat>)
    ensures !Has(NewQueue(name, settings), x)
  {
  }

  lemma {:induction false} AlwaysKnown(now: int, es: seq<Event>, i: nat, n: nat)
    requires Possible(Start(now), es) && n <= |es|
    ensures Known(now, es, i, n)
    decreases n
  {
    hide Enabled, Step, At, Inv, QueueInv, PapersAt, Has, Matches, Told, Known;
    if n == 0 {
      AtFirst(now, es);
      KnownStart(now, es, i);
    } else {
      var w, e := At(now, es, n - 1), es[n - 1];
      AtNext(now, es, n - 1);
      AlwaysKnown(now, es, i, n - 1);
      if i in w.rooms {
        var h := Before(now, es, n - 1);
        AnsweringHolds(w, h, i);
        ToldStep(w, h, e, i);
        KnownNext(now, es, i, n - 1, n);
      } else {
        RoomsStay(w, e);
        KnownNew(now, es, i, n);
      }
    }
  }

  lemma KnownStart(now: int, es: seq<Event>, i: nat)
    requires Possible(Start(now), es) && At(now, es, 0) == Start(now)
    ensures Known(now, es, i, 0)
  {
  }

  lemma KnownNew(now: int, es: seq<Event>, i: nat, n: nat)
    requires Possible(Start(now), es) && 0 < n <= |es| && i !in At(now, es, n - 1).rooms
    requires RoomsAre(At(now, es, n - 1), es[n - 1], At(now, es, n))
    ensures Known(now, es, i, n)
  {
    hide At, PapersAt, Has, Matches;
    if i in At(now, es, n).rooms {
      forall x: Entry<nat> ensures !Has(At(now, es, n).rooms[i].q, x) {
        NothingHere(es[n - 1].name, es[n - 1].settings, x);
      }
    }
  }

  /**
   * In every run, whatever waits or is in flight is as it was published: its content, its own time to live
   * and the moment it came. Its answer goes to the consumer that asked for it last, or to the one it was
   * published with, and the answer it holds is the last one given, with the moment it was given at.
   */
  lemma KnownInEveryRun(now: int, es: seq<Event>, i: nat, n: nat, x: Entry<nat>)
    requires Possible(Start(now), es) && n <= |es| && i in At(now, es, n).rooms
    requires x in At(now, es, n).rooms[i].q.pending || (x.content.id in At(now, es, n).rooms[i].q.inFlight && At(now, es, n).rooms[i].q.inFlight[x.content.id] == x)
    ensures Matches(PapersAt(now, es, i, x.content.id, n), x)
  {
    hide At, PapersAt, Matches;
    AlwaysKnown(now, es, i, n);
    assert Has(At(now, es, n).rooms[i].q, x);
  }

  // ------------------------------------------------------------ no answer is left lying

  lemma ClosedGrows(w: World, e: Event)
    requires Enabled(w, e)
    ensures ClosedOf(w.clients) <= ClosedOf(Step(w, e).clients)
  {
    hide Enabled, Step;
    forall c | c in ClosedOf(w.clients) ensures c in ClosedOf(Step(w, e).clients) {
      ClientsNext(w, e, c);
    }
  }

  lemma KeptNext(w: World, e: Event, i: nat, q': Queue<nat>)
    requires Enabled(w, e) && i in w.rooms && Told(w, e, i, q') && KeptOnly(w.rooms[i].q, ClosedOf(w.clients))
    ensures KeptOnly(q', ClosedOf(w.clients))
  {
    hide Enabled, AnswerGiven, Has, NoneSent, SentTo, ThereFor, ClosedOf, LifeOf;
    var q, closed := w.rooms[i].q, ClosedOf(w.clients);
    forall x': Entry<nat> | Has(q', x') && x'.response.Some? && x'.replyTo.Some? ensures x'.replyTo.value in closed {
      if PublishedNow(w, e, i) {
        assert Has(q, x');
      } else if e.Await? && e.i == i {
        assert ReroutedFrom(q, x', e.c, e.ids);
      } else if Plain(q, q') {
        assert CameAs(q, x');
      } else {
        var x: Entry<nat> :| AnsweredBy(w, e, i, q', x);
      }
    }
  }

  lemma {:induction false} AlwaysKept(now: int, es: seq<Event>, i: nat, n: nat)
    requires Possible(Start(now), es) && n <= |es| && i in At(now, es, n).rooms
    ensures KeptOnly(At(now, es, n).rooms[i].q, ClosedOf(At(now, es, n).clients))
    decreases n
  {
    hide Enabled, Step, At, Inv, Has, Told, ClosedOf, KeptOnly;
    if n == 0 {
      AtFirst(now, es);
      assert false;
    }
    var w, e := At(now, es, n - 1), es[n - 1];
    AtNext(now, es, n - 1);
    RoomsStay(w, e);
    if i in w.rooms {
      AlwaysKept(now, es, i, n - 1);
      var h := Before(now, es, n - 1);
      ToldStep(w, h, e, i);
      KeptNext(w, e, i, Step(w, e).rooms[i].q);
      ClosedGrows(w, e);
      KeptLonger(Step(w, e).rooms[i].q, ClosedOf(w.clients), ClosedOf(Step(w, e).clients));
    } else {
      KeptNew(e.name, e.settings, ClosedOf(At(now, es, n).clients));
    }
  }

  lemma KeptLonger(q: Queue<nat>, closed: set<nat>, more: set<nat>)
    requires KeptOnly(q, closed) && closed <= more
    ensures KeptOnly(q, more)
  {
    hide Has;
  }

  lemma KeptNew(name: string, settings: Settings, closed: set<nat>)
    ensures KeptOnly(NewQueue(name, settings), closed)
  {
    hide Has;
    forall x: Entry<nat> ensures !Has(NewQueue(name, settings), x) {
      NothingHere(name, settings, x);
    }
  }

  /** In every run no answer is left lying in a queue while the consumer that waits for it is connected. */
  lemma NoAnswerIsLeftLying(now: int, es: seq<Event>, i: nat, n: nat, id: string)
    requires Possible(Start(now), es) && n <= |es| && i in At(now, es, n).rooms && id in At(now, es, n).rooms[i].q.inFlight
    ensures var x := At(now, es, n).rooms[i].q.inFlight[id];
            x.response.Some? && x.replyTo.Some? ==>
              x.replyTo.value in At(now, es, n).clients && At(now, es, n).clients[x.replyTo.value].state == Closed
  {
    hide At, Inv, QueueInv;
    AlwaysKept(now, es, i, n);
    var h := Before(now, es, n);
    AnsweringHolds(At(now, es, n), h, i);
    QO.FlyingId(At(now, es, n).rooms[i].q, id);
    assert Has(At(now, es, n).rooms[i].q, At(now, es, n).rooms[i].q.inFlight[id]);
  }

  // ------------------------------------------------------------ to whom an answer is sent

  /** What is sent in a step: the last answer, to whoever asked for it last, who is not closed. */
  ghost predicate SentRight(e: Happening<nat>, p: Option<Papers>, closed: set<nat>)
    requires e.Sent?
  {
    && p.Some? && p.value.content == e.message.content && p.value.asker == Some(e.receiver) && e.receiver !in closed
    && p.value.answer.Some? && e.message.response == Some(p.value.answer.value.0)
  }

  lemma SentSo(w: World, e: Event, i: nat, q': Queue<nat>, k: nat, before: Option<Papers>)
    requires Enabled(w, e) && i in w.rooms && Told(w, e, i, q') && |w.rooms[i].q.log| <= k < |q'.log| && q'.log[k].Sent?
    requires forall x: Entry<nat> :: Has(w.rooms[i].q, x) && x.content.id == q'.log[k].Id() ==> Matches(before, x)
    ensures SentRight(q'.log[k], PapersNext(w, e, i, q'.log[k].Id(), before), ClosedOf(w.clients))
  {
    hide Enabled, AnswerGiven, Has, ClosedOf, LifeOf, ReroutedFrom;
    var q, sent := w.rooms[i].q, q'.log[k];
    if e.Await? && e.i == i {
      assert ThereFor(q, sent.message, e.ids);
    } else {
      assert !Plain(q, q') && !PublishedNow(w, e, i);
      var x: Entry<nat> :| AnsweredBy(w, e, i, q', x);
      assert Has(q, x);
    }
  }

  /**
   * In every run an answer is sent only to the consumer that asked for it last, or with which the message was
   * published when nobody did, and only while that one is not closed; it is the last answer given.
   */
  lemma SentToWhoAskedLast(now: int, es: seq<Event>, i: nat, n: nat, k: nat)
    requires Possible(Start(now), es) && n < |es| && i in At(now, es, n).rooms && i in At(now, es, n + 1).rooms
    requires |At(now, es, n).rooms[i].q.log| <= k < |At(now, es, n + 1).rooms[i].q.log| && At(now, es, n + 1).rooms[i].q.log[k].Sent?
    ensures SentRight(At(now, es, n + 1).rooms[i].q.log[k], PapersAt(now, es, i, At(now, es, n + 1).rooms[i].q.log[k].Id(), n + 1), ClosedOf(At(now, es, n).clients))
  {
    hide Enabled, Step, At, Inv, Has, Told, ClosedOf, PapersAt, Matches, SentRight, PapersNext;
    var w, e, q' := At(now, es, n), es[n], At(now, es, n + 1).rooms[i].q;
    AtNext(now, es, n);
    AlwaysKnown(now, es, i, n);
    var h := Before(now, es, n);
    ToldStep(w, h, e, i);
    PapersAfter(now, es, i, q'.log[k].Id(), n, n + 1);
    SentSo(w, e, i, q', k, PapersAt(now, es, i, q'.log[k].Id(), n));
  }

  /** An answer that is kept is handed to the next one that collects it, and its message is gone then. */
  lemma CollectedNext(w: World, i: nat, id: string)
    requires Enabled(w, Collect(i, id))
    ensures i in w.rooms && i in Step(w, Collect(i, id)).rooms
    ensures var q, q' := w.rooms[i].q, Step(w, Collect(i, id)).rooms[i].q;
            if id in q.inFlight && q.inFlight[id].response.Some?
            then q'.inFlight == q.inFlight - {id} && q'.log == q.log + [Collected(BrokerMessage(q.name, q.inFlight[id].content, q.inFlight[id].response))]
            else q' == q
  {
    hide Step;
    AfterStep(w, Collect(i, id), i);
  }
}
