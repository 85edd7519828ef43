/** When an unused queue is let go, in every run of the broker. */
module Retirement {
  import opened Options
  import opened Messages
  import opened Consumers
  import opened QueueModel
  import QO = QueueOperations
  import opened Interleaving
  import opened RoomSteps
  import opened BrokerSafety
  import opened Moments

  // ------------------------------------------------------------ one queue

  ghost predicate Idle<C>(q: Queue<C>) {
    q.pending == [] && q.inFlight == map[]
  }

  /** The moment is noted only for as long as the queue is empty. */
  ghost predicate SinceOk<C>(q: Queue<C>) {
    q.emptySince.Some? ==> Idle(q)
  }

  /** The moment noted stays for as long as the queue is empty; it is noted when it became so, or was seen to be. */
  ghost predicate Noted<C>(q: Queue<C>, q': Queue<C>, now: int, seen: bool) {
    && (Idle(q) && Idle(q') ==> q'.log == q.log)
    && (SinceOk(q) ==>
          q'.emptySince ==
          if !Idle(q') then None
          else if q.emptySince.Some? then q.emptySince
          else if seen || !Idle(q) then Some(now)
          else None)
  }

  /** Nothing came in, and nothing is noted yet. */
  ghost predicate Calm<C>(q: Queue<C>, q': Queue<C>) {
    q'.emptySince == q.emptySince && (Idle(q) ==> Idle(q') && q'.log == q.log)
  }

  lemma Unchanged<C>(q: Queue<C>, q': Queue<C>, now: int)
    requires q'.pending == q.pending && q'.inFlight == q.inFlight && q'.emptySince == q.emptySince && q'.log == q.log
    ensures Noted(q, q', now, false)
  {
  }

  lemma CalmThenTracked<C>(q: Queue<C>, q': Queue<C>, now: int, seen: bool)
    requires Calm(q, q') && (seen || !Idle(q))
    ensures Noted(q, QO.Track(q', now), now, seen)
  {
  }

  lemma {:induction false} DropDeadIsCalm<C>(q: Queue<C>, now: int)
    ensures Calm(q, QO.DropDead(q, now))
    decreases |q.pending|
  {
    if q.pending != [] && QO.DeadReason(q.pending[0], q.settings, now) != None {
      DropDeadIsCalm(QO.Bury(q, 0, now), now);
    }
  }

  lemma {:induction false} SweepLineIsCalm<C>(q: Queue<C>, i: nat, now: int)
    ensures Calm(q, QO.SweepLine(q, i, now))
    decreases |q.pending| - i
  {
    if i < |q.pending| {
      if QO.DeadReason(q.pending[i], q.settings, now).Some? {
        SweepLineIsCalm(QO.Bury(q, i, now), i, now);
      } else {
        SweepLineIsCalm(q, i + 1, now);
      }
    }
  }

  lemma {:induction false} SweepFlightIsCalm<C>(q: Queue<C>, ids: seq<string>, now: int)
    ensures Calm(q, QO.SweepFlight(q, ids, now))
  {
    if ids != [] {
      SweepFlightIsCalm(q, ids[..|ids| - 1], now);
    }
  }

  lemma {:induction false} PurgeIsCalm<C>(q: Queue<C>)
    ensures Calm(q, QO.Purge(q))
    decreases |q.pending|
  {
    if q.pending != [] {
      PurgeIsCalm(LeaveLine(q, 0, Purged(q.pending[0].content.id)));
    }
  }

  lemma {:induction false} AwaitIsCalm<C>(q: Queue<C>, c: C, ids: seq<string>, closed: set<C>)
    ensures Calm(q, QO.AwaitEach(q, c, ids, closed))
  {
    if ids != [] {
      AwaitIsCalm(q, c, ids[..|ids| - 1], closed);
      AwaitOneIsCalm(QO.AwaitEach(q, c, ids[..|ids| - 1], closed), c, ids[|ids| - 1], closed);
    }
  }

  lemma AwaitOneIsCalm<C>(q: Queue<C>, c: C, id: string, closed: set<C>)
    ensures Calm(q, QO.AwaitOne(q, c, id, closed))
  {
    hide IndexOf;
  }

  lemma PublishNotes<C>(q: Queue<C>, content: Content, ttl: int, replyTo: Option<C>, now: int)
    ensures Noted(q, QO.Publish(q, content, ttl, replyTo, now), now, false)
  {
  }

  lemma TakeNotes<C>(q: Queue<C>, now: int)
    ensures Noted(q, QO.Take(q, now), now, true)
  {
    hide QO.DropDead, QO.Track;
    DropDeadIsCalm(q, now);
    var live := QO.DropDead(q, now);
    CalmThenTracked(q, q, now, true);
    CalmThenTracked(q, live, now, true);
    if live.pending != [] {
      var e := live.pending[0];
      CalmThenTracked(q, if e.content.rpc then TakeOff(live, 0, e, Taken(QO.Snapshot(q, e))) else LeaveLine(live, 0, Taken(QO.Snapshot(q, e))), now, true);
    }
  }

  lemma AskNotes<C>(q: Queue<C>, id: string, response: string, includeUndelivered: bool, closed: set<C>, now: int)
    ensures Noted(q, QO.AnswerAsked(q, id, response, includeUndelivered, closed, now), now, false)
  {
    hide IndexOf;
    var at := QO.Reached(q, id, includeUndelivered);
    if QO.Accepts(at, id, now) {
      CalmThenTracked(q, QO.Send(QO.Store(at, id, response, now), id, closed), now, false);
    }
  }

  lemma CollectNotes<C>(q: Queue<C>, id: string, now: int)
    ensures Noted(q, QO.Collect(q, id, now), now, false)
  {
  }

  lemma AwaitNotes<C>(q: Queue<C>, c: C, ids: seq<string>, closed: set<C>, now: int)
    ensures Noted(q, QO.Await(q, c, ids, closed, now), now, true)
  {
    hide QO.AwaitEach;
    AwaitIsCalm(q, c, ids, closed);
    CalmThenTracked(q, QO.AwaitEach(q, c, ids, closed), now, true);
  }

  lemma PurgeNotes<C>(q: Queue<C>, now: int)
    ensures Noted(q, QO.Track(QO.Purge(q), now), now, true)
  {
    PurgeIsCalm(q);
    CalmThenTracked(q, QO.Purge(q), now, true);
  }

  /** A sweep lets go of a queue nobody is bound to that has been empty for longer than is allowed. */
  lemma SweepNotes<C>(q: Queue<C>, order: seq<string>, now: int)
    ensures Noted(q, QO.Sweep(q, order, now), now, true)
    ensures var q' := QO.Sweep(q, order, now);
            && q'.consumers == q.consumers && q'.settings == q.settings
            && (q'.removed <==> q.removed || (q.consumers == [] && q'.emptySince.Some? && now - q'.emptySince.value > q.settings.emptyLifetime))
  {
    hide QO.SweepLine, QO.SweepFlight;
    SweepLineIsCalm(q, 0, now);
    SweepFlightIsCalm(QO.SweepLine(q, 0, now), order, now);
    var swept := QO.SweepFlight(QO.SweepLine(q, 0, now), order, now);
    SameQueue(q, 0, order, now);
    CalmThenTracked(q, swept, now, true);
  }

  lemma {:induction false} SweepLineSame<C>(q: Queue<C>, i: nat, now: int)
    ensures var swept := QO.SweepLine(q, i, now); swept.consumers == q.consumers && swept.settings == q.settings && swept.removed == q.removed
    decreases |q.pending| - i
  {
    if i < |q.pending| {
      if QO.DeadReason(q.pending[i], q.settings, now).Some? {
        SweepLineSame(QO.Bury(q, i, now), i, now);
      } else {
        SweepLineSame(q, i + 1, now);
      }
    }
  }

  lemma {:induction false} SweepFlightSame<C>(q: Queue<C>, ids: seq<string>, now: int)
    ensures var swept := QO.SweepFlight(q, ids, now); swept.consumers == q.consumers && swept.settings == q.settings && swept.removed == q.removed
  {
    if ids != [] {
      SweepFlightSame(q, ids[..|ids| - 1], now);
    }
  }

  lemma SameQueue<C>(q: Queue<C>, i: nat, order: seq<string>, now: int)
    ensures var swept := QO.SweepFlight(QO.SweepLine(q, i, now), order, now);
            swept.consumers == q.consumers && swept.settings == q.settings && swept.removed == q.removed
  {
    SweepLineSame(q, i, now);
    SweepFlightSame(QO.SweepLine(q, i, now), order, now);
  }

  lemma CheckNotes(q: Queue<nat>, now: int)
    ensures Noted(q, Checked(q, now).q, now, true)
  {
    hide QO.DropDead, QO.Track;
    DropDeadIsCalm(q, now);
    CalmThenTracked(q, q, now, true);
    CalmThenTracked(q, QO.DropDead(q, now), now, true);
  }

  lemma ConfirmNotes<C>(q: Queue<C>, c: C, id: string, now: int)
    ensures Noted(q, QO.Confirm(q, c, id, now), now, false)
  {
  }

  lemma AnswerNotes<C>(q: Queue<C>, c: C, id: string, response: string, closed: set<C>, now: int)
    ensures Noted(q, QO.AnswerHeld(q, c, id, response, closed, now), now, false)
  {
    if QO.Holds(q, c, id) {
      if q.inFlight[id].content.rpc && q.inFlight[id].content.id == id {
        CalmThenTracked(q, QO.Send(QO.Store(QO.Release(q, c, id), id, response, now), id, closed), now, false);
      }
    }
  }

  lemma PushNotes(q: Queue<nat>, c: nat, now: int)
    requires q.pending != []
    ensures Noted(q, QO.PushHead(q, c), now, false)
  {
    assert q.pending[0].content.id in QO.PushHead(q, c).inFlight;
  }

  lemma AbandonNotes<C>(q: Queue<C>, c: C, id: string, now: int)
    requires QO.Holds(q, c, id)
    ensures Noted(q, if q.settings.redeliver then QO.Abandon(q, c, id, now) else QO.Track(QO.Abandon(q, c, id, now), now), now, false)
  {
    if !q.settings.redeliver {
      CalmThenTracked(q, QO.Abandon(q, c, id, now), now, false);
    }
  }

  // ------------------------------------------------------------ one step

  /** Somebody looks whether the queue is empty, even when nothing leaves it. */
  ghost predicate Looks(e: Event, i: nat) {
    match e
    case Take(j) => j == i
    case Await(j, _, _) => j == i
    case Purge(j) => j == i
    case Sweep(j, _) => j == i
    case Check(j) => j == i
    case _ => false
  }

  /** What a step does to the moment noted in one queue; and only a sweep lets it go. */
  ghost predicate StepNotes(q: Queue<nat>, q': Queue<nat>, now: int, e: Event, i: nat) {
    Noted(q, q', now, Looks(e, i)) && (q'.removed != q.removed ==> e.Sweep? && e.i == i)
  }

  lemma {:induction false} AwaitSame<C>(q: Queue<C>, c: C, ids: seq<string>, closed: set<C>)
    ensures QO.AwaitEach(q, c, ids, closed).removed == q.removed
  {
    hide IndexOf;
    if ids != [] {
      AwaitSame(q, c, ids[..|ids| - 1], closed);
    }
  }

  lemma {:induction false} PurgeSame<C>(q: Queue<C>)
    ensures QO.Purge(q).removed == q.removed
    decreases |q.pending|
  {
    if q.pending != [] {
      PurgeSame(LeaveLine(q, 0, Purged(q.pending[0].content.id)));
    }
  }

  lemma PublishRemoved<C>(q: Queue<C>, content: Content, ttl: int, replyTo: Option<C>, now: int)
    ensures QO.Publish(q, content, ttl, replyTo, now).removed == q.removed
  {
  }

  lemma TakeRemoved<C>(q: Queue<C>, now: int)
    ensures QO.Take(q, now).removed == q.removed
  {
    hide QO.DropDead;
    QO.DropDeadShortens(q, now);
  }

  lemma AskRemoved<C>(q: Queue<C>, id: string, response: string, includeUndelivered: bool, closed: set<C>, now: int)
    ensures QO.AnswerAsked(q, id, response, includeUndelivered, closed, now).removed == q.removed
    ensures QO.Collect(q, id, now).removed == q.removed
  {
    hide IndexOf;
  }

  lemma PurgeRemoved<C>(q: Queue<C>, now: int)
    ensures QO.Track(QO.Purge(q), now).removed == q.removed
  {
    hide QO.Purge;
    PurgeSame(q);
  }

  lemma AwaitRemoved<C>(q: Queue<C>, c: C, ids: seq<string>, closed: set<C>, now: int)
    ensures QO.Await(q, c, ids, closed, now).removed == q.removed
  {
    hide QO.AwaitEach;
    AwaitSame(q, c, ids, closed);
  }

  lemma CheckedRemoved(q: Queue<nat>, now: int)
    ensures Checked(q, now).q.removed == q.removed
  {
    hide QO.DropDead;
    QO.DropDeadShortens(q, now);
  }

  lemma TrackedBusy(q: Queue<nat>, now: int)
    requires q.pending != []
    ensures QO.Track(q, now) == q
  {
  }

  lemma PushRemoved(q: Queue<nat>, c: nat)
    requires q.pending != []
    ensures QO.PushHead(q, c).removed == q.removed
  {
  }

  lemma ConfirmRemoved(q: Queue<nat>, c: nat, id: string, now: int)
    ensures QO.Confirm(q, c, id, now).removed == q.removed
  {
  }

  lemma AnswerRemoved(q: Queue<nat>, c: nat, id: string, response: string, closed: set<nat>, now: int)
    ensures QO.AnswerHeld(q, c, id, response, closed, now).removed == q.removed
  {
  }

  lemma AbandonRemoved(q: Queue<nat>, c: nat, id: string, now: int)
    requires QO.Holds(q, c, id)
    ensures QO.Abandon(q, c, id, now).removed == q.removed && QO.Track(QO.Abandon(q, c, id, now), now).removed == q.removed
  {
  }

  lemma NotesByRoom(w: World, e: Event, i: nat)
    requires Enabled(w, e) && e.OfRoom() && i in w.rooms
    ensures StepNotes(w.rooms[i].q, ByRoom(w, e, i), w.now, e, i)
  {
    hide Noted, QO.Publish, QO.Take, QO.AnswerAsked, QO.Collect, QO.Await, QO.Purge, QO.Sweep, QO.Track, ClosedOf;
    var q, now, closed := w.rooms[i].q, w.now, ClosedOf(w.clients);
    if e.i != i || (e.Publish? && q.removed) {
      Unchanged(q, q, now);
    } else {
      match e
      case Publish(_, content, ttl, replyTo) =>
        PublishNotes(q, content, ttl, replyTo, now);
        PublishRemoved(q, content, ttl, replyTo, now);
      case Take(_) =>
        TakeNotes(q, now);
        TakeRemoved(q, now);
      case Ask(_, id, response, includeUndelivered) =>
        AskNotes(q, id, response, includeUndelivered, closed, now);
        AskRemoved(q, id, response, includeUndelivered, closed, now);
      case Collect(_, id) =>
        CollectNotes(q, id, now);
        AskRemoved(q, id, "", false, {}, now);
      case Await(_, c, ids) =>
        AwaitNotes(q, c, ids, closed, now);
        AwaitRemoved(q, c, ids, closed, now);
      case Purge(_) =>
        PurgeNotes(q, now);
        PurgeRemoved(q, now);
      case Sweep(_, order) => SweepNotes(q, order, now);
    }
  }

  lemma NotesByDispatch(w: World, e: Event, i: nat)
    requires Enabled(w, e) && e.OfDispatch() && i in w.rooms
    requires w.rooms[i].section.Scan? ==> w.rooms[i].q.pending != []
    ensures StepNotes(w.rooms[i].q, ByDispatch(w, e, i), w.now, e, i)
  {
    hide Noted, Checked, QO.PushHead, QO.Track, Candidate;
    var q := w.rooms[i].q;
    Unchanged(q, q, w.now);
    if e.i == i {
      if e.Check? {
        CheckNotes(q, w.now);
        CheckedRemoved(q, w.now);
      } else if e.Try? {
        TrackedBusy(q, w.now);
        Unchanged(q, QueueTried(w, i), w.now);
      } else if q.pending != [] {
        PushNotes(q, w.rooms[i].section.taker, w.now);
        PushRemoved(q, w.rooms[i].section.taker);
      }
    }
  }

  lemma NotesBySettling(w: World, e: Event, i: nat)
    requires Enabled(w, e) && e.OfSettling() && i in w.rooms
    ensures StepNotes(w.rooms[i].q, BySettling(w, e, i), w.now, e, i)
  {
    hide Noted, QO.Confirm, QO.AnswerHeld, ClosedOf;
    var q, s := w.rooms[i].q, w.rooms[i].section;
    if e.i != i || e.AnswerBegin? {
      Unchanged(q, q, w.now);
    } else if e.Confirm? {
      ConfirmNotes(q, e.c, e.id, w.now);
      ConfirmRemoved(q, e.c, e.id, w.now);
    } else {
      AnswerNotes(q, s.answerer, s.id, s.response, ClosedOf(w.clients), w.now);
      AnswerRemoved(q, s.answerer, s.id, s.response, ClosedOf(w.clients), w.now);
    }
  }

  lemma NotesByLeaving(w: World, e: Event, i: nat)
    requires Enabled(w, e) && e.OfLeaving() && i in w.rooms
    ensures StepNotes(w.rooms[i].q, ByLeaving(w, e, i), w.now, e, i)
  {
    hide Noted, QO.Abandon, QO.Track;
    var q := w.rooms[i].q;
    if e.Abandon? && w.clients[e.c].stage.inst == i && QO.Holds(q, e.c, w.clients[e.c].stage.id) {
      AbandonNotes(q, e.c, w.clients[e.c].stage.id, w.now);
      AbandonRemoved(q, e.c, w.clients[e.c].stage.id, w.now);
    } else {
      Unchanged(q, ByLeaving(w, e, i), w.now);
    }
  }

  lemma NotesByBroker(w: World, e: Event, i: nat)
    requires Enabled(w, e) && e.OfBroker() && i in w.rooms
    ensures StepNotes(w.rooms[i].q, ByBroker(w, e, i), w.now, e, i)
  {
    hide Noted;
    Unchanged(w.rooms[i].q, ByBroker(w, e, i), w.now);
  }

  lemma NotesByBinding(w: World, e: Event, i: nat)
    requires Enabled(w, e) && e.OfBinding() && i in w.rooms
    ensures StepNotes(w.rooms[i].q, ByBinding(w, e, i), w.now, e, i)
  {
    hide Noted, QO.WithoutFirst;
    Unchanged(w.rooms[i].q, ByBinding(w, e, i), w.now);
  }

  lemma NothingNoted(q: Queue<nat>, now: int, e: Event, i: nat)
    requires e.OfTask()
    ensures StepNotes(q, q, now, e, i)
  {
    hide Noted;
    Unchanged(q, q, now);
  }

  lemma NotesStep(w: World, e: Event, i: nat)
    requires Enabled(w, e) && i in w.rooms && (w.rooms[i].section.Scan? ==> w.rooms[i].q.pending != [])
    ensures i in Step(w, e).rooms && StepNotes(w.rooms[i].q, Step(w, e).rooms[i].q, w.now, e, i)
  {
    hide Enabled, StepNotes, Step, ByBroker, ByRoom, ByDispatch, BySettling, ByBinding, ByLeaving;
    AfterStep(w, e, i);
    if e.OfRoom() {
      NotesByRoom(w, e, i);
    } else if e.OfDispatch() {
      NotesByDispatch(w, e, i);
    } else if e.OfSettling() {
      NotesBySettling(w, e, i);
    } else if e.OfLeaving() {
      NotesByLeaving(w, e, i);
    } else if e.OfBroker() {
      NotesByBroker(w, e, i);
    } else if e.OfBinding() {
      NotesByBinding(w, e, i);
    } else {
      NothingNoted(w.rooms[i].q, w.now, e, i);
    }
  }

  // ------------------------------------------------------------ whole runs

  ghost predicate IdleAt(now: int, es: seq<Event>, i: nat, n: nat)
    requires Possible(Start(now), es) && n <= |es|
  {
    i in At(now, es, n).rooms && At(now, es, n).rooms[i].q.pending == [] && At(now, es, n).rooms[i].q.inFlight == map[]
  }

  /** With step k the queue became empty, or somebody looked at it and found it so. */
  ghost predicate SeenAt(now: int, es: seq<Event>, i: nat, k: nat)
    requires Possible(Start(now), es) && k < |es|
  {
    i in At(now, es, k).rooms && (!IdleAt(now, es, i, k) || Looks(es[k], i))
  }

  /** It was seen to be empty with step k and is so at every moment since, up to n. */
  ghost predicate EmptySince(now: int, es: seq<Event>, i: nat, k: nat, n: nat)
    requires Possible(Start(now), es) && n <= |es|
  {
    k < n && SeenAt(now, es, i, k) && forall j: nat :: k < j <= n ==> IdleAt(now, es, i, j)
  }

  /** The moment noted is one at which the queue was seen to be empty, and there is none before it. */
  ghost predicate MomentOk(now: int, es: seq<Event>, i: nat, n: nat)
    requires Possible(Start(now), es) && n <= |es| && i in At(now, es, n).rooms
  {
    var since := At(now, es, n).rooms[i].q.emptySince;
    && (since.Some? ==> exists k: nat :: k < n && EmptySince(now, es, i, k, n) && At(now, es, k).now == since.value)
    && (forall k: nat :: k < n && EmptySince(now, es, i, k, n) ==> since.Some? && since.value <= At(now, es, k).now)
  }

  lemma Scanning(w: World, h: Tokens, i: nat)
    requires Inv(w, h) && i in w.rooms
    ensures w.rooms[i].section.Scan? ==> w.rooms[i].q.pending != []
  {
    assert RoomOk(i, w.rooms[i], h);
  }

  lemma Longer(now: int, es: seq<Event>, i: nat, k: nat, n: nat)
    requires Possible(Start(now), es) && n < |es| && k < n
    ensures EmptySince(now, es, i, k, n + 1) <==> EmptySince(now, es, i, k, n) && IdleAt(now, es, i, n + 1)
  {
    hide At, SeenAt, IdleAt;
  }

  lemma Just(now: int, es: seq<Event>, i: nat, n: nat)
    requires Possible(Start(now), es) && n < |es|
    ensures EmptySince(now, es, i, n, n + 1) <==> SeenAt(now, es, i, n) && IdleAt(now, es, i, n + 1)
  {
    hide At, SeenAt, IdleAt;
  }

  /** A queue that is new was not seen by anybody. */
  lemma NewRoom(w: World, e: Event, i: nat)
    requires Enabled(w, e) && i !in w.rooms && i in Step(w, e).rooms
    ensures Step(w, e).rooms[i].q.emptySince == None
  {
    hide Enabled, Step;
    RoomsStay(w, e);
  }

  lemma MomentNext(now: int, es: seq<Event>, i: nat, n: nat, m: nat)
    requires Possible(Start(now), es) && n < |es| && m == n + 1 && i in At(now, es, n).rooms && i in At(now, es, m).rooms
    requires MomentOk(now, es, i, n) && SinceOk(At(now, es, n).rooms[i].q)
    requires Noted(At(now, es, n).rooms[i].q, At(now, es, m).rooms[i].q, At(now, es, n).now, Looks(es[n], i))
    ensures MomentOk(now, es, i, m) && SinceOk(At(now, es, m).rooms[i].q)
  {
    hide At, EmptySince, Looks;
    var q, q' := At(now, es, n).rooms[i].q, At(now, es, m).rooms[i].q;
    assert IdleAt(now, es, i, n) <==> Idle(q);
    assert IdleAt(now, es, i, m) <==> Idle(q');
    forall k: nat | k < n ensures EmptySince(now, es, i, k, m) <==> EmptySince(now, es, i, k, n) && Idle(q') {
      Longer(now, es, i, k, n);
    }
    Just(now, es, i, n);
    if q'.emptySince.Some? {
      if q.emptySince.Some? {
        var k: nat :| k < n && EmptySince(now, es, i, k, n) && At(now, es, k).now == q.emptySince.value;
        Clock(now, es, k, n);
        assert EmptySince(now, es, i, k, m);
      } else {
        assert EmptySince(now, es, i, n, m);
      }
    }
    forall k: nat | k < m && EmptySince(now, es, i, k, m) ensures q'.emptySince.Some? && q'.emptySince.value <= At(now, es, k).now {
      if k < n {
        assert EmptySince(now, es, i, k, n);
      }
    }
  }

  lemma NobodySaw(now: int, es: seq<Event>, i: nat, n: nat, m: nat)
    requires Possible(Start(now), es) && n < |es| && m == n + 1 && i !in At(now, es, n).rooms && i in At(now, es, m).rooms
    requires At(now, es, m).rooms[i].q.emptySince == None
    ensures MomentOk(now, es, i, m) && SinceOk(At(now, es, m).rooms[i].q)
  {
    hide At, Looks;
    forall k: nat | k < m ensures !EmptySince(now, es, i, k, m) {
      assert !IdleAt(now, es, i, n);
    }
  }

  lemma {:induction false} MomentAlways(now: int, es: seq<Event>, i: nat, n: nat)
    requires Possible(Start(now), es) && n <= |es| && i in At(now, es, n).rooms
    ensures MomentOk(now, es, i, n) && SinceOk(At(now, es, n).rooms[i].q)
    decreases n
  {
    hide Enabled, Step, MomentOk, SinceOk, Noted, Inv, Looks, At;
    if n == 0 {
      AtFirst(now, es);
      assert false;
    }
    var w, e := At(now, es, n - 1), es[n - 1];
    AtNext(now, es, n - 1);
    if i in w.rooms {
      MomentAlways(now, es, i, n - 1);
      var h := Before(now, es, n - 1);
      Scanning(w, h, i);
      NotesStep(w, e, i);
      MomentNext(now, es, i, n - 1, n);
    } else {
      NewRoom(w, e, i);
      NobodySaw(now, es, i, n - 1, n);
    }
  }

  /**
   * In every run a sweep lets go of a queue exactly when nobody is bound to it and it was empty for longer
   * than its settings allow: empty with some step that lies so far back, at which it became empty or was
   * looked at, and at every moment since.
   */
  lemma LetGoExactly(now: int, es: seq<Event>, n: nat, i: nat)
    requires Possible(Start(now), es) && n < |es| && es[n].Sweep? && es[n].i == i
    ensures i in At(now, es, n).rooms && i in At(now, es, n + 1).rooms
    ensures var q, q' := At(now, es, n).rooms[i].q, At(now, es, n + 1).rooms[i].q;
            q'.removed <==>
            q.removed || (q.consumers == []
                          && exists k: nat :: k <= n && EmptySince(now, es, i, k, n + 1) && At(now, es, n).now - At(now, es, k).now > q.settings.emptyLifetime)
  {
    hide At, EmptySince, Noted, QO.Sweep, Possible;
    var w, w' := At(now, es, n), At(now, es, n + 1);
    AtNext(now, es, n);
    SweepNotes(w.rooms[i].q, es[n].order, w.now);
    MomentAlways(now, es, i, n + 1);
    var q' := w'.rooms[i].q;
    if q'.emptySince.Some? {
      var k: nat :| k < n + 1 && EmptySince(now, es, i, k, n + 1) && At(now, es, k).now == q'.emptySince.value;
    }
  }

  /** For as long as it is empty nothing is published there, put back, or done about any message. */
  lemma {:induction false} NothingHappensMeanwhile(now: int, es: seq<Event>, i: nat, k: nat, j: nat, n: nat)
    requires Possible(Start(now), es) && n <= |es| && EmptySince(now, es, i, k, n) && k < j <= n
    ensures i in At(now, es, j).rooms && i in At(now, es, n).rooms && At(now, es, j).rooms[i].q.log == At(now, es, n).rooms[i].q.log
    decreases n
  {
    hide At, Looks, Step, Enabled, Inv;
    assert IdleAt(now, es, i, j) && IdleAt(now, es, i, n);
    if j < n {
      Shorter(now, es, i, k, n - 1, n);
      NothingHappensMeanwhile(now, es, i, k, j, n - 1);
      AtNext(now, es, n - 1);
      var h := Before(now, es, n - 1);
      Scanning(At(now, es, n - 1), h, i);
      NotesStep(At(now, es, n - 1), es[n - 1], i);
    }
  }

  lemma Shorter(now: int, es: seq<Event>, i: nat, k: nat, m: nat, n: nat)
    requires Possible(Start(now), es) && n <= |es| && EmptySince(now, es, i, k, n) && k < m <= n
    ensures EmptySince(now, es, i, k, m) && IdleAt(now, es, i, m)
  {
    hide At, IdleAt, SeenAt;
  }

  /** Nothing but a sweep lets a queue go. */
  lemma OnlySweepsLetGo(now: int, es: seq<Event>, n: nat, i: nat)
    requires Possible(Start(now), es) && n < |es| && i in At(now, es, n).rooms && !(es[n].Sweep? && es[n].i == i)
    ensures i in At(now, es, n + 1).rooms && (At(now, es, n + 1).rooms[i].q.removed <==> At(now, es, n).rooms[i].q.removed)
  {
    hide At, Noted, Step, Enabled, Inv, Looks;
    AtNext(now, es, n);
    var h := Before(now, es, n);
    Scanning(At(now, es, n), h, i);
    NotesStep(At(now, es, n), es[n], i);
  }
}
