/** What a step of the broker does to one queue, as one operation of that queue. */
module RoomSteps {
  import opened Options
  import opened Messages
  import opened Consumers
  import opened QueueModel
  import QO = QueueOperations
  import opened Interleaving

  /** What trying the next consumer makes of a queue: it gives up, acquires one, or goes on. */
  ghost function QueueTried(w: World, i: nat): Queue<nat>
    requires i in w.rooms && w.rooms[i].section.Scan?
  {
    var q, k := w.rooms[i].q, w.rooms[i].section.tried;
    if k >= |q.consumers| then QO.Track(q, w.now)
    else if Candidate(q, k) in w.clients && w.clients[Candidate(q, k)].state == Free then q.(next := ((q.next + k) % |q.consumers| + 1) % |q.consumers|)
    else q
  }

  /** What giving up a message makes of a queue. */
  ghost function QueueGivenUp(q: Queue<nat>, c: nat, id: string, now: int): Queue<nat> {
    if !QO.Holds(q, c, id) then q
    else if q.settings.redeliver then QO.Abandon(q, c, id, now)
    else QO.Track(QO.Abandon(q, c, id, now), now)
  }

  ghost function ByBroker(w: World, e: Event, i: nat): Queue<nat>
    requires Enabled(w, e) && e.OfBroker() && i in w.rooms
  {
    var q := w.rooms[i].q;
    if e.Configure? && e.i == i then q.(settings := e.settings) else q
  }

  ghost function ByRoom(w: World, e: Event, i: nat): Queue<nat>
    requires Enabled(w, e) && e.OfRoom() && i in w.rooms
  {
    var q, closed := w.rooms[i].q, ClosedOf(w.clients);
    if e.i != i then q
    else
      match e
      case Publish(_, content, ttl, replyTo) => if q.removed then q else QO.Publish(q, content, ttl, replyTo, w.now)
      case Take(_) => QO.Take(q, w.now)
      case Ask(_, id, response, includeUndelivered) => QO.AnswerAsked(q, id, response, includeUndelivered, closed, w.now)
      case Collect(_, id) => QO.Collect(q, id, w.now)
      case Await(_, c, ids) => QO.Await(q, c, ids, closed, w.now)
      case Purge(_) => QO.Track(QO.Purge(q), w.now)
      case Sweep(_, order) => QO.Sweep(q, order, w.now)
  }

  ghost function ByDispatch(w: World, e: Event, i: nat): Queue<nat>
    requires Enabled(w, e) && e.OfDispatch() && i in w.rooms
  {
    var q := w.rooms[i].q;
    if e.i != i then q
    else if e.Check? then Checked(q, w.now).q
    else if e.Try? then QueueTried(w, i)
    else if q.pending == [] || w.rooms[i].section.taker !in w.clients then q
    else QO.PushHead(q, w.rooms[i].section.taker)
  }

  ghost function BySettling(w: World, e: Event, i: nat): Queue<nat>
    requires Enabled(w, e) && e.OfSettling() && i in w.rooms
  {
    var q, s := w.rooms[i].q, w.rooms[i].section;
    if e.i != i || e.AnswerBegin? then q
    else if e.Confirm? then QO.Confirm(q, e.c, e.id, w.now)
    else QO.AnswerHeld(q, s.answerer, s.id, s.response, ClosedOf(w.clients), w.now)
  }

  ghost function ByBinding(w: World, e: Event, i: nat): Queue<nat>
    requires Enabled(w, e) && e.OfBinding() && i in w.rooms
  {
    var q := w.rooms[i].q;
    if e.BindJoin? && w.clients[e.c].stage.inst == i && !q.removed then QO.Join(q, e.c)
    else if e.UnbindPart? && w.clients[e.c].stage.inst == i then QO.Part(q, e.c)
    else q
  }

  ghost function ByLeaving(w: World, e: Event, i: nat): Queue<nat>
    requires Enabled(w, e) && e.OfLeaving() && i in w.rooms
  {
    var q := w.rooms[i].q;
    if e.LeavePart? && w.clients[e.c].stage.inst == i then QO.Part(q, e.c)
    else if e.Abandon? && w.clients[e.c].stage.inst == i then QueueGivenUp(q, e.c, w.clients[e.c].stage.id, w.now)
    else q
  }

  /** One queue after a step: a task leaves all of them as they are. */
  ghost function QueueAfter(w: World, e: Event, i: nat): Queue<nat>
    requires Enabled(w, e) && i in w.rooms
  {
    if e.OfBroker() then ByBroker(w, e, i)
    else if e.OfRoom() then ByRoom(w, e, i)
    else if e.OfDispatch() then ByDispatch(w, e, i)
    else if e.OfSettling() then BySettling(w, e, i)
    else if e.OfTask() then w.rooms[i].q
    else if e.OfBinding() then ByBinding(w, e, i)
    else ByLeaving(w, e, i)
  }

  ghost predicate Finds(w: World, i: nat, q: Queue<nat>) {
    i in w.rooms && w.rooms[i].q == q
  }

  lemma AfterBroker(w: World, e: Event, i: nat)
    requires Enabled(w, e) && e.OfBroker() && i in w.rooms
    ensures Finds(StepOfBroker(w, e), i, ByBroker(w, e, i))
  {
  }

  lemma AfterRoom(w: World, e: Event, i: nat)
    requires Enabled(w, e) && e.OfRoom() && i in w.rooms
    ensures Finds(StepOfRoom(w, e), i, ByRoom(w, e, i))
  {
    hide QO.Publish, QO.Take, QO.AnswerAsked, QO.Collect, QO.Await, QO.Purge, QO.Sweep, QO.Track, ClosedOf;
  }

  lemma AfterDispatch(w: World, e: Event, i: nat)
    requires Enabled(w, e) && e.OfDispatch() && i in w.rooms
    ensures Finds(StepOfDispatch(w, e), i, ByDispatch(w, e, i))
  {
    hide Checked, QO.PushHead, QO.Track, Candidate;
  }

  lemma AfterSettling(w: World, e: Event, i: nat)
    requires Enabled(w, e) && e.OfSettling() && i in w.rooms
    ensures Finds(StepOfSettling(w, e), i, BySettling(w, e, i))
  {
    hide QO.Confirm, QO.AnswerHeld, ClosedOf;
  }

  lemma AfterBinding(w: World, e: Event, i: nat)
    requires Enabled(w, e) && e.OfBinding() && i in w.rooms
    ensures Finds(StepOfBinding(w, e), i, ByBinding(w, e, i))
  {
    hide QO.Join, QO.Part, QO.WithoutFirst;
  }

  lemma AfterAbandon(w: World, c: nat, i: nat)
    requires Enabled(w, Abandon(c)) && i in w.rooms
    ensures Finds(Abandoned(w, c), i, ByLeaving(w, Abandon(c), i))
  {
    hide QO.Abandon, QO.Track, QO.Holds;
  }

  lemma AfterLeaving(w: World, e: Event, i: nat)
    requires Enabled(w, e) && e.OfLeaving() && i in w.rooms
    ensures Finds(StepOfLeaving(w, e), i, ByLeaving(w, e, i))
  {
    hide QO.Part, QueueGivenUp, Abandoned;
    if e.Abandon? {
      AfterAbandon(w, e.c, i);
    }
  }

  lemma AfterTask(w: World, e: Event, i: nat)
    requires Enabled(w, e) && e.OfTask() && i in w.rooms
    ensures Finds(StepOfTask(w, e), i, w.rooms[i].q)
  {
  }

  /** A step does one thing to a queue at most. */
  lemma AfterStep(w: World, e: Event, i: nat)
    requires Enabled(w, e) && i in w.rooms
    ensures Finds(Step(w, e), i, QueueAfter(w, e, i))
  {
    hide Enabled, Finds, ByBroker, ByRoom, ByDispatch, BySettling, ByBinding, ByLeaving, StepOfBroker, StepOfRoom, StepOfDispatch, StepOfSettling, StepOfTask, StepOfBinding, StepOfLeaving;
    if e.OfBroker() {
      AfterBroker(w, e, i);
    } else if e.OfRoom() {
      AfterRoom(w, e, i);
    } else if e.OfDispatch() {
      AfterDispatch(w, e, i);
    } else if e.OfSettling() {
      AfterSettling(w, e, i);
    } else if e.OfTask() {
      AfterTask(w, e, i);
    } else if e.OfBinding() {
      AfterBinding(w, e, i);
    } else {
      AfterLeaving(w, e, i);
    }
  }

  // ------------------------------------------------------------ what stays

  ghost predicate SameRooms(w: World, w': World) {
    w'.now == w.now && w'.rooms.Keys == w.rooms.Keys
  }

  lemma SameRoom(w: World, e: Event)
    requires Enabled(w, e) && e.OfRoom()
    ensures SameRooms(w, StepOfRoom(w, e))
  {
    hide QO.Publish, QO.Take, QO.AnswerAsked, QO.Collect, QO.Await, QO.Purge, QO.Sweep, QO.Track, ClosedOf;
  }

  lemma SameDispatch(w: World, e: Event)
    requires Enabled(w, e) && e.OfDispatch()
    ensures SameRooms(w, StepOfDispatch(w, e))
  {
    hide Checked, QO.PushHead, QO.Track, Candidate;
  }

  lemma SameSettling(w: World, e: Event)
    requires Enabled(w, e) && e.OfSettling()
    ensures SameRooms(w, StepOfSettling(w, e))
  {
    hide QO.Confirm, QO.AnswerHeld, ClosedOf;
  }

  lemma SameTask(w: World, e: Event)
    requires Enabled(w, e) && e.OfTask()
    ensures SameRooms(w, StepOfTask(w, e))
  {
  }

  lemma SameBinding(w: World, e: Event)
    requires Enabled(w, e) && e.OfBinding()
    ensures SameRooms(w, StepOfBinding(w, e))
  {
    hide QO.Join, QO.Part, QO.WithoutFirst;
  }

  lemma SameLeaving(w: World, e: Event)
    requires Enabled(w, e) && e.OfLeaving()
    ensures SameRooms(w, StepOfLeaving(w, e))
  {
    hide QO.Part, QO.Abandon, QO.Track, QO.Holds;
  }

  ghost predicate RoomsAre(w: World, e: Event, w': World) {
    && w'.now == (if e.Tick? then e.time else w.now)
    && w'.rooms.Keys == w.rooms.Keys + (if e.Create? then {e.i} else {})
    && (e.Create? ==> e.i !in w.rooms && Finds(w', e.i, NewQueue(e.name, e.settings)))
  }

  lemma SameBroker(w: World, e: Event)
    requires Enabled(w, e) && e.OfBroker()
    ensures RoomsAre(w, e, StepOfBroker(w, e))
  {
  }

  lemma SameAre(w: World, e: Event, w': World)
    requires SameRooms(w, w') && !e.OfBroker()
    ensures RoomsAre(w, e, w')
  {
  }

  /** Only the clock moves the time, and only creating a queue makes a room: an empty one. */
  lemma RoomsStay(w: World, e: Event)
    requires Enabled(w, e)
    ensures RoomsAre(w, e, Step(w, e))
  {
    hide Enabled, RoomsAre, SameRooms, StepOfBroker, StepOfRoom, StepOfDispatch, StepOfSettling, StepOfTask, StepOfBinding, StepOfLeaving;
    if e.OfBroker() {
      SameBroker(w, e);
    } else {
      if e.OfRoom() {
        SameRoom(w, e);
      } else if e.OfDispatch() {
        SameDispatch(w, e);
      } else if e.OfSettling() {
        SameSettling(w, e);
      } else if e.OfTask() {
        SameTask(w, e);
      } else if e.OfBinding() {
        SameBinding(w, e);
      } else {
        SameLeaving(w, e);
      }
      SameAre(w, e, Step(w, e));
    }
  }
}
