/** How the histories of the queues go on from step to step, whoever takes it. */
module BrokerHistories {
  import opened Messages
  import opened Consumers
  import opened QueueModel
  import QO = QueueOperations
  import opened QuietSteps
  import opened Interleaving
  import opened BrokerSafety

  /**
   * A history only goes on: a message comes in only when it is published, and is pushed only to the
   * consumer acquired for it. A queue that was let go stays so.
   */
  ghost predicate RoomNext(q: Queue<nat>, q': Queue<nat>, section: Section, e: Event) {
    && q'.name == q.name && (q.removed ==> q'.removed)
    && (|| Grew(q.log, q'.log)
        || (e.Publish? && q'.log == q.log + [Published(e.content)])
        || (section.Got? && |q'.log| == |q.log| + 1 && q.log <= q'.log && q'.log[|q.log|].Pushed? && q'.log[|q.log|].receiver == section.taker))
  }

  /** A step changes one room at most; a new one has no history. */
  ghost predicate RoomsNext(w: World, w': World, e: Event) {
    && (forall i :: i in w.rooms ==> i in w'.rooms && RoomNext(w.rooms[i].q, w'.rooms[i].q, w.rooms[i].section, e))
    && (forall i :: i in w'.rooms && i !in w.rooms ==> w'.rooms[i].q.log == [])
    && (e.Publish? ==> forall i :: i in w.rooms && w'.rooms[i].q.log != w.rooms[i].q.log ==> i == e.i)
  }

  lemma OneRoomNext(w: World, w': World, e: Event, i: nat)
    requires SameBut(w.rooms, w'.rooms, i)
    requires i in w.rooms ==> RoomNext(w.rooms[i].q, w'.rooms[i].q, w.rooms[i].section, e)
    requires i !in w.rooms && i in w'.rooms ==> w'.rooms[i].q.log == []
    requires e.Publish? ==> i == e.i
    ensures RoomsNext(w, w', e)
  {
  }

  lemma NoRoomNext(w: World, w': World, e: Event)
    requires w'.rooms == w.rooms
    ensures RoomsNext(w, w', e)
  {
  }

  lemma QuietNext(q: Queue<nat>, q': Queue<nat>, section: Section, e: Event)
    requires Quiet(q, q')
    ensures RoomNext(q, q', section, e)
  {
  }

  lemma NextByAsking(w: World, h: Tokens, e: Event)
    requires Inv(w, h) && Enabled(w, e)
    requires e.Take? || e.Ask? || e.Collect?
    ensures RoomsNext(w, StepOfRoom(w, e), e)
  {
    hide Inv, RoomNext, RoomsNext, QueueInv, Quiet, QO.Take, QO.AnswerAsked, QO.Collect;
    var i, w' := e.i, StepOfRoom(w, e);
    RoomInv(w, h, i);
    var q, now, closed := w.rooms[i].q, w.now, ClosedOf(w.clients);
    match e {
      case Take(_) => QuietTake(q, now);
      case Ask(_, id, response, u) => QuietAsk(q, id, response, u, closed, now);
      case Collect(_, id) => QuietCollect(q, id, now);
    }
    QuietNext(q, w'.rooms[i].q, w.rooms[i].section, e);
    OneRoomNext(w, w', e, i);
  }

  lemma NextByTending(w: World, h: Tokens, e: Event)
    requires Inv(w, h) && Enabled(w, e)
    requires e.Await? || e.Purge? || e.Sweep?
    ensures RoomsNext(w, StepOfRoom(w, e), e)
  {
    hide Inv, RoomNext, RoomsNext, QueueInv, Quiet, QO.Await, QO.Purge, QO.Track, QO.Sweep;
    var i, w' := e.i, StepOfRoom(w, e);
    RoomInv(w, h, i);
    var q, now, closed := w.rooms[i].q, w.now, ClosedOf(w.clients);
    match e {
      case Await(_, c, ids) => QuietAwait(q, c, ids, closed, now);
      case Purge(_) => QuietPurge(q, now);
      case Sweep(_, order) => QuietSweep(q, order, now);
    }
    QuietNext(q, w'.rooms[i].q, w.rooms[i].section, e);
    OneRoomNext(w, w', e, i);
  }

  lemma CheckedNext(q: Queue<nat>, now: int, e: Event)
    ensures RoomNext(q, Checked(q, now).q, Loop, e)
  {
    hide Quiet, RoomNext, QO.Track, QO.DropDead;
    QuietTrack(q, now);
    QuietDropDead(q, now);
    QuietTrack(QO.DropDead(q, now), now);
    QuietThen(q, QO.DropDead(q, now), QO.Track(QO.DropDead(q, now), now));
    QuietNext(q, Checked(q, now).q, Loop, e);
  }

  lemma TriedNext(w: World, i: nat)
    requires i in w.rooms
    ensures w.rooms[i].section.Scan? ==> RoomsNext(w, Tried(w, i), Try(i))
    ensures w.rooms[i].section.Got? ==> RoomsNext(w, Handed(w, i), Push(i))
  {
    hide RoomsNext;
    if w.rooms[i].section.Scan? {
      OneRoomNext(w, Tried(w, i), Try(i), i);
    }
    if w.rooms[i].section.Got? {
      OneRoomNext(w, Handed(w, i), Push(i), i);
    }
  }

  lemma PublishNext(w: World, e: Event)
    requires e.Publish? && Enabled(w, e)
    ensures RoomsNext(w, StepOfRoom(w, e), e)
  {
    hide RoomsNext;
    OneRoomNext(w, StepOfRoom(w, e), e, e.i);
  }

  lemma CheckNext(w: World, i: nat)
    requires i in w.rooms && w.rooms[i].section.Loop?
    ensures RoomsNext(w, w.(rooms := w.rooms[i := Checked(w.rooms[i].q, w.now)]), Check(i))
  {
    hide RoomsNext, RoomNext, Checked;
    CheckedNext(w.rooms[i].q, w.now, Check(i));
    OneRoomNext(w, w.(rooms := w.rooms[i := Checked(w.rooms[i].q, w.now)]), Check(i), i);
  }

  lemma NextByDispatching(w: World, e: Event)
    requires Enabled(w, e) && e.OfDispatch()
    ensures RoomsNext(w, StepOfDispatch(w, e), e)
  {
    hide RoomsNext, Checked, Tried, Handed;
    match e {
      case Check(i) => CheckNext(w, i);
      case Try(i) => TriedNext(w, i);
      case Push(i) => TriedNext(w, i);
    }
  }

  /** The same queue, with nothing new and nothing pushed. */
  ghost predicate Stays(q: Queue<nat>, q': Queue<nat>) {
    q'.name == q.name && q'.removed == q.removed && Grew(q.log, q'.log)
  }

  lemma ConfirmStays(q: Queue<nat>, c: nat, id: string, now: int)
    ensures Stays(q, QO.Confirm(q, c, id, now))
  {
  }

  lemma StaysLonger(q: Queue<nat>, q1: Queue<nat>, q2: Queue<nat>)
    requires Stays(q, q1) && Stays(q1, q2)
    ensures Stays(q, q2)
  {
  }

  lemma TrackStays(q: Queue<nat>, now: int)
    ensures Stays(q, QO.Track(q, now))
  {
  }

  lemma StoreStays(q: Queue<nat>, id: string, response: string, now: int)
    requires id in q.inFlight && q.inFlight[id].content.id == id
    ensures Stays(q, QO.Store(q, id, response, now)) && id in QO.Store(q, id, response, now).inFlight
  {
  }

  lemma SendStays(q: Queue<nat>, id: string, closed: set<nat>)
    requires id in q.inFlight
    ensures Stays(q, QO.Send(q, id, closed))
  {
  }

  lemma LetGoStays(q: Queue<nat>, c: nat, id: string)
    requires QO.Holds(q, c, id) && q.inFlight[id].content.id == id
    ensures Stays(q, QO.Release(q, c, id)) && id in QO.Release(q, c, id).inFlight && QO.Release(q, c, id).inFlight[id].content.id == id
    ensures Stays(q, Land(q, id, Answered(q.inFlight[id].content, c)))
  {
  }

  lemma AnswerStays(q: Queue<nat>, c: nat, id: string, response: string, closed: set<nat>, now: int)
    requires QueueInv(q)
    ensures Stays(q, QO.AnswerHeld(q, c, id, response, closed, now))
  {
    hide QueueInv, Stays, QO.Release, QO.Store, QO.Send, QO.Track, Land;
    if QO.Holds(q, c, id) {
      QO.FlyingId(q, id);
      LetGoStays(q, c, id);
      var end;
      if q.inFlight[id].content.rpc {
        var let, stored := QO.Release(q, c, id), QO.Store(QO.Release(q, c, id), id, response, now);
        StoreStays(let, id, response, now);
        SendStays(stored, id, closed);
        StaysLonger(q, let, stored);
        StaysLonger(q, stored, QO.Send(stored, id, closed));
        end := QO.Send(stored, id, closed);
      } else {
        end := Land(q, id, Answered(q.inFlight[id].content, c));
      }
      TrackStays(end, now);
      StaysLonger(q, end, QO.Track(end, now));
    } else {
      ItselfStays(q);
    }
  }

  lemma ItselfStays(q: Queue<nat>)
    ensures Stays(q, q)
  {
  }

  lemma AbandonStays(q: Queue<nat>, c: nat, id: string, now: int)
    requires QO.Holds(q, c, id)
    ensures Stays(q, QO.Abandon(q, c, id, now)) && Stays(q, QO.Track(QO.Abandon(q, c, id, now), now))
  {
  }

  lemma NextBySettling(w: World, e: Event)
    requires Enabled(w, e)
    requires e.Confirm? || e.AnswerBegin?
    ensures RoomsNext(w, StepOfSettling(w, e), e)
  {
    hide RoomsNext, QO.Confirm, Grew;
    var i, w' := e.i, StepOfSettling(w, e);
    var q := w.rooms[i].q;
    if e.Confirm? {
      ConfirmStays(q, e.c, e.id, w.now);
    }
    assert Grew(q.log, q.log) by { ItselfQuiet(q); }
    OneRoomNext(w, w', e, i);
  }

  lemma NextByAnswer(w: World, h: Tokens, e: Event)
    requires Inv(w, h) && Enabled(w, e) && e.AnswerEnd?
    ensures RoomsNext(w, StepOfSettling(w, e), e)
  {
    hide Inv, RoomsNext, QO.AnswerHeld, QueueInv, Grew;
    var i := e.i;
    RoomInv(w, h, i);
    var s := w.rooms[i].section;
    AnswerStays(w.rooms[i].q, s.answerer, s.id, s.response, ClosedOf(w.clients), w.now);
    OneRoomNext(w, StepOfSettling(w, e), e, i);
  }

  lemma NextOfBroker(w: World, e: Event)
    requires Enabled(w, e)
    requires e.Tick? || e.Connect? || e.Create? || e.Deregister? || e.Configure?
    ensures RoomsNext(w, StepOfBroker(w, e), e)
  {
    hide RoomsNext;
    var w' := StepOfBroker(w, e);
    match e
    case Tick(_) => NoRoomNext(w, w', e);
    case Connect(_) => NoRoomNext(w, w', e);
    case Create(_, _, i) => OneRoomNext(w, w', e, i);
    case Deregister(_) => NoRoomNext(w, w', e);
    case Configure(i, _, _) => OneRoomNext(w, w', e, i);
  }

  lemma NextOfTasks(w: World, e: Event)
    requires Enabled(w, e)
    requires e.Release? || e.ListQueues? || e.Skip? || e.Next? || e.Wake? || e.Nudge?
    ensures RoomsNext(w, StepOfTask(w, e), e)
  {
    hide RoomsNext;
    var w' := StepOfTask(w, e);
    if e.Wake? || e.Nudge? {
      OneRoomNext(w, w', e, w.tasks[e.t].inst);
    } else {
      NoRoomNext(w, w', e);
    }
  }

  lemma NextOfBinding(w: World, e: Event)
    requires Enabled(w, e)
    requires e.BindList? || e.BindFetch? || e.BindJoin? || e.UnbindList? || e.UnbindFetch? || e.UnbindPart?
    ensures RoomsNext(w, StepOfBinding(w, e), e)
  {
    hide RoomsNext;
    var w' := StepOfBinding(w, e);
    if e.BindJoin? || e.UnbindPart? {
      OneRoomNext(w, w', e, w.clients[e.c].stage.inst);
    } else {
      NoRoomNext(w, w', e);
    }
  }

  lemma NextOfLeaving(w: World, e: Event)
    requires Enabled(w, e)
    requires e.Close? || e.Gather? || e.LeaveFetch? || e.LeavePart? || e.Look? || e.Find?
    ensures RoomsNext(w, StepOfLeaving(w, e), e)
  {
    hide RoomsNext;
    var w' := StepOfLeaving(w, e);
    if e.LeavePart? {
      OneRoomNext(w, w', e, w.clients[e.c].stage.inst);
    } else {
      NoRoomNext(w, w', e);
    }
  }

  lemma NextOfAbandon(w: World, h: Tokens, c: nat)
    requires Inv(w, h) && Enabled(w, Abandon(c))
    ensures RoomsNext(w, Abandoned(w, c), Abandon(c))
  {
    hide Inv, RoomsNext, QueueInv, QO.Abandon, QO.Track, Grew;
    var i, id := w.clients[c].stage.inst, w.clients[c].stage.id;
    var q := w.rooms[i].q;
    if QO.Holds(q, c, id) {
      AbandonStays(q, c, id, w.now);
    }
    assert Grew(q.log, q.log) by { ItselfQuiet(q); }
    OneRoomNext(w, Abandoned(w, c), Abandon(c), i);
  }

  lemma NextOfRoom(w: World, h: Tokens, e: Event)
    requires Inv(w, h) && Enabled(w, e) && e.OfRoom()
    ensures RoomsNext(w, StepOfRoom(w, e), e)
  {
    hide Inv, RoomsNext, Enabled, StepOfRoom;
    if e.Publish? {
      PublishNext(w, e);
    } else if e.Take? || e.Ask? || e.Collect? {
      NextByAsking(w, h, e);
    } else {
      NextByTending(w, h, e);
    }
  }

  lemma NextOfSettling(w: World, h: Tokens, e: Event)
    requires Inv(w, h) && Enabled(w, e) && e.OfSettling()
    ensures RoomsNext(w, StepOfSettling(w, e), e)
  {
    hide Inv, RoomsNext, Enabled, StepOfSettling;
    if e.AnswerEnd? {
      NextByAnswer(w, h, e);
    } else {
      NextBySettling(w, e);
    }
  }

  lemma NextOfGoing(w: World, h: Tokens, e: Event)
    requires Inv(w, h) && Enabled(w, e) && e.OfLeaving()
    ensures RoomsNext(w, StepOfLeaving(w, e), e)
  {
    hide Inv, RoomsNext, Abandoned;
    if e.Abandon? {
      NextOfAbandon(w, h, e.c);
    } else {
      NextOfLeaving(w, e);
    }
  }

  lemma HistoryNext(w: World, h: Tokens, e: Event)
    requires Inv(w, h) && Enabled(w, e)
    ensures RoomsNext(w, Step(w, e), e)
  {
    hide Inv, RoomsNext, Enabled, StepOfBroker, StepOfRoom, StepOfDispatch, StepOfSettling, StepOfTask, StepOfBinding, StepOfLeaving;
    if e.OfBroker() {
      NextOfBroker(w, e);
    } else if e.OfRoom() {
      NextOfRoom(w, h, e);
    } else if e.OfDispatch() {
      NextByDispatching(w, e);
    } else if e.OfSettling() {
      NextOfSettling(w, h, e);
    } else if e.OfTask() {
      NextOfTasks(w, e);
    } else if e.OfBinding() {
      NextOfBinding(w, e);
    } else {
      NextOfGoing(w, h, e);
    }
  }

  // ------------------------------------------------------------ what has become of a consumer

  /** Nobody forgets a consumer; a closed one stays closed, and one whose disconnection returned stays so. */
  ghost predicate ClientNext(w: World, w': World, c: nat) {
    c in w.clients ==> c in w'.clients && (w.clients[c].state == Closed ==> w'.clients[c].state == Closed) && (w.clients[c].stage == Gone ==> w'.clients[c].stage == Gone)
  }

  lemma ClientByBroker(w: World, e: Event, c: nat)
    requires Enabled(w, e) && e.OfBroker()
    ensures ClientNext(w, StepOfBroker(w, e), c)
  {
    hide NewQueue;
  }

  lemma ClientByRoom(w: World, e: Event, c: nat)
    requires Enabled(w, e) && e.OfRoom()
    ensures ClientNext(w, StepOfRoom(w, e), c)
  {
    hide QO.Publish, QO.Take, QO.AnswerAsked, QO.Collect, QO.Await, QO.Purge, QO.Sweep, QO.Track;
  }

  lemma ClientByDispatch(w: World, e: Event, c: nat)
    requires Enabled(w, e) && e.OfDispatch()
    ensures ClientNext(w, StepOfDispatch(w, e), c)
  {
    hide QO.Track, QO.PushHead, Checked;
  }

  lemma ClientBySettling(w: World, e: Event, c: nat)
    requires Enabled(w, e) && e.OfSettling()
    ensures ClientNext(w, StepOfSettling(w, e), c)
  {
    hide QO.Confirm, QO.AnswerHeld;
  }

  lemma ClientByTask(w: World, e: Event, c: nat)
    requires Enabled(w, e) && e.OfTask()
    ensures ClientNext(w, StepOfTask(w, e), c)
  {
  }

  lemma ClientByBinding(w: World, e: Event, c: nat)
    requires Enabled(w, e) && (e.BindList? || e.BindFetch? || e.BindJoin?)
    ensures ClientNext(w, StepOfBinding(w, e), c)
  {
    hide QO.Join;
  }

  lemma ClientByUnbinding(w: World, e: Event, c: nat)
    requires Enabled(w, e) && (e.UnbindList? || e.UnbindFetch?)
    ensures ClientNext(w, StepOfBinding(w, e), c)
  {
    hide QO.WithoutFirst;
  }

  lemma ClientByParting(w: World, d: nat, c: nat)
    requires Enabled(w, UnbindPart(d))
    ensures ClientNext(w, StepOfBinding(w, UnbindPart(d)), c)
  {
    hide QO.Part;
  }

  lemma ClientByLeaving(w: World, e: Event, c: nat)
    requires Enabled(w, e) && (e.LeaveFetch? || e.LeavePart?)
    ensures ClientNext(w, StepOfLeaving(w, e), c)
  {
    hide QO.Part, Abandoned;
  }

  lemma ClientByClosing(w: World, e: Event, c: nat)
    requires Enabled(w, e) && (e.Close? || e.Gather?)
    ensures ClientNext(w, StepOfLeaving(w, e), c)
  {
    hide Abandoned;
  }

  lemma ClientByLooking(w: World, e: Event, c: nat)
    requires Enabled(w, e) && (e.Look? || e.Find?)
    ensures ClientNext(w, StepOfLeaving(w, e), c)
  {
    hide Abandoned;
  }

  lemma ClientByAbandon(w: World, c: nat, d: nat)
    requires Enabled(w, Abandon(c))
    ensures ClientNext(w, Abandoned(w, c), d)
  {
    hide QO.Abandon, QO.Track;
  }

  lemma ClientByGoing(w: World, e: Event, c: nat)
    requires Enabled(w, e) && e.OfLeaving()
    ensures ClientNext(w, StepOfLeaving(w, e), c)
  {
    hide Abandoned, ClientNext;
    if e.Abandon? {
      ClientByAbandon(w, e.c, c);
    } else if e.Look? || e.Find? {
      ClientByLooking(w, e, c);
    } else if e.Close? || e.Gather? {
      ClientByClosing(w, e, c);
    } else {
      ClientByLeaving(w, e, c);
    }
  }

  lemma ClientsNext(w: World, e: Event, c: nat)
    requires Enabled(w, e)
    ensures ClientNext(w, Step(w, e), c)
  {
    hide Enabled, ClientNext, StepOfBroker, StepOfRoom, StepOfDispatch, StepOfSettling, StepOfTask, StepOfBinding, StepOfLeaving;
    if e.OfBroker() {
      ClientByBroker(w, e, c);
    } else if e.OfRoom() {
      ClientByRoom(w, e, c);
    } else if e.OfDispatch() {
      ClientByDispatch(w, e, c);
    } else if e.OfSettling() {
      ClientBySettling(w, e, c);
    } else if e.OfTask() {
      ClientByTask(w, e, c);
    } else if e.BindList? || e.BindFetch? || e.BindJoin? {
      ClientByBinding(w, e, c);
    } else if e.UnbindPart? {
      ClientByParting(w, e.c, c);
    } else if e.OfBinding() {
      ClientByUnbinding(w, e, c);
    } else {
      ClientByGoing(w, e, c);
    }
  }
}
