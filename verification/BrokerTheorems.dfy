/** What holds in every run of the broker, however its threads interleave. */
module BrokerTheorems {
  import opened Options
  import opened Messages
  import opened Consumers
  import opened QueueModel
  import QO = QueueOperations
  import opened QuietSteps
  import opened Interleaving
  import opened BrokerSafety
  import opened BrokerSteps
  import opened BrokerRuns
  import opened BrokerHistories
  import opened BrokerWakeUps

  // ------------------------------------------------------------ runs

  lemma {:induction false} PartOfARun(w: World, es: seq<Event>, more: seq<Event>)
    requires Possible(w, es + more)
    ensures Possible(w, es)
  {
    hide Enabled, Step;
    if more == [] {
      assert es + more == es;
    } else {
      assert (es + more)[..|es + more| - 1] == es + more[..|more| - 1];
      PartOfARun(w, es, more[..|more| - 1]);
    }
  }

  /** One step more. */
  lemma LastStep(w: World, es: seq<Event>, more: seq<Event>)
    requires more != [] && Possible(w, es + more)
    ensures var before := es + more[..|more| - 1];
            Possible(w, before) && Enabled(After(w, before), more[|more| - 1]) && After(w, es + more) == Step(After(w, before), more[|more| - 1])
  {
    hide Enabled, Step;
    assert (es + more)[..|es + more| - 1] == es + more[..|more| - 1];
  }

  // ------------------------------------------------------------ one unconfirmed message per consumer

  ghost predicate Owns(w: World, i: nat, c: nat, id: string) {
    i in w.rooms && QO.Holds(w.rooms[i].q, c, id)
  }

  ghost predicate InItsAnswer(w: World, i: nat, c: nat) {
    i in w.rooms && BeingAnswered(w.rooms[i], c)
  }

  /** A consumer owns one message at most in all queues together. */
  ghost predicate OwnOneEach(w: World) {
    forall c, i, j, id, other :: Owns(w, i, c, id) && Owns(w, j, c, other) ==> i == j && id == other
  }

  /** A free consumer owns nothing. */
  ghost predicate FreeOwnNothing(w: World) {
    forall c, i, id :: Owns(w, i, c, id) ==> c in w.clients && w.clients[c].state != Free
  }

  /** What a consumer says it holds is what it owns. The two differ only while its own answer is being stored. */
  ghost predicate CurrentIsOwned(w: World) {
    && (forall c, i, id :: Owns(w, i, c, id) && !InItsAnswer(w, i, c) ==>
          c in w.clients && w.clients[c].current == Some((w.rooms[i].q.name, id)))
    && (forall c :: c in w.clients && w.clients[c].current.Some? ==>
          var held := w.clients[c].current.value;
          held.0 in w.registry && Owns(w, w.registry[held.0], c, held.1))
  }

  lemma OneTokenOneMessage(w: World, h: Tokens)
    requires Inv(w, h)
    ensures OwnOneEach(w) && FreeOwnNothing(w) && CurrentIsOwned(w)
  {
    hide Inv, QO.Holds;
    forall c, i, id | Owns(w, i, c, id)
      ensures c in h && h[c] == Owning(i, id) && c in w.clients && w.clients[c].state != Free
      ensures !InItsAnswer(w, i, c) ==> w.clients[c].current == Some((w.rooms[i].q.name, id))
    {
      NoneOwned(w, h, c, i);
      InClients(w, h, c);
      OwnerThere(w, h, c);
    }
    forall c | c in w.clients && w.clients[c].current.Some?
      ensures var held := w.clients[c].current.value; held.0 in w.registry && Owns(w, w.registry[held.0], c, held.1)
    {
      OwnerThere(w, h, c);
    }
  }

  lemma OneUnconfirmedMessage(now: int, es: seq<Event>)
    requires Possible(Start(now), es)
    ensures OwnOneEach(After(Start(now), es)) && FreeOwnNothing(After(Start(now), es)) && CurrentIsOwned(After(Start(now), es))
  {
    hide Inv, Enabled, Step, OwnOneEach, FreeOwnNothing, CurrentIsOwned;
    var h := BrokerRuns.Reached(now, es);
    OneTokenOneMessage(After(Start(now), es), h);
  }

  // ------------------------------------------------------------ a disconnection settles everything

  ghost predicate Left(w: World, c: nat) {
    c in w.clients && w.clients[c].stage == Gone
  }

  /** How often something was pushed to this consumer. */
  ghost function PushesTo(log: seq<Happening<nat>>, c: nat): nat {
    if log == [] then 0
    else PushesTo(log[..|log| - 1], c) + if log[|log| - 1].Pushed? && log[|log| - 1].receiver == c then 1 else 0
  }

  lemma {:induction false} NotPushed(log: seq<Happening<nat>>, log': seq<Happening<nat>>, c: nat)
    requires log <= log' && forall k :: |log| <= k < |log'| ==> !(log'[k].Pushed? && log'[k].receiver == c)
    ensures PushesTo(log', c) == PushesTo(log, c)
  {
    if |log'| == |log| {
      assert log' == log;
    } else {
      assert log <= log'[..|log'| - 1];
      NotPushed(log, log'[..|log'| - 1], c);
    }
  }

  /** A consumer whose disconnection returned owns nothing, and nobody has it in hand to push to. */
  lemma LeftOwnsNothing(w: World, h: Tokens, c: nat)
    requires Inv(w, h) && Left(w, c)
    ensures w.clients[c].state == Closed
    ensures forall i, id :: Owns(w, i, c, id) ==> InItsAnswer(w, i, c)
    ensures forall i :: i in w.rooms ==> w.rooms[i].section != Got(c) && c !in w.rooms[i].q.consumers
  {
    hide Inv, QO.Holds, QueueInv;
    OwnerThere(w, h, c);
    forall i, id | Owns(w, i, c, id) ensures InItsAnswer(w, i, c) {
      NoneOwned(w, h, c, i);
    }
    forall i | i in w.rooms ensures w.rooms[i].section != Got(c) && c !in w.rooms[i].q.consumers {
      TakerThere(w, h, i);
      if c in w.rooms[i].q.consumers {
        LinkedThere(w, h, c, i);
      }
    }
  }

  lemma TakerThere(w: World, h: Tokens, i: nat)
    requires Inv(w, h) && i in w.rooms
    ensures w.rooms[i].section.Got? ==> w.rooms[i].section.taker in h && h[w.rooms[i].section.taker] == Acquired(i)
  {
    hide QueueInv;
    assert RoomOk(i, w.rooms[i], h);
  }

  /**
   * Once Disconnect returned, in whatever order the other threads ran and go on running, the consumer owns
   * no message of any queue, is bound to none, and no message is ever pushed to it again. All that can
   * still be under way is an answer it gave itself, under the lock of the queue.
   */
  lemma {:induction false} DisconnectionSettles(now: int, es: seq<Event>, more: seq<Event>, c: nat)
    requires Possible(Start(now), es + more) && Possible(Start(now), es) && Left(After(Start(now), es), c)
    ensures var w, w' := After(Start(now), es), After(Start(now), es + more);
            && Left(w', c)
            && (forall i, id :: Owns(w', i, c, id) ==> InItsAnswer(w', i, c))
            && (forall i :: Unlocked(w', i) ==> forall id :: !Owns(w', i, c, id))
            && (forall i :: i in w'.rooms ==> c !in w'.rooms[i].q.consumers)
            && (forall i :: i in w.rooms ==> i in w'.rooms)
            && (forall i :: i in w'.rooms ==> PushesTo(w'.rooms[i].q.log, c) == if i in w.rooms then PushesTo(w.rooms[i].q.log, c) else 0)
    decreases |more|
  {
    hide Inv, Enabled, Step, QO.Holds, PushesTo;
    var w, w' := After(Start(now), es), After(Start(now), es + more);
    if more == [] {
      assert es + more == es;
    } else {
      LastStep(Start(now), es, more);
      var before, e := es + more[..|more| - 1], more[|more| - 1];
      DisconnectionSettles(now, es, more[..|more| - 1], c);
      var h0 := BrokerRuns.Reached(now, before);
      ClientsNext(After(Start(now), before), e, c);
      NoMorePushes(After(Start(now), before), h0, e, c);
    }
    var h := BrokerRuns.Reached(now, es + more);
    LeftOwnsNothing(w', h, c);
  }

  lemma NoMorePushes(w: World, h: Tokens, e: Event, c: nat)
    requires Inv(w, h) && Enabled(w, e) && Left(w, c)
    ensures var w' := Step(w, e);
            (forall i :: i in w.rooms ==> i in w'.rooms)
            && forall i :: i in w'.rooms ==> PushesTo(w'.rooms[i].q.log, c) == if i in w.rooms then PushesTo(w.rooms[i].q.log, c) else 0
  {
    hide Inv, Enabled, Step;
    LeftOwnsNothing(w, h, c);
    HistoryNext(w, h, e);
    var w' := Step(w, e);
    forall i | i in w'.rooms ensures PushesTo(w'.rooms[i].q.log, c) == if i in w.rooms then PushesTo(w.rooms[i].q.log, c) else 0 {
      if i in w.rooms {
        NotPushed(w.rooms[i].q.log, w'.rooms[i].q.log, c);
      }
    }
  }

  // ------------------------------------------------------------ retirement loses nothing

  /** An instance that holds a message or a consumer is the one found under its name. */
  lemma InUseIsRegistered(now: int, es: seq<Event>, i: nat)
    requires Possible(Start(now), es) && i in After(Start(now), es).rooms
    ensures var w := After(Start(now), es);
            var q := w.rooms[i].q;
            q.pending != [] || q.inFlight != map[] || q.consumers != [] ==> q.name in w.registry && w.registry[q.name] == i
  {
    hide Enabled, Step, LinksOk, ClientOk, StageOk, TaskOk, QueueInv;
    var h := BrokerRuns.Reached(now, es);
    RoomInv(After(Start(now), es), h, i);
    InUse(After(Start(now), es).rooms[i].q);
  }

  /** A message that is nowhere can only come in. */
  lemma {:induction false} NothingToHappen(q: Queue<nat>, log': seq<Happening<nat>>, k: nat)
    requires QueueInv(q) && q.pending == [] && q.inFlight == map[]
    requires q.log <= log' && |q.log| < k <= |log'| && !log'[|q.log|].Published?
    ensures LifeOf(log'[..k], log'[|q.log|].Id()) == None
  {
    var e := log'[|q.log|];
    if k == |q.log| + 1 {
      assert log'[..k] == q.log + [e];
      assert Lived(q, e.Id());
      LifeAfter(q.log, e, e.Id());
    } else {
      NothingToHappen(q, log', k - 1);
      assert log'[..k][..k - 1] == log'[..k - 1];
    }
  }

  lemma NothingHappens(q: Queue<nat>, q': Queue<nat>)
    requires QueueInv(q) && QueueInv(q') && q.pending == [] && q.inFlight == map[] && Grew(q.log, q'.log)
    ensures q'.log == q.log
  {
    if |q'.log| > |q.log| {
      assert Lived(q', q'.log[|q.log|].Id());
      assert q'.log[..|q'.log|] == q'.log;
      NothingToHappen(q, q'.log, |q'.log|);
    }
  }

  lemma RetiredIsEmpty(q: Queue<nat>)
    requires QueueInv(q) && q.removed
    ensures q.pending == [] && q.inFlight == map[] && q.consumers == []
  {
  }

  lemma RetiredNext(w: World, h: Tokens, e: Event, i: nat)
    requires Inv(w, h) && Enabled(w, e) && i in w.rooms && w.rooms[i].q.removed
    ensures var w' := Step(w, e); i in w'.rooms && w'.rooms[i].q.removed && w'.rooms[i].q.log == w.rooms[i].q.log
  {
    hide Inv, Enabled, Step, QueueInv;
    HistoryNext(w, h, e);
    var h' := KeepStep(w, h, e);
    var w' := Step(w, e);
    RoomInv(w, h, i);
    RoomInv(w', h', i);
    RetiredIsEmpty(w.rooms[i].q);
    TakerBound(w, h, i);
    if e.Publish? {
      PublishedTo(w, e, i);
    }
    if Grew(w.rooms[i].q.log, w'.rooms[i].q.log) {
      NothingHappens(w.rooms[i].q, w'.rooms[i].q);
    }
  }

  lemma TakerBound(w: World, h: Tokens, i: nat)
    requires Inv(w, h) && i in w.rooms && w.rooms[i].q.removed
    ensures !w.rooms[i].section.Got?
  {
    hide QueueInv;
    assert RoomOk(i, w.rooms[i], h);
  }

  /** A queue that was let go takes no message. */
  lemma PublishedTo(w: World, e: Event, i: nat)
    requires Enabled(w, e) && e.Publish? && i in w.rooms && w.rooms[i].q.removed
    ensures i in Step(w, e).rooms && Step(w, e).rooms[i].q.log == w.rooms[i].q.log
  {
  }

  /** An instance that was let go is empty and unbound, and stays so: nothing ever happens in it again. */
  lemma {:induction false} RetiredForever(now: int, es: seq<Event>, more: seq<Event>, i: nat)
    requires Possible(Start(now), es + more) && Possible(Start(now), es)
    requires i in After(Start(now), es).rooms && After(Start(now), es).rooms[i].q.removed
    ensures var w, w' := After(Start(now), es), After(Start(now), es + more);
            && i in w'.rooms && w'.rooms[i].q.removed && w'.rooms[i].q.log == w.rooms[i].q.log
            && w'.rooms[i].q.pending == [] && w'.rooms[i].q.inFlight == map[] && w'.rooms[i].q.consumers == []
    decreases |more|
  {
    hide Inv, Enabled, Step, QueueInv;
    if more == [] {
      assert es + more == es;
    } else {
      LastStep(Start(now), es, more);
      var before := es + more[..|more| - 1];
      RetiredForever(now, es, more[..|more| - 1], i);
      var h0 := BrokerRuns.Reached(now, before);
      RetiredNext(After(Start(now), before), h0, more[|more| - 1], i);
    }
    var h := BrokerRuns.Reached(now, es + more);
    RoomInv(After(Start(now), es + more), h, i);
    RetiredIsEmpty(After(Start(now), es + more).rooms[i].q);
  }

  // ------------------------------------------------------------ every message, in every queue

  /** Where each message is, how often it was delivered and answered, and in which order. */
  ghost predicate Accounted(q: Queue<nat>) {
    && (forall id :: Lived(q, id))
    && (forall id :: Deliveries(q.log, id) <= 1 + Redeliveries(q.log, id))
    && (forall id :: AnswersHanded(q.log, id) <= 1 && HandsLastAnswer(q.log, id))
    && Conserved(TallyOf(q.log), |q.pending|, |q.inFlight|)
    && InOrder(q.log) && OrderedLine(q.log, Contents(q.pending))
    && (TallyOf(q.log).redelivered == 0 ==> AllDeliveries(q.log) == FirstDeliveries(q.log))
  }

  lemma InvIsAccounted(q: Queue<nat>)
    requires QueueInv(q)
    ensures Accounted(q)
  {
    hide LifeOf, Deliveries, Redeliveries, AnswersHanded, HandsLastAnswer, TallyOf, InOrder, OrderedLine, AllDeliveries, FirstDeliveries, Agrees, PlaceOf;
    forall id
      ensures LifeOf(q.log, id).Some? && Deliveries(q.log, id) <= 1 + Redeliveries(q.log, id)
      ensures AnswersHanded(q.log, id) <= 1 && HandsLastAnswer(q.log, id)
    {
      assert Lived(q, id);
      DeliveredOnce(q.log, id);
      AnswerHandedOnce(q.log, id);
    }
    if TallyOf(q.log).redelivered == 0 {
      NoneDeliveredAgain(q.log);
    }
  }

  lemma EveryMessageIsAccountedFor(now: int, es: seq<Event>, i: nat)
    requires Possible(Start(now), es) && i in After(Start(now), es).rooms
    ensures Accounted(After(Start(now), es).rooms[i].q)
  {
    hide Inv, Enabled, Step, QueueInv, Accounted;
    var h := BrokerRuns.Reached(now, es);
    RoomInv(After(Start(now), es), h, i);
    InvIsAccounted(After(Start(now), es).rooms[i].q);
  }

  // ------------------------------------------------------------ a message belongs to one queue

  ghost predicate Born(w: World, i: nat, id: string) {
    i in w.rooms && LifeOf(w.rooms[i].q.log, id) != Some(Unborn)
  }

  ghost predicate OneHome(w: World) {
    forall i, j, id :: Born(w, i, id) && Born(w, j, id) ==> i == j
  }

  lemma {:induction false} StaysUnborn(log: seq<Happening<nat>>, log': seq<Happening<nat>>, id: string)
    requires LifeOf(log, id) == Some(Unborn) && Grew(log, log')
    ensures LifeOf(log', id) == Some(Unborn) || LifeOf(log', id) == None
  {
    if |log'| == |log| {
      assert log' == log;
    } else {
      var init := log'[..|log'| - 1];
      assert Grew(log, init) && !log'[|log'| - 1].Published?;
      StaysUnborn(log, init, id);
    }
  }

  lemma BornBefore(w: World, h: Tokens, w': World, h': Tokens, e: Event, i: nat, id: string)
    requires Inv(w, h) && Inv(w', h') && RoomsNext(w, w', e) && Born(w', i, id)
    ensures Born(w, i, id) || (e.Publish? && e.content.id == id && i == e.i)
  {
    hide Inv;
    RoomInv(w', h', i);
    if i in w.rooms && !Born(w, i, id) {
      assert Lived(w'.rooms[i].q, id);
      var log, log' := w.rooms[i].q.log, w'.rooms[i].q.log;
      if Grew(log, log') {
        StaysUnborn(log, log', id);
      } else {
        assert log' == log + [log'[|log|]];
        LifeAfter(log, log'[|log|], id);
      }
    }
  }

  lemma OneHomeNext(w: World, h: Tokens, e: Event)
    requires Inv(w, h) && Enabled(w, e) && OneHome(w)
    ensures OneHome(Step(w, e))
  {
    hide Inv, Step, LifeOf;
    var w' := Step(w, e);
    HistoryNext(w, h, e);
    var h' := KeepStep(w, h, e);
    forall i, j, id | Born(w', i, id) && Born(w', j, id) ensures i == j {
      BornBefore(w, h, w', h', e, i, id);
      BornBefore(w, h, w', h', e, j, id);
      if e.Publish? && e.content.id == id {
        assert FreshId(w, id);
      }
    }
  }

  /** Whatever is delivered, answered or buried anywhere under an id is the one message published under it. */
  lemma {:induction false} OneQueueEach(now: int, es: seq<Event>)
    requires Possible(Start(now), es)
    ensures OneHome(After(Start(now), es))
  {
    hide Inv, Enabled, Step, OneHome;
    if es == [] {
      assert OneHome(Start(now)) by { NobodyBorn(now); }
    } else {
      var init := es[..|es| - 1];
      OneQueueEach(now, init);
      var h := BrokerRuns.Reached(now, init);
      OneHomeNext(After(Start(now), init), h, es[|es| - 1]);
    }
  }

  lemma NobodyBorn(now: int)
    ensures OneHome(Start(now)) && WakeOk(Start(now))
  {
  }

  // ------------------------------------------------------------ no wake-up is lost

  lemma {:induction false} AlwaysOnTheWay(now: int, es: seq<Event>)
    requires Possible(Start(now), es)
    ensures WakeOk(After(Start(now), es))
  {
    hide Inv, Enabled, Step, WakeOk;
    if es == [] {
      NobodyBorn(now);
    } else {
      var init := es[..|es| - 1];
      AlwaysOnTheWay(now, init);
      var h := BrokerRuns.Reached(now, init);
      WakeStep(After(Start(now), init), h, es[|es| - 1]);
    }
  }

  /** Every operation that was begun has completed. */
  ghost predicate AtRest(w: World) {
    && (forall i :: i in w.rooms ==> w.rooms[i].section == Open)
    && w.tasks == map[]
    && (forall c :: c in w.clients ==> w.clients[c].stage == Calm || w.clients[c].stage == Gone)
  }

  /**
   * After every completed operation no queue has both a message that can be delivered and a free consumer
   * bound to it.
   */
  lemma NoLostWakeUp(now: int, es: seq<Event>, i: nat, c: nat)
    requires Possible(Start(now), es) && AtRest(After(Start(now), es)) && i in After(Start(now), es).rooms
    ensures var w := After(Start(now), es);
            Deliverable(w.rooms[i].q, w.now) && c in w.rooms[i].q.consumers ==> c in w.clients && w.clients[c].state != Free
  {
    hide Inv, Enabled, Step, Deliverable, WakeOk;
    var w := After(Start(now), es);
    var h := BrokerRuns.Reached(now, es);
    AlwaysOnTheWay(now, es);
    MembersThere(w, h, i);
    NobodyOnTheWay(w, i, c);
  }

  lemma NobodyOnTheWay(w: World, i: nat, c: nat)
    requires WakeOk(w) && AtRest(w)
    ensures !Needs(w, i, c)
  {
  }
}
