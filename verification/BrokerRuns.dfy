/** Whole runs of the interleaved broker. */
module BrokerRuns {
  import opened Options
  import opened Consumers
  import opened QueueModel
  import QO = QueueOperations
  import opened Interleaving
  import opened BrokerSafety
  import opened BrokerSteps
  import opened BrokerBindings

  // ------------------------------------------------------------ every step keeps the invariant

  lemma KeepTry(w: World, h: Tokens, i: nat) returns (h': Tokens)
    requires Inv(w, h) && i in w.rooms && w.rooms[i].section.Scan?
    ensures Inv(Tried(w, i), h')
  {
    hide Inv, QueueInv, QO.Track;
    var q, k := w.rooms[i].q, w.rooms[i].section.tried;
    h' := h;
    KeepTryBusy(w, h, i);
    if k < |q.consumers| {
      var c := Candidate(q, k);
      if c in w.clients && w.clients[c].state == Free {
        KeepTryFree(w, h, i, c, ((q.next + k) % |q.consumers| + 1) % |q.consumers|);
        h' := h[c := Acquired(i)];
      }
    }
  }

  lemma KeepBroker(w: World, h: Tokens, e: Event) returns (h': Tokens)
    requires Inv(w, h) && Enabled(w, e) && e.OfBroker()
    ensures Inv(StepOfBroker(w, e), h')
  {
    hide Inv, QueueInv;
    h' := h;
    match e
    case Tick(time) => KeepTick(w, h, time);
    case Connect(c) => KeepConnect(w, h, c); h' := h[c := Idle];
    case Create(name, settings, i) => KeepCreate(w, h, name, settings, i);
    case Deregister(i) => KeepDeregister(w, h, i);
    case Configure(i, settings, t) => KeepConfigure(w, h, i, settings, t);
  }

  lemma KeepRoom(w: World, h: Tokens, e: Event)
    requires Inv(w, h) && Enabled(w, e) && e.OfRoom()
    ensures Inv(StepOfRoom(w, e), h)
  {
    hide Inv, QueueInv, QO.Publish, QO.Take, QO.AnswerAsked, QO.Collect, QO.Await, QO.Purge, QO.Track, QO.Sweep;
    match e
    case Publish(i, content, ttl, replyTo) => KeepPublish(w, h, i, content, ttl, replyTo);
    case Take(i) => KeepTake(w, h, i);
    case Ask(i, id, response, u) => KeepAsk(w, h, i, id, response, u);
    case Collect(i, id) => KeepCollect(w, h, i, id);
    case Await(i, c, ids) => KeepAwait(w, h, i, c, ids);
    case Purge(i) => KeepPurge(w, h, i);
    case Sweep(i, order) => KeepSweep(w, h, i, order);
  }

  lemma KeepDispatch(w: World, h: Tokens, e: Event) returns (h': Tokens)
    requires Inv(w, h) && Enabled(w, e) && e.OfDispatch()
    ensures Inv(StepOfDispatch(w, e), h')
  {
    hide Inv, QueueInv, Tried, Checked;
    h' := h;
    match e
    case Check(i) => KeepCheck(w, h, i);
    case Try(i) => h' := KeepTry(w, h, i);
    case Push(i) =>
      var c := w.rooms[i].section.taker;
      KeepPush(w, h, i, c);
      h' := h[c := Owning(i, w.rooms[i].q.pending[0].content.id)];
  }

  lemma KeepSettling(w: World, h: Tokens, e: Event) returns (h': Tokens)
    requires Inv(w, h) && Enabled(w, e)
    requires e.Confirm? || e.AnswerBegin?
    ensures Inv(StepOfSettling(w, e), h')
  {
    hide Inv, QueueInv, QO.Confirm;
    match e
    case Confirm(i, c, id, t) => KeepConfirm(w, h, i, c, id, t); h' := h[c := Freeing(t)];
    case AnswerBegin(i, c, id, response) => KeepAnswerBegin(w, h, i, c, id, response); h' := h;
  }

  lemma KeepAnswered(w: World, h: Tokens, e: Event) returns (h': Tokens)
    requires Inv(w, h) && Enabled(w, e) && e.AnswerEnd?
    ensures Inv(StepOfSettling(w, e), h')
  {
    hide Inv, QueueInv, QO.AnswerHeld;
    var s := w.rooms[e.i].section;
    KeepAnswerEnd(w, h, e.i, e.t, s.answerer, s.id, s.response);
    h' := h[s.answerer := Freeing(e.t)];
  }

  lemma KeepTask(w: World, h: Tokens, e: Event) returns (h': Tokens)
    requires Inv(w, h) && Enabled(w, e) && e.OfTask()
    ensures Inv(StepOfTask(w, e), h')
  {
    hide Inv, Enabled, StepOfTask;
    h' := h;
    if e.Release? {
      h' := KeepReleased(w, h, e.t);
    } else if e.Wake? || e.Nudge? {
      KeepWaking(w, h, e);
    } else {
      KeepRound(w, h, e);
    }
  }

  lemma KeepRound(w: World, h: Tokens, e: Event)
    requires Inv(w, h) && Enabled(w, e) && (e.ListQueues? || e.Skip? || e.Next?)
    ensures Inv(StepOfTask(w, e), h)
  {
    hide Inv, QueueInv;
    match e
    case ListQueues(t, start) => KeepListQueues(w, h, t, start);
    case Skip(t) => KeepSkip(w, h, t);
    case Next(t) => KeepNext(w, h, t);
  }

  lemma KeepWaking(w: World, h: Tokens, e: Event)
    requires Inv(w, h) && Enabled(w, e) && (e.Wake? || e.Nudge?)
    ensures Inv(StepOfTask(w, e), h)
  {
    hide Inv, QueueInv;
    match e
    case Wake(t) => KeepWake(w, h, t);
    case Nudge(t) => KeepNudge(w, h, t);
  }

  lemma KeepReleased(w: World, h: Tokens, t: nat) returns (h': Tokens)
    requires Inv(w, h) && Enabled(w, Release(t))
    ensures Inv(StepOfTask(w, Release(t)), h')
  {
    hide Inv, QueueInv;
    var c := w.tasks[t].c;
    KeepRelease(w, h, t, c);
    h' := h[c := Idle];
    assert w.clients[c := w.clients[c]] == w.clients;
  }

  lemma KeepBinding(w: World, h: Tokens, e: Event)
    requires Inv(w, h) && Enabled(w, e)
    requires e.BindList? || e.BindFetch? || e.BindJoin?
    ensures Inv(StepOfBinding(w, e), h)
  {
    hide Inv, QueueInv, QO.Join;
    match e
    case BindList(c, name) => KeepBindList(w, h, c, name);
    case BindFetch(c) => KeepBindFetch(w, h, c, w.clients[c].stage.queue);
    case BindJoin(c) =>
      var i := w.clients[c].stage.inst;
      KeepBindAgain(w, h, c, i);
      if !w.rooms[i].q.removed {
        KeepBindJoin(w, h, c, i);
      }
  }

  lemma KeepUnbinding(w: World, h: Tokens, e: Event)
    requires Inv(w, h) && Enabled(w, e)
    requires e.UnbindList? || e.UnbindFetch? || e.UnbindPart?
    ensures Inv(StepOfBinding(w, e), h)
  {
    hide Inv, QueueInv, QO.Part;
    match e
    case UnbindList(c, name) => KeepUnbindList(w, h, c, name);
    case UnbindFetch(c) => KeepUnbindFetch(w, h, c, w.clients[c].stage.queue);
    case UnbindPart(c) => KeepUnbindPart(w, h, c, w.clients[c].stage.inst);
  }

  lemma KeepLeaving(w: World, h: Tokens, e: Event)
    requires Inv(w, h) && Enabled(w, e)
    requires e.Close? || e.Gather? || e.LeaveFetch? || e.LeavePart?
    ensures Inv(StepOfLeaving(w, e), h)
  {
    hide Inv, QueueInv;
    match e
    case Close(c) => KeepClose(w, h, c);
    case Gather(c) => KeepGather(w, h, c);
    case LeaveFetch(c) => KeepLeaveFetch(w, h, c, w.clients[c].stage.rest);
    case LeavePart(c) => KeepLeavePart(w, h, c, w.clients[c].stage.inst, w.clients[c].stage.rest);
  }

  lemma KeepGivingUp(w: World, h: Tokens, e: Event) returns (h': Tokens)
    requires Inv(w, h) && Enabled(w, e)
    requires e.Look? || e.Find? || e.Abandon?
    ensures Inv(StepOfLeaving(w, e), h')
  {
    hide Inv, QueueInv, Abandoned;
    h' := h;
    match e
    case Look(c) => KeepLook(w, h, c);
    case Find(c) => KeepFind(w, h, c, w.clients[c].stage.queue, w.clients[c].stage.id);
    case Abandon(c) => h' := KeepAbandon(w, h, c);
  }

  lemma KeepAbandon(w: World, h: Tokens, c: nat) returns (h': Tokens)
    requires Inv(w, h) && Enabled(w, Abandon(c))
    ensures Inv(Abandoned(w, c), h')
  {
    hide Inv, QueueInv, QO.Abandon;
    var i, id := w.clients[c].stage.inst, w.clients[c].stage.id;
    h' := h;
    if QO.Holds(w.rooms[i].q, c, id) {
      KeepAbandonHeld(w, h, c, i, id);
      h' := h[c := Idle];
      var gone := w.clients[c].(current := None, stage := Gone);
      assert w.clients[c := w.clients[c].(stage := Gone)][c := gone] == w.clients[c := gone];
    } else {
      KeepAbandonNothing(w, h, c, i, id);
    }
  }

  lemma KeepStep(w: World, h: Tokens, e: Event) returns (h': Tokens)
    requires Inv(w, h) && Enabled(w, e)
    ensures Inv(Step(w, e), h')
  {
    hide Inv, Enabled, StepOfBroker, StepOfRoom, StepOfDispatch, StepOfSettling, StepOfTask, StepOfBinding, StepOfLeaving;
    h' := h;
    if e.OfBroker() {
      h' := KeepBroker(w, h, e);
    } else if e.OfRoom() {
      KeepRoom(w, h, e);
    } else if e.OfDispatch() {
      h' := KeepDispatch(w, h, e);
    } else if e.Confirm? || e.AnswerBegin? {
      h' := KeepSettling(w, h, e);
    } else if e.OfSettling() {
      h' := KeepAnswered(w, h, e);
    } else if e.OfTask() {
      h' := KeepTask(w, h, e);
    } else if e.BindList? || e.BindFetch? || e.BindJoin? {
      KeepBinding(w, h, e);
    } else if e.OfBinding() {
      KeepUnbinding(w, h, e);
    } else if e.Close? || e.Gather? || e.LeaveFetch? || e.LeavePart? {
      KeepLeaving(w, h, e);
    } else {
      h' := KeepGivingUp(w, h, e);
    }
  }

  /** Every world that can be reached keeps the invariant. */
  lemma {:induction false} Reached(now: int, es: seq<Event>) returns (h: Tokens)
    requires Possible(Start(now), es)
    ensures Inv(After(Start(now), es), h)
  {
    hide Inv, Enabled, Step;
    if es == [] {
      h := map[];
      StartsWell(now);
    } else {
      var init := es[..|es| - 1];
      var h0 := Reached(now, init);
      h := KeepStep(After(Start(now), init), h0, es[|es| - 1]);
    }
  }

  lemma StartsWell(now: int)
    ensures Inv(Start(now), map[])
  {
  }
}
