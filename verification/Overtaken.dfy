/**
 * Between its release and its round a consumer may be taken by somebody else's dispatch. Here is which
 * steps of the interleaved broker are such a taking, and a run in which a queue waits for ever because of it.
 */
module Overtaken {
  import opened Options
  import opened Messages
  import opened Consumers
  import opened QueueModel
  import QO = QueueOperations
  import Expiry
  import opened Interleaving
  import opened Fairness

  // ------------------------------------------------------------ who began a dispatch

  /** A thread holds the lock of the queue to dispatch it. */
  ghost predicate Dispatching(w: World, i: nat) {
    i in w.rooms && !w.rooms[i].section.Open? && !w.rooms[i].section.Answering?
  }

  /** A dispatch is begun by publishing, by a consumer that joins, by one that goes, by a new configuration, or by a round. */
  ghost predicate Begins(w: World, e: Event, i: nat)
    requires Enabled(w, e)
  {
    || (e.Publish? && e.i == i)
    || (e.BindJoin? && w.clients[e.c].stage.inst == i)
    || (e.Abandon? && w.clients[e.c].stage.inst == i)
    || (e.Nudge? && w.tasks[e.t].inst == i)
    || (e.Wake? && w.tasks[e.t].inst == i)
  }

  /** Nobody else begins one; and until it ends only its own steps, and new settings, change the queue. */
  lemma WhoDispatches(w: World, e: Event, i: nat)
    requires Enabled(w, e)
    ensures !Dispatching(w, i) && Dispatching(Step(w, e), i) ==> Begins(w, e, i)
    ensures Dispatching(w, i) ==> i in Step(w, e).rooms
    ensures Dispatching(w, i) && Step(w, e).rooms[i] != w.rooms[i] ==> (e.OfDispatch() && e.i == i) || (e.Configure? && e.i == i)
  {
    hide StepOfBroker, StepOfRoom, StepOfDispatch, StepOfSettling, StepOfTask, StepOfBinding, StepOfLeaving, Enabled;
    if e.OfBroker() {
      ByBroker(w, e, i);
    } else if e.OfRoom() {
      ByRoom(w, e, i);
    } else if e.OfDispatch() {
      ByDispatch(w, e, i);
    } else if e.OfSettling() {
      BySettling(w, e, i);
    } else if e.OfTask() {
      ByTask(w, e, i);
    } else if e.OfBinding() {
      ByBinding(w, e, i);
    } else if e.Abandon? {
      ByAbandon(w, e.c, i);
    } else {
      ByLeaving(w, e, i);
    }
  }

  /** What one step has to do with the dispatch of one queue. */
  ghost predicate DispatchNext(w: World, w': World, e: Event, i: nat)
    requires Enabled(w, e)
  {
    && (!Dispatching(w, i) && Dispatching(w', i) ==> Begins(w, e, i))
    && (Dispatching(w, i) ==> i in w'.rooms && (w'.rooms[i] != w.rooms[i] ==> (e.OfDispatch() || e.Configure?) && e.i == i))
  }

  lemma ByBroker(w: World, e: Event, i: nat)
    requires Enabled(w, e) && e.OfBroker()
    ensures DispatchNext(w, StepOfBroker(w, e), e, i)
  {
  }

  lemma ByRoom(w: World, e: Event, i: nat)
    requires Enabled(w, e) && e.OfRoom()
    ensures DispatchNext(w, StepOfRoom(w, e), e, i)
  {
    hide QO.Publish, QO.Take, QO.AnswerAsked, QO.Collect, QO.Await, QO.Purge, QO.Sweep, QO.Track;
  }

  lemma ByDispatch(w: World, e: Event, i: nat)
    requires Enabled(w, e) && e.OfDispatch()
    ensures DispatchNext(w, StepOfDispatch(w, e), e, i)
  {
    hide QO.Track, QO.PushHead, QO.DropDead;
  }

  lemma BySettling(w: World, e: Event, i: nat)
    requires Enabled(w, e) && e.OfSettling()
    ensures DispatchNext(w, StepOfSettling(w, e), e, i)
  {
    hide QO.Confirm, QO.AnswerHeld;
  }

  lemma ByTask(w: World, e: Event, i: nat)
    requires Enabled(w, e) && e.OfTask()
    ensures DispatchNext(w, StepOfTask(w, e), e, i)
  {
  }

  lemma ByBinding(w: World, e: Event, i: nat)
    requires Enabled(w, e) && e.OfBinding()
    ensures DispatchNext(w, StepOfBinding(w, e), e, i)
  {
    hide QO.Join, QO.Part, QO.WithoutFirst;
  }

  lemma ByLeaving(w: World, e: Event, i: nat)
    requires Enabled(w, e) && e.OfLeaving() && !e.Abandon?
    ensures DispatchNext(w, StepOfLeaving(w, e), e, i)
  {
    hide QO.Part, Abandoned;
  }

  lemma ByAbandon(w: World, c: nat, i: nat)
    requires Enabled(w, Abandon(c))
    ensures DispatchNext(w, StepOfLeaving(w, Abandon(c)), Abandon(c), i)
  {
    hide Abandoned;
    if i != w.clients[c].stage.inst {
      AbandonsElsewhere(w, c, i);
    }
  }

  lemma AbandonsElsewhere(w: World, c: nat, i: nat)
    requires Enabled(w, Abandon(c)) && i != w.clients[c].stage.inst
    ensures var w' := Abandoned(w, c); (i in w'.rooms <==> i in w.rooms) && (i in w.rooms ==> w'.rooms[i] == w.rooms[i])
  {
    hide QO.Abandon, QO.Track;
  }

  // ------------------------------------------------------------ rounds and takings

  datatype Origin = Nobody | RoundOf(c: nat) | Another

  /** Who began the dispatch a queue is in. */
  ghost function Beginning(w: World, es: seq<Event>, i: nat): Origin
    requires Possible(w, es)
  {
    if es == [] || !Dispatching(After(w, es), i) then Nobody
    else
      var init, e := es[..|es| - 1], es[|es| - 1];
      var before := After(w, init);
      if Dispatching(before, i) then Beginning(w, init, i)
      else if e.Wake? then RoundOf(before.tasks[e.t].c) else Another
  }

  /** The queues that can serve a consumer. */
  ghost function Ready(w: World, c: nat): set<string> {
    set name | name in w.registry && w.registry[name] in w.rooms && CanServe(w.rooms[w.registry[name]].q, c, w.now)
  }

  ghost predicate CanServe(q: Queue<nat>, c: nat, now: int) {
    c in q.consumers && !q.settings.paused && exists e :: e in q.pending && Expiry.Alive(e, q.settings, now)
  }

  /** The step that gives a message to this consumer, as the round or the taking that it is. */
  ghost function WayOf(w: World, es: seq<Event>, e: Event, c: nat): seq<Way>
    requires Possible(w, es)
  {
    var before := After(w, es);
    if e.Push? && e.i in before.rooms && before.rooms[e.i].section == Got(c) then
      [if Beginning(w, es, e.i) == RoundOf(c) then ByRound(Ready(before, c)) else Way.Taken(before.rooms[e.i].q.name)]
    else []
  }

  /** How a consumer came to each of its messages. */
  ghost function WaysOf(w: World, es: seq<Event>, c: nat): seq<Way>
    requires Possible(w, es)
  {
    if es == [] then [] else WaysOf(w, es[..|es| - 1], c) + WayOf(w, es[..|es| - 1], es[|es| - 1], c)
  }

  /** In every run, what is being dispatched was begun by somebody. */
  lemma {:induction false} SomebodyBegan(now: int, es: seq<Event>, i: nat)
    requires Possible(Start(now), es) && Dispatching(After(Start(now), es), i)
    ensures Beginning(Start(now), es, i) != Nobody
  {
    hide Enabled, Step, Dispatching;
    NothingThere(now, i);
    if es != [] && Dispatching(After(Start(now), es[..|es| - 1]), i) {
      SomebodyBegan(now, es[..|es| - 1], i);
    }
  }

  lemma NothingThere(now: int, i: nat)
    ensures !Dispatching(Start(now), i)
  {
  }

  // ------------------------------------------------------------ a run, step by step

  /** The instance 1 has been like this since so many steps. */
  ghost predicate Kept(now: int, es: seq<Event>, since: nat, room: Room)
    requires Possible(Start(now), es)
  {
    |es| < since || (1 in After(Start(now), es).rooms && After(Start(now), es).rooms[1] == room && (es == [] || Kept(now, es[..|es| - 1], since, room)))
  }

  /** A run, and what is asked of it: how the consumer 0 came to its messages, and what is to stay. */
  datatype Run = Run(now: int, es: seq<Event>, ways: seq<Way>, since: nat, room: Room)

  ghost predicate Leads(r: Run, w: World) {
    && Possible(Start(r.now), r.es) && After(Start(r.now), r.es) == w
    && WaysOf(Start(r.now), r.es, 0) == r.ways && Kept(r.now, r.es, r.since, r.room)
  }

  lemma NothingDone(now: int, since: nat, room: Room)
    requires since > 0
    ensures Leads(Run(now, [], [], since, room), Start(now))
  {
  }

  ghost predicate Keeps(r: Run, w: World, steps: nat) {
    |r.es| + steps >= r.since ==> 1 in w.rooms && w.rooms[1] == r.room
  }

  lemma OneMore(r: Run, w: World, e: Event) returns (r': Run)
    requires Leads(r, w) && Enabled(w, e) && !e.Push? && Keeps(r, Step(w, e), 1)
    ensures r' == r.(es := r.es + [e]) && Leads(r', Step(w, e))
  {
    hide Enabled, Step;
    r' := r.(es := r.es + [e]);
    assert r'.es[..|r.es|] == r.es;
    assert r.ways + [] == r.ways;
  }

  lemma OnePush(r: Run, w: World, i: nat) returns (r': Run)
    requires Leads(r, w) && i in w.rooms && w.rooms[i].section == Got(0) && Enabled(w, Push(i)) && Keeps(r, Step(w, Push(i)), 1)
    requires Beginning(Start(r.now), r.es, i) == Another
    ensures r' == r.(es := r.es + [Push(i)], ways := r.ways + [Way.Taken(w.rooms[i].q.name)]) && Leads(r', Step(w, Push(i)))
  {
    hide Enabled, Step, Beginning;
    r' := r.(es := r.es + [Push(i)], ways := r.ways + [Way.Taken(w.rooms[i].q.name)]);
    assert r'.es[..|r.es|] == r.es;
  }

  lemma BegunHere(r: Run, w: World, e: Event, i: nat)
    requires Leads(r, w) && Enabled(w, e) && Dispatching(Step(w, e), i)
    ensures Possible(Start(r.now), r.es + [e])
    ensures !Dispatching(w, i) && !e.Wake? ==> Beginning(Start(r.now), r.es + [e], i) == Another
    ensures Dispatching(w, i) ==> Beginning(Start(r.now), r.es + [e], i) == Beginning(Start(r.now), r.es, i)
  {
    hide Enabled, Step, Dispatching;
    assert (r.es + [e])[..|r.es|] == r.es;
  }

  // ---- binding

  lemma BindsStep(w: World, name: string)
    requires 0 in w.clients && w.clients[0].stage == Calm && name !in w.clients[0].queues
    ensures Enabled(w, BindList(0, name))
    ensures Step(w, BindList(0, name)) == SetClient(w, 0, w.clients[0].(queues := w.clients[0].queues + [name], stage := Listed(name)))
  {
  }

  lemma FetchStep(w: World, client: Client, name: string, i: nat)
    requires name in w.registry && w.registry[name] == i && client.stage == Listed(name)
    ensures var w1 := SetClient(w, 0, client); Enabled(w1, BindFetch(0)) && Step(w1, BindFetch(0)) == SetClient(w, 0, client.(stage := Joining(i)))
  {
  }

  lemma JoinStep(w: World, client: Client, i: nat, q: Queue<nat>)
    requires i in w.rooms && w.rooms[i] == Room(q, Open) && !q.removed && client.stage == Joining(i)
    ensures var w1 := SetClient(w, 0, client); Enabled(w1, BindJoin(0)) && Step(w1, BindJoin(0)) == SetClient(SetRoom(w, i, QO.Join(q, 0), Loop), 0, client.(stage := Calm))
  {
    hide QO.Join;
  }

  /** The dispatch of a queue with nothing in it ends at once. */
  lemma CheckEmpty(w: World, i: nat, q: Queue<nat>)
    requires i in w.rooms && w.rooms[i] == Room(q, Loop) && q.pending == []
    ensures Enabled(w, Check(i)) && Step(w, Check(i)) == SetRoom(w, i, QO.Track(q, w.now), Open)
  {
    assert QO.DropDead(q, w.now) == q;
  }

  ghost function JoinedTo(w: World, name: string, i: nat): World
    requires 0 in w.clients && i in w.rooms
  {
    SetClient(SetRoom(w, i, QO.Track(QO.Join(w.rooms[i].q, 0), w.now), Open), 0, w.clients[0].(queues := w.clients[0].queues + [name]))
  }

  lemma Binds(r: Run, w: World, name: string, i: nat) returns (r': Run)
    requires Leads(r, w) && |r.es| + 4 < r.since
    requires 0 in w.clients && w.clients[0].stage == Calm && name !in w.clients[0].queues && name in w.registry && w.registry[name] == i
    requires i in w.rooms && w.rooms[i].section == Open && !w.rooms[i].q.removed && w.rooms[i].q.pending == []
    ensures r' == r.(es := r'.es) && |r'.es| == |r.es| + 4 && Leads(r', JoinedTo(w, name, i))
  {
    hide Leads, Enabled, Step, QO.Join, QO.Track;
    var q, client := w.rooms[i].q, w.clients[0].(queues := w.clients[0].queues + [name]);
    BindsStep(w, name);
    r' := OneMore(r, w, BindList(0, name));
    FetchStep(w, client.(stage := Listed(name)), name, i);
    r' := OneMore(r', SetClient(w, 0, client.(stage := Listed(name))), BindFetch(0));
    JoinStep(w, client.(stage := Joining(i)), i, q);
    r' := OneMore(r', SetClient(w, 0, client.(stage := Joining(i))), BindJoin(0));
    var joined := SetClient(SetRoom(w, i, QO.Join(q, 0), Loop), 0, client);
    JoinLeavesLine(q);
    CheckEmpty(joined, i, QO.Join(q, 0));
    r' := OneMore(r', joined, Check(i));
    assert SetRoom(joined, i, QO.Track(QO.Join(q, 0), w.now), Open) == JoinedTo(w, name, i);
  }

  lemma JoinLeavesLine(q: Queue<nat>)
    ensures QO.Join(q, 0).pending == q.pending
  {
  }

  // ---- publishing

  /** The one consumer of a queue with nothing in it is 0. */
  ghost predicate Alone(q: Queue<nat>) {
    !q.removed && !q.settings.paused && q.settings.retention >= 0 && q.pending == [] && q.consumers == [0]
  }

  ghost function WithMessage(q: Queue<nat>, content: Content, now: int): Queue<nat> {
    QO.Publish(q, content, 0, None, now)
  }

  lemma PublishStep(w: World, i: nat, q: Queue<nat>, content: Content)
    requires i in w.rooms && w.rooms[i] == Room(q, Open) && Alone(q) && FreshId(w, content.id)
    ensures Enabled(w, Publish(i, content, 0, None)) && Step(w, Publish(i, content, 0, None)) == SetRoom(w, i, WithMessage(q, content, w.now), Loop)
    ensures WithMessage(q, content, w.now).pending == [Entry(content, 0, w.now, None, 0, None, None)]
  {
    hide FreshId;
  }

  lemma CheckStep(w: World, i: nat, q: Queue<nat>, content: Content)
    requires i in w.rooms && w.rooms[i] == Room(q, Loop) && !q.settings.paused && q.settings.retention >= 0 && q.consumers == [0]
    requires q.pending == [Entry(content, 0, w.now, None, 0, None, None)]
    ensures Enabled(w, Check(i)) && Step(w, Check(i)) == SetRoom(w, i, q, Scan(0))
  {
    assert QO.DropDead(q, w.now) == q;
  }

  lemma TryStep(w: World, i: nat, q: Queue<nat>)
    requires i in w.rooms && w.rooms[i] == Room(q, Scan(0)) && q.consumers == [0] && 0 in w.clients
    ensures Enabled(w, Try(i))
    ensures w.clients[0].state == Free ==> Step(w, Try(i)) == SetClient(SetRoom(w, i, q.(next := 0), Got(0)), 0, w.clients[0].(state := Busy))
    ensures w.clients[0].state != Free ==> Step(w, Try(i)) == SetRoom(w, i, q, Scan(1))
  {
    assert Candidate(q, 0) == 0;
  }

  lemma GiveUpStep(w: World, i: nat, q: Queue<nat>)
    requires i in w.rooms && w.rooms[i] == Room(q, Scan(1)) && q.consumers == [0] && q.pending != []
    ensures Enabled(w, Try(i)) && Step(w, Try(i)) == SetRoom(w, i, q, Open)
  {
  }

  lemma PushStep(w: World, i: nat, q: Queue<nat>)
    requires i in w.rooms && w.rooms[i] == Room(q, Got(0)) && q.pending != [] && 0 in w.clients
    ensures Enabled(w, Push(i))
    ensures Step(w, Push(i)) == SetClient(SetRoom(w, i, QO.PushHead(q, 0), Loop), 0, w.clients[0].(current := Some((q.name, q.pending[0].content.id))))
  {
    hide QO.PushHead;
  }

  ghost function Given(q: Queue<nat>, content: Content, now: int): Queue<nat> {
    QO.PushHead(WithMessage(q, content, now).(next := 0), 0)
  }

  ghost function GivenTo0(w: World, i: nat, content: Content): World
    requires i in w.rooms && 0 in w.clients
  {
    SetClient(SetRoom(w, i, Given(w.rooms[i].q, content, w.now), Open), 0, w.clients[0].(state := Busy, current := Some((w.rooms[i].q.name, content.id))))
  }

  lemma GivenIs(q: Queue<nat>, content: Content, now: int)
    requires Alone(q)
    ensures var q' := Given(q, content, now);
            && Alone(q') && q'.name == q.name && q'.settings == q.settings && q'.inFlight == q.inFlight[content.id := Entry(content, 0, now, None, 0, Some(0), None)]
            && q'.log == q.log + [Happening.Published(content), Pushed(BrokerMessage(q.name, content, None), 0)]
            && QO.Track(q', now) == q'
  {
    var p := WithMessage(q, content, now).(next := 0);
    assert p.pending == [Entry(content, 0, now, None, 0, None, None)];
    assert Without(p.pending, 0) == [];
    assert q.log + [Happening.Published(content)] + [Pushed(BrokerMessage(q.name, content, None), 0)] == q.log + [Happening.Published(content), Pushed(BrokerMessage(q.name, content, None), 0)];
    assert content.id in Given(q, content, now).inFlight;
  }

  /** Room for so many steps more, which do not concern what is to stay. */
  ghost predicate Allowed(r: Run, w: World, i: nat, steps: nat) {
    |r.es| + steps < r.since || (i != 1 && 1 in w.rooms && w.rooms[1] == r.room)
  }

  ghost function TakenAt(w: World, i: nat, q: Queue<nat>): World
    requires 0 in w.clients
  {
    SetClient(SetRoom(w, i, q.(next := 0), Got(0)), 0, w.clients[0].(state := Busy))
  }

  /** Somebody publishes: the message waits at the head, and the dispatch goes on. */
  lemma Announces(r: Run, w: World, i: nat, content: Content) returns (r': Run)
    requires Leads(r, w) && i in w.rooms && w.rooms[i].section == Open && Alone(w.rooms[i].q) && FreshId(w, content.id) && Allowed(r, w, i, 2)
    ensures r' == r.(es := r'.es) && |r'.es| == |r.es| + 2
    ensures Leads(r', SetRoom(w, i, WithMessage(w.rooms[i].q, content, w.now), Scan(0))) && Beginning(Start(r'.now), r'.es, i) == Another
  {
    hide Leads, Enabled, Step, FreshId, WithMessage, Beginning;
    var q := w.rooms[i].q;
    var p := WithMessage(q, content, w.now);
    PublishStep(w, i, q, content);
    var w1 := SetRoom(w, i, p, Loop);
    BegunHere(r, w, Publish(i, content, 0, None), i);
    r' := OneMore(r, w, Publish(i, content, 0, None));
    MessageIs(q, content, w.now);
    CheckStep(w1, i, p, content);
    assert SetRoom(w1, i, p, Scan(0)) == SetRoom(w, i, p, Scan(0));
    BegunHere(r', w1, Check(i), i);
    r' := OneMore(r', w1, Check(i));
  }

  /** The free consumer is acquired for it. */
  lemma Takes(r: Run, w: World, i: nat, p: Queue<nat>) returns (r': Run)
    requires Leads(r, w) && i in w.rooms && w.rooms[i] == Room(p, Scan(0)) && p.consumers == [0] && Allowed(r, w, i, 1)
    requires Beginning(Start(r.now), r.es, i) == Another && 0 in w.clients && w.clients[0].state == Free
    ensures r' == r.(es := r'.es) && |r'.es| == |r.es| + 1
    ensures Leads(r', TakenAt(w, i, p)) && Beginning(Start(r'.now), r'.es, i) == Another
  {
    hide Leads, Enabled, Step, Beginning;
    TryStep(w, i, p);
    BegunHere(r, w, Try(i), i);
    r' := OneMore(r, w, Try(i));
  }

  /** It is given the message, and the dispatch ends. */
  lemma Hands(r: Run, w: World, i: nat, p: Queue<nat>) returns (r': Run)
    requires Leads(r, w) && i in w.rooms && w.rooms[i] == Room(p, Got(0)) && |p.pending| == 1 && Allowed(r, w, i, 2)
    requires Beginning(Start(r.now), r.es, i) == Another && 0 in w.clients && QO.Track(QO.PushHead(p, 0), w.now) == QO.PushHead(p, 0)
    ensures r' == r.(es := r'.es, ways := r.ways + [Way.Taken(p.name)]) && |r'.es| == |r.es| + 2
    ensures Leads(r', SetClient(SetRoom(w, i, QO.PushHead(p, 0), Open), 0, w.clients[0].(current := Some((p.name, p.pending[0].content.id)))))
  {
    hide Leads, Enabled, Step, Beginning;
    PushStep(w, i, p);
    var client := w.clients[0].(current := Some((p.name, p.pending[0].content.id)));
    var w1 := SetClient(SetRoom(w, i, QO.PushHead(p, 0), Loop), 0, client);
    r' := OnePush(r, w, i);
    CheckEmpty(w1, i, QO.PushHead(p, 0));
    r' := OneMore(r', w1, Check(i));
    assert SetRoom(w1, i, QO.PushHead(p, 0), Open) == SetClient(SetRoom(w, i, QO.PushHead(p, 0), Open), 0, client);
  }

  /** Somebody publishes, and the free consumer is given the message: a taking. */
  lemma Gives(r: Run, w: World, i: nat, content: Content) returns (r': Run)
    requires Leads(r, w) && i in w.rooms && w.rooms[i].section == Open && Alone(w.rooms[i].q) && FreshId(w, content.id)
    requires 0 in w.clients && w.clients[0].state == Free && Allowed(r, w, i, 5)
    ensures r' == r.(es := r'.es, ways := r.ways + [Way.Taken(w.rooms[i].q.name)]) && |r'.es| == |r.es| + 5 && Leads(r', GivenTo0(w, i, content))
  {
    hide Leads, FreshId, WithMessage, Beginning, QO.PushHead, QO.Track;
    var q := w.rooms[i].q;
    var p := WithMessage(q, content, w.now);
    MessageIs(q, content, w.now);
    GivenIs(q, content, w.now);
    r' := Announces(r, w, i, content);
    var w1 := SetRoom(w, i, p, Scan(0));
    r' := Takes(r', w1, i, p);
    var w2 := TakenAt(w1, i, p);
    r' := Hands(r', w2, i, p.(next := 0));
    TakenWorld(w, i, p, Given(q, content, w.now), w.clients[0].(state := Busy, current := Some((q.name, content.id))));
  }

  lemma TakenWorld(w: World, i: nat, p: Queue<nat>, q': Queue<nat>, client: Client)
    requires 0 in w.clients
    ensures SetClient(SetRoom(TakenAt(SetRoom(w, i, p, Scan(0)), i, p), i, q', Open), 0, client) == SetClient(SetRoom(w, i, q', Open), 0, client)
  {
    var w2 := TakenAt(SetRoom(w, i, p, Scan(0)), i, p);
    assert w2.rooms[i := Room(q', Open)] == w.rooms[i := Room(q', Open)];
    assert w2.clients[0 := client] == w.clients[0 := client];
  }

  lemma MessageIs(q: Queue<nat>, content: Content, now: int)
    requires Alone(q)
    ensures var p := WithMessage(q, content, now);
            && p.pending == [Entry(content, 0, now, None, 0, None, None)] && p.name == q.name && p.settings == q.settings && p.consumers == q.consumers
  {
  }

  // ---- a message that has to wait

  /** Somebody publishes while the only consumer is busy: the message stays where it is. */
  lemma Leaves(r: Run, w: World, i: nat, content: Content) returns (r': Run)
    requires Leads(r, w) && i in w.rooms && w.rooms[i].section == Open && Alone(w.rooms[i].q) && FreshId(w, content.id)
    requires 0 in w.clients && w.clients[0].state == Busy && |r.es| + 4 == r.since && i == 1
    requires r.room == Room(WithMessage(w.rooms[i].q, content, w.now), Open)
    ensures r' == r.(es := r'.es) && |r'.es| == r.since && Leads(r', w.(rooms := w.rooms[1 := r.room]))
  {
    hide Leads, Enabled, Step, FreshId, WithMessage, Beginning;
    var q := w.rooms[i].q;
    var p := WithMessage(q, content, w.now);
    MessageIs(q, content, w.now);
    r' := Announces(r, w, i, content);
    var w1 := SetRoom(w, i, p, Scan(0));
    TryStep(w1, i, p);
    var w2 := SetRoom(w, i, p, Scan(1));
    assert SetRoom(w1, i, p, Scan(1)) == w2;
    r' := OneMore(r', w1, Try(i));
    GiveUpStep(w2, i, p);
    assert SetRoom(w2, i, p, Open) == w.(rooms := w.rooms[1 := r.room]);
    r' := OneMore(r', w2, Try(i));
  }

  // ---- a completion

  lemma ConfirmStep(w: World, q: Queue<nat>, id: string)
    requires 0 in w.rooms && w.rooms[0] == Room(q, Open) && QO.Holds(q, 0, id) && 0 in w.clients && w.tasks == map[]
    ensures Enabled(w, Confirm(0, 0, id, 0))
    ensures Step(w, Confirm(0, 0, id, 0)) == SetClient(SetRoom(w, 0, QO.Confirm(q, 0, id, w.now), Open), 0, w.clients[0].(current := None)).(tasks := map[0 := Releasing(0)])
  {
    hide QO.Confirm;
    assert w.tasks[0 := Releasing(0)] == map[0 := Releasing(0)];
  }

  lemma ReleaseStep(w: World)
    requires w.tasks == map[0 := Releasing(0)] && 0 in w.clients && w.clients[0].state == Busy
    ensures Enabled(w, Release(0))
    ensures Step(w, Release(0)) == SetClient(w, 0, w.clients[0].(state := Free)).(tasks := map[0 := Released(0)])
  {
    assert w.tasks[0 := Released(0)] == map[0 := Released(0)];
  }

  /** The round of a consumer that is not free ends at once. */
  lemma ListStep(w: World)
    requires w.tasks == map[0 := Released(0)] && 0 in w.clients
    ensures Enabled(w, ListQueues(0, 0)) && Step(w, ListQueues(0, 0)) == w.(tasks := map[0 := Waking(0, w.clients[0].queues)])
  {
    assert w.clients[0].queues[0..] + w.clients[0].queues[..0] == w.clients[0].queues;
    assert forall task :: w.tasks[0 := task] == map[0 := task];
  }

  lemma SkipStep(w: World, queues: seq<string>)
    requires w.tasks == map[0 := Waking(0, queues)] && 0 in w.clients && w.clients[0].state == Busy
    ensures Enabled(w, Skip(0)) && Step(w, Skip(0)) == w.(tasks := map[])
  {
    assert w.tasks - {0} == map[];
  }

  lemma ConfirmIs(q: Queue<nat>, id: string, now: int)
    requires Alone(q) && QO.Holds(q, 0, id)
    ensures var q' := QO.Confirm(q, 0, id, now);
            Alone(q') && q'.name == q.name && q'.settings == q.settings && q'.inFlight == q.inFlight - {id} && q'.log == q.log + [Confirmed(id, 0)]
  {
  }

  const A := "a"
  const B := "b"

  /** The consumer is busy with a message of the first queue; in the second one waits. */
  ghost function Working(now: int, q: Queue<nat>, other: Room, id: string): World {
    World(now, map[0 := Room(q, Open), 1 := other], map[A := 0, B := 1], map[0 := Client(Busy, Some((A, id)), [A, B], Calm)], map[])
  }

  ghost predicate WorksOn(q: Queue<nat>, id: string) {
    q.name == A && Alone(q) && QO.Holds(q, 0, id)
  }

  /** It confirmed, and is released: its round is still to come. */
  ghost function AboutToGoRound(now: int, q: Queue<nat>, other: Room): World {
    World(now, map[0 := Room(q, Open), 1 := other], map[A := 0, B := 1], map[0 := Client(Free, None, [A, B], Calm)], map[0 := Released(0)])
  }

  lemma Confirms(r: Run, q: Queue<nat>, id: string) returns (r': Run)
    requires Leads(r, Working(r.now, q, r.room, id)) && WorksOn(q, id)
    ensures r' == r.(es := r'.es) && |r'.es| == |r.es| + 2 && Leads(r', AboutToGoRound(r.now, QO.Confirm(q, 0, id, r.now), r.room))
  {
    hide Leads, Enabled, Step, QO.Confirm;
    var w := Working(r.now, q, r.room, id);
    ConfirmStep(w, q, id);
    var idle, client := QO.Confirm(q, 0, id, r.now), Client(Busy, None, [A, B], Calm);
    var w1 := World(r.now, map[0 := Room(idle, Open), 1 := r.room], map[A := 0, B := 1], map[0 := client], map[0 := Releasing(0)]);
    Renewed(w, idle, client);
    r' := OneMore(r, w, Confirm(0, 0, id, 0));
    ReleaseStep(w1);
    Renewed(w1, idle, client.(state := Free));
    r' := OneMore(r', w1, Release(0));
  }

  lemma Renewed(w: World, q: Queue<nat>, client: Client)
    requires w.rooms.Keys == {0, 1} && w.clients.Keys == {0}
    ensures w.rooms[0 := Room(q, Open)] == map[0 := Room(q, Open), 1 := w.rooms[1]] && w.clients[0 := client] == map[0 := client]
  {
  }

  lemma GoesRound(r: Run, q: Queue<nat>, id: string) returns (r': Run)
    requires Leads(r, Working(r.now, q, r.room, id).(tasks := map[0 := Released(0)]))
    ensures r' == r.(es := r'.es) && |r'.es| == |r.es| + 2 && Leads(r', Working(r.now, q, r.room, id))
  {
    hide Leads, Enabled, Step;
    var w := Working(r.now, q, r.room, id).(tasks := map[0 := Released(0)]);
    ListStep(w);
    r' := OneMore(r, w, ListQueues(0, 0));
    SkipStep(w.(tasks := map[0 := Waking(0, [A, B])]), [A, B]);
    r' := OneMore(r', w.(tasks := map[0 := Waking(0, [A, B])]), Skip(0));
  }

  /** The consumer confirms and is released; somebody publishes in the first queue before the round. */
  lemma Overtakes(r: Run, q: Queue<nat>, id: string, content: Content) returns (r': Run, q': Queue<nat>)
    requires Leads(r, Working(r.now, q, r.room, id)) && WorksOn(q, id)
    requires FreshId(Working(r.now, q, r.room, id), content.id) && content.id != id
    ensures r' == r.(es := r'.es, ways := r.ways + [Way.Taken(A)]) && |r'.es| == |r.es| + 9
    ensures Leads(r', Working(r.now, q', r.room, content.id)) && WorksOn(q', content.id)
    ensures q'.log == q.log + [Confirmed(id, 0), Happening.Published(content), Pushed(BrokerMessage(A, content, None), 0)]
  {
    hide Leads, QO.Confirm, Given, Alone, FreshId;
    ConfirmIs(q, id, r.now);
    var idle := QO.Confirm(q, 0, id, r.now);
    r' := Confirms(r, q, id);
    var w := AboutToGoRound(r.now, idle, r.room);
    StillFresh(Working(r.now, q, r.room, id), w, content.id, Confirmed(id, 0));
    r' := Gives(r', w, 0, content);
    q' := Given(idle, content, r.now);
    GivenIs(idle, content, r.now);
    Renewed(w, q', Client(Busy, Some((A, content.id)), [A, B], Calm));
    r' := GoesRound(r', q', content.id);
  }

  lemma StillFresh(w: World, w': World, id: string, e: Happening<nat>)
    requires FreshId(w, id) && 0 in w.rooms && 1 in w.rooms && w'.rooms.Keys == {0, 1} && w'.rooms[1] == w.rooms[1]
    requires w'.rooms[0].q.log == w.rooms[0].q.log + [e] && !e.Published? && !(e.Id() == id)
    ensures FreshId(w', id)
  {
    LifeAfter(w.rooms[0].q.log, e, id);
  }

  // ------------------------------------------------------------ a queue that waits for ever

  /** Different messages have names of different lengths. */
  ghost function Name(k: nat): string { seq(k, _ => 'x') }

  ghost function Message(k: nat): Content { Content(Name(k), "", false, None) }

  ghost predicate NamesUpTo(log: seq<Happening<nat>>, k: nat) {
    forall j :: 0 <= j < |log| ==> |log[j].Id()| <= k
  }

  lemma {:induction false} NewIsFresh(log: seq<Happening<nat>>, id: string)
    requires forall j :: 0 <= j < |log| ==> log[j].Id() != id
    ensures LifeOf(log, id) == Some(Unborn)
  {
    if log != [] {
      NewIsFresh(log[..|log| - 1], id);
    }
  }

  lemma BothFresh(w: World, id: string)
    requires w.rooms.Keys == {0, 1}
    requires forall j :: 0 <= j < |w.rooms[0].q.log| ==> w.rooms[0].q.log[j].Id() != id
    requires forall j :: 0 <= j < |w.rooms[1].q.log| ==> w.rooms[1].q.log[j].Id() != id
    ensures FreshId(w, id)
  {
    NewIsFresh(w.rooms[0].q.log, id);
    NewIsFresh(w.rooms[1].q.log, id);
  }

  /** The two queues when the consumer is bound to them. */
  ghost function Served0(name: string, s: Settings, now: int): Queue<nat> {
    QO.Track(QO.Join(NewQueue<nat>(name, s), 0), now)
  }

  lemma ServedIs(name: string, s: Settings, now: int)
    requires !s.paused && s.retention >= 0
    ensures var q := Served0(name, s, now); Alone(q) && q.name == name && q.settings == s && q.inFlight == map[] && q.log == []
  {
  }

  /** The room in which a message waits. */
  ghost function WaitingRoom(s: Settings, now: int): Room {
    Room(WithMessage(Served0(B, s, now), Message(0), now), Open)
  }

  lemma WaitingIs(s: Settings, now: int)
    requires !s.paused && s.retention >= 0
    ensures var q := WaitingRoom(s, now).q; CanServe(q, 0, now) && q.log == [Happening.Published(Message(0))]
  {
    ServedIs(B, s, now);
    MessageIs(Served0(B, s, now), Message(0), now);
    var q := WaitingRoom(s, now).q;
    assert q.pending[0] in q.pending;
  }

  ghost function TwoQueues(now: int, s: Settings, client: Client): World {
    World(now, map[0 := Room(NewQueue(A, s), Open), 1 := Room(NewQueue(B, s), Open)], map[A := 0, B := 1], map[0 := client], map[])
  }

  lemma Opens(now: int, s: Settings, room: Room) returns (r: Run)
    ensures r == Run(now, r.es, [], 20, room) && |r.es| == 3 && Leads(r, TwoQueues(now, s, Client(Free, None, [], Calm)))
  {
    hide Leads, Step;
    NothingDone(now, 20, room);
    var client := Client(Free, None, [], Calm);
    OpensStep(now, s, client);
    r := OneMore(Run(now, [], [], 20, room), Start(now), Connect(0));
    r := OneMore(r, World(now, map[], map[], map[0 := client], map[]), Create(A, s, 0));
    r := OneMore(r, World(now, map[0 := Room(NewQueue(A, s), Open)], map[A := 0], map[0 := client], map[]), Create(B, s, 1));
  }

  lemma OpensStep(now: int, s: Settings, client: Client)
    requires client == Client(Free, None, [], Calm)
    ensures Step(Start(now), Connect(0)) == World(now, map[], map[], map[0 := client], map[])
    ensures Step(World(now, map[], map[], map[0 := client], map[]), Create(A, s, 0)) == World(now, map[0 := Room(NewQueue(A, s), Open)], map[A := 0], map[0 := client], map[])
    ensures Step(World(now, map[0 := Room(NewQueue(A, s), Open)], map[A := 0], map[0 := client], map[]), Create(B, s, 1)) == TwoQueues(now, s, client)
  {
  }

  ghost function BothServed(now: int, s: Settings): World {
    World(now, map[0 := Room(Served0(A, s, now), Open), 1 := Room(Served0(B, s, now), Open)], map[A := 0, B := 1], map[0 := Client(Free, None, [A, B], Calm)], map[])
  }

  lemma BothBound(now: int, s: Settings)
    ensures JoinedTo(JoinedTo(TwoQueues(now, s, Client(Free, None, [], Calm)), A, 0), B, 1) == BothServed(now, s)
  {
    hide QO.Join, QO.Track;
    assert [] + [A] + [B] == [A, B];
  }

  lemma BindsBoth(now: int, s: Settings, room: Room) returns (r: Run)
    ensures r == Run(now, r.es, [], 20, room) && |r.es| == 11 && Leads(r, BothServed(now, s))
  {
    hide Leads, Served0, QO.Join, QO.Track;
    r := Opens(now, s, room);
    var w := TwoQueues(now, s, Client(Free, None, [], Calm));
    r := Binds(r, w, A, 0);
    r := Binds(r, JoinedTo(w, A, 0), B, 1);
    BothBound(now, s);
  }

  /** The consumer is bound to both queues, works on a message of the first, and one waits in the second. */
  lemma Prepared(now: int, s: Settings) returns (r: Run, q: Queue<nat>)
    requires !s.paused && s.retention >= 0
    ensures r == Run(now, r.es, [Way.Taken(A)], 20, WaitingRoom(s, now)) && |r.es| == 20
    ensures Leads(r, Working(now, q, r.room, Name(1))) && WorksOn(q, Name(1)) && NamesUpTo(q.log, 1)
  {
    hide Leads, Given, WithMessage, Served0, Alone, FreshId;
    ServedIs(A, s, now);
    ServedIs(B, s, now);
    r := BindsBoth(now, s, WaitingRoom(s, now));
    var w := BothServed(now, s);
    BothFresh(w, Name(1));
    r := Gives(r, w, 0, Message(1));
    q := Given(Served0(A, s, now), Message(1), now);
    GivenIs(Served0(A, s, now), Message(1), now);
    var w' := GivenTo0(w, 0, Message(1));
    Renewed(w, q, Client(Busy, Some((A, Name(1))), [A, B], Calm));
    BothFresh(w', Name(0));
    r := Leaves(r, w', 1, Message(0));
    assert w'.(rooms := w'.rooms[1 := r.room]) == Working(now, q, r.room, Name(1));
  }

  /** The first queue serves so many times, each time by a taking. */
  lemma {:induction false} Again(now: int, s: Settings, n: nat) returns (r: Run, q: Queue<nat>)
    requires !s.paused && s.retention >= 0
    ensures r == Run(now, r.es, seq(n + 1, _ => Way.Taken(A)), 20, WaitingRoom(s, now)) && |r.es| == 20 + 9 * n
    ensures Leads(r, Working(now, q, r.room, Name(n + 1))) && WorksOn(q, Name(n + 1)) && NamesUpTo(q.log, n + 1)
  {
    hide Leads, WorksOn, FreshId, Working, WaitingRoom;
    if n == 0 {
      r, q := Prepared(now, s);
    } else {
      r, q := Again(now, s, n - 1);
      NextIsFresh(now, s, q, n);
      r, q := Overtakes(r, q, Name(n), Message(n + 1));
      assert seq(n, _ => Way.Taken(A)) + [Way.Taken(A)] == seq(n + 1, _ => Way.Taken(A));
    }
  }

  lemma NextIsFresh(now: int, s: Settings, q: Queue<nat>, n: nat)
    requires n > 0 && NamesUpTo(q.log, n) && !s.paused && s.retention >= 0
    ensures FreshId(Working(now, q, WaitingRoom(s, now), Name(n)), Name(n + 1))
  {
    hide WaitingRoom;
    WaitingIs(s, now);
    BothFresh(Working(now, q, WaitingRoom(s, now), Name(n)), Name(n + 1));
  }

  lemma {:induction false} TakenOnly(list: seq<string>, last: Option<string>, n: nat, name: string)
    requires A in list && name != A
    ensures Starves(list, last, seq(n, _ => Way.Taken(A)), name)
    decreases n
  {
    if n > 0 {
      assert seq(n, _ => Way.Taken(A))[1..] == seq(n - 1, _ => Way.Taken(A));
      TakenOnly(list, Some(A), n - 1, name);
    }
  }

  /**
   * For every n there is a run in which a consumer is bound to two queues, one of which holds a message for it
   * from some point on and is never touched again, while the other serves it n times, each time before its
   * round: the second queue starves.
   */
  lemma WaitsForEver(now: int, s: Settings, n: nat) returns (es: seq<Event>, since: nat, room: Room)
    requires !s.paused && s.retention >= 0
    ensures Possible(Start(now), es) && |es| == since + 9 * n && Kept(now, es, since, room) && CanServe(room.q, 0, now)
    ensures var w := After(Start(now), es);
            && w.now == now && B in w.registry && w.registry[B] == 1 && 0 in w.clients && w.clients[0].queues == [A, B]
            && WaysOf(Start(now), es, 0) == seq(n + 1, _ => Way.Taken(A)) && Starves(w.clients[0].queues, None, WaysOf(Start(now), es, 0), B)
  {
    hide WorksOn, WaitingRoom, CanServe, Possible, After, WaysOf, Kept, Starves;
    var r, q := Again(now, s, n);
    es, since, room := r.es, r.since, r.room;
    WaitingIs(s, now);
    TakenOnly([A, B], None, n + 1, B);
  }
}
