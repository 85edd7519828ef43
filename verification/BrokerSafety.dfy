/**
 * How the invariant of the interleaved broker is kept.
 *
 * Each consumer has a token: it is idle, acquired in a room, the owner of one message, or about to be
 * released by a thread. A step that changes one room, one consumer and one thread is sound when these
 * three fit together afterwards and the tokens of all others concern something else (Frame). Steps that
 * touch no consumer's message change one room only (QuietStep).
 */
module BrokerSafety {
  import opened Options
  import opened Messages
  import opened QueueModel
  import QO = QueueOperations
  import opened QuietSteps
  import opened Interleaving

  type Tokens = map<nat, Token>

  // ------------------------------------------------------------ one room, one consumer, one task change

  ghost predicate SameBut<K, V>(a: map<K, V>, b: map<K, V>, k: K) {
    && (forall x :: x in a && x != k ==> x in b && b[x] == a[x])
    && (forall x :: x in b && x != k ==> x in a)
    && (k in a ==> k in b)
  }

  /** Tasks may also end. */
  ghost predicate SameOrGone<K, V>(a: map<K, V>, b: map<K, V>, k: K) {
    && (forall x :: x in a && x != k ==> x in b && b[x] == a[x])
    && (forall x :: x in b && x != k ==> x in a)
  }

  /** What another consumer relies on is not touched. */
  ghost predicate Untouched(w: World, w': World, d: nat, token: Token, i: nat, t: nat) {
    match token
    case Idle => true
    case Acquired(j) => j == i ==> i in w'.rooms && w'.rooms[i].section == Got(d)
    case Owning(j, id) => j == i ==> i in w.rooms && i in w'.rooms && QO.Holds(w'.rooms[i].q, d, id) && BeingAnswered(w'.rooms[i], d) == BeingAnswered(w.rooms[i], d)
    case Freeing(s) => s == t ==> t in w'.tasks && w'.tasks[t] == Releasing(d)
  }

  /** The token of the consumer concerns nothing but this room and this task. */
  ghost predicate Only(token: Token, i: nat, t: nat) {
    match token
    case Idle => true
    case Acquired(j) => j == i
    case Owning(j, _) => j == i
    case Freeing(s) => s == t
  }

  ghost predicate Framed(w: World, w': World, h: Tokens, h': Tokens, i: nat, c: nat, t: nat) {
    && SameBut(w.rooms, w'.rooms, i) && SameBut(w.clients, w'.clients, c) && SameOrGone(w.tasks, w'.tasks, t) && SameBut(h, h', c)
    && h'.Keys == w'.clients.Keys
    && (i in w.rooms ==> w'.rooms[i].q.name == w.rooms[i].q.name)
    && (c in h ==> h'[c] == h[c] || Only(h[c], i, t))
    && (forall d :: d in h && d != c ==> Untouched(w, w', d, h[d], i, t))
  }

  lemma OtherRooms(w: World, w': World, h: Tokens, h': Tokens, i: nat, c: nat, t: nat, j: nat)
    requires Inv(w, h) && Framed(w, w', h, h', i, c, t)
    requires c in w.clients && j in w.rooms && j != i && c in w.rooms[j].q.consumers ==> Linked(w'.clients[c], j, w.rooms[j].q.name)
    requires j in w'.rooms && j != i
    ensures RoomOk(j, w'.rooms[j], h') && LinksOk(j, w'.rooms[j].q, w'.clients)
  {
    hide QueueInv, Linked, RegistryOk, ClientOk, StageOk, TaskOk;
    var room := w.rooms[j];
    assert RoomOk(j, room, h) && LinksOk(j, room.q, w.clients);
    forall id | id in room.q.inFlight && room.q.inFlight[id].owner.Some?
      ensures room.q.inFlight[id].owner.value in h' && h'[room.q.inFlight[id].owner.value] == Owning(j, id)
    {
      assert h[room.q.inFlight[id].owner.value] == Owning(j, id);
    }
    forall d | d in room.q.consumers ensures d in w'.clients && Linked(w'.clients[d], j, room.q.name) {
      assert d in w.clients && Linked(w.clients[d], j, room.q.name);
    }
  }

  lemma OtherClients(w: World, w': World, h: Tokens, h': Tokens, i: nat, c: nat, t: nat, d: nat)
    requires Inv(w, h) && Framed(w, w', h, h', i, c, t)
    requires d in w'.clients && d != c
    ensures ClientOk(d, w'.clients[d], h'[d], w'.rooms, w'.tasks) && StageOk(d, w'.clients[d], h'[d], w'.rooms)
  {
    hide QueueInv, Linked, RegistryOk, RoomOk, LinksOk, TaskOk;
    assert ClientOk(d, w.clients[d], h[d], w.rooms, w.tasks) && StageOk(d, w.clients[d], h[d], w.rooms);
    assert Untouched(w, w', d, h[d], i, t);
  }

  lemma OtherTasks(w: World, w': World, h: Tokens, h': Tokens, i: nat, c: nat, t: nat, s: nat)
    requires Inv(w, h) && Framed(w, w', h, h', i, c, t)
    requires s in w'.tasks && s != t
    ensures TaskOk(s, w'.tasks[s], h', w'.rooms)
  {
    hide QueueInv, Linked, RegistryOk, RoomOk, LinksOk, ClientOk, StageOk;
    assert TaskOk(s, w.tasks[s], h, w.rooms);
  }

  /** When one room, one consumer and one task change, only they have to be looked at. */
  lemma Frame(w: World, w': World, h: Tokens, h': Tokens, i: nat, c: nat, t: nat)
    requires Inv(w, h) && Framed(w, w', h, h', i, c, t)
    requires RegistryOk(w'.registry, w'.rooms)
    requires i in w'.rooms ==> RoomOk(i, w'.rooms[i], h') && LinksOk(i, w'.rooms[i].q, w'.clients)
    requires c in w'.clients ==> ClientOk(c, w'.clients[c], h'[c], w'.rooms, w'.tasks) && StageOk(c, w'.clients[c], h'[c], w'.rooms)
    requires t in w'.tasks ==> TaskOk(t, w'.tasks[t], h', w'.rooms)
    requires forall j :: c in w.clients && j in w.rooms && j != i && c in w.rooms[j].q.consumers ==> Linked(w'.clients[c], j, w.rooms[j].q.name)
    ensures Inv(w', h')
  {
    hide RoomOk, LinksOk, ClientOk, StageOk, TaskOk, RegistryOk, Linked, Untouched, Only;
    forall j | j in w'.rooms ensures RoomOk(j, w'.rooms[j], h') && LinksOk(j, w'.rooms[j].q, w'.clients) {
      if j != i {
        OtherRooms(w, w', h, h', i, c, t, j);
      }
    }
    forall d | d in w'.clients ensures ClientOk(d, w'.clients[d], h'[d], w'.rooms, w'.tasks) && StageOk(d, w'.clients[d], h'[d], w'.rooms) {
      if d != c {
        OtherClients(w, w', h, h', i, c, t, d);
      }
    }
    forall s | s in w'.tasks ensures TaskOk(s, w'.tasks[s], h', w'.rooms) {
      if s != t {
        OtherTasks(w, w', h, h', i, c, t, s);
      }
    }
  }

  lemma RegistryKept(w: World, w': World, i: nat)
    requires RegistryOk(w.registry, w.rooms) && w'.registry == w.registry && SameBut(w.rooms, w'.rooms, i)
    requires i in w.rooms && w'.rooms[i].q.name == w.rooms[i].q.name && (w.rooms[i].q.removed ==> w'.rooms[i].q.removed)
    ensures RegistryOk(w'.registry, w'.rooms)
  {
  }

  /** There is always another number. */
  ghost function FreshKey<V>(m: map<nat, V>): (k: nat)
    ensures k !in m
  {
    FreshIn(m.Keys)
  }

  ghost function FreshIn(s: set<nat>): (k: nat)
    ensures k !in s && forall x :: x in s ==> x < k
  {
    if s == {} then 0
    else
      var x :| x in s;
      var k := FreshIn(s - {x});
      assert forall y :: y in s ==> y == x || y in s - {x};
      if x < k then k else x + 1
  }

  // ------------------------------------------------------------ steps that concern one room only

  lemma OwnersKept(i: nat, q: Queue<nat>, q': Queue<nat>, h: Tokens)
    requires OwnersOk(i, q, h) && SameOwners(q, q')
    ensures OwnersOk(i, q', h)
  {
    forall id | id in q'.inFlight && q'.inFlight[id].owner.Some?
      ensures q'.inFlight[id].owner.value in h && h[q'.inFlight[id].owner.value] == Owning(i, id)
    {
      assert QO.Holds(q', q'.inFlight[id].owner.value, id);
      assert QO.Holds(q, q'.inFlight[id].owner.value, id);
    }
  }

  /** Who holds the lock does something to the messages that are nobody's. */
  lemma QuietStep(w: World, h: Tokens, i: nat, q': Queue<nat>, section: Section)
    requires Inv(w, h) && i in w.rooms && (section.Open? || section.Loop? || section.Scan?)
    requires w.rooms[i].section.Open? || w.rooms[i].section.Loop? || w.rooms[i].section.Scan?
    requires QueueInv(q') && q'.name == w.rooms[i].q.name && (w.rooms[i].q.removed ==> q'.removed) && LinksOk(i, q', w.clients)
    requires SameOwners(w.rooms[i].q, q')
    requires q'.removed ==> section.Open? || section.Loop?
    requires section.Scan? ==> q'.pending != []
    ensures Inv(SetRoom(w, i, q', section), h)
  {
    hide QueueInv, LifeOf, SameOwners, OwnersOk, LinksOk, RegistryOk, ClientOk, StageOk, TaskOk, Linked;
    var w', room := SetRoom(w, i, q', section), w.rooms[i];
    assert RoomOk(i, room, h) && LinksOk(i, room.q, w.clients);
    OwnersKept(i, room.q, q', h);
    RegistryKept(w, w', i);
    var c, t := FreshKey(w.clients), FreshKey(w.tasks);
    forall d | d in h ensures Untouched(w, w', d, h[d], i, t) {
      QuietForOthers(w, h, i, q', section, d, t);
    }
    Frame(w, w', h, h, i, c, t);
  }

  lemma LinksKept(i: nat, q: Queue<nat>, q': Queue<nat>, clients: map<nat, Client>)
    requires LinksOk(i, q, clients) && SamePlaceOf(q, q')
    ensures LinksOk(i, q', clients)
  {
  }

  lemma QuietForOthers(w: World, h: Tokens, i: nat, q': Queue<nat>, section: Section, d: nat, t: nat)
    requires Inv(w, h) && i in w.rooms && d in h && t !in w.tasks && SameOwners(w.rooms[i].q, q')
    requires (section.Open? || section.Loop? || section.Scan?) && (w.rooms[i].section.Open? || w.rooms[i].section.Loop? || w.rooms[i].section.Scan?)
    ensures Untouched(w, SetRoom(w, i, q', section), d, h[d], i, t)
  {
    hide QueueInv, RoomOk, LinksOk, RegistryOk, StageOk, TaskOk;
    assert ClientOk(d, w.clients[d], h[d], w.rooms, w.tasks);
  }

  lemma QuietOperation(w: World, h: Tokens, i: nat, q': Queue<nat>)
    requires Inv(w, h) && Unlocked(w, i) && QueueInv(q') && Quiet(w.rooms[i].q, q')
    ensures Inv(SetRoom(w, i, q', Open), h)
  {
    hide QueueInv, SameOwners, LinksOk, RegistryOk, ClientOk, StageOk, TaskOk;
    assert LinksOk(i, w.rooms[i].q, w.clients);
    LinksKept(i, w.rooms[i].q, q', w.clients);
    QuietStep(w, h, i, q', Open);
  }

  lemma RoomInv(w: World, h: Tokens, i: nat)
    requires Inv(w, h) && i in w.rooms
    ensures QueueInv(w.rooms[i].q)
  {
    assert RoomOk(i, w.rooms[i], h);
  }

  lemma KeepTake(w: World, h: Tokens, i: nat)
    requires Inv(w, h) && Enabled(w, Take(i))
    ensures Inv(Step(w, Take(i)), h)
  {
    hide Inv, QueueInv, Quiet;
    RoomInv(w, h, i);
    QO.TakeKeeps(w.rooms[i].q, w.now);
    QuietTake(w.rooms[i].q, w.now);
    QuietOperation(w, h, i, QO.Take(w.rooms[i].q, w.now));
  }

  lemma KeepAsk(w: World, h: Tokens, i: nat, id: string, response: string, includeUndelivered: bool)
    requires Inv(w, h) && Enabled(w, Ask(i, id, response, includeUndelivered))
    ensures Inv(Step(w, Ask(i, id, response, includeUndelivered)), h)
  {
    hide Inv, QueueInv, Quiet, QO.AnswerAsked;
    RoomInv(w, h, i);
    var closed := ClosedOf(w.clients);
    QO.AnswerAskedKeeps(w.rooms[i].q, id, response, includeUndelivered, closed, w.now);
    QuietAsk(w.rooms[i].q, id, response, includeUndelivered, closed, w.now);
    QuietOperation(w, h, i, QO.AnswerAsked(w.rooms[i].q, id, response, includeUndelivered, closed, w.now));
  }

  lemma KeepCollect(w: World, h: Tokens, i: nat, id: string)
    requires Inv(w, h) && Enabled(w, Collect(i, id))
    ensures Inv(Step(w, Collect(i, id)), h)
  {
    hide Inv, QueueInv, Quiet, QO.Collect;
    RoomInv(w, h, i);
    QO.CollectKeeps(w.rooms[i].q, id, w.now);
    QuietCollect(w.rooms[i].q, id, w.now);
    QuietOperation(w, h, i, QO.Collect(w.rooms[i].q, id, w.now));
  }

  lemma KeepAwait(w: World, h: Tokens, i: nat, c: nat, ids: seq<string>)
    requires Inv(w, h) && Enabled(w, Await(i, c, ids))
    ensures Inv(Step(w, Await(i, c, ids)), h)
  {
    hide Inv, QueueInv, Quiet, QO.Track, QO.AwaitEach;
    RoomInv(w, h, i);
    var closed := ClosedOf(w.clients);
    QO.AwaitKeeps(w.rooms[i].q, c, ids, closed);
    QO.TrackKeeps(QO.AwaitEach(w.rooms[i].q, c, ids, closed), w.now);
    QuietAwait(w.rooms[i].q, c, ids, closed, w.now);
    QuietOperation(w, h, i, QO.Await(w.rooms[i].q, c, ids, closed, w.now));
  }

  lemma KeepPurge(w: World, h: Tokens, i: nat)
    requires Inv(w, h) && Enabled(w, Purge(i))
    ensures Inv(Step(w, Purge(i)), h)
  {
    hide Inv, QueueInv, Quiet, QO.Purge, QO.Track;
    RoomInv(w, h, i);
    QO.PurgeKeeps(w.rooms[i].q);
    QO.TrackKeeps(QO.Purge(w.rooms[i].q), w.now);
    QuietPurge(w.rooms[i].q, w.now);
    QuietOperation(w, h, i, QO.Track(QO.Purge(w.rooms[i].q), w.now));
  }

  lemma KeepSweep(w: World, h: Tokens, i: nat, order: seq<string>)
    requires Inv(w, h) && Enabled(w, Sweep(i, order))
    ensures Inv(Step(w, Sweep(i, order)), h)
  {
    hide Inv, QueueInv, Quiet, QO.Sweep;
    RoomInv(w, h, i);
    QO.SweepKeeps(w.rooms[i].q, order, w.now);
    QuietSweep(w.rooms[i].q, order, w.now);
    QuietOperation(w, h, i, QO.Sweep(w.rooms[i].q, order, w.now));
  }

  lemma KeepPublish(w: World, h: Tokens, i: nat, content: Content, ttl: int, replyTo: Option<nat>)
    requires Inv(w, h) && Enabled(w, Publish(i, content, ttl, replyTo))
    ensures Inv(Step(w, Publish(i, content, ttl, replyTo)), h)
  {
    hide QueueInv, RegistryOk, ClientOk, StageOk, TaskOk, LifeOf;
    var q := w.rooms[i].q;
    assert RoomOk(i, w.rooms[i], h) && LinksOk(i, q, w.clients);
    if !q.removed {
      QO.PublishKeeps(q, content, ttl, replyTo, w.now);
      QuietStep(w, h, i, QO.Publish(q, content, ttl, replyTo, w.now), Loop);
    }
  }

  /** The head of the dispatch loop buries, and goes on only with a message in hand. */
  lemma KeepCheck(w: World, h: Tokens, i: nat)
    requires Inv(w, h) && Enabled(w, Check(i))
    ensures Inv(Step(w, Check(i)), h)
  {
    hide QueueInv, RegistryOk, ClientOk, StageOk, TaskOk, LifeOf, SameOwners, NoNewWork, LinksOk, OwnersOk, QO.DropDead, QO.Track;
    var q := w.rooms[i].q;
    var live := QO.DropDead(q, w.now);
    assert RoomOk(i, w.rooms[i], h) && LinksOk(i, q, w.clients);
    QO.TrackKeeps(q, w.now);
    QuietTrack(q, w.now);
    QO.DropDeadKeeps(q, w.now);
    QuietDropDead(q, w.now);
    QO.TrackKeeps(live, w.now);
    QuietTrack(live, w.now);
    QuietThen(q, live, QO.Track(live, w.now));
    var room := Checked(q, w.now);
    LinksKept(i, q, room.q, w.clients);
    QO.DropDeadShortens(q, w.now);
    assert room.section.Scan? ==> q.consumers != [] && room.q.removed == q.removed;
    InUse(q);
    QuietStep(w, h, i, room.q, room.section);
  }

  lemma InUse(q: Queue<nat>)
    requires QueueInv(q)
    ensures q.pending != [] || q.inFlight != map[] || q.consumers != [] ==> !q.removed
  {
  }

  // ------------------------------------------------------------ steps that concern tasks or one consumer only

  lemma TaskStep(w: World, h: Tokens, t: nat, task: Task)
    requires Inv(w, h) && !task.Releasing? && (t in w.tasks ==> !w.tasks[t].Releasing?) && TaskOk(t, task, h, w.rooms)
    ensures Inv(SetTask(w, t, task), h)
  {
    hide RoomOk, LinksOk, StageOk, RegistryOk;
    var w' := SetTask(w, t, task);
    forall d | d in w'.clients ensures ClientOk(d, w'.clients[d], h[d], w'.rooms, w'.tasks) {
      assert ClientOk(d, w.clients[d], h[d], w.rooms, w.tasks);
    }
  }

  lemma EndStep(w: World, h: Tokens, t: nat)
    requires Inv(w, h) && t in w.tasks && !w.tasks[t].Releasing?
    ensures Inv(EndTask(w, t), h)
  {
    hide RoomOk, LinksOk, StageOk, RegistryOk;
    var w' := EndTask(w, t);
    forall d | d in w'.clients ensures ClientOk(d, w'.clients[d], h[d], w'.rooms, w'.tasks) {
      assert ClientOk(d, w.clients[d], h[d], w.rooms, w.tasks);
    }
  }

  lemma ClientStep(w: World, h: Tokens, c: nat, client: Client)
    requires Inv(w, h) && c in w.clients
    requires ClientOk(c, client, h[c], w.rooms, w.tasks) && StageOk(c, client, h[c], w.rooms)
    requires forall j :: j in w.rooms && c in w.rooms[j].q.consumers ==> Linked(client, j, w.rooms[j].q.name)
    ensures Inv(SetClient(w, c, client), h)
  {
    hide RoomOk, RegistryOk, ClientOk, StageOk, TaskOk, Linked;
    var w' := SetClient(w, c, client);
    forall i | i in w'.rooms ensures LinksOk(i, w'.rooms[i].q, w'.clients) {
      assert LinksOk(i, w.rooms[i].q, w.clients);
    }
  }

  lemma LinkedThere(w: World, h: Tokens, c: nat, j: nat)
    requires Inv(w, h) && j in w.rooms && c in w.rooms[j].q.consumers
    ensures c in w.clients && Linked(w.clients[c], j, w.rooms[j].q.name) && !w.rooms[j].q.removed
    ensures w.rooms[j].q.name in w.registry && w.registry[w.rooms[j].q.name] == j
  {
    hide ClientOk, StageOk, TaskOk, QueueInv;
    assert LinksOk(j, w.rooms[j].q, w.clients) && RoomOk(j, w.rooms[j], h);
    InUse(w.rooms[j].q);
  }

  lemma OwnerThere(w: World, h: Tokens, c: nat)
    requires Inv(w, h) && c in w.clients
    ensures ClientOk(c, w.clients[c], h[c], w.rooms, w.tasks) && StageOk(c, w.clients[c], h[c], w.rooms)
    ensures h[c].Owning? ==>
              var i := h[c].room;
              i in w.rooms && QO.Holds(w.rooms[i].q, c, h[c].id) && !w.rooms[i].q.removed
              && w.rooms[i].q.name in w.registry && w.registry[w.rooms[i].q.name] == i
    ensures h[c].Acquired? ==> h[c].room in w.rooms && c in w.rooms[h[c].room].q.consumers
  {
    hide LinksOk, TaskOk, QueueInv;
    if h[c].Owning? {
      var i := h[c].room;
      assert RoomOk(i, w.rooms[i], h);
      InUse(w.rooms[i].q);
    }
    if h[c].Acquired? {
      assert RoomOk(h[c].room, w.rooms[h[c].room], h);
    }
  }

  lemma KeepListQueues(w: World, h: Tokens, t: nat, start: nat)
    requires Inv(w, h) && Enabled(w, ListQueues(t, start))
    ensures Inv(Step(w, ListQueues(t, start)), h)
  {
    hide RoomOk, LinksOk, ClientOk, StageOk, RegistryOk;
    var c := w.tasks[t].c;
    assert TaskOk(t, w.tasks[t], h, w.rooms);
    TaskStep(w, h, t, Waking(c, w.clients[c].queues[start..] + w.clients[c].queues[..start]));
  }

  lemma KeepNext(w: World, h: Tokens, t: nat)
    requires Inv(w, h) && Enabled(w, Next(t))
    ensures Inv(Step(w, Next(t)), h)
  {
    hide RoomOk, LinksOk, ClientOk, StageOk;
    var c, rest := w.tasks[t].c, w.tasks[t].rest;
    assert TaskOk(t, w.tasks[t], h, w.rooms);
    TaskStep(w, h, t, if rest[0] in w.registry then WakingAt(c, w.registry[rest[0]], rest[1..]) else Waking(c, rest[1..]));
  }

  /** A thread takes the lock of a queue to dispatch it. */
  lemma KeepDispatching(w: World, h: Tokens, i: nat)
    requires Inv(w, h) && Unlocked(w, i)
    ensures Inv(SetRoom(w, i, w.rooms[i].q, Loop), h)
  {
    hide QueueInv, RegistryOk, ClientOk, StageOk, TaskOk;
    assert RoomOk(i, w.rooms[i], h) && LinksOk(i, w.rooms[i].q, w.clients);
    QuietStep(w, h, i, w.rooms[i].q, Loop);
  }

  lemma KeepWake(w: World, h: Tokens, t: nat)
    requires Inv(w, h) && Enabled(w, Wake(t))
    ensures Inv(Step(w, Wake(t)), h)
  {
    hide RoomOk, LinksOk, ClientOk, StageOk, RegistryOk;
    assert TaskOk(t, w.tasks[t], h, w.rooms);
    KeepDispatching(w, h, w.tasks[t].inst);
    var w' := SetRoom(w, w.tasks[t].inst, w.rooms[w.tasks[t].inst].q, Loop);
    TaskStep(w', h, t, Waking(w.tasks[t].c, w.tasks[t].rest));
  }

  lemma KeepNudge(w: World, h: Tokens, t: nat)
    requires Inv(w, h) && Enabled(w, Nudge(t))
    ensures Inv(Step(w, Nudge(t)), h)
  {
    hide RoomOk, LinksOk, ClientOk, StageOk, RegistryOk, TaskOk;
    KeepDispatching(w, h, w.tasks[t].inst);
    EndStep(SetRoom(w, w.tasks[t].inst, w.rooms[w.tasks[t].inst].q, Loop), h, t);
  }

  lemma KeepSkip(w: World, h: Tokens, t: nat)
    requires Inv(w, h) && Enabled(w, Skip(t))
    ensures Inv(Step(w, Skip(t)), h)
  {
    hide Inv;
    EndStep(w, h, t);
  }
}
