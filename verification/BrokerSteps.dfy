/**
 * The steps of the interleaved broker that hand a consumer around.
 *
 * A consumer is acquired in a room while its lock is held, becomes the owner of a message there, settles
 * it under the same lock, and is released by the thread that settled it. Every one of these steps is an
 * instance of Move: the token of one consumer changes, and with it one room, one thread and what the
 * consumer says it holds.
 */
module BrokerSteps {
  import opened Options
  import opened Messages
  import opened Consumers
  import opened QueueModel
  import QO = QueueOperations
  import opened QuietSteps
  import opened Interleaving
  import opened BrokerSafety

  // ------------------------------------------------------------ the broker as a whole

  lemma KeepTick(w: World, h: Tokens, time: int)
    requires Inv(w, h) && Enabled(w, Tick(time))
    ensures Inv(Step(w, Tick(time)), h)
  {
  }

  lemma KeepConnect(w: World, h: Tokens, c: nat)
    requires Inv(w, h) && Enabled(w, Connect(c))
    ensures Inv(Step(w, Connect(c)), h[c := Idle])
  {
    hide RoomOk, LinksOk, ClientOk, StageOk, TaskOk, RegistryOk, QueueInv;
    var w', h' := Step(w, Connect(c)), h[c := Idle];
    var i, t := FreshKey(w.rooms), FreshKey(w.tasks);
    forall d | d in h && d != c ensures Untouched(w, w', d, h[d], i, t) {
      OwnerThere(w, h, d);
      FreeingThere(w, h, d);
    }
    NewClientOk(w', c);
    Frame(w, w', h, h', i, c, t);
  }

  lemma NewClientOk(w: World, c: nat)
    ensures ClientOk(c, Client(Free, None, [], Calm), Idle, w.rooms, w.tasks) && StageOk(c, Client(Free, None, [], Calm), Idle, w.rooms)
  {
  }

  /** Nobody relies on what is not there. */
  lemma FreeingThere(w: World, h: Tokens, d: nat)
    requires Inv(w, h) && d in h
    ensures match h[d] case Freeing(s) => s in w.tasks && w.tasks[s] == Releasing(d) case Acquired(i) => i in w.rooms && w.rooms[i].section == Got(d) case Owning(i, _) => i in w.rooms case Idle => true
  {
    hide RoomOk, LinksOk, TaskOk, RegistryOk, QueueInv;
    assert ClientOk(d, w.clients[d], h[d], w.rooms, w.tasks);
  }

  lemma KeepCreate(w: World, h: Tokens, name: string, settings: Settings, i: nat)
    requires Inv(w, h) && Enabled(w, Create(name, settings, i))
    ensures Inv(Step(w, Create(name, settings, i)), h)
  {
    hide RoomOk, LinksOk, ClientOk, StageOk, TaskOk, QueueInv, RegistryOk, NewQueue;
    var w' := SetRoom(w, i, NewQueue(name, settings), Open).(registry := w.registry[name := i]);
    NewRegistryOk(w, name, settings, i);
    var c, t := FreshKey(w.clients), FreshKey(w.tasks);
    forall d | d in h && d != c ensures Untouched(w, w', d, h[d], i, t) {
      FreeingThere(w, h, d);
    }
    NewRoomOk(i, name, settings, h, w.clients);
    Frame(w, w', h, h, i, c, t);
  }

  lemma NewRegistryOk(w: World, name: string, settings: Settings, i: nat)
    requires RegistryOk(w.registry, w.rooms) && name !in w.registry && i !in w.rooms
    ensures RegistryOk(w.registry[name := i], w.rooms[i := Room(NewQueue(name, settings), Open)])
  {
  }

  lemma NewRoomOk(i: nat, name: string, settings: Settings, h: Tokens, clients: map<nat, Client>)
    ensures RoomOk(i, Room(NewQueue(name, settings), Open), h) && LinksOk(i, NewQueue(name, settings), clients)
  {
    NewQueueInv<nat>(name, settings);
  }

  lemma KeepDeregister(w: World, h: Tokens, i: nat)
    requires Inv(w, h) && Enabled(w, Deregister(i))
    ensures Inv(Step(w, Deregister(i)), h)
  {
    hide RoomOk, LinksOk, ClientOk, StageOk, TaskOk, QueueInv;
  }

  lemma KeepSettings(w: World, h: Tokens, i: nat, settings: Settings)
    requires Inv(w, h) && i in w.rooms
    ensures Inv(SetRoom(w, i, w.rooms[i].q.(settings := settings), w.rooms[i].section), h)
  {
    hide LinksOk, RoomOk, ClientOk, StageOk, RegistryOk, QueueInv, TaskOk, OwnersOk, Untouched, Only;
    var w' := SetRoom(w, i, w.rooms[i].q.(settings := settings), w.rooms[i].section);
    var c, t := FreshKey(w.clients), FreshKey(w.tasks);
    RoomSet(w, h, i, settings);
    RegistryMoved(w, h, i, w'.rooms[i], w');
    OthersSet(w, h, i, settings, c, t);
    Frame(w, w', h, h, i, c, t);
  }

  lemma RoomSet(w: World, h: Tokens, i: nat, settings: Settings)
    requires Inv(w, h) && i in w.rooms
    ensures var q' := w.rooms[i].q.(settings := settings); RoomOk(i, Room(q', w.rooms[i].section), h) && LinksOk(i, q', w.clients)
  {
    hide LinksOk, ClientOk, StageOk, RegistryOk, QueueInv, TaskOk, OwnersOk;
    var room := w.rooms[i];
    var q' := room.q.(settings := settings);
    assert RoomOk(i, room, h) && LinksOk(i, room.q, w.clients);
    QO.TurnKeeps(room.q, room.q.next, settings);
    assert SameOwners(room.q, q');
    OwnersKept(i, room.q, q', h);
    LinksKept(i, room.q, q', w.clients);
  }

  lemma OthersSet(w: World, h: Tokens, i: nat, settings: Settings, c: nat, t: nat)
    requires Inv(w, h) && i in w.rooms && t !in w.tasks
    ensures forall d :: d in h && d != c ==> Untouched(w, SetRoom(w, i, w.rooms[i].q.(settings := settings), w.rooms[i].section), d, h[d], i, t)
  {
    hide LinksOk, RoomOk, ClientOk, StageOk, RegistryOk, TaskOk;
    var w' := SetRoom(w, i, w.rooms[i].q.(settings := settings), w.rooms[i].section);
    forall d | d in h && d != c ensures Untouched(w, w', d, h[d], i, t) {
      OwnerThere(w, h, d);
      FreeingThere(w, h, d);
    }
  }

  lemma KeepConfigure(w: World, h: Tokens, i: nat, settings: Settings, t: nat)
    requires Inv(w, h) && i in w.rooms && t !in w.tasks
    ensures Inv(SetTask(SetRoom(w, i, w.rooms[i].q.(settings := settings), w.rooms[i].section), t, Nudging(i)), h)
  {
    hide Inv;
    KeepSettings(w, h, i, settings);
    TaskStep(SetRoom(w, i, w.rooms[i].q.(settings := settings), w.rooms[i].section), h, t, Nudging(i));
  }

  // ------------------------------------------------------------ a consumer passes from hand to hand

  /** What other consumers rely on in a room and a task that one consumer is changing. */
  lemma OthersUntouched(w: World, w': World, h: Tokens, i: nat, c: nat, t: nat)
    requires Inv(w, h) && i in w.rooms && i in w'.rooms
    requires w.rooms[i].section.Got? ==> w.rooms[i].section.taker == c
    requires forall d, id :: d != c && QO.Holds(w.rooms[i].q, d, id) ==> QO.Holds(w'.rooms[i].q, d, id)
    requires forall d :: d != c ==> BeingAnswered(w'.rooms[i], d) == BeingAnswered(w.rooms[i], d)
    requires t in w.tasks && w.tasks[t].Releasing? && w.tasks[t].c != c ==> t in w'.tasks && w'.tasks[t] == w.tasks[t]
    ensures forall d :: d in h && d != c ==> Untouched(w, w', d, h[d], i, t)
  {
    hide RoomOk, LinksOk, StageOk, TaskOk, RegistryOk, QueueInv;
    forall d | d in h && d != c ensures Untouched(w, w', d, h[d], i, t) {
      assert ClientOk(d, w.clients[d], h[d], w.rooms, w.tasks);
    }
  }

  lemma KeepTryBusy(w: World, h: Tokens, i: nat)
    requires Inv(w, h) && i in w.rooms && w.rooms[i].section.Scan?
    ensures Inv(SetRoom(w, i, QO.Track(w.rooms[i].q, w.now), Open), h)
    ensures Inv(SetRoom(w, i, w.rooms[i].q, Scan(w.rooms[i].section.tried + 1)), h)
  {
    hide QueueInv, RegistryOk, ClientOk, StageOk, TaskOk, LifeOf, LinksOk, OwnersOk, QO.Track;
    var q, k := w.rooms[i].q, w.rooms[i].section.tried;
    assert RoomOk(i, w.rooms[i], h) && LinksOk(i, q, w.clients);
    QO.TrackKeeps(q, w.now);
    QuietTrack(q, w.now);
    ItselfQuiet(q);
    LinksKept(i, q, QO.Track(q, w.now), w.clients);
    InUse(q);
    QuietStep(w, h, i, QO.Track(q, w.now), Open);
    QuietStep(w, h, i, q, Scan(k + 1));
  }

  /** Owners stay what they were when only a consumer that owned nothing here gets another token. */
  lemma OwnersOfOthers(i: nat, q: Queue<nat>, q': Queue<nat>, h: Tokens, h': Tokens, c: nat)
    requires OwnersOk(i, q, h) && SameBut(h, h', c)
    requires OthersHold(q, q', c)
    requires forall id :: QO.Holds(q', c, id) ==> c in h' && h'[c] == Owning(i, id)
    ensures OwnersOk(i, q', h')
  {
    forall id | id in q'.inFlight && q'.inFlight[id].owner.Some?
      ensures q'.inFlight[id].owner.value in h' && h'[q'.inFlight[id].owner.value] == Owning(i, id)
    {
      var d := q'.inFlight[id].owner.value;
      assert QO.Holds(q', d, id);
      if d != c {
        assert QO.Holds(q, d, id);
      }
    }
  }

  /** The others own what they owned. */
  ghost predicate OthersHold(q: Queue<nat>, q': Queue<nat>, c: nat) {
    forall d, id :: d != c ==> (QO.Holds(q, d, id) <==> QO.Holds(q', d, id))
  }

  /** A consumer keeps its links when its list and stage stay. */
  lemma LinksSame(w: World, h: Tokens, w': World, c: nat)
    requires Inv(w, h) && c in w.clients && c in w'.clients && SameBut(w.clients, w'.clients, c)
    requires w'.clients[c].queues == w.clients[c].queues && w'.clients[c].stage == w.clients[c].stage
    ensures forall j :: j in w.rooms ==> LinksOk(j, w.rooms[j].q, w'.clients)
    ensures forall j :: j in w.rooms && c in w.rooms[j].q.consumers ==> Linked(w'.clients[c], j, w.rooms[j].q.name)
  {
    hide RoomOk, StageOk, TaskOk, RegistryOk, QueueInv, ClientOk;
    forall j | j in w.rooms ensures LinksOk(j, w.rooms[j].q, w'.clients) {
      assert LinksOk(j, w.rooms[j].q, w.clients);
    }
    forall j | j in w.rooms && c in w.rooms[j].q.consumers ensures Linked(w'.clients[c], j, w.rooms[j].q.name) {
      assert LinksOk(j, w.rooms[j].q, w.clients);
    }
  }

  ghost function Moved(w: World, i: nat, room: Room, c: nat, client: Client, tasks: map<nat, Task>): World {
    w.(rooms := w.rooms[i := room], clients := w.clients[c := client], tasks := tasks)
  }

  /** What a room has to be when it was left by the consumer c. */
  ghost predicate RoomFits(i: nat, room: Room, c: nat, token: Token) {
    && QueueInv(room.q)
    && (room.q.removed ==> room.section.Open? || room.section.Loop?)
    && (room.section.Scan? || room.section.Got? ==> room.q.pending != [])
    && (room.section.Got? ==> room.section.taker == c && token == Acquired(i) && c in room.q.consumers)
    && (room.section.Answering? ==> room.section.answerer == c && QO.Holds(room.q, c, room.section.id))
    && (forall id :: QO.Holds(room.q, c, id) ==> token == Owning(i, id))
  }

  lemma RegistryMoved(w: World, h: Tokens, i: nat, room: Room, w': World)
    requires Inv(w, h) && i in w.rooms && w'.registry == w.registry && w'.rooms == w.rooms[i := room] && SamePlaceOf(w.rooms[i].q, room.q)
    ensures RegistryOk(w'.registry, w'.rooms)
  {
    hide QueueInv, RoomOk, LinksOk, ClientOk, StageOk, TaskOk, RegistryOk;
    RegistryKept(w, w', i);
  }

  lemma LinksMoved(w: World, h: Tokens, i: nat, room: Room, w': World)
    requires Inv(w, h) && i in w.rooms && SamePlaceOf(w.rooms[i].q, room.q) && LinksOk(i, w.rooms[i].q, w'.clients)
    ensures LinksOk(i, room.q, w'.clients)
  {
    hide QueueInv, RoomOk, LinksOk, ClientOk, StageOk, TaskOk, RegistryOk;
    LinksKept(i, w.rooms[i].q, room.q, w'.clients);
  }

  lemma OthersMoved(w: World, w': World, h: Tokens, i: nat, c: nat, t: nat, room: Room)
    requires Inv(w, h) && i in w.rooms && w'.rooms == w.rooms[i := room] && SameOrGone(w.tasks, w'.tasks, t)
    requires t in w.tasks ==> w.tasks[t].Releasing? && w.tasks[t].c == c
    requires w.rooms[i].section.Got? ==> w.rooms[i].section.taker == c
    requires w.rooms[i].section.Answering? ==> w.rooms[i].section.answerer == c
    requires (room.section.Answering? ==> room.section.answerer == c) && OthersHold(w.rooms[i].q, room.q, c)
    ensures forall d :: d in h && d != c ==> Untouched(w, w', d, h[d], i, t)
  {
    hide Inv, Untouched;
    OthersUntouched(w, w', h, i, c, t);
  }

  lemma RoomMoved(w: World, h: Tokens, i: nat, room: Room, c: nat, token: Token)
    requires Inv(w, h) && i in w.rooms && c in h && OthersHold(w.rooms[i].q, room.q, c) && RoomFits(i, room, c, token)
    ensures RoomOk(i, room, h[c := token])
  {
    hide QueueInv, LinksOk, OwnersOk, RegistryOk, ClientOk, StageOk, TaskOk;
    assert RoomOk(i, w.rooms[i], h);
    OwnersOfOthers(i, w.rooms[i].q, room.q, h, h[c := token], c);
  }

  /** One consumer, in one room, with one task. */
  lemma Move(w: World, h: Tokens, i: nat, room: Room, c: nat, client: Client, tasks: map<nat, Task>, t: nat, token: Token)
    requires Inv(w, h) && i in w.rooms && c in w.clients
    requires client.queues == w.clients[c].queues && client.stage == w.clients[c].stage
    requires SameOrGone(w.tasks, tasks, t) && (t in w.tasks ==> w.tasks[t].Releasing? && w.tasks[t].c == c)
    requires w.rooms[i].section.Got? ==> w.rooms[i].section.taker == c
    requires w.rooms[i].section.Answering? ==> w.rooms[i].section.answerer == c
    requires SamePlaceOf(w.rooms[i].q, room.q) && OthersHold(w.rooms[i].q, room.q, c)
    requires RoomFits(i, room, c, token) && (token == h[c] || Only(h[c], i, t))
    requires var w' := Moved(w, i, room, c, client, tasks);
             && ClientOk(c, client, token, w'.rooms, tasks) && StageOk(c, client, token, w'.rooms)
             && (t in tasks ==> TaskOk(t, tasks[t], h[c := token], w'.rooms))
    ensures Inv(Moved(w, i, room, c, client, tasks), h[c := token])
  {
    hide QueueInv, RoomOk, LinksOk, OwnersOk, Linked, RegistryOk, ClientOk, StageOk, TaskOk, Untouched, Only, BeingAnswered;
    var w', h' := Moved(w, i, room, c, client, tasks), h[c := token];
    RegistryMoved(w, h, i, room, w');
    OthersMoved(w, w', h, i, c, t, room);
    RoomMoved(w, h, i, room, c, token);
    LinksSame(w, h, w', c);
    LinksMoved(w, h, i, room, w');
    Frame(w, w', h, h', i, c, t);
  }

  lemma TurnFits(w: World, h: Tokens, i: nat, c: nat, next: nat)
    requires Inv(w, h) && i in w.rooms && w.rooms[i].section.Scan? && c in w.clients && w.clients[c].state == Free && c in w.rooms[i].q.consumers
    ensures RoomFits(i, Room(w.rooms[i].q.(next := next), Got(c)), c, Acquired(i))
  {
    hide QueueInv, RegistryOk, TaskOk, LinksOk, OwnersOk, Linked, StageOk;
    var q, q' := w.rooms[i].q, w.rooms[i].q.(next := next);
    assert RoomOk(i, w.rooms[i], h) && ClientOk(c, w.clients[c], h[c], w.rooms, w.tasks);
    QO.TurnKeeps(q, next, q.settings);
    InUse(q);
    NoneOwned(w, h, c, i);
    assert forall d, id :: QO.Holds(q', d, id) == QO.Holds(q, d, id);
  }

  /** A free consumer of a queue in use may be acquired there. */
  lemma AcquiredFits(w: World, h: Tokens, i: nat, c: nat, q': Queue<nat>)
    requires Inv(w, h) && i in w.rooms && c in w.clients && w.clients[c].state == Free && q'.name == w.rooms[i].q.name
    ensures var client, rooms := w.clients[c].(state := Busy), w.rooms[i := Room(q', Got(c))];
            h[c] == Idle && ClientOk(c, client, Acquired(i), rooms, w.tasks) && StageOk(c, client, Acquired(i), rooms)
    ensures Only(h[c], i, FreshKey(w.tasks))
  {
    hide QueueInv, RoomOk, RegistryOk, TaskOk, LinksOk;
    assert ClientOk(c, w.clients[c], h[c], w.rooms, w.tasks) && StageOk(c, w.clients[c], h[c], w.rooms);
  }

  lemma KeepTryFree(w: World, h: Tokens, i: nat, c: nat, next: nat)
    requires Inv(w, h) && i in w.rooms && w.rooms[i].section.Scan? && c in w.clients && w.clients[c].state == Free && c in w.rooms[i].q.consumers
    ensures Inv(SetClient(SetRoom(w, i, w.rooms[i].q.(next := next), Got(c)), c, w.clients[c].(state := Busy)), h[c := Acquired(i)])
  {
    hide QueueInv, RoomOk, RegistryOk, TaskOk, LifeOf, LinksOk, OwnersOk, Linked, ClientOk, StageOk, RoomFits, Only, BeingAnswered;
    var q, q' := w.rooms[i].q, w.rooms[i].q.(next := next);
    TurnFits(w, h, i, c, next);
    AcquiredFits(w, h, i, c, q');
    assert forall d, id :: QO.Holds(q', d, id) == QO.Holds(q, d, id);
    assert w.(rooms := w.rooms[i := Room(q', Got(c))], clients := w.clients[c := w.clients[c].(state := Busy)], tasks := w.tasks)
        == SetClient(SetRoom(w, i, q', Got(c)), c, w.clients[c].(state := Busy));
    Move(w, h, i, Room(q', Got(c)), c, w.clients[c].(state := Busy), w.tasks, FreshKey(w.tasks), Acquired(i));
  }

  lemma PushHeadHolds(q: Queue<nat>, c: nat)
    requires QueueInv(q) && q.pending != []
    ensures var q', id0 := QO.PushHead(q, c), q.pending[0].content.id;
            (forall d, id :: QO.Holds(q', d, id) <==> (d == c && id == id0) || (id != id0 && QO.Holds(q, d, id)))
            && (forall d :: !QO.Holds(q, d, id0))
            && q'.name == q.name && q'.consumers == q.consumers && q'.removed == q.removed
  {
    HeadAside(q);
  }

  lemma PushedFits(w: World, h: Tokens, i: nat, c: nat)
    requires Inv(w, h) && i in w.rooms && w.rooms[i].section == Got(c)
    ensures w.rooms[i].q.pending != [] && c in w.clients && c in h && h[c] == Acquired(i)
    ensures var q := w.rooms[i].q;
            var id0 := q.pending[0].content.id;
            && RoomFits(i, Room(QO.PushHead(q, c), Loop), c, Owning(i, id0)) && SamePlaceOf(q, QO.PushHead(q, c)) && OthersHold(q, QO.PushHead(q, c), c)
            && QO.Holds(QO.PushHead(q, c), c, id0)
  {
    hide QueueInv, RegistryOk, TaskOk, LinksOk, OwnersOk, Linked, ClientOk, StageOk, QO.PushHead;
    var q := w.rooms[i].q;
    assert RoomOk(i, w.rooms[i], h);
    QO.PushHeadKeeps(q, c);
    PushHeadHolds(q, c);
    NoneOwned(w, h, c, i);
  }

  /** The consumer that was acquired becomes the owner. */
  lemma OwningFits(w: World, h: Tokens, i: nat, c: nat)
    requires Inv(w, h) && i in w.rooms && w.rooms[i].section == Got(c) && w.rooms[i].q.pending != [] && c in w.clients && h[c] == Acquired(i)
    requires QO.Holds(QO.PushHead(w.rooms[i].q, c), c, w.rooms[i].q.pending[0].content.id)
    ensures var q := w.rooms[i].q;
            var id0 := q.pending[0].content.id;
            var client, rooms := w.clients[c].(current := Some((q.name, id0))), w.rooms[i := Room(QO.PushHead(q, c), Loop)];
            ClientOk(c, client, Owning(i, id0), rooms, w.tasks) && StageOk(c, client, Owning(i, id0), rooms)
    ensures Only(h[c], i, FreshKey(w.tasks))
  {
    hide QueueInv, RoomOk, RegistryOk, TaskOk, LinksOk, QO.Holds;
    assert ClientOk(c, w.clients[c], h[c], w.rooms, w.tasks) && StageOk(c, w.clients[c], h[c], w.rooms);
    assert QO.PushHead(w.rooms[i].q, c).name == w.rooms[i].q.name;
  }

  lemma KeepPush(w: World, h: Tokens, i: nat, c: nat)
    requires Inv(w, h) && i in w.rooms && w.rooms[i].section == Got(c)
    ensures w.rooms[i].q.pending != [] && c in w.clients
    ensures var q := w.rooms[i].q;
            Inv(SetClient(SetRoom(w, i, QO.PushHead(q, c), Loop), c, w.clients[c].(current := Some((q.name, q.pending[0].content.id)))),
                h[c := Owning(i, q.pending[0].content.id)])
  {
    hide QueueInv, RoomOk, RegistryOk, TaskOk, LifeOf, LinksOk, OwnersOk, Linked, ClientOk, StageOk, RoomFits, Only, BeingAnswered, QO.PushHead, QO.Holds;
    var q := w.rooms[i].q;
    PushedFits(w, h, i, c);
    var id0 := q.pending[0].content.id;
    OwningFits(w, h, i, c);
    Move(w, h, i, Room(QO.PushHead(q, c), Loop), c, w.clients[c].(current := Some((q.name, id0))), w.tasks, FreshKey(w.tasks), Owning(i, id0));
  }

  /** A consumer owns in a room only what its token says. */
  lemma NoneOwned(w: World, h: Tokens, c: nat, i: nat)
    requires Inv(w, h) && i in w.rooms
    ensures forall id :: QO.Holds(w.rooms[i].q, c, id) ==> c in h && h[c] == Owning(i, id)
  {
    hide QueueInv;
    assert RoomOk(i, w.rooms[i], h);
  }

  lemma NoneOwnedBut(w: World, h: Tokens, c: nat, i: nat, id: string)
    requires Inv(w, h) && i in w.rooms && QO.Holds(w.rooms[i].q, c, id)
    ensures c in h && h[c] == Owning(i, id) && !w.rooms[i].q.removed
    ensures forall other :: QO.Holds(w.rooms[i].q, c, other) ==> other == id
  {
    hide QueueInv;
    NoneOwned(w, h, c, i);
    assert RoomOk(i, w.rooms[i], h);
    InUse(w.rooms[i].q);
  }

  /** A consumer is done with the message it held: a thread is about to release it. */
  /** A consumer that owns nothing any more is about to be released. */
  lemma SettledFits(w: World, h: Tokens, i: nat, c: nat, id: string, t: nat, q': Queue<nat>)
    requires Inv(w, h) && i in w.rooms && t !in w.tasks && QO.Holds(w.rooms[i].q, c, id) && SamePlaceOf(w.rooms[i].q, q')
    ensures c in w.clients && c in h && h[c] == Owning(i, id) && Only(h[c], i, t)
    ensures var client, rooms, tasks := w.clients[c].(current := None), w.rooms[i := Room(q', Open)], w.tasks[t := Releasing(c)];
            && ClientOk(c, client, Freeing(t), rooms, tasks) && StageOk(c, client, Freeing(t), rooms)
            && TaskOk(t, Releasing(c), h[c := Freeing(t)], rooms)
  {
    hide QueueInv, LifeOf, LinksOk, OwnersOk, Linked, RegistryOk;
    NoneOwnedBut(w, h, c, i, id);
    OwnerThere(w, h, c);
  }

  lemma Settle(w: World, h: Tokens, i: nat, c: nat, id: string, t: nat, q': Queue<nat>)
    requires Inv(w, h) && i in w.rooms && t !in w.tasks && QO.Holds(w.rooms[i].q, c, id)
    requires w.rooms[i].section.Open? || BeingAnswered(w.rooms[i], c)
    requires forall d, x :: QO.Holds(q', d, x) <==> x != id && QO.Holds(w.rooms[i].q, d, x)
    requires QueueInv(q') && SamePlaceOf(w.rooms[i].q, q')
    ensures c in w.clients && Inv(SetTask(SetClient(SetRoom(w, i, q', Open), c, w.clients[c].(current := None)), t, Releasing(c)), h[c := Freeing(t)])
  {
    hide QueueInv, RoomOk, LinksOk, OwnersOk, Linked, RegistryOk, ClientOk, StageOk, Only;
    NoneOwnedBut(w, h, c, i, id);
    SettledFits(w, h, i, c, id, t, q');
    OnlyThatOwner(w, h, i, c, id);
    Move(w, h, i, Room(q', Open), c, w.clients[c].(current := None), w.tasks[t := Releasing(c)], t, Freeing(t));
  }

  /** A message has one owner. */
  lemma OnlyThatOwner(w: World, h: Tokens, i: nat, c: nat, id: string)
    requires i in w.rooms && QO.Holds(w.rooms[i].q, c, id)
    ensures forall d :: QO.Holds(w.rooms[i].q, d, id) ==> d == c
  {
  }

  lemma ConfirmHolds(q: Queue<nat>, c: nat, id0: string, now: int)
    requires QO.Holds(q, c, id0)
    ensures var q' := QO.Confirm(q, c, id0, now);
            (forall d, id :: QO.Holds(q', d, id) <==> id != id0 && QO.Holds(q, d, id))
            && SamePlaceOf(q, q') && q'.removed == q.removed
  {
  }

  lemma KeepConfirm(w: World, h: Tokens, i: nat, c: nat, id: string, t: nat)
    requires Inv(w, h) && Unlocked(w, i) && QO.Holds(w.rooms[i].q, c, id) && t !in w.tasks
    ensures Inv(SetTask(Nothing(SetRoom(w, i, QO.Confirm(w.rooms[i].q, c, id, w.now), Open), c), t, Releasing(c)), h[c := Freeing(t)])
  {
    hide QueueInv, LifeOf, LinksOk, OwnersOk, Linked, QO.Confirm, Inv;
    var q := w.rooms[i].q;
    RoomInv(w, h, i);
    var q' := QO.Confirm(q, c, id, w.now);
    QO.ConfirmKeeps(q, c, id, w.now);
    ConfirmHolds(q, c, id, w.now);
    Settle(w, h, i, c, id, t, q');
  }

  lemma KeepAnswerBegin(w: World, h: Tokens, i: nat, c: nat, id: string, response: string)
    requires Inv(w, h) && Unlocked(w, i) && QO.Holds(w.rooms[i].q, c, id)
    ensures Inv(Nothing(SetRoom(w, i, w.rooms[i].q, Answering(c, id, response)), c), h)
  {
    hide QueueInv, LifeOf, LinksOk, OwnersOk, Linked, RegistryOk;
    var q := w.rooms[i].q;
    assert RoomOk(i, w.rooms[i], h);
    NoneOwnedBut(w, h, c, i, id);
    OwnerThere(w, h, c);
    assert h[c := h[c]] == h;
    Move(w, h, i, Room(q, Answering(c, id, response)), c, w.clients[c].(current := None), w.tasks, FreshKey(w.tasks), h[c]);
  }

  lemma AnswerHeldHolds(q: Queue<nat>, c: nat, id0: string, response: string, closed: set<nat>, now: int)
    requires QueueInv(q) && QO.Holds(q, c, id0)
    ensures var q' := QO.AnswerHeld(q, c, id0, response, closed, now);
            (forall d, id :: QO.Holds(q', d, id) <==> id != id0 && QO.Holds(q, d, id))
            && SamePlaceOf(q, q') && q'.removed == q.removed
  {
    QO.FlyingId(q, id0);
  }

  lemma KeepAnswerEnd(w: World, h: Tokens, i: nat, t: nat, c: nat, id: string, response: string)
    requires Inv(w, h) && i in w.rooms && w.rooms[i].section == Answering(c, id, response) && t !in w.tasks
    ensures Inv(SetTask(SetRoom(w, i, QO.AnswerHeld(w.rooms[i].q, c, id, response, ClosedOf(w.clients), w.now), Open), t, Releasing(c)), h[c := Freeing(t)])
  {
    hide QueueInv, LifeOf, LinksOk, OwnersOk, Linked, RegistryOk, QO.AnswerHeld, TaskOk, StageOk;
    var q := w.rooms[i].q;
    assert RoomOk(i, w.rooms[i], h);
    NoneOwnedBut(w, h, c, i, id);
    OwnerThere(w, h, c);
    var closed := ClosedOf(w.clients);
    var q' := QO.AnswerHeld(q, c, id, response, closed, w.now);
    QO.AnswerHeldKeeps(q, c, id, response, closed, w.now);
    AnswerHeldHolds(q, c, id, response, closed, w.now);
    Settle(w, h, i, c, id, t, q');
    assert w.clients[c := w.clients[c].(current := None)] == w.clients;
  }

  lemma KeepRelease(w: World, h: Tokens, t: nat, c: nat)
    requires Inv(w, h) && t in w.tasks && w.tasks[t] == Releasing(c)
    ensures c in w.clients && w.clients[c].state != Free
    ensures Inv(SetTask(SetClient(w, c, w.clients[c].(state := if w.clients[c].state == Busy then Free else Closed)), t, Released(c)), h[c := Idle])
  {
    hide QueueInv, LifeOf, LinksOk, RoomOk, Linked, RegistryOk;
    assert TaskOk(t, w.tasks[t], h, w.rooms);
    OwnerThere(w, h, c);
    var client := w.clients[c].(state := if w.clients[c].state == Busy then Free else Closed);
    var w', h' := SetTask(SetClient(w, c, client), t, Released(c)), h[c := Idle];
    var i := FreshKey(w.rooms);
    assert ClientOk(c, client, Idle, w'.rooms, w'.tasks) && StageOk(c, client, Idle, w'.rooms);
    ReleaseForOthers(w, h, w', i, c, t);
    LinksSame(w, h, w', c);
    ReleaseFrame(w, h, w', h', i, c, t);
  }

  lemma ReleaseForOthers(w: World, h: Tokens, w': World, i: nat, c: nat, t: nat)
    requires Inv(w, h) && i !in w.rooms && t in w.tasks && w.tasks[t] == Releasing(c)
    ensures forall d :: d in h && d != c ==> Untouched(w, w', d, h[d], i, t)
  {
    hide Inv;
    forall d | d in h && d != c ensures Untouched(w, w', d, h[d], i, t) {
      FreeingThere(w, h, d);
    }
  }

  lemma ReleaseFrame(w: World, h: Tokens, w': World, h': Tokens, i: nat, c: nat, t: nat)
    requires Inv(w, h) && i !in w.rooms && c in h && h[c] == Freeing(t) && h' == h[c := Idle] && t in w.tasks
    requires c in w.clients && c in w'.clients && w' == w.(clients := w.clients[c := w'.clients[c]], tasks := w.tasks[t := Released(c)])
    requires ClientOk(c, w'.clients[c], Idle, w'.rooms, w'.tasks) && StageOk(c, w'.clients[c], Idle, w'.rooms)
    requires forall d :: d in h && d != c ==> Untouched(w, w', d, h[d], i, t)
    requires forall j :: j in w.rooms && c in w.rooms[j].q.consumers ==> Linked(w'.clients[c], j, w.rooms[j].q.name)
    ensures Inv(w', h')
  {
    hide RoomOk, LinksOk, ClientOk, StageOk, RegistryOk, Linked, Untouched;
    Frame(w, w', h, h', i, c, t);
  }
}
