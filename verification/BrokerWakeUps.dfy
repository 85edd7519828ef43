/**
 * No wake-up is lost: whenever a message could be pushed to a free consumer, some thread is still on its
 * way to see to it.
 */
module BrokerWakeUps {
  import opened Options
  import opened Messages
  import opened Consumers
  import opened QueueModel
  import QO = QueueOperations
  import Expiry
  import opened QuietSteps
  import opened Interleaving
  import opened BrokerSafety
  import opened BrokerSteps
  import opened BrokerBindings

  ghost predicate Deliverable(q: Queue<nat>, now: int) {
    !q.settings.paused && exists e: Entry<nat> :: e in q.pending && QO.DeadReason(e, q.settings, now) == None
  }

  /** There is a message for this consumer, and it could take it. */
  ghost predicate Needs(w: World, i: nat, c: nat) {
    i in w.rooms && c in w.clients && w.clients[c].state == Free && c in w.rooms[i].q.consumers && Deliverable(w.rooms[i].q, w.now)
  }

  /** The consumer is still to be tried. */
  ghost predicate Ahead(q: Queue<nat>, tried: nat, c: nat) {
    exists k: nat :: tried <= k < |q.consumers| && Candidate(q, k) == c
  }

  ghost predicate BySection(room: Room, c: nat) {
    room.section.Loop? || room.section.Got? || (room.section.Scan? && Ahead(room.q, room.section.tried, c))
  }

  /** It is about to be unbound. */
  ghost predicate ByStage(client: Client, i: nat, name: string) {
    client.stage == Unlisted(name) || client.stage == Parting(i)
  }

  ghost predicate Serves(task: Task, i: nat, name: string, c: nat) {
    match task
    case Releasing(_) => false
    case Released(d) => d == c
    case Waking(d, rest) => d == c && name in rest
    case WakingAt(d, inst, rest) => d == c && (inst == i || name in rest)
    case Nudging(inst) => inst == i
  }

  ghost predicate ByTask(tasks: map<nat, Task>, i: nat, name: string, c: nat) {
    exists t :: t in tasks && Serves(tasks[t], i, name, c)
  }

  /** Some thread is on its way: the one that holds the lock, a thread with something left to do, or the one that unbinds it. */
  ghost predicate Covered(w: World, i: nat, c: nat)
    requires i in w.rooms && c in w.clients
  {
    || BySection(w.rooms[i], c)
    || ByStage(w.clients[c], i, w.rooms[i].q.name)
    || ByTask(w.tasks, i, w.rooms[i].q.name, c)
  }

  ghost predicate WakeOk(w: World) {
    forall i, c :: Needs(w, i, c) ==> Covered(w, i, c)
  }

  // ------------------------------------------------------------ steps that change one room and leave the other threads alone

  /** The room that changes: whoever needs it is covered now, or was in need before, as covered as it is now. */
  ghost predicate Fine(w: World, w': World, i: nat, c: nat) {
    Needs(w', i, c) ==>
      Covered(w', i, c) || (Needs(w, i, c) && w'.rooms[i].q.name == w.rooms[i].q.name && (BySection(w.rooms[i], c) ==> BySection(w'.rooms[i], c)))
  }

  ghost predicate StagesFine(w: World, w': World) {
    forall c, i :: c in w.clients && c in w'.clients && i in w.rooms && ByStage(w.clients[c], i, w.rooms[i].q.name) && Needs(w', i, c) ==>
      ByStage(w'.clients[c], i, w.rooms[i].q.name)
  }

  ghost predicate NoneFreed(w: World, w': World) {
    forall c, i :: c in w'.clients && w'.clients[c].state == Free && i in w'.rooms && c in w'.rooms[i].q.consumers ==> c in w.clients && w.clients[c].state == Free
  }

  lemma LaterIsHarder(q: Queue<nat>, now: int, later: int)
    requires now <= later && Deliverable(q, later)
    ensures Deliverable(q, now)
  {
    var e: Entry<nat> :| e in q.pending && QO.DeadReason(e, q.settings, later) == None;
    assert QO.DeadReason(e, q.settings, now) == None;
  }

  lemma StoodIsAsHard(q: Queue<nat>, q': Queue<nat>, now: int)
    requires NoNewWork(q, q') && Deliverable(q', now)
    ensures Deliverable(q, now)
  {
    var e: Entry<nat> :| e in q'.pending && QO.DeadReason(e, q'.settings, now) == None;
    assert Stood(q, e);
    var e0: Entry<nat> :| e0 in q.pending && e0.ttl == e.ttl && e0.born == e.born;
    assert QO.DeadReason(e0, q.settings, now) == None;
  }

  lemma WakeKept(w: World, w': World, i0: nat)
    requires WakeOk(w) && w.now <= w'.now
    requires forall i :: i in w'.rooms && i != i0 ==> i in w.rooms && w'.rooms[i] == w.rooms[i]
    requires forall t :: t in w.tasks ==> t in w'.tasks && w'.tasks[t] == w.tasks[t]
    requires NoneFreed(w, w') && StagesFine(w, w')
    requires forall c :: Fine(w, w', i0, c)
    ensures WakeOk(w')
  {
    hide Deliverable, BySection, Serves, ByStage;
    forall i, c | Needs(w', i, c) ensures Covered(w', i, c) {
      assert Fine(w, w', i0, c);
      if i != i0 {
        LaterIsHarder(w.rooms[i].q, w.now, w'.now);
        assert Needs(w, i, c);
      }
      if Needs(w, i, c) {
        assert Covered(w, i, c);
        if ByTask(w.tasks, i, w.rooms[i].q.name, c) {
          TasksKept(w, w', i, c);
        }
      }
    }
  }

  lemma TasksKept(w: World, w': World, i: nat, c: nat)
    requires forall t :: t in w.tasks ==> t in w'.tasks && w'.tasks[t] == w.tasks[t]
    requires i in w.rooms && ByTask(w.tasks, i, w.rooms[i].q.name, c)
    ensures ByTask(w'.tasks, i, w.rooms[i].q.name, c)
  {
    var t :| t in w.tasks && Serves(w.tasks[t], i, w.rooms[i].q.name, c);
    assert t in w'.tasks && Serves(w'.tasks[t], i, w.rooms[i].q.name, c);
  }

  /** Under the lock, nothing was added to what can be delivered and nobody joined. */
  lemma WakeQuiet(w: World, i: nat, q': Queue<nat>, section: Section, clients: map<nat, Client>, tasks: map<nat, Task>)
    requires WakeOk(w) && i in w.rooms && (w.rooms[i].section.Open? || w.rooms[i].section.Answering?)
    requires q'.name == w.rooms[i].q.name && NoNewWork(w.rooms[i].q, q') && forall c :: c in q'.consumers ==> c in w.rooms[i].q.consumers
    requires forall t :: t in w.tasks ==> t in tasks && tasks[t] == w.tasks[t]
    requires var w' := w.(rooms := w.rooms[i := Room(q', section)], clients := clients, tasks := tasks);
             NoneFreed(w, w') && StagesFine(w, w')
    ensures WakeOk(w.(rooms := w.rooms[i := Room(q', section)], clients := clients, tasks := tasks))
  {
    hide Deliverable, Serves, ByStage, NoNewWork, WakeOk, NoneFreed, StagesFine, ByTask, Ahead;
    var w' := w.(rooms := w.rooms[i := Room(q', section)], clients := clients, tasks := tasks);
    forall c ensures Fine(w, w', i, c) {
      if Needs(w', i, c) {
        StoodIsAsHard(w.rooms[i].q, q', w.now);
        NoneFreedAt(w, w', i, c);
      }
    }
    WakeKept(w, w', i);
  }

  lemma NoneFreedAt(w: World, w': World, i: nat, c: nat)
    requires NoneFreed(w, w') && Needs(w', i, c)
    ensures c in w.clients && w.clients[c].state == Free
  {
  }

  /** Whoever holds the lock is going to look again. */
  lemma WakeLoop(w: World, i: nat, q': Queue<nat>, clients: map<nat, Client>)
    requires WakeOk(w) && i in w.rooms
    requires var w' := w.(rooms := w.rooms[i := Room(q', Loop)], clients := clients);
             NoneFreed(w, w') && StagesFine(w, w')
    ensures WakeOk(w.(rooms := w.rooms[i := Room(q', Loop)], clients := clients))
  {
    hide Deliverable, Serves, ByStage, WakeOk, NoneFreed, StagesFine, ByTask;
    WakeKept(w, w.(rooms := w.rooms[i := Room(q', Loop)], clients := clients), i);
  }

  /** Clients that are not freed, and go on being unbound. */
  lemma SameClients(w: World, i: nat, room: Room, tasks: map<nat, Task>)
    requires i in w.rooms && forall c :: c in room.q.consumers ==> c in w.clients
    requires i in w.rooms && room.q.name == w.rooms[i].q.name
    ensures var w' := w.(rooms := w.rooms[i := room], clients := w.clients, tasks := tasks);
            NoneFreed(w, w') && StagesFine(w, w')
  {
  }

  lemma OneClient(w: World, h: Tokens, i: nat, room: Room, c: nat, client: Client, tasks: map<nat, Task>)
    requires Inv(w, h) && i in w.rooms && c in w.clients && room.q.name == w.rooms[i].q.name
    requires forall d :: d in room.q.consumers ==> d in w.rooms[i].q.consumers || d == c
    requires client.state == Free ==> w.clients[c].state == Free
    requires client.stage == w.clients[c].stage
             || !(w.clients[c].stage.Unlisted? || w.clients[c].stage.Parting?)
             || (w.clients[c].stage == Parting(i) && c !in room.q.consumers)
    ensures var w' := w.(rooms := w.rooms[i := room], clients := w.clients[c := client], tasks := tasks);
            NoneFreed(w, w') && StagesFine(w, w')
  {
    hide Deliverable, RoomOk, ClientOk, StageOk, TaskOk, RegistryOk;
    var w' := w.(rooms := w.rooms[i := room], clients := w.clients[c := client], tasks := tasks);
    forall d, j | d in w'.clients && w'.clients[d].state == Free && j in w'.rooms && d in w'.rooms[j].q.consumers
      ensures d in w.clients && w.clients[d].state == Free
    {
      if d != c && j == i {
        assert LinksOk(i, w.rooms[i].q, w.clients);
      }
    }
  }

  // ------------------------------------------------------------ the dispatch loop

  lemma EverybodyAhead(q: Queue<nat>, c: nat)
    requires c in q.consumers
    ensures Ahead(q, 0, c)
  {
    var j: nat :| j < |q.consumers| && q.consumers[j] == c;
    var k := Expiry.Turn(|q.consumers|, q.next, j);
    assert Candidate(q, k) == c;
  }

  lemma {:induction false} NothingLeft(q: Queue<nat>, now: int)
    requires QO.DropDead(q, now).pending == [] && !q.settings.paused
    ensures !Deliverable(q, now)
    decreases |q.pending|
  {
    if q.pending != [] {
      var q' := QO.Bury(q, 0, now);
      NothingLeft(q', now);
      forall e | e in q.pending ensures QO.DeadReason(e, q.settings, now) != None {
        if e != q.pending[0] {
          assert e in q'.pending;
        }
      }
    }
  }

  lemma WakeCheck(w: World, h: Tokens, i: nat)
    requires Inv(w, h) && WakeOk(w) && i in w.rooms && w.rooms[i].section.Loop?
    ensures WakeOk(w.(rooms := w.rooms[i := Checked(w.rooms[i].q, w.now)]))
  {
    hide Serves, ByStage, WakeOk, NoneFreed, StagesFine, ByTask, QO.DropDead, Ahead, Deliverable, RoomOk, ClientOk, StageOk, TaskOk, RegistryOk, LinksOk;
    var q := w.rooms[i].q;
    var room := Checked(q, w.now);
    var w' := w.(rooms := w.rooms[i := room]);
    QO.DropDeadShortens(q, w.now);
    QuietDropDead(q, w.now);
    forall c ensures Fine(w, w', i, c) {
      if Needs(w', i, c) {
        if room.section.Scan? {
          EverybodyAhead(room.q, c);
        } else {
          NothingToDo(q, w.now);
          assert false;
        }
      }
    }
    MembersThere(w, h, i);
    SameClients(w, i, room, w.tasks);
    WakeKept(w, w', i);
  }

  lemma NothingToDo(q: Queue<nat>, now: int)
    requires !Checked(q, now).section.Scan?
    ensures !Deliverable(Checked(q, now).q, now) || q.consumers == []
  {
    if !q.settings.paused && q.consumers != [] {
      NothingLeft(q, now);
    }
  }

  lemma MembersThere(w: World, h: Tokens, i: nat)
    requires Inv(w, h) && i in w.rooms
    ensures forall c :: c in w.rooms[i].q.consumers ==> c in w.clients
  {
    hide RoomOk, ClientOk, StageOk, TaskOk, RegistryOk;
    assert LinksOk(i, w.rooms[i].q, w.clients);
  }

  lemma WakeTry(w: World, h: Tokens, i: nat)
    requires Inv(w, h) && WakeOk(w) && i in w.rooms && w.rooms[i].section.Scan?
    ensures WakeOk(Tried(w, i))
  {
    hide Inv, Serves, ByStage, WakeOk, NoneFreed, StagesFine, ByTask, Deliverable;
    var q, k := w.rooms[i].q, w.rooms[i].section.tried;
    MembersThere(w, h, i);
    if k >= |q.consumers| {
      var w' := SetRoom(w, i, QO.Track(q, w.now), Open);
      SameClients(w, i, Room(QO.Track(q, w.now), Open), w.tasks);
      forall c ensures Fine(w, w', i, c) {
        SameWork(q, w.now);
      }
      WakeKept(w, w', i);
    } else {
      var c0 := Candidate(q, k);
      if c0 in w.clients && w.clients[c0].state == Free {
        var q' := q.(next := ((q.next + k) % |q.consumers| + 1) % |q.consumers|);
        OneClient(w, h, i, Room(q', Got(c0)), c0, w.clients[c0].(state := Busy), w.tasks);
        WakeKept(w, Tried(w, i), i);
      } else {
        var w' := SetRoom(w, i, q, Scan(k + 1));
        SameClients(w, i, Room(q, Scan(k + 1)), w.tasks);
        forall c ensures Fine(w, w', i, c) {
          if Needs(w', i, c) && Ahead(q, k, c) {
            OneFurther(q, k, c);
          }
        }
        WakeKept(w, w', i);
      }
    }
  }

  lemma OneFurther(q: Queue<nat>, k: nat, c: nat)
    requires k < |q.consumers| && Ahead(q, k, c) && Candidate(q, k) != c
    ensures Ahead(q, k + 1, c)
  {
    var j: nat :| k <= j < |q.consumers| && Candidate(q, j) == c;
    assert k + 1 <= j;
  }

  lemma SameWork(q: Queue<nat>, now: int)
    ensures Deliverable(QO.Track(q, now), now) == Deliverable(q, now)
  {
  }

  // ------------------------------------------------------------ steps of the threads that release and dispatch

  /** A task changes, and whoever it was to serve is covered. */
  lemma WakeTask(w: World, w': World, t0: nat)
    requires WakeOk(w) && w' == w.(tasks := w'.tasks)
    requires forall t :: t in w.tasks && t != t0 ==> t in w'.tasks && w'.tasks[t] == w.tasks[t]
    requires forall i, c :: Needs(w, i, c) && t0 in w.tasks && Serves(w.tasks[t0], i, w.rooms[i].q.name, c) ==> Covered(w', i, c)
    ensures WakeOk(w')
  {
    hide Deliverable, BySection, Serves, ByStage;
    forall i, c | Needs(w', i, c) ensures Covered(w', i, c) {
      assert Needs(w, i, c) && Covered(w, i, c);
      if ByTask(w.tasks, i, w.rooms[i].q.name, c) {
        var t :| t in w.tasks && Serves(w.tasks[t], i, w.rooms[i].q.name, c);
        assert t != t0 ==> t in w'.tasks && Serves(w'.tasks[t], i, w.rooms[i].q.name, c);
      }
    }
  }

  lemma WakeListQueues(w: World, h: Tokens, t: nat, c: nat, start: nat)
    requires Inv(w, h) && WakeOk(w) && t in w.tasks && w.tasks[t] == Released(c) && c in w.clients && start <= |w.clients[c].queues|
    ensures WakeOk(SetTask(w, t, Waking(c, w.clients[c].queues[start..] + w.clients[c].queues[..start])))
  {
    hide Inv, WakeOk, Deliverable, BySection;
    var list := w.clients[c].queues;
    var round := list[start..] + list[..start];
    var w' := SetTask(w, t, Waking(c, round));
    forall i, d | Needs(w, i, d) && Serves(w.tasks[t], i, w.rooms[i].q.name, d) ensures Covered(w', i, d) {
      LinkedThere(w, h, c, i);
      OwnerThere(w, h, c);
      RoundTheList(list, start, w.rooms[i].q.name);
      assert w'.tasks[t] == Waking(c, round);
    }
    WakeTask(w, w', t);
  }

  lemma RoundTheList(list: seq<string>, start: nat, x: string)
    requires start <= |list|
    ensures x in list[start..] + list[..start] <==> x in list
  {
    if x in list {
      var k :| 0 <= k < |list| && list[k] == x;
      if k < start {
        assert list[..start][k] == x;
      } else {
        assert list[start..][k - start] == x;
      }
    }
  }

  lemma WakeNext(w: World, h: Tokens, t: nat, c: nat, rest: seq<string>)
    requires Inv(w, h) && WakeOk(w) && t in w.tasks && w.tasks[t] == Waking(c, rest) && rest != []
    ensures WakeOk(SetTask(w, t, if rest[0] in w.registry then WakingAt(c, w.registry[rest[0]], rest[1..]) else Waking(c, rest[1..])))
  {
    hide Inv, WakeOk, Deliverable, BySection;
    var w' := SetTask(w, t, if rest[0] in w.registry then WakingAt(c, w.registry[rest[0]], rest[1..]) else Waking(c, rest[1..]));
    forall i, d | Needs(w, i, d) && Serves(w.tasks[t], i, w.rooms[i].q.name, d) ensures Covered(w', i, d) {
      LinkedThere(w, h, c, i);
      assert w.rooms[i].q.name == rest[0] || w.rooms[i].q.name in rest[1..];
      assert t in w'.tasks && Serves(w'.tasks[t], i, w.rooms[i].q.name, d);
    }
    WakeTask(w, w', t);
  }

  lemma WakeWake(w: World, h: Tokens, t: nat, c: nat, i0: nat, rest: seq<string>)
    requires Inv(w, h) && WakeOk(w) && t in w.tasks && w.tasks[t] == WakingAt(c, i0, rest) && i0 in w.rooms
    ensures WakeOk(SetTask(SetRoom(w, i0, w.rooms[i0].q, Loop), t, Waking(c, rest)))
  {
    hide Inv, WakeOk, Deliverable, NoneFreed, StagesFine, ByStage, Ahead;
    MembersThere(w, h, i0);
    SameClients(w, i0, Room(w.rooms[i0].q, Loop), w.tasks);
    WakeLoop(w, i0, w.rooms[i0].q, w.clients);
    var w1 := SetRoom(w, i0, w.rooms[i0].q, Loop);
    var w' := SetTask(w1, t, Waking(c, rest));
    forall i, d | Needs(w1, i, d) && Serves(w1.tasks[t], i, w1.rooms[i].q.name, d) ensures Covered(w', i, d) {
      assert t in w'.tasks && w'.tasks[t] == Waking(c, rest);
    }
    WakeTask(w1, w', t);
  }

  lemma WakeNudge(w: World, h: Tokens, t: nat, i0: nat)
    requires Inv(w, h) && WakeOk(w) && t in w.tasks && w.tasks[t] == Nudging(i0) && i0 in w.rooms
    ensures WakeOk(EndTask(SetRoom(w, i0, w.rooms[i0].q, Loop), t))
  {
    hide Inv, WakeOk, Deliverable, NoneFreed, StagesFine, ByStage, Ahead;
    MembersThere(w, h, i0);
    SameClients(w, i0, Room(w.rooms[i0].q, Loop), w.tasks);
    WakeLoop(w, i0, w.rooms[i0].q, w.clients);
    var w1 := SetRoom(w, i0, w.rooms[i0].q, Loop);
    WakeTask(w1, EndTask(w1, t), t);
  }

  lemma WakeSkip(w: World, t: nat, c: nat, rest: seq<string>)
    requires WakeOk(w) && t in w.tasks && w.tasks[t] == Waking(c, rest)
    requires rest == [] || (c in w.clients && w.clients[c].state != Free)
    ensures WakeOk(EndTask(w, t))
  {
    hide WakeOk, Deliverable;
    WakeTask(w, EndTask(w, t), t);
  }

  /** Who is free again has a thread that goes round its queues. */
  lemma WakeRelease(w: World, t: nat, c: nat, state: Status)
    requires WakeOk(w) && t in w.tasks && w.tasks[t] == Releasing(c) && c in w.clients
    ensures WakeOk(SetTask(SetClient(w, c, w.clients[c].(state := state)), t, Released(c)))
  {
    hide Deliverable, BySection;
    var w1 := SetTask(w, t, Released(c));
    WakeTask(w, w1, t);
    var w' := SetTask(SetClient(w, c, w.clients[c].(state := state)), t, Released(c));
    forall i, d | Needs(w', i, d) ensures Covered(w', i, d) {
      if d == c {
        assert t in w'.tasks && Serves(w'.tasks[t], i, w'.rooms[i].q.name, d);
      } else {
        assert Needs(w1, i, d) && Covered(w1, i, d);
      }
    }
  }

  // ------------------------------------------------------------ steps under the lock of one queue

  lemma WakeQuietly(w: World, h: Tokens, i: nat, q': Queue<nat>)
    requires Inv(w, h) && WakeOk(w) && Unlocked(w, i) && Quiet(w.rooms[i].q, q')
    ensures WakeOk(SetRoom(w, i, q', Open))
  {
    hide Inv, WakeOk, NoneFreed, StagesFine, SameOwners, NoNewWork;
    MembersThere(w, h, i);
    SameClients(w, i, Room(q', Open), w.tasks);
    WakeQuiet(w, i, q', Open, w.clients, w.tasks);
  }

  lemma WakeByTake(w: World, h: Tokens, i: nat)
    requires Inv(w, h) && WakeOk(w) && Unlocked(w, i)
    ensures WakeOk(SetRoom(w, i, QO.Take(w.rooms[i].q, w.now), Open))
  {
    hide Inv, WakeOk, QueueInv, Quiet, QO.Take;
    RoomInv(w, h, i);
    QuietTake(w.rooms[i].q, w.now);
    WakeQuietly(w, h, i, QO.Take(w.rooms[i].q, w.now));
  }

  lemma WakeByAnswer(w: World, h: Tokens, i: nat, id: string, response: string, includeUndelivered: bool)
    requires Inv(w, h) && WakeOk(w) && Unlocked(w, i)
    ensures WakeOk(SetRoom(w, i, QO.AnswerAsked(w.rooms[i].q, id, response, includeUndelivered, ClosedOf(w.clients), w.now), Open))
  {
    hide Inv, WakeOk, QueueInv, Quiet, QO.AnswerAsked;
    RoomInv(w, h, i);
    QuietAsk(w.rooms[i].q, id, response, includeUndelivered, ClosedOf(w.clients), w.now);
    WakeQuietly(w, h, i, QO.AnswerAsked(w.rooms[i].q, id, response, includeUndelivered, ClosedOf(w.clients), w.now));
  }

  lemma WakeByCollect(w: World, h: Tokens, i: nat, id: string)
    requires Inv(w, h) && WakeOk(w) && Unlocked(w, i)
    ensures WakeOk(SetRoom(w, i, QO.Collect(w.rooms[i].q, id, w.now), Open))
  {
    hide Inv, WakeOk, QueueInv, Quiet, QO.Collect;
    RoomInv(w, h, i);
    QuietCollect(w.rooms[i].q, id, w.now);
    WakeQuietly(w, h, i, QO.Collect(w.rooms[i].q, id, w.now));
  }

  lemma WakeByAwait(w: World, h: Tokens, i: nat, c: nat, ids: seq<string>)
    requires Inv(w, h) && WakeOk(w) && Unlocked(w, i)
    ensures WakeOk(SetRoom(w, i, QO.Await(w.rooms[i].q, c, ids, ClosedOf(w.clients), w.now), Open))
  {
    hide Inv, WakeOk, QueueInv, Quiet, QO.Await;
    RoomInv(w, h, i);
    QuietAwait(w.rooms[i].q, c, ids, ClosedOf(w.clients), w.now);
    WakeQuietly(w, h, i, QO.Await(w.rooms[i].q, c, ids, ClosedOf(w.clients), w.now));
  }

  lemma WakeByPurge(w: World, h: Tokens, i: nat)
    requires Inv(w, h) && WakeOk(w) && Unlocked(w, i)
    ensures WakeOk(SetRoom(w, i, QO.Track(QO.Purge(w.rooms[i].q), w.now), Open))
  {
    hide Inv, WakeOk, QueueInv, Quiet, QO.Purge, QO.Track;
    RoomInv(w, h, i);
    QuietPurge(w.rooms[i].q, w.now);
    WakeQuietly(w, h, i, QO.Track(QO.Purge(w.rooms[i].q), w.now));
  }

  lemma WakeBySweep(w: World, h: Tokens, i: nat, order: seq<string>)
    requires Inv(w, h) && WakeOk(w) && Unlocked(w, i)
    ensures WakeOk(SetRoom(w, i, QO.Sweep(w.rooms[i].q, order, w.now), Open))
  {
    hide Inv, WakeOk, QueueInv, Quiet, QO.Sweep;
    RoomInv(w, h, i);
    QuietSweep(w.rooms[i].q, order, w.now);
    WakeQuietly(w, h, i, QO.Sweep(w.rooms[i].q, order, w.now));
  }

  lemma SameLine(q: Queue<nat>, q': Queue<nat>)
    requires q'.pending == q.pending && q'.settings == q.settings
    ensures NoNewWork(q, q')
  {
    forall e: Entry<nat> | e in q'.pending ensures Stood(q, e) {
      assert e in q.pending;
    }
  }

  /** One consumer's message is settled under the lock: nothing to deliver is added. */
  lemma WakeSettled(w: World, h: Tokens, i: nat, q': Queue<nat>, section: Section, c: nat, client: Client, tasks: map<nat, Task>)
    requires Inv(w, h) && WakeOk(w) && i in w.rooms && c in w.clients && (w.rooms[i].section.Open? || w.rooms[i].section.Answering?)
    requires q'.name == w.rooms[i].q.name && q'.pending == w.rooms[i].q.pending && q'.settings == w.rooms[i].q.settings
    requires forall d :: d in q'.consumers ==> d in w.rooms[i].q.consumers
    requires client.state == w.clients[c].state
    requires client.stage == w.clients[c].stage
             || !(w.clients[c].stage.Unlisted? || w.clients[c].stage.Parting?)
             || (w.clients[c].stage == Parting(i) && c !in q'.consumers)
    requires forall t :: t in w.tasks ==> t in tasks && tasks[t] == w.tasks[t]
    ensures WakeOk(w.(rooms := w.rooms[i := Room(q', section)], clients := w.clients[c := client], tasks := tasks))
  {
    hide Inv, WakeOk, NoneFreed, StagesFine, NoNewWork;
    SameLine(w.rooms[i].q, q');
    OneClient(w, h, i, Room(q', section), c, client, tasks);
    WakeQuiet(w, i, q', section, w.clients[c := client], tasks);
  }

  lemma ConfirmStill(q: Queue<nat>, c: nat, id: string, response: string, closed: set<nat>, now: int)
    ensures var q' := QO.Confirm(q, c, id, now); q'.name == q.name && q'.pending == q.pending && q'.settings == q.settings && q'.consumers == q.consumers
    ensures var q' := QO.AnswerHeld(q, c, id, response, closed, now); q'.name == q.name && q'.pending == q.pending && q'.settings == q.settings && q'.consumers == q.consumers
  {
  }

  lemma WakeConfirm(w: World, h: Tokens, i: nat, c: nat, id: string, t: nat)
    requires Inv(w, h) && WakeOk(w) && Unlocked(w, i) && QO.Holds(w.rooms[i].q, c, id) && t !in w.tasks
    ensures WakeOk(SetTask(Nothing(SetRoom(w, i, QO.Confirm(w.rooms[i].q, c, id, w.now), Open), c), t, Releasing(c)))
  {
    hide Inv, WakeOk, QO.Confirm, QO.AnswerHeld;
    NoneOwnedBut(w, h, c, i, id);
    InClients(w, h, c);
    ConfirmStill(w.rooms[i].q, c, id, "", {}, w.now);
    WakeSettled(w, h, i, QO.Confirm(w.rooms[i].q, c, id, w.now), Open, c, w.clients[c].(current := None), w.tasks[t := Releasing(c)]);
  }

  lemma InClients(w: World, h: Tokens, c: nat)
    requires Inv(w, h) && c in h
    ensures c in w.clients
  {
  }

  lemma WakeAnswerBegin(w: World, h: Tokens, i: nat, c: nat, id: string, response: string)
    requires Inv(w, h) && WakeOk(w) && Unlocked(w, i) && QO.Holds(w.rooms[i].q, c, id)
    ensures WakeOk(Nothing(SetRoom(w, i, w.rooms[i].q, Answering(c, id, response)), c))
  {
    hide Inv, WakeOk;
    NoneOwnedBut(w, h, c, i, id);
    InClients(w, h, c);
    WakeSettled(w, h, i, w.rooms[i].q, Answering(c, id, response), c, w.clients[c].(current := None), w.tasks);
  }

  lemma WakeAnswerEnd(w: World, h: Tokens, i: nat, t: nat, c: nat, id: string, response: string)
    requires Inv(w, h) && WakeOk(w) && i in w.rooms && w.rooms[i].section == Answering(c, id, response) && t !in w.tasks
    ensures WakeOk(SetTask(SetRoom(w, i, QO.AnswerHeld(w.rooms[i].q, c, id, response, ClosedOf(w.clients), w.now), Open), t, Releasing(c)))
  {
    hide WakeOk, QO.Confirm, QO.AnswerHeld, QueueInv, LinksOk, ClientOk, StageOk, TaskOk, RegistryOk;
    assert RoomOk(i, w.rooms[i], h);
    NoneOwnedBut(w, h, c, i, id);
    ConfirmStill(w.rooms[i].q, c, id, response, ClosedOf(w.clients), w.now);
    WakeSettled(w, h, i, QO.AnswerHeld(w.rooms[i].q, c, id, response, ClosedOf(w.clients), w.now), Open, c, w.clients[c], w.tasks[t := Releasing(c)]);
    assert w.clients[c := w.clients[c]] == w.clients;
  }

  lemma WakePublish(w: World, h: Tokens, i: nat, q': Queue<nat>)
    requires Inv(w, h) && WakeOk(w) && i in w.rooms && q'.name == w.rooms[i].q.name && q'.consumers == w.rooms[i].q.consumers
    ensures WakeOk(SetRoom(w, i, q', Loop))
  {
    hide Inv, WakeOk, NoneFreed, StagesFine;
    MembersThere(w, h, i);
    SameClients(w, i, Room(q', Loop), w.tasks);
    WakeLoop(w, i, q', w.clients);
  }

  lemma WakeByPublish(w: World, h: Tokens, i: nat, content: Content, ttl: int, replyTo: Option<nat>)
    requires Inv(w, h) && WakeOk(w) && Unlocked(w, i)
    ensures WakeOk(if w.rooms[i].q.removed then w else SetRoom(w, i, QO.Publish(w.rooms[i].q, content, ttl, replyTo, w.now), Loop))
  {
    hide Inv, WakeOk;
    WakePublish(w, h, i, QO.Publish(w.rooms[i].q, content, ttl, replyTo, w.now));
  }

  lemma WakePush(w: World, h: Tokens, i: nat)
    requires Inv(w, h) && WakeOk(w) && i in w.rooms && w.rooms[i].section.Got?
    ensures WakeOk(Handed(w, i))
  {
    hide Inv, WakeOk, NoneFreed, StagesFine;
    var q, c := w.rooms[i].q, w.rooms[i].section.taker;
    if q.pending != [] && c in w.clients {
      var client := w.clients[c].(current := Some((q.name, q.pending[0].content.id)));
      OneClient(w, h, i, Room(QO.PushHead(q, c), Loop), c, client, w.tasks);
      WakeLoop(w, i, QO.PushHead(q, c), w.clients[c := client]);
    }
  }

  // ------------------------------------------------------------ the broker as a whole

  lemma WakeTick(w: World, time: int)
    requires WakeOk(w) && w.now <= time
    ensures WakeOk(w.(now := time))
  {
    hide WakeOk, Deliverable;
    WakeKept(w, w.(now := time), FreshKey(w.rooms));
  }

  lemma WakeConnect(w: World, h: Tokens, c: nat)
    requires Inv(w, h) && WakeOk(w) && c !in w.clients
    ensures WakeOk(SetClient(w, c, Client(Free, None, [], Calm)))
  {
    hide WakeOk, Deliverable, RoomOk, ClientOk, StageOk, TaskOk, RegistryOk;
    forall i | i in w.rooms ensures c !in w.rooms[i].q.consumers {
      assert LinksOk(i, w.rooms[i].q, w.clients);
    }
    WakeKept(w, SetClient(w, c, Client(Free, None, [], Calm)), FreshKey(w.rooms));
  }

  lemma WakeCreate(w: World, name: string, settings: Settings, i: nat)
    requires WakeOk(w) && i !in w.rooms
    ensures WakeOk(SetRoom(w, i, NewQueue(name, settings), Open).(registry := w.registry[name := i]))
  {
    hide WakeOk, Deliverable;
    WakeKept(w, SetRoom(w, i, NewQueue(name, settings), Open).(registry := w.registry[name := i]), i);
  }

  lemma WakeDeregister(w: World, registry: map<string, nat>)
    requires WakeOk(w)
    ensures WakeOk(w.(registry := registry))
  {
    hide WakeOk, Deliverable;
    WakeKept(w, w.(registry := registry), FreshKey(w.rooms));
  }

  /** A queue that was paused, or kept its messages less long, is going to be dispatched. */
  lemma WakeConfigure(w: World, i: nat, settings: Settings, t: nat)
    requires WakeOk(w) && i in w.rooms && t !in w.tasks
    ensures WakeOk(SetTask(SetRoom(w, i, w.rooms[i].q.(settings := settings), w.rooms[i].section), t, Nudging(i)))
  {
    hide WakeOk, Deliverable, BySection;
    var w' := SetTask(SetRoom(w, i, w.rooms[i].q.(settings := settings), w.rooms[i].section), t, Nudging(i));
    forall c ensures Fine(w, w', i, c) {
      if Needs(w', i, c) {
        assert t in w'.tasks && Serves(w'.tasks[t], i, w'.rooms[i].q.name, c);
      }
    }
    WakeKept(w, w', i);
  }

  // ------------------------------------------------------------ binding, unbinding, disconnecting

  lemma WakeClient(w: World, c: nat, client: Client)
    requires WakeOk(w) && c in w.clients && (client.state == Free ==> w.clients[c].state == Free)
    requires forall i :: i in w.rooms && c in w.rooms[i].q.consumers && ByStage(w.clients[c], i, w.rooms[i].q.name) ==> ByStage(client, i, w.rooms[i].q.name)
    ensures WakeOk(SetClient(w, c, client))
  {
    hide WakeOk, Deliverable, ByStage;
    WakeKept(w, SetClient(w, c, client), FreshKey(w.rooms));
  }

  lemma WakeUnbindFetch(w: World, h: Tokens, c: nat, name: string)
    requires Inv(w, h) && WakeOk(w) && c in w.clients && w.clients[c].stage == Unlisted(name)
    ensures WakeOk(Staged(w, c, if name in w.registry then Parting(w.registry[name]) else Calm))
  {
    hide Inv, WakeOk;
    FindableNow(w, h, c);
    WakeClient(w, c, w.clients[c].(stage := if name in w.registry then Parting(w.registry[name]) else Calm));
  }

  lemma WakeJoin(w: World, h: Tokens, c: nat, i: nat)
    requires Inv(w, h) && WakeOk(w) && c in w.clients && w.clients[c].stage == Joining(i) && i in w.rooms
    ensures WakeOk(Staged(SetRoom(w, i, QO.Join(w.rooms[i].q, c), Loop), c, Calm))
  {
    hide Inv, WakeOk, NoneFreed, StagesFine;
    var client := w.clients[c].(stage := Calm);
    OneClient(w, h, i, Room(QO.Join(w.rooms[i].q, c), Loop), c, client, w.tasks);
    WakeLoop(w, i, QO.Join(w.rooms[i].q, c), w.clients[c := client]);
  }

  lemma WakePart(w: World, h: Tokens, c: nat, i: nat, stage: Stage)
    requires Inv(w, h) && WakeOk(w) && c in w.clients && Unlocked(w, i) && (w.clients[c].stage == Parting(i) || w.clients[c].stage.LeavingAt?)
    ensures WakeOk(Staged(SetRoom(w, i, QO.Part(w.rooms[i].q, c), Open), c, stage))
  {
    hide Inv, WakeOk, QueueInv;
    RoomInv(w, h, i);
    QO.PartKeeps(w.rooms[i].q, c);
    WakeSettled(w, h, i, QO.Part(w.rooms[i].q, c), Open, c, w.clients[c].(stage := stage), w.tasks);
  }

  lemma WakeAbandon(w: World, h: Tokens, c: nat)
    requires Inv(w, h) && WakeOk(w) && Enabled(w, Abandon(c))
    ensures WakeOk(Abandoned(w, c))
  {
    hide Inv, WakeOk, NoneFreed, StagesFine;
    var i, id := w.clients[c].stage.inst, w.clients[c].stage.id;
    var q, gone := w.rooms[i].q, w.clients[c].(current := None, stage := Gone);
    if !QO.Holds(q, c, id) {
      WakeClient(w, c, w.clients[c].(stage := Gone));
    } else {
      assert w.clients[c := w.clients[c].(stage := Gone)][c := gone] == w.clients[c := gone];
      var q' := QO.Abandon(q, c, id, w.now);
      if q.settings.redeliver {
        OneClient(w, h, i, Room(q', Loop), c, gone, w.tasks);
        WakeLoop(w, i, q', w.clients[c := gone]);
      } else {
        WakeSettled(w, h, i, QO.Track(q', w.now), Open, c, gone, w.tasks);
      }
    }
  }

  // ------------------------------------------------------------ every step

  lemma WakeBroker(w: World, h: Tokens, e: Event)
    requires Inv(w, h) && WakeOk(w) && Enabled(w, e) && e.OfBroker()
    ensures WakeOk(StepOfBroker(w, e))
  {
    hide Inv, WakeOk;
    match e
    case Tick(time) => WakeTick(w, time);
    case Connect(c) => WakeConnect(w, h, c);
    case Create(name, settings, i) => WakeCreate(w, name, settings, i);
    case Deregister(i) => WakeDeregister(w, w.registry - {w.rooms[i].q.name});
    case Configure(i, settings, t) => WakeConfigure(w, i, settings, t);
  }

  lemma WakeRoom(w: World, h: Tokens, e: Event)
    requires Inv(w, h) && WakeOk(w) && Enabled(w, e) && e.OfRoom()
    ensures WakeOk(StepOfRoom(w, e))
  {
    hide Inv, WakeOk, QO.Publish, QO.Take, QO.AnswerAsked, QO.Collect, QO.Await, QO.Purge, QO.Track, QO.Sweep;
    match e
    case Publish(i, content, ttl, replyTo) => WakeByPublish(w, h, i, content, ttl, replyTo);
    case Take(i) => WakeByTake(w, h, i);
    case Ask(i, id, response, u) => WakeByAnswer(w, h, i, id, response, u);
    case Collect(i, id) => WakeByCollect(w, h, i, id);
    case Await(i, c, ids) => WakeByAwait(w, h, i, c, ids);
    case Purge(i) => WakeByPurge(w, h, i);
    case Sweep(i, order) => WakeBySweep(w, h, i, order);
  }

  lemma WakeDispatching(w: World, h: Tokens, e: Event)
    requires Inv(w, h) && WakeOk(w) && Enabled(w, e) && e.OfDispatch()
    ensures WakeOk(StepOfDispatch(w, e))
  {
    hide Inv, WakeOk, Tried, Handed, Checked;
    match e
    case Check(i) => WakeCheck(w, h, i);
    case Try(i) => WakeTry(w, h, i);
    case Push(i) => WakePush(w, h, i);
  }

  lemma WakeSettling(w: World, h: Tokens, e: Event)
    requires Inv(w, h) && WakeOk(w) && Enabled(w, e) && e.OfSettling()
    ensures WakeOk(StepOfSettling(w, e))
  {
    hide Inv, WakeOk, QO.Confirm, QO.AnswerHeld;
    match e
    case Confirm(i, c, id, t) => WakeConfirm(w, h, i, c, id, t);
    case AnswerBegin(i, c, id, response) => WakeAnswerBegin(w, h, i, c, id, response);
    case AnswerEnd(i, t) =>
      var s := w.rooms[i].section;
      WakeAnswerEnd(w, h, i, t, s.answerer, s.id, s.response);
  }

  lemma TaskThere(w: World, h: Tokens, t: nat)
    requires Inv(w, h) && t in w.tasks
    ensures TaskOk(t, w.tasks[t], h, w.rooms) && h.Keys == w.clients.Keys
  {
  }

  lemma WakeReleased(w: World, h: Tokens, t: nat)
    requires Inv(w, h) && WakeOk(w) && Enabled(w, Release(t))
    ensures WakeOk(StepOfTask(w, Release(t)))
  {
    hide Inv, WakeOk;
    var c := w.tasks[t].c;
    TaskThere(w, h, t);
    WakeRelease(w, t, c, Free);
    WakeRelease(w, t, c, w.clients[c].state);
    assert w.clients[c := w.clients[c]] == w.clients;
  }

  lemma WakeRound(w: World, h: Tokens, e: Event)
    requires Inv(w, h) && WakeOk(w) && Enabled(w, e) && (e.ListQueues? || e.Skip? || e.Next?)
    ensures WakeOk(StepOfTask(w, e))
  {
    hide Inv, WakeOk;
    var task := w.tasks[e.t];
    TaskThere(w, h, e.t);
    match e
    case ListQueues(t, start) => WakeListQueues(w, h, t, task.c, start);
    case Skip(t) => WakeSkip(w, t, task.c, task.rest);
    case Next(t) => WakeNext(w, h, t, task.c, task.rest);
  }

  lemma WakeWaking(w: World, h: Tokens, e: Event)
    requires Inv(w, h) && WakeOk(w) && Enabled(w, e) && (e.Wake? || e.Nudge?)
    ensures WakeOk(StepOfTask(w, e))
  {
    hide Inv, WakeOk;
    var task := w.tasks[e.t];
    TaskThere(w, h, e.t);
    match e
    case Wake(t) => WakeWake(w, h, t, task.c, task.inst, task.rest);
    case Nudge(t) => WakeNudge(w, h, t, task.inst);
  }

  lemma WakeTasks(w: World, h: Tokens, e: Event)
    requires Inv(w, h) && WakeOk(w) && Enabled(w, e) && e.OfTask()
    ensures WakeOk(StepOfTask(w, e))
  {
    hide Inv, WakeOk, Enabled, StepOfTask;
    if e.Release? {
      WakeReleased(w, h, e.t);
    } else if e.Wake? || e.Nudge? {
      WakeWaking(w, h, e);
    } else {
      WakeRound(w, h, e);
    }
  }

  lemma WakeBinding(w: World, h: Tokens, e: Event)
    requires Inv(w, h) && WakeOk(w) && Enabled(w, e)
    requires e.BindList? || e.BindFetch? || e.BindJoin?
    ensures WakeOk(StepOfBinding(w, e))
  {
    hide Inv, WakeOk, QO.Join;
    var client := w.clients[e.c];
    match e
    case BindList(c, name) =>
      WakeClient(w, c, client.(queues := if name in client.queues then client.queues else client.queues + [name], stage := Listed(name)));
    case BindFetch(c) => WakeClient(w, c, client.(stage := Joining(w.registry[client.stage.queue])));
    case BindJoin(c) =>
      var i := client.stage.inst;
      WakeClient(w, c, client.(stage := Listed(w.rooms[i].q.name)));
      WakeJoin(w, h, c, i);
  }

  lemma WakeUnbinding(w: World, h: Tokens, e: Event)
    requires Inv(w, h) && WakeOk(w) && Enabled(w, e)
    requires e.UnbindList? || e.UnbindFetch? || e.UnbindPart?
    ensures WakeOk(StepOfBinding(w, e))
  {
    hide Inv, WakeOk, QO.Part;
    var client := w.clients[e.c];
    match e
    case UnbindList(c, name) => WakeClient(w, c, client.(queues := QO.WithoutFirst(client.queues, name), stage := Unlisted(name)));
    case UnbindFetch(c) => WakeUnbindFetch(w, h, c, client.stage.queue);
    case UnbindPart(c) => WakePart(w, h, c, client.stage.inst, Calm);
  }

  lemma WakeClosing(w: World, e: Event)
    requires WakeOk(w) && Enabled(w, e) && (e.Close? || e.Gather?)
    ensures WakeOk(StepOfLeaving(w, e))
  {
    hide WakeOk, Abandoned;
    var client := w.clients[e.c];
    match e
    case Close(c) => WakeClient(w, c, client.(state := Closed, stage := Shut));
    case Gather(c) => WakeClient(w, c, client.(queues := [], stage := Leaving(client.queues)));
  }

  lemma WakeLeaving(w: World, h: Tokens, e: Event)
    requires Inv(w, h) && WakeOk(w) && Enabled(w, e)
    requires e.LeaveFetch? || e.LeavePart?
    ensures WakeOk(StepOfLeaving(w, e))
  {
    hide Inv, WakeOk, QO.Part, Abandoned;
    var client := w.clients[e.c];
    match e
    case LeaveFetch(c) =>
      var rest := client.stage.rest;
      WakeClient(w, c, client.(stage := if rest[0] in w.registry then LeavingAt(w.registry[rest[0]], rest[1..]) else Leaving(rest[1..])));
    case LeavePart(c) => WakePart(w, h, c, client.stage.inst, Leaving(client.stage.rest));
  }

  lemma WakeGivingUp(w: World, h: Tokens, e: Event)
    requires Inv(w, h) && WakeOk(w) && Enabled(w, e)
    requires e.Look? || e.Find? || e.Abandon?
    ensures WakeOk(StepOfLeaving(w, e))
  {
    hide Inv, WakeOk, Abandoned;
    var client := w.clients[e.c];
    match e
    case Look(c) => WakeClient(w, c, client.(stage := match client.current case None => Gone case Some(held) => Abandoning(held.0, held.1)));
    case Find(c) => WakeClient(w, c, client.(stage := if client.stage.queue in w.registry then AbandoningAt(w.registry[client.stage.queue], client.stage.id) else Gone));
    case Abandon(c) => WakeAbandon(w, h, c);
  }

  lemma WakeStep(w: World, h: Tokens, e: Event)
    requires Inv(w, h) && WakeOk(w) && Enabled(w, e)
    ensures WakeOk(Step(w, e))
  {
    hide Inv, WakeOk, Enabled, StepOfBroker, StepOfRoom, StepOfDispatch, StepOfSettling, StepOfTask, StepOfBinding, StepOfLeaving;
    if e.OfBroker() {
      WakeBroker(w, h, e);
    } else if e.OfRoom() {
      WakeRoom(w, h, e);
    } else if e.OfDispatch() {
      WakeDispatching(w, h, e);
    } else if e.OfSettling() {
      WakeSettling(w, h, e);
    } else if e.OfTask() {
      WakeTasks(w, h, e);
    } else if e.BindList? || e.BindFetch? || e.BindJoin? {
      WakeBinding(w, h, e);
    } else if e.OfBinding() {
      WakeUnbinding(w, h, e);
    } else if e.Close? || e.Gather? {
      WakeClosing(w, e);
    } else if e.LeaveFetch? || e.LeavePart? {
      WakeLeaving(w, h, e);
    } else {
      WakeGivingUp(w, h, e);
    }
  }
}
