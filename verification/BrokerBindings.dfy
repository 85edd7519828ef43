/**
 * The steps of the interleaved broker that bind, unbind and disconnect a consumer.
 *
 * A consumer that is bound to a room is always listed, or its own thread is on the way to unbind it. That
 * is why a disconnection that went through its whole list has left every room, why nothing can be assigned
 * to the consumer from then on, and why what it holds is read only then.
 */
module BrokerBindings {
  import opened Options
  import opened Consumers
  import opened QueueModel
  import QO = QueueOperations
  import opened QuietSteps
  import opened Interleaving
  import opened BrokerSafety
  import opened BrokerSteps

  // ------------------------------------------------------------ what a consumer at some stage is bound to

  /** Whatever queue the consumer is bound to, it can still be found there. */
  ghost predicate Findable(w: World, c: nat, client: Client) {
    forall j :: j in w.rooms && c in w.rooms[j].q.consumers ==> Linked(client, j, w.rooms[j].q.name)
  }

  lemma FindableNow(w: World, h: Tokens, c: nat)
    requires Inv(w, h) && c in w.clients
    ensures Findable(w, c, w.clients[c])
    ensures forall j :: j in w.rooms && c in w.rooms[j].q.consumers ==> w.rooms[j].q.name in w.registry && w.registry[w.rooms[j].q.name] == j
  {
    hide Inv, Linked;
    forall j | j in w.rooms && c in w.rooms[j].q.consumers
      ensures Linked(w.clients[c], j, w.rooms[j].q.name) && w.rooms[j].q.name in w.registry && w.registry[w.rooms[j].q.name] == j
    {
      LinkedThere(w, h, c, j);
    }
  }

  /** Bound to nothing, it is not being handed a message. */
  lemma NotAcquired(w: World, h: Tokens, c: nat, client: Client)
    requires Inv(w, h) && c in w.clients && Findable(w, c, client) && client.queues == [] && client.stage == Leaving([])
    ensures !h[c].Acquired?
  {
    hide Inv;
    OwnerThere(w, h, c);
  }

  /** A step that changes only how far the thread of a consumer is, and its list. */
  lemma Advanced(w: World, h: Tokens, c: nat, client: Client)
    requires Inv(w, h) && c in w.clients && client.current == w.clients[c].current
    requires client.state == w.clients[c].state || client.state == Closed
    requires Findable(w, c, client) && StageOk(c, client, h[c], w.rooms)
    ensures Inv(SetClient(w, c, client), h)
  {
    hide RoomOk, LinksOk, RegistryOk, StageOk, TaskOk, Linked, QueueInv;
    assert ClientOk(c, w.clients[c], h[c], w.rooms, w.tasks);
    ClientStep(w, h, c, client);
  }

  // ------------------------------------------------------------ binding and unbinding

  lemma KeepBindList(w: World, h: Tokens, c: nat, name: string)
    requires Inv(w, h) && c in w.clients && w.clients[c].stage == Calm
    ensures var list := w.clients[c].queues;
            Inv(SetClient(w, c, w.clients[c].(queues := if name in list then list else list + [name], stage := Listed(name))), h)
  {
    hide Inv, QueueInv;
    var list := w.clients[c].queues;
    FindableNow(w, h, c);
    OwnerThere(w, h, c);
    Advanced(w, h, c, w.clients[c].(queues := if name in list then list else list + [name], stage := Listed(name)));
  }

  lemma Registered(w: World, h: Tokens, name: string)
    requires Inv(w, h) && name in w.registry
    ensures w.registry[name] in w.rooms && w.rooms[w.registry[name]].q.name == name
  {
    hide RoomOk, LinksOk, ClientOk, StageOk, TaskOk;
  }

  lemma KeepBindFetch(w: World, h: Tokens, c: nat, name: string)
    requires Inv(w, h) && c in w.clients && w.clients[c].stage == Listed(name) && name in w.registry
    ensures Inv(Staged(w, c, Joining(w.registry[name])), h)
  {
    hide Inv, QueueInv;
    FindableNow(w, h, c);
    OwnerThere(w, h, c);
    Registered(w, h, name);
    Advanced(w, h, c, w.clients[c].(stage := Joining(w.registry[name])));
  }

  lemma KeepBindAgain(w: World, h: Tokens, c: nat, i: nat)
    requires Inv(w, h) && c in w.clients && w.clients[c].stage == Joining(i)
    ensures i in w.rooms && Inv(Staged(w, c, Listed(w.rooms[i].q.name)), h) && Inv(Staged(w, c, Calm), h)
    ensures w.rooms[i].q.name in w.clients[c].queues
  {
    hide Inv, QueueInv;
    FindableNow(w, h, c);
    OwnerThere(w, h, c);
    Advanced(w, h, c, w.clients[c].(stage := Listed(w.rooms[i].q.name)));
    Advanced(w, h, c, w.clients[c].(stage := Calm));
  }

  lemma JoinLinks(i: nat, q: Queue<nat>, c: nat, clients: map<nat, Client>)
    requires LinksOk(i, q, clients) && c in clients && q.name in clients[c].queues
    ensures LinksOk(i, QO.Join(q, c), clients)
  {
  }

  lemma KeepBindJoin(w: World, h: Tokens, c: nat, i: nat)
    requires Inv(w, h) && c in w.clients && w.clients[c].stage == Joining(i) && Unlocked(w, i) && !w.rooms[i].q.removed
    ensures Inv(Staged(SetRoom(w, i, QO.Join(w.rooms[i].q, c), Loop), c, Calm), h)
  {
    hide QueueInv, RegistryOk, ClientOk, StageOk, TaskOk, OwnersOk, LinksOk;
    KeepBindAgain(w, h, c, i);
    var w1, q := Staged(w, c, Calm), w.rooms[i].q;
    assert LinksOk(i, q, w1.clients) && RoomOk(i, w1.rooms[i], h);
    JoinLinks(i, q, c, w1.clients);
    QO.JoinKeeps(q, c);
    QuietStep(w1, h, i, QO.Join(q, c), Loop);
  }

  lemma {:induction false} StillListed(s: seq<string>, x: string, y: string)
    requires y in s && y != x
    ensures y in QO.WithoutFirst(s, x)
  {
    if s[0] != x && s[0] != y {
      StillListed(s[1..], x, y);
    }
  }

  lemma KeepUnbindList(w: World, h: Tokens, c: nat, name: string)
    requires Inv(w, h) && c in w.clients && w.clients[c].stage == Calm
    ensures Inv(SetClient(w, c, w.clients[c].(queues := QO.WithoutFirst(w.clients[c].queues, name), stage := Unlisted(name))), h)
  {
    hide Inv, QueueInv, QO.WithoutFirst;
    var list := w.clients[c].queues;
    FindableNow(w, h, c);
    OwnerThere(w, h, c);
    forall y | y in list && y != name ensures y in QO.WithoutFirst(list, name) {
      StillListed(list, name, y);
    }
    Advanced(w, h, c, w.clients[c].(queues := QO.WithoutFirst(list, name), stage := Unlisted(name)));
  }

  lemma KeepUnbindFetch(w: World, h: Tokens, c: nat, name: string)
    requires Inv(w, h) && c in w.clients && w.clients[c].stage == Unlisted(name)
    ensures Inv(Staged(w, c, if name in w.registry then Parting(w.registry[name]) else Calm), h)
  {
    hide Inv, QueueInv;
    FindableNow(w, h, c);
    OwnerThere(w, h, c);
    if name in w.registry {
      Registered(w, h, name);
    }
    Advanced(w, h, c, w.clients[c].(stage := if name in w.registry then Parting(w.registry[name]) else Calm));
  }

  lemma KeepPart(w: World, h: Tokens, c: nat, i: nat)
    requires Inv(w, h) && c in w.clients && Unlocked(w, i)
    ensures var w' := SetRoom(w, i, QO.Part(w.rooms[i].q, c), Open);
            Inv(w', h) && c !in w'.rooms[i].q.consumers
  {
    hide QueueInv, RegistryOk, ClientOk, StageOk, TaskOk, OwnersOk, Linked;
    var q := w.rooms[i].q;
    assert LinksOk(i, q, w.clients) && RoomOk(i, w.rooms[i], h);
    QO.PartKeeps(q, c);
    QuietStep(w, h, i, QO.Part(q, c), Open);
  }

  lemma KeepUnbindPart(w: World, h: Tokens, c: nat, i: nat)
    requires Inv(w, h) && c in w.clients && w.clients[c].stage == Parting(i) && Unlocked(w, i)
    ensures Inv(Staged(SetRoom(w, i, QO.Part(w.rooms[i].q, c), Open), c, Calm), h)
  {
    hide Inv, QueueInv, QO.Part;
    KeepPart(w, h, c, i);
    var w1 := SetRoom(w, i, QO.Part(w.rooms[i].q, c), Open);
    FindableNow(w1, h, c);
    OwnerThere(w1, h, c);
    Advanced(w1, h, c, w1.clients[c].(stage := Calm));
  }

  // ------------------------------------------------------------ disconnecting

  lemma KeepClose(w: World, h: Tokens, c: nat)
    requires Inv(w, h) && c in w.clients && w.clients[c].stage == Calm
    ensures Inv(SetClient(w, c, w.clients[c].(state := Closed, stage := Shut)), h)
  {
    hide Inv, QueueInv;
    FindableNow(w, h, c);
    OwnerThere(w, h, c);
    Advanced(w, h, c, w.clients[c].(state := Closed, stage := Shut));
  }

  lemma KeepGather(w: World, h: Tokens, c: nat)
    requires Inv(w, h) && c in w.clients && w.clients[c].stage == Shut
    ensures Inv(SetClient(w, c, w.clients[c].(queues := [], stage := Leaving(w.clients[c].queues))), h)
  {
    hide Inv, QueueInv;
    FindableNow(w, h, c);
    OwnerThere(w, h, c);
    var client := w.clients[c].(queues := [], stage := Leaving(w.clients[c].queues));
    if w.clients[c].queues == [] {
      NotAcquired(w, h, c, client);
    }
    Advanced(w, h, c, client);
  }

  lemma KeepLeaveFetch(w: World, h: Tokens, c: nat, rest: seq<string>)
    requires Inv(w, h) && c in w.clients && w.clients[c].stage == Leaving(rest) && rest != []
    ensures Inv(Staged(w, c, if rest[0] in w.registry then LeavingAt(w.registry[rest[0]], rest[1..]) else Leaving(rest[1..])), h)
  {
    hide Inv, QueueInv;
    FindableNow(w, h, c);
    OwnerThere(w, h, c);
    if rest[0] in w.registry {
      Registered(w, h, rest[0]);
    }
    var client := w.clients[c].(stage := if rest[0] in w.registry then LeavingAt(w.registry[rest[0]], rest[1..]) else Leaving(rest[1..]));
    assert Findable(w, c, client) by {
      assert forall x :: x in rest <==> x == rest[0] || x in rest[1..];
    }
    if client.stage == Leaving([]) {
      NotAcquired(w, h, c, client);
    }
    Advanced(w, h, c, client);
  }

  lemma KeepLeavePart(w: World, h: Tokens, c: nat, i: nat, rest: seq<string>)
    requires Inv(w, h) && c in w.clients && w.clients[c].stage == LeavingAt(i, rest) && Unlocked(w, i)
    ensures Inv(Staged(SetRoom(w, i, QO.Part(w.rooms[i].q, c), Open), c, Leaving(rest)), h)
  {
    hide Inv, QueueInv, QO.Part;
    KeepPart(w, h, c, i);
    var w1 := SetRoom(w, i, QO.Part(w.rooms[i].q, c), Open);
    FindableNow(w1, h, c);
    OwnerThere(w1, h, c);
    var client := w1.clients[c].(stage := Leaving(rest));
    if rest == [] {
      NotAcquired(w1, h, c, client);
    }
    Advanced(w1, h, c, client);
  }

  lemma KeepLook(w: World, h: Tokens, c: nat)
    requires Inv(w, h) && c in w.clients && w.clients[c].stage == Leaving([])
    ensures Inv(Staged(w, c, match w.clients[c].current case None => Gone case Some(held) => Abandoning(held.0, held.1)), h)
  {
    hide Inv, QueueInv;
    FindableNow(w, h, c);
    OwnerThere(w, h, c);
    Advanced(w, h, c, w.clients[c].(stage := match w.clients[c].current case None => Gone case Some(held) => Abandoning(held.0, held.1)));
  }

  lemma KeepFind(w: World, h: Tokens, c: nat, name: string, id: string)
    requires Inv(w, h) && c in w.clients && w.clients[c].stage == Abandoning(name, id)
    ensures Inv(Staged(w, c, if name in w.registry then AbandoningAt(w.registry[name], id) else Gone), h)
  {
    hide Inv, QueueInv;
    FindableNow(w, h, c);
    OwnerThere(w, h, c);
    if name in w.registry {
      Registered(w, h, name);
    }
    Advanced(w, h, c, w.clients[c].(stage := if name in w.registry then AbandoningAt(w.registry[name], id) else Gone));
  }

  lemma KeepAbandonNothing(w: World, h: Tokens, c: nat, i: nat, id: string)
    requires Inv(w, h) && c in w.clients && w.clients[c].stage == AbandoningAt(i, id) && i in w.rooms && !QO.Holds(w.rooms[i].q, c, id)
    ensures Inv(Staged(w, c, Gone), h)
  {
    hide Inv, QueueInv;
    FindableNow(w, h, c);
    OwnerThere(w, h, c);
    Advanced(w, h, c, w.clients[c].(stage := Gone));
  }

  lemma AbandonHolds(q: Queue<nat>, c: nat, id0: string, now: int)
    requires QueueInv(q) && QO.Holds(q, c, id0)
    ensures var q' := QO.Abandon(q, c, id0, now);
            (forall d, id :: QO.Holds(q', d, id) <==> id != id0 && QO.Holds(q, d, id))
            && SamePlaceOf(q, q') && q'.removed == q.removed
  {
    QO.FlyingId(q, id0);
  }

  /** The message is taken from the consumer that went away. */
  lemma TakenAway(w: World, h: Tokens, c: nat, i: nat, id: string, q': Queue<nat>, section: Section)
    requires Inv(w, h) && c in w.clients && w.clients[c].stage == AbandoningAt(i, id) && Unlocked(w, i) && QO.Holds(w.rooms[i].q, c, id)
    requires forall d, x :: QO.Holds(q', d, x) <==> x != id && QO.Holds(w.rooms[i].q, d, x)
    requires QueueInv(q') && SamePlaceOf(w.rooms[i].q, q') && (section.Open? || section.Loop?)
    ensures Inv(SetClient(SetRoom(w, i, q', section), c, w.clients[c].(current := None, stage := Gone)), h[c := Idle])
  {
    hide Inv, QueueInv;
    NoneOwnedBut(w, h, c, i, id);
    OwnerThere(w, h, c);
    OnlyThatOwner(w, h, i, c, id);
    var client, t := w.clients[c].(current := None), FreshKey(w.tasks);
    Move(w, h, i, Room(q', section), c, client, w.tasks, t, Idle);
    var w1 := Moved(w, i, Room(q', section), c, client, w.tasks);
    FindableNow(w1, h[c := Idle], c);
    Away(w1, h[c := Idle], c, i, id);
    assert w.clients[c := client][c := client.(stage := Gone)] == w.clients[c := client.(stage := Gone)];
  }

  lemma Away(w: World, h: Tokens, c: nat, i: nat, id: string)
    requires Inv(w, h) && c in w.clients && w.clients[c].stage == AbandoningAt(i, id) && h[c] == Idle
    ensures Inv(Staged(w, c, Gone), h)
  {
    hide Inv, QueueInv;
    FindableNow(w, h, c);
    OwnerThere(w, h, c);
    Advanced(w, h, c, w.clients[c].(stage := Gone));
  }

  lemma KeepAbandonHeld(w: World, h: Tokens, c: nat, i: nat, id: string)
    requires Inv(w, h) && c in w.clients && w.clients[c].stage == AbandoningAt(i, id) && Unlocked(w, i) && QO.Holds(w.rooms[i].q, c, id)
    ensures var q := w.rooms[i].q;
            var q' := QO.Abandon(q, c, id, w.now);
            var gone := w.clients[c].(current := None, stage := Gone);
            Inv(SetClient(SetRoom(w, i, q', Loop), c, gone), h[c := Idle]) && Inv(SetClient(SetRoom(w, i, QO.Track(q', w.now), Open), c, gone), h[c := Idle])
  {
    hide Inv, QueueInv, QO.Abandon;
    RoomInv(w, h, i);
    var q := w.rooms[i].q;
    var q' := QO.Abandon(q, c, id, w.now);
    QO.AbandonKeeps(q, c, id, w.now);
    AbandonHolds(q, c, id, w.now);
    TakenAway(w, h, c, i, id, q', Loop);
    QO.TrackKeeps(q', w.now);
    TakenAway(w, h, c, i, id, QO.Track(q', w.now), Open);
  }
}
