/** Run without interruption, the small steps of the dispatch loop do what one dispatch of the queue does. */
module DispatchAlone {
  import opened Options
  import opened Consumers
  import opened QueueModel
  import QO = QueueOperations
  import opened Interleaving

  ghost function FreeOf(clients: map<nat, Client>): set<nat> {
    set c | c in clients && clients[c].state == Free
  }

  ghost predicate Members(w: World, i: nat) {
    i in w.rooms && forall c :: c in w.rooms[i].q.consumers ==> c in w.clients
  }

  lemma {:induction false} RunsJoin(w: World, a: seq<Event>, b: seq<Event>)
    requires Possible(w, a) && Possible(After(w, a), b)
    ensures Possible(w, a + b) && After(w, a + b) == After(After(w, a), b)
  {
    hide Enabled, Step;
    if b == [] {
      assert a + b == a;
    } else {
      var init, e := b[..|b| - 1], b[|b| - 1];
      RunsJoin(w, a, init);
      assert (a + b)[..|a + b| - 1] == a + init && (a + b)[|a + b| - 1] == e;
    }
  }

  lemma OneStep(w: World, e: Event)
    requires Enabled(w, e)
    ensures Possible(w, [e]) && After(w, [e]) == Step(w, e)
  {
    hide Enabled, Step;
    assert [e][..0] == [];
  }

  lemma StepIs(w: World, i: nat)
    requires i in w.rooms
    ensures w.rooms[i].section.Loop? ==> Enabled(w, Check(i)) && Step(w, Check(i)) == w.(rooms := w.rooms[i := Checked(w.rooms[i].q, w.now)])
    ensures w.rooms[i].section.Scan? ==> Enabled(w, Try(i)) && Step(w, Try(i)) == Tried(w, i)
    ensures w.rooms[i].section.Got? ==> Enabled(w, Push(i)) && Step(w, Push(i)) == Handed(w, i)
  {
  }

  lemma ScanStep(w: World, i: nat) returns (es: seq<Event>)
    requires Members(w, i) && w.rooms[i].section.Scan? && w.rooms[i].section.tried <= |w.rooms[i].q.consumers|
    ensures Possible(w, es)
    ensures var q, k := w.rooms[i].q, w.rooms[i].section.tried;
            if k >= |q.consumers| then After(w, es) == SetRoom(w, i, QO.Track(q, w.now), Open)
            else
              var c := Candidate(q, k);
              c in w.clients &&
              After(w, es) == if w.clients[c].state != Free then SetRoom(w, i, q, Scan(k + 1))
                              else SetClient(SetRoom(w, i, q.(next := ((q.next + k) % |q.consumers| + 1) % |q.consumers|), Got(c)), c, w.clients[c].(state := Busy))
  {
    hide Enabled, Step, QO.Track, Possible, After;
    StepIs(w, i);
    OneStep(w, Try(i));
    es := [Try(i)];
    if w.rooms[i].section.tried < |w.rooms[i].q.consumers| {
      assert Candidate(w.rooms[i].q, w.rooms[i].section.tried) in w.rooms[i].q.consumers;
    }
  }

  lemma FirstFreeFrom(w: World, q: Queue<nat>, k: nat)
    requires k <= |q.consumers|
    ensures QO.FirstFree(q.consumers, q.next, FreeOf(w.clients), k) ==
            if k == |q.consumers| then None
            else if Candidate(q, k) in w.clients && w.clients[Candidate(q, k)].state == Free then Some((q.next + k) % |q.consumers|)
            else QO.FirstFree(q.consumers, q.next, FreeOf(w.clients), k + 1)
    ensures k < |q.consumers| ==> q.consumers[(q.next + k) % |q.consumers|] == Candidate(q, k)
  {
  }

  lemma MembersStay(w: World, i: nat, k: nat)
    requires Members(w, i)
    ensures Members(SetRoom(w, i, w.rooms[i].q, Scan(k)), i)
  {
  }

  /** Trying one consumer after the other finds the first free one. */
  lemma {:induction false} ScanAlone(w: World, i: nat) returns (es: seq<Event>)
    requires Members(w, i) && w.rooms[i].section.Scan? && w.rooms[i].section.tried <= |w.rooms[i].q.consumers|
    ensures Possible(w, es)
    ensures var q := w.rooms[i].q;
            match QO.FirstFree(q.consumers, q.next, FreeOf(w.clients), w.rooms[i].section.tried)
            case None => After(w, es) == SetRoom(w, i, QO.Track(q, w.now), Open)
            case Some(k) =>
              var c := q.consumers[k];
              c in w.clients && After(w, es) == SetClient(SetRoom(w, i, q.(next := (k + 1) % |q.consumers|), Got(c)), c, w.clients[c].(state := Busy))
    decreases |w.rooms[i].q.consumers| - w.rooms[i].section.tried
  {
    hide Enabled, Step, QO.Track, Possible, After, Tried, QO.FirstFree, FreeOf, Candidate;
    var q, k := w.rooms[i].q, w.rooms[i].section.tried;
    es := ScanStep(w, i);
    FirstFreeFrom(w, q, k);
    MembersStay(w, i, k + 1);
    if k < |q.consumers| && w.clients[Candidate(q, k)].state != Free {
      var rest := ScanAlone(SetRoom(w, i, q, Scan(k + 1)), i);
      RunsJoin(w, es, rest);
      es := es + rest;
    }
  }

  /** One round: a message is found, a consumer acquired, and the message handed over. */
  lemma RoundAlone(w: World, i: nat) returns (es: seq<Event>)
    requires Members(w, i) && w.rooms[i].section.Loop?
    ensures Possible(w, es)
    ensures var q := w.rooms[i].q;
            var live := QO.DropDead(q, w.now);
            var k := QO.FirstFree(q.consumers, q.next, FreeOf(w.clients), 0);
            if q.settings.paused || q.consumers == [] then After(w, es) == SetRoom(w, i, QO.Track(q, w.now), Open)
            else if live.pending == [] || k == None then After(w, es) == SetRoom(w, i, QO.Track(live, w.now), Open)
            else
              var c := q.consumers[k.value];
              c in w.clients &&
              After(w, es) == SetClient(SetRoom(w, i, QO.PushHead(live, c).(next := (k.value + 1) % |q.consumers|), Loop), c,
                                        w.clients[c].(state := Busy, current := Some((q.name, live.pending[0].content.id))))
  {
    hide Enabled, Step, QO.Track, QO.DropDead, Possible, After, QO.FirstFree, QO.PushHead, Handed, Tried;
    var q := w.rooms[i].q;
    var live := QO.DropDead(q, w.now);
    QO.DropDeadShortens(q, w.now);
    StepIs(w, i);
    OneStep(w, Check(i));
    es := [Check(i)];
    var w1 := w.(rooms := w.rooms[i := Checked(q, w.now)]);
    if w1.rooms[i].section.Scan? {
      var scan := ScanAlone(w1, i);
      RunsJoin(w, es, scan);
      es := es + scan;
      match QO.FirstFree(q.consumers, q.next, FreeOf(w.clients), 0)
      case None => assert w.rooms[i := Checked(q, w.now)][i := Room(QO.Track(live, w.now), Open)] == w.rooms[i := Room(QO.Track(live, w.now), Open)];
      case Some(k) =>
        var w2, c, next := After(w, es), q.consumers[k], (k + 1) % |q.consumers|;
        assert w1.rooms[i := Room(live.(next := next), Got(c))] == w.rooms[i := Room(live.(next := next), Got(c))];
        assert w2 == SetClient(SetRoom(w, i, live.(next := next), Got(c)), c, w.clients[c].(state := Busy));
        StepIs(w2, i);
        OneStep(w2, Push(i));
        RunsJoin(w, es, [Push(i)]);
        es := es + [Push(i)];
        QO.PushHeadTurn(live, c, next);
        HandedIs(w, i, live, c, next);
    }
  }

  lemma HandedIs(w: World, i: nat, live: Queue<nat>, c: nat, next: nat)
    requires i in w.rooms && c in w.clients && live.pending != []
    ensures var w2 := SetClient(SetRoom(w, i, live.(next := next), Got(c)), c, w.clients[c].(state := Busy));
            Handed(w2, i) == SetClient(SetRoom(w, i, QO.PushHead(live.(next := next), c), Loop), c,
                                       w.clients[c].(state := Busy, current := Some((live.name, live.pending[0].content.id))))
  {
    hide QO.PushHead;
    var w2 := SetClient(SetRoom(w, i, live.(next := next), Got(c)), c, w.clients[c].(state := Busy));
    var room := Room(QO.PushHead(live.(next := next), c), Loop);
    assert w2.rooms[i := room] == w.rooms[i := room];
    var client := w.clients[c].(state := Busy, current := Some((live.name, live.pending[0].content.id)));
    assert w2.clients[c := client] == w.clients[c := client];
  }

  lemma Shorter(live: Queue<nat>, c: nat, next: nat)
    requires live.pending != []
    ensures var q' := QO.PushHead(live, c).(next := next); |q'.pending| == |live.pending| - 1 && q'.consumers == live.consumers
  {
  }

  /** The whole loop, run alone, leaves the queue as one dispatch to the consumers that are free leaves it. */
  lemma {:induction false} LoopIsDispatch(w: World, i: nat) returns (es: seq<Event>)
    requires Members(w, i) && w.rooms[i].section.Loop?
    ensures Possible(w, es)
    ensures After(w, es).rooms == w.rooms[i := Room(QO.Dispatch(w.rooms[i].q, FreeOf(w.clients), w.now), Open)]
    decreases |w.rooms[i].q.pending|
  {
    hide Enabled, Step, QO.Track, QO.DropDead, Possible, After, QO.FirstFree, QO.PushHead, QO.Dispatch;
    var q, free := w.rooms[i].q, FreeOf(w.clients);
    var live, k := QO.DropDead(q, w.now), QO.FirstFree(q.consumers, q.next, free, 0);
    es := RoundAlone(w, i);
    if q.settings.paused || q.consumers == [] {
      PausedDispatch(q, free, w.now);
    } else {
      QO.DispatchStep(q, free, w.now);
      QO.DropDeadShortens(q, w.now);
      if live.pending != [] && k != None {
        var c := q.consumers[k.value];
        var w1 := After(w, es);
        Shorter(live, c, (k.value + 1) % |q.consumers|);
        assert FreeOf(w1.clients) == free - {c};
        assert Members(w1, i);
        var rest := LoopIsDispatch(w1, i);
        RunsJoin(w, es, rest);
        es := es + rest;
        var last := Room(QO.Dispatch(w1.rooms[i].q, free - {c}, w.now), Open);
        assert w1.rooms[i := last] == w.rooms[i := last];
      }
    }
  }

  lemma PausedDispatch(q: Queue<nat>, free: set<nat>, now: int)
    requires q.settings.paused || q.consumers == []
    ensures QO.Dispatch(q, free, now) == QO.Track(q, now)
  {
  }
}
