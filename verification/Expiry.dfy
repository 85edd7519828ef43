/** What expires and what is served, told without the loops that bury and dispatch. */
module Expiry {
  import opened Options
  import opened Messages
  import opened QueueModel
  import opened QueueOperations

  /** Its own time, when it was given one, is not over, and neither is the retention of the queue. */
  ghost predicate Alive<C>(e: Entry<C>, s: Settings, now: int) {
    (e.ttl > 0 ==> now - e.born <= e.ttl) && now - e.born <= s.retention
  }

  /** What a message that is not alive is buried for: its own time comes before the retention. */
  ghost function CauseOf<C>(e: Entry<C>, now: int): Reason {
    if e.ttl > 0 && now - e.born > e.ttl then Expired else NotConsumed
  }

  lemma DeadReasonIs<C>(e: Entry<C>, s: Settings, now: int)
    ensures DeadReason(e, s, now) == if Alive(e, s, now) then None else Some(CauseOf(e, now))
  {
  }

  /** The messages of a line that may still be delivered. */
  ghost function Live<C>(entries: seq<Entry<C>>, s: Settings, now: int): seq<Entry<C>> {
    if entries == [] then []
    else if Alive(entries[0], s, now) then [entries[0]] + Live(entries[1..], s, now)
    else Live(entries[1..], s, now)
  }

  /** What burying the others leaves in the history: each once, in order, with its reason. */
  ghost function Obituaries<C>(q: Queue<C>, entries: seq<Entry<C>>, now: int): seq<Happening<C>> {
    if entries == [] then []
    else
      var e := entries[0];
      (if Alive(e, q.settings, now) then [] else [Buried(DeadLetter(q.name, e.content, CauseOf(e, now), e.born, now, None))])
      + Obituaries(q, entries[1..], now)
  }

  lemma {:induction false} LiveAppended<C>(a: seq<Entry<C>>, b: seq<Entry<C>>, s: Settings, now: int)
    ensures Live(a + b, s, now) == Live(a, s, now) + Live(b, s, now)
  {
    if a == [] {
      assert a + b == b;
    } else {
      assert (a + b)[1..] == a[1..] + b;
      LiveAppended(a[1..], b, s, now);
    }
  }

  lemma {:induction false} ObituariesOf<C>(q: Queue<C>, q': Queue<C>, entries: seq<Entry<C>>, now: int)
    requires q'.settings == q.settings && q'.name == q.name
    ensures Obituaries(q', entries, now) == Obituaries(q, entries, now)
  {
    if entries != [] {
      ObituariesOf(q, q', entries[1..], now);
    }
  }

  lemma BuriedIs<C>(q: Queue<C>, i: nat, now: int)
    requires i < |q.pending| && !Alive(q.pending[i], q.settings, now)
    ensures DeadReason(q.pending[i], q.settings, now).Some?
    ensures var e := q.pending[i];
            Bury(q, i, now) == q.(pending := Without(q.pending, i), log := q.log + [Buried(DeadLetter(q.name, e.content, CauseOf(e, now), e.born, now, None))])
  {
  }

  /** A sweep leaves exactly the live messages, in order, and buries each other one once with its reason. */
  lemma {:induction false} SweepKeepsTheLive<C>(q: Queue<C>, i: nat, now: int)
    requires i <= |q.pending|
    ensures SweepLine(q, i, now) ==
            q.(pending := q.pending[..i] + Live(q.pending[i..], q.settings, now),
               log := q.log + Obituaries(q, q.pending[i..], now))
    decreases |q.pending| - i
  {
    hide Alive, CauseOf, DeadReason;
    var rest := q.pending[i..];
    if i < |q.pending| {
      DeadReasonIs(q.pending[i], q.settings, now);
    }
    if i == |q.pending| {
      assert q.pending[..i] + [] == q.pending && q.log + [] == q.log;
    } else if DeadReason(q.pending[i], q.settings, now).Some? {
      BuriedIs(q, i, now);
      hide Bury;
      var q' := Bury(q, i, now);
      assert q'.pending[..i] == q.pending[..i] && q'.pending[i..] == rest[1..];
      ObituariesOf(q, q', rest[1..], now);
      SweepKeepsTheLive(q', i, now);
      hide Obituaries, Live;
      assert rest == [rest[0]] + rest[1..];
      DeadFirst(q, rest[0], rest[1..], now);
    } else {
      assert q.pending[..i + 1] + Live(rest[1..], q.settings, now) == q.pending[..i] + ([rest[0]] + Live(rest[1..], q.settings, now));
      assert q.pending[i + 1..] == rest[1..];
      SweepKeepsTheLive(q, i + 1, now);
    }
  }

  /** Nobody is processing it, and it waited too long: for its answer, or the answer for its collector. */
  ghost predicate Forgotten<C>(e: Entry<C>, s: Settings, now: int) {
    e.owner == None && match e.response
      case None => now - e.born > s.retention
      case Some(_) => now - e.answeredAt > s.retention
  }

  /** A sweep gives up exactly the messages in flight that are forgotten. */
  lemma {:induction false} SweepDropsTheStale<C>(q: Queue<C>, ids: seq<string>, now: int)
    ensures var swept := SweepFlight(q, ids, now);
            swept.(inFlight := q.inFlight, log := q.log) == q
            && swept.inFlight == map id | id in q.inFlight && !(id in ids && Forgotten(q.inFlight[id], q.settings, now)) :: q.inFlight[id]
  {
    if ids != [] {
      var init, id := ids[..|ids| - 1], ids[|ids| - 1];
      assert ids == init + [id];
      SweepDropsTheStale(q, init, now);
    }
  }

  /** Burying at the head leaves what is live, and starts with it. */
  lemma {:induction false} DropDeadKeepsTheLive<C>(q: Queue<C>, now: int)
    ensures Live(DropDead(q, now).pending, q.settings, now) == Live(q.pending, q.settings, now)
    ensures Live(q.pending, q.settings, now) == [] <==> DropDead(q, now).pending == []
    ensures PushesOf(DropDead(q, now).log) == PushesOf(q.log)
    decreases |q.pending|
  {
    if q.pending != [] && DeadReason(q.pending[0], q.settings, now) != None {
      assert Without(q.pending, 0) == q.pending[1..];
      var q' := Bury(q, 0, now);
      assert q'.log[..|q.log|] == q.log;
      DropDeadKeepsTheLive(q', now);
    }
  }

  lemma DeadFirst<C>(q: Queue<C>, e: Entry<C>, rest: seq<Entry<C>>, now: int)
    requires !Alive(e, q.settings, now)
    ensures Obituaries(q, [e] + rest, now) == [Buried(DeadLetter(q.name, e.content, CauseOf(e, now), e.born, now, None))] + Obituaries(q, rest, now)
    ensures Live([e] + rest, q.settings, now) == Live(rest, q.settings, now)
  {
    assert ([e] + rest)[1..] == rest;
  }

  lemma NoneDead<C>(q: Queue<C>, now: int)
    ensures Obituaries(q, [], now) == [] && Live<C>([], q.settings, now) == []
    ensures q.pending == [] || Alive(q.pending[0], q.settings, now) ==> DropDead(q, now) == q
  {
    if q.pending != [] {
      DeadReasonIs(q.pending[0], q.settings, now);
    }
  }

  lemma FirstDead<C>(q: Queue<C>, now: int)
    requires q.pending != [] && !Alive(q.pending[0], q.settings, now)
    ensures DeadReason(q.pending[0], q.settings, now).Some?
    ensures var (e, q') := (q.pending[0], Bury(q, 0, now));
            && DropDead(q, now) == DropDead(q', now) && q'.pending == q.pending[1..] && q'.settings == q.settings && q'.name == q.name
            && q'.log == q.log + [Buried(DeadLetter(q.name, e.content, CauseOf(e, now), e.born, now, None))]
  {
    BuriedIs(q, 0, now);
  }

  /** What burying what a line starts with leaves of it, and in the history. */
  lemma {:induction false} DropDeadTells<C>(q: Queue<C>, now: int) returns (k: nat)
    ensures k <= |q.pending| && DropDead(q, now).pending == q.pending[k..]
    ensures DropDead(q, now).log == q.log + Obituaries(q, q.pending[..k], now) && Live(q.pending[..k], q.settings, now) == []
    ensures k < |q.pending| ==> Alive(q.pending[k], q.settings, now)
    decreases |q.pending|
  {
    hide Alive, CauseOf, DeadReason, Bury, Obituaries, Live, DropDead;
    NoneDead(q, now);
    if q.pending == [] || Alive(q.pending[0], q.settings, now) {
      k := 0;
      assert q.log + [] == q.log && q.pending[..0] == [];
    } else {
      FirstDead(q, now);
      var q', e := Bury(q, 0, now), q.pending[0];
      k := DropDeadTells(q', now);
      var rest := q'.pending[..k];
      k := k + 1;
      assert q.pending[..k] == [e] + rest && q.pending[k..] == q'.pending[k - 1..];
      DeadFirst(q, e, rest, now);
      ObituariesOf(q, q', rest, now);
    }
  }

  /**
   * Who asks is given the oldest message that may still be delivered, which has left the line then, and nothing
   * only when there is none. Of those before it each is buried once.
   */
  lemma TakeGivesTheOldestLive<C>(q: Queue<C>, now: int)
    requires !q.settings.paused
    ensures var live := Live(q.pending, q.settings, now);
            && Offered(q, now) == (if live == [] then None else Some(BrokerMessage(q.name, live[0].content, live[0].response)))
            && exists k: nat ::
                 && k <= |q.pending| && Live(q.pending[..k], q.settings, now) == [] && (k < |q.pending| ==> live != [] && q.pending[k] == live[0])
                 && Take(q, now).pending == (if k < |q.pending| then q.pending[k + 1..] else [])
                 && Take(q, now).inFlight == (if k < |q.pending| && q.pending[k].content.rpc then q.inFlight[q.pending[k].content.id := q.pending[k]] else q.inFlight)
                 && Take(q, now).log == q.log + Obituaries(q, q.pending[..k], now) + (if k < |q.pending| then [Taken(Offered(q, now).value)] else [])
  {
    hide DropDead, Live, Alive, Obituaries;
    DropDeadKeepsTheLive(q, now);
    DropDeadShortens(q, now);
    var k := DropDeadTells(q, now);
    if k < |q.pending| {
      LiveHead(q.pending[k..], q.settings, now);
      assert Without(q.pending[k..], 0) == q.pending[k + 1..];
    } else {
      assert q.log + Obituaries(q, q.pending[..k], now) + [] == q.log + Obituaries(q, q.pending[..k], now);
    }
  }

  lemma LiveHead<C>(entries: seq<Entry<C>>, s: Settings, now: int)
    requires entries != [] && Alive(entries[0], s, now)
    ensures Live(entries, s, now) != [] && Live(entries, s, now)[0] == entries[0]
  {
  }

  /** A paused queue gives nothing and keeps everything. */
  lemma TakeFromPaused<C>(q: Queue<C>, now: int)
    requires q.settings.paused
    ensures Offered(q, now) == None && Take(q, now).(emptySince := q.emptySince) == q
  {
  }

  /**
   * A sweep as a whole: the live stay waiting, each other one is buried, the forgotten ones in flight are
   * given up, all others stay.
   */
  lemma SweptExactly<C>(q: Queue<C>, order: seq<string>, now: int)
    requires forall id :: id in order <==> id in q.inFlight
    ensures var swept := Sweep(q, order, now);
            && swept.pending == Live(q.pending, q.settings, now) && q.log + Obituaries(q, q.pending, now) <= swept.log
            && swept.inFlight == map id | id in q.inFlight && !Forgotten(q.inFlight[id], q.settings, now) :: q.inFlight[id]
  {
    hide SweepLine, SweepFlight, Live, Obituaries, Forgotten;
    SweepKeepsTheLive(q, 0, now);
    assert q.pending[0..] == q.pending;
    SweepDropsTheStale(SweepLine(q, 0, now), order, now);
    SweepFlightTells(SweepLine(q, 0, now), order, now);
    assert [] + Live(q.pending, q.settings, now) == Live(q.pending, q.settings, now);
  }

  lemma {:induction false} SweepFlightTells<C>(q: Queue<C>, ids: seq<string>, now: int)
    ensures q.log <= SweepFlight(q, ids, now).log
  {
    hide Stale;
    if ids != [] {
      SweepFlightTells(q, ids[..|ids| - 1], now);
    }
  }

  /** What was pushed, and to whom. */
  ghost function PushesOf<C>(log: seq<Happening<C>>): seq<(Content, C)> {
    if log == [] then []
    else PushesOf(log[..|log| - 1]) + if log[|log| - 1].Pushed? then [(log[|log| - 1].message.content, log[|log| - 1].receiver)] else []
  }

  /** The place k steps on from the one whose turn it is. */
  ghost function Around(n: nat, next: nat, k: nat): nat
    requires n > 0
  {
    (next + k) % n
  }

  lemma {:induction false} FirstFreeIs<C>(consumers: seq<C>, next: nat, free: set<C>, i: nat)
    requires i <= |consumers|
    requires forall k :: 0 <= k < i ==> consumers[Around(|consumers|, next, k)] !in free
    ensures match FirstFree(consumers, next, free, i)
            case None => forall c :: c in consumers ==> c !in free
            case Some(k) => consumers[k] in free && exists n: nat ::
              n < |consumers| && k == Around(|consumers|, next, n) && forall j :: 0 <= j < n ==> consumers[Around(|consumers|, next, j)] !in free
    decreases |consumers| - i
  {
    if i == |consumers| {
      forall c | c in consumers ensures c !in free {
        var j :| 0 <= j < |consumers| && consumers[j] == c;
        var k := Turn(|consumers|, next, j);
      }
    } else if consumers[Around(|consumers|, next, i)] !in free {
      FirstFreeIs(consumers, next, free, i + 1);
    }
  }

  lemma NoneFree<C>(consumers: seq<C>, next: nat, free: set<C>)
    ensures FirstFree(consumers, next, free, 0) == None ==> forall c :: c in consumers ==> c !in free
  {
    FirstFreeIs(consumers, next, free, 0);
  }

  /** Going round from anywhere comes to every place. */
  lemma Turn(n: nat, next: nat, j: nat) returns (k: nat)
    requires j < n
    ensures k < n && Around(n, next, k) == j
  {
    var at, d := next % n, next / n;
    k := if j >= at then j - at else j + n - at;
    if j >= at {
      ModuloOf(next + k, n, d, j);
    } else {
      assert n * (d + 1) == n * d + n;
      ModuloOf(next + k, n, d + 1, j);
    }
  }

  lemma ModuloOf(x: nat, n: nat, a: nat, b: nat)
    requires b < n && x == n * a + b
    ensures x % n == b
  {
    var d, r := x / n, x % n;
    assert n * a - n * d == r - b;
    if d < a {
      AtLeastOnce(n, a, d);
    } else if a < d {
      AtLeastOnce(n, d, a);
    }
  }

  lemma AtLeastOnce(n: nat, a: nat, d: nat)
    requires d < a
    ensures n * a - n * d >= n
  {
    assert n * a == n * (d + 1) + n * (a - d - 1);
  }

  ghost predicate Served<C>(served: seq<(Content, C)>, c: C) {
    exists i :: 0 <= i < |served| && served[i].1 == c
  }

  ghost predicate NoneTwice<C>(served: seq<(Content, C)>) {
    forall i, j :: 0 <= i < j < |served| ==> served[i].1 != served[j].1
  }

  lemma NoneServed<C>()
    ensures NoneTwice<C>([])
  {
  }

  lemma ServedFirst<C>(m: Content, c: C, rest: seq<(Content, C)>)
    ensures forall d :: Served([(m, c)] + rest, d) <==> d == c || Served(rest, d)
    ensures NoneTwice([(m, c)] + rest) <==> NoneTwice(rest) && !Served(rest, c)
  {
    var served := [(m, c)] + rest;
    assert forall i :: 0 <= i < |rest| ==> served[i + 1] == rest[i];
    assert served[0].1 == c;
    forall d | Served(rest, d) ensures Served(served, d) {
      var i :| 0 <= i < |rest| && rest[i].1 == d;
      assert served[i + 1].1 == d;
    }
    if NoneTwice(served) {
      forall i, j | 0 <= i < j < |rest| ensures rest[i].1 != rest[j].1 {
        assert served[i + 1].1 != served[j + 1].1;
      }
    }
  }

  lemma ServedFree<C>(served: seq<(Content, C)>, free: set<C>)
    requires forall i :: 0 <= i < |served| ==> served[i].1 in free
    ensures forall c :: Served(served, c) ==> c in free
  {
  }

  lemma PushedFirst<C>(live: Queue<C>, c: C, next: nat, now: int)
    requires live.pending != [] && Alive(live.pending[0], live.settings, now)
    ensures var q' := PushHead(live, c).(next := next);
            && PushesOf(q'.log) == PushesOf(live.log) + [(live.pending[0].content, c)]
            && q'.pending == live.pending[1..] && q'.settings == live.settings && q'.consumers == live.consumers
            && Live(live.pending, live.settings, now) == [live.pending[0]] + Live(q'.pending, live.settings, now)
  {
    assert Without(live.pending, 0) == live.pending[1..];
    assert PushHead(live, c).log[..|live.log|] == live.log;
  }

  /**
   * A dispatch serves the live messages oldest first, no consumer twice, and stops only when there are
   * no more of them or no free consumer is left.
   */
  lemma {:induction false} DispatchServes<C>(q: Queue<C>, free: set<C>, now: int) returns (served: seq<(Content, C)>)
    ensures PushesOf(Dispatch(q, free, now).log) == PushesOf(q.log) + served
    ensures |served| <= |Live(q.pending, q.settings, now)|
    ensures forall i :: 0 <= i < |served| ==>
              served[i].0 == Live(q.pending, q.settings, now)[i].content && served[i].1 in free && served[i].1 in q.consumers
    ensures NoneTwice(served)
    ensures Live(Dispatch(q, free, now).pending, q.settings, now) == Live(q.pending, q.settings, now)[|served|..]
    ensures q.settings.paused ==> served == []
    ensures !q.settings.paused && |served| < |Live(q.pending, q.settings, now)| ==>
              forall c :: c in q.consumers && c in free ==> Served(served, c)
    decreases |q.pending|
  {
    hide DropDead, Live, PushesOf, FirstFree, PushHead, Served, NoneTwice, DeadReason, Alive;
    var all := Live(q.pending, q.settings, now);
    served := [];
    NoneServed<C>();
    assert all[0..] == all && PushesOf(q.log) + [] == PushesOf(q.log);
    if !q.settings.paused && q.consumers != [] {
      var live := DropDead(q, now);
      DropDeadShortens(q, now);
      DropDeadKeepsTheLive(q, now);
      if live.pending != [] {
        NoneFree(q.consumers, q.next, free);
        match FirstFree(q.consumers, q.next, free, 0)
        case None =>
        case Some(k) =>
          var c := q.consumers[k];
          var q' := PushHead(live, c).(next := (k + 1) % |q.consumers|);
          DeadReasonIs(live.pending[0], q.settings, now);
          PushedFirst(live, c, (k + 1) % |q.consumers|, now);
          assert Live(q'.pending, q.settings, now) == all[1..];
          var rest := DispatchServes(q', free - {c}, now);
          served := [(all[0].content, c)] + rest;
          assert all[1..][|rest|..] == all[|served|..];
          ServedFirst(all[0].content, c, rest);
          ServedFree(rest, free - {c});
      }
    }
  }
}
