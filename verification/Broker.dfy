/** A consumer that finished its message goes round its queues for the next one. */
module Brokers {
  import opened Options
  import opened Messages
  import opened Consumers
  import opened DeadLetters
  import opened QueueModel
  import opened MessageQueues
  import QO = QueueOperations
  import Expiry
  import Fairness

  ghost function LiveIn(q: Queue<Consumer>, now: int): seq<Entry<Consumer>> {
    Expiry.Live(q.pending, q.settings, now)
  }

  /** The queue has something to deliver. */
  ghost predicate HasWork(q: Queue<Consumer>, now: int) {
    !q.settings.paused && LiveIn(q, now) != []
  }

  // ------------------------------------------------------------ what a dispatch hands out

  /** Nothing but pushes and burials. */
  ghost predicate NothingSent(before: seq<Happening<Consumer>>, after: seq<Happening<Consumer>>) {
    before <= after && forall k :: |before| <= k < |after| ==> !after[k].Sent?
  }

  lemma {:induction false} DropDeadSendsNothing(q: Queue<Consumer>, now: int)
    ensures NothingSent(q.log, QO.DropDead(q, now).log)
    decreases |q.pending|
  {
    hide QO.DeadReason;
    if q.pending != [] && QO.DeadReason(q.pending[0], q.settings, now) != None {
      DropDeadSendsNothing(QO.Bury(q, 0, now), now);
    }
  }

  lemma NothingSentThen(a: seq<Happening<Consumer>>, b: seq<Happening<Consumer>>, c: seq<Happening<Consumer>>)
    requires NothingSent(a, b) && NothingSent(b, c)
    ensures NothingSent(a, c)
  {
  }

  lemma NothingSentAt(a: seq<Happening<Consumer>>)
    ensures NothingSent(a, a)
  {
  }

  lemma PushSendsNothing(q: Queue<Consumer>, c: Consumer)
    requires q.pending != []
    ensures NothingSent(q.log, QO.PushHead(q, c).log) && QO.PushHead(q, c).settings == q.settings && QO.PushHead(q, c).consumers == q.consumers
    ensures |QO.PushHead(q, c).pending| < |q.pending|
  {
  }

  lemma {:induction false} DispatchSendsNothing(q: Queue<Consumer>, free: set<Consumer>, now: int)
    ensures NothingSent(q.log, QO.Dispatch(q, free, now).log)
    ensures QO.Dispatch(q, free, now).settings == q.settings && QO.Dispatch(q, free, now).consumers == q.consumers
    decreases |q.pending|
  {
    hide QO.DropDead, QO.FirstFree, QO.PushHead, NothingSent;
    NothingSentAt(q.log);
    DropDeadSendsNothing(q, now);
    QO.DropDeadShortens(q, now);
    if !q.settings.paused && q.consumers != [] {
      var live, k := QO.DropDead(q, now), QO.FirstFree(q.consumers, q.next, free, 0);
      QO.DispatchStep(q, free, now);
      if live.pending != [] && k != None {
        var q' := QO.PushHead(live, q.consumers[k.value]).(next := (k.value + 1) % |q.consumers|);
        PushSendsNothing(live, q.consumers[k.value]);
        DispatchSendsNothing(q', free - {q.consumers[k.value]}, now);
        NothingSentThen(q.log, live.log, q'.log);
        NothingSentThen(q.log, q'.log, QO.Dispatch(q', free - {q.consumers[k.value]}, now).log);
      }
    }
  }

  /** Of a stretch of history, what was handed over, beside what was pushed. */
  ghost predicate Matches(given: seq<Delivery>, pushed: seq<(Content, Consumer)>) {
    |given| == |pushed| && forall k :: 0 <= k < |given| ==> given[k].consumer == pushed[k].1 && given[k].message.content == pushed[k].0 && !given[k].isResponse
  }

  lemma PushesAfter(log: seq<Happening<Consumer>>, e: Happening<Consumer>)
    ensures Expiry.PushesOf(log + [e]) == Expiry.PushesOf(log) + if e.Pushed? then [(e.message.content, e.receiver)] else []
  {
    assert (log + [e])[..|log|] == log;
  }

  lemma MatchesMore(given: seq<Delivery>, all: seq<(Content, Consumer)>, n: nat, more: seq<Delivery>, pushed: seq<(Content, Consumer)>)
    requires n <= |all| && Matches(given, all[n..]) && Matches(more, pushed)
    ensures Matches(given + more, (all + pushed)[n..])
  {
    assert (all + pushed)[n..] == all[n..] + pushed;
  }

  /** What was pushed tells what is handed over. */
  lemma {:induction false} HandedIsPushed(before: seq<Happening<Consumer>>, after: seq<Happening<Consumer>>)
    requires NothingSent(before, after)
    ensures Expiry.PushesOf(before) <= Expiry.PushesOf(after)
    ensures Matches(DeliveriesOf(Grown(before, after)), Expiry.PushesOf(after)[|Expiry.PushesOf(before)|..])
    decreases |after|
  {
    hide DeliveriesOf, Expiry.PushesOf, Grown, GivenTo, LettersOf;
    if after == before {
      NothingHanded(before);
    } else {
      var init, e := after[..|after| - 1], after[|after| - 1];
      assert before <= init && after == init + [e];
      HandedIsPushed(before, init);
      GrownByOne(before, init, e);
      HandsOne(e);
      PushesAfter(init, e);
      MatchesMore(DeliveriesOf(Grown(before, init)), Expiry.PushesOf(init), |Expiry.PushesOf(before)|, DeliveriesOf([e]), if e.Pushed? then [(e.message.content, e.receiver)] else []);
    }
  }

  /** Who was given something is who it was handed over to. */
  lemma {:induction false} GivenIsHanded(before: seq<Happening<Consumer>>, after: seq<Happening<Consumer>>)
    requires NothingSent(before, after)
    ensures var given := DeliveriesOf(Grown(before, after));
            && (given == [] ==> forall c :: GivenTo(Grown(before, after), c) == None)
            && (|given| == 1 ==> forall c :: GivenTo(Grown(before, after), c) == if c == given[0].consumer then Some(given[0].message.content.id) else None)
    decreases |after|
  {
    hide DeliveriesOf, GivenTo, Grown, LettersOf;
    if after == before {
      NothingHanded(before);
      NoneGiven(before);
    } else {
      var init, e := after[..|after| - 1], after[|after| - 1];
      assert before <= init && after == init + [e];
      GivenIsHanded(before, init);
      GrownByOne(before, init, e);
      HandsOne(e);
      var given, more := DeliveriesOf(Grown(before, init)), DeliveriesOf([e]);
      assert more == [] || more == [Delivery(e.receiver, e.message, false)];
      assert more == [] ==> given + more == given;
      assert given == [] ==> given + more == more;
    }
  }

  lemma SomebodyServed(q: Queue<Consumer>, free: set<Consumer>, now: int, served: seq<(Content, Consumer)>)
    requires |served| <= |LiveIn(q, now)| && !q.settings.paused && served != []
    requires forall i :: 0 <= i < |served| ==> served[i].1 in free && served[i].1 in q.consumers
    ensures HasWork(q, now) && exists c :: c in q.consumers && c in free
  {
    assert served[0].1 in free && served[0].1 in q.consumers;
  }

  lemma ServedTwice(served: seq<(Content, Consumer)>, c: Consumer)
    requires |served| > 1 && forall i :: 0 <= i < |served| ==> served[i].1 == c
    ensures !Expiry.NoneTwice(served)
  {
    assert served[0].1 == served[1].1;
  }

  /** With nothing to deliver, or nobody to deliver to, a dispatch hands out nothing and leaves what is live. */
  lemma DispatchIdle(q: Queue<Consumer>, free: set<Consumer>, now: int)
    requires !HasWork(q, now) || forall c :: c in q.consumers ==> c !in free
    ensures var q' := QO.Dispatch(q, free, now);
            && HasWork(q', now) == HasWork(q, now) && LiveIn(q', now) == LiveIn(q, now) && q'.consumers == q.consumers && q'.settings == q.settings
            && DeliveriesOf(Grown(q.log, q'.log)) == [] && forall c :: GivenTo(Grown(q.log, q'.log), c) == None
  {
    hide QO.Dispatch, Expiry.Live, Expiry.PushesOf, DeliveriesOf, GivenTo, Expiry.NoneTwice, Expiry.Served;
    var q' := QO.Dispatch(q, free, now);
    DispatchSendsNothing(q, free, now);
    var served := Expiry.DispatchServes(q, free, now);
    if served != [] {
      SomebodyServed(q, free, now, served);
    }
    HandedIsPushed(q.log, q'.log);
    GivenIsHanded(q.log, q'.log);
  }

  /** With one free consumer, a dispatch hands it the oldest live message. */
  lemma DispatchToOne(q: Queue<Consumer>, free: set<Consumer>, c: Consumer, now: int)
    requires HasWork(q, now) && c in q.consumers && c in free && forall d :: d in q.consumers && d in free ==> d == c
    ensures var q' := QO.Dispatch(q, free, now);
            var given := DeliveriesOf(Grown(q.log, q'.log));
            && LiveIn(q, now) != [] && q'.consumers == q.consumers && q'.settings == q.settings
            && |given| == 1 && given[0].consumer == c && given[0].message.content == LiveIn(q, now)[0].content && !given[0].isResponse
            && forall d :: GivenTo(Grown(q.log, q'.log), d) == if d == c then Some(LiveIn(q, now)[0].content.id) else None
  {
    hide QO.Dispatch, Expiry.Live, Expiry.PushesOf, DeliveriesOf, GivenTo;
    var q' := QO.Dispatch(q, free, now);
    DispatchSendsNothing(q, free, now);
    var served := Expiry.DispatchServes(q, free, now);
    if |served| > 1 {
      ServedTwice(served, c);
    }
    assert served == [] ==> Expiry.Served(served, c);
    assert |served| == 1 && served[0].1 == c;
    HandedIsPushed(q.log, q'.log);
    GivenIsHanded(q.log, q'.log);
  }

  // ------------------------------------------------------------ whoever else is free

  /** The message this consumer was pushed last. */
  ghost function LastTo(pushed: seq<(Content, Consumer)>, c: Consumer): Option<string> {
    if pushed == [] then None
    else if pushed[|pushed| - 1].1 == c then Some(pushed[|pushed| - 1].0.id)
    else LastTo(pushed[..|pushed| - 1], c)
  }

  lemma {:induction false} LastToIs(pushed: seq<(Content, Consumer)>, c: Consumer)
    ensures LastTo(pushed, c) == None <==> !Expiry.Served(pushed, c)
    ensures LastTo(pushed, c) != None ==> exists k :: 0 <= k < |pushed| && pushed[k].1 == c && pushed[k].0.id == LastTo(pushed, c).value
  {
    if pushed != [] {
      var init := pushed[..|pushed| - 1];
      LastToIs(init, c);
      assert forall k :: 0 <= k < |init| ==> pushed[k] == init[k];
      if pushed[|pushed| - 1].1 == c {
        assert Expiry.Served(pushed, c);
      } else if Expiry.Served(pushed, c) {
        var k :| 0 <= k < |pushed| && pushed[k].1 == c;
        assert init[k].1 == c;
      }
    }
  }

  lemma {:induction false} GivenIsPushed(before: seq<Happening<Consumer>>, after: seq<Happening<Consumer>>, c: Consumer)
    requires before <= after
    ensures Expiry.PushesOf(before) <= Expiry.PushesOf(after)
    ensures GivenTo(Grown(before, after), c) == LastTo(Expiry.PushesOf(after)[|Expiry.PushesOf(before)|..], c)
    decreases |after|
  {
    hide Grown, GivenTo, Expiry.PushesOf, DeliveriesOf, LettersOf;
    if after == before {
      NoneGiven(before);
    } else {
      var init, e := after[..|after| - 1], after[|after| - 1];
      assert before <= init && after == init + [e];
      GivenIsPushed(before, init, c);
      GrownByOne(before, init, e);
      PushesAfter(init, e);
      var n, pushed := |Expiry.PushesOf(before)|, Expiry.PushesOf(init);
      if e.Pushed? {
        assert (pushed + [(e.message.content, e.receiver)])[n..] == pushed[n..] + [(e.message.content, e.receiver)];
        assert (pushed[n..] + [(e.message.content, e.receiver)])[..|pushed[n..]|] == pushed[n..];
      } else {
        assert pushed + [] == pushed;
      }
    }
  }

  ghost predicate Among(live: seq<Entry<Consumer>>, id: string) {
    exists k :: 0 <= k < |live| && live[k].content.id == id
  }

  /**
   * Whoever else is free: a free consumer that is bound is given one of the live messages, or there are
   * none left.
   */
  lemma DispatchToEach(q: Queue<Consumer>, free: set<Consumer>, c: Consumer, now: int)
    requires c in free
    ensures var q' := QO.Dispatch(q, free, now);
            var given := GivenTo(Grown(q.log, q'.log), c);
            && (given == None && c in q.consumers ==> !HasWork(q', now))
            && (given != None ==> c in q.consumers && HasWork(q, now) && Among(LiveIn(q, now), given.value))
  {
    hide QO.Dispatch, Expiry.Live, Expiry.PushesOf, Expiry.Served, Expiry.NoneTwice, GivenTo, Grown;
    var q' := QO.Dispatch(q, free, now);
    DispatchSendsNothing(q, free, now);
    var served := Expiry.DispatchServes(q, free, now);
    assert Expiry.PushesOf(q'.log)[|Expiry.PushesOf(q.log)|..] == served;
    GivenIsPushed(q.log, q'.log, c);
    LastToIs(served, c);
    if LastTo(served, c) != None {
      var k :| 0 <= k < |served| && served[k].1 == c && served[k].0.id == LastTo(served, c).value;
      assert LiveIn(q, now)[k].content.id == LastTo(served, c).value;
    }
  }

  // ------------------------------------------------------------ one queue

  /** The consumer was given the first of these messages, of this queue, and nothing else was handed out. */
  ghost predicate GivenOne(consumer: Consumer, name: string, live: seq<Entry<Consumer>>, deliveries: seq<Delivery>)
    reads consumer
  {
    && live != [] && consumer.state == Busy && consumer.lastQueue == Some(name) && consumer.current == Some((name, live[0].content.id))
    && |deliveries| == 1 && deliveries[0].consumer == consumer && deliveries[0].message.content == live[0].content && !deliveries[0].isResponse
  }

  /** The consumer was given one of these messages, of this queue. */
  ghost predicate GivenSome(consumer: Consumer, name: string, live: seq<Entry<Consumer>>)
    reads consumer
  {
    && consumer.state == Busy && consumer.lastQueue == Some(name)
    && consumer.current.Some? && consumer.current.value.0 == name && Among(live, consumer.current.value.1)
  }

  /** The consumer is as it was. */
  twostate predicate AsBefore(consumer: Consumer)
    reads consumer
  {
    consumer.state == old(consumer.state) && consumer.current == old(consumer.current) && consumer.lastQueue == old(consumer.lastQueue)
  }

  /** This consumer aside, nobody is given anything. */
  twostate predicate OthersAsBefore(consumer: Consumer, some: set<Consumer>)
    reads some
  {
    forall c :: c in some && c != consumer ==> AsBefore(c)
  }

  /** This consumer aside, whoever is not as before was free and given something. */
  twostate predicate OthersServed(consumer: Consumer, some: set<Consumer>)
    reads some
  {
    forall c :: c in some && c != consumer ==> AsBefore(c) || (old(c.state) == Status.Free && c.state == Busy && c.current.Some? && c.lastQueue.Some?)
  }

  /** This consumer aside, nobody is free for what the queue has to deliver. */
  ghost predicate NoOtherFree(q: Queue<Consumer>, consumer: Consumer, now: int)
    reads (set c | c in q.consumers)`state
  {
    HasWork(q, now) ==> forall c :: c in q.consumers && c != consumer ==> c.state != Status.Free
  }

  /** One queue as far as consumers can tell: who is bound, whether anything is to be delivered, and what. */
  datatype Load = Load(consumers: seq<Consumer>, work: bool, live: seq<Entry<Consumer>>)

  ghost function LoadOf(q: Queue<Consumer>, now: int): Load {
    Load(q.consumers, HasWork(q, now), LiveIn(q, now))
  }

  /** The queues that have something for this consumer. */
  ghost function ReadyFor(loads: map<string, Load>, consumer: Consumer): set<string> {
    set name | name in loads && TakesFrom(loads[name], consumer)
  }

  /** The queue has something for this consumer. */
  ghost predicate TakesFrom(load: Load, consumer: Consumer) {
    consumer in load.consumers && load.work
  }

  /** After a dispatch for a free consumer it is still free and there is nothing for it, or it was given something. */
  ghost predicate TriedSo(consumer: Consumer, name: string, before: Load, after: Load)
    reads consumer
  {
    && after.consumers == before.consumers
    && if consumer.state == Status.Free then !TakesFrom(after, consumer) else TakesFrom(before, consumer) && GivenSome(consumer, name, before.live)
  }

  /** With nobody else free it is given the oldest, and stays free exactly when there is nothing for it. */
  ghost predicate ExactlySo(consumer: Consumer, name: string, before: Load, deliveries: seq<Delivery>)
    reads consumer
  {
    if TakesFrom(before, consumer) then GivenOne(consumer, name, before.live, deliveries) else consumer.state == Status.Free && deliveries == []
  }

  /** One queue is dispatched for a free consumer. */
  method Serve(q: MessageQueue, consumer: Consumer, now: int) returns (deliveries: seq<Delivery>)
    requires q.Valid() && consumer.state == Status.Free
    modifies q, q.deadLetters, q.Bound()`state, q.Bound()`current, q.Bound()`lastQueue
    ensures q.Valid() && q.consumers == old(q.consumers) && OthersServed(consumer, old(q.Bound()))
    ensures TriedSo(consumer, q.name, LoadOf(old(q.Abs()), now), LoadOf(q.Abs(), now)) && (consumer.state == Status.Free ==> AsBefore(consumer))
    ensures old(NoOtherFree(q.Abs(), consumer, now)) ==>
              && OthersAsBefore(consumer, old(q.Bound())) && ExactlySo(consumer, q.name, LoadOf(old(q.Abs()), now), deliveries)
              && (!TakesFrom(LoadOf(old(q.Abs()), now), consumer) ==> consumer.state == Status.Free && LoadOf(q.Abs(), now) == LoadOf(old(q.Abs()), now))
  {
    hide MessageQueue.Valid, HasWork, LiveIn, DeliveriesOf, GivenTo, Grown, QO.Dispatch, AddAll, LettersOf, QueueInv, Among;
    if consumer in q.consumers {
      DispatchToEach(q.Abs(), q.FreeOnes(), consumer, now);
    }
    if NoOtherFree(q.Abs(), consumer, now) {
      if HasWork(q.Abs(), now) && consumer in q.consumers {
        DispatchToOne(q.Abs(), q.FreeOnes(), consumer, now);
      } else {
        DispatchIdle(q.Abs(), q.FreeOnes(), now);
      }
    }
    deliveries := q.Dispatch(now);
  }

  /** This consumer aside, nobody of these is free for anything. */
  ghost predicate NoneElse(loads: map<string, Load>, idle: set<Consumer>, consumer: Consumer) {
    forall name, c :: name in loads && TakesFrom(loads[name], c) && c != consumer ==> c !in idle
  }

  class Broker {
    var queues: map<string, MessageQueue>
    const deadLetters: DeadLetterStore<Consumer>

    ghost predicate Valid()
      reads this, queues.Values, deadLetters
    {
      deadLetters.Valid() && forall name :: name in queues ==> queues[name].name == name && queues[name].deadLetters == deadLetters && queues[name].Valid()
    }

    ghost function Everybody(): set<Consumer>
      reads this, queues.Values
    {
      set name, c | name in queues && c in queues[name].consumers :: c
    }

    ghost function Loads(now: int): map<string, Load>
      reads this, queues.Values
    {
      map name | name in queues :: LoadOf(queues[name].Abs(), now)
    }

    /** Whoever is free. */
    ghost function Idle(): set<Consumer>
      reads this, queues.Values, Everybody()`state
    {
      set c | c in Everybody() && c.state == Status.Free
    }

    /** No queue with something to deliver has a free consumer, but for this one. */
    ghost predicate SettledBut(consumer: Consumer, now: int)
      reads this, queues.Values, Everybody()`state
    {
      NoneElse(Loads(now), Idle(), consumer)
    }

    constructor ()
      ensures Valid() && queues == map[] && fresh(deadLetters)
    {
      queues := map[];
      deadLetters := new DeadLetterStore<Consumer>();
    }

    twostate lemma StillValid(name: string)
      requires old(Valid()) && queues == old(queues) && name in queues && queues[name].Valid() && queues[name].deadLetters == deadLetters
      requires forall other :: other in queues && other != name ==> unchanged(queues[other])
      ensures Valid()
    {
      hide QueueInv;
    }

    /** One queue of the round is dispatched while the consumer is free. */
    method ServeNamed(consumer: Consumer, name: string, now: int) returns (deliveries: seq<Delivery>)
      requires Valid() && consumer.state == Status.Free && name in queues
      modifies queues[name], deadLetters, queues[name].Bound()`state, queues[name].Bound()`current, queues[name].Bound()`lastQueue
      ensures Valid() && OthersServed(consumer, old(queues[name].Bound())) && queues[name].consumers == old(queues[name].consumers)
      ensures forall n :: n in queues && n != name ==> unchanged(queues[n])
      ensures TriedSo(consumer, name, LoadOf(old(queues[name].Abs()), now), LoadOf(queues[name].Abs(), now)) && (consumer.state == Status.Free ==> AsBefore(consumer))
      ensures old(NoOtherFree(queues[name].Abs(), consumer, now)) ==>
                && OthersAsBefore(consumer, old(queues[name].Bound())) && ExactlySo(consumer, name, LoadOf(old(queues[name].Abs()), now), deliveries)
                && (!TakesFrom(LoadOf(old(queues[name].Abs()), now), consumer) ==> consumer.state == Status.Free && LoadOf(queues[name].Abs(), now) == LoadOf(old(queues[name].Abs()), now))
      ensures forall c :: c in old(Everybody()) && c !in old(queues[name].Bound()) ==> AsBefore(c)
    {
      hide MessageQueue.Valid, QueueInv, LoadOf, NoOtherFree, TriedSo, ExactlySo, TakesFrom, OthersServed, OthersAsBefore;
      assert forall c :: c in queues[name].consumers ==> c in Everybody();
      deliveries := Serve(queues[name], consumer, now);
      StillValid(name);
    }

    /** A settled broker has nobody else free for any of its queues. */
    lemma SettledFor(consumer: Consumer, name: string, now: int)
      requires SettledBut(consumer, now) && name in queues
      ensures NoOtherFree(queues[name].Abs(), consumer, now)
    {
      hide HasWork, LiveIn;
      assert Loads(now)[name] == LoadOf(queues[name].Abs(), now);
      forall c | HasWork(queues[name].Abs(), now) && c in queues[name].consumers && c != consumer ensures c.state != Status.Free {
        assert TakesFrom(Loads(now)[name], c);
        assert c !in Idle() && c in Everybody();
      }
    }

    /** Who is bound stays so, and nobody else is concerned. */
    method ServeAmong(consumer: Consumer, name: string, now: int) returns (deliveries: seq<Delivery>)
      requires Valid() && consumer.state == Status.Free && name in queues
      modifies queues[name], deadLetters, queues[name].Bound()`state, queues[name].Bound()`current, queues[name].Bound()`lastQueue
      ensures Valid() && Everybody() == old(Everybody()) && OthersServed(consumer, old(Everybody()))
      ensures forall n :: n in queues && n != name ==> queues[n].Abs() == old(queues[n].Abs())
      ensures TriedSo(consumer, name, LoadOf(old(queues[name].Abs()), now), LoadOf(queues[name].Abs(), now)) && (consumer.state == Status.Free ==> AsBefore(consumer))
      ensures old(NoOtherFree(queues[name].Abs(), consumer, now)) ==>
                && OthersAsBefore(consumer, old(Everybody())) && ExactlySo(consumer, name, LoadOf(old(queues[name].Abs()), now), deliveries)
                && (!TakesFrom(LoadOf(old(queues[name].Abs()), now), consumer) ==>
                      LoadOf(queues[name].Abs(), now) == LoadOf(old(queues[name].Abs()), now) && consumer.state == Status.Free && Idle() == old(Idle()))
    {
      hide Valid, LoadOf, TriedSo, ExactlySo, MessageQueue.Valid, QueueInv, NoOtherFree, TakesFrom;
      deliveries := ServeNamed(consumer, name, now);
      forall n | n in queues && n != name ensures queues[n].consumers == old(queues[n].consumers) && queues[n].Abs() == old(queues[n].Abs()) {
        assert unchanged(queues[n]);
      }
      assert Everybody() == old(Everybody());
    }

    /** What one queue of the round makes of what the queues have to deliver. */
    method TryNamed(consumer: Consumer, name: string, now: int) returns (deliveries: seq<Delivery>)
      requires Valid() && consumer.state == Status.Free && name in queues
      modifies queues[name], deadLetters, queues[name].Bound()`state, queues[name].Bound()`current, queues[name].Bound()`lastQueue
      ensures Valid() && Everybody() == old(Everybody()) && OthersServed(consumer, old(Everybody())) && Loads(now).Keys == old(Loads(now)).Keys == queues.Keys
      ensures forall n :: n in queues && n != name ==> Loads(now)[n] == old(Loads(now))[n]
      ensures TriedSo(consumer, name, old(Loads(now))[name], Loads(now)[name]) && (consumer.state == Status.Free ==> AsBefore(consumer))
      ensures old(SettledBut(consumer, now)) ==>
                && OthersAsBefore(consumer, old(Everybody())) && ExactlySo(consumer, name, old(Loads(now))[name], deliveries)
                && (!TakesFrom(old(Loads(now))[name], consumer) ==> Loads(now) == old(Loads(now)) && Idle() == old(Idle()))
    {
      hide Valid, LoadOf, TriedSo, ExactlySo, MessageQueue.Valid, QueueInv, NoOtherFree, SettledBut, TakesFrom, Everybody, Idle, OthersServed, OthersAsBefore;
      if SettledBut(consumer, now) {
        SettledFor(consumer, name, now);
      }
      deliveries := ServeAmong(consumer, name, now);
    }

    /** One place of the round; there may be no queue of that name any more. */
    method TryPlace(consumer: Consumer, round: seq<string>, i: nat, now: int, ghost start: map<string, Load>) returns (deliveries: seq<Delivery>)
      requires Valid() && consumer.state == Status.Free && i < |round| && RoundSo(round, i, consumer, start, Loads(now))
      modifies queues.Values, deadLetters, Everybody()`state, Everybody()`current, Everybody()`lastQueue
      ensures Valid() && Everybody() == old(Everybody()) && OthersServed(consumer, old(Everybody()))
      ensures if consumer.state == Status.Free then AsBefore(consumer) && RoundSo(round, i + 1, consumer, start, Loads(now))
              else consumer.state == Busy && ServedAt(consumer, round, i, start, Loads(now))
      ensures old(SettledBut(consumer, now)) && old(Loads(now)) == start ==>
                && OthersAsBefore(consumer, old(Everybody()))
                && if consumer.state == Status.Free then deliveries == [] && Loads(now) == start && Idle() == old(Idle()) else RoundExact(consumer, round, start, deliveries)
    {
      hide Valid, Idle, Loads, SettledBut, TriedSo, ExactlySo, TakesFrom, RoundSo, RoundExact, ServedAt;
      ghost var before, settled := Loads(now), SettledBut(consumer, now);
      Loaded(round[i], now);
      if round[i] in queues {
        deliveries := TryNamed(consumer, round[i], now);
        RoundOn(round, i, consumer, start, before, Loads(now));
        if settled && before == start {
          RoundExactly(round, i, consumer, start, deliveries);
        }
      } else {
        deliveries := [];
        RoundPast(round, i, consumer, start, before);
      }
    }

    /** Goes round until the consumer is given a message. */
    method GoRound(consumer: Consumer, round: seq<string>, now: int) returns (deliveries: seq<Delivery>)
      requires Valid() && consumer.state != Busy
      modifies queues.Values, deadLetters, Everybody()`state, Everybody()`current, Everybody()`lastQueue
      ensures Valid() && OthersServed(consumer, old(Everybody()))
      ensures RoundEnds(consumer, round, old(consumer.state), old(Loads(now)), Loads(now))
      ensures old(consumer.state) == Closed || consumer.state == old(consumer.state) ==> AsBefore(consumer)
      ensures old(SettledBut(consumer, now)) ==>
                && OthersAsBefore(consumer, old(Everybody()))
                && (old(consumer.state) == Closed || RoundExact(consumer, round, old(Loads(now)), deliveries))
    {
      hide Valid, Idle, Loads, NoneElse, RoundSo, RoundExact, RoundEnds, ServedAt;
      ghost var start, idle, settled := Loads(now), Idle(), SettledBut(consumer, now);
      deliveries := [];
      var i := 0;
      RoundBegins(round, consumer, start);
      while i < |round| && consumer.state == Status.Free
        invariant i <= |round| && Valid() && AsBefore(consumer) && OthersServed(consumer, old(Everybody())) && Everybody() == old(Everybody())
        invariant RoundSo(round, i, consumer, start, Loads(now)) && (consumer.state == Closed ==> i == 0)
        invariant settled ==> deliveries == [] && OthersAsBefore(consumer, old(Everybody())) && Loads(now) == start && Idle() == idle
      {
        var given := TryPlace(consumer, round, i, now, start);
        assert [] + given == given;
        deliveries := deliveries + given;
        if consumer.state == Busy {
          RoundServed(round, i, consumer, start, Loads(now));
          return;
        }
        i := i + 1;
      }
      RoundDone(round, i, consumer, start, Loads(now), settled);
    }

    lemma Loaded(name: string, now: int)
      ensures name in Loads(now) <==> name in queues
    {
    }

    /** The consumer is released, which nobody else notices. */
    method LetGo(consumer: Consumer, now: int)
      requires Valid()
      modifies consumer`state
      ensures Valid() && Everybody() == old(Everybody()) && Loads(now) == old(Loads(now)) && (old(SettledBut(consumer, now)) ==> SettledBut(consumer, now))
      ensures consumer.state == if old(consumer.state) == Busy then Status.Free else old(consumer.state)
    {
      hide MessageQueue.Valid, HasWork, LiveIn, QueueInv, DeadLetterStore.Valid, TakesFrom;
      consumer.Release();
      assert Loads(now) == old(Loads(now));
      assert forall c :: c in Idle() && c != consumer ==> c in old(Idle());
    }

    /** The round of a consumer that was released, from the queue after the one that served it last. */
    method NextRound(consumer: Consumer, now: int) returns (deliveries: seq<Delivery>, ghost done: Fairness.Completion)
      requires Valid() && consumer.state != Busy
      modifies queues.Values, deadLetters, Everybody()`state, Everybody()`current, Everybody()`lastQueue
      ensures Valid() && OthersServed(consumer, old(Everybody()))
      ensures RoundEnds(consumer, Fairness.Round(consumer.queues, old(consumer.lastQueue)), old(consumer.state), old(Loads(now)), Loads(now))
      ensures old(consumer.state) == Closed || consumer.state == old(consumer.state) ==> AsBefore(consumer)
      ensures old(SettledBut(consumer, now)) ==>
                && OthersAsBefore(consumer, old(Everybody()))
                && (old(consumer.state) == Closed || DoneExactly(consumer, old(consumer.lastQueue), old(Loads(now)), done, deliveries))
    {
      hide ReadyFor, Loads, RoundEnds, RoundExact, DoneExactly, Fairness.CompletionOf, Fairness.Round, Valid, SettledBut, Idle;
      ghost var loads, settled := Loads(now), SettledBut(consumer, now);
      var round := RoundOf(consumer.queues, consumer.lastQueue);
      done := Fairness.CompletionOf(consumer.queues, consumer.lastQueue, ReadyFor(loads, consumer));
      deliveries := GoRound(consumer, round, now);
      if settled && old(consumer.state) != Closed {
        ExactlyDone(consumer, old(consumer.lastQueue), loads, deliveries);
      }
    }

    /**
     * A consumer finished its message: it may take the next one from any queue it is bound to, starting
     * after the queue that served it last. Whoever else is free may be served on the way.
     */
    method Free(consumer: Consumer, now: int) returns (deliveries: seq<Delivery>, ghost done: Fairness.Completion)
      requires Valid()
      modifies queues.Values, deadLetters, (Everybody() + {consumer})`state, Everybody()`current, Everybody()`lastQueue
      ensures Valid() && OthersServed(consumer, old(Everybody()))
      ensures old(consumer.state) == Closed ==> AsBefore(consumer)
      ensures old(consumer.state) != Closed ==>
                && RoundEnds(consumer, Fairness.Round(consumer.queues, old(consumer.lastQueue)), Status.Free, old(Loads(now)), Loads(now))
                && (consumer.state == Status.Free ==> consumer.current == old(consumer.current) && consumer.lastQueue == old(consumer.lastQueue))
      ensures old(SettledBut(consumer, now)) && old(consumer.state) != Closed ==>
                && OthersAsBefore(consumer, old(Everybody()))
                && DoneExactly(consumer, old(consumer.lastQueue), old(Loads(now)), done, deliveries)
    {
      hide ReadyFor, Loads, RoundEnds, DoneExactly, Fairness.Round, Valid, SettledBut, Idle;
      LetGo(consumer, now);
      deliveries, done := NextRound(consumer, now);
    }
  }

  /**
   * With nobody else free the queue whose turn it is serves: it gives its oldest message, and has served the
   * consumer last then; when there is none the consumer stays free and nothing changes.
   */
  ghost predicate DoneExactly(consumer: Consumer, last: Option<string>, loads: map<string, Load>, done: Fairness.Completion, deliveries: seq<Delivery>)
    reads consumer
  {
    && Fairness.Completes(consumer.queues, done) && done.last == last && done.next == consumer.lastQueue && done.ready == ReadyFor(loads, consumer)
    && if done.served == None then consumer.state == Status.Free && deliveries == []
       else done.served.value in loads && GivenOne(consumer, done.served.value, loads[done.served.value].live, deliveries)
  }

  lemma ExactlyDone(consumer: Consumer, last: Option<string>, loads: map<string, Load>, deliveries: seq<Delivery>)
    requires RoundExact(consumer, Fairness.Round(consumer.queues, last), loads, deliveries) && (consumer.state == Status.Free ==> consumer.lastQueue == last)
    ensures DoneExactly(consumer, last, loads, Fairness.CompletionOf(consumer.queues, last, ReadyFor(loads, consumer)), deliveries)
  {
    hide TakesFrom, Fairness.Round, Fairness.FirstReady;
  }

  /** The consumer was given a message by this queue of the round, and those before it have nothing left for it. */
  ghost predicate ServedAt(consumer: Consumer, round: seq<string>, k: nat, before: map<string, Load>, after: map<string, Load>)
    requires k < |round|
    reads consumer
  {
    && round[k] in before && TakesFrom(before[round[k]], consumer) && GivenSome(consumer, round[k], before[round[k]].live)
    && forall j :: 0 <= j < k ==> round[j] !in ReadyFor(after, consumer)
  }

  /**
   * How a round ends, whoever else is free: the consumer is still free and no queue of the round has
   * anything for it, or one gave it something and those before it have nothing left.
   */
  ghost predicate RoundEnds(consumer: Consumer, round: seq<string>, state: Status, before: map<string, Load>, after: map<string, Load>)
    reads consumer
  {
    if state == Closed then consumer.state == Closed
    else if consumer.state == Status.Free then forall k :: 0 <= k < |round| ==> round[k] !in ReadyFor(after, consumer)
    else exists k :: 0 <= k < |round| && ServedAt(consumer, round, k, before, after)
  }

  /** With nobody else free: the first queue of the round that has anything gives its oldest message. */
  ghost predicate RoundExact(consumer: Consumer, round: seq<string>, before: map<string, Load>, deliveries: seq<Delivery>)
    reads consumer
  {
    var k := Fairness.FirstReady(round, ReadyFor(before, consumer));
    if k == |round| then consumer.state == Status.Free && deliveries == []
    else round[k] in before && GivenOne(consumer, round[k], before[round[k]].live, deliveries)
  }

  /** So far: the queues not come to yet are as before, and those passed have nothing for the consumer. */
  ghost predicate RoundSo(round: seq<string>, i: nat, consumer: Consumer, before: map<string, Load>, after: map<string, Load>)
    requires i <= |round|
  {
    && before.Keys == after.Keys && (forall n :: n in before && n !in round[..i] ==> after[n] == before[n])
    && forall j :: 0 <= j < i ==> round[j] !in ReadyFor(after, consumer)
  }

  lemma RoundBegins(round: seq<string>, consumer: Consumer, loads: map<string, Load>)
    ensures RoundSo(round, 0, consumer, loads, loads)
  {
  }

  lemma RoundOn(round: seq<string>, i: nat, consumer: Consumer, start: map<string, Load>, before: map<string, Load>, after: map<string, Load>)
    requires i < |round| && RoundSo(round, i, consumer, start, before) && round[i] in before && before.Keys == after.Keys
    requires forall n :: n in before && n != round[i] ==> after[n] == before[n]
    requires TriedSo(consumer, round[i], before[round[i]], after[round[i]])
    ensures consumer.state == Status.Free || consumer.state == Busy
    ensures consumer.state == Status.Free ==> RoundSo(round, i + 1, consumer, start, after)
    ensures consumer.state != Status.Free ==> ServedAt(consumer, round, i, start, after)
  {
    hide TakesFrom;
    assert round[..i + 1] == round[..i] + [round[i]];
    assert forall j :: 0 <= j < i ==> round[j] in round[..i];
    if consumer.state != Status.Free {
      assert round[i] !in round[..i];
    }
  }

  lemma RoundPast(round: seq<string>, i: nat, consumer: Consumer, start: map<string, Load>, before: map<string, Load>)
    requires i < |round| && RoundSo(round, i, consumer, start, before) && round[i] !in before
    ensures RoundSo(round, i + 1, consumer, start, before)
  {
    hide TakesFrom;
    assert round[..i + 1] == round[..i] + [round[i]];
  }

  lemma RoundExactly(round: seq<string>, i: nat, consumer: Consumer, start: map<string, Load>, given: seq<Delivery>)
    requires i < |round| && RoundSo(round, i, consumer, start, start) && round[i] in start && ExactlySo(consumer, round[i], start[round[i]], given)
    ensures TakesFrom(start[round[i]], consumer) ==> consumer.state == Busy && RoundExact(consumer, round, start, given)
    ensures !TakesFrom(start[round[i]], consumer) ==> consumer.state == Status.Free && given == []
  {
    hide TakesFrom;
    if TakesFrom(start[round[i]], consumer) {
      assert Fairness.FirstReady(round, ReadyFor(start, consumer)) == i;
    }
  }

  lemma RoundServed(round: seq<string>, i: nat, consumer: Consumer, start: map<string, Load>, after: map<string, Load>)
    requires i < |round| && ServedAt(consumer, round, i, start, after) && consumer.state == Busy
    ensures RoundEnds(consumer, round, Status.Free, start, after)
  {
    hide ServedAt;
  }

  lemma RoundDone(round: seq<string>, i: nat, consumer: Consumer, start: map<string, Load>, after: map<string, Load>, settled: bool)
    requires i <= |round| && RoundSo(round, i, consumer, start, after) && (settled ==> after == start)
    requires consumer.state == Closed || (consumer.state == Status.Free && i == |round|)
    ensures RoundEnds(consumer, round, consumer.state, start, after)
    ensures settled && consumer.state == Status.Free ==> RoundExact(consumer, round, start, [])
  {
    hide TakesFrom;
  }

  /** The queues after the one that served last, then the others. */
  method RoundOf(queues: seq<string>, last: Option<string>) returns (round: seq<string>)
    ensures round == Fairness.Round(queues, last)
  {
    var start := 0;
    if last.Some? {
      start := IndexAfter(queues, last.value);
    }
    round := queues[start..] + queues[..start];
  }

  /** The place after a name in a list; the start when it is not there. */
  method IndexAfter(list: seq<string>, name: string) returns (k: nat)
    ensures k == Fairness.TurnStart(list, Some(name))
  {
    k := 0;
    while k < |list|
      invariant k <= |list| && name !in list[..k]
    {
      if list[k] == name {
        assert name in list;
        assert Fairness.PlaceOfName(list, name) == k;
        return k + 1;
      }
      k := k + 1;
    }
    assert name !in list;
    return 0;
  }
}
