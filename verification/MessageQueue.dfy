/** The queue of the broker. Every method runs under the lock of the queue. */
module MessageQueues {
  import opened Options
  import opened Messages
  import opened Consumers
  import opened DeadLetters
  import opened QueueModel
  import opened Expiry
  import QO = QueueOperations

  /** Something to hand to a consumer once the queue lock is released. */
  datatype Delivery = Delivery(consumer: Consumer, message: BrokerMessage, isResponse: bool)

  // ------------------------------------------------------------ what a stretch of history hands out

  ghost function DeliveriesOf(log: seq<Happening<Consumer>>): seq<Delivery> {
    if log == [] then []
    else
      var init, e := log[..|log| - 1], log[|log| - 1];
      DeliveriesOf(init) +
      if e.Pushed? then [Delivery(e.receiver, e.message, false)]
      else if e.Sent? then [Delivery(e.receiver, e.message, true)]
      else []
  }

  ghost function LettersOf(log: seq<Happening<Consumer>>): seq<DeadLetter<Consumer>> {
    if log == [] then []
    else LettersOf(log[..|log| - 1]) + if log[|log| - 1].Buried? then [log[|log| - 1].letter] else []
  }

  /** The message a consumer was last given, if it was given one. */
  ghost function GivenTo(log: seq<Happening<Consumer>>, c: Consumer): Option<string> {
    if log == [] then None
    else if log[|log| - 1].Pushed? && log[|log| - 1].receiver == c then Some(log[|log| - 1].Id())
    else GivenTo(log[..|log| - 1], c)
  }

  ghost function Grown(before: seq<Happening<Consumer>>, after: seq<Happening<Consumer>>): seq<Happening<Consumer>> {
    if before <= after then after[|before|..] else []
  }

  lemma GrownByOne(before: seq<Happening<Consumer>>, after: seq<Happening<Consumer>>, e: Happening<Consumer>)
    requires before <= after
    ensures before <= after + [e]
    ensures DeliveriesOf(Grown(before, after + [e])) == DeliveriesOf(Grown(before, after)) + DeliveriesOf([e])
    ensures LettersOf(Grown(before, after + [e])) == LettersOf(Grown(before, after)) + LettersOf([e])
    ensures !e.Buried? ==> LettersOf(Grown(before, after + [e])) == LettersOf(Grown(before, after))
    ensures !e.Pushed? && !e.Sent? ==> DeliveriesOf(Grown(before, after + [e])) == DeliveriesOf(Grown(before, after))
    ensures forall c :: GivenTo(Grown(before, after + [e]), c) == if e.Pushed? && e.receiver == c then Some(e.Id()) else GivenTo(Grown(before, after), c)
  {
    var more := Grown(before, after);
    assert Grown(before, after + [e]) == more + [e];
    assert (more + [e])[..|more|] == more;
    assert [e][..0] == [];
  }

  lemma TallyBuried(log: seq<Happening<Consumer>>, letter: DeadLetter<Consumer>)
    ensures TallyOf(log + [Buried(letter)]) ==
            match letter.reason
            case Expired => TallyOf(log).(expired := TallyOf(log).expired + 1)
            case NotConsumed => TallyOf(log).(notConsumed := TallyOf(log).notConsumed + 1)
            case Unconfirmed => TallyOf(log).(unconfirmed := TallyOf(log).unconfirmed + 1)
  {
    TallyAfter(log, Buried(letter));
  }

  lemma TallyRedelivered(log: seq<Happening<Consumer>>, id: string, c: Consumer)
    ensures TallyOf(log + [Redelivered(id, c)]) ==
            TallyOf(log).(unconfirmed := TallyOf(log).unconfirmed + 1, redelivered := TallyOf(log).redelivered + 1)
  {
    TallyAfter(log, Redelivered(id, c));
  }

  lemma NothingHanded(log: seq<Happening<Consumer>>)
    ensures DeliveriesOf(Grown(log, log)) == [] && LettersOf(Grown(log, log)) == []
  {
  }

  lemma {:induction false} HandedAppended(a: seq<Happening<Consumer>>, b: seq<Happening<Consumer>>)
    ensures DeliveriesOf(a + b) == DeliveriesOf(a) + DeliveriesOf(b)
    ensures forall c :: GivenTo(a + b, c) == if GivenTo(b, c) != None then GivenTo(b, c) else GivenTo(a, c)
  {
    if b == [] {
      assert a + b == a;
    } else {
      assert (a + b)[..|a + b| - 1] == a + b[..|b| - 1];
      HandedAppended(a, b[..|b| - 1]);
    }
  }

  lemma GivenMore(a: seq<Happening<Consumer>>, b: seq<Happening<Consumer>>, c: seq<Happening<Consumer>>)
    requires a <= b <= c
    ensures DeliveriesOf(Grown(a, c)) == DeliveriesOf(Grown(a, b)) + DeliveriesOf(Grown(b, c))
    ensures forall x :: GivenTo(Grown(a, c), x) == if GivenTo(Grown(b, c), x) != None then GivenTo(Grown(b, c), x) else GivenTo(Grown(a, b), x)
  {
    assert Grown(a, c) == Grown(a, b) + Grown(b, c);
    HandedAppended(Grown(a, b), Grown(b, c));
  }

  lemma NoneGiven(log: seq<Happening<Consumer>>)
    ensures forall c :: GivenTo(Grown(log, log), c) == None
  {
  }

  lemma HandsOne(e: Happening<Consumer>)
    ensures DeliveriesOf([e]) == if e.Pushed? then [Delivery(e.receiver, e.message, false)] else if e.Sent? then [Delivery(e.receiver, e.message, true)] else []
    ensures LettersOf([e]) == if e.Buried? then [e.letter] else []
  {
    assert [e][..0] == [];
  }

  // ------------------------------------------------------------ whoever comes back for answers

  /** An answer that is already there. */
  ghost predicate Ready(e: Entry<Consumer>) {
    e.content.rpc && e.response.Some?
  }

  /** From now on the answer goes to this consumer. */
  ghost function Routed(e: Entry<Consumer>, consumer: Consumer, asked: bool): Entry<Consumer> {
    if asked && e.content.rpc then e.(replyTo := Some(consumer)) else e
  }

  /** The waiting messages asked for are routed to the consumer, and change in nothing else. */
  ghost predicate LineRouted(before: seq<Entry<Consumer>>, after: seq<Entry<Consumer>>, consumer: Consumer, ids: seq<string>) {
    |after| == |before| && forall k :: 0 <= k < |before| ==> after[k] == Routed(before[k], consumer, before[k].content.id in ids)
  }

  /** Of those in flight the answers already there are gone, when somebody is there to be given them; the others are routed. */
  ghost predicate FlightRouted(before: map<string, Entry<Consumer>>, after: map<string, Entry<Consumer>>, consumer: Consumer, ids: seq<string>, open: bool) {
    && (forall id :: id in after <==> id in before && !(open && id in ids && Ready(before[id])))
    && (forall id :: id in after ==> after[id] == Routed(before[id], consumer, id in ids))
  }

  ghost function IdsOf(deliveries: seq<Delivery>): seq<string> {
    seq(|deliveries|, i requires 0 <= i < |deliveries| => deliveries[i].message.content.id)
  }

  /** Exactly the answers already there are handed to the consumer, each once, and none when it is closed. */
  ghost predicate HandsReady(deliveries: seq<Delivery>, name: string, before: map<string, Entry<Consumer>>, consumer: Consumer, ids: seq<string>, open: bool) {
    && NoRepeats(IdsOf(deliveries))
    && (forall id :: id in IdsOf(deliveries) <==> open && id in ids && id in before && Ready(before[id]))
    && forall i :: 0 <= i < |deliveries| ==>
         var id := IdsOf(deliveries)[i];
         id in before && deliveries[i] == Delivery(consumer, BrokerMessage(name, before[id].content, before[id].response), true)
  }

  /** A message whose answer can be waited for is here. */
  ghost predicate Here(line: seq<Entry<Consumer>>, inFlight: map<string, Entry<Consumer>>, id: string) {
    (id in inFlight && inFlight[id].content.rpc) || exists k :: 0 <= k < |line| && line[k].content.id == id && line[k].content.rpc
  }

  /** How many of them are here; the second time somebody asks for one, its answer may just have been handed over. */
  ghost function FoundAmong(line: seq<Entry<Consumer>>, inFlight: map<string, Entry<Consumer>>, ids: seq<string>, open: bool): nat {
    if ids == [] then 0
    else
      var init, id := ids[..|ids| - 1], ids[|ids| - 1];
      var justHanded := open && id in init && id in inFlight && Ready(inFlight[id]);
      FoundAmong(line, inFlight, init, open) + if Here(line, inFlight, id) && !justHanded then 1 else 0
  }

  lemma HandsOneReady(deliveries: seq<Delivery>, name: string, before: map<string, Entry<Consumer>>, consumer: Consumer, id: string, open: bool)
    requires id in before ==> before[id].content.id == id
    requires deliveries ==
             if id in before && Ready(before[id]) && open then [Delivery(consumer, BrokerMessage(name, before[id].content, before[id].response), true)] else []
    ensures HandsReady(deliveries, name, before, consumer, [id], open)
  {
    if deliveries != [] {
      assert IdsOf(deliveries) == [id];
    }
  }

  /** What is here after some were asked for. */
  lemma StillHere(line: seq<Entry<Consumer>>, line': seq<Entry<Consumer>>, inFlight: map<string, Entry<Consumer>>, inFlight': map<string, Entry<Consumer>>,
                  consumer: Consumer, ids: seq<string>, id: string, open: bool)
    requires LineRouted(line, line', consumer, ids) && FlightRouted(inFlight, inFlight', consumer, ids, open)
    requires forall k :: 0 <= k < |line| ==> line[k].content.id !in inFlight
    ensures Here(line', inFlight', id) <==> Here(line, inFlight, id) && !(open && id in ids && id in inFlight && Ready(inFlight[id]))
  {
    if Here(line, inFlight, id) && id !in inFlight {
      var k :| 0 <= k < |line| && line[k].content.id == id && line[k].content.rpc;
      assert line'[k].content == line[k].content;
    }
  }

  lemma FoundOneMore(line: seq<Entry<Consumer>>, inFlight: map<string, Entry<Consumer>>, ids: seq<string>, id: string, open: bool)
    ensures FoundAmong(line, inFlight, ids + [id], open) ==
            FoundAmong(line, inFlight, ids, open) + if Here(line, inFlight, id) && !(open && id in ids && id in inFlight && Ready(inFlight[id])) then 1 else 0
  {
    assert (ids + [id])[..|ids|] == ids;
  }

  lemma RoutedNone(pending: seq<Entry<Consumer>>, inFlight: map<string, Entry<Consumer>>, name: string, consumer: Consumer, open: bool)
    ensures LineRouted(pending, pending, consumer, []) && FlightRouted(inFlight, inFlight, consumer, [], open)
    ensures HandsReady([], name, inFlight, consumer, [], open) && FoundAmong(pending, inFlight, [], open) == 0
  {
  }

  lemma LineRoutedMore(a: seq<Entry<Consumer>>, b: seq<Entry<Consumer>>, c: seq<Entry<Consumer>>, consumer: Consumer, ids: seq<string>, id: string)
    requires LineRouted(a, b, consumer, ids) && LineRouted(b, c, consumer, [id])
    ensures LineRouted(a, c, consumer, ids + [id])
  {
    forall k | 0 <= k < |a| ensures c[k] == Routed(a[k], consumer, a[k].content.id in ids + [id]) {
      assert b[k].content == a[k].content;
    }
  }

  lemma FlightRoutedMore(a: map<string, Entry<Consumer>>, b: map<string, Entry<Consumer>>, c: map<string, Entry<Consumer>>,
                         consumer: Consumer, ids: seq<string>, id: string, open: bool)
    requires FlightRouted(a, b, consumer, ids, open) && FlightRouted(b, c, consumer, [id], open)
    ensures FlightRouted(a, c, consumer, ids + [id], open)
  {
    forall x | x in b ensures Ready(b[x]) == Ready(a[x]) {
    }
  }

  lemma HandsReadyMore(ds: seq<Delivery>, more: seq<Delivery>, name: string, a: map<string, Entry<Consumer>>, b: map<string, Entry<Consumer>>,
                       consumer: Consumer, ids: seq<string>, id: string, open: bool)
    requires HandsReady(ds, name, a, consumer, ids, open) && FlightRouted(a, b, consumer, ids, open) && HandsReady(more, name, b, consumer, [id], open)
    ensures HandsReady(ds + more, name, a, consumer, ids + [id], open)
  {
    assert IdsOf(ds + more) == IdsOf(ds) + IdsOf(more);
    forall x | x in b ensures Ready(b[x]) == Ready(a[x]) && b[x].content == a[x].content && b[x].response == a[x].response {
    }
    forall x | x in IdsOf(more) ensures x !in IdsOf(ds) && x == id && x in b {
    }
    NoRepeatsJoined(IdsOf(ds), IdsOf(more));
    forall i | 0 <= i < |ds + more|
      ensures var x := IdsOf(ds + more)[i]; x in a && (ds + more)[i] == Delivery(consumer, BrokerMessage(name, a[x].content, a[x].response), true)
    {
      if i >= |ds| {
        assert IdsOf(more)[i - |ds|] in IdsOf(more);
      }
    }
  }

  lemma NoRepeatsJoined<T>(a: seq<T>, b: seq<T>)
    requires NoRepeats(a) && NoRepeats(b) && forall x :: x in b ==> x !in a
    ensures NoRepeats(a + b)
  {
    forall i, j | 0 <= i < j < |a + b| ensures (a + b)[i] != (a + b)[j] {
      if j >= |a| {
        assert b[j - |a|] in b;
      }
    }
  }

  class MessageQueue {
    const name: string
    var settings: Settings
    const deadLetters: DeadLetterStore<Consumer>
    var pending: seq<Entry<Consumer>>
    var inFlight: map<string, Entry<Consumer>>
    var consumers: seq<Consumer>
    var nextConsumer: nat
    var emptySince: Option<int>
    var removed: bool
    var published: nat
    var delivered: nat
    var confirmed: nat
    var responded: nat
    var redelivered: nat
    var expired: nat
    var notConsumed: nat
    var unconfirmed: nat
    var dropped: nat
    var purged: nat
    ghost var log: seq<Happening<Consumer>>

    /** The queue as a value. */
    ghost function Abs(): Queue<Consumer>
      reads this
    {
      Queue(name, settings, pending, inFlight, consumers, nextConsumer, emptySince, removed, log)
    }

    /** Every counter counts what happened. */
    ghost predicate Counted()
      reads this
    {
      var t := TallyOf(log);
      && published == t.published && delivered == t.delivered && confirmed == t.confirmed && responded == t.responded
      && redelivered == t.redelivered && expired == t.expired && notConsumed == t.notConsumed && unconfirmed == t.unconfirmed
      && dropped == t.dropped && purged == t.purged
    }

    ghost predicate Valid()
      reads this, deadLetters
    {
      QueueInv(Abs()) && Counted() && deadLetters.Valid()
    }

    ghost function Bound(): set<Consumer>
      reads this
    {
      set c | c in consumers
    }

    ghost function FreeOnes(): set<Consumer>
      reads this, Bound()`state
    {
      set c | c in consumers && c.state == Free
    }

    /** Whoever waits for the answer of a message. */
    ghost function Receiver(id: string): set<Consumer>
      reads this
    {
      var k := IndexOf(Contents(pending), id);
      var waiting := if id in inFlight then inFlight[id].replyTo else if k < |pending| then pending[k].replyTo else None;
      if waiting.Some? then {waiting.value} else {}
    }

    ghost function ClosedAmong(parties: set<Consumer>): set<Consumer>
      reads parties`state
    {
      set c | c in parties && c.state == Closed
    }

    /** The letters a stretch of history buried are in the store, and nothing else changed there. */
    twostate predicate Told()
      reads this, deadLetters
    {
      old(log) <= log &&
      deadLetters.byQueue == AddAll(old(deadLetters.byQueue), LettersOf(Grown(old(log), log)), settings.letterLimit, settings.letterMaxAge)
    }

    /** Who is bound here and the settings are as before. */
    twostate predicate SameLine()
      reads this
    {
      consumers == old(consumers) && settings == old(settings)
    }

    /** The answer goes to whoever waits for it on a live connection; otherwise it is kept with its message. */
    twostate predicate AnswerGoes(id: string, e: Entry<Consumer>, response: string, now: int, new deliveries: seq<Delivery>)
      reads this`inFlight
    {
      && inFlight - {id} == old(inFlight) - {id}
      && if e.replyTo.Some? && old(e.replyTo.value.state) != Closed
         then id !in inFlight && deliveries == [Delivery(e.replyTo.value, BrokerMessage(name, e.content, Some(response)), true)]
         else deliveries == [] && id in inFlight && inFlight[id] == e.(owner := None, response := Some(response), answeredAt := now)
    }

    /** It is the first free one, going round from the one whose turn it was; none when none is free. */
    twostate predicate InTurn(found: Consumer?)
      reads this`consumers
    {
      && (found == null ==> forall c :: c in old(consumers) ==> old(c.state) != Free)
      && (found != null ==>
            exists n: nat ::
              && n < |old(consumers)| && found == old(consumers)[Around(|old(consumers)|, old(nextConsumer), n)]
              && forall j :: 0 <= j < n ==> old(consumers[Around(|consumers|, nextConsumer, j)].state) != Free)
    }

    lemma ValidSo()
      requires Valid()
      ensures QueueInv(Abs())
    {
    }

    constructor (name: string, settings: Settings, deadLetters: DeadLetterStore<Consumer>)
      requires deadLetters.Valid()
      ensures Valid() && Abs() == NewQueue(name, settings) && this.deadLetters == deadLetters
    {
      this.name, this.settings, this.deadLetters := name, settings, deadLetters;
      pending, inFlight, consumers, nextConsumer, emptySince, removed, log := [], map[], [], 0, None, false, [];
      published, delivered, confirmed, responded, redelivered, expired, notConsumed, unconfirmed, dropped, purged := 0, 0, 0, 0, 0, 0, 0, 0, 0, 0;
      new;
      NewQueueInv<Consumer>(name, settings);
    }

    // ------------------------------------------------------------ helpers

    method TrackEmptiness(now: int)
      requires Valid()
      modifies this`emptySince
      ensures Valid() && Abs() == QO.Track(old(Abs()), now)
      ensures emptySince == if pending == [] && inFlight == map[] && old(emptySince) == None then Some(now) else old(emptySince)
    {
      QO.TrackKeeps(Abs(), now);
      if |pending| == 0 && |inFlight| == 0 && emptySince == None {
        emptySince := Some(now);
      }
    }

    /** A dead message leaves the line. */
    method LeaveDead(i: nat, letter: DeadLetter<Consumer>, now: int)
      requires QueueInv(Abs()) && i < |pending| && QO.DeadReason(pending[i], settings, now).Some?
      requires letter == QO.Letter(Abs(), pending[i], QO.DeadReason(pending[i], settings, now).value, now, None)
      modifies this`pending, this`log
      ensures QueueInv(Abs()) && Abs() == QO.Bury(old(Abs()), i, now) && log == old(log) + [Buried(letter)] && |pending| < |old(pending)|
    {
      hide QueueInv, LifeOf;
      QO.BuryKeeps(Abs(), i, now);
      pending := pending[..i] + pending[i + 1..];
      log := log + [Buried(letter)];
    }

    method BuryIfDead(i: nat, now: int) returns (dead: bool)
      requires Valid() && i < |pending|
      modifies this`pending, this`expired, this`notConsumed, this`log, deadLetters
      ensures Valid() && dead == QO.DeadReason(old(pending)[i], settings, now).Some?
      ensures if dead then Abs() == QO.Bury(old(Abs()), i, now) && |pending| < |old(pending)| else Abs() == old(Abs())
      ensures Told() && (!dead ==> deadLetters.byQueue == old(deadLetters.byQueue))
      ensures dead <==> !Alive(old(pending)[i], settings, now)
      ensures var e := old(pending)[i]; dead ==> log == old(log) + [Buried(DeadLetter(name, e.content, CauseOf(e, now), e.born, now, None))]
    {
      hide QueueInv, LettersOf, TallyOf, Bump, AddAll, Grown, AddLetter, NoneEmpty, Shape, Lives, Balance, Ordered, LifeOf;
      var entry := pending[i];
      var reason;
      if entry.ttl > 0 && now - entry.born > entry.ttl {
        reason := Expired;
        expired := expired + 1;
      } else if now - entry.born > settings.retention {
        reason := NotConsumed;
        notConsumed := notConsumed + 1;
      } else {
        NothingTold();
        return false;
      }
      var letter := DeadLetter(name, entry.content, reason, entry.born, now, None);
      TallyBuried(log, letter);
      ToldOne(log, Buried(letter), deadLetters.byQueue, settings);
      LeaveDead(i, letter, now);
      deadLetters.Add(letter, settings.letterLimit, settings.letterMaxAge);
      dead := true;
    }

    /** The oldest pending message that may still be delivered is then first. Dead ones found on the way are buried. */
    method FirstDeliverable(now: int) returns (found: bool)
      requires Valid()
      modifies this`pending, this`expired, this`notConsumed, this`log, deadLetters
      ensures Valid() && Abs() == QO.DropDead(old(Abs()), now) && found == (pending != [])
      ensures Told()
    {
      hide QueueInv, LettersOf, QO.DeadReason, Shape, Lives, Balance, Ordered, LifeOf;
      NothingTold();
      while |pending| > 0
        invariant Valid() && QO.DropDead(Abs(), now) == QO.DropDead(old(Abs()), now)
        invariant Told() && SameLine()
        decreases |pending|
      {
        label before:
        var dead := BuryIfDead(0, now);
        if !dead {
          return true;
        }
        ToldMore(old(log), old@before(log), log, old(deadLetters.byQueue), settings);
      }
      return false;
    }

    method NextFreeConsumer() returns (found: Consumer?)
      requires Valid()
      modifies this`nextConsumer, Bound()`state
      ensures Valid() && Abs() == old(Abs()).(next := nextConsumer)
      ensures match QO.FirstFree(consumers, old(nextConsumer), old(FreeOnes()), 0)
              case None => found == null && nextConsumer == old(nextConsumer)
              case Some(k) => found == consumers[k] && found.state == Busy && nextConsumer == (k + 1) % |consumers|
      ensures InTurn(found)
      ensures forall c :: c in consumers && c != found ==> c.state == old(c.state)
    {
      hide QueueInv, TallyOf, Shape, Lives, Balance, Ordered, LifeOf;
      FirstFreeIs(consumers, nextConsumer, FreeOnes(), 0);
      var i := 0;
      while i < |consumers|
        invariant Valid() && Abs() == old(Abs())
        invariant i <= |consumers| && nextConsumer == old(nextConsumer)
        invariant QO.FirstFree(consumers, nextConsumer, old(FreeOnes()), i) == QO.FirstFree(consumers, nextConsumer, old(FreeOnes()), 0)
        invariant forall c :: c in consumers ==> c.state == old(c.state)
      {
        var index := (nextConsumer + i) % |consumers|;
        var ok := consumers[index].TryAcquire();
        if ok {
          QO.TurnKeeps(Abs(), (index + 1) % |consumers|, settings);
          nextConsumer := (index + 1) % |consumers|;
          return consumers[index];
        }
        i := i + 1;
      }
      return null;
    }

    method StoreResponse(id: string, response: string, now: int)
      requires Valid() && id in inFlight && inFlight[id].owner == None
      modifies this`inFlight, this`responded, this`log
      ensures Valid() && Abs() == QO.Store(old(Abs()), id, response, now)
      ensures inFlight == old(inFlight)[id := old(inFlight)[id].(response := Some(response), answeredAt := now)]
      ensures Receiver(id) == old(Receiver(id))
    {
      hide QueueInv, TallyOf, Shape, Lives, Balance, Ordered, LifeOf;
      QO.StoreKeeps(Abs(), id, response, now);
      QO.FlyingId(Abs(), id);
      var entry := inFlight[id];
      TallyAfter(log, Stored(id, response, entry.response == None));
      if entry.response == None {
        responded := responded + 1;
      }
      inFlight := inFlight[id := entry.(response := Some(response), answeredAt := now)];
      log := log + [Stored(id, response, entry.response == None)];
    }

    /** Hands the answer to whoever is waiting for it on a live connection. */
    method PushResponse(id: string) returns (deliveries: seq<Delivery>)
      requires Valid() && id in inFlight && inFlight[id].response != None
      modifies this`inFlight, this`log
      ensures Valid() && Abs() == QO.Send(old(Abs()), id, old(ClosedAmong(Receiver(id))))
      ensures var e := old(inFlight)[id];
              if e.replyTo.Some? && old(e.replyTo.value.state) != Closed
              then deliveries == [Delivery(e.replyTo.value, BrokerMessage(name, e.content, e.response), true)] && inFlight == old(inFlight) - {id}
              else deliveries == [] && inFlight == old(inFlight)
      ensures old(log) <= log && deliveries == DeliveriesOf(Grown(old(log), log)) && LettersOf(Grown(old(log), log)) == []
    {
      hide QueueInv, TallyOf, DeliveriesOf, LettersOf, Grown, Shape, Lives, Balance, Ordered, LifeOf;
      var entry := inFlight[id];
      QO.SendKeeps(Abs(), id, ClosedAmong(Receiver(id)));
      QO.FlyingId(Abs(), id);
      if entry.replyTo == None || entry.replyTo.value.state == Closed {
        NothingHanded(log);
        return [];
      }
      var e := Sent(BrokerMessage(name, entry.content, entry.response), entry.replyTo.value);
      TallyAfter(log, e);
      NothingHanded(log);
      GrownByOne(log, log, e);
      inFlight := inFlight - {id};
      log := log + [e];
      deliveries := [Delivery(entry.replyTo.value, e.message, true)];
      HandsOne(e);
    }

    // ------------------------------------------------------------ pushing

    /** What a stretch of history did to the consumers it pushed messages to, and to nobody else. */
    twostate predicate Handed(some: set<Consumer>)
      reads this, some
    {
      forall c :: c in some ==>
        var id := GivenTo(Grown(old(log), log), c);
        if id == None then c.state == old(c.state) && c.current == old(c.current) && c.lastQueue == old(c.lastQueue)
        else old(c.state) == Free && c.state == Busy && c.current == Some((name, id.value)) && c.lastQueue == Some(name)
    }

    /** Hands the head of the line to a consumer that was just acquired. */
    method Hand(consumer: Consumer) returns (delivery: Delivery)
      requires Valid() && pending != []
      modifies this`pending, this`inFlight, this`delivered, this`log, consumer`current, consumer`lastQueue
      ensures Valid() && Abs() == QO.PushHead(old(Abs()), consumer) && |pending| == |old(pending)| - 1
      ensures delivery == Delivery(consumer, BrokerMessage(name, old(pending)[0].content, None), false)
      ensures log == old(log) + [Pushed(delivery.message, consumer)]
      ensures consumer.current == Some((name, old(pending)[0].content.id)) && consumer.lastQueue == Some(name)
    {
      hide QueueInv, TallyOf, Shape, Lives, Balance, Ordered, LifeOf;
      QO.PushHeadKeeps(Abs(), consumer);
      QO.HeadIsPlain(Abs());
      var entry := pending[0];
      delivery := Delivery(consumer, BrokerMessage(name, entry.content, None), false);
      TallyAfter(log, Pushed(delivery.message, consumer));
      pending := pending[1..];
      inFlight := inFlight[entry.content.id := entry.(owner := Some(consumer))];
      consumer.current := Some((name, entry.content.id));
      consumer.lastQueue := Some(name);
      delivered := delivered + 1;
      log := log + [Pushed(delivery.message, consumer)];
      assert pending == Without(old(pending), 0);
    }

    /** Hands the head of the line to the next free consumer, when there is one. */
    method HandInTurn() returns (delivery: Option<Delivery>)
      requires Valid() && pending != [] && consumers != []
      modifies this`pending, this`inFlight, this`nextConsumer, this`delivered, this`log
      modifies Bound()`state, Bound()`current, Bound()`lastQueue
      ensures Valid() && SameLine() && Handed(old(Bound())) && old(log) <= log && LettersOf(Grown(old(log), log)) == []
      ensures match QO.FirstFree(consumers, old(nextConsumer), old(FreeOnes()), 0)
              case None => delivery == None && Abs() == old(Abs()) && DeliveriesOf(Grown(old(log), log)) == []
              case Some(k) => delivery.Some? && Abs() == QO.PushHead(old(Abs()), consumers[k]).(next := (k + 1) % |consumers|)
                              && FreeOnes() == old(FreeOnes()) - {consumers[k]}
                              && DeliveriesOf(Grown(old(log), log)) == [delivery.value] && |pending| < |old(pending)|
    {
      hide Valid, LettersOf, DeliveriesOf, GivenTo, Grown, QO.FirstFree, QO.PushHead, InTurn;
      NothingHanded(log);
      NoneGiven(log);
      var consumer := NextFreeConsumer();
      if consumer == null {
        return None;
      }
      QO.PushHeadTurn(old(Abs()), consumer, nextConsumer);
      var handed := Hand(consumer);
      assert FreeOnes() == old(FreeOnes()) - {consumer};
      GrownByOne(old(log), old(log), Pushed(handed.message, consumer));
      HandsOne(Pushed(handed.message, consumer));
      delivery := Some(handed);
    }

    /** Pushes one message to one free consumer, when there are both. */
    method PushOne(now: int) returns (delivery: Option<Delivery>)
      requires Valid() && !settings.paused && consumers != []
      modifies this`pending, this`inFlight, this`nextConsumer, this`delivered, this`expired, this`notConsumed, this`log
      modifies deadLetters, Bound()`state, Bound()`current, Bound()`lastQueue
      ensures Valid() && SameLine() && Told() && Handed(old(Bound()))
      ensures match delivery
              case None => QO.Dispatch(old(Abs()), old(FreeOnes()), now) == QO.Track(Abs(), now) && DeliveriesOf(Grown(old(log), log)) == []
              case Some(d) => QO.Dispatch(old(Abs()), old(FreeOnes()), now) == QO.Dispatch(Abs(), FreeOnes(), now)
                              && DeliveriesOf(Grown(old(log), log)) == [d] && |pending| < |old(pending)|
    {
      hide Valid, LettersOf, DeliveriesOf, AddAll, GivenTo, Grown, QO.FirstFree, QO.DropDead, QO.Dispatch, QO.PushHead;
      QO.DropDeadShortens(Abs(), now);
      DropDeadHandsNothing(Abs(), now);
      QO.DispatchStep(Abs(), FreeOnes(), now);
      var found := FirstDeliverable(now);
      assert FreeOnes() == old(FreeOnes());
      if !found {
        return None;
      }
      label found:
      delivery := HandInTurn();
      GivenMore(old(log), old@found(log), log);
      NoLettersMore(old(log), old@found(log), log);
    }

    lemma {:induction false} DropDeadHandsNothing(q: Queue<Consumer>, now: int)
      ensures q.log <= QO.DropDead(q, now).log
      ensures DeliveriesOf(Grown(q.log, QO.DropDead(q, now).log)) == []
      ensures forall c :: GivenTo(Grown(q.log, QO.DropDead(q, now).log), c) == None
      decreases |q.pending|
    {
      HandsNothing(q.log, q, now);
    }

    lemma {:induction false} HandsNothing(start: seq<Happening<Consumer>>, q: Queue<Consumer>, now: int)
      requires start <= q.log
      requires DeliveriesOf(Grown(start, q.log)) == [] && forall c :: GivenTo(Grown(start, q.log), c) == None
      ensures start <= QO.DropDead(q, now).log
      ensures DeliveriesOf(Grown(start, QO.DropDead(q, now).log)) == []
      ensures forall c :: GivenTo(Grown(start, QO.DropDead(q, now).log), c) == None
      decreases |q.pending|
    {
      hide QO.DeadReason, GivenTo, DeliveriesOf;
      if q.pending != [] && QO.DeadReason(q.pending[0], q.settings, now) != None {
        var q' := QO.Bury(q, 0, now);
        GrownByOne(start, q.log, q'.log[|q.log|]);
        assert q'.log == q.log + [q'.log[|q.log|]];
        HandsOne(q'.log[|q.log|]);
        HandsNothing(start, q', now);
      }
    }

    /** Pushes pending messages to free consumers, one consumer after the other. */
    method Dispatch(now: int) returns (deliveries: seq<Delivery>)
      requires Valid()
      modifies this`pending, this`inFlight, this`nextConsumer, this`emptySince, this`delivered, this`expired, this`notConsumed, this`log
      modifies deadLetters, Bound()`state, Bound()`current, Bound()`lastQueue
      ensures Valid() && SameLine() && Abs() == QO.Dispatch(old(Abs()), old(FreeOnes()), now)
      ensures Told() && deliveries == DeliveriesOf(Grown(old(log), log))
      ensures Handed(old(Bound()))
    {
      hide Valid, LettersOf, DeliveriesOf, AddAll, GivenTo, QO.DropDead, QO.FirstFree, QO.PushHead, Grown, FreeOnes;
      deliveries := [];
      NothingHanded(log);
      NoneGiven(log);
      NothingTold();
      while !settings.paused && |consumers| > 0
        invariant Valid() && SameLine()
        invariant QO.Dispatch(Abs(), FreeOnes(), now) == QO.Dispatch(old(Abs()), old(FreeOnes()), now)
        invariant Told() && deliveries == DeliveriesOf(Grown(old(log), log))
        invariant Handed(old(Bound()))
        decreases |pending|
      {
        label before:
        var delivery := PushOne(now);
        GivenMore(old(log), old@before(log), log);
        ToldMore(old(log), old@before(log), log, old(deadLetters.byQueue), settings);
        if delivery == None {
          break;
        }
        deliveries := deliveries + [delivery.value];
      }
      TrackEmptiness(now);
    }

    // ------------------------------------------------------------ operations

    /** Whatever happens to a message of this queue from now on, this one was never heard of. */
    ghost predicate Fresh(id: string)
      reads this
    {
      LifeOf(log, id) == Some(Unborn)
    }

    /** The message comes to stand at the end of the line. */
    method Append(content: Content, ttl: int, replyTo: Option<Consumer>, now: int)
      requires Valid() && !removed && Fresh(content.id)
      modifies this`pending, this`emptySince, this`published, this`log
      ensures Valid() && Abs() == QO.Publish(old(Abs()), content, ttl, replyTo, now) && log == old(log) + [Published(content)]
      ensures pending == old(pending) + [Entry(content, ttl, now, None, 0, None, if content.rpc then replyTo else None)] && inFlight == old(inFlight)
    {
      hide QueueInv, TallyOf, DeadLetterStore.Valid, LifeOf;
      QO.PublishKeeps(Abs(), content, ttl, replyTo, now);
      TallyAfter(log, Published(content));
      pending := pending + [Entry(content, ttl, now, None, 0, None, if content.rpc then replyTo else None)];
      emptySince := None;
      published := published + 1;
      log := log + [Published(content)];
    }

    method TryPublish(content: Content, ttl: int, replyTo: Option<Consumer>, now: int) returns (ok: bool, deliveries: seq<Delivery>)
      requires Valid() && (removed || Fresh(content.id))
      modifies this, deadLetters, Bound()`state, Bound()`current, Bound()`lastQueue
      ensures Valid() && SameLine() && ok == !old(removed)
      ensures Abs() == if ok then QO.Dispatch(QO.Publish(old(Abs()), content, ttl, replyTo, now), old(FreeOnes()), now) else old(Abs())
      ensures Told() && Handed(old(Bound())) && deliveries == DeliveriesOf(Grown(old(log), log))
    {
      hide QueueInv, TallyOf, LettersOf, DeliveriesOf, GivenTo, Grown, AddAll, NoneEmpty, QO.Dispatch, LifeOf, Shape, Lives, Balance, Ordered;
      NothingHanded(log);
      NoneGiven(log);
      NothingTold();
      if removed {
        return false, [];
      }
      GrownByOne(log, log, Published(content));
      Append(content, ttl, replyTo, now);
      assert FreeOnes() == old(FreeOnes());
      label entered:
      deliveries := Dispatch(now);
      GivenMore(old(log), old@entered(log), log);
      ToldMore(old(log), old@entered(log), log, old(deadLetters.byQueue), settings);
      ok := true;
    }

    /** Hands the oldest deliverable message to a caller that asks for it. */
    method Take(now: int) returns (message: Option<BrokerMessage>)
      requires Valid()
      modifies this, deadLetters
      ensures Valid() && SameLine() && Abs() == QO.Take(old(Abs()), now) && message == QO.Offered(old(Abs()), now)
      ensures Told()
    {
      hide QueueInv, TallyOf, LettersOf, Grown, AddAll, NoneEmpty, QO.DropDead, Shape, Lives, Balance, Ordered, LifeOf;
      QO.TakeKeeps(Abs(), now);
      if settings.paused {
        TrackEmptiness(now);
        NothingTold();
        return None;
      }
      var found := FirstDeliverable(now);
      if !found {
        TrackEmptiness(now);
        return None;
      }
      QO.DropDeadKeeps(old(Abs()), now);
      QO.DropDeadShortens(old(Abs()), now);
      QO.HeadIsPlain(Abs());
      var entry := pending[0];
      message := Some(BrokerMessage(name, entry.content, None));
      GrownByOne(old(log), log, Taken(message.value));
      TakeOne(entry, message.value);
      TrackEmptiness(now);
    }

    /** The head leaves the line; the counters are still to be told. */
    method TakeHead(entry: Entry<Consumer>, message: BrokerMessage)
      requires Valid() && pending != [] && entry == pending[0] && message == QO.Snapshot(Abs(), entry)
      modifies this`pending, this`inFlight, this`log
      ensures QueueInv(Abs()) && log == old(log) + [Taken(message)]
      ensures Abs() == if entry.content.rpc then TakeOff(old(Abs()), 0, entry, Taken(message)) else LeaveLine(old(Abs()), 0, Taken(message))
    {
      hide QueueInv, TallyOf, Counted, DeadLetterStore.Valid, LifeOf;
      QO.HeadIsPlain(Abs());
      if entry.content.rpc {
        TakeOffKeeps(Abs(), 0, entry, Taken(message));
        inFlight := inFlight[entry.content.id := entry];
      } else {
        LeaveLineKeeps(Abs(), 0, Taken(message));
      }
      assert pending[1..] == Without(pending, 0);
      pending := pending[1..];
      log := log + [Taken(message)];
    }

    method TakeOne(entry: Entry<Consumer>, message: BrokerMessage)
      requires Valid() && pending != [] && entry == pending[0] && message == QO.Snapshot(Abs(), entry)
      modifies this`pending, this`inFlight, this`delivered, this`log
      ensures Valid() && log == old(log) + [Taken(message)]
      ensures Abs() == if entry.content.rpc then TakeOff(old(Abs()), 0, entry, Taken(message)) else LeaveLine(old(Abs()), 0, Taken(message))
    {
      hide QueueInv, TallyOf, LifeOf, TakeOff, LeaveLine;
      TallyAfter(log, Taken(message));
      TakeHead(entry, message);
      delivered := delivered + 1;
    }

    method Bind(consumer: Consumer, now: int) returns (ok: bool, deliveries: seq<Delivery>)
      requires Valid()
      modifies this, deadLetters, (Bound() + {consumer})`state, (Bound() + {consumer})`current, (Bound() + {consumer})`lastQueue
      ensures Valid() && settings == old(settings) && ok == !old(removed)
      ensures var joined := QO.Join(old(Abs()), consumer);
              var free := old(FreeOnes()) + if old(consumer.state) == Free then {consumer} else {};
              Abs() == if ok then QO.Dispatch(joined, free, now) else old(Abs())
      ensures Told() && Handed(old(Bound()) + {consumer}) && deliveries == DeliveriesOf(Grown(old(log), log))
    {
      hide QueueInv, TallyOf, LettersOf, DeliveriesOf, GivenTo, Grown, AddAll, NoneEmpty, QO.Dispatch, Shape, Lives, Balance, Ordered, LifeOf;
      NothingHanded(log);
      NoneGiven(log);
      NothingTold();
      if removed {
        return false, [];
      }
      QO.JoinKeeps(Abs(), consumer);
      if consumer !in consumers {
        consumers := consumers + [consumer];
      }
      assert Bound() == old(Bound()) + {consumer};
      assert FreeOnes() == old(FreeOnes()) + if old(consumer.state) == Free then {consumer} else {};
      deliveries := Dispatch(now);
      ok := true;
    }

    method Unbind(consumer: Consumer)
      requires Valid()
      modifies this`consumers, this`nextConsumer
      ensures Valid() && Abs() == QO.Part(old(Abs()), consumer) && nextConsumer == 0
      ensures exists i :: 0 <= i <= |old(consumers)| && consumer !in old(consumers)[..i] && (i < |old(consumers)| ==> old(consumers)[i] == consumer)
                          && consumers == old(consumers)[..i] + old(consumers)[if i < |old(consumers)| then i + 1 else i..]
    {
      hide QueueInv, TallyOf, Shape, Lives, Balance, Ordered, LifeOf;
      QO.PartKeeps(Abs(), consumer);
      var i := 0;
      while i < |consumers| && consumers[i] != consumer
        invariant i <= |consumers| && consumer !in consumers[..i]
      {
        i := i + 1;
      }
      QO.WithoutFirstAt(consumers, consumer, i);
      if i < |consumers| {
        consumers := consumers[..i] + consumers[i + 1..];
      }
      nextConsumer := 0;
    }

    /** The consumer finished the message it was pushed. */
    method Confirm(consumer: Consumer, id: string, now: int) returns (ok: bool)
      requires Valid()
      modifies this, consumer`current
      ensures Valid() && ok == QO.Holds(old(Abs()), consumer, id) && Abs() == QO.Confirm(old(Abs()), consumer, id, now)
      ensures consumer.current == if ok then None else old(consumer.current)
    {
      hide QueueInv, TallyOf, Shape, Lives, Balance, Ordered, LifeOf;
      if id !in inFlight || inFlight[id].owner != Some(consumer) {
        return false;
      }
      QO.ConfirmedKeeps(Abs(), consumer, id);
      TallyAfter(log, Confirmed(id, consumer));
      inFlight := inFlight - {id};
      consumer.current := None;
      confirmed := confirmed + 1;
      log := log + [Confirmed(id, consumer)];
      TrackEmptiness(now);
      ok := true;
    }

    /** The consumer no longer holds the RPC message it is answering. */
    method LetGo(consumer: Consumer, id: string)
      requires Valid() && QO.Holds(Abs(), consumer, id) && inFlight[id].content.rpc
      modifies this`inFlight, this`confirmed, this`log
      ensures Valid() && Abs() == QO.Release(old(Abs()), consumer, id)
      ensures log == old(log) + [Answered(old(inFlight)[id].content, consumer)] && Receiver(id) == old(Receiver(id))
    {
      hide QueueInv, TallyOf, Shape, Lives, Balance, Ordered, LifeOf;
      QO.FlyingId(Abs(), id);
      QO.ReleaseKeeps(Abs(), consumer, id);
      var entry := inFlight[id];
      TallyAfter(log, Answered(entry.content, consumer));
      inFlight := inFlight[id := entry.(owner := None)];
      confirmed := confirmed + 1;
      log := log + [Answered(entry.content, consumer)];
    }

    /** The answer of its consumer settles a plain message. */
    method SettlePlain(consumer: Consumer, id: string)
      requires Valid() && QO.Holds(Abs(), consumer, id) && !inFlight[id].content.rpc
      modifies this`inFlight, this`confirmed, this`log
      ensures Valid() && Abs() == Land(old(Abs()), id, Answered(old(inFlight)[id].content, consumer))
      ensures log == old(log) + [Answered(old(inFlight)[id].content, consumer)]
    {
      hide QueueInv, TallyOf, DeadLetterStore.Valid, LifeOf;
      var entry := inFlight[id];
      QO.FlyingId(Abs(), id);
      QO.AnsweredPlainKeeps(Abs(), consumer, id);
      TallyAfter(log, Answered(entry.content, consumer));
      inFlight := inFlight - {id};
      confirmed := confirmed + 1;
      log := log + [Answered(entry.content, consumer)];
    }

    /** The answer of its consumer to an RPC message. */
    method AnswerRpc(consumer: Consumer, id: string, response: string, now: int) returns (deliveries: seq<Delivery>)
      requires Valid() && QO.Holds(Abs(), consumer, id) && inFlight[id].content.rpc
      modifies this`inFlight, this`confirmed, this`responded, this`log
      ensures Valid()
      ensures Abs() == QO.Send(QO.Store(QO.Release(old(Abs()), consumer, id), id, response, now), id, old(ClosedAmong(Receiver(id))))
      ensures old(log) <= log && deliveries == DeliveriesOf(Grown(old(log), log))
      ensures AnswerGoes(id, old(inFlight)[id], response, now, deliveries)
    {
      hide QueueInv, TallyOf, LettersOf, DeliveriesOf, Grown, NoneEmpty, QO.Store, QO.Send, IndexOf, Contents, Shape, Lives, Balance, Ordered, LifeOf;
      NothingHanded(log);
      GrownByOne(log, log, Answered(inFlight[id].content, consumer));
      QO.FlyingId(Abs(), id);
      LetGo(consumer, id);
      assert inFlight - {id} == old(inFlight) - {id};
      deliveries := StoreAndPush(old(log), id, response, now);
    }

    /** The consumer finished the message it was pushed and this is its answer. */
    method RespondHeld(consumer: Consumer, id: string, response: string, now: int) returns (ok: bool, deliveries: seq<Delivery>)
      requires Valid()
      modifies this, consumer`current
      ensures Valid() && ok == QO.Holds(old(Abs()), consumer, id)
      ensures Abs() == QO.AnswerHeld(old(Abs()), consumer, id, response, old(ClosedAmong(Receiver(id))), now)
      ensures consumer.current == if ok then None else old(consumer.current)
      ensures old(log) <= log && deliveries == DeliveriesOf(Grown(old(log), log))
      ensures ok <==> id in old(inFlight) && old(inFlight)[id].owner == Some(consumer)
      ensures ok && old(inFlight)[id].content.rpc ==> AnswerGoes(id, old(inFlight)[id], response, now, deliveries)
      ensures ok && !old(inFlight)[id].content.rpc ==> inFlight == old(inFlight) - {id} && deliveries == []
      ensures !ok ==> deliveries == []
    {
      hide QueueInv, TallyOf, LettersOf, DeliveriesOf, Grown, NoneEmpty, QO.Store, QO.Send, IndexOf, Contents, Shape, Lives, Balance, Ordered, LifeOf;
      NothingHanded(log);
      if id !in inFlight || inFlight[id].owner != Some(consumer) {
        return false, [];
      }
      consumer.current := None;
      var entry := inFlight[id];
      GrownByOne(log, log, Answered(entry.content, consumer));
      QO.FlyingId(Abs(), id);
      if !entry.content.rpc {
        SettlePlain(consumer, id);
        deliveries := [];
      } else {
        deliveries := AnswerRpc(consumer, id, response, now);
      }
      TrackEmptiness(now);
      ok := true;
    }

    method StoreAndPush(ghost start: seq<Happening<Consumer>>, id: string, response: string, now: int) returns (deliveries: seq<Delivery>)
      requires Valid() && id in inFlight && inFlight[id].owner == None
      requires start <= log && DeliveriesOf(Grown(start, log)) == []
      modifies this`inFlight, this`responded, this`log
      ensures Valid() && id in old(inFlight) && AnswerGoes(id, old(inFlight)[id], response, now, deliveries)
      ensures Abs() == QO.Send(QO.Store(old(Abs()), id, response, now), id, old(ClosedAmong(Receiver(id))))
      ensures start <= log && deliveries == DeliveriesOf(Grown(start, log))
    {
      hide QueueInv, TallyOf, LettersOf, DeliveriesOf, Grown, NoneEmpty, QO.Send, Shape, Lives, Balance, Ordered, LifeOf;
      GrownByOne(start, log, Stored(id, response, inFlight[id].response == None));
      StoreResponse(id, response, now);
      label stored:
      deliveries := PushResponse(id);
      GivenMore(start, old@stored(log), log);
    }

    /** Stores the response of a message taken the 1.x way. */
    method RespondAsked(id: string, response: string, includeUndelivered: bool, now: int) returns (ok: bool, deliveries: seq<Delivery>)
      requires Valid()
      modifies this
      ensures Valid() && ok == QO.Accepts(QO.Reached(old(Abs()), id, includeUndelivered), id, now)
      ensures Abs() == QO.AnswerAsked(old(Abs()), id, response, includeUndelivered, old(ClosedAmong(Receiver(id))), now)
      ensures old(log) <= log && deliveries == DeliveriesOf(Grown(old(log), log))
      ensures id in old(inFlight) ==>
                var e := old(inFlight)[id];
                && ok == (e.owner == None && (e.response.Some? || now - e.born <= settings.retention))
                && (ok ==> AnswerGoes(id, e, response, now, deliveries))
      ensures forall k :: 0 <= k < |old(pending)| && old(pending)[k].content.id == id ==>
                var e := old(pending)[k];
                && ok == (includeUndelivered && now - e.born <= settings.retention)
                && (ok ==> AnswerGoes(id, e, response, now, deliveries))
      ensures id !in old(inFlight) && (forall k :: 0 <= k < |old(pending)| ==> old(pending)[k].content.id != id) ==> !ok
      ensures !ok ==> deliveries == []
    {
      hide QueueInv, TallyOf, LettersOf, DeliveriesOf, Grown, NoneEmpty, QO.Store, QO.Send, Shape, Lives, Balance, Ordered, LifeOf;
      NothingHanded(log);
      forall k | 0 <= k < |pending| && pending[k].content.id == id ensures id !in inFlight {
        WaitingPlain(Abs(), k);
      }
      if id !in inFlight {
        var found := false;
        if includeUndelivered {
          found := TakeAside(id);
        }
        if !found {
          return false, [];
        }
      }
      ok, deliveries := AnswerFlying(old(log), id, response, now);
    }

    /** Answers a message in flight that nobody is processing. */
    method AnswerFlying(ghost start: seq<Happening<Consumer>>, id: string, response: string, now: int) returns (ok: bool, deliveries: seq<Delivery>)
      requires Valid() && id in inFlight && start <= log && DeliveriesOf(Grown(start, log)) == []
      modifies this`inFlight, this`responded, this`log, this`emptySince
      ensures Valid() && id in old(inFlight) && ok == QO.Accepts(old(Abs()), id, now)
      ensures Abs() == if ok then QO.Track(QO.Send(QO.Store(old(Abs()), id, response, now), id, old(ClosedAmong(Receiver(id)))), now) else old(Abs())
      ensures start <= log && deliveries == DeliveriesOf(Grown(start, log))
      ensures var e := old(inFlight)[id]; ok <==> e.owner == None && (e.response.Some? || now - e.born <= settings.retention)
      ensures if ok then AnswerGoes(id, old(inFlight)[id], response, now, deliveries) else deliveries == []
    {
      hide QueueInv, TallyOf, LettersOf, DeliveriesOf, Grown, NoneEmpty, QO.Store, QO.Send, IndexOf, Contents, Shape, Lives, Balance, Ordered, LifeOf;
      if inFlight[id].owner != None {
        return false, [];
      }
      if inFlight[id].response == None && now - inFlight[id].born > settings.retention {
        return false, [];
      }
      deliveries := StoreAndPush(start, id, response, now);
      TrackEmptiness(now);
      ok := true;
    }

    /** The message at this place of the line is taken aside; the counters stay. */
    method MoveAside(id: string, k: nat)
      requires Valid() && id !in inFlight && k == IndexOf(Contents(pending), id) && k < |pending|
      modifies this`pending, this`inFlight, this`log
      ensures QueueInv(Abs()) && Abs() == QO.MoveAside(old(Abs()), id) && log == old(log) + [MovedAside(id)]
      ensures inFlight == old(inFlight)[id := old(pending)[k]]
    {
      hide QueueInv, TallyOf, Counted, DeadLetterStore.Valid, LifeOf, IndexOf;
      QO.ReachedKeeps(Abs(), id, true);
      var entry := pending[k];
      pending := pending[..k] + pending[k + 1..];
      inFlight := inFlight[id := entry];
      log := log + [MovedAside(id)];
    }

    /** Answering a message nobody consumed yet takes it out of the delivery line. */
    method TakeAside(id: string) returns (found: bool)
      requires Valid() && id !in inFlight
      modifies this`pending, this`inFlight, this`log
      ensures Valid() && Abs() == QO.MoveAside(old(Abs()), id) && found == (id in inFlight)
      ensures forall k :: 0 <= k < |old(pending)| && old(pending)[k].content.id == id ==>
                found && inFlight == old(inFlight)[id := old(pending)[k]] && inFlight[id].owner == None && inFlight[id].response == None
      ensures Receiver(id) == old(Receiver(id))
      ensures old(log) <= log && DeliveriesOf(Grown(old(log), log)) == []
    {
      hide QueueInv, TallyOf, LettersOf, DeliveriesOf, Grown, NoneEmpty, Shape, Lives, Balance, Ordered, LifeOf;
      NothingHanded(log);
      var k := FindPending(id);
      forall j | 0 <= j < |pending| && pending[j].content.id == id ensures j == k && pending[j].owner == None && pending[j].response == None {
        WaitingPlain(Abs(), j);
      }
      if k == |pending| {
        return false;
      }
      GrownByOne(log, log, MovedAside(id));
      TallyAfter(log, MovedAside(id));
      MoveAside(id, k);
      found := true;
    }

    method FindPending(id: string) returns (k: nat)
      ensures k == IndexOf(Contents(pending), id)
    {
      k := 0;
      ghost var line := Contents(pending);
      while k < |pending|
        invariant k <= |pending| && forall j :: 0 <= j < k ==> line[j].id != id
      {
        if pending[k].content.id == id {
          assert line[k].id == id;
          return;
        }
        k := k + 1;
      }
    }

    method TakeResponse(id: string, now: int) returns (message: Option<BrokerMessage>)
      requires Valid()
      modifies this
      ensures Valid() && Abs() == QO.Collect(old(Abs()), id, now)
      ensures if id in old(inFlight) && old(inFlight)[id].response.Some?
              then message == Some(BrokerMessage(name, old(inFlight)[id].content, old(inFlight)[id].response)) && inFlight == old(inFlight) - {id}
              else message == None && inFlight == old(inFlight)
    {
      hide QueueInv, TallyOf, Shape, Lives, Balance, Ordered, LifeOf;
      if id !in inFlight || inFlight[id].response == None {
        return None;
      }
      QO.FlyingId(Abs(), id);
      var snapshot := BrokerMessage(name, inFlight[id].content, inFlight[id].response);
      QO.CollectedKeeps(Abs(), id);
      TallyAfter(log, Collected(snapshot));
      inFlight := inFlight - {id};
      log := log + [Collected(snapshot)];
      TrackEmptiness(now);
      message := Some(snapshot);
    }

    method Contains(id: string) returns (here: bool)
      requires Valid()
      ensures here <==> PlaceOf(Abs(), id) != Nowhere
    {
      var k := FindPending(id);
      here := id in inFlight || k < |pending|;
    }

    /** The answer of a message in flight is routed, and handed over if it is already there. */
    method Route(consumer: Consumer, id: string) returns (deliveries: seq<Delivery>)
      requires Valid() && id in inFlight && inFlight[id].content.rpc
      modifies this`inFlight, this`log
      ensures Valid() && id in old(inFlight)
      ensures Abs() == QO.AwaitOne(old(Abs()), consumer, id, old(ClosedAmong({consumer})))
      ensures old(log) <= log && deliveries == DeliveriesOf(Grown(old(log), log))
      ensures var e := old(inFlight)[id];
              if e.response.Some? && old(consumer.state) != Closed
              then deliveries == [Delivery(consumer, BrokerMessage(name, e.content, e.response), true)] && inFlight == old(inFlight) - {id}
              else deliveries == [] && inFlight == old(inFlight)[id := e.(replyTo := Some(consumer))]
    {
      hide QueueInv, TallyOf, LettersOf, DeliveriesOf, Grown, NoneEmpty, Shape, Lives, Balance, Ordered, LifeOf, QO.Send, IndexOf, Contents;
      NothingHanded(log);
      QO.RouteKeeps(Abs(), consumer, id);
      inFlight := inFlight[id := inFlight[id].(replyTo := Some(consumer))];
      deliveries := [];
      if inFlight[id].response != None {
        assert Receiver(id) == {consumer};
        deliveries := PushResponse(id);
      }
    }

    /** The answer of a waiting message is routed. */
    method RouteWaiting(consumer: Consumer, id: string, k: nat)
      requires Valid() && id !in inFlight && k == IndexOf(Contents(pending), id) && k < |pending| && pending[k].content.rpc
      modifies this`pending
      ensures Valid() && Abs() == QO.AwaitOne(old(Abs()), consumer, id, {}) && pending == old(pending)[k := old(pending)[k].(replyTo := Some(consumer))]
    {
      hide QueueInv, TallyOf, Shape, Lives, Balance, Ordered, LifeOf;
      QO.AwaitOneKeeps(Abs(), consumer, id, {});
      pending := pending[k := pending[k].(replyTo := Some(consumer))];
    }

    method AwaitOne(consumer: Consumer, id: string) returns (found: bool, deliveries: seq<Delivery>)
      requires Valid()
      modifies this`pending, this`inFlight, this`log
      ensures Valid() && found == Here(old(pending), old(inFlight), id)
      ensures Abs() == QO.AwaitOne(old(Abs()), consumer, id, old(ClosedAmong({consumer})))
      ensures old(log) <= log && deliveries == DeliveriesOf(Grown(old(log), log))
      ensures LineRouted(old(pending), pending, consumer, [id])
      ensures FlightRouted(old(inFlight), inFlight, consumer, [id], old(consumer.state) != Closed)
      ensures HandsReady(deliveries, name, old(inFlight), consumer, [id], old(consumer.state) != Closed)
    {
      hide QueueInv, TallyOf, LettersOf, DeliveriesOf, Grown, NoneEmpty, Counted, DeadLetterStore.Valid, LifeOf, IndexOf, Contents, QO.Awaitable, QO.AwaitOne, Here, LineRouted, FlightRouted, HandsReady;
      NothingHanded(log);
      OneAwaited(Abs(), consumer, id, ClosedAmong({consumer}), consumer.state != Closed);
      var k := FindPending(id);
      if id in inFlight {
        if !inFlight[id].content.rpc {
          return false, [];
        }
        deliveries := Route(consumer, id);
        found := true;
      } else {
        if k == |pending| || !pending[k].content.rpc {
          return false, [];
        }
        RouteWaiting(consumer, id, k);
        found, deliveries := true, [];
      }
    }

    /** Routes the answers of these messages to a consumer, handing over the ones already there. */
    method Await(consumer: Consumer, ids: seq<string>, now: int) returns (found: nat, deliveries: seq<Delivery>)
      requires Valid()
      modifies this
      ensures Valid() && Abs() == QO.Await(old(Abs()), consumer, ids, old(ClosedAmong({consumer})), now)
      ensures found == FoundAmong(old(pending), old(inFlight), ids, old(consumer.state) != Closed)
      ensures old(log) <= log && deliveries == DeliveriesOf(Grown(old(log), log))
      ensures LineRouted(old(pending), pending, consumer, ids)
      ensures FlightRouted(old(inFlight), inFlight, consumer, ids, old(consumer.state) != Closed)
      ensures HandsReady(deliveries, name, old(inFlight), consumer, ids, old(consumer.state) != Closed)
    {
      hide Valid, LettersOf, DeliveriesOf, Grown, QO.AwaitOne, QO.Awaitable, LineRouted, FlightRouted, HandsReady, FoundAmong, Here, Ready;
      forall k | 0 <= k < |pending| ensures pending[k].content.id !in inFlight {
        ValidSo();
        WaitingPlain(Abs(), k);
      }
      NothingHanded(log);
      RoutedNone(pending, inFlight, name, consumer, consumer.state != Closed);
      found, deliveries := 0, [];
      assert ids[..0] == [];
      for i := 0 to |ids|
        invariant Valid() && Abs() == QO.AwaitEach(old(Abs()), consumer, ids[..i], old(ClosedAmong({consumer})))
        invariant found == FoundAmong(old(pending), old(inFlight), ids[..i], old(consumer.state) != Closed)
        invariant old(log) <= log && deliveries == DeliveriesOf(Grown(old(log), log))
        invariant LineRouted(old(pending), pending, consumer, ids[..i])
        invariant FlightRouted(old(inFlight), inFlight, consumer, ids[..i], old(consumer.state) != Closed)
        invariant HandsReady(deliveries, name, old(inFlight), consumer, ids[..i], old(consumer.state) != Closed)
      {
        label before:
        assert ids[..i + 1][..i] == ids[..i];
        assert ClosedAmong({consumer}) == old(ClosedAmong({consumer}));
        var one, more := AwaitOne(consumer, ids[i]);
        GivenMore(old(log), old@before(log), log);
        assert ids[..i + 1] == ids[..i] + [ids[i]];
        StillHere(old(pending), old@before(pending), old(inFlight), old@before(inFlight), consumer, ids[..i], ids[i], old(consumer.state) != Closed);
        FoundOneMore(old(pending), old(inFlight), ids[..i], ids[i], old(consumer.state) != Closed);
        LineRoutedMore(old(pending), old@before(pending), pending, consumer, ids[..i], ids[i]);
        FlightRoutedMore(old(inFlight), old@before(inFlight), inFlight, consumer, ids[..i], ids[i], old(consumer.state) != Closed);
        HandsReadyMore(deliveries, more, name, old(inFlight), old@before(inFlight), consumer, ids[..i], ids[i], old(consumer.state) != Closed);
        found := found + if one then 1 else 0;
        deliveries := deliveries + more;
      }
      assert ids[..|ids|] == ids;
      TrackEmptiness(now);
    }

    /** The message goes back to the head of the line; the counters are still to be told. */
    method Rejoin(consumer: Consumer, id: string, now: int)
      requires Valid() && QO.Holds(Abs(), consumer, id) && settings.redeliver
      modifies this`pending, this`inFlight, this`emptySince, this`log
      ensures QueueInv(Abs()) && Abs() == PutBack(old(Abs()), old(inFlight)[id].(owner := None), Redelivered(id, consumer))
      ensures log == old(log) + [Redelivered(id, consumer)]
    {
      hide QueueInv, TallyOf, Bump, DeadLetterStore.Valid, QO.Abandon, LifeOf, PutBack, QO.Holds, Counted;
      GoesBack(consumer, id, now);
      var entry := inFlight[id].(owner := None);
      inFlight := inFlight - {id};
      pending := [entry] + pending;
      emptySince := None;
      log := log + [Redelivered(id, consumer)];
    }

    method Requeue(consumer: Consumer, id: string, now: int)
      requires Valid() && QO.Holds(Abs(), consumer, id) && settings.redeliver
      modifies this`pending, this`inFlight, this`emptySince, this`unconfirmed, this`redelivered, this`log
      ensures Valid() && Abs() == PutBack(old(Abs()), old(inFlight)[id].(owner := None), Redelivered(id, consumer))
    {
      hide QueueInv, TallyOf, Bump, DeadLetterStore.Valid, LifeOf, PutBack, QO.Holds;
      TallyRedelivered(log, id, consumer);
      Rejoin(consumer, id, now);
      unconfirmed := unconfirmed + 1;
      redelivered := redelivered + 1;
    }

    lemma GoesBack(consumer: Consumer, id: string, now: int)
      requires Valid() && QO.Holds(Abs(), consumer, id) && settings.redeliver
      ensures id in inFlight
      ensures var entry, e := inFlight[id].(owner := None), Redelivered(id, consumer);
              && QueueInv(PutBack(Abs(), entry, e))
              && PutBack(Abs(), entry, e) == Abs().(inFlight := inFlight - {id}, pending := [entry] + pending, emptySince := None, log := log + [e])
    {
      hide QueueInv, TallyOf, Bump, QO.Abandon, LifeOf;
      QO.PutBackOf(Abs(), consumer, id, now);
      QO.FlyingId(Abs(), id);
    }

    /** The message goes to the dead letters. */
    method GiveUp(consumer: Consumer, id: string, now: int)
      requires Valid() && QO.Holds(Abs(), consumer, id) && !settings.redeliver
      modifies this`inFlight, this`unconfirmed, this`log, deadLetters
      ensures Valid() && Abs() == QO.Abandon(old(Abs()), consumer, id, now) && Told()
      ensures DeliveriesOf(Grown(old(log), log)) == [] && forall c :: GivenTo(Grown(old(log), log), c) == None
      ensures var e := old(inFlight)[id]; log == old(log) + [Buried(DeadLetter(name, e.content, Unconfirmed, e.born, now, Some(consumer)))]
    {
      hide QueueInv, TallyOf, Bump, LettersOf, DeliveriesOf, GivenTo, Grown, AddAll, AddLetter, NoneEmpty, Shape, Lives, Balance, Ordered, LifeOf;
      QO.AbandonKeeps(Abs(), consumer, id, now);
      QO.FlyingId(Abs(), id);
      var letter := DeadLetter(name, inFlight[id].content, Unconfirmed, inFlight[id].born, now, Some(consumer));
      TallyBuried(log, letter);
      ToldOne(log, Buried(letter), deadLetters.byQueue, settings);
      inFlight := inFlight - {id};
      unconfirmed := unconfirmed + 1;
      log := log + [Buried(letter)];
      deadLetters.Add(letter, settings.letterLimit, settings.letterMaxAge);
      NothingHanded(old(log));
      NoneGiven(old(log));
      GrownByOne(old(log), old(log), Buried(letter));
    }

    /** The consumer went away holding this message. */
    method Abandon(consumer: Consumer, id: string, now: int) returns (deliveries: seq<Delivery>)
      requires Valid()
      modifies this, deadLetters, Bound()`state, (Bound() + {consumer})`current, Bound()`lastQueue
      ensures Valid() && SameLine()
      ensures Abs() ==
              if !QO.Holds(old(Abs()), consumer, id) then old(Abs())
              else if settings.redeliver then QO.Track(QO.Dispatch(QO.Abandon(old(Abs()), consumer, id, now), old(FreeOnes()), now), now)
              else QO.Track(QO.Abandon(old(Abs()), consumer, id, now), now)
      ensures Told() && deliveries == DeliveriesOf(Grown(old(log), log))
      ensures Handed(old(Bound()) - {consumer})
      ensures GivenTo(Grown(old(log), log), consumer) == None ==>
                consumer.current == if QO.Holds(old(Abs()), consumer, id) then None else old(consumer.current)
    {
      hide Valid, LettersOf, DeliveriesOf, GivenTo, Grown, AddAll, QO.Dispatch, QO.Abandon;
      NothingHanded(log);
      NoneGiven(log);
      NothingTold();
      deliveries := [];
      if id !in inFlight || inFlight[id].owner != Some(consumer) {
        return;
      }
      consumer.current := None;
      if !settings.redeliver {
        GiveUp(consumer, id, now);
      } else {
        GrownByOne(log, log, Redelivered(id, consumer));
        QO.PutBackIs(Abs(), consumer, id, now);
        Requeue(consumer, id, now);
        assert FreeOnes() == old(FreeOnes()) && Bound() == old(Bound());
        label back:
        deliveries := Dispatch(now);
        GivenMore(old(log), old@back(log), log);
        ToldMore(old(log), old@back(log), log, old(deadLetters.byQueue), settings);
      }
      TrackEmptiness(now);
    }

    /** Throws away every pending message. */
    method Purge(now: int) returns (count: nat)
      requires Valid()
      modifies this
      ensures Valid() && SameLine() && Abs() == QO.Track(QO.Purge(old(Abs())), now) && count == |old(pending)|
    {
      hide QueueInv, TallyOf, QO.Purge, Shape, Lives, Balance, Ordered, LifeOf;
      count := |pending|;
      QO.PurgeKeeps(Abs());
      PurgeCounts(Abs());
      log := QO.Purge(Abs()).log;
      pending := [];
      purged := purged + count;
      TrackEmptiness(now);
    }

    /** Discards what expired or outlived the retention and reports whether the queue itself can be let go. */
    method Sweep(now: int) returns (gone: bool, ghost order: seq<string>)
      requires Valid()
      modifies this, deadLetters
      ensures Valid() && Abs() == QO.Sweep(old(Abs()), order, now) && gone == removed
      ensures forall id :: id in order <==> id in old(inFlight)
      ensures Told()
    {
      hide Valid, LettersOf, Grown, AddAll, QO.SweepLine, QO.SweepFlight, QueueInv, Shape, Lives, Balance, Ordered, LifeOf;
      NothingTold();
      var i := 0;
      while i < |pending|
        invariant i <= |pending| && Valid() && SameLine() && Told() && inFlight == old(inFlight) && removed == old(removed)
        invariant QO.SweepLine(Abs(), i, now) == QO.SweepLine(old(Abs()), 0, now)
        decreases |pending| - i
      {
        label before:
        SweepStep(Abs(), i, now);
        var dead := BuryIfDead(i, now);
        ToldMore(old(log), old@before(log), log, old(deadLetters.byQueue), settings);
        if !dead {
          i := i + 1;
        }
      }
      SweepEnd(Abs(), i, now);
      order := SweepInFlight(now, old(log));
      TrackEmptiness(now);
      RetireIfIdle(now);
      gone := removed;
    }

    method RetireIfIdle(now: int)
      requires Valid()
      modifies this`removed
      ensures Valid() && Abs() == QO.Retire(old(Abs()), now)
      ensures removed <==> old(removed) || (consumers == [] && emptySince.Some? && now - emptySince.value > settings.emptyLifetime)
    {
      hide QueueInv, TallyOf, Shape, Lives, Balance, Ordered, LifeOf;
      QO.RetireKeeps(Abs(), now);
      if |consumers| == 0 && emptySince.Some? && now - emptySince.value > settings.emptyLifetime {
        removed := true;
      }
    }

    method SweepInFlight(now: int, ghost start: seq<Happening<Consumer>>) returns (ghost order: seq<string>)
      requires Valid() && start <= log
      modifies this`inFlight, this`dropped, this`log
      ensures Valid() && Abs() == QO.SweepFlight(old(Abs()), order, now)
      ensures forall id :: id in order <==> id in old(inFlight)
      ensures start <= log && LettersOf(Grown(start, log)) == LettersOf(Grown(start, old(log)))
    {
      hide Valid, LettersOf, Grown, QO.Stale;
      var left := inFlight.Keys;
      order := [];
      while left != {}
        invariant Valid() && Abs() == QO.SweepFlight(old(Abs()), order, now) && settings == old(settings)
        invariant forall id :: id in left ==> id in inFlight
        invariant forall id :: id in order || id in left <==> id in old(inFlight)
        invariant forall id :: id in order ==> id !in left
        invariant start <= log && LettersOf(Grown(start, log)) == LettersOf(Grown(start, old(log)))
        decreases left
      {
        var id :| id in left;
        assert (order + [id])[..|order|] == order;
        order := order + [id];
        left := left - {id};
        DropIfStale(id, now, start);
      }
    }

    /** A message in flight is given up. */
    method Drop(id: string, now: int)
      requires Valid() && id in inFlight && QO.Stale(inFlight[id], settings, now)
      modifies this`inFlight, this`dropped, this`log
      ensures Valid() && Abs() == Land(old(Abs()), id, Dropped(id)) && log == old(log) + [Dropped(id)]
    {
      hide QueueInv, TallyOf, DeadLetterStore.Valid, LifeOf;
      QO.DropStaleKeeps(Abs(), Abs(), id, now);
      TallyAfter(log, Dropped(id));
      inFlight := inFlight - {id};
      dropped := dropped + 1;
      log := log + [Dropped(id)];
    }

    method DropIfStale(id: string, now: int, ghost start: seq<Happening<Consumer>>)
      requires Valid() && start <= log && id in inFlight
      modifies this`inFlight, this`dropped, this`log
      ensures Valid()
      ensures Abs() == if QO.Stale(old(inFlight)[id], settings, now) then Land(old(Abs()), id, Dropped(id)) else old(Abs())
      ensures start <= log && LettersOf(Grown(start, log)) == LettersOf(Grown(start, old(log)))
    {
      hide QueueInv, TallyOf, LettersOf, DeliveriesOf, Grown, NoneEmpty, Shape, Lives, Balance, Ordered, LifeOf;
      var entry := inFlight[id];
      if entry.owner == None {
        var since := if entry.response == None then entry.born else entry.answeredAt;
        if now - since > settings.retention {
          GrownByOne(start, log, Dropped(id));
          Drop(id, now);
        }
      }
    }

    // ------------------------------------------------------------ the store

    twostate lemma NothingTold()
      requires log == old(log) && deadLetters.byQueue == old(deadLetters.byQueue)
      ensures Told()
    {
    }
  }

  lemma WaitingPlain(q: Queue<Consumer>, k: nat)
    requires QueueInv(q) && k < |q.pending|
    ensures IndexOf(Contents(q.pending), q.pending[k].content.id) == k
    ensures q.pending[k].owner == None && q.pending[k].response == None && q.pending[k].content.id !in q.inFlight
  {
    hide Lives, Balance, Ordered;
    var at := IndexOf(Contents(q.pending), q.pending[k].content.id);
    assert Contents(q.pending)[k].id == q.pending[k].content.id;
  }

  /** What routing one answer comes to, case by case. */
  lemma OneAwaited(q: Queue<Consumer>, consumer: Consumer, id: string, closed: set<Consumer>, open: bool)
    requires QueueInv(q)
    ensures var k := IndexOf(Contents(q.pending), id);
            && k <= |q.pending|
            && (id in q.inFlight && !q.inFlight[id].content.rpc ==>
                  !Here(q.pending, q.inFlight, id) && QO.AwaitOne(q, consumer, id, closed) == q
                  && LineRouted(q.pending, q.pending, consumer, [id]) && FlightRouted(q.inFlight, q.inFlight, consumer, [id], open)
                  && HandsReady([], q.name, q.inFlight, consumer, [id], open))
            && (id in q.inFlight && q.inFlight[id].content.rpc ==>
                  var e := q.inFlight[id];
                  && Here(q.pending, q.inFlight, id) && LineRouted(q.pending, q.pending, consumer, [id])
                  && (if e.response.Some? && open
                      then FlightRouted(q.inFlight, q.inFlight - {id}, consumer, [id], open)
                           && HandsReady([Delivery(consumer, BrokerMessage(q.name, e.content, e.response), true)], q.name, q.inFlight, consumer, [id], open)
                      else FlightRouted(q.inFlight, q.inFlight[id := e.(replyTo := Some(consumer))], consumer, [id], open)
                           && HandsReady([], q.name, q.inFlight, consumer, [id], open)))
            && (id !in q.inFlight ==>
                  && FlightRouted(q.inFlight, q.inFlight, consumer, [id], open) && HandsReady([], q.name, q.inFlight, consumer, [id], open)
                  && (if k < |q.pending| && q.pending[k].content.rpc
                      then Here(q.pending, q.inFlight, id) && QO.AwaitOne(q, consumer, id, closed) == QO.AwaitOne(q, consumer, id, {})
                           && LineRouted(q.pending, q.pending[k := q.pending[k].(replyTo := Some(consumer))], consumer, [id])
                      else !Here(q.pending, q.inFlight, id) && QO.AwaitOne(q, consumer, id, closed) == q && LineRouted(q.pending, q.pending, consumer, [id])))
  {
    hide QueueInv, QO.Send, LineRouted, FlightRouted, HandsReady, IndexOf, Contents;
    var k := WaitsAt(q, id);
    if id in q.inFlight {
      QO.FlyingId(q, id);
      OneFlying(q.inFlight, q.name, consumer, id, open);
      LineUntouched(q.pending, consumer, id);
    } else {
      OneFlying(q.inFlight, q.name, consumer, id, open);
      if k < |q.pending| {
        LineTouched(q.pending, consumer, id, k);
      } else {
        LineUntouched(q.pending, consumer, id);
      }
    }
  }

  lemma WaitsAt(q: Queue<Consumer>, id: string) returns (k: nat)
    requires QueueInv(q)
    ensures k == IndexOf(Contents(q.pending), id) <= |q.pending|
    ensures forall j :: 0 <= j < |q.pending| ==> (q.pending[j].content.id == id <==> j == k)
    ensures k < |q.pending| ==> id !in q.inFlight
  {
    hide Lives, Balance, Ordered, IndexOf;
    k := IndexOf(Contents(q.pending), id);
    forall j | 0 <= j < |q.pending| && q.pending[j].content.id == id ensures j == k && id !in q.inFlight {
      WaitingPlain(q, j);
    }
    if k < |q.pending| {
      assert Contents(q.pending)[k].id == id;
    }
  }

  lemma LineUntouched(line: seq<Entry<Consumer>>, consumer: Consumer, id: string)
    requires forall j :: 0 <= j < |line| ==> line[j].content.id == id ==> !line[j].content.rpc
    ensures LineRouted(line, line, consumer, [id])
  {
  }

  lemma LineTouched(line: seq<Entry<Consumer>>, consumer: Consumer, id: string, k: nat)
    requires k < |line| && forall j :: 0 <= j < |line| ==> (line[j].content.id == id <==> j == k)
    ensures LineRouted(line, if line[k].content.rpc then line[k := line[k].(replyTo := Some(consumer))] else line, consumer, [id])
  {
  }

  lemma OneFlying(inFlight: map<string, Entry<Consumer>>, name: string, consumer: Consumer, id: string, open: bool)
    requires id in inFlight ==> inFlight[id].content.id == id
    ensures id !in inFlight || !inFlight[id].content.rpc ==>
              FlightRouted(inFlight, inFlight, consumer, [id], open) && HandsReady([], name, inFlight, consumer, [id], open)
    ensures id in inFlight && inFlight[id].content.rpc ==>
              var e := inFlight[id];
              if e.response.Some? && open
              then FlightRouted(inFlight, inFlight - {id}, consumer, [id], open)
                   && HandsReady([Delivery(consumer, BrokerMessage(name, e.content, e.response), true)], name, inFlight, consumer, [id], open)
              else FlightRouted(inFlight, inFlight[id := e.(replyTo := Some(consumer))], consumer, [id], open)
                   && HandsReady([], name, inFlight, consumer, [id], open)
  {
    hide HandsReady;
    if id in inFlight && Ready(inFlight[id]) && open {
      HandsOneReady([Delivery(consumer, BrokerMessage(name, inFlight[id].content, inFlight[id].response), true)], name, inFlight, consumer, id, open);
    } else {
      HandsOneReady([], name, inFlight, consumer, id, open);
    }
  }

  lemma {:induction false} PurgeCounts(q: Queue<Consumer>)
    ensures TallyOf(QO.Purge(q).log) == TallyOf(q.log).(purged := TallyOf(q.log).purged + |q.pending|)
    decreases |q.pending|
  {
    hide TallyOf;
    if q.pending != [] {
      TallyAfter(q.log, Purged(q.pending[0].content.id));
      PurgeCounts(LeaveLine(q, 0, Purged(q.pending[0].content.id)));
    }
  }

  lemma SweepStep(q: Queue<Consumer>, i: nat, now: int)
    requires i < |q.pending|
    ensures QO.SweepLine(q, i, now) ==
            if QO.DeadReason(q.pending[i], q.settings, now).Some? then QO.SweepLine(QO.Bury(q, i, now), i, now) else QO.SweepLine(q, i + 1, now)
  {
  }

  lemma SweepEnd(q: Queue<Consumer>, i: nat, now: int)
    requires i == |q.pending|
    ensures QO.SweepLine(q, i, now) == q
  {
  }

  lemma ToldOne(log: seq<Happening<Consumer>>, e: Happening<Consumer>, store: Letters<Consumer>, s: Settings)
    requires e.Buried?
    ensures AddAll(store, LettersOf(Grown(log, log + [e])), s.letterLimit, s.letterMaxAge) == AddLetter(store, e.letter, s.letterLimit, s.letterMaxAge)
  {
    hide AddLetter;
    assert Grown(log, log + [e]) == [e];
    HandsOne(e);
    assert LettersOf([e]) == [e.letter];
    assert [e.letter][..0] == [];
  }

  lemma {:induction false} LettersAppended(a: seq<Happening<Consumer>>, b: seq<Happening<Consumer>>)
    ensures LettersOf(a + b) == LettersOf(a) + LettersOf(b)
  {
    if b == [] {
      assert a + b == a;
    } else {
      assert (a + b)[..|a + b| - 1] == a + b[..|b| - 1];
      LettersAppended(a, b[..|b| - 1]);
    }
  }

  lemma NoLettersMore(a: seq<Happening<Consumer>>, b: seq<Happening<Consumer>>, c: seq<Happening<Consumer>>)
    requires a <= b <= c && LettersOf(Grown(b, c)) == []
    ensures LettersOf(Grown(a, c)) == LettersOf(Grown(a, b))
  {
    assert Grown(a, c) == Grown(a, b) + Grown(b, c);
    LettersAppended(Grown(a, b), Grown(b, c));
  }

  lemma ToldMore(a: seq<Happening<Consumer>>, b: seq<Happening<Consumer>>, c: seq<Happening<Consumer>>, store: Letters<Consumer>, s: Settings)
    requires a <= b <= c
    ensures AddAll(AddAll(store, LettersOf(Grown(a, b)), s.letterLimit, s.letterMaxAge), LettersOf(Grown(b, c)), s.letterLimit, s.letterMaxAge)
         == AddAll(store, LettersOf(Grown(a, c)), s.letterLimit, s.letterMaxAge)
  {
    assert Grown(a, c) == Grown(a, b) + Grown(b, c);
    LettersAppended(Grown(a, b), Grown(b, c));
    AddAllAppended(store, LettersOf(Grown(a, b)), LettersOf(Grown(b, c)), s.letterLimit, s.letterMaxAge);
  }
}
