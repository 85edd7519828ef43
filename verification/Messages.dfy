/** What a queue holds, and what can happen to it, whatever stands for a consumer. */
module Messages {
  import opened Options

  /** What was published. It never changes afterwards. */
  datatype Content = Content(id: string, body: string, rpc: bool, requeuedFrom: Option<string>)

  /** A message as it is handed out. */
  datatype BrokerMessage = BrokerMessage(queue: string, content: Content, response: Option<string>)

  datatype Reason = Expired | NotConsumed | Unconfirmed

  datatype DeadLetter<C> = DeadLetter(queue: string, content: Content, reason: Reason, publishedAt: int, diedAt: int, consumer: Option<C>)

  /** The settings of one queue with the broker defaults already applied. */
  datatype Settings = Settings(retention: int, emptyLifetime: int, letterLimit: int, letterMaxAge: int, redeliver: bool, paused: bool)

  datatype Entry<C> = Entry(content: Content, ttl: int, born: int, response: Option<string>, answeredAt: int, owner: Option<C>, replyTo: Option<C>)

  /** Everything that can happen to a message of a queue. The history of a queue is a sequence of these. */
  datatype Happening<C> =
    | Published(content: Content)
    | Taken(message: BrokerMessage)
    | Pushed(message: BrokerMessage, receiver: C)
    | Confirmed(id: string, consumer: C)
    | Answered(held: Content, consumer: C)
    | MovedAside(id: string)
    | Stored(id: string, response: string, first: bool)
    | Sent(message: BrokerMessage, receiver: C)
    | Collected(message: BrokerMessage)
    | Redelivered(id: string, consumer: C)
    | Buried(letter: DeadLetter<C>)
    | Purged(id: string)
    | Dropped(id: string)
  {
    function Id(): string {
      match this
      case Published(content) => content.id
      case Taken(message) => message.content.id
      case Pushed(message, _) => message.content.id
      case Answered(held, _) => held.id
      case Sent(message, _) => message.content.id
      case Collected(message) => message.content.id
      case Buried(letter) => letter.content.id
      case _ => id
    }

    /** The message is handed to somebody. */
    predicate Delivers() { Taken? || Pushed? }

    /** The answer is handed to somebody. */
    predicate HandsAnswer() { Sent? || Collected? }
  }

  // ------------------------------------------------------------ the life of one message

  datatype End = HandedOut | Settled | AnswerHanded | Dead(reason: Reason) | ThrownAway | GivenUp

  datatype Life<C> =
    | Unborn
    | Waiting(content: Content)
    | Held(content: Content, holder: C)
    | Out(content: Content, answer: Option<string>)
    | Over(end: End)

  /** What becomes of a message when something happens to it; None when that cannot happen to it then. */
  ghost function Advance<C>(life: Life<C>, e: Happening<C>): Option<Life<C>> {
    match (life, e)
    case (Unborn, Published(content)) => Some(Waiting(content))
    case (Waiting(content), Taken(m)) =>
      if m.content != content || m.response != None then None
      else if content.rpc then Some(Out(content, None)) else Some(Over(HandedOut))
    case (Waiting(content), Pushed(m, receiver)) =>
      if m.content != content || m.response != None then None else Some(Held(content, receiver))
    case (Waiting(content), MovedAside(_)) => Some(Out(content, None))
    case (Waiting(content), Buried(letter)) =>
      if letter.content != content || letter.reason == Unconfirmed then None else Some(Over(Dead(letter.reason)))
    case (Waiting(_), Purged(_)) => Some(Over(ThrownAway))
    case (Held(content, holder), Confirmed(_, c)) => if c == holder then Some(Over(Settled)) else None
    case (Held(content, holder), Answered(held, c)) =>
      if c != holder || held != content then None
      else if content.rpc then Some(Out(content, None)) else Some(Over(Settled))
    case (Held(content, holder), Redelivered(_, c)) => if c == holder then Some(Waiting(content)) else None
    case (Held(content, holder), Buried(letter)) =>
      if letter.content != content || letter.reason != Unconfirmed || letter.consumer != Some(holder) then None else Some(Over(Dead(Unconfirmed)))
    case (Out(content, answer), Stored(_, response, first)) =>
      if first == (answer == None) then Some(Out(content, Some(response))) else None
    case (Out(content, answer), Sent(m, _)) =>
      if answer == None || m.content != content || m.response != answer then None else Some(Over(AnswerHanded))
    case (Out(content, answer), Collected(m)) =>
      if answer == None || m.content != content || m.response != answer then None else Some(Over(AnswerHanded))
    case (Out(_, _), Dropped(_)) => Some(Over(GivenUp))
    case _ => None
  }

  /** The life of one message after everything in a history; None when the history does not make sense for it. */
  ghost function LifeOf<C>(log: seq<Happening<C>>, id: string): Option<Life<C>> {
    if log == [] then Some(Unborn)
    else
      var before, e := LifeOf(log[..|log| - 1], id), log[|log| - 1];
      if before == None || e.Id() != id then before else Advance(before.value, e)
  }

  lemma LifeAfter<C>(log: seq<Happening<C>>, e: Happening<C>, id: string)
    ensures LifeOf(log + [e], id) ==
            if LifeOf(log, id) == None || e.Id() != id then LifeOf(log, id) else Advance(LifeOf(log, id).value, e)
  {
    assert (log + [e])[..|log|] == log;
  }

  /** The part of a history about one message. */
  ghost function About<C>(log: seq<Happening<C>>, id: string): seq<Happening<C>> {
    if log == [] then []
    else About(log[..|log| - 1], id) + if log[|log| - 1].Id() == id then [log[|log| - 1]] else []
  }

  ghost function Deliveries<C>(log: seq<Happening<C>>, id: string): nat {
    if log == [] then 0
    else Deliveries(log[..|log| - 1], id) + if log[|log| - 1].Id() == id && log[|log| - 1].Delivers() then 1 else 0
  }

  ghost function Redeliveries<C>(log: seq<Happening<C>>, id: string): nat {
    if log == [] then 0
    else Redeliveries(log[..|log| - 1], id) + if log[|log| - 1].Id() == id && log[|log| - 1].Redelivered? then 1 else 0
  }

  ghost function AnswersHanded<C>(log: seq<Happening<C>>, id: string): nat {
    if log == [] then 0
    else AnswersHanded(log[..|log| - 1], id) + if log[|log| - 1].Id() == id && log[|log| - 1].HandsAnswer() then 1 else 0
  }

  /** A message is delivered at most once, plus once for every time it was put back. */
  lemma {:induction false} DeliveredOnce<C>(log: seq<Happening<C>>, id: string)
    requires LifeOf(log, id).Some?
    ensures Deliveries(log, id) <= 1 + Redeliveries(log, id)
    ensures LifeOf(log, id).value.Waiting? ==> Deliveries(log, id) == Redeliveries(log, id)
    ensures LifeOf(log, id).value.Held? ==> Deliveries(log, id) == 1 + Redeliveries(log, id)
    ensures LifeOf(log, id).value.Unborn? ==> Deliveries(log, id) == 0 == Redeliveries(log, id)
  {
    if log != [] {
      var init, e := log[..|log| - 1], log[|log| - 1];
      DeliveredOnce(init, id);
    }
  }

  /** The last answer written for a message. */
  ghost function LastStored<C>(log: seq<Happening<C>>, id: string): Option<string> {
    if log == [] then None
    else
      var e := log[|log| - 1];
      if e.Stored? && e.id == id then Some(e.response) else LastStored(log[..|log| - 1], id)
  }

  /** Every answer handed over is the last one written for its message. */
  ghost predicate HandsLastAnswer<C>(log: seq<Happening<C>>, id: string) {
    log == [] ||
    (var init, e := log[..|log| - 1], log[|log| - 1];
     HandsLastAnswer(init, id) && (e.Id() == id && e.HandsAnswer() ==> e.message.response == LastStored(init, id) && LastStored(init, id) != None))
  }

  /** An answer is handed over at most once, pushed or collected, and it is the last one written. */
  lemma {:induction false} AnswerHandedOnce<C>(log: seq<Happening<C>>, id: string)
    requires LifeOf(log, id).Some?
    ensures AnswersHanded(log, id) <= 1 && HandsLastAnswer(log, id)
    ensures AnswersHanded(log, id) == 1 <==> LifeOf(log, id).value == Over(AnswerHanded)
    ensures LifeOf(log, id).value.Out? ==> LastStored(log, id) == LifeOf(log, id).value.answer
    ensures LifeOf(log, id).value.Unborn? || LifeOf(log, id).value.Waiting? || LifeOf(log, id).value.Held? ==> LastStored(log, id) == None
  {
    if log != [] {
      var init, e := log[..|log| - 1], log[|log| - 1];
      AnswerHandedOnce(init, id);
    }
  }

  /** A message whose life is over stays so: nothing more can happen to it. */
  lemma {:induction false} OverIsFinal<C>(log: seq<Happening<C>>, more: seq<Happening<C>>, id: string)
    requires LifeOf(log, id).Some? && LifeOf(log, id).value.Over? && LifeOf(log + more, id).Some?
    ensures LifeOf(log + more, id) == LifeOf(log, id) && About(log + more, id) == About(log, id)
  {
    if more == [] {
      assert log + more == log;
    } else {
      var init, e := more[..|more| - 1], more[|more| - 1];
      assert log + more == (log + init) + [e];
      LifeAfter(log + init, e, id);
      OverIsFinal(log, init, id);
      assert ((log + init) + [e])[..|log + init|] == log + init;
    }
  }

  // ------------------------------------------------------------ counting what happened

  /** The counters of a queue, and what it does not count but its history tells. */
  datatype Tally = Tally(
    published: nat, delivered: nat, confirmed: nat, responded: nat, redelivered: nat,
    expired: nat, notConsumed: nat, unconfirmed: nat, dropped: nat, purged: nat,
    pushed: nat, takenRpc: nat, moved: nat, settled: nat, sent: nat, collected: nat)

  const NOTHING := Tally(0, 0, 0, 0, 0, 0, 0, 0, 0, 0, 0, 0, 0, 0, 0, 0)

  ghost function Bump<C>(t: Tally, e: Happening<C>): Tally {
    match e
    case Published(_) => t.(published := t.published + 1)
    case Taken(m) => t.(delivered := t.delivered + 1, takenRpc := t.takenRpc + if m.content.rpc then 1 else 0)
    case Pushed(_, _) => t.(delivered := t.delivered + 1, pushed := t.pushed + 1)
    case Confirmed(_, _) => t.(confirmed := t.confirmed + 1, settled := t.settled + 1)
    case Answered(held, _) => t.(confirmed := t.confirmed + 1, settled := t.settled + if held.rpc then 0 else 1)
    case MovedAside(_) => t.(moved := t.moved + 1)
    case Stored(_, _, first) => t.(responded := t.responded + if first then 1 else 0)
    case Sent(_, _) => t.(sent := t.sent + 1)
    case Collected(_) => t.(collected := t.collected + 1)
    case Redelivered(_, _) => t.(unconfirmed := t.unconfirmed + 1, redelivered := t.redelivered + 1)
    case Buried(letter) =>
      (match letter.reason
       case Expired => t.(expired := t.expired + 1)
       case NotConsumed => t.(notConsumed := t.notConsumed + 1)
       case Unconfirmed => t.(unconfirmed := t.unconfirmed + 1))
    case Purged(_) => t.(purged := t.purged + 1)
    case Dropped(_) => t.(dropped := t.dropped + 1)
  }

  ghost function TallyOf<C>(log: seq<Happening<C>>): Tally {
    if log == [] then NOTHING else Bump(TallyOf(log[..|log| - 1]), log[|log| - 1])
  }

  lemma TallyAfter<C>(log: seq<Happening<C>>, e: Happening<C>)
    ensures TallyOf(log + [e]) == Bump(TallyOf(log), e)
  {
    assert (log + [e])[..|log|] == log;
  }

  datatype Counter =
    | OfPublished | OfDelivered | OfConfirmed | OfResponded | OfRedelivered
    | OfExpired | OfNotConsumed | OfUnconfirmed | OfDropped | OfPurged

  /**
   * What a counter counts. A message settled by its answer counts as confirmed, one put back as unconfirmed
   * and as redelivered, and of several answers to a message only the first.
   */
  ghost predicate Counts<C>(counter: Counter, e: Happening<C>) {
    match counter
    case OfPublished => e.Published?
    case OfDelivered => e.Taken? || e.Pushed?
    case OfConfirmed => e.Confirmed? || e.Answered?
    case OfResponded => e.Stored? && e.first
    case OfRedelivered => e.Redelivered?
    case OfExpired => e.Buried? && e.letter.reason == Expired
    case OfNotConsumed => e.Buried? && e.letter.reason == NotConsumed
    case OfUnconfirmed => e.Redelivered? || (e.Buried? && e.letter.reason == Unconfirmed)
    case OfDropped => e.Dropped?
    case OfPurged => e.Purged?
  }

  ghost function Counted(t: Tally, counter: Counter): nat {
    match counter
    case OfPublished => t.published
    case OfDelivered => t.delivered
    case OfConfirmed => t.confirmed
    case OfResponded => t.responded
    case OfRedelivered => t.redelivered
    case OfExpired => t.expired
    case OfNotConsumed => t.notConsumed
    case OfUnconfirmed => t.unconfirmed
    case OfDropped => t.dropped
    case OfPurged => t.purged
  }

  ghost function Times<C>(log: seq<Happening<C>>, counter: Counter): nat {
    if log == [] then 0 else Times(log[..|log| - 1], counter) + if Counts(counter, log[|log| - 1]) then 1 else 0
  }

  lemma BumpCounts<C>(t: Tally, e: Happening<C>, counter: Counter)
    ensures Counted(Bump(t, e), counter) == Counted(t, counter) + if Counts(counter, e) then 1 else 0
  {
  }

  /** Every counter tells how often what it counts is in the history. */
  lemma {:induction false} CountersCount<C>(log: seq<Happening<C>>, counter: Counter)
    ensures Counted(TallyOf(log), counter) == Times(log, counter)
  {
    hide Bump, Counts, Counted;
    if log == [] {
      NothingCounted(counter);
    } else {
      CountersCount(log[..|log| - 1], counter);
      BumpCounts(TallyOf(log[..|log| - 1]), log[|log| - 1], counter);
    }
  }

  lemma NothingCounted(counter: Counter)
    ensures Counted(NOTHING, counter) == 0
  {
  }

  // ------------------------------------------------------------ the order of publication

  ghost function Births<C>(log: seq<Happening<C>>): nat { TallyOf(log).published }

  /** How many messages were published before this one. */
  ghost function Rank<C>(log: seq<Happening<C>>, id: string): nat {
    if log == [] then 0
    else if log[|log| - 1].Published? && log[|log| - 1].Id() == id then Births(log[..|log| - 1])
    else Rank(log[..|log| - 1], id)
  }

  ghost predicate WasDelivered<C>(log: seq<Happening<C>>, id: string) {
    log != [] && (WasDelivered(log[..|log| - 1], id) || (log[|log| - 1].Delivers() && log[|log| - 1].Id() == id))
  }

  /** The messages delivered, each where it was delivered for the first time. */
  ghost function FirstDeliveries<C>(log: seq<Happening<C>>): seq<string> {
    if log == [] then []
    else
      var init, e := log[..|log| - 1], log[|log| - 1];
      FirstDeliveries(init) + if e.Delivers() && !WasDelivered(init, e.Id()) then [e.Id()] else []
  }

  lemma DeliveredAfter<C>(log: seq<Happening<C>>, e: Happening<C>, id: string)
    ensures WasDelivered(log + [e], id) <==> WasDelivered(log, id) || (e.Delivers() && e.Id() == id)
    ensures Rank(log + [e], id) == if e.Published? && e.Id() == id then Births(log) else Rank(log, id)
    ensures FirstDeliveries(log + [e]) == FirstDeliveries(log) + if e.Delivers() && !WasDelivered(log, e.Id()) then [e.Id()] else []
  {
    assert (log + [e])[..|log|] == log;
  }

  /** Messages are delivered for the first time in the order they were published in. */
  ghost predicate InOrder<C>(log: seq<Happening<C>>) {
    forall i, j :: 0 <= i < j < |FirstDeliveries(log)| ==> Rank(log, FirstDeliveries(log)[i]) < Rank(log, FirstDeliveries(log)[j])
  }

  lemma {:induction false} DeliveredIsListed<C>(log: seq<Happening<C>>, id: string)
    ensures WasDelivered(log, id) <==> id in FirstDeliveries(log)
  {
    if log != [] {
      DeliveredIsListed(log[..|log| - 1], id);
      DeliveredIsListed(log[..|log| - 1], log[|log| - 1].Id());
    }
  }

  /** A message that was published was published before whatever is published next. */
  lemma {:induction false} RankIsPast<C>(log: seq<Happening<C>>, id: string)
    requires LifeOf(log, id).Some? && !LifeOf(log, id).value.Unborn?
    ensures Rank(log, id) < Births(log)
  {
    var init, e := log[..|log| - 1], log[|log| - 1];
    if !(e.Published? && e.Id() == id) {
      RankIsPast(init, id);
    }
  }

  /** Only what was published is delivered. */
  lemma {:induction false} DeliveredWasBorn<C>(log: seq<Happening<C>>, id: string)
    requires LifeOf(log, id).Some?
    ensures WasDelivered(log, id) ==> !LifeOf(log, id).value.Unborn? 
    ensures WasDelivered(log, id) <==> Deliveries(log, id) > 0
  {
    if log != [] {
      var init, e := log[..|log| - 1], log[|log| - 1];
      DeliveredWasBorn(init, id);
    }
  }

  /** With nothing put back, the whole history of deliveries is an ordered part of the publications. */
  ghost function AllDeliveries<C>(log: seq<Happening<C>>): seq<string> {
    if log == [] then []
    else AllDeliveries(log[..|log| - 1]) + if log[|log| - 1].Delivers() then [log[|log| - 1].Id()] else []
  }

  lemma {:induction false} NoneDeliveredAgain<C>(log: seq<Happening<C>>)
    requires forall id :: LifeOf(log, id).Some?
    requires TallyOf(log).redelivered == 0
    ensures AllDeliveries(log) == FirstDeliveries(log)
  {
    if log != [] {
      var init, e := log[..|log| - 1], log[|log| - 1];
      forall id ensures LifeOf(init, id).Some? {
        assert LifeOf(log, id).Some?;
      }
      NoneDeliveredAgain(init);
      if e.Delivers() && WasDelivered(init, e.Id()) {
        assert LifeOf(log, e.Id()).Some?;
        DeliveredOnce(init, e.Id());
        DeliveredWasBorn(init, e.Id());
        NonePutBack(init, e.Id());
        assert false;
      }
    }
  }

  lemma {:induction false} NonePutBack<C>(log: seq<Happening<C>>, id: string)
    requires TallyOf(log).redelivered == 0
    ensures Redeliveries(log, id) == 0
  {
    if log != [] {
      var init, e := log[..|log| - 1], log[|log| - 1];
      NonePutBack(init, id);
    }
  }
}
