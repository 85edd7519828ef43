/**
 * The way of a package from one environment to another: in parts, over requests and answers that may be
 * lost or late, with attempts that are given up, begun again and overlap.
 */
module Transfers {
  import opened Options

  type Bytes = seq<bv8>

  const PART_SIZE: nat := 4 * 1024 * 1024
  const MAX_PACKAGE: nat := 512 * 1024 * 1024

  /** What one environment has of a package that another one is sending: what came so far, and the package. */
  datatype Door = Door(part: Option<Bytes>, here: Option<Bytes>)

  function Arrived(d: Door): Bytes {
    if d.part.Some? then d.part.value else []
  }

  /** A part has to begin where the rest ended; one that begins at the start begins the whole over. */
  function WithPart(d: Door, offset: nat, body: Bytes): (Door, bool) {
    var d1 := if offset == 0 && Arrived(d) != [] then d.(part := None) else d;
    if offset != |Arrived(d1)| || |Arrived(d1)| + |body| > MAX_PACKAGE then (d1, false)
    else (d1.(part := Some(Arrived(d1) + body)), true)
  }

  datatype Reply = AlreadyHere | Taken | NotTaken

  /** What came is compared with what was sent, and taken in unless the package itself is not welcome. */
  function Completed(d: Door, size: nat, digest: Bytes, welcome: bool): (Door, Reply) {
    if d.here.Some? then (d, AlreadyHere)
    else if d.part == None then (d, NotTaken)
    else if |d.part.value| != size || d.part.value != digest || !welcome then (d.(part := None), NotTaken)
    else (d.(part := None, here := d.part), Taken)
  }

  // ------------------------------------------------------------ attempts, requests and answers

  datatype Request = AskState | SendPart(offset: nat, body: Bytes) | SayComplete(size: nat, digest: Bytes)

  datatype Answer = State(received: nat, here: bool) | PartTaken(taken: bool) | Completion(reply: Reply)

  /** Where an attempt is: what it waits for, or how it ended. */
  datatype Attempt = Asking(request: nat) | Sending(offset: nat, request: nat) | Completing(request: nat) | Delivered | Failed

  /** Requests under way and answers under way, each by the number of its request. */
  datatype Transfer = Transfer(door: Door, attempts: map<nat, Attempt>, requests: map<nat, Request>, answers: map<nat, Answer>, recorded: bool)

  datatype Event =
    | Begin(a: nat, r: nat)
    | Handle(r: nat, welcome: bool)
    | Lose(r: nat)
    | Hear(a: nat, r: nat)
    | GiveUp(a: nat)

  predicate Fresh(t: Transfer, r: nat) {
    r !in t.requests && r !in t.answers && forall a :: a in t.attempts ==> !Awaits(t.attempts[a], r)
  }

  predicate Awaits(at: Attempt, r: nat) {
    match at
    case Asking(x) => x == r
    case Sending(_, x) => x == r
    case Completing(x) => x == r
    case _ => false
  }

  predicate Ended(at: Attempt) {
    at.Delivered? || at.Failed?
  }

  predicate Enabled(t: Transfer, e: Event) {
    match e
    case Begin(a, r) => a !in t.attempts && Fresh(t, r)
    case Handle(r, _) => r in t.requests
    case Lose(r) => r in t.requests || r in t.answers
    case Hear(a, r) => a in t.attempts && !Ended(t.attempts[a]) && t.attempts[a].request in t.answers && Fresh(t, r)
    case GiveUp(a) => a in t.attempts && !Ended(t.attempts[a])
  }

  function Size(file: Bytes, offset: nat): nat
    requires offset <= |file|
  {
    if |file| - offset < PART_SIZE then |file| - offset else PART_SIZE
  }

  /** The next thing an attempt does that has sent so much. */
  function Onward(file: Bytes, offset: nat, r: nat): (Attempt, Request)
    requires offset <= |file|
  {
    if offset < |file| then (Sending(offset, r), SendPart(offset, file[offset..offset + Size(file, offset)]))
    else (Completing(r), SayComplete(|file|, file))
  }

  function Handled(d: Door, request: Request, welcome: bool): (Door, Answer) {
    match request
    case AskState => (d, State(|Arrived(d)|, d.here.Some?))
    case SendPart(offset, body) => (WithPart(d, offset, body).0, PartTaken(WithPart(d, offset, body).1))
    case SayComplete(size, digest) => (Completed(d, size, digest, welcome).0, Completion(Completed(d, size, digest, welcome).1))
  }

  function Proceed(t: Transfer, file: Bytes, a: nat, offset: nat, r: nat): Transfer
    requires offset <= |file|
  {
    var (next, request) := Onward(file, offset, r);
    t.(attempts := t.attempts[a := next], requests := t.requests[r := request])
  }

  /** What an attempt does on hearing the answer it waits for. */
  function Heard(t: Transfer, file: Bytes, a: nat, r: nat): Transfer
    requires Enabled(t, Hear(a, r))
  {
    match (t.attempts[a], t.answers[t.attempts[a].request])
    case (Asking(_), State(received, here)) =>
      Proceed(t, file, a, if here then |file| else if received > |file| then 0 else received, r)
    case (Sending(offset, _), PartTaken(true)) =>
      if offset <= |file| then Proceed(t, file, a, offset + Size(file, offset), r) else t.(attempts := t.attempts[a := Failed])
    case (Completing(_), Completion(reply)) =>
      if reply.NotTaken? then t.(attempts := t.attempts[a := Failed]) else t.(attempts := t.attempts[a := Delivered], recorded := true)
    case _ => t.(attempts := t.attempts[a := Failed])
  }

  function Next(t: Transfer, file: Bytes, e: Event): Transfer
    requires Enabled(t, e)
  {
    match e
    case Begin(a, r) => t.(attempts := t.attempts[a := Asking(r)], requests := t.requests[r := AskState])
    case Handle(r, welcome) =>
      var (door, answer) := Handled(t.door, t.requests[r], welcome);
      t.(door := door, requests := t.requests - {r}, answers := t.answers[r := answer])
    case Lose(r) => t.(requests := t.requests - {r}, answers := t.answers - {r})
    case Hear(a, r) => Heard(t, file, a, r)
    case GiveUp(a) => t.(attempts := t.attempts[a := Failed])
  }

  predicate Possible(t: Transfer, file: Bytes, es: seq<Event>)
    decreases |es|, 0
  {
    es == [] || (Possible(t, file, es[..|es| - 1]) && Enabled(After(t, file, es[..|es| - 1]), es[|es| - 1]))
  }

  function After(t: Transfer, file: Bytes, es: seq<Event>): Transfer
    requires Possible(t, file, es)
    decreases |es|, 1
  {
    if es == [] then t else Next(After(t, file, es[..|es| - 1]), file, es[|es| - 1])
  }

  function Start(door: Door): Transfer {
    Transfer(door, map[], map[], map[], false)
  }

  // ------------------------------------------------------------ what every step keeps

  /** What came is a beginning of the file, and the package that is here is the file. */
  ghost predicate DoorOk(d: Door, file: Bytes) {
    Arrived(d) <= file && |Arrived(d)| <= MAX_PACKAGE && (d.here.Some? ==> d.here.value == file)
  }

  ghost predicate RequestOk(request: Request, file: Bytes) {
    match request
    case AskState => true
    case SendPart(offset, body) => offset + |body| <= |file| && body == file[offset..offset + |body|]
    case SayComplete(size, digest) => size == |file| && digest == file
  }

  ghost predicate TransferOk(t: Transfer, file: Bytes) {
    && DoorOk(t.door, file)
    && (forall r :: r in t.requests ==> RequestOk(t.requests[r], file))
    && (forall r :: r in t.answers && t.answers[r].Completion? && !t.answers[r].reply.NotTaken? ==> t.door.here == Some(file))
    && (t.recorded ==> t.door.here == Some(file))
  }

  /**
   * A part is taken exactly when it begins at the start, or where the rest ended, and what there is then is
   * not too long. It follows what came before it, and what came is lost only to a part that begins over.
   */
  lemma PartIsTaken(d: Door, offset: nat, body: Bytes)
    ensures WithPart(d, offset, body).1 <==> (offset == 0 || offset == |Arrived(d)|) && offset + |body| <= 512 * 1024 * 1024
    ensures WithPart(d, offset, body).1 ==> offset <= |Arrived(d)| && Arrived(WithPart(d, offset, body).0) == Arrived(d)[..offset] + body
    ensures !WithPart(d, offset, body).1 ==> Arrived(WithPart(d, offset, body).0) == if offset == 0 then [] else Arrived(d)
    ensures WithPart(d, offset, body).0.here == d.here
  {
    assert Arrived(d)[..0] == [] && Arrived(d)[..|Arrived(d)|] == Arrived(d);
  }

  /**
   * A package is taken in exactly when none is here, what came is what was sent, and it is welcome. What came
   * is gone then, whether it was taken in or refused; and a package that is here stays the same.
   */
  lemma CompletedExactly(d: Door, size: nat, digest: Bytes, welcome: bool)
    ensures var (d', reply) := Completed(d, size, digest, welcome);
            && (reply == AlreadyHere <==> d.here.Some?) && (reply == AlreadyHere ==> d' == d)
            && (reply == Taken <==> d.here == None && d.part.Some? && size == |digest| && d.part.value == digest && welcome)
            && (reply == Taken ==> d'.here == Some(digest)) && (reply == NotTaken ==> d'.here == None)
            && (d.here == None ==> d'.part == None)
  {
  }

  /** An attempt goes on where the parts stopped that came so far; from the start when there is more than the whole, and with nothing when it is here. */
  lemma GoesOnWhereItStopped(t: Transfer, file: Bytes, a: nat, r: nat)
    requires Enabled(t, Hear(a, r)) && t.attempts[a].Asking? && t.answers[t.attempts[a].request].State?
    ensures var answer, t' := t.answers[t.attempts[a].request], Next(t, file, Hear(a, r));
            var from := if answer.here then |file| else if answer.received <= |file| then answer.received else 0;
            && r in t'.requests && t'.requests - {r} == t.requests - {r} && t'.door == t.door
            && match t'.requests[r]
               case SendPart(offset, body) => offset == from < |file| && body == file[from..if |file| - from < 4 * 1024 * 1024 then |file| else from + 4 * 1024 * 1024]
               case SayComplete(size, digest) => from == |file| == size && digest == file
               case AskState => false
  {
  }

  /** After a part that was taken comes the next one, or that it is complete; after one that was not, nothing. */
  lemma GoesOnAfterAPart(t: Transfer, file: Bytes, a: nat, r: nat)
    requires Enabled(t, Hear(a, r)) && t.attempts[a].Sending? && t.attempts[a].offset <= |file| && t.answers[t.attempts[a].request].PartTaken?
    ensures var sent, t' := t.attempts[a].offset, Next(t, file, Hear(a, r));
            var from := if |file| - sent < 4 * 1024 * 1024 then |file| else sent + 4 * 1024 * 1024;
            && t'.door == t.door
            && if t.answers[t.attempts[a].request].taken
               then r in t'.requests && (from < |file| ==> t'.requests[r].SendPart? && t'.requests[r].offset == from) && (from == |file| ==> t'.requests[r] == SayComplete(|file|, file))
               else t'.attempts[a] == Failed && t'.requests == t.requests
  {
  }

  /** The delivery is on record as soon as the sender hears that the package is there, and only then. */
  lemma RecordedWhenHeard(t: Transfer, file: Bytes, e: Event)
    requires Enabled(t, e) && !t.recorded
    ensures Next(t, file, e).recorded <==>
            && e.Hear? && t.attempts[e.a].Completing?
            && t.answers[t.attempts[e.a].request].Completion? && t.answers[t.attempts[e.a].request].reply != NotTaken
  {
  }

  lemma PartKeeps(d: Door, file: Bytes, offset: nat, body: Bytes)
    requires DoorOk(d, file) && offset + |body| <= |file| && body == file[offset..offset + |body|]
    ensures DoorOk(WithPart(d, offset, body).0, file) && WithPart(d, offset, body).0.here == d.here
  {
    if WithPart(d, offset, body).1 {
      assert file[..offset] + file[offset..offset + |body|] == file[..offset + |body|];
    }
  }

  lemma HandledKeeps(d: Door, file: Bytes, request: Request, welcome: bool)
    requires DoorOk(d, file) && RequestOk(request, file)
    ensures var (d', answer) := Handled(d, request, welcome);
            && DoorOk(d', file) && (d.here.Some? ==> d'.here == d.here)
            && (answer.Completion? && !answer.reply.NotTaken? ==> d'.here == Some(file))
  {
    match request
    case AskState =>
    case SendPart(offset, body) => PartKeeps(d, file, offset, body);
    case SayComplete(_, _) =>
  }

  lemma OnwardKeeps(file: Bytes, offset: nat, r: nat)
    requires offset <= |file|
    ensures RequestOk(Onward(file, offset, r).1, file)
  {
  }

  lemma HeardKeeps(t: Transfer, file: Bytes, a: nat, r: nat)
    requires TransferOk(t, file) && Enabled(t, Hear(a, r))
    ensures TransferOk(Heard(t, file, a, r), file) && Heard(t, file, a, r).door == t.door
    ensures t.recorded ==> Heard(t, file, a, r).recorded
  {
    hide DoorOk, RequestOk, Onward, Fresh;
    forall offset: nat | offset <= |file| ensures RequestOk(Onward(file, offset, r).1, file) {
      OnwardKeeps(file, offset, r);
    }
  }

  lemma NextKeeps(t: Transfer, file: Bytes, e: Event)
    requires TransferOk(t, file) && Enabled(t, e)
    ensures TransferOk(Next(t, file, e), file)
    ensures t.door.here.Some? ==> Next(t, file, e).door.here == t.door.here
    ensures t.recorded ==> Next(t, file, e).recorded
  {
    hide DoorOk, Handled, Heard, Fresh;
    if e.Handle? {
      HandledKeeps(t.door, file, t.requests[e.r], e.welcome);
      WasHere(t.door, file);
    } else if e.Hear? {
      HeardKeeps(t, file, e.a, e.r);
    }
  }

  lemma WasHere(d: Door, file: Bytes)
    requires DoorOk(d, file)
    ensures d.here.Some? ==> d.here == Some(file)
  {
  }

  /**
   * However answers are lost and attempts overlap: what was received is a beginning of the file no longer
   * than a package may be, a package that was taken in is the file, whoever was told so can rely on it,
   * and it is never taken away again.
   */
  lemma {:induction false} TransferIsSafe(door: Door, file: Bytes, es: seq<Event>, more: seq<Event>)
    requires DoorOk(door, file) && Possible(Start(door), file, es + more) && Possible(Start(door), file, es)
    ensures TransferOk(After(Start(door), file, es), file) && TransferOk(After(Start(door), file, es + more), file)
    ensures After(Start(door), file, es).door.here.Some? ==> After(Start(door), file, es + more).door.here == Some(file)
    ensures After(Start(door), file, es).recorded ==> After(Start(door), file, es + more).recorded && After(Start(door), file, es + more).door.here == Some(file)
    decreases |es| + |more|, |more|
  {
    hide Enabled, Next, DoorOk, RequestOk;
    if more != [] {
      var init := more[..|more| - 1];
      assert (es + more)[..|es + more| - 1] == es + init;
      TransferIsSafe(door, file, es, init);
      NextKeeps(After(Start(door), file, es + init), file, more[|more| - 1]);
      WasHere(After(Start(door), file, es + more).door, file);
    } else {
      assert es + more == es;
      if es != [] {
        var init := es[..|es| - 1];
        assert init + [] == init;
        TransferIsSafe(door, file, init, []);
        NextKeeps(After(Start(door), file, init), file, es[|es| - 1]);
      }
      WasHere(After(Start(door), file, es).door, file);
    }
  }

  // ------------------------------------------------------------ every attempt ends

  /** How much an attempt can still do. */
  function Left(at: Attempt, file: Bytes): nat {
    match at
    case Asking(_) => |file| + 3
    case Sending(offset, _) => if offset < |file| then |file| - offset + 2 else 2
    case Completing(_) => 1
    case _ => 0
  }

  /** Whatever happens to an attempt brings it nearer to its end, and nothing else happens to it. */
  lemma AttemptsEnd(t: Transfer, file: Bytes, e: Event, a: nat)
    requires Enabled(t, e) && a in t.attempts
    ensures a in Next(t, file, e).attempts
    ensures Next(t, file, e).attempts[a] != t.attempts[a] ==> Left(Next(t, file, e).attempts[a], file) < Left(t.attempts[a], file)
    ensures (e.Hear? || e.GiveUp?) && e.a == a ==> Left(Next(t, file, e).attempts[a], file) < Left(t.attempts[a], file)
    ensures Ended(t.attempts[a]) ==> Next(t, file, e).attempts[a] == t.attempts[a]
  {
  }

  ghost function StepsOf(es: seq<Event>, a: nat): nat {
    if es == [] then 0 else StepsOf(es[..|es| - 1], a) + if (es[|es| - 1].Hear? || es[|es| - 1].GiveUp?) && es[|es| - 1].a == a then 1 else 0
  }

  /** An attempt takes no more steps than there are bytes to send, and three. */
  lemma {:induction false} StepsAreBounded(t: Transfer, file: Bytes, es: seq<Event>, a: nat)
    requires Possible(t, file, es)
    requires a in t.attempts ==> Ended(t.attempts[a])
    ensures StepsOf(es, a) + (if a in After(t, file, es).attempts then Left(After(t, file, es).attempts[a], file) else |file| + 3) <= |file| + 3
  {
    hide Enabled, Next;
    if es != [] {
      var init, e := es[..|es| - 1], es[|es| - 1];
      StepsAreBounded(t, file, init, a);
      var before := After(t, file, init);
      if a in before.attempts {
        AttemptsEnd(before, file, e, a);
      } else {
        NotYetBegun(before, file, e, a);
      }
    }
  }

  lemma NotYetBegun(t: Transfer, file: Bytes, e: Event, a: nat)
    requires Enabled(t, e) && a !in t.attempts
    ensures !((e.Hear? || e.GiveUp?) && e.a == a)
    ensures a in Next(t, file, e).attempts ==> Left(Next(t, file, e).attempts[a], file) <= |file| + 3
  {
  }
}
