/**
 * The broker with all its threads. A step is one access to what is shared outside the lock of a queue:
 * taking a lock and doing what is done under it up to the next such access, a compare-and-swap on a
 * consumer, a write of what it holds, a lookup of a queue by name. Between two steps of one thread any
 * others may run, and a thread may be working on an instance of a queue that was let go meanwhile.
 */
module Interleaving {
  import opened Options
  import opened Messages
  import opened Consumers
  import opened QueueModel
  import QO = QueueOperations

  /** What the thread that holds the lock of a queue does next. */
  datatype Section =
    | Open                                              // nobody holds it
    | Loop                                              // about to look for a message to push
    | Scan(tried: nat)                                  // found one, so many consumers were tried
    | Got(taker: nat)                                   // acquired this consumer, has not assigned the message yet
    | Answering(answerer: nat, id: string, response: string)  // its consumer holds nothing any more, the answer is not stored yet

  /** One instance of a queue. */
  datatype Room = Room(q: Queue<nat>, section: Section)

  /** How far the thread that binds, unbinds and disconnects a consumer is. */
  datatype Stage =
    | Calm
    | Listed(queue: string)                             // Bind: in the list of the consumer
    | Joining(inst: nat)                                // Bind: about to take the lock of this instance
    | Unlisted(queue: string)                           // Unbind: out of the list of the consumer
    | Parting(inst: nat)                                // Unbind: about to take the lock
    | Shut                                              // Disconnect: closed
    | Leaving(rest: seq<string>)                        // Disconnect: these queues are left to unbind from
    | LeavingAt(inst: nat, rest: seq<string>)
    | Abandoning(queue: string, id: string)             // Disconnect: read what it holds
    | AbandoningAt(inst: nat, id: string)
    | Gone                                              // Disconnect returned
  {
    predicate Disconnecting() {
      Shut? || Leaving? || LeavingAt? || Abandoning? || AbandoningAt? || Gone?
    }

    /** It is unbound from everything. */
    predicate Apart() {
      Abandoning? || AbandoningAt? || Gone? || (Leaving? && rest == [])
    }
  }

  datatype Client = Client(state: Status, current: Option<(string, string)>, queues: seq<string>, stage: Stage)

  /** What another thread still has to do. */
  datatype Task =
    | Releasing(c: nat)                                 // Free: about to release the consumer
    | Released(c: nat)                                  // Free: about to read its list
    | Waking(c: nat, rest: seq<string>)                 // Free: these queues are left to dispatch
    | WakingAt(c: nat, inst: nat, rest: seq<string>)    // Free: about to take the lock
    | Nudging(inst: nat)                                // ConfigureQueue: about to dispatch

  datatype World = World(
    now: int,
    rooms: map<nat, Room>,
    registry: map<string, nat>,
    clients: map<nat, Client>,
    tasks: map<nat, Task>)

  datatype Event =
    | Tick(time: int)
    | Connect(c: nat)
    | Create(name: string, settings: Settings, i: nat)
    | Deregister(i: nat)
    | Configure(i: nat, settings: Settings, t: nat)
    | Publish(i: nat, content: Content, ttl: int, replyTo: Option<nat>)
    | Take(i: nat)
    | Ask(i: nat, id: string, response: string, includeUndelivered: bool)
    | Collect(i: nat, id: string)
    | Await(i: nat, c: nat, ids: seq<string>)
    | Purge(i: nat)
    | Sweep(i: nat, order: seq<string>)
    | Check(i: nat)
    | Try(i: nat)
    | Push(i: nat)
    | Confirm(i: nat, c: nat, id: string, t: nat)
    | AnswerBegin(i: nat, c: nat, id: string, response: string)
    | AnswerEnd(i: nat, t: nat)
    | Release(t: nat)
    | ListQueues(t: nat, start: nat)
    | Skip(t: nat)
    | Next(t: nat)
    | Wake(t: nat)
    | Nudge(t: nat)
    | BindList(c: nat, name: string)
    | BindFetch(c: nat)
    | BindJoin(c: nat)
    | UnbindList(c: nat, name: string)
    | UnbindFetch(c: nat)
    | UnbindPart(c: nat)
    | Close(c: nat)
    | Gather(c: nat)
    | LeaveFetch(c: nat)
    | LeavePart(c: nat)
    | Look(c: nat)
    | Find(c: nat)
    | Abandon(c: nat)
  {
    /** The broker as a whole. */
    predicate OfBroker() { Tick? || Connect? || Create? || Deregister? || Configure? }

    /** Whoever takes the lock of one queue for itself. */
    predicate OfRoom() { Publish? || Take? || Ask? || Collect? || Await? || Purge? || Sweep? }

    /** Whoever holds it to dispatch. */
    predicate OfDispatch() { Check? || Try? || Push? }

    /** A consumer that settles its message. */
    predicate OfSettling() { Confirm? || AnswerBegin? || AnswerEnd? }

    /** A thread that works its way through several queues. */
    predicate OfTask() { Release? || ListQueues? || Skip? || Next? || Wake? || Nudge? }

    /** A consumer that binds and unbinds. */
    predicate OfBinding() { BindList? || BindFetch? || BindJoin? || UnbindList? || UnbindFetch? || UnbindPart? }

    /** A consumer that disconnects. */
    predicate OfLeaving() { Close? || Gather? || LeaveFetch? || LeavePart? || Look? || Find? || Abandon? }
  }

  ghost function ClosedOf(clients: map<nat, Client>): set<nat> {
    set c | c in clients && clients[c].state == Closed
  }

  ghost predicate Unlocked(w: World, i: nat) {
    i in w.rooms && w.rooms[i].section == Open
  }

  /** An id is never given twice. */
  ghost predicate FreshId(w: World, id: string) {
    forall i :: i in w.rooms ==> LifeOf(w.rooms[i].q.log, id) == Some(Unborn)
  }

  // ------------------------------------------------------------ when a step can be taken

  ghost predicate Enabled(w: World, e: Event) {
    match e
    case Tick(time) => w.now <= time
    case Connect(c) => c !in w.clients
    case Create(name, _, i) => name !in w.registry && i !in w.rooms
    case Deregister(i) => i in w.rooms && w.rooms[i].q.removed && w.rooms[i].q.name in w.registry && w.registry[w.rooms[i].q.name] == i
    case Configure(i, _, t) => i in w.rooms && t !in w.tasks
    case Publish(i, content, _, _) => Unlocked(w, i) && FreshId(w, content.id)
    case Take(i) => Unlocked(w, i)
    case Ask(i, _, _, _) => Unlocked(w, i)
    case Collect(i, _) => Unlocked(w, i)
    case Await(i, _, _) => Unlocked(w, i)
    case Purge(i) => Unlocked(w, i)
    case Sweep(i, order) => Unlocked(w, i) && forall id :: id in order <==> id in w.rooms[i].q.inFlight
    case Check(i) => i in w.rooms && w.rooms[i].section.Loop?
    case Try(i) => i in w.rooms && w.rooms[i].section.Scan?
    case Push(i) => i in w.rooms && w.rooms[i].section.Got?
    case Confirm(i, c, id, t) => Unlocked(w, i) && QO.Holds(w.rooms[i].q, c, id) && t !in w.tasks
    case AnswerBegin(i, c, id, _) => Unlocked(w, i) && QO.Holds(w.rooms[i].q, c, id)
    case AnswerEnd(i, t) => i in w.rooms && w.rooms[i].section.Answering? && t !in w.tasks
    case Release(t) => t in w.tasks && w.tasks[t].Releasing?
    case ListQueues(t, start) => t in w.tasks && w.tasks[t].Released? && w.tasks[t].c in w.clients && start <= |w.clients[w.tasks[t].c].queues|
    case Skip(t) => t in w.tasks && w.tasks[t].Waking? && (w.tasks[t].rest == [] || (w.tasks[t].c in w.clients && w.clients[w.tasks[t].c].state != Free))
    case Next(t) => t in w.tasks && w.tasks[t].Waking? && w.tasks[t].rest != []
    case Wake(t) => t in w.tasks && w.tasks[t].WakingAt? && Unlocked(w, w.tasks[t].inst)
    case Nudge(t) => t in w.tasks && w.tasks[t].Nudging? && Unlocked(w, w.tasks[t].inst)
    case BindList(c, _) => c in w.clients && w.clients[c].stage == Calm
    case BindFetch(c) => c in w.clients && w.clients[c].stage.Listed? && w.clients[c].stage.queue in w.registry
    case BindJoin(c) => c in w.clients && w.clients[c].stage.Joining? && Unlocked(w, w.clients[c].stage.inst)
    case UnbindList(c, _) => c in w.clients && w.clients[c].stage == Calm
    case UnbindFetch(c) => c in w.clients && w.clients[c].stage.Unlisted?
    case UnbindPart(c) => c in w.clients && w.clients[c].stage.Parting? && Unlocked(w, w.clients[c].stage.inst)
    case Close(c) => c in w.clients && w.clients[c].stage == Calm
    case Gather(c) => c in w.clients && w.clients[c].stage == Shut
    case LeaveFetch(c) => c in w.clients && w.clients[c].stage.Leaving? && w.clients[c].stage.rest != []
    case LeavePart(c) => c in w.clients && w.clients[c].stage.LeavingAt? && Unlocked(w, w.clients[c].stage.inst)
    case Look(c) => c in w.clients && w.clients[c].stage == Leaving([])
    case Find(c) => c in w.clients && w.clients[c].stage.Abandoning?
    case Abandon(c) => c in w.clients && w.clients[c].stage.AbandoningAt? && Unlocked(w, w.clients[c].stage.inst)
  }

  // ------------------------------------------------------------ what a step does

  ghost function SetRoom(w: World, i: nat, q: Queue<nat>, section: Section): World {
    w.(rooms := w.rooms[i := Room(q, section)])
  }

  ghost function SetClient(w: World, c: nat, client: Client): World {
    w.(clients := w.clients[c := client])
  }

  ghost function SetTask(w: World, t: nat, task: Task): World {
    w.(tasks := w.tasks[t := task])
  }

  ghost function EndTask(w: World, t: nat): World {
    w.(tasks := w.tasks - {t})
  }

  /** The head of the dispatch loop: is there anything to push? */
  ghost function Checked(q: Queue<nat>, now: int): Room {
    if q.settings.paused || q.consumers == [] then Room(QO.Track(q, now), Open)
    else if QO.DropDead(q, now).pending == [] then Room(QO.Track(QO.DropDead(q, now), now), Open)
    else Room(QO.DropDead(q, now), Scan(0))
  }

  /** The consumer tried next. */
  ghost function Candidate(q: Queue<nat>, tried: nat): nat
    requires tried < |q.consumers|
  {
    q.consumers[(q.next + tried) % |q.consumers|]
  }

  ghost function Tried(w: World, i: nat): World
    requires i in w.rooms && w.rooms[i].section.Scan?
  {
    var q, k := w.rooms[i].q, w.rooms[i].section.tried;
    if k >= |q.consumers| then SetRoom(w, i, QO.Track(q, w.now), Open)
    else
      var c := Candidate(q, k);
      if c in w.clients && w.clients[c].state == Free then
        SetClient(SetRoom(w, i, q.(next := ((q.next + k) % |q.consumers| + 1) % |q.consumers|), Got(c)), c, w.clients[c].(state := Busy))
      else SetRoom(w, i, q, Scan(k + 1))
  }

  ghost function Handed(w: World, i: nat): World
    requires i in w.rooms && w.rooms[i].section.Got?
  {
    var q, c := w.rooms[i].q, w.rooms[i].section.taker;
    if q.pending == [] || c !in w.clients then w
    else SetClient(SetRoom(w, i, QO.PushHead(q, c), Loop), c, w.clients[c].(current := Some((q.name, q.pending[0].content.id))))
  }

  ghost function Nothing(w: World, c: nat): World {
    if c in w.clients then SetClient(w, c, w.clients[c].(current := None)) else w
  }

  ghost function Staged(w: World, c: nat, stage: Stage): World
    requires c in w.clients
  {
    SetClient(w, c, w.clients[c].(stage := stage))
  }

  ghost function Abandoned(w: World, c: nat): World
    requires Enabled(w, Abandon(c))
  {
    var i, id := w.clients[c].stage.inst, w.clients[c].stage.id;
    var q := w.rooms[i].q;
    var gone := Staged(w, c, Gone);
    if !QO.Holds(q, c, id) then gone
    else if q.settings.redeliver then Nothing(SetRoom(gone, i, QO.Abandon(q, c, id, w.now), Loop), c)
    else Nothing(SetRoom(gone, i, QO.Track(QO.Abandon(q, c, id, w.now), w.now), Open), c)
  }

  ghost function StepOfBroker(w: World, e: Event): World
    requires Enabled(w, e) && e.OfBroker()
  {
    match e
    case Tick(time) => w.(now := time)
    case Connect(c) => SetClient(w, c, Client(Free, None, [], Calm))
    case Create(name, settings, i) => SetRoom(w, i, NewQueue(name, settings), Open).(registry := w.registry[name := i])
    case Deregister(i) => w.(registry := w.registry - {w.rooms[i].q.name})
    case Configure(i, settings, t) => SetTask(SetRoom(w, i, w.rooms[i].q.(settings := settings), w.rooms[i].section), t, Nudging(i))
  }

  ghost function StepOfRoom(w: World, e: Event): World
    requires Enabled(w, e) && e.OfRoom()
  {
    match e
    case Publish(i, content, ttl, replyTo) =>
      if w.rooms[i].q.removed then w else SetRoom(w, i, QO.Publish(w.rooms[i].q, content, ttl, replyTo, w.now), Loop)
    case Take(i) => SetRoom(w, i, QO.Take(w.rooms[i].q, w.now), Open)
    case Ask(i, id, response, includeUndelivered) =>
      SetRoom(w, i, QO.AnswerAsked(w.rooms[i].q, id, response, includeUndelivered, ClosedOf(w.clients), w.now), Open)
    case Collect(i, id) => SetRoom(w, i, QO.Collect(w.rooms[i].q, id, w.now), Open)
    case Await(i, c, ids) => SetRoom(w, i, QO.Await(w.rooms[i].q, c, ids, ClosedOf(w.clients), w.now), Open)
    case Purge(i) => SetRoom(w, i, QO.Track(QO.Purge(w.rooms[i].q), w.now), Open)
    case Sweep(i, order) => SetRoom(w, i, QO.Sweep(w.rooms[i].q, order, w.now), Open)
  }

  ghost function StepOfDispatch(w: World, e: Event): World
    requires Enabled(w, e) && e.OfDispatch()
  {
    match e
    case Check(i) => w.(rooms := w.rooms[i := Checked(w.rooms[i].q, w.now)])
    case Try(i) => Tried(w, i)
    case Push(i) => Handed(w, i)
  }

  ghost function StepOfSettling(w: World, e: Event): World
    requires Enabled(w, e) && e.OfSettling()
  {
    match e
    case Confirm(i, c, id, t) => SetTask(Nothing(SetRoom(w, i, QO.Confirm(w.rooms[i].q, c, id, w.now), Open), c), t, Releasing(c))
    case AnswerBegin(i, c, id, response) => Nothing(SetRoom(w, i, w.rooms[i].q, Answering(c, id, response)), c)
    case AnswerEnd(i, t) =>
      var s := w.rooms[i].section;
      SetTask(SetRoom(w, i, QO.AnswerHeld(w.rooms[i].q, s.answerer, s.id, s.response, ClosedOf(w.clients), w.now), Open), t, Releasing(s.answerer))
  }

  ghost function StepOfTask(w: World, e: Event): World
    requires Enabled(w, e) && e.OfTask()
  {
    match e
    case Release(t) =>
      var c := w.tasks[t].c;
      if c in w.clients && w.clients[c].state == Busy
      then SetTask(SetClient(w, c, w.clients[c].(state := Free)), t, Released(c))
      else SetTask(w, t, Released(c))
    case ListQueues(t, start) =>
      var c := w.tasks[t].c;
      SetTask(w, t, Waking(c, w.clients[c].queues[start..] + w.clients[c].queues[..start]))
    case Skip(t) => EndTask(w, t)
    case Next(t) =>
      var c, rest := w.tasks[t].c, w.tasks[t].rest;
      SetTask(w, t, if rest[0] in w.registry then WakingAt(c, w.registry[rest[0]], rest[1..]) else Waking(c, rest[1..]))
    case Wake(t) =>
      SetTask(SetRoom(w, w.tasks[t].inst, w.rooms[w.tasks[t].inst].q, Loop), t, Waking(w.tasks[t].c, w.tasks[t].rest))
    case Nudge(t) => EndTask(SetRoom(w, w.tasks[t].inst, w.rooms[w.tasks[t].inst].q, Loop), t)
  }

  ghost function StepOfBinding(w: World, e: Event): World
    requires Enabled(w, e) && e.OfBinding()
  {
    match e
    case BindList(c, name) =>
      var list := w.clients[c].queues;
      SetClient(w, c, w.clients[c].(queues := if name in list then list else list + [name], stage := Listed(name)))
    case BindFetch(c) => Staged(w, c, Joining(w.registry[w.clients[c].stage.queue]))
    case BindJoin(c) =>
      var i := w.clients[c].stage.inst;
      if w.rooms[i].q.removed then Staged(w, c, Listed(w.rooms[i].q.name))
      else Staged(SetRoom(w, i, QO.Join(w.rooms[i].q, c), Loop), c, Calm)
    case UnbindList(c, name) => SetClient(w, c, w.clients[c].(queues := QO.WithoutFirst(w.clients[c].queues, name), stage := Unlisted(name)))
    case UnbindFetch(c) =>
      var name := w.clients[c].stage.queue;
      Staged(w, c, if name in w.registry then Parting(w.registry[name]) else Calm)
    case UnbindPart(c) =>
      var i := w.clients[c].stage.inst;
      Staged(SetRoom(w, i, QO.Part(w.rooms[i].q, c), Open), c, Calm)
  }

  ghost function StepOfLeaving(w: World, e: Event): World
    requires Enabled(w, e) && e.OfLeaving()
  {
    match e
    case Close(c) => SetClient(w, c, w.clients[c].(state := Closed, stage := Shut))
    case Gather(c) => SetClient(w, c, w.clients[c].(queues := [], stage := Leaving(w.clients[c].queues)))
    case LeaveFetch(c) =>
      var rest := w.clients[c].stage.rest;
      Staged(w, c, if rest[0] in w.registry then LeavingAt(w.registry[rest[0]], rest[1..]) else Leaving(rest[1..]))
    case LeavePart(c) =>
      var i := w.clients[c].stage.inst;
      Staged(SetRoom(w, i, QO.Part(w.rooms[i].q, c), Open), c, Leaving(w.clients[c].stage.rest))
    case Look(c) =>
      Staged(w, c, match w.clients[c].current case None => Gone case Some(held) => Abandoning(held.0, held.1))
    case Find(c) =>
      var s := w.clients[c].stage;
      Staged(w, c, if s.queue in w.registry then AbandoningAt(w.registry[s.queue], s.id) else Gone)
    case Abandon(c) => Abandoned(w, c)
  }

  ghost function Step(w: World, e: Event): World
    requires Enabled(w, e)
  {
    if e.OfBroker() then StepOfBroker(w, e)
    else if e.OfRoom() then StepOfRoom(w, e)
    else if e.OfDispatch() then StepOfDispatch(w, e)
    else if e.OfSettling() then StepOfSettling(w, e)
    else if e.OfTask() then StepOfTask(w, e)
    else if e.OfBinding() then StepOfBinding(w, e)
    else StepOfLeaving(w, e)
  }

  ghost function Start(now: int): World {
    World(now, map[], map[], map[], map[])
  }

  /** A history of steps that can be taken one after the other. */
  ghost predicate Possible(w: World, es: seq<Event>)
    decreases |es|, 0
  {
    es == [] || (Possible(w, es[..|es| - 1]) && Enabled(After(w, es[..|es| - 1]), es[|es| - 1]))
  }

  ghost function After(w: World, es: seq<Event>): World
    requires Possible(w, es)
    decreases |es|, 1
  {
    if es == [] then w else Step(After(w, es[..|es| - 1]), es[|es| - 1])
  }

  // ------------------------------------------------------------ what every step keeps

  /** What a consumer is good for: nothing, or it was acquired, or it owns a message, or it is about to be released. */
  datatype Token = Idle | Acquired(room: nat) | Owning(room: nat, id: string) | Freeing(task: nat)

  ghost predicate RoomOk(i: nat, room: Room, h: map<nat, Token>) {
    && QueueInv(room.q)
    && (room.q.removed ==> room.section.Open? || room.section.Loop?)
    && (room.section.Scan? || room.section.Got? ==> room.q.pending != [])
    && (room.section.Got? ==> room.section.taker in h && h[room.section.taker] == Acquired(i) && room.section.taker in room.q.consumers)
    && (room.section.Answering? ==> QO.Holds(room.q, room.section.answerer, room.section.id))
    && OwnersOk(i, room.q, h)
  }

  ghost predicate OwnersOk(i: nat, q: Queue<nat>, h: map<nat, Token>) {
    forall id :: id in q.inFlight && q.inFlight[id].owner.Some? ==>
      q.inFlight[id].owner.value in h && h[q.inFlight[id].owner.value] == Owning(i, id)
  }

  ghost predicate ClientOk(c: nat, client: Client, token: Token, rooms: map<nat, Room>, tasks: map<nat, Task>) {
    && (client.state == Free ==> token == Idle)
    && (client.state == Busy ==> token != Idle)
    && (match token
        case Idle => client.current == None
        case Acquired(i) => client.current == None && i in rooms && rooms[i].section == Got(c)
        case Freeing(t) => client.current == None && t in tasks && tasks[t] == Releasing(c)
        case Owning(i, id) => i in rooms && QO.Holds(rooms[i].q, c, id)
                              && client.current == if BeingAnswered(rooms[i], c) then None else Some((rooms[i].q.name, id)))
  }

  ghost predicate BeingAnswered(room: Room, c: nat) {
    room.section.Answering? && room.section.answerer == c
  }

  ghost predicate TaskOk(t: nat, task: Task, h: map<nat, Token>, rooms: map<nat, Room>) {
    && (task.Releasing? ==> task.c in h && h[task.c] == Freeing(t))
    && (task.WakingAt? ==> task.inst in rooms)
    && (task.Nudging? ==> task.inst in rooms)
    && (!task.Nudging? ==> task.c in h)
  }

  /** Every instance still in use is the one registered under its name. */
  ghost predicate RegistryOk(registry: map<string, nat>, rooms: map<nat, Room>) {
    && (forall name :: name in registry ==> registry[name] in rooms && rooms[registry[name]].q.name == name)
    && (forall i :: i in rooms && !rooms[i].q.removed ==> rooms[i].q.name in registry && registry[rooms[i].q.name] == i)
  }

  /** A consumer bound to a queue has it in its list, or is about to be unbound from it. */
  ghost predicate Linked(client: Client, i: nat, name: string) {
    || name in client.queues
    || client.stage == Unlisted(name)
    || client.stage == Parting(i)
    || (client.stage.Leaving? && name in client.stage.rest)
    || (client.stage.LeavingAt? && (client.stage.inst == i || name in client.stage.rest))
  }

  ghost predicate LinksOk(i: nat, q: Queue<nat>, clients: map<nat, Client>) {
    forall c :: c in q.consumers ==> c in clients && Linked(clients[c], i, q.name)
  }

  ghost predicate StageOk(c: nat, client: Client, token: Token, rooms: map<nat, Room>) {
    && (client.stage.Disconnecting() <==> client.state == Closed)
    && (client.stage.Disconnecting() && !client.stage.Shut? ==> client.queues == [])
    && (client.stage.Listed? ==> client.stage.queue in client.queues)
    && (client.stage.Joining? ==> client.stage.inst in rooms && rooms[client.stage.inst].q.name in client.queues)
    && (client.stage.Parting? || client.stage.LeavingAt? || client.stage.AbandoningAt? ==> client.stage.inst in rooms)
    && (client.stage.Apart() ==> !token.Acquired?)
    && (token.Owning? && token.room in rooms ==>
          match client.stage
          case Abandoning(name, id) => rooms[token.room].q.name == name && token.id == id
          case AbandoningAt(i, id) => token.room == i && token.id == id
          case Gone => BeingAnswered(rooms[token.room], c)
          case _ => true)
  }

  ghost predicate Inv(w: World, h: map<nat, Token>) {
    && h.Keys == w.clients.Keys
    && RegistryOk(w.registry, w.rooms)
    && (forall i :: i in w.rooms ==> RoomOk(i, w.rooms[i], h) && LinksOk(i, w.rooms[i].q, w.clients))
    && (forall c :: c in w.clients ==> ClientOk(c, w.clients[c], h[c], w.rooms, w.tasks) && StageOk(c, w.clients[c], h[c], w.rooms))
    && (forall t :: t in w.tasks ==> TaskOk(t, w.tasks[t], h, w.rooms))
  }
}
