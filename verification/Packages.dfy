/**
 * Packages that carry changes from one environment to another, and what becomes of them in one of these.
 * A step is one update of what is kept of a package, with what was asked of the machine just before it;
 * the service may stop between any two steps.
 */
module Packages {
  import opened Options

  datatype Action = Define | Drop | Script | Replace

  /** The target tells the kind and the name of what an item is about, with letters folded. */
  datatype Item = Item(action: Action, table: bool, target: string, content: string, digest: string)

  /** How applying one item went. */
  datatype Did = WasApplied | WasRefused | NotKnown

  /** How putting it back went. */
  datatype Putting = NotAsked | Underway | PutBack | NotPutBack | PutBackNotKnown

  datatype Result = Result(did: Did, skipped: bool, previous: Option<string>, at: int, putting: Putting)

  datatype Status =
    | Closed | Pending | Rejected | Superseded | Approved
    | Applying | Applied | Partial | Failed
    | Reverting | Reverted | RevertedPartly

  /** The result of each item is at its place; there are results for the first items only. */
  datatype Record = Record(line: string, version: int, received: bool, items: seq<Item>, status: Status, results: seq<Result>, delivered: bool)

  /** What the one thread that applies and puts back is doing. */
  datatype Runner = Resting | Running(id: string) | Undoing(id: string, steps: seq<nat>, marked: bool)

  datatype Service = Service(now: int, packages: map<string, Record>, there: map<string, string>, runner: Runner)

  // ------------------------------------------------------------ what the service tells from its records

  predicate Stands(r: Result) {
    r.did == WasApplied && r.putting != PutBack
  }

  predicate SomeStands(r: Record) {
    exists k :: 0 <= k < |r.results| && Stands(r.results[k])
  }

  function CountApplied(results: seq<Result>): (n: nat)
    ensures n <= |results|
  {
    if results == [] then 0 else CountApplied(results[..|results| - 1]) + if results[|results| - 1].did == WasApplied then 1 else 0
  }

  /** Whether it can still be approved here. */
  predicate Waits(r: Record) {
    || r.status == Pending || r.status == Reverted || (r.status == Closed && !r.received)
    || (r.status == Failed && forall k :: 0 <= k < |r.results| ==> r.results[k].did == WasRefused)
  }

  predicate SameTarget(a: Item, b: Item) {
    !a.action.Script? && !b.action.Script? && a.target == b.target
  }

  /** This package has a standing result over the same thing, applied after that time. */
  predicate AppliedOver(r: Record, item: Item, at: int) {
    exists j :: 0 <= j < |r.results| && j < |r.items| && Stands(r.results[j]) && r.results[j].at > at && SameTarget(r.items[j], item)
  }

  predicate Later(packages: map<string, Record>, id: string, item: Item, at: int) {
    exists other :: other in packages && other != id && AppliedOver(packages[other], item, at)
  }

  /** A script of this package that ran here. */
  predicate RanThere(r: Record, digest: string) {
    exists j :: 0 <= j < |r.results| && j < |r.items| && r.items[j].action.Script? && r.results[j].did == WasApplied && r.items[j].digest == digest
  }

  /** The same script ran here in another version of the same package. */
  predicate RanBefore(packages: map<string, Record>, id: string, line: string, digest: string) {
    exists other :: other in packages && other != id && packages[other].line == line && RanThere(packages[other], digest)
  }

  predicate HasNewer(packages: map<string, Record>, r: Record) {
    exists other :: other in packages && packages[other].line == r.line && packages[other].version > r.version
  }

  function Look(there: map<string, string>, target: string): Option<string> {
    if target in there then Some(there[target]) else None
  }

  function Put(there: map<string, string>, target: string, content: Option<string>): map<string, string> {
    if content.Some? then there[target := content.value] else there - {target}
  }

  /** What an item leaves at its target. */
  function Left(item: Item): Option<string> {
    if item.action.Drop? then None else Some(item.content)
  }

  /** An item of a package that can be put back. */
  predicate CanPutBack(s: Service, id: string, k: nat)
    requires id in s.packages && k < |s.packages[id].results| && k < |s.packages[id].items|
  {
    var r, item := s.packages[id].results[k], s.packages[id].items[k];
    && Stands(r) && !Later(s.packages, id, item, r.at)
    && match item.action
       case Script => false
       case Replace => r.previous.Some? && item.target in s.there
       case Drop => !item.table && r.previous.Some?
       case Define => !item.table && (r.previous.Some? || item.target in s.there)
  }

  /** The items that are going to be put back, the last applied first. */
  function Plan(s: Service, id: string, n: nat): seq<nat>
    requires id in s.packages && n <= |s.packages[id].results| && n <= |s.packages[id].items|
  {
    if n == 0 then [] else (if CanPutBack(s, id, n - 1) then [n - 1] else []) + Plan(s, id, n - 1)
  }

  predicate SomeUndone(r: Record) {
    exists k :: 0 <= k < |r.results| && (r.results[k].putting == PutBack || r.results[k].putting == PutBackNotKnown)
  }

  function AfterReverting(r: Record): Status {
    if !SomeStands(r) then Reverted
    else if SomeUndone(r) then RevertedPartly
    else if CountApplied(r.results) == |r.items| then Applied
    else Partial
  }

  function AfterApplying(r: Record): Status {
    var done := CountApplied(r.results);
    if done == |r.items| then Applied else if done == 0 then Failed else Partial
  }

  /** The item that was being put back may or may not have been. */
  function Interrupted(results: seq<Result>): (out: seq<Result>)
    ensures |out| == |results|
    ensures forall k :: 0 <= k < |results| ==>
              out[k] == if results[k].putting == Underway then results[k].(putting := PutBackNotKnown) else results[k]
  {
    if results == [] then []
    else
      var last := results[|results| - 1];
      Interrupted(results[..|results| - 1]) + [if last.putting == Underway then last.(putting := PutBackNotKnown) else last]
  }

  /** One package, when the service starts again. */
  function Recovered(r: Record): Record {
    if r.status == Applying then r.(status := if CountApplied(r.results) > 0 then Partial else Failed)
    else if r.status == Reverting then
      var stuck := r.(results := Interrupted(r.results));
      stuck.(status := AfterReverting(stuck))
    else r
  }

  // ------------------------------------------------------------ the steps

  datatype Event =
    | Pass(time: int)
    | Close(id: string, line: string, version: int, items: seq<Item>)
    | Import(id: string, line: string, version: int, items: seq<Item>)
    | Deliver(id: string)
    | Delete(id: string)
    | Approve(id: string)
    | Reject(id: string)
    | Start(id: string)
    | Do(did: Did, kept: bool, at: int, there: map<string, string>)
    | Finish
    | Revert(id: string)
    | Begin(id: string, planned: bool)
    | Mark
    | Undo(putting: Putting, there: map<string, string>)
    | End
    | Stop

  predicate GoesOn(r: Record) {
    |r.results| < |r.items| && (r.results == [] || r.results[|r.results| - 1].did == WasApplied)
  }

  predicate Enabled(s: Service, e: Event) {
    match e
    case Pass(time) => time >= s.now
    case Close(id, _, _, _) => id !in s.packages
    case Import(id, _, _, items) => id !in s.packages && items != []
    case Deliver(id) => id in s.packages
    case Delete(id) => id in s.packages && !s.packages[id].received && s.packages[id].status == Closed && !s.packages[id].delivered
    case Approve(id) => id in s.packages && Waits(s.packages[id]) && !HasNewer(s.packages, s.packages[id])
    case Reject(id) => id in s.packages && (s.packages[id].status == Approved || (s.packages[id].status == Pending && s.packages[id].received))
    case Start(id) => s.runner == Resting && id in s.packages && s.packages[id].status == Approved
    case Do(_, _, at, _) => s.runner.Running? && s.runner.id in s.packages && GoesOn(s.packages[s.runner.id]) && at >= s.now
    case Finish => s.runner.Running? && s.runner.id in s.packages && !GoesOn(s.packages[s.runner.id])
    case Revert(id) => id in s.packages && (s.packages[id].status == Applied || s.packages[id].status == Partial || s.packages[id].status == RevertedPartly)
                       && (|s.packages[id].results| <= |s.packages[id].items| ==> Plan(s, id, |s.packages[id].results|) != [])
    case Begin(id, _) => s.runner == Resting && id in s.packages && s.packages[id].status == Reverting && |s.packages[id].results| <= |s.packages[id].items|
    case Mark => s.runner.Undoing? && !s.runner.marked && s.runner.steps != [] && s.runner.id in s.packages && s.runner.steps[0] < |s.packages[s.runner.id].results|
    case Undo(putting, _) => s.runner.Undoing? && s.runner.marked && s.runner.steps != [] && s.runner.id in s.packages && s.runner.steps[0] < |s.packages[s.runner.id].results|
                             && (putting == PutBack || putting == NotPutBack || putting == PutBackNotKnown)
    case End => s.runner.Undoing? && s.runner.steps == [] && s.runner.id in s.packages
    case Stop => true
  }

  function Fresh(line: string, version: int, items: seq<Item>, received: bool): Record {
    Record(line, version, received, items, if received then Pending else Closed, [], false)
  }

  function SetPackage(s: Service, id: string, r: Record): Service {
    s.(packages := s.packages[id := r])
  }

  /** A newer version takes the place of the ones that were waiting. */
  function Supersede(packages: map<string, Record>, line: string, version: int): (out: map<string, Record>)
    ensures out.Keys == packages.Keys
  {
    map id | id in packages ::
      if packages[id].line == line && packages[id].version < version && packages[id].status == Pending then packages[id].(status := Superseded) else packages[id]
  }

  /** The result of the next item. */
  function Outcome(s: Service, id: string, item: Item, did: Did, kept: bool, at: int): Result
    requires id in s.packages
  {
    if item.action.Script? && RanBefore(s.packages, id, s.packages[id].line, item.digest) then Result(WasApplied, true, None, at, NotAsked)
    else Result(did, false, if item.action.Script? || (item.action.Replace? && !kept) then None else Look(s.there, item.target), at, NotAsked)
  }

  function Next(s: Service, e: Event): Service
    requires Enabled(s, e)
  {
    match e
    case Pass(time) => s.(now := time)
    case Close(id, line, version, items) => SetPackage(s, id, Fresh(line, version, items, false))
    case Import(id, line, version, items) => s.(packages := Supersede(s.packages, line, version)[id := Fresh(line, version, items, true)])
    case Deliver(id) => SetPackage(s, id, s.packages[id].(delivered := true))
    case Delete(id) => s.(packages := s.packages - {id})
    case Approve(id) => SetPackage(s, id, s.packages[id].(status := Approved))
    case Reject(id) =>
      var r := s.packages[id];
      SetPackage(s, id, r.(status := if r.status != Approved then Rejected else if r.received then Pending else Closed))
    case Start(id) => SetPackage(s, id, s.packages[id].(status := Applying, results := [])).(runner := Running(id))
    case Do(did, kept, at, there) =>
      var id := s.runner.id;
      var r := s.packages[id];
      var result := Outcome(s, id, r.items[|r.results|], did, kept, at);
      SetPackage(s, id, r.(results := r.results + [result])).(now := at, there := if result.skipped then s.there else there)
    case Finish =>
      var r := s.packages[s.runner.id];
      SetPackage(s, s.runner.id, r.(status := AfterApplying(r))).(runner := Resting)
    case Revert(id) => SetPackage(s, id, s.packages[id].(status := Reverting))
    case Begin(id, planned) => s.(runner := Undoing(id, if planned then Plan(s, id, |s.packages[id].results|) else [], false))
    case Mark =>
      var r, k := s.packages[s.runner.id], s.runner.steps[0];
      SetPackage(s, s.runner.id, r.(results := r.results[k := r.results[k].(putting := Underway)])).(runner := s.runner.(marked := true))
    case Undo(putting, there) =>
      var r, k := s.packages[s.runner.id], s.runner.steps[0];
      SetPackage(s, s.runner.id, r.(results := r.results[k := r.results[k].(putting := putting)]))
        .(there := there, runner := s.runner.(marked := false, steps := if putting == PutBack then s.runner.steps[1..] else []))
    case End =>
      var r := s.packages[s.runner.id];
      SetPackage(s, s.runner.id, r.(status := AfterReverting(r))).(runner := Resting)
    case Stop => s.(packages := map id | id in s.packages :: Recovered(s.packages[id]), runner := Resting)
  }

  function Nothing(now: int, there: map<string, string>): Service {
    Service(now, map[], there, Resting)
  }

  predicate Possible(s: Service, es: seq<Event>)
    decreases |es|, 0
  {
    es == [] || (Possible(s, es[..|es| - 1]) && Enabled(After(s, es[..|es| - 1]), es[|es| - 1]))
  }

  function After(s: Service, es: seq<Event>): Service
    requires Possible(s, es)
    decreases |es|, 1
  {
    if es == [] then s else Next(After(s, es[..|es| - 1]), es[|es| - 1])
  }
}
