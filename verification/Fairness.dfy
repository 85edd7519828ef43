/** Whose turn it is among the queues of one consumer, and why none of them starves. */
module Fairness {
  import opened Options

  /** Where a queue is in the list; past the end when it is not. */
  ghost function PlaceOfName(list: seq<string>, name: string): (k: nat)
    ensures k <= |list|
    ensures k < |list| ==> list[k] == name
    ensures name in list ==> k < |list|
    ensures forall j :: 0 <= j < k ==> list[j] != name
  {
    if list == [] || list[0] == name then 0 else 1 + PlaceOfName(list[1..], name)
  }

  /** The queues after the one that served last, then the others; all in order when none of them did. */
  ghost function TurnStart(list: seq<string>, last: Option<string>): (k: nat)
    ensures k <= |list|
  {
    if last.Some? && last.value in list then PlaceOfName(list, last.value) + 1 else 0
  }

  ghost function Round(list: seq<string>, last: Option<string>): seq<string> {
    list[TurnStart(list, last)..] + list[..TurnStart(list, last)]
  }

  /** The first queue of the round that can serve. */
  ghost function FirstReady(round: seq<string>, ready: set<string>): (k: nat)
    ensures k <= |round|
    ensures k < |round| ==> round[k] in ready
    ensures forall j :: 0 <= j < k ==> round[j] !in ready
  {
    if round == [] || round[0] in ready then 0 else 1 + FirstReady(round[1..], ready)
  }

  /** The queue that serves at one completion, if any can. */
  ghost function Server(list: seq<string>, last: Option<string>, ready: set<string>): Option<string> {
    var round := Round(list, last);
    var k := FirstReady(round, ready);
    if k < |round| then Some(round[k]) else None
  }

  /** How many queues come before this one in the round. */
  ghost function Waits(list: seq<string>, last: Option<string>, name: string): nat {
    PlaceOfName(Round(list, last), name)
  }

  ghost predicate Distinct(list: seq<string>) {
    forall i, j :: 0 <= i < j < |list| ==> list[i] != list[j]
  }

  lemma PlaceIs(list: seq<string>, k: nat)
    requires Distinct(list) && k < |list|
    ensures PlaceOfName(list, list[k]) == k
  {
    var p := PlaceOfName(list, list[k]);
    if p < k {
      assert false;
    }
  }

  /** Where a place of the list comes in the round. */
  lemma PlaceInRound(list: seq<string>, last: Option<string>, k: nat)
    requires Distinct(list) && k < |list|
    ensures var s := TurnStart(list, last);
            Distinct(Round(list, last)) && |Round(list, last)| == |list|
            && Waits(list, last, list[k]) == if k >= s then k - s else k + |list| - s
  {
    var s, round := TurnStart(list, last), Round(list, last);
    forall j | 0 <= j < |list| ensures round[j] == list[if j < |list| - s then j + s else j + s - |list|] {
    }
    var p := if k >= s then k - s else k + |list| - s;
    assert round[p] == list[k];
    PlaceIs(round, p);
  }

  /** Who serves is no further on in the round than whoever could. */
  lemma FirstComesFirst(list: seq<string>, last: Option<string>, ready: set<string>, name: string)
    requires Distinct(list) && name in list && name in ready
    ensures var f := FirstReady(Round(list, last), ready);
            f < |list| && f <= Waits(list, last, name) && Server(list, last, ready) == Some(Round(list, last)[f])
            && Round(list, last)[f] in list && Waits(list, last, Round(list, last)[f]) == f
  {
    hide FirstReady, PlaceOfName, TurnStart;
    var round, k := Round(list, last), PlaceOfName(list, name);
    PlaceInRound(list, last, k);
    assert round[Waits(list, last, name)] == name;
    PlaceIs(round, FirstReady(round, ready));
  }

  /** While another queue serves, the one that waits moves up. */
  lemma MovesUp(list: seq<string>, last: Option<string>, ready: set<string>, name: string)
    requires Distinct(list) && name in list && name in ready
    ensures Server(list, last, ready).Some? && Server(list, last, ready).value in list
    ensures Server(list, last, ready) != Some(name) ==>
              Waits(list, Server(list, last, ready), name) < Waits(list, last, name)
  {
    hide FirstReady, Round, Server, PlaceOfName, Waits;
    FirstComesFirst(list, last, ready, name);
    var served := Server(list, last, ready).value;
    var k, j := PlaceOfName(list, name), PlaceOfName(list, served);
    PlaceInRound(list, last, k);
    PlaceInRound(list, last, j);
    if served != name {
      PlaceInRound(list, Some(served), k);
      StartsAfter(list, served);
    }
  }

  lemma StartsAfter(list: seq<string>, served: string)
    requires served in list
    ensures TurnStart(list, Some(served)) == PlaceOfName(list, served) + 1
  {
  }

  /** What served at each of several completions, each starting after the one before. */
  ghost function Servers(list: seq<string>, last: Option<string>, readies: seq<set<string>>): seq<Option<string>>
    decreases |readies|
  {
    if readies == [] then []
    else
      var s := Server(list, last, readies[0]);
      [s] + Servers(list, if s == None then last else s, readies[1..])
  }

  lemma {:induction false} ServedWithin(list: seq<string>, last: Option<string>, readies: seq<set<string>>, name: string) returns (k: nat)
    requires Distinct(list) && name in list && |readies| > Waits(list, last, name)
    requires forall i :: 0 <= i < |readies| ==> name in readies[i]
    ensures k <= Waits(list, last, name) && |Servers(list, last, readies)| > k && Servers(list, last, readies)[k] == Some(name)
    decreases |readies|
  {
    hide Waits, Server;
    MovesUp(list, last, readies[0], name);
    var s := Server(list, last, readies[0]);
    if s == Some(name) {
      k := 0;
    } else {
      k := ServedWithin(list, s, readies[1..], name);
      k := k + 1;
    }
  }

  /**
   * A queue that could serve at each of as many completions as the consumer has queues serves at one of
   * them, wherever the round starts.
   */
  lemma NoneStarves(list: seq<string>, last: Option<string>, readies: seq<set<string>>, name: string)
    requires Distinct(list) && name in list && |readies| >= |list|
    requires forall i :: 0 <= i < |readies| ==> name in readies[i]
    ensures exists k :: 0 <= k < |list| && k < |Servers(list, last, readies)| && Servers(list, last, readies)[k] == Some(name)
  {
    PlaceInRound(list, last, PlaceOfName(list, name));
    var k := ServedWithin(list, last, readies, name);
  }

  // ------------------------------------------------------------ one completion after the other

  /** A consumer that is released: which queue served it last, which can serve it, which does, and which has served it last then. */
  datatype Completion = Completion(last: Option<string>, ready: set<string>, served: Option<string>, next: Option<string>)

  ghost function CompletionOf(list: seq<string>, last: Option<string>, ready: set<string>): Completion {
    var served := Server(list, last, ready);
    Completion(last, ready, served, if served == None then last else served)
  }

  ghost predicate Completes(list: seq<string>, done: Completion) {
    done == CompletionOf(list, done.last, done.ready)
  }

  /** Nothing but its completions changes which queue served the consumer last. */
  ghost predicate InARow(dones: seq<Completion>) {
    forall i :: 0 < i < |dones| ==> dones[i].last == dones[i - 1].next
  }

  lemma {:induction false} ServersOf(list: seq<string>, dones: seq<Completion>, readies: seq<set<string>>)
    requires dones != [] && InARow(dones) && |readies| == |dones|
    requires forall i :: 0 <= i < |dones| ==> Completes(list, dones[i]) && dones[i].ready == readies[i]
    ensures |Servers(list, dones[0].last, readies)| == |dones|
    ensures forall i :: 0 <= i < |dones| ==> Servers(list, dones[0].last, readies)[i] == dones[i].served
    decreases |dones|
  {
    hide Server;
    if |dones| > 1 {
      ServersOf(list, dones[1..], readies[1..]);
      assert forall i :: 0 < i < |dones| ==> dones[i] == dones[1..][i - 1];
    }
  }

  /**
   * Over as many completions of a consumer as it has queues, each going on from the one before, a queue that
   * could serve at each of them served at one.
   */
  lemma NoneStarvesInARow(list: seq<string>, dones: seq<Completion>, name: string)
    requires Distinct(list) && name in list && |dones| >= |list| && InARow(dones)
    requires forall i :: 0 <= i < |dones| ==> Completes(list, dones[i]) && name in dones[i].ready
    ensures exists k :: 0 <= k < |list| && dones[k].served == Some(name)
  {
    hide Server, Completes;
    var readies := seq(|dones|, i requires 0 <= i < |dones| => dones[i].ready);
    ServersOf(list, dones, readies);
    NoneStarves(list, dones[0].last, readies, name);
  }

  // ------------------------------------------------------------ when others may take the consumer

  /** How a free consumer comes to its next message: by its own round, or by the dispatch of another thread before that. */
  datatype Way = ByRound(ready: set<string>) | Taken(queue: string)

  ghost function ServedBy(list: seq<string>, last: Option<string>, way: Way): Option<string> {
    match way
    case ByRound(ready) => Server(list, last, ready)
    case Taken(queue) => Some(queue)
  }

  /** The queue could serve in every round, and never does. */
  ghost predicate Starves(list: seq<string>, last: Option<string>, ways: seq<Way>, name: string)
    decreases |ways|
  {
    ways == [] ||
    (var s := ServedBy(list, last, ways[0]);
     && (if ways[0].ByRound? then name in ways[0].ready else ways[0].queue in list)
     && s != Some(name) && Starves(list, if s == None then last else s, ways[1..], name))
  }

  ghost predicate TakenSo(ways: seq<Way>, taken: seq<bool>) {
    |ways| == |taken| && forall i :: 0 <= i < |ways| ==> ways[i].Taken? == taken[i]
  }

  /**
   * Of n queues: the consumer is taken before more than so many rounds in a row are left to it, and after
   * that each time before it gets to as many rounds as it has other queues.
   */
  ghost predicate TakenInTime(n: nat, left: nat, taken: seq<bool>)
    decreases |taken|
  {
    taken == [] || if taken[0] then n >= 2 && TakenInTime(n, n - 2, taken[1..]) else left > 0 && TakenInTime(n, left - 1, taken[1..])
  }

  /** After one queue served, every other is among the first of the round; the one that follows it comes first. */
  lemma AfterServing(list: seq<string>, served: string, name: string)
    requires Distinct(list) && served in list && name in list
    ensures served != name ==> |list| >= 2 && Waits(list, Some(served), name) <= |list| - 2
    ensures served == name ==> Waits(list, Some(served), name) == |list| - 1
  {
    hide Round, Waits, PlaceOfName;
    StartsAfter(list, served);
    PlaceInRound(list, Some(served), PlaceOfName(list, name));
  }

  /** When every queue can serve, the one that comes first does, and the others move up by one place. */
  lemma FirstServes(list: seq<string>, last: Option<string>, name: string)
    requires Distinct(list) && name in list
    ensures var all := set q | q in list;
            var first := Server(list, last, all);
            && first.Some? && first.value in list && (first == Some(name) <==> Waits(list, last, name) == 0)
            && (first != Some(name) ==> Waits(list, first, name) == Waits(list, last, name) - 1)
  {
    hide PlaceOfName, Waits, TurnStart;
    var all := set q | q in list;
    var k, s := PlaceOfName(list, name), TurnStart(list, last);
    var round := Round(list, last);
    PlaceInRound(list, last, k);
    var p := if s < |list| then s else 0;
    assert round[0] == list[p];
    assert FirstReady(round, all) == 0;
    PlaceIs(list, p);
    StartsAfter(list, list[p]);
    PlaceInRound(list, Some(list[p]), k);
  }

  lemma {:induction false} StarvedWhenTaken(list: seq<string>, last: Option<string>, ways: seq<Way>, taken: seq<bool>, name: string, left: nat)
    requires Distinct(list) && name in list && TakenSo(ways, taken) && Starves(list, last, ways, name) && Waits(list, last, name) <= left
    ensures TakenInTime(|list|, left, taken)
    decreases |ways|
  {
    hide Waits, Server;
    if ways != [] {
      var s := ServedBy(list, last, ways[0]);
      if taken[0] {
        AfterServing(list, ways[0].queue, name);
        StarvedWhenTaken(list, s, ways[1..], taken[1..], name, |list| - 2);
      } else {
        MovesUp(list, last, ways[0].ready, name);
        StarvedWhenTaken(list, s, ways[1..], taken[1..], name, left - 1);
      }
    }
  }

  lemma {:induction false} TakenStarves(list: seq<string>, last: Option<string>, taken: seq<bool>, name: string) returns (ways: seq<Way>)
    requires Distinct(list) && name in list && TakenInTime(|list|, Waits(list, last, name), taken)
    ensures TakenSo(ways, taken) && Starves(list, last, ways, name)
    decreases |taken|
  {
    hide Waits, Server;
    var all := set q | q in list;
    if taken == [] {
      ways := [];
    } else if taken[0] {
      FirstServes(list, Some(name), name);
      AfterServing(list, name, name);
      var next := Server(list, Some(name), all).value;
      ways := TakenStarves(list, Some(next), taken[1..], name);
      ways := [Taken(next)] + ways;
    } else {
      FirstServes(list, last, name);
      ways := TakenStarves(list, Server(list, last, all), taken[1..], name);
      ways := [ByRound(all)] + ways;
    }
  }

  /**
   * Where other threads may take the consumer between its release and its round, a queue that could serve
   * in every round can be kept from serving exactly when the consumer is taken in time, again and again.
   */
  lemma StarvesExactly(list: seq<string>, last: Option<string>, taken: seq<bool>, name: string)
    requires Distinct(list) && name in list
    ensures (exists ways :: TakenSo(ways, taken) && Starves(list, last, ways, name)) <==> TakenInTime(|list|, Waits(list, last, name), taken)
  {
    hide Waits, Starves, TakenInTime, TakenSo, Distinct;
    if TakenInTime(|list|, Waits(list, last, name), taken) {
      var ways := TakenStarves(list, last, taken, name);
    } else {
      forall ways | TakenSo(ways, taken) ensures !Starves(list, last, ways, name) {
        if Starves(list, last, ways, name) {
          StarvedWhenTaken(list, last, ways, taken, name, Waits(list, last, name));
        }
      }
    }
  }
}
