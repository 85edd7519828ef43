/** A run of the broker, one moment after the other. */
module Moments {
  import opened Consumers
  import opened Interleaving
  import opened RoomSteps
  import opened BrokerSafety
  import opened BrokerRuns

  lemma {:induction false} Beginning(w: World, es: seq<Event>, n: nat)
    requires Possible(w, es) && n <= |es|
    ensures Possible(w, es[..n])
    decreases |es|
  {
    hide Enabled, Step;
    if n == |es| {
      assert es[..n] == es;
    } else {
      assert es[..|es| - 1][..n] == es[..n];
      Beginning(w, es[..|es| - 1], n);
    }
  }

  /** The broker after the first n steps of a run. */
  ghost function At(now: int, es: seq<Event>, n: nat): World
    requires Possible(Start(now), es) && n <= |es|
  {
    Beginning(Start(now), es, n);
    After(Start(now), es[..n])
  }

  lemma AtNext(now: int, es: seq<Event>, n: nat)
    requires Possible(Start(now), es) && n < |es|
    ensures Enabled(At(now, es, n), es[n]) && At(now, es, n + 1) == Step(At(now, es, n), es[n])
  {
    hide Enabled, Step;
    Beginning(Start(now), es, n + 1);
    assert es[..n + 1][..n] == es[..n];
  }

  lemma AtFirst(now: int, es: seq<Event>)
    requires Possible(Start(now), es)
    ensures At(now, es, 0) == Start(now)
  {
    assert es[..0] == [];
  }

  lemma ClockNext(w: World, e: Event)
    requires Enabled(w, e)
    ensures w.now <= Step(w, e).now && forall i :: i in w.rooms ==> i in Step(w, e).rooms
  {
    hide Step;
    RoomsStay(w, e);
  }

  lemma {:induction false} Clock(now: int, es: seq<Event>, k: nat, n: nat)
    requires Possible(Start(now), es) && k <= n <= |es|
    ensures At(now, es, k).now <= At(now, es, n).now
    decreases n
  {
    hide Enabled, Step, At;
    if k < n {
      Clock(now, es, k, n - 1);
      AtNext(now, es, n - 1);
      ClockNext(At(now, es, n - 1), es[n - 1]);
    }
  }

  lemma Before(now: int, es: seq<Event>, n: nat) returns (h: Tokens)
    requires Possible(Start(now), es) && n <= |es|
    ensures Inv(At(now, es, n), h)
  {
    hide Enabled, Step, Inv;
    Beginning(Start(now), es, n);
    h := Reached(now, es[..n]);
  }
}
