/** Putting back is last in, first out across packages. */
module PackageUndo {
  import opened Packages
  import opened PackageLifecycle
  import opened PackagePiles

  // As long as the machine says plainly what it did, nobody else touches the targets and no script runs,
  // every target holds what the latest standing result left there, and beneath each result lies what it
  // found.

  // ------------------------------------------------------------ every step of a plain run

  lemma ArrivesOverlays(s: Service, e: Event)
    requires ServiceOk(s) && Enabled(s, e)
    requires e.Pass? || e.Close? || e.Import? || e.Deliver? || e.Delete?
    ensures SameOverlays(s, Next(s, e))
  {
    hide RunnerOk;
    var s' := Next(s, e);
    forall x: Overlay ensures IsOverlay(s', x) <==> IsOverlay(s, x) {
      if x.id in s.packages {
        assert RecordOk(s.packages[x.id]);
      }
    }
  }

  lemma AskedOverlays(s: Service, e: Event)
    requires Enabled(s, e) && (e.Approve? || e.Reject? || e.Revert?)
    ensures SameOverlays(s, Next(s, e))
  {
    hide Plan, HasNewer, Waits;
  }

  lemma StartedOverlays(s: Service, id: string)
    requires ServiceOk(s) && Enabled(s, Start(id))
    ensures SameOverlays(s, Next(s, Start(id)))
  {
    hide RunnerOk;
    assert RecordOk(s.packages[id]);
  }

  lemma AppliesOverlays(s: Service, e: Event)
    requires Enabled(s, e) && (e.Finish? || (e.Do? && e.did != WasApplied && OneEach(s.packages[s.runner.id].items)))
    ensures SameOverlays(s, Next(s, e))
  {
    hide CountApplied, RanBefore, AfterApplying;
  }

  lemma BeginsOverlays(s: Service, e: Event)
    requires Enabled(s, e) && (e.Begin? || e.End?)
    ensures SameOverlays(s, Next(s, e))
  {
    hide Plan, AfterReverting;
  }

  lemma UndoesOverlays(s: Service, e: Event)
    requires ServiceOk(s) && Enabled(s, e) && (e.Mark? || (e.Undo? && e.putting != PutBack))
    ensures SameOverlays(s, Next(s, e))
  {
    hide RecordOk;
    assert StepOk(s.packages[s.runner.id], s.runner.steps[0]);
  }

  lemma DoneOverlays(s: Service, e: Event) returns (x: Overlay)
    requires ServiceOk(s) && Enabled(s, e) && PackagesPlain(s) && e.Do? && e.did == WasApplied && e.kept
    ensures var r := s.packages[s.runner.id];
            x == Overlay(s.runner.id, |r.results|, r.items[|r.results|], e.at, Look(s.there, r.items[|r.results|].target))
    ensures forall y: Overlay :: IsOverlay(Next(s, e), y) <==> IsOverlay(s, y) || y == x
    ensures Next(s, e).there == e.there
  {
    hide Look, RanBefore;
    var r := s.packages[s.runner.id];
    assert OneEach(r.items) && RecordOk(r);
    x := Overlay(s.runner.id, |r.results|, r.items[|r.results|], e.at, Look(s.there, r.items[|r.results|].target));
  }

  lemma UndoneOverlays(s: Service, e: Event) returns (x: Overlay)
    requires ServiceOk(s) && Enabled(s, e) && e.Undo? && e.putting == PutBack
    ensures IsOverlay(s, x) && x.id == s.runner.id && x.k == s.runner.steps[0] && StepOk(s.packages[s.runner.id], s.runner.steps[0])
    ensures forall y: Overlay :: IsOverlay(Next(s, e), y) <==> IsOverlay(s, y) && y != x
    ensures Next(s, e).there == e.there
  {
    var r, k := s.packages[s.runner.id], s.runner.steps[0];
    assert StepOk(r, k);
    x := Overlay(s.runner.id, k, r.items[k], r.results[k].at, r.results[k].previous);
  }

  lemma PlainNext(s: Service, e: Event)
    requires Enabled(s, e) && PackagesPlain(s) && Plain(s, e)
    ensures PackagesPlain(Next(s, e))
  {
    hide OneEach, CountApplied, SomeUndone, Plan, CanPutBack, HasNewer, RanBefore, Later, AfterReverting, AfterApplying;
  }

  lemma BegunFree(s: Service, id: string, planned: bool)
    requires ServiceOk(s) && PackagesPlain(s) && Enabled(s, Begin(id, planned))
    ensures StepsFree(Next(s, Begin(id, planned)))
  {
    hide CanPutBack, Plan;
    var s', n := Next(s, Begin(id, planned)), |s.packages[id].results|;
    PlanIs(s, id, n);
    assert RecordOk(s.packages[id]) && OneEach(s.packages[id].items);
    forall i, x: Overlay, y: Overlay |
      0 <= i < |s'.runner.steps| && IsOverlay(s', x) && x.id == id && x.k == s'.runner.steps[i] && IsOverlay(s', y) && y.item.target == x.item.target
      ensures y.at <= x.at
    {
      NotOver(s, id, x.k, y);
    }
  }

  lemma OverIsLater(s: Service, id: string, k: nat, y: Overlay)
    requires id in s.packages && PackagesPlain(s) && k < |s.packages[id].items| && IsOverlay(s, y) && y.id != id
    requires !s.packages[id].items[k].action.Script? && y.item.target == s.packages[id].items[k].target
    ensures forall at :: y.at > at ==> Later(s.packages, id, s.packages[id].items[k], at)
  {
    assert OneEach(s.packages[y.id].items);
    forall at | y.at > at ensures Later(s.packages, id, s.packages[id].items[k], at) {
      assert AppliedOver(s.packages[y.id], s.packages[id].items[k], at);
    }
  }

  lemma NotOver(s: Service, id: string, k: nat, y: Overlay)
    requires id in s.packages && OneEach(s.packages[id].items) && PackagesPlain(s) && k < |s.packages[id].results| && k < |s.packages[id].items|
    requires CanPutBack(s, id, k) && IsOverlay(s, y) && y.item.target == s.packages[id].items[k].target
    ensures y.at <= s.packages[id].results[k].at
  {
    if y.id != id {
      OverIsLater(s, id, k, y);
    }
  }

  lemma StepOfPlain(s: Service, base: map<string, string>, stacks: Stacks, e: Event) returns (stacks': Stacks)
    requires ServiceOk(s) && UndoOk(s, base, stacks) && Enabled(s, e) && Plain(s, e)
    ensures UndoOk(Next(s, e), base, stacks')
  {
    hide ServiceOk, Enabled, Next, Plain, IsOverlay, Piled, OneEach;
    stacks' := stacks;
    PlainNext(s, e);
    if e.Do? && e.did == WasApplied {
      stacks' := DoOfPlain(s, base, stacks, e);
    } else if e.Undo? && e.putting == PutBack {
      stacks' := UndoOfPlain(s, base, stacks, e);
    } else {
      OtherOfPlain(s, base, stacks, e);
    }
  }

  lemma StandsAsBefore(s: Service, e: Event)
    requires ServiceOk(s) && PackagesPlain(s) && Enabled(s, e) && Plain(s, e)
    requires !(e.Do? && e.did == WasApplied) && !(e.Undo? && e.putting == PutBack)
    ensures SameOverlays(s, Next(s, e))
  {
    hide ServiceOk, SameOverlays, Next, OneEach;
    if e.Start? {
      StartedOverlays(s, e.id);
    } else if e.Do? || e.Finish? {
      AppliesOverlays(s, e);
    } else if e.Begin? || e.End? {
      BeginsOverlays(s, e);
    } else if e.Mark? || e.Undo? {
      UndoesOverlays(s, e);
    } else if e.Approve? || e.Reject? || e.Revert? {
      AskedOverlays(s, e);
    } else {
      ArrivesOverlays(s, e);
    }
  }

  lemma OtherOfPlain(s: Service, base: map<string, string>, stacks: Stacks, e: Event)
    requires ServiceOk(s) && UndoOk(s, base, stacks) && Enabled(s, e) && Plain(s, e)
    requires !(e.Do? && e.did == WasApplied) && !(e.Undo? && e.putting == PutBack)
    ensures UndoOk(Next(s, e), base, stacks)
  {
    hide ServiceOk, IsOverlay, Piled, OneEach, CountApplied, SomeUndone, Plan, CanPutBack, HasNewer, RanBefore, Later, AfterReverting, AfterApplying, StepsFree;
    PlainNext(s, e);
    StandsAsBefore(s, e);
    if e.Begin? {
      BegunFree(s, e.id, e.planned);
    } else {
      StepsStayFree(s, Next(s, e));
    }
    Untouched(s, Next(s, e), base, stacks);
  }

  lemma DoOfPlain(s: Service, base: map<string, string>, stacks: Stacks, e: Event) returns (stacks': Stacks)
    requires ServiceOk(s) && UndoOk(s, base, stacks) && Enabled(s, e) && Plain(s, e) && e.Do? && e.did == WasApplied
    ensures UndoOk(Next(s, e), base, stacks')
  {
    hide ServiceOk, IsOverlay, Piled, OneEach, RanBefore;
    var s' := Next(s, e);
    PlainNext(s, e);
    var x := DoneOverlays(s, e);
    var t := x.item.target;
    stacks' := stacks[t := Stack(stacks, t) + [x]];
    forall target ensures Piled(s', base, Stack(stacks', target), target) {
      assert Piled(s, base, Stack(stacks, target), target);
      if target == t {
        PiledOn(s, s', base, Stack(stacks, t), x);
      } else {
        OtherTargets(s, s', base, Stack(stacks, target), target);
      }
    }
  }

  lemma UndoOfPlain(s: Service, base: map<string, string>, stacks: Stacks, e: Event) returns (stacks': Stacks)
    requires ServiceOk(s) && UndoOk(s, base, stacks) && Enabled(s, e) && Plain(s, e) && e.Undo? && e.putting == PutBack
    ensures UndoOk(Next(s, e), base, stacks')
  {
    hide ServiceOk, Piled, OneEach;
    var s' := Next(s, e);
    PlainNext(s, e);
    var x := UndoneOverlays(s, e);
    StepsStayFree(s, s');
    var t := x.item.target;
    var st := Stack(stacks, t);
    stacks' := stacks[t := if st == [] then [] else st[..|st| - 1]];
    assert Piled(s, base, st, t);
    TakenOff(s, s', base, st, x);
    forall target ensures Piled(s', base, Stack(stacks', target), target) {
      assert Piled(s, base, Stack(stacks, target), target);
      if target != t {
        OtherTargets(s, s', base, Stack(stacks, target), target);
      }
    }
  }

  // ------------------------------------------------------------ what holds in every plain run

  lemma {:induction false} AlwaysPiled(now: int, base: map<string, string>, es: seq<Event>) returns (stacks: Stacks)
    requires Possible(Nothing(now, base), es) && PlainRun(Nothing(now, base), es)
    ensures ServiceOk(After(Nothing(now, base), es)) && UndoOk(After(Nothing(now, base), es), base, stacks)
  {
    hide ServiceOk, Enabled, Next, Plain, UndoOk;
    if es == [] {
      stacks := map[];
      NothingPiled(now, base);
    } else {
      var init := es[..|es| - 1];
      stacks := AlwaysPiled(now, base, init);
      NextOk(After(Nothing(now, base), init), es[|es| - 1]);
      stacks := StepOfPlain(After(Nothing(now, base), init), base, stacks, es[|es| - 1]);
    }
  }

  lemma NothingPiled(now: int, base: map<string, string>)
    ensures ServiceOk(Nothing(now, base)) && UndoOk(Nothing(now, base), base, map[])
  {
  }

  /** Of what stands over a target, the one applied last before some time. */
  ghost predicate LastBefore(s: Service, target: string, x: Overlay, before: int) {
    && IsOverlay(s, x) && x.item.target == target && x.at < before
    && forall y: Overlay :: IsOverlay(s, y) && y.item.target == target && y.at < before ==> y.at <= x.at
  }

  ghost predicate NoneBefore(s: Service, target: string, before: int) {
    forall y: Overlay :: IsOverlay(s, y) && y.item.target == target ==> y.at >= before
  }

  lemma PileShows(s: Service, base: map<string, string>, st: seq<Overlay>, target: string, n: nat, before: int)
    requires Piled(s, base, st, target) && n <= |st|
    requires (n < |st| ==> before == st[n].at) && (n == |st| ==> forall y: Overlay :: IsOverlay(s, y) && y.item.target == target ==> y.at < before)
    ensures forall x: Overlay :: LastBefore(s, target, x, before) ==> Shown(Look(base, target), st[..n]) == Left(x.item)
    ensures NoneBefore(s, target, before) ==> Shown(Look(base, target), st[..n]) == Look(base, target)
  {
    hide IsOverlay, Look, Left;
    forall i | 0 <= i < |st| ensures IsOverlay(s, st[i]) && st[i].item.target == target {
      assert st[i] in st;
    }
    assert n > 0 ==> st[n - 1].at < before;
    forall x: Overlay | LastBefore(s, target, x, before) ensures n > 0 && st[n - 1] == x {
      assert x in st;
      var i :| 0 <= i < |st| && st[i] == x;
      assert i < n;
    }
  }

  /**
   * In every plain run each target holds what the latest result standing over it left, or what was there
   * at the start; and each result that stands found what the one beneath it left.
   */
  lemma LastInFirstOut(now: int, base: map<string, string>, es: seq<Event>, target: string, x: Overlay)
    requires Possible(Nothing(now, base), es) && PlainRun(Nothing(now, base), es)
    ensures var s := After(Nothing(now, base), es);
            && (LastBefore(s, target, x, s.now + 1) ==> Look(s.there, target) == Left(x.item))
            && (NoneBefore(s, target, s.now + 1) ==> Look(s.there, target) == Look(base, target))
            && forall y: Overlay :: IsOverlay(s, y) && y.item.target == target ==>
                 && (LastBefore(s, target, x, y.at) ==> y.previous == Left(x.item))
                 && (NoneBefore(s, target, y.at) ==> y.previous == Look(base, target))
  {
    hide IsOverlay, Look, Left, ServiceOk, Enabled, Next, Plain, LastBefore, NoneBefore, Shown;
    var stacks := AlwaysPiled(now, base, es);
    var s := After(Nothing(now, base), es);
    var st := Stack(stacks, target);
    assert Piled(s, base, st, target);
    PileShows(s, base, st, target, |st|, s.now + 1);
    assert st[..|st|] == st;
    forall y: Overlay | IsOverlay(s, y) && y.item.target == target
      ensures LastBefore(s, target, x, y.at) ==> y.previous == Left(x.item)
      ensures NoneBefore(s, target, y.at) ==> y.previous == Look(base, target)
    {
      assert y in st;
      var n :| 0 <= n < |st| && st[n] == y;
      PileShows(s, base, st, target, n, y.at);
    }
  }
}
