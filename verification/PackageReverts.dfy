/** What a package that is put back altogether leaves of what it found. */
module PackageReverts {
  import opened Options
  import opened Packages
  import opened PackageLifecycle
  import opened PackagePiles
  import opened PackageUndo

  ghost predicate SameDeeds(a: seq<Result>, b: seq<Result>) {
    |a| == |b| && forall k :: 0 <= k < |a| ==> b[k] == a[k].(putting := b[k].putting)
  }

  /**
   * Since then: what the package held it still holds, or its target is as it was found; and what it did
   * not hold is as it was then.
   */
  ghost predicate Backed(s0: Service, s: Service, id: string)
    requires id in s0.packages
  {
    && id in s.packages && s.packages[id].items == s0.packages[id].items && SameDeeds(s0.packages[id].results, s.packages[id].results)
    && (forall x: Overlay :: IsOverlay(s0, x) && x.id == id ==> IsOverlay(s, x) || Look(s.there, x.item.target) == x.previous)
    && (forall x: Overlay :: IsOverlay(s, x) && x.id == id ==> IsOverlay(s0, x))
    && (forall k: nat :: Loose(s0, id, k) ==> Look(s.there, s0.packages[id].items[k].target) == Look(s0.there, s0.packages[id].items[k].target))
  }

  /** An item that has a result which does not stand. */
  ghost predicate Loose(s: Service, id: string, k: nat)
    requires id in s.packages
  {
    k < |s.packages[id].results| && k < |s.packages[id].items| && !Stands(s.packages[id].results[k])
  }

  lemma BackedNext(s0: Service, s: Service, e: Event, id: string)
    requires ServiceOk(s) && PackagesPlain(s) && Enabled(s, e) && Plain(s, e) && s.runner.Undoing? && s.runner.id == id
    requires id in s0.packages && Backed(s0, s, id)
    ensures Backed(s0, Next(s, e), id)
  {
    hide ServiceOk, Look;
    var s' := Next(s, e);
    DeedsNext(s, e, id);
    if e.Undo? && e.putting == PutBack {
      var x := UndoneOverlays(s, e);
      assert OneEach(s.packages[id].items);
      assert IsOverlay(s0, x);
      assert s'.there == Put(s.there, x.item.target, x.previous);
      PutThenLook(s.there, x.item.target, x.previous);
      forall y: Overlay | IsOverlay(s0, y) && y.id == id ensures IsOverlay(s', y) || Look(s'.there, y.item.target) == y.previous {
        if y.k == x.k {
          assert y == x;
        } else if !IsOverlay(s, y) {
          assert y.item.target != x.item.target;
        }
      }
    } else {
      OverlaysWhileUndoing(s, e);
    }
  }

  lemma DeedsNext(s: Service, e: Event, id: string)
    requires ServiceOk(s) && Enabled(s, e) && Plain(s, e) && s.runner.Undoing? && s.runner.id == id
    ensures id in s.packages && id in Next(s, e).packages && Next(s, e).packages[id].items == s.packages[id].items
    ensures SameDeeds(s.packages[id].results, Next(s, e).packages[id].results)
  {
    hide RecordOk, CountApplied, SomeUndone, SomeStands, Plan, CanPutBack, HasNewer, RanBefore, Later, AfterReverting, AfterApplying;
  }

  lemma PutThenLook(there: map<string, string>, target: string, content: Option<string>)
    ensures Look(Put(there, target, content), target) == content
    ensures forall other :: other != target ==> Look(Put(there, target, content), other) == Look(there, other)
  {
  }

  lemma OverlaysWhileUndoing(s: Service, e: Event)
    requires ServiceOk(s) && PackagesPlain(s) && Enabled(s, e) && Plain(s, e) && s.runner.Undoing? && !(e.Undo? && e.putting == PutBack)
    ensures SameOverlays(s, Next(s, e)) && Next(s, e).there == s.there
  {
    hide ServiceOk, SameOverlays;
    StandsAsBefore(s, e);
  }

  /** The package is being put back, from here on. */
  ghost predicate AllTheWay(s: Service, es: seq<Event>, id: string)
    requires Possible(s, es)
  {
    After(s, es).runner.Undoing? && After(s, es).runner.id == id && (es == [] || AllTheWay(s, es[..|es| - 1], id))
  }

  lemma {:induction false} BackedAllTheWay(s0: Service, base: map<string, string>, stacks: Stacks, es: seq<Event>, id: string) returns (stacks': Stacks)
    requires ServiceOk(s0) && UndoOk(s0, base, stacks) && Possible(s0, es) && PlainRun(s0, es) && AllTheWay(s0, es, id)
    ensures ServiceOk(After(s0, es)) && UndoOk(After(s0, es), base, stacks')
    ensures id in s0.packages && Backed(s0, After(s0, es), id)
  {
    hide RecordOk, Enabled, Next, Plain, NoneAhead, StepsFree, Piled, IsOverlay, PackagesPlain, Backed;
    stacks' := stacks;
    if es == [] {
      BackedAtFirst(s0, id);
    } else {
      var init, e := es[..|es| - 1], es[|es| - 1];
      stacks' := BackedAllTheWay(s0, base, stacks, init, id);
      var s := After(s0, init);
      NextOk(s, e);
      BackedNext(s0, s, e, id);
      stacks' := StepOfPlain(s, base, stacks', e);
    }
  }

  lemma BackedAtFirst(s: Service, id: string)
    requires id in s.packages
    ensures Backed(s, s, id)
  {
  }

  // ------------------------------------------------------------ what is left when nothing stands any more

  /** An item of the package is on record as applied. */
  ghost predicate DidApply(s: Service, id: string, k: nat) {
    id in s.packages && k < |s.packages[id].results| && k < |s.packages[id].items| && s.packages[id].results[k].did == WasApplied
  }

  /** The target of an item is as the item found it. */
  ghost predicate AsFound(s: Service, id: string, k: nat)
    requires DidApply(s, id, k)
  {
    Look(s.there, s.packages[id].items[k].target) == s.packages[id].results[k].previous
  }

  lemma NothingStandsAsFound(s0: Service, s: Service, id: string)
    requires id in s0.packages && Backed(s0, s, id) && !SomeStands(s.packages[id])
    ensures forall k: nat :: DidApply(s, id, k) ==> DidApply(s0, id, k) && (AsFound(s, id, k) <==> Stands(s0.packages[id].results[k]) || AsFound(s0, id, k))
  {
    hide Look;
    forall k: nat | DidApply(s, id, k)
      ensures DidApply(s0, id, k) && (AsFound(s, id, k) <==> Stands(s0.packages[id].results[k]) || AsFound(s0, id, k))
    {
      var r := s0.packages[id].results[k];
      if Stands(r) {
        var x := Overlay(id, k, s0.packages[id].items[k], r.at, r.previous);
        assert IsOverlay(s0, x) && !IsOverlay(s, x);
      } else {
        assert Loose(s0, id, k);
      }
    }
  }

  /**
   * When a package ends up reverted, the target of an item is as the item found it exactly when the item
   * still stood when the putting back began, or its target was as found already then.
   */
  lemma RevertedLeavesAsFound(now: int, base: map<string, string>, es: seq<Event>, more: seq<Event>, id: string)
    requires Possible(Nothing(now, base), es) && PlainRun(Nothing(now, base), es)
    requires var s0 := After(Nothing(now, base), es);
             Possible(s0, more) && PlainRun(s0, more) && AllTheWay(s0, more, id) && Enabled(After(s0, more), End)
    ensures var s0 := After(Nothing(now, base), es);
            var s := Next(After(s0, more), End);
            && id in s0.packages && id in s.packages
            && (s.packages[id].status == Reverted ==>
                  forall k: nat :: DidApply(s, id, k) ==> DidApply(s0, id, k) && (AsFound(s, id, k) <==> Stands(s0.packages[id].results[k]) || AsFound(s0, id, k)))
  {
    hide RecordOk, Enabled, Plain, UndoOk, CountApplied, SomeUndone, Look, Backed, SomeStands, IsOverlay, DidApply, AsFound, Stands;
    var stacks := AlwaysPiled(now, base, es);
    var s0 := After(Nothing(now, base), es);
    stacks := BackedAllTheWay(s0, base, stacks, more, id);
    var s1 := After(s0, more);
    assert s1.runner.Undoing? && s1.runner.id == id;
    Ended(s0, s1, id);
    if Next(s1, End).packages[id].status == Reverted {
      NothingStandsAsFound(s0, Next(s1, End), id);
    }
  }

  lemma Ended(s0: Service, s: Service, id: string)
    requires id in s0.packages && Backed(s0, s, id) && Enabled(s, End) && s.runner.id == id
    ensures Backed(s0, Next(s, End), id)
    ensures Next(s, End).packages[id].status == Reverted ==> !SomeStands(Next(s, End).packages[id])
  {
    hide CountApplied, SomeUndone, Look;
    assert SomeStands(Next(s, End).packages[id]) <==> SomeStands(s.packages[id]);
  }

  // ------------------------------------------------------------ what can be told beforehand

  /** What the records show over a target: what the last result standing over it left, or what was there at first. */
  ghost predicate OnRecord(s: Service, base: map<string, string>, target: string, content: Option<string>) {
    || (exists x: Overlay :: OnTop(s, target, x) && Left(x.item) == content)
    || (Bare(s, target) && Look(base, target) == content)
  }

  ghost predicate OnTop(s: Service, target: string, x: Overlay) {
    LastBefore(s, target, x, s.now + 1)
  }

  ghost predicate Bare(s: Service, target: string) {
    NoneBefore(s, target, s.now + 1)
  }

  lemma SomeOrNone(s: Service, base: map<string, string>, stacks: Stacks, target: string)
    requires UndoOk(s, base, stacks)
    ensures Bare(s, target) || exists x: Overlay :: OnTop(s, target, x)
  {
    hide IsOverlay, Look, Shown, Stack, OneEach;
    var st := Stack(stacks, target);
    assert Piled(s, base, st, target);
    if st != [] {
      var x := st[|st| - 1];
      assert x in st;
      assert OnTop(s, target, x);
    }
  }

  /** In a plain run the records show what the targets hold. */
  lemma TargetsAreOnRecord(now: int, base: map<string, string>, es: seq<Event>, target: string, content: Option<string>)
    requires Possible(Nothing(now, base), es) && PlainRun(Nothing(now, base), es)
    ensures var s := After(Nothing(now, base), es); OnRecord(s, base, target, content) <==> Look(s.there, target) == content
  {
    hide UndoOk, LastBefore, NoneBefore, Look, Left, ServiceOk, IsOverlay;
    var s := After(Nothing(now, base), es);
    var stacks := AlwaysPiled(now, base, es);
    SomeOrNone(s, base, stacks, target);
    forall x: Overlay | OnTop(s, target, x) ensures Look(s.there, target) == Left(x.item) {
      LastInFirstOut(now, base, es, target, x);
    }
    LastInFirstOut(now, base, es, target, Overlay("", 0, Item(Drop, false, "", "", ""), 0, None));
  }

  /** The item still stands, or what was put over its target since it was put back is gone again. */
  ghost predicate WillBeAsFound(s: Service, base: map<string, string>, id: string, k: nat)
    requires DidApply(s, id, k)
  {
    Stands(s.packages[id].results[k]) || OnRecord(s, base, s.packages[id].items[k].target, s.packages[id].results[k].previous)
  }

  ghost function Asked(s: Service, id: string): Service
    requires Enabled(s, Revert(id)) && s.runner == Resting && |s.packages[id].results| <= |s.packages[id].items|
  {
    Next(Next(s, Revert(id)), Begin(id, true))
  }

  lemma AskedInRun(s: Service, es: seq<Event>, id: string) returns (es': seq<Event>)
    requires Possible(s, es) && PlainRun(s, es)
    requires var s0 := After(s, es); Enabled(s0, Revert(id)) && s0.runner == Resting && |s0.packages[id].results| <= |s0.packages[id].items|
    ensures Possible(s, es') && PlainRun(s, es') && After(s, es') == Asked(After(s, es), id)
  {
    hide Plan, CanPutBack, AfterReverting;
    var s0, asked := After(s, es), es + [Revert(id)];
    assert asked[..|es|] == es;
    es' := asked + [Begin(id, true)];
    assert es'[..|asked|] == asked;
  }

  /**
   * Whether a package that is asked to be put back leaves the target of an item as the item found it, if it
   * ends up reverted, can be told from the records before asking.
   */
  lemma ToldBeforehand(now: int, base: map<string, string>, es: seq<Event>, more: seq<Event>, id: string)
    requires Possible(Nothing(now, base), es) && PlainRun(Nothing(now, base), es)
    requires var s0 := After(Nothing(now, base), es);
             && Enabled(s0, Revert(id)) && s0.runner == Resting && |s0.packages[id].results| <= |s0.packages[id].items|
             && Possible(Asked(s0, id), more) && PlainRun(Asked(s0, id), more) && AllTheWay(Asked(s0, id), more, id) && Enabled(After(Asked(s0, id), more), End)
    ensures var s0 := After(Nothing(now, base), es);
            var s := Next(After(Asked(s0, id), more), End);
            id in s.packages && (s.packages[id].status == Reverted ==> forall k: nat :: DidApply(s, id, k) ==> DidApply(s0, id, k) && (AsFound(s, id, k) <==> WillBeAsFound(s0, base, id, k)))
  {
    hide Plain, Look, OnRecord, Possible, PlainRun, After, AllTheWay;
    var s0 := After(Nothing(now, base), es);
    var es' := AskedInRun(Nothing(now, base), es, id);
    RevertedLeavesAsFound(now, base, es', more, id);
    forall k: nat | DidApply(s0, id, k)
      ensures WillBeAsFound(s0, base, id, k) <==> Stands(s0.packages[id].results[k]) || AsFound(s0, id, k)
    {
      TargetsAreOnRecord(now, base, es, s0.packages[id].items[k].target, s0.packages[id].results[k].previous);
    }
    AskingChangesNothing(s0, id);
  }

  /** A package of which nothing had been put back before leaves everything as it was found. */
  lemma OneGoLeavesAllAsFound(now: int, base: map<string, string>, es: seq<Event>, more: seq<Event>, id: string)
    requires Possible(Nothing(now, base), es) && PlainRun(Nothing(now, base), es)
    requires var s0 := After(Nothing(now, base), es);
             && Enabled(s0, Revert(id)) && s0.runner == Resting && |s0.packages[id].results| <= |s0.packages[id].items|
             && Possible(Asked(s0, id), more) && PlainRun(Asked(s0, id), more) && AllTheWay(Asked(s0, id), more, id) && Enabled(After(Asked(s0, id), more), End)
    requires After(Nothing(now, base), es).packages[id].status != RevertedPartly
    ensures var s := Next(After(Asked(After(Nothing(now, base), es), id), more), End);
            id in s.packages && (s.packages[id].status == Reverted ==> forall k: nat :: DidApply(s, id, k) ==> AsFound(s, id, k))
  {
    hide Plain, Look, OnRecord, Possible, PlainRun, After, AllTheWay, AsFound, Next, RunnerOk;
    var s0 := After(Nothing(now, base), es);
    AlwaysOk(now, base, es);
    assert RecordOk(s0.packages[id]);
    ToldBeforehand(now, base, es, more, id);
  }

  lemma AskingChangesNothing(s: Service, id: string)
    requires Enabled(s, Revert(id)) && s.runner == Resting && |s.packages[id].results| <= |s.packages[id].items|
    ensures Asked(s, id).there == s.there && Asked(s, id).packages == s.packages[id := s.packages[id].(status := Reverting)]
  {
    hide Plan;
  }
}
