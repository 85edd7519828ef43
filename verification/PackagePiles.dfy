/** What stands over each target, as a pile: each result over what it found. */
module PackagePiles {
  import opened Options
  import opened Packages
  import opened PackageLifecycle

  // ------------------------------------------------------------ plain runs

  ghost predicate OneEach(items: seq<Item>) {
    && (forall i :: 0 <= i < |items| ==> !items[i].action.Script?)
    && (forall i, j :: 0 <= i < j < |items| ==> items[i].target != items[j].target)
  }

  /** The service is not interrupted, the machine answers plainly and does what it says, and keeps a copy of what it replaces. */
  ghost predicate Plain(s: Service, e: Event)
    requires Enabled(s, e)
  {
    match e
    case Stop => false
    case Close(_, _, _, items) => OneEach(items)
    case Import(_, _, _, items) => OneEach(items)
    case Do(did, kept, at, there) =>
      var r := s.packages[s.runner.id];
      var item := r.items[|r.results|];
      at > s.now && kept && did != NotKnown && there == if did == WasApplied then Put(s.there, item.target, Left(item)) else s.there
    case Undo(putting, there) =>
      var r, k := s.packages[s.runner.id], s.runner.steps[0];
      putting != PutBackNotKnown
      && k < |r.items| && there == if putting == PutBack then Put(s.there, r.items[k].target, r.results[k].previous) else s.there
    case _ => true
  }

  ghost predicate PlainRun(s: Service, es: seq<Event>)
    requires Possible(s, es)
  {
    es == [] || (PlainRun(s, es[..|es| - 1]) && Plain(After(s, es[..|es| - 1]), es[|es| - 1]))
  }

  // ------------------------------------------------------------ what stands over each target

  /** A result that stands: of which item, since when, and over what. */
  datatype Overlay = Overlay(id: string, k: nat, item: Item, at: int, previous: Option<string>)

  ghost predicate IsOverlay(s: Service, x: Overlay) {
    && Standing(s, x.id, x.k) && x.k < |s.packages[x.id].items| && x.item == s.packages[x.id].items[x.k]
    && x.at == s.packages[x.id].results[x.k].at && x.previous == s.packages[x.id].results[x.k].previous
  }

  /** What a target holds with these over it. */
  ghost function Shown(bottom: Option<string>, st: seq<Overlay>): Option<string> {
    if st == [] then bottom else Left(st[|st| - 1].item)
  }

  /** The oldest first, each over what it found. */
  ghost predicate Chained(bottom: Option<string>, st: seq<Overlay>) {
    && (forall i, j :: 0 <= i < j < |st| ==> st[i].at < st[j].at)
    && (forall i :: 0 <= i < |st| ==> st[i].previous == Shown(bottom, st[..i]))
  }

  type Stacks = map<string, seq<Overlay>>

  ghost function Stack(stacks: Stacks, target: string): seq<Overlay> {
    if target in stacks then stacks[target] else []
  }

  ghost predicate Piled(s: Service, base: map<string, string>, st: seq<Overlay>, target: string) {
    && (forall x: Overlay :: x in st <==> IsOverlay(s, x) && x.item.target == target)
    && Chained(Look(base, target), st) && Look(s.there, target) == Shown(Look(base, target), st)
  }

  ghost predicate NoneAhead(s: Service) {
    forall x: Overlay :: IsOverlay(s, x) ==> x.at <= s.now
  }

  ghost predicate PackagesPlain(s: Service) {
    forall id :: id in s.packages ==> OneEach(s.packages[id].items)
  }

  /** Nothing stands over what is about to be put back. */
  ghost predicate StepsFree(s: Service) {
    s.runner.Undoing? ==>
      forall i, x :: 0 <= i < |s.runner.steps| && IsOverlay(s, x) && x.id == s.runner.id && x.k == s.runner.steps[i] ==>
        forall y: Overlay :: IsOverlay(s, y) && y.item.target == x.item.target ==> y.at <= x.at
  }

  ghost predicate UndoOk(s: Service, base: map<string, string>, stacks: Stacks) {
    NoneAhead(s) && PackagesPlain(s) && StepsFree(s) && forall target :: Piled(s, base, Stack(stacks, target), target)
  }

  // ------------------------------------------------------------ steps that leave what stands alone

  ghost predicate SameOverlays(s: Service, s': Service) {
    forall x: Overlay :: IsOverlay(s', x) <==> IsOverlay(s, x)
  }

  lemma Untouched(s: Service, s': Service, base: map<string, string>, stacks: Stacks)
    requires UndoOk(s, base, stacks) && SameOverlays(s, s') && s'.there == s.there && s'.now >= s.now
    requires PackagesPlain(s') && StepsFree(s')
    ensures UndoOk(s', base, stacks)
  {
    hide IsOverlay, Chained, Shown, OneEach;
    forall target ensures Piled(s', base, Stack(stacks, target), target) {
      assert Piled(s, base, Stack(stacks, target), target);
    }
  }

  /** The steps stay free when nothing new stands. */
  lemma StepsStayFree(s: Service, s': Service)
    requires StepsFree(s) && (forall x: Overlay :: IsOverlay(s', x) ==> IsOverlay(s, x))
    requires s'.runner.Undoing? ==> s.runner.Undoing? && s'.runner.id == s.runner.id && forall k :: k in s'.runner.steps ==> k in s.runner.steps
    ensures StepsFree(s')
  {
    hide IsOverlay;
    if s'.runner.Undoing? {
      forall i, x | 0 <= i < |s'.runner.steps| && IsOverlay(s', x) && x.id == s'.runner.id && x.k == s'.runner.steps[i]
        ensures forall y: Overlay :: IsOverlay(s', y) && y.item.target == x.item.target ==> y.at <= x.at
      {
        assert x.k in s.runner.steps;
        var j :| 0 <= j < |s.runner.steps| && s.runner.steps[j] == x.k;
      }
    }
  }

  // ------------------------------------------------------------ the two steps that change what stands

  lemma ChainedMore(bottom: Option<string>, st: seq<Overlay>, x: Overlay)
    requires Chained(bottom, st) && x.previous == Shown(bottom, st) && forall y: Overlay :: y in st ==> y.at < x.at
    ensures Chained(bottom, st + [x]) && Shown(bottom, st + [x]) == Left(x.item)
  {
    hide Left;
    var more := st + [x];
    forall i | 0 <= i < |st| ensures st[i].at < x.at {
      assert st[i] in st;
    }
    forall i | 0 <= i < |more| ensures more[i].previous == Shown(bottom, more[..i]) {
      assert more[..i] == st[..i];
      assert st[..|st|] == st;
    }
  }

  /** One more stands, over what was there. */
  lemma PiledOn(s: Service, s': Service, base: map<string, string>, st: seq<Overlay>, x: Overlay)
    requires Piled(s, base, st, x.item.target) && NoneAhead(s) && x.at > s.now && x.previous == Look(s.there, x.item.target)
    requires forall y: Overlay :: IsOverlay(s', y) <==> IsOverlay(s, y) || y == x
    requires Look(s'.there, x.item.target) == Left(x.item)
    ensures Piled(s', base, st + [x], x.item.target)
  {
    hide IsOverlay, Look, Left, Chained, Shown;
    ChainedMore(Look(base, x.item.target), st, x);
  }

  /** The one with the latest time is the last. */
  lemma LatestIsLast(bottom: Option<string>, st: seq<Overlay>, x: Overlay)
    requires Chained(bottom, st) && x in st && forall y: Overlay :: y in st ==> y.at <= x.at
    ensures st != [] && st[|st| - 1] == x && forall y: Overlay :: y in st[..|st| - 1] <==> y in st && y != x
  {
    hide Shown;
    var i :| 0 <= i < |st| && st[i] == x;
    assert st[|st| - 1] in st;
    var rest := st[..|st| - 1];
    forall y: Overlay ensures y in rest <==> y in st && y != x {
      if y in st && y != x {
        var j :| 0 <= j < |st| && st[j] == y;
        assert rest[j] == y;
      }
      if y in rest {
        var j :| 0 <= j < |rest| && rest[j] == y;
        assert st[j].at < x.at;
      }
    }
  }

  lemma ChainedBefore(bottom: Option<string>, st: seq<Overlay>)
    requires Chained(bottom, st) && st != []
    ensures Chained(bottom, st[..|st| - 1]) && Shown(bottom, st[..|st| - 1]) == st[|st| - 1].previous
  {
    hide Shown;
    var rest := st[..|st| - 1];
    forall j | 0 <= j < |rest| ensures rest[j].previous == Shown(bottom, rest[..j]) {
      assert rest[..j] == st[..j];
    }
  }

  /** The last one goes, and what it found is back. */
  lemma TakenOff(s: Service, s': Service, base: map<string, string>, st: seq<Overlay>, x: Overlay)
    requires Piled(s, base, st, x.item.target) && IsOverlay(s, x)
    requires forall y: Overlay :: IsOverlay(s, y) && y.item.target == x.item.target ==> y.at <= x.at
    requires forall y: Overlay :: IsOverlay(s', y) <==> IsOverlay(s, y) && y != x
    requires Look(s'.there, x.item.target) == x.previous
    ensures st != [] && Piled(s', base, st[..|st| - 1], x.item.target)
  {
    hide IsOverlay, Look, Left, Chained, Shown;
    var bottom := Look(base, x.item.target);
    LatestIsLast(bottom, st, x);
    ChainedBefore(bottom, st);
  }

  lemma OtherTargets(s: Service, s': Service, base: map<string, string>, st: seq<Overlay>, target: string)
    requires Piled(s, base, st, target) && Look(s'.there, target) == Look(s.there, target)
    requires forall y: Overlay :: y.item.target == target ==> (IsOverlay(s', y) <==> IsOverlay(s, y))
    ensures Piled(s', base, st, target)
  {
    hide IsOverlay, Look, Left, Chained, Shown;
  }
}
