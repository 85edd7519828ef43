/**
 * A package put back in two goes need not leave its targets as it found them: between the goes another
 * package may be applied over what was already put back, and nothing keeps the first from ending up reverted.
 * PackageReverts says exactly when it does.
 */
module PackageTwoGoes {
  import opened Options
  import opened Packages
  import opened PackagePiles

  const X := Item(Define, false, "x", "x of first", "")
  const Y := Item(Define, false, "y", "y of first", "")
  const OVER := Item(Define, false, "y", "y of second", "")
  const BASE: map<string, string> := map["x" := "x at the start", "y" := "y at the start"]

  function Did(previous: string, at: int, putting: Putting): Result {
    Result(WasApplied, false, Some(previous), at, putting)
  }

  function First(status: Status, results: seq<Result>): Record {
    Record("first", 1, false, [X, Y], status, results, false)
  }

  function Second(status: Status, results: seq<Result>): Record {
    Record("second", 1, false, [OVER], status, results, false)
  }

  /** One step more of a plain run. */
  lemma Then(s: Service, es: seq<Event>, e: Event)
    requires Possible(s, es) && PlainRun(s, es) && Enabled(After(s, es), e) && Plain(After(s, es), e)
    ensures Possible(s, es + [e]) && PlainRun(s, es + [e]) && After(s, es + [e]) == Next(After(s, es), e)
  {
    hide Enabled, Next, Plain;
    assert (es + [e])[..|es|] == es;
  }

  lemma OneStepMore(s: Service, es: seq<Event>, before: Service, e: Event, after: Service) returns (es': seq<Event>)
    requires Possible(s, es) && PlainRun(s, es) && After(s, es) == before
    requires Enabled(before, e) && Plain(before, e) && Next(before, e) == after
    ensures Possible(s, es') && PlainRun(s, es') && After(s, es') == after
  {
    hide Enabled, Next, Plain;
    Then(s, es, e);
    es' := es + [e];
  }

  function With(now: int, first: Record, there: map<string, string>, runner: Runner): Service {
    Service(now, map["a" := first], there, runner)
  }

  function Both(now: int, first: Record, second: Record, there: map<string, string>, runner: Runner): Service {
    Service(now, map["a" := first, "b" := second], there, runner)
  }

  const AT_X: map<string, string> := BASE["x" := "x of first"]
  const AT_XY: map<string, string> := AT_X["y" := "y of first"]

  lemma StartOfRun(s: Service)
    ensures Possible(s, []) && PlainRun(s, []) && After(s, []) == s
  {
  }

  lemma Counted(a: Result, b: Result)
    ensures CountApplied([a]) == if a.did == WasApplied then 1 else 0
    ensures CountApplied([a, b]) == CountApplied([a]) + if b.did == WasApplied then 1 else 0
  {
    assert [a][..0] == [];
    assert [a, b][..1] == [a];
  }

  lemma Renewed(a: Record, b: Record, c: Record)
    ensures map["a" := a]["a" := c] == map["a" := c]
    ensures map["a" := a, "b" := b]["a" := c] == map["a" := c, "b" := b]
    ensures map["a" := a, "b" := b]["b" := c] == map["a" := a, "b" := c]
    ensures map["a" := a]["b" := c] == map["a" := a, "b" := c]
  {
  }

  const RX := Did("x at the start", 1, NotAsked)
  const RY := Did("y at the start", 2, NotAsked)

  /** The first package comes to be approved, and is begun. */
  lemma FirstBegun() returns (es: seq<Event>)
    ensures var s := Nothing(0, BASE);
            Possible(s, es) && PlainRun(s, es) && After(s, es) == With(0, First(Applying, []), BASE, Running("a"))
  {
    hide Possible, PlainRun, After;
    var s := Nothing(0, BASE);
    es := [];
    StartOfRun(s);
    es := OneStepMore(s, es, s, Close("a", "first", 1, [X, Y]), With(0, First(Closed, []), BASE, Resting));
    Renewed(First(Closed, []), First(Closed, []), First(Approved, []));
    es := OneStepMore(s, es, With(0, First(Closed, []), BASE, Resting), Approve("a"), With(0, First(Approved, []), BASE, Resting));
    Renewed(First(Approved, []), First(Closed, []), First(Applying, []));
    es := OneStepMore(s, es, With(0, First(Approved, []), BASE, Resting), Start("a"), With(0, First(Applying, []), BASE, Running("a")));
  }

  lemma FirstDoes()
    ensures var s := With(0, First(Applying, []), BASE, Running("a"));
            Enabled(s, Do(WasApplied, true, 1, AT_X)) && Plain(s, Do(WasApplied, true, 1, AT_X))
            && Next(s, Do(WasApplied, true, 1, AT_X)) == With(1, First(Applying, [RX]), AT_X, Running("a"))
  {
    hide RanBefore;
    Renewed(First(Applying, []), First(Applying, []), First(Applying, [RX]));
    assert [] + [RX] == [RX];
  }

  lemma FirstDoesMore()
    ensures var s := With(1, First(Applying, [RX]), AT_X, Running("a"));
            Enabled(s, Do(WasApplied, true, 2, AT_XY)) && Plain(s, Do(WasApplied, true, 2, AT_XY))
            && Next(s, Do(WasApplied, true, 2, AT_XY)) == With(2, First(Applying, [RX, RY]), AT_XY, Running("a"))
  {
    hide RanBefore;
    Renewed(First(Applying, [RX]), First(Applying, []), First(Applying, [RX, RY]));
    assert [RX] + [RY] == [RX, RY];
  }

  lemma FirstFinishes()
    ensures var s := With(2, First(Applying, [RX, RY]), AT_XY, Running("a"));
            Enabled(s, Finish) && Plain(s, Finish) && Next(s, Finish) == With(2, First(Applied, [RX, RY]), AT_XY, Resting)
  {
    Renewed(First(Applying, [RX, RY]), First(Applying, []), First(Applied, [RX, RY]));
    Counted(RX, RY);
  }

  lemma FirstApplied() returns (es: seq<Event>)
    ensures var s := Nothing(0, BASE);
            Possible(s, es) && PlainRun(s, es) && After(s, es) == With(2, First(Applied, [RX, RY]), AT_XY, Resting)
  {
    hide Possible, PlainRun, After, Enabled, Plain, Next;
    var s := Nothing(0, BASE);
    es := FirstBegun();
    FirstDoes();
    es := OneStepMore(s, es, With(0, First(Applying, []), BASE, Running("a")), Do(WasApplied, true, 1, AT_X), With(1, First(Applying, [RX]), AT_X, Running("a")));
    FirstDoesMore();
    es := OneStepMore(s, es, With(1, First(Applying, [RX]), AT_X, Running("a")), Do(WasApplied, true, 2, AT_XY), With(2, First(Applying, [RX, RY]), AT_XY, Running("a")));
    FirstFinishes();
    es := OneStepMore(s, es, With(2, First(Applying, [RX, RY]), AT_XY, Running("a")), Finish, With(2, First(Applied, [RX, RY]), AT_XY, Resting));
  }

  // ------------------------------------------------------------ the first go puts back one of two

  const UY := Did("y at the start", 2, PutBack)
  const NX := Did("x at the start", 1, NotPutBack)

  function Put1(status: Status, x: Putting, y: Putting): Record {
    First(status, [Did("x at the start", 1, x), Did("y at the start", 2, y)])
  }

  /** The results of the first package, with one of them put otherwise. */
  lemma PutOtherwise(status: Status, x: Putting, y: Putting, p: Putting)
    ensures var r := Put1(status, x, y);
            r.(results := r.results[0 := r.results[0].(putting := p)]) == Put1(status, p, y) && r.(results := r.results[1 := r.results[1].(putting := p)]) == Put1(status, x, p)
    ensures [1, 0][1..] == [0] && [0][1..] == []
  {
  }

  lemma PlanAll(s: Service)
    requires "a" in s.packages && s == With(2, Put1(s.packages["a"].status, NotAsked, NotAsked), AT_XY, Resting)
    ensures Plan(s, "a", 2) == [1, 0]
  {
    assert CanPutBack(s, "a", 1) && CanPutBack(s, "a", 0);
    assert Plan(s, "a", 0) == [] && Plan(s, "a", 1) == [0];
  }

  lemma AskBack() returns (es: seq<Event>)
    ensures var s := Nothing(0, BASE);
            Possible(s, es) && PlainRun(s, es) && After(s, es) == With(2, Put1(Reverting, NotAsked, NotAsked), AT_XY, Undoing("a", [1, 0], false))
  {
    hide Possible, PlainRun, After, Plan, CanPutBack;
    var s := Nothing(0, BASE);
    es := FirstApplied();
    var s1, s2 := With(2, Put1(Applied, NotAsked, NotAsked), AT_XY, Resting), With(2, Put1(Reverting, NotAsked, NotAsked), AT_XY, Resting);
    PlanAll(s1);
    PlanAll(s2);
    Renewed(Put1(Applied, NotAsked, NotAsked), First(Closed, []), Put1(Reverting, NotAsked, NotAsked));
    es := OneStepMore(s, es, s1, Revert("a"), s2);
    es := OneStepMore(s, es, s2, Begin("a", true), With(2, Put1(Reverting, NotAsked, NotAsked), AT_XY, Undoing("a", [1, 0], false)));
  }

  lemma YBack() returns (es: seq<Event>)
    ensures var s := Nothing(0, BASE);
            Possible(s, es) && PlainRun(s, es) && After(s, es) == With(2, Put1(Reverting, NotAsked, PutBack), AT_X, Undoing("a", [0], false))
  {
    hide Possible, PlainRun, After, Plan, CanPutBack, AfterReverting, AfterApplying, HasNewer, Outcome, Recovered, Supersede, Waits;
    var s := Nothing(0, BASE);
    es := AskBack();
    var s1, s2 := With(2, Put1(Reverting, NotAsked, NotAsked), AT_XY, Undoing("a", [1, 0], false)), With(2, Put1(Reverting, NotAsked, Underway), AT_XY, Undoing("a", [1, 0], true));
    Renewed(Put1(Reverting, NotAsked, NotAsked), First(Closed, []), Put1(Reverting, NotAsked, Underway));
    PutOtherwise(Reverting, NotAsked, NotAsked, Underway);
    PutOtherwise(Reverting, NotAsked, Underway, PutBack);
    es := OneStepMore(s, es, s1, Mark, s2);
    Renewed(Put1(Reverting, NotAsked, Underway), First(Closed, []), Put1(Reverting, NotAsked, PutBack));
    assert AT_XY["y" := "y at the start"] == AT_X;
    es := OneStepMore(s, es, s2, Undo(PutBack, AT_X), With(2, Put1(Reverting, NotAsked, PutBack), AT_X, Undoing("a", [0], false)));
  }

  lemma XTried() returns (es: seq<Event>)
    ensures var s := Nothing(0, BASE);
            Possible(s, es) && PlainRun(s, es) && After(s, es) == With(2, Put1(Reverting, Underway, PutBack), AT_X, Undoing("a", [0], true))
  {
    hide Possible, PlainRun, After, Plan, CanPutBack, AfterReverting, AfterApplying, Outcome, Recovered;
    var s := Nothing(0, BASE);
    es := YBack();
    Renewed(Put1(Reverting, NotAsked, PutBack), First(Closed, []), Put1(Reverting, Underway, PutBack));
    PutOtherwise(Reverting, NotAsked, PutBack, Underway);
    var s1 := With(2, Put1(Reverting, NotAsked, PutBack), AT_X, Undoing("a", [0], false));
    es := OneStepMore(s, es, s1, Mark, With(2, Put1(Reverting, Underway, PutBack), AT_X, Undoing("a", [0], true)));
  }

  lemma XNotBack() returns (es: seq<Event>)
    ensures var s := Nothing(0, BASE);
            Possible(s, es) && PlainRun(s, es) && After(s, es) == With(2, Put1(Reverting, NotPutBack, PutBack), AT_X, Undoing("a", [], false))
  {
    hide Possible, PlainRun, After, Plan, CanPutBack, AfterReverting, AfterApplying, Outcome, Recovered;
    var s := Nothing(0, BASE);
    es := XTried();
    Renewed(Put1(Reverting, Underway, PutBack), First(Closed, []), Put1(Reverting, NotPutBack, PutBack));
    PutOtherwise(Reverting, Underway, PutBack, NotPutBack);
    var s1 := With(2, Put1(Reverting, Underway, PutBack), AT_X, Undoing("a", [0], true));
    es := OneStepMore(s, es, s1, Undo(NotPutBack, AT_X), With(2, Put1(Reverting, NotPutBack, PutBack), AT_X, Undoing("a", [], false)));
  }

  lemma HalfBack() returns (es: seq<Event>)
    ensures var s := Nothing(0, BASE);
            Possible(s, es) && PlainRun(s, es) && After(s, es) == With(2, Put1(RevertedPartly, NotPutBack, PutBack), AT_X, Resting)
  {
    hide Possible, PlainRun, After, AfterReverting;
    var s := Nothing(0, BASE);
    es := XNotBack();
    var s3 := With(2, Put1(Reverting, NotPutBack, PutBack), AT_X, Undoing("a", [], false));
    Renewed(Put1(Reverting, NotPutBack, PutBack), First(Closed, []), Put1(RevertedPartly, NotPutBack, PutBack));
    PartlyBack();
    es := OneStepMore(s, es, s3, End, With(2, Put1(RevertedPartly, NotPutBack, PutBack), AT_X, Resting));
  }

  lemma PartlyBack()
    ensures AfterReverting(Put1(Reverting, NotPutBack, PutBack)) == RevertedPartly && AfterReverting(Put1(Reverting, PutBack, PutBack)) == Reverted
  {
    var r := Put1(Reverting, NotPutBack, PutBack);
    assert Stands(r.results[0]);
    assert r.results[1].putting == PutBack;
  }

  // ------------------------------------------------------------ another package is applied over what is back

  const RB := Did("y at the start", 3, NotAsked)
  const AT_B: map<string, string> := AT_X["y" := "y of second"]
  const HALF := First(RevertedPartly, [NX, UY])

  lemma SecondBegun() returns (es: seq<Event>)
    ensures var s := Nothing(0, BASE);
            Possible(s, es) && PlainRun(s, es) && After(s, es) == Both(2, HALF, Second(Applying, []), AT_X, Running("b"))
  {
    hide Possible, PlainRun, After;
    var s := Nothing(0, BASE);
    es := HalfBack();
    Renewed(HALF, First(Closed, []), Second(Closed, []));
    es := OneStepMore(s, es, With(2, HALF, AT_X, Resting), Close("b", "second", 1, [OVER]), Both(2, HALF, Second(Closed, []), AT_X, Resting));
    Renewed(HALF, Second(Closed, []), Second(Approved, []));
    es := OneStepMore(s, es, Both(2, HALF, Second(Closed, []), AT_X, Resting), Approve("b"), Both(2, HALF, Second(Approved, []), AT_X, Resting));
    Renewed(HALF, Second(Approved, []), Second(Applying, []));
    es := OneStepMore(s, es, Both(2, HALF, Second(Approved, []), AT_X, Resting), Start("b"), Both(2, HALF, Second(Applying, []), AT_X, Running("b")));
  }

  lemma SecondDoes()
    ensures var s := Both(2, HALF, Second(Applying, []), AT_X, Running("b"));
            Enabled(s, Do(WasApplied, true, 3, AT_B)) && Plain(s, Do(WasApplied, true, 3, AT_B))
            && Next(s, Do(WasApplied, true, 3, AT_B)) == Both(3, HALF, Second(Applying, [RB]), AT_B, Running("b"))
  {
    hide RanBefore;
    Renewed(HALF, Second(Applying, []), Second(Applying, [RB]));
    assert [] + [RB] == [RB];
  }

  lemma SecondFinishes()
    ensures var s := Both(3, HALF, Second(Applying, [RB]), AT_B, Running("b"));
            Enabled(s, Finish) && Plain(s, Finish) && Next(s, Finish) == Both(3, HALF, Second(Applied, [RB]), AT_B, Resting)
  {
    Renewed(HALF, Second(Applying, [RB]), Second(Applied, [RB]));
    Counted(RB, RB);
  }

  lemma SecondApplied() returns (es: seq<Event>)
    ensures var s := Nothing(0, BASE);
            Possible(s, es) && PlainRun(s, es) && After(s, es) == Both(3, HALF, Second(Applied, [RB]), AT_B, Resting)
  {
    hide Possible, PlainRun, After, Enabled, Plain, Next;
    var s := Nothing(0, BASE);
    es := SecondBegun();
    SecondDoes();
    es := OneStepMore(s, es, Both(2, HALF, Second(Applying, []), AT_X, Running("b")), Do(WasApplied, true, 3, AT_B), Both(3, HALF, Second(Applying, [RB]), AT_B, Running("b")));
    SecondFinishes();
    es := OneStepMore(s, es, Both(3, HALF, Second(Applying, [RB]), AT_B, Running("b")), Finish, Both(3, HALF, Second(Applied, [RB]), AT_B, Resting));
  }

  // ------------------------------------------------------------ the second go puts back the other

  lemma PlanRest(status: Status)
    ensures var s := Both(3, First(status, [NX, UY]), Second(Applied, [RB]), AT_B, Resting);
            Plan(s, "a", 2) == [0]
  {
    var s := Both(3, First(status, [NX, UY]), Second(Applied, [RB]), AT_B, Resting);
    assert !CanPutBack(s, "a", 1);
    assert CanPutBack(s, "a", 0);
    assert Plan(s, "a", 0) == [] && Plan(s, "a", 1) == [0];
  }

  lemma AskAgain() returns (es: seq<Event>)
    ensures var s := Nothing(0, BASE);
            Possible(s, es) && PlainRun(s, es) && After(s, es) == Both(3, First(Reverting, [NX, UY]), Second(Applied, [RB]), AT_B, Undoing("a", [0], false))
  {
    hide Possible, PlainRun, After, Plan, CanPutBack;
    var s, other := Nothing(0, BASE), Second(Applied, [RB]);
    es := SecondApplied();
    PlanRest(RevertedPartly);
    PlanRest(Reverting);
    Renewed(HALF, other, First(Reverting, [NX, UY]));
    var s2 := Both(3, First(Reverting, [NX, UY]), other, AT_B, Resting);
    es := OneStepMore(s, es, Both(3, HALF, other, AT_B, Resting), Revert("a"), s2);
    es := OneStepMore(s, es, s2, Begin("a", true), Both(3, First(Reverting, [NX, UY]), other, AT_B, Undoing("a", [0], false)));
  }

  const LAST: map<string, string> := AT_B["x" := "x at the start"]

  lemma XMarked() returns (es: seq<Event>)
    ensures var s := Nothing(0, BASE);
            Possible(s, es) && PlainRun(s, es) && After(s, es) == Both(3, Put1(Reverting, Underway, PutBack), Second(Applied, [RB]), AT_B, Undoing("a", [0], true))
  {
    hide Possible, PlainRun, After, Plan, CanPutBack, AfterReverting, AfterApplying, Outcome, Recovered;
    var s, other := Nothing(0, BASE), Second(Applied, [RB]);
    es := AskAgain();
    Renewed(First(Reverting, [NX, UY]), other, Put1(Reverting, Underway, PutBack));
    PutOtherwise(Reverting, NotPutBack, PutBack, Underway);
    var s1 := Both(3, First(Reverting, [NX, UY]), other, AT_B, Undoing("a", [0], false));
    es := OneStepMore(s, es, s1, Mark, Both(3, Put1(Reverting, Underway, PutBack), other, AT_B, Undoing("a", [0], true)));
  }

  lemma XBack() returns (es: seq<Event>)
    ensures var s := Nothing(0, BASE);
            Possible(s, es) && PlainRun(s, es) && After(s, es) == Both(3, Put1(Reverting, PutBack, PutBack), Second(Applied, [RB]), LAST, Undoing("a", [], false))
  {
    hide Possible, PlainRun, After, Plan, CanPutBack, AfterReverting, AfterApplying, Outcome, Recovered;
    var s, other := Nothing(0, BASE), Second(Applied, [RB]);
    es := XMarked();
    Renewed(Put1(Reverting, Underway, PutBack), other, Put1(Reverting, PutBack, PutBack));
    PutOtherwise(Reverting, Underway, PutBack, PutBack);
    var s1 := Both(3, Put1(Reverting, Underway, PutBack), other, AT_B, Undoing("a", [0], true));
    es := OneStepMore(s, es, s1, Undo(PutBack, LAST), Both(3, Put1(Reverting, PutBack, PutBack), other, LAST, Undoing("a", [], false)));
  }

  /** The package ends up reverted, and one of its targets is not as it was when its item was applied. */
  lemma RevertedInTwoGoes() returns (es: seq<Event>)
    ensures var s := Nothing(0, BASE);
            Possible(s, es) && PlainRun(s, es) &&
            var last := After(s, es);
            && "a" in last.packages && last.packages["a"].status == Reverted && |last.packages["a"].results| == 2 == |last.packages["a"].items|
            && Look(last.there, last.packages["a"].items[1].target) != last.packages["a"].results[1].previous
  {
    hide Possible, PlainRun, After, AfterReverting;
    var s, other := Nothing(0, BASE), Second(Applied, [RB]);
    es := XBack();
    Renewed(Put1(Reverting, PutBack, PutBack), other, Put1(Reverted, PutBack, PutBack));
    PartlyBack();
    es := OneStepMore(s, es, Both(3, Put1(Reverting, PutBack, PutBack), other, LAST, Undoing("a", [], false)), End, Both(3, Put1(Reverted, PutBack, PutBack), other, LAST, Resting));
  }
}
