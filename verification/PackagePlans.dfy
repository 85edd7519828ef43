/** What is put back and what is not, and what comes of it, read off the fields of the records. */
module PackagePlans {
  import opened Options
  import opened Packages
  import opened PackageLifecycle

  // ------------------------------------------------------------ which items are put back

  /** Another package did something to the same thing later, which was not put back. */
  ghost predicate Covered(packages: map<string, Record>, id: string, k: nat)
    requires id in packages && k < |packages[id].results| && k < |packages[id].items|
  {
    exists other, j ::
      && other in packages && other != id && 0 <= j < |packages[other].results| && j < |packages[other].items|
      && packages[other].results[j].did == WasApplied && packages[other].results[j].putting != PutBack
      && packages[other].results[j].at > packages[id].results[k].at
      && packages[other].items[j].action != Script && packages[id].items[k].action != Script
      && packages[other].items[j].target == packages[id].items[k].target
  }

  /** What putting an item back takes is there: what was before, and for some the thing itself. */
  ghost predicate Recoverable(item: Item, result: Result, there: map<string, string>) {
    || (item.action == Replace && result.previous.Some? && item.target in there)
    || (item.action == Drop && result.previous.Some? && !item.table)
    || (item.action == Define && (result.previous.Some? || item.target in there) && !item.table)
  }

  /** The item was applied, was not put back, nothing was done over it later, and what it takes is there. */
  ghost predicate Undoable(s: Service, id: string, k: nat) {
    && id in s.packages && k < |s.packages[id].results| && k < |s.packages[id].items|
    && s.packages[id].results[k].did == WasApplied && s.packages[id].results[k].putting != PutBack
    && !Covered(s.packages, id, k)
    && Recoverable(s.packages[id].items[k], s.packages[id].results[k], s.there)
  }

  lemma CoveredIs(packages: map<string, Record>, id: string, k: nat)
    requires id in packages && k < |packages[id].results| && k < |packages[id].items|
    ensures Covered(packages, id, k) <==> Later(packages, id, packages[id].items[k], packages[id].results[k].at)
  {
    var item, at := packages[id].items[k], packages[id].results[k].at;
    if Later(packages, id, item, at) {
      var other :| other in packages && other != id && AppliedOver(packages[other], item, at);
      var j :| 0 <= j < |packages[other].results| && j < |packages[other].items| && Stands(packages[other].results[j])
               && packages[other].results[j].at > at && SameTarget(packages[other].items[j], item);
      assert Covered(packages, id, k);
    }
  }

  lemma UndoableIs(s: Service, id: string, k: nat)
    requires id in s.packages && k < |s.packages[id].results| && k < |s.packages[id].items|
    ensures Undoable(s, id, k) <==> CanPutBack(s, id, k)
  {
    hide Covered, Later;
    CoveredIs(s.packages, id, k);
  }

  lemma {:induction false} PlanHas(s: Service, id: string, n: nat, k: nat)
    requires id in s.packages && n <= |s.packages[id].results| && n <= |s.packages[id].items|
    ensures k in Plan(s, id, n) <==> k < n && Undoable(s, id, k)
  {
    hide CanPutBack, Undoable;
    if n > 0 {
      PlanHas(s, id, n - 1, k);
      UndoableIs(s, id, n - 1);
    }
  }

  /** What is put back is all that can be, the last applied first; nothing when it could not be planned. */
  lemma PlannedExactly(s: Service, id: string, planned: bool, k: nat)
    requires Enabled(s, Begin(id, planned))
    ensures var runner := Next(s, Begin(id, planned)).runner;
            && runner.Undoing? && runner.id == id && !runner.marked && Descending(runner.steps)
            && (k in runner.steps <==> planned && Undoable(s, id, k))
  {
    hide CanPutBack, Undoable;
    PlanIs(s, id, |s.packages[id].results|);
    PlanHas(s, id, |s.packages[id].results|, k);
    if Undoable(s, id, k) {
      InReach(s, id, k);
    }
  }

  lemma InReach(s: Service, id: string, k: nat)
    requires Undoable(s, id, k)
    ensures id in s.packages && k < |s.packages[id].results|
  {
  }

  /** Putting back can be asked for exactly when something was applied and some item can be put back. */
  lemma RevertExactly(s: Service, id: string)
    requires ServiceOk(s)
    ensures Enabled(s, Revert(id)) <==>
            && id in s.packages && (s.packages[id].status == Applied || s.packages[id].status == Partial || s.packages[id].status == RevertedPartly)
            && exists k: nat :: Undoable(s, id, k)
  {
    hide RunnerOk, CanPutBack, Undoable, Plan;
    if id in s.packages {
      assert RecordOk(s.packages[id]);
      var n := |s.packages[id].results|;
      var plan := Plan(s, id, n);
      forall k: nat ensures k in plan <==> Undoable(s, id, k) {
        PlanHas(s, id, n, k);
        if Undoable(s, id, k) {
          InReach(s, id, k);
        }
      }
      if plan != [] {
        assert plan[0] in plan;
      }
    }
  }

  // ------------------------------------------------------------ what is never put back

  /** Only what is no script, and no table but one replaced, is to be put back, and what was lost is not. */
  ghost predicate FitStep(r: Record, k: nat) {
    && k < |r.results| && k < |r.items|
    && r.items[k].action != Script && (r.items[k].table ==> r.items[k].action == Replace)
    && (r.items[k].action == Drop || r.items[k].action == Replace ==> r.results[k].previous.Some?)
  }

  ghost predicate StepsFit(s: Service) {
    s.runner.Undoing? ==> s.runner.id in s.packages && forall i :: 0 <= i < |s.runner.steps| ==> FitStep(s.packages[s.runner.id], s.runner.steps[i])
  }

  ghost predicate SameButPutting(r: Record, r': Record) {
    r'.items == r.items && |r'.results| == |r.results| && forall k :: 0 <= k < |r.results| ==> r'.results[k].previous == r.results[k].previous
  }

  lemma FitStays(s: Service, s': Service)
    requires StepsFit(s) && s.runner.Undoing? && s'.runner.Undoing? && s'.runner.id == s.runner.id
    requires s'.runner.id in s'.packages && SameButPutting(s.packages[s.runner.id], s'.packages[s.runner.id])
    requires forall k :: k in s'.runner.steps ==> k in s.runner.steps
    ensures StepsFit(s')
  {
    forall i | 0 <= i < |s'.runner.steps| ensures FitStep(s'.packages[s'.runner.id], s'.runner.steps[i]) {
      assert s'.runner.steps[i] in s.runner.steps;
      var j :| 0 <= j < |s.runner.steps| && s.runner.steps[j] == s'.runner.steps[i];
    }
  }

  lemma FitPlanned(s: Service, id: string, planned: bool)
    requires ServiceOk(s) && Enabled(s, Begin(id, planned))
    ensures StepsFit(Next(s, Begin(id, planned)))
  {
    hide Covered, Enabled, Next, ServiceOk, Descending;
    var s' := Next(s, Begin(id, planned));
    PlannedExactly(s, id, planned, 0);
    assert s'.packages == s.packages && id in s.packages by { BeginKeeps(s, id, planned); }
    forall i | 0 <= i < |s'.runner.steps| ensures FitStep(s'.packages[id], s'.runner.steps[i]) {
      assert s'.runner.steps[i] in s'.runner.steps;
      PlannedExactly(s, id, planned, s'.runner.steps[i]);
    }
  }

  lemma BeginKeeps(s: Service, id: string, planned: bool)
    requires Enabled(s, Begin(id, planned))
    ensures Next(s, Begin(id, planned)).packages == s.packages && id in s.packages
  {
  }

  lemma FitUndoing(s: Service, e: Event)
    requires StepsFit(s) && Enabled(s, e) && (e.Mark? || e.Undo?)
    ensures StepsFit(Next(s, e))
  {
    hide StepsFit;
    var s' := Next(s, e);
    assert forall k :: k in s'.runner.steps ==> k in s.runner.steps;
    FitStays(s, s');
  }

  lemma FitOutside(s: Service, e: Event)
    requires ServiceOk(s) && StepsFit(s) && Enabled(s, e) && !e.Mark? && !e.Undo? && !e.Begin?
    ensures StepsFit(Next(s, e))
  {
    hide CountApplied, Plan, CanPutBack, AfterReverting, AfterApplying, Recovered, Interrupted, HasNewer, RanBefore, Later, Waits, FitStep, RecordOk, StepOk, Descending;
    if s.runner.Undoing? && !e.End? && !e.Stop? {
      var s' := Next(s, e);
      assert s'.runner == s.runner;
      assert SameButPutting(s.packages[s.runner.id], s'.packages[s.runner.id]);
      FitStays(s, s');
    }
  }

  lemma FitNext(s: Service, e: Event)
    requires ServiceOk(s) && StepsFit(s) && Enabled(s, e)
    ensures StepsFit(Next(s, e))
  {
    hide ServiceOk, StepsFit, Enabled, Next;
    if e.Begin? {
      FitPlanned(s, e.id, e.planned);
    } else if e.Mark? || e.Undo? {
      FitUndoing(s, e);
    } else {
      FitOutside(s, e);
    }
  }

  lemma {:induction false} AlwaysFit(now: int, there: map<string, string>, es: seq<Event>)
    requires Possible(Nothing(now, there), es)
    ensures ServiceOk(After(Nothing(now, there), es)) && StepsFit(After(Nothing(now, there), es))
  {
    hide Enabled, Next, RunnerOk, RecordOk, FitStep;
    AlwaysOk(now, there, es);
    if es != [] {
      AlwaysFit(now, there, es[..|es| - 1]);
      FitNext(After(Nothing(now, there), es[..|es| - 1]), es[|es| - 1]);
    }
  }

  /**
   * In no run is the machine asked to put back a script, or a table that was defined or dropped: its rows
   * would be lost. What it is asked to put back was applied, was not put back yet, and of what was dropped or
   * replaced it is known what was there. After the first that is not put back nothing more is asked.
   */
  lemma NeverPutBack(now: int, there: map<string, string>, es: seq<Event>, e: Event)
    requires Possible(Nothing(now, there), es) && Enabled(After(Nothing(now, there), es), e) && (e.Mark? || e.Undo?)
    ensures var s := After(Nothing(now, there), es);
            && s.runner.Undoing? && s.runner.id in s.packages && s.runner.steps != []
            && var (r, k) := (s.packages[s.runner.id], s.runner.steps[0]);
            && k < |r.results| && k < |r.items|
            && r.items[k].action != Script && !(r.items[k].table && r.items[k].action != Replace)
            && (r.items[k].action == Drop || r.items[k].action == Replace ==> r.results[k].previous.Some?)
            && r.results[k].did == WasApplied && r.results[k].putting != PutBack
            && Next(s, e).runner.Undoing?
            && (e.Undo? && e.putting != PutBack ==> Next(s, e).runner.steps == [])
            && (e.Undo? && e.putting == PutBack ==> [k] + Next(s, e).runner.steps == s.runner.steps)
  {
    hide Possible, After, RecordOk, Descending;
    AlwaysFit(now, there, es);
    var s := After(Nothing(now, there), es);
    assert StepOk(s.packages[s.runner.id], s.runner.steps[0]);
  }

  // ------------------------------------------------------------ what comes of it

  /** A result that is there to stay, as long as nothing is done about it. */
  ghost predicate InPlace(r: Record, k: nat) {
    k < |r.results| && r.results[k].did == WasApplied && r.results[k].putting != PutBack
  }

  /** It was put back, or may have been. */
  ghost predicate Touched(r: Record, k: nat) {
    k < |r.results| && (r.results[k].putting == PutBack || r.results[k].putting == PutBackNotKnown)
  }

  /** Reverted when nothing stands any more; otherwise partly, once anything was put back or may have been. */
  ghost predicate SaysHowReverted(r: Record, status: Status) {
    && (status == Reverted <==> forall k :: !InPlace(r, k))
    && (status == RevertedPartly <==> (exists k :: InPlace(r, k)) && exists k :: Touched(r, k))
    && (status == Applied <==>
          (exists k :: InPlace(r, k)) && (forall k :: !Touched(r, k)) && |r.results| == |r.items| && forall k :: 0 <= k < |r.results| ==> r.results[k].did == WasApplied)
    && (status == Applied || status == Partial || status == Reverted || status == RevertedPartly)
  }

  lemma SaysSo(r: Record)
    requires |r.results| <= |r.items|
    ensures SaysHowReverted(r, AfterReverting(r))
  {
    AllApplied(r.results);
    if SomeStands(r) {
      var k :| 0 <= k < |r.results| && Stands(r.results[k]);
      assert InPlace(r, k);
    }
    if SomeUndone(r) {
      var k :| 0 <= k < |r.results| && (r.results[k].putting == PutBack || r.results[k].putting == PutBackNotKnown);
      assert Touched(r, k);
    }
  }

  /** When putting back ends, the status says what stands; nothing else changes. */
  lemma EndedSo(s: Service)
    requires ServiceOk(s) && Enabled(s, End)
    ensures var (id, s') := (s.runner.id, Next(s, End));
            && id in s'.packages && s' == s.(packages := s.packages[id := s.packages[id].(status := s'.packages[id].status)], runner := Resting)
            && SaysHowReverted(s.packages[id], s'.packages[id].status)
  {
    hide AfterReverting, SaysHowReverted, RunnerOk;
    assert RecordOk(s.packages[s.runner.id]);
    SaysSo(s.packages[s.runner.id]);
  }

  /** When applying ends: applied when every item was, failed when none was, and in part otherwise. */
  lemma FinishedSo(s: Service)
    requires ServiceOk(s) && Enabled(s, Finish)
    ensures var (id, s') := (s.runner.id, Next(s, Finish));
            && id in s'.packages && s' == s.(packages := s.packages[id := s.packages[id].(status := s'.packages[id].status)], runner := Resting)
            && var (r, status) := (s.packages[id], s'.packages[id].status);
            && (status == Applied <==> |r.results| == |r.items| && forall k :: 0 <= k < |r.results| ==> r.results[k].did == WasApplied)
            && (status == Failed <==> r.items != [] && forall k :: 0 <= k < |r.results| ==> r.results[k].did != WasApplied)
            && (status == Applied || status == Failed || status == Partial)
  {
    hide RunnerOk, CountApplied;
    assert RecordOk(s.packages[s.runner.id]);
    AllApplied(s.packages[s.runner.id].results);
    NoneApplied(s.packages[s.runner.id].results);
  }

  /** The next item is tried exactly as long as every one before it was applied. */
  lemma TriedExactly(s: Service, did: Did, kept: bool, at: int, there: map<string, string>)
    requires ServiceOk(s) && s.runner.Running?
    ensures var r := s.packages[s.runner.id];
            && (Enabled(s, Do(did, kept, at, there)) <==>
                  at >= s.now && |r.results| < |r.items| && forall k :: 0 <= k < |r.results| ==> r.results[k].did == WasApplied)
            && (Enabled(s, Finish) <==> |r.results| == |r.items| || exists k :: 0 <= k < |r.results| && r.results[k].did != WasApplied)
  {
    assert RecordOk(s.packages[s.runner.id]);
  }

  /** What is put on record of an item that is not skipped: how it went, and what it found there. */
  lemma RecordedSo(s: Service, did: Did, kept: bool, at: int, there: map<string, string>)
    requires Enabled(s, Do(did, kept, at, there))
    ensures var (id, s') := (s.runner.id, Next(s, Do(did, kept, at, there)));
            var (r, k) := (s.packages[id], |s.packages[id].results|);
            && id in s'.packages && s'.packages[id].results == r.results + [s'.packages[id].results[k]]
            && s'.now == at && s'.packages[id].results[k].at == at && s'.packages[id].results[k].putting == NotAsked
            && (r.items[k].action != Script ==> !s'.packages[id].results[k].skipped)
            && (s'.packages[id].results[k].skipped ==>
                  s'.there == s.there && s'.packages[id].results[k].did == WasApplied && s'.packages[id].results[k].previous == None)
            && (!s'.packages[id].results[k].skipped ==>
                  && s'.there == there && s'.packages[id].results[k].did == did
                  && (r.items[k].action == Script || (r.items[k].action == Replace && !kept) ==> s'.packages[id].results[k].previous == None)
                  && (r.items[k].action == Define || r.items[k].action == Drop || (r.items[k].action == Replace && kept) ==>
                        match s'.packages[id].results[k].previous
                        case None => r.items[k].target !in s.there
                        case Some(was) => r.items[k].target in s.there && was == s.there[r.items[k].target]))
  {
    hide RanBefore;
  }

  // ------------------------------------------------------------ a stop

  /** What the records of one package say after a stop. */
  ghost predicate StoppedSo(r: Record, r': Record) {
    && r' == r.(status := r'.status, results := r'.results) && |r'.results| == |r.results|
    && (r.status != Reverting ==> r'.results == r.results)
    && (r.status != Applying && r.status != Reverting ==> r' == r)
    && (r.status == Applying ==>
          && (r'.status == Partial <==> exists k :: 0 <= k < |r.results| && r.results[k].did == WasApplied)
          && (r'.status == Partial || r'.status == Failed))
    && (r.status == Reverting ==>
          && (forall k :: 0 <= k < |r.results| ==>
                r'.results[k] == r.results[k].(putting := r'.results[k].putting)
                && r'.results[k].putting == if r.results[k].putting == Underway then PutBackNotKnown else r.results[k].putting)
          && SaysHowReverted(r', r'.status))
  }

  lemma StopsSo(r: Record)
    requires |r.results| <= |r.items|
    ensures StoppedSo(r, Recovered(r))
  {
    hide CountApplied, AfterReverting, SaysHowReverted;
    NoneApplied(r.results);
    if r.status == Reverting {
      var stuck := r.(results := Interrupted(r.results));
      SaysSo(stuck);
      SaysOfAny(stuck, AfterReverting(stuck));
    }
  }

  /** What the status says does not depend on the status before. */
  lemma SaysOfAny(r: Record, status: Status)
    ensures SaysHowReverted(r, status) <==> SaysHowReverted(r.(status := status), status)
  {
    var r' := r.(status := status);
    forall k: nat ensures InPlace(r, k) <==> InPlace(r', k) {
    }
    forall k: nat ensures Touched(r, k) <==> Touched(r', k) {
    }
  }

  /** When the service stops, whatever was under way is not gone on with, and each package says how far it got. */
  lemma AfterAStop(s: Service)
    requires ServiceOk(s)
    ensures var s' := Next(s, Stop);
            && s'.runner == Resting && s'.now == s.now && s'.there == s.there && s'.packages.Keys == s.packages.Keys
            && forall id :: id in s.packages ==> StoppedSo(s.packages[id], s'.packages[id])
  {
    hide Recovered, StoppedSo, RunnerOk;
    forall id | id in s.packages ensures StoppedSo(s.packages[id], Recovered(s.packages[id])) {
      assert RecordOk(s.packages[id]);
      StopsSo(s.packages[id]);
    }
  }

  // ------------------------------------------------------------ what can be approved and refused

  /**
   * A package can be approved exactly when it waits, was put back altogether, was made here and only closed,
   * or failed on a refusal, and no version of its line here is newer.
   */
  lemma ApprovedExactly(s: Service, id: string)
    ensures Enabled(s, Approve(id)) <==>
            && id in s.packages
            && (|| s.packages[id].status == Pending || s.packages[id].status == Reverted
                || (s.packages[id].status == Closed && !s.packages[id].received)
                || (s.packages[id].status == Failed && forall k :: 0 <= k < |s.packages[id].results| ==> s.packages[id].results[k].did == WasRefused))
            && forall other :: other in s.packages && s.packages[other].line == s.packages[id].line ==> s.packages[other].version <= s.packages[id].version
    ensures Enabled(s, Approve(id)) ==> Next(s, Approve(id)) == s.(packages := s.packages[id := s.packages[id].(status := Approved)])
  {
    if Enabled(s, Approve(id)) {
      forall other | other in s.packages && s.packages[other].line == s.packages[id].line ensures s.packages[other].version <= s.packages[id].version {
      }
    }
  }

  /** What waits and was received is refused; an approval is taken back to where the package came from. */
  lemma RefusedExactly(s: Service, id: string)
    ensures Enabled(s, Reject(id)) <==> id in s.packages && (s.packages[id].status == Approved || (s.packages[id].status == Pending && s.packages[id].received))
    ensures Enabled(s, Reject(id)) ==>
              var (r, s') := (s.packages[id], Next(s, Reject(id)));
              && id in s'.packages && s' == s.(packages := s.packages[id := r.(status := s'.packages[id].status)])
              && (r.status == Pending ==> s'.packages[id].status == Rejected)
              && (r.status == Approved && r.received ==> s'.packages[id].status == Pending)
              && (r.status == Approved && !r.received ==> s'.packages[id].status == Closed)
  {
  }

  /** A package that is made here is closed, one that arrives waits; the older ones of its line that waited are superseded, and nothing else changes. */
  lemma ArrivedSo(s: Service, e: Event)
    requires Enabled(s, e) && (e.Close? || e.Import?)
    ensures var s' := Next(s, e);
            && e.id !in s.packages && e.id in s'.packages && s' == s.(packages := s'.packages) && s'.packages.Keys == s.packages.Keys + {e.id}
            && s'.packages[e.id] == Record(e.line, e.version, e.Import?, e.items, if e.Import? then Pending else Status.Closed, [], false)
            && forall other :: other in s.packages ==>
                 s'.packages[other] ==
                 if e.Import? && s.packages[other].line == e.line && s.packages[other].version < e.version && s.packages[other].status == Pending
                 then s.packages[other].(status := Superseded) else s.packages[other]
  {
  }

  /** What the sender hears is put on record, and nothing else. */
  lemma DeliveredSo(s: Service, id: string)
    requires Enabled(s, Deliver(id))
    ensures Next(s, Deliver(id)) == s.(packages := s.packages[id := s.packages[id].(delivered := true)])
  {
  }

  /** One package at a time: what is approved is begun only when nothing is being done, and what is to be put back likewise. */
  lemma OneAtATime(s: Service, id: string, planned: bool)
    requires ServiceOk(s)
    ensures Enabled(s, Start(id)) <==> s.runner == Resting && id in s.packages && s.packages[id].status == Approved
    ensures Enabled(s, Start(id)) ==>
              Next(s, Start(id)) == s.(runner := Running(id), packages := s.packages[id := s.packages[id].(status := Applying, results := [])])
    ensures Enabled(s, Begin(id, planned)) <==> s.runner == Resting && id in s.packages && s.packages[id].status == Reverting
    ensures Enabled(s, Begin(id, planned)) ==> Next(s, Begin(id, planned)).packages == s.packages
    ensures Enabled(s, End) <==> s.runner.Undoing? && s.runner.steps == []
  {
    if id in s.packages {
      assert RecordOk(s.packages[id]);
    }
  }
}
