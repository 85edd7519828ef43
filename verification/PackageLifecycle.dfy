/** What every step keeps of what a package did here, crashes included. */
module PackageLifecycle {
  import opened Packages

  // ------------------------------------------------------------ counting

  lemma {:induction false} AllApplied(results: seq<Result>)
    ensures CountApplied(results) == |results| <==> forall k :: 0 <= k < |results| ==> results[k].did == WasApplied
  {
    if results != [] {
      AllApplied(results[..|results| - 1]);
    }
  }

  lemma {:induction false} NoneApplied(results: seq<Result>)
    ensures CountApplied(results) == 0 <==> forall k :: 0 <= k < |results| ==> results[k].did != WasApplied
  {
    if results != [] {
      NoneApplied(results[..|results| - 1]);
    }
  }

  // ------------------------------------------------------------ the invariant

  /** The statuses in which something this package did may stand. */
  predicate MayStand(status: Status) {
    status == Applying || status == Applied || status == Partial || status == Reverting || status == RevertedPartly
  }

  ghost predicate RecordOk(r: Record) {
    && |r.results| <= |r.items|
    && (forall k :: 0 <= k < |r.results| - 1 ==> r.results[k].did == WasApplied)
    && (SomeStands(r) ==> MayStand(r.status))
    && (r.status == Applied ==> |r.results| == |r.items| && forall k :: 0 <= k < |r.results| ==> Stands(r.results[k]))
    && (r.status == Applying ==> forall k :: 0 <= k < |r.results| ==> r.results[k].putting == NotAsked)
    && (r.status == Partial ==> forall k :: 0 <= k < |r.results| ==> r.results[k].putting != PutBack)
    && (forall k :: 0 <= k < |r.results| && r.results[k].putting != NotAsked ==> r.results[k].did == WasApplied && !r.items[k].action.Script?)
  }

  ghost predicate Descending(steps: seq<nat>) {
    forall i, j :: 0 <= i < j < |steps| ==> steps[i] > steps[j]
  }

  ghost predicate RunnerOk(s: Service) {
    && (forall id :: id in s.packages && s.packages[id].status == Applying ==> s.runner == Running(id))
    && (s.runner.Running? ==> s.runner.id in s.packages && s.packages[s.runner.id].status == Applying)
    && (s.runner.Undoing? ==>
          && s.runner.id in s.packages && s.packages[s.runner.id].status == Reverting && Descending(s.runner.steps)
          && (forall i :: 0 <= i < |s.runner.steps| ==> StepOk(s.packages[s.runner.id], s.runner.steps[i])))
  }

  ghost predicate StepOk(r: Record, k: nat) {
    k < |r.results| && k < |r.items| && Stands(r.results[k]) && !r.items[k].action.Script?
  }

  ghost predicate ServiceOk(s: Service) {
    RunnerOk(s) && forall id :: id in s.packages ==> RecordOk(s.packages[id])
  }

  // ------------------------------------------------------------ one package

  lemma {:induction false} PlanIs(s: Service, id: string, n: nat)
    requires id in s.packages && n <= |s.packages[id].results| && n <= |s.packages[id].items|
    ensures Descending(Plan(s, id, n))
    ensures forall i :: 0 <= i < |Plan(s, id, n)| ==> Plan(s, id, n)[i] < n && CanPutBack(s, id, Plan(s, id, n)[i])
  {
    if n > 0 {
      PlanIs(s, id, n - 1);
    }
  }

  lemma AppliedOk(r: Record)
    requires RecordOk(r) && r.status == Applying
    ensures RecordOk(r.(status := AfterApplying(r)))
    ensures RecordOk(r.(status := if CountApplied(r.results) > 0 then Partial else Failed))
  {
    AllApplied(r.results);
    NoneApplied(r.results);
  }

  lemma RevertedOk(r: Record)
    requires RecordOk(r) && r.status == Reverting
    ensures RecordOk(r.(status := AfterReverting(r)))
  {
    AllApplied(r.results);
    if AfterReverting(r) == Applied {
      forall k | 0 <= k < |r.results| ensures Stands(r.results[k]) {
        assert r.results[k].putting != PutBack;
      }
    }
  }

  lemma InterruptedOk(r: Record)
    requires RecordOk(r) && r.status == Reverting
    ensures RecordOk(r.(results := Interrupted(r.results)))
  {
  }

  lemma RecoveredOk(r: Record)
    requires RecordOk(r)
    ensures RecordOk(Recovered(r)) && Recovered(r).status != Applying
  {
    if r.status == Applying {
      AppliedOk(r);
    } else if r.status == Reverting {
      InterruptedOk(r);
      RevertedOk(r.(results := Interrupted(r.results)));
    }
  }

  lemma OutcomeOk(r: Record, result: Result)
    requires RecordOk(r) && r.status == Applying && GoesOn(r) && result.putting == NotAsked
    ensures RecordOk(r.(results := r.results + [result]))
  {
  }

  lemma PuttingOk(r: Record, k: nat, putting: Putting)
    requires RecordOk(r) && r.status == Reverting && StepOk(r, k)
    ensures RecordOk(r.(results := r.results[k := r.results[k].(putting := putting)]))
  {
  }

  // ------------------------------------------------------------ every step

  lemma RestOk(r: Record, steps: seq<nat>, putting: Putting)
    requires Descending(steps) && steps != [] && StepOk(r, steps[0]) && forall i :: 0 <= i < |steps| ==> StepOk(r, steps[i])
    ensures Descending(steps[1..])
    ensures var r' := r.(results := r.results[steps[0] := r.results[steps[0]].(putting := putting)]);
            forall i :: 0 <= i < |steps[1..]| ==> StepOk(r', steps[1..][i])
  {
    forall i | 0 <= i < |steps[1..]| ensures steps[1..][i] < steps[0] && StepOk(r, steps[1..][i]) {
      assert steps[1..][i] == steps[i + 1];
    }
  }

  /** A record that takes the place of one, or is new, while nothing is being applied or put back there. */
  lemma SetOk(s: Service, id: string, r: Record)
    requires ServiceOk(s) && RecordOk(r) && r.status != Applying
    requires id in s.packages ==> s.packages[id].status != Applying && s.packages[id].status != Reverting
    ensures ServiceOk(SetPackage(s, id, r))
  {
    hide RecordOk, StepOk, Descending;
  }

  lemma ArrivesOk(s: Service, e: Event)
    requires ServiceOk(s) && Enabled(s, e)
    requires e.Pass? || e.Close? || e.Delete?
    ensures ServiceOk(Next(s, e))
  {
    hide RecordOk, StepOk, Descending, Fresh;
    match e
    case Pass(_) =>
    case Close(id, line, version, items) =>
      FreshOk(line, version, items);
      SetOk(s, id, Fresh(line, version, items, false));
    case Delete(id) =>
  }

  lemma DeliversOk(s: Service, id: string)
    requires ServiceOk(s) && Enabled(s, Deliver(id))
    ensures ServiceOk(Next(s, Deliver(id)))
  {
    hide RecordOk, Descending;
    StatusOk(s.packages[id]);
  }

  lemma ImportsOk(s: Service, e: Event)
    requires ServiceOk(s) && Enabled(s, e) && e.Import?
    ensures ServiceOk(Next(s, e))
  {
    hide RecordOk, StepOk, Descending, Supersede, Fresh, ServiceOk;
    FreshOk(e.line, e.version, e.items);
    SupersedesOk(s, e.line, e.version);
    SetOk(s.(packages := Supersede(s.packages, e.line, e.version)), e.id, Fresh(e.line, e.version, e.items, true));
  }

  lemma SupersedesOk(s: Service, line: string, version: int)
    requires ServiceOk(s)
    ensures ServiceOk(s.(packages := Supersede(s.packages, line, version)))
  {
    hide RecordOk, StepOk, Descending, Supersede;
    SupersedeOk(s.packages, line, version);
  }

  lemma AskedOk(s: Service, e: Event)
    requires ServiceOk(s) && Enabled(s, e)
    requires e.Approve? || e.Reject? || e.Revert?
    ensures ServiceOk(Next(s, e))
  {
    hide RecordOk, StepOk, Descending, Plan, HasNewer, Waits;
    StatusOk(s.packages[e.id]);
    var r := Next(s, e).packages[e.id];
    SetOk(s, e.id, r);
  }

  lemma AppliesOk(s: Service, e: Event)
    requires ServiceOk(s) && Enabled(s, e)
    requires e.Start? || e.Do? || e.Finish? || e.Stop?
    ensures ServiceOk(Next(s, e))
  {
    hide RecordOk, CountApplied, SomeStands, SomeUndone, Plan, CanPutBack, AfterApplying, AfterReverting, Recovered, Interrupted, HasNewer, RanBefore, Later;
    match e
    case Start(id) => StatusOk(s.packages[id]);
    case Do(did, kept, at, there) =>
      var r := s.packages[s.runner.id];
      OutcomeOk(r, Outcome(s, s.runner.id, r.items[|r.results|], did, kept, at));
    case Finish =>
      AppliedOk(s.packages[s.runner.id]);
      AfterIs(s.packages[s.runner.id]);
    case Stop =>
      forall id | id in s.packages ensures RecordOk(Recovered(s.packages[id])) && Recovered(s.packages[id]).status != Applying {
        RecoveredOk(s.packages[id]);
      }
  }

  lemma MarkedOk(r: Record, steps: seq<nat>)
    requires steps != [] && StepOk(r, steps[0]) && forall i :: 0 <= i < |steps| ==> StepOk(r, steps[i])
    ensures var r' := r.(results := r.results[steps[0] := r.results[steps[0]].(putting := Underway)]);
            forall i :: 0 <= i < |steps| ==> StepOk(r', steps[i])
  {
  }

  lemma MarksOk(s: Service)
    requires ServiceOk(s) && Enabled(s, Mark)
    ensures ServiceOk(Next(s, Mark))
  {
    hide RecordOk, CountApplied, SomeStands, SomeUndone, Plan, CanPutBack, AfterApplying, AfterReverting, Recovered, Interrupted, HasNewer, RanBefore, Later, StepOk, Descending;
    var r, k := s.packages[s.runner.id], s.runner.steps[0];
    PuttingOk(r, k, Underway);
    MarkedOk(r, s.runner.steps);
  }

  lemma UndoesOk(s: Service, e: Event)
    requires ServiceOk(s) && Enabled(s, e) && e.Undo?
    ensures ServiceOk(Next(s, e))
  {
    hide RecordOk, CountApplied, SomeStands, SomeUndone, Plan, CanPutBack, AfterApplying, AfterReverting, Recovered, Interrupted, HasNewer, RanBefore, Later, StepOk, Descending;
    var r, k := s.packages[s.runner.id], s.runner.steps[0];
    PuttingOk(r, k, e.putting);
    RestOk(r, s.runner.steps, e.putting);
    assert Descending([]) by { NoSteps(); }
  }

  lemma NoSteps()
    ensures Descending([])
  {
  }

  lemma BeginsOk(s: Service, e: Event)
    requires ServiceOk(s) && Enabled(s, e) && (e.Begin? || e.End?)
    ensures ServiceOk(Next(s, e))
  {
    hide RecordOk, CountApplied, SomeStands, SomeUndone, Plan, CanPutBack, AfterApplying, AfterReverting, Recovered, Interrupted, HasNewer, RanBefore, Later;
    if e.Begin? {
      PlanIs(s, e.id, |s.packages[e.id].results|);
      PlanOk(s, e.id);
    } else {
      RevertedOk(s.packages[s.runner.id]);
      AfterIs(s.packages[s.runner.id]);
    }
  }

  lemma NextOk(s: Service, e: Event)
    requires ServiceOk(s) && Enabled(s, e)
    ensures ServiceOk(Next(s, e))
  {
    hide ServiceOk, Enabled, Next;
    if e.Start? || e.Do? || e.Finish? || e.Stop? {
      AppliesOk(s, e);
    } else if e.Mark? {
      MarksOk(s);
    } else if e.Undo? {
      UndoesOk(s, e);
    } else if e.Begin? || e.End? {
      BeginsOk(s, e);
    } else if e.Import? {
      ImportsOk(s, e);
    } else if e.Deliver? {
      DeliversOk(s, e.id);
    } else if e.Pass? || e.Close? || e.Delete? {
      ArrivesOk(s, e);
    } else {
      AskedOk(s, e);
    }
  }

  lemma AfterIs(r: Record)
    ensures AfterApplying(r) != Applying && AfterReverting(r) != Applying
  {
  }

  lemma FreshOk(line: string, version: int, items: seq<Item>)
    ensures RecordOk(Fresh(line, version, items, true)) && RecordOk(Fresh(line, version, items, false))
    ensures Fresh(line, version, items, true).status == Pending && Fresh(line, version, items, false).status == Closed
  {
  }

  lemma SupersedeOk(packages: map<string, Record>, line: string, version: int)
    requires forall id :: id in packages ==> RecordOk(packages[id])
    ensures forall id :: id in packages ==> RecordOk(Supersede(packages, line, version)[id]) && (Supersede(packages, line, version)[id].status == Applying <==> packages[id].status == Applying)
    ensures forall id :: id in packages && packages[id].status != Pending ==> Supersede(packages, line, version)[id] == packages[id]
  {
    hide RecordOk;
    forall id | id in packages ensures RecordOk(Supersede(packages, line, version)[id]) {
      SupersededOk(packages[id]);
    }
  }

  lemma SupersededOk(r: Record)
    requires RecordOk(r)
    ensures r.status == Pending ==> RecordOk(r.(status := Superseded))
  {
  }

  /** Where nothing stands, a package may be approved, taken back, refused or started over. */
  lemma StatusOk(r: Record)
    requires RecordOk(r)
    ensures Waits(r) ==> RecordOk(r.(status := Approved)) && r.status != Applying && r.status != Reverting
    ensures r.status == Approved || r.status == Pending ==> RecordOk(r.(status := Rejected)) && RecordOk(r.(status := Pending)) && RecordOk(r.(status := Closed))
    ensures r.status == Approved ==> RecordOk(r.(status := Applying, results := []))
    ensures r.status == Applied || r.status == Partial || r.status == RevertedPartly ==> RecordOk(r.(status := Reverting))
    ensures RecordOk(r.(delivered := true))
  {
  }

  lemma PlanOk(s: Service, id: string)
    requires id in s.packages && RecordOk(s.packages[id])
    ensures var n := |s.packages[id].results|;
            n <= |s.packages[id].items| && forall i :: 0 <= i < |Plan(s, id, n)| ==> StepOk(s.packages[id], Plan(s, id, n)[i])
  {
    PlanIs(s, id, |s.packages[id].results|);
  }

  // ------------------------------------------------------------ whole runs

  lemma {:induction false} AlwaysOk(now: int, there: map<string, string>, es: seq<Event>)
    requires Possible(Nothing(now, there), es)
    ensures ServiceOk(After(Nothing(now, there), es))
  {
    hide Enabled, Next, RecordOk;
    if es != [] {
      var init := es[..|es| - 1];
      AlwaysOk(now, there, init);
      NextOk(After(Nothing(now, there), init), es[|es| - 1]);
    }
  }

  /**
   * Crashes included: a result stands only in a package that is being applied, was applied, or is being
   * put back; and in one that counts as applied every item stands.
   */
  lemma StandingMeansApplied(now: int, there: map<string, string>, es: seq<Event>, id: string)
    requires Possible(Nothing(now, there), es) && id in After(Nothing(now, there), es).packages
    ensures var r := After(Nothing(now, there), es).packages[id];
            && (SomeStands(r) ==> MayStand(r.status))
            && (r.status == Applied ==> |r.results| == |r.items| && forall k :: 0 <= k < |r.results| ==> Stands(r.results[k]))
            && (Waits(r) || r.status == Approved || r.status == Closed ==> !SomeStands(r))
  {
    hide Enabled, Next, RunnerOk;
    AlwaysOk(now, there, es);
  }

  /** Where the result of an item is, as long as it stands. */
  ghost predicate Standing(s: Service, id: string, k: nat) {
    id in s.packages && k < |s.packages[id].results| && Stands(s.packages[id].results[k])
  }

  /** The item is the one being put back, and the machine says that it was. */
  ghost predicate PutsBack(s: Service, e: Event, id: string, k: nat) {
    e.Undo? && e.putting == PutBack && s.runner.Undoing? && s.runner.id == id && s.runner.steps != [] && s.runner.steps[0] == k
  }

  ghost predicate StillStanding(s: Service, s': Service, id: string, k: nat) {
    && Standing(s, id, k) && Standing(s', id, k) && s'.packages[id].items == s.packages[id].items && s'.packages[id].line == s.packages[id].line
    && s'.packages[id].results[k] == s.packages[id].results[k].(putting := s'.packages[id].results[k].putting)
  }

  lemma RecoveredStands(r: Record, k: nat)
    requires k < |r.results|
    ensures k < |Recovered(r).results| && Recovered(r).items == r.items && Recovered(r).line == r.line
    ensures Recovered(r).results[k] == r.results[k].(putting := Recovered(r).results[k].putting)
    ensures Stands(Recovered(r).results[k]) == Stands(r.results[k])
  {
  }

  lemma NothingForgottenArriving(s: Service, e: Event, id: string, k: nat)
    requires ServiceOk(s) && Enabled(s, e) && Standing(s, id, k)
    requires e.Pass? || e.Close? || e.Import? || e.Deliver? || e.Delete?
    ensures StillStanding(s, Next(s, e), id, k)
  {
    hide RunnerOk;
    assert RecordOk(s.packages[id]) && SomeStands(s.packages[id]);
  }

  lemma NothingForgottenAsked(s: Service, e: Event, id: string, k: nat)
    requires ServiceOk(s) && Enabled(s, e) && Standing(s, id, k)
    requires e.Approve? || e.Reject? || e.Revert?
    ensures StillStanding(s, Next(s, e), id, k)
  {
    hide Plan, HasNewer, RunnerOk, RecordOk;
  }

  lemma NothingForgottenApplying(s: Service, e: Event, id: string, k: nat)
    requires ServiceOk(s) && Enabled(s, e) && Standing(s, id, k) && (e.Start? || e.Do? || e.Finish?)
    ensures StillStanding(s, Next(s, e), id, k)
  {
    hide CountApplied, AfterApplying, RunnerOk, Outcome;
    assert RecordOk(s.packages[id]) && SomeStands(s.packages[id]);
  }

  lemma NothingForgottenUndoing(s: Service, e: Event, id: string, k: nat)
    requires ServiceOk(s) && Enabled(s, e) && Standing(s, id, k) && !PutsBack(s, e, id, k)
    requires e.Begin? || e.Mark? || e.Undo? || e.End?
    ensures StillStanding(s, Next(s, e), id, k)
  {
    hide RecordOk, CountApplied, SomeUndone, Plan, CanPutBack, AfterReverting, RunnerOk;
  }

  lemma NothingForgottenByStopping(s: Service, id: string, k: nat)
    requires Standing(s, id, k)
    ensures StillStanding(s, Next(s, Stop), id, k)
  {
    hide Recovered;
    RecoveredStands(s.packages[id], k);
  }

  /** What stands is never forgotten: only putting it back takes it away. */
  lemma NothingStandingIsForgotten(s: Service, e: Event, id: string, k: nat)
    requires ServiceOk(s) && Enabled(s, e) && Standing(s, id, k) && !PutsBack(s, e, id, k)
    ensures StillStanding(s, Next(s, e), id, k)
  {
    hide ServiceOk, Next, Standing, PutsBack, StillStanding;
    if e.Stop? {
      NothingForgottenByStopping(s, id, k);
    } else if e.Start? || e.Do? || e.Finish? {
      NothingForgottenApplying(s, e, id, k);
    } else if e.Begin? || e.Mark? || e.Undo? || e.End? {
      NothingForgottenUndoing(s, e, id, k);
    } else if e.Pass? || e.Close? || e.Import? || e.Deliver? || e.Delete? {
      NothingForgottenArriving(s, e, id, k);
    } else {
      NothingForgottenAsked(s, e, id, k);
    }
  }

  // ------------------------------------------------------------ asking and taking back

  /**
   * An approval that is taken back leaves the package waiting again. It leaves everything as it was before
   * exactly when the package had not been applied here before.
   */
  lemma ApprovalTakenBack(s: Service, id: string)
    requires Enabled(s, Approve(id))
    ensures Enabled(Next(s, Approve(id)), Reject(id))
    ensures var s' := Next(Next(s, Approve(id)), Reject(id));
            && Waits(s'.packages[id])
            && (s' == s <==> (s.packages[id].status == Pending && s.packages[id].received) || s.packages[id].status == Closed)
  {
    hide HasNewer;
    var r := s.packages[id];
    var back := Next(Next(s, Approve(id)), Reject(id)).packages[id];
    assert s.packages[id := r.(status := Approved)][id := back] == s.packages[id := back];
    assert s.packages[id := r] == s.packages;
  }

  /** When a version arrives, no older one of its line goes on waiting, and nothing else is superseded. */
  lemma NewVersionsSupersede(s: Service, id: string, line: string, version: int, items: seq<Item>, other: string)
    requires Enabled(s, Import(id, line, version, items)) && other in s.packages
    ensures var s' := Next(s, Import(id, line, version, items));
            && other in s'.packages
            && (s'.packages[other].status == Pending && s'.packages[other].line == line ==> s'.packages[other].version >= version)
            && (s'.packages[other] != s.packages[other] ==>
                  s.packages[other].status == Pending && s.packages[other].line == line && s.packages[other].version < version
                  && s'.packages[other] == s.packages[other].(status := Superseded))
  {
  }

  /** A package that arrived, was handed on or has anything done about it here is never removed. */
  lemma NeverRemoved(s: Service, e: Event, id: string)
    requires Enabled(s, e) && id in s.packages && (s.packages[id].received || s.packages[id].delivered || s.packages[id].status != Closed)
    ensures id in Next(s, e).packages && Next(s, e).packages[id].received == s.packages[id].received
  {
    hide CountApplied, SomeUndone, SomeStands, Plan, CanPutBack, AfterApplying, AfterReverting, Interrupted, HasNewer, RanBefore, Later;
  }

  /** A package can be removed exactly when it was made here, is merely closed, and no delivery is on record. */
  lemma RemovedExactly(s: Service, id: string)
    requires id in s.packages
    ensures (exists e :: Enabled(s, e) && id !in Next(s, e).packages)
            <==> !s.packages[id].received && s.packages[id].status == Closed && !s.packages[id].delivered
  {
    hide Enabled, Next;
    if !s.packages[id].received && s.packages[id].status == Closed && !s.packages[id].delivered {
      DeleteRemoves(s, id);
    } else {
      forall e | Enabled(s, e) ensures id in Next(s, e).packages {
        NeverRemoved(s, e, id);
      }
    }
  }

  lemma DeleteRemoves(s: Service, id: string)
    requires id in s.packages && !s.packages[id].received && s.packages[id].status == Closed && !s.packages[id].delivered
    ensures Enabled(s, Delete(id)) && id !in Next(s, Delete(id)).packages
  {
  }
}
