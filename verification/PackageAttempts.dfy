/** What is known of the last attempt at a package that failed. */
module PackageAttempts {
  import opened Packages
  import opened PackageLifecycle

  /** How the items of a package went, one after the other, since it was last begun to be applied. */
  ghost function Answers(s: Service, es: seq<Event>, id: string): seq<Did>
    requires Possible(s, es)
  {
    if es == [] then []
    else
      var init, e := es[..|es| - 1], es[|es| - 1];
      if (e.Start? || e.Close? || e.Import?) && e.id == id then []
      else Answers(s, init, id) + Answered(After(s, init), e, id)
  }

  ghost function Answered(s: Service, e: Event, id: string): seq<Did>
    requires Enabled(s, e)
  {
    if e.Do? && s.runner.id == id then
      var r := s.packages[id];
      [Outcome(s, id, r.items[|r.results|], e.did, e.kept, e.at).did]
    else []
  }

  ghost predicate Recorded(results: seq<Result>, answers: seq<Did>) {
    |results| == |answers| && forall k :: 0 <= k < |results| ==> results[k].did == answers[k]
  }

  lemma RecordedNext(s: Service, e: Event, id: string, answers: seq<Did>)
    requires Enabled(s, e) && id in Next(s, e).packages && (id in s.packages ==> Recorded(s.packages[id].results, answers))
    ensures Recorded(Next(s, e).packages[id].results, if (e.Start? || e.Close? || e.Import?) && e.id == id then [] else answers + Answered(s, e, id))
  {
    hide CountApplied, SomeUndone, SomeStands, Plan, CanPutBack, HasNewer, RanBefore, Later, AfterReverting, AfterApplying;
  }

  /** What is on record is how it went. */
  lemma {:induction false} AnswersAreRecorded(s: Service, es: seq<Event>, id: string)
    requires Possible(s, es) && s.packages == map[]
    ensures id in After(s, es).packages ==> Recorded(After(s, es).packages[id].results, Answers(s, es, id))
  {
    hide Enabled, Next, Answered, Recorded;
    if es != [] {
      var init, e := es[..|es| - 1], es[|es| - 1];
      AnswersAreRecorded(s, init, id);
      if id in After(s, es).packages {
        RecordedNext(After(s, init), e, id, Answers(s, init, id));
      }
    }
  }

  // ------------------------------------------------------------ a package that failed

  /** When it failed, nothing was applied; and something was asked, as long as the service was not stopped. */
  ghost predicate FailedOk(r: Record, stopped: bool) {
    r.status == Failed ==>
      |r.results| <= 1 && (forall k :: 0 <= k < |r.results| ==> r.results[k].did != WasApplied) && (!stopped ==> r.results != [])
  }

  lemma FinishedSo(r: Record)
    requires RecordOk(r) && r.status == Applying && !GoesOn(r)
    ensures FailedOk(r.(status := AfterApplying(r)), false)
  {
    NoneApplied(r.results);
  }

  lemma StoppedSo(r: Record)
    requires RecordOk(r) && FailedOk(r, true)
    ensures FailedOk(Recovered(r), true)
  {
    hide SomeStands, SomeUndone, CountApplied, Stands, Interrupted, AfterReverting;
    if r.status == Applying {
      NoneApplied(r.results);
      assert |r.results| > 1 ==> r.results[0].did == WasApplied;
    } else if r.status == Reverting {
      NotFailed(r.(results := Interrupted(r.results)));
    }
  }

  lemma NotFailed(r: Record)
    ensures AfterReverting(r) != Failed
  {
  }

  lemma FailedOutside(s: Service, e: Event, id: string, stopped: bool)
    requires Enabled(s, e) && id in Next(s, e).packages && (id in s.packages ==> FailedOk(s.packages[id], stopped))
    requires e.Pass? || e.Close? || e.Import? || e.Deliver? || e.Delete? || e.Approve? || e.Reject? || e.Revert?
    ensures FailedOk(Next(s, e).packages[id], stopped)
  {
    hide Plan, HasNewer, Waits;
  }

  lemma FailedInside(s: Service, e: Event, id: string, stopped: bool)
    requires ServiceOk(s) && Enabled(s, e) && id in Next(s, e).packages && (id in s.packages ==> FailedOk(s.packages[id], stopped))
    requires e.Start? || e.Do? || e.Finish? || e.Begin? || e.Mark? || e.Undo? || e.End?
    ensures FailedOk(Next(s, e).packages[id], stopped)
  {
    hide RecordOk, CountApplied, Plan, CanPutBack, AfterApplying, AfterReverting, Outcome;
    if e.Finish? {
      FinishedSo(s.packages[s.runner.id]);
    } else if e.End? {
      NotFailed(s.packages[s.runner.id]);
    }
  }

  lemma FailedNext(s: Service, e: Event, id: string, stopped: bool)
    requires ServiceOk(s) && Enabled(s, e) && id in Next(s, e).packages && (id in s.packages ==> FailedOk(s.packages[id], stopped))
    ensures FailedOk(Next(s, e).packages[id], stopped || e.Stop?)
  {
    hide Enabled, Next, RunnerOk, RecordOk, FailedOk;
    if e.Stop? {
      StoppingSo(s, id, stopped);
    } else if e.Start? || e.Do? || e.Finish? || e.Begin? || e.Mark? || e.Undo? || e.End? {
      FailedInside(s, e, id, stopped);
    } else {
      FailedOutside(s, e, id, stopped);
    }
  }

  lemma StoppingSo(s: Service, id: string, stopped: bool)
    requires ServiceOk(s) && id in Next(s, Stop).packages && (id in s.packages ==> FailedOk(s.packages[id], stopped))
    ensures FailedOk(Next(s, Stop).packages[id], true)
  {
    hide Recovered, RecordOk, RunnerOk;
    StoppedSo(s.packages[id]);
  }

  lemma {:induction false} AlwaysFailedSo(s: Service, es: seq<Event>, id: string)
    requires Possible(s, es) && s.packages == map[] && ServiceOk(s)
    ensures ServiceOk(After(s, es)) && (id in After(s, es).packages ==> FailedOk(After(s, es).packages[id], Stop in es))
  {
    hide Enabled, Next, FailedOk, RunnerOk, RecordOk;
    if es != [] {
      var init, e := es[..|es| - 1], es[|es| - 1];
      AlwaysFailedSo(s, init, id);
      NextOk(After(s, init), e);
      if id in After(s, es).packages {
        FailedNext(After(s, init), e, id, Stop in init);
        assert Stop in es <==> Stop in init || e.Stop?;
      }
    }
  }

  /**
   * A package that failed waits to be approved again exactly when its last attempt was refused or did not
   * come to ask anything. The second cannot be told from a stop in the middle of the first item, and it does
   * not come about as long as the service is not stopped: then it is known for sure that nothing was applied.
   */
  lemma WaitsKnownForSure(now: int, there: map<string, string>, es: seq<Event>, id: string)
    requires Possible(Nothing(now, there), es) && id in After(Nothing(now, there), es).packages
    requires After(Nothing(now, there), es).packages[id].status == Failed
    ensures var r, answers := After(Nothing(now, there), es).packages[id], Answers(Nothing(now, there), es, id);
            && (Waits(r) <==> answers == [] || answers == [WasRefused])
            && (answers == [] <==> r.results == [])
            && (Stop !in es ==> answers != [])
  {
    hide Possible, After, Answers;
    AnswersAreRecorded(Nothing(now, there), es, id);
    AlwaysFailedSo(Nothing(now, there), es, id);
  }

  /** Stopped before the first item is on record, a package counts as failed, and waits although nothing is known. */
  lemma StoppedAtTheFirst(s: Service, id: string)
    requires Enabled(s, Start(id)) && s.packages[id].items != []
    ensures var r := Next(Next(s, Start(id)), Stop).packages[id]; r.status == Failed && r.results == [] && Waits(r)
  {
  }
}
