/** A script that ran here is not run again by any version of its package. */
module PackageScripts {
  import opened Packages
  import opened PackageLifecycle

  /** No script comes twice in one package. */
  ghost predicate DistinctScripts(items: seq<Item>) {
    forall i, j :: 0 <= i < j < |items| && items[i].action.Script? && items[j].action.Script? ==> items[i].digest != items[j].digest
  }

  ghost predicate NoneTwice(es: seq<Event>) {
    forall i :: 0 <= i < |es| && (es[i].Close? || es[i].Import?) ==> DistinctScripts(es[i].items)
  }

  /** This step sends the script of this line to be run, whatever the machine answers. */
  ghost predicate Sends(s: Service, e: Event, line: string, digest: string) {
    && Enabled(s, e) && e.Do?
    && var r := s.packages[s.runner.id];
       var item := r.items[|r.results|];
       item.action.Script? && r.line == line && item.digest == digest && !RanBefore(s.packages, s.runner.id, line, digest)
  }

  /** It is sent, and recorded as having run. */
  ghost predicate Runs(s: Service, e: Event, line: string, digest: string) {
    Sends(s, e, line, digest) && e.did == WasApplied
  }

  ghost function TimesRun(s: Service, es: seq<Event>, line: string, digest: string): nat
    requires Possible(s, es)
  {
    if es == [] then 0
    else
      var init := es[..|es| - 1];
      TimesRun(s, init, line, digest) + if Runs(After(s, init), es[|es| - 1], line, digest) then 1 else 0
  }

  /** The record that it ran. */
  ghost predicate Ran(s: Service, id: string, k: nat, line: string, digest: string) {
    && Standing(s, id, k) && s.packages[id].line == line && k < |s.packages[id].items|
    && s.packages[id].items[k].action.Script? && s.packages[id].items[k].digest == digest
  }

  ghost predicate AllDistinct(s: Service) {
    forall id :: id in s.packages ==> DistinctScripts(s.packages[id].items)
  }

  lemma DistinctNext(s: Service, e: Event)
    requires AllDistinct(s) && Enabled(s, e) && (e.Close? || e.Import? ==> DistinctScripts(e.items))
    ensures AllDistinct(Next(s, e))
  {
    hide DistinctScripts, CountApplied, SomeStands, SomeUndone, Plan, CanPutBack, AfterApplying, AfterReverting, Interrupted, HasNewer, RanBefore, Later;
  }

  /** A script is never put back, so that the record of its run stays. */
  lemma RanStays(s: Service, e: Event, id: string, k: nat, line: string, digest: string)
    requires ServiceOk(s) && Enabled(s, e) && Ran(s, id, k, line, digest)
    ensures Ran(Next(s, e), id, k, line, digest)
  {
    hide Enabled, Next, RecordOk;
    if PutsBack(s, e, id, k) {
      NoScriptUndone(s, id, k);
    }
    NothingStandingIsForgotten(s, e, id, k);
  }

  lemma NoScriptUndone(s: Service, id: string, k: nat)
    requires ServiceOk(s) && s.runner.Undoing? && s.runner.id == id && s.runner.steps != [] && s.runner.steps[0] == k
    ensures id in s.packages && k < |s.packages[id].items| && !s.packages[id].items[k].action.Script?
  {
    assert StepOk(s.packages[id], s.runner.steps[0]);
  }

  lemma RanElsewhere(s: Service, id: string, k: nat, other: string, line: string, digest: string)
    requires Ran(s, id, k, line, digest) && other != id
    ensures RanBefore(s.packages, other, line, digest)
  {
    assert RanThere(s.packages[id], digest);
  }

  /** A script on record as having run is not sent again, by this package or by another one of the line. */
  lemma NotSentAgain(s: Service, e: Event, id: string, k: nat, line: string, digest: string)
    requires ServiceOk(s) && AllDistinct(s) && Ran(s, id, k, line, digest)
    ensures !Sends(s, e, line, digest)
  {
    assert DistinctScripts(s.packages[id].items);
    if s.runner.Running? && s.runner.id != id {
      RanElsewhere(s, id, k, s.runner.id, line, digest);
    }
  }

  lemma NowRan(s: Service, e: Event, line: string, digest: string) returns (id: string, k: nat)
    requires ServiceOk(s) && Enabled(s, e) && Runs(s, e, line, digest)
    ensures Ran(Next(s, e), id, k, line, digest)
  {
    id, k := s.runner.id, |s.packages[s.runner.id].results|;
  }

  // ------------------------------------------------------------ what is skipped was run

  ghost predicate NoneRan(s: Service, line: string, digest: string) {
    forall id, k: nat :: !Ran(s, id, k, line, digest)
  }

  /** What another package has on record as having run stands there. */
  lemma RanBeforeStands(s: Service, id: string, line: string, digest: string)
    requires ServiceOk(s) && NoneRan(s, line, digest)
    ensures !RanBefore(s.packages, id, line, digest)
  {
    if other :| other in s.packages && other != id && s.packages[other].line == line && RanThere(s.packages[other], digest) {
      var r := s.packages[other];
      assert RecordOk(r);
      var j :| 0 <= j < |r.results| && j < |r.items| && r.items[j].action.Script? && r.results[j].did == WasApplied && r.items[j].digest == digest;
      assert Ran(s, other, j, line, digest);
    }
  }

  lemma NoneRanOutside(s: Service, e: Event, line: string, digest: string)
    requires ServiceOk(s) && Enabled(s, e) && NoneRan(s, line, digest)
    requires e.Pass? || e.Close? || e.Import? || e.Deliver? || e.Delete? || e.Approve? || e.Reject? || e.Revert?
    ensures NoneRan(Next(s, e), line, digest)
  {
    hide CountApplied, SomeUndone, Plan, CanPutBack, HasNewer, RanBefore, Later, RunnerOk, RecordOk;
    forall id, k: nat ensures !Ran(Next(s, e), id, k, line, digest) {
      assert !Ran(s, id, k, line, digest);
    }
  }

  lemma NoneRanInside(s: Service, e: Event, line: string, digest: string)
    requires ServiceOk(s) && Enabled(s, e) && NoneRan(s, line, digest)
    requires e.Start? || e.Finish? || e.Begin? || e.Mark? || e.Undo? || e.End?
    ensures NoneRan(Next(s, e), line, digest)
  {
    hide CountApplied, SomeUndone, Plan, CanPutBack, AfterApplying, AfterReverting, RanBefore, Later, RecordOk;
    forall id, k: nat ensures !Ran(Next(s, e), id, k, line, digest) {
      assert !Ran(s, id, k, line, digest);
      if e.Mark? || e.Undo? {
        NoScriptUndone(s, s.runner.id, s.runner.steps[0]);
      }
    }
  }

  lemma NoneRanByStopping(s: Service, line: string, digest: string)
    requires NoneRan(s, line, digest)
    ensures NoneRan(Next(s, Stop), line, digest)
  {
    hide Recovered;
    forall id, k: nat ensures !Ran(Next(s, Stop), id, k, line, digest) {
      assert !Ran(s, id, k, line, digest);
      if id in s.packages && k < |s.packages[id].results| {
        RecoveredStands(s.packages[id], k);
      } else if id in s.packages {
        RecoveredSize(s.packages[id]);
      }
    }
  }

  lemma RecoveredSize(r: Record)
    ensures |Recovered(r).results| == |r.results|
  {
  }

  lemma NoneRanDoing(s: Service, e: Event, line: string, digest: string)
    requires ServiceOk(s) && Enabled(s, e) && NoneRan(s, line, digest) && e.Do? && !Runs(s, e, line, digest)
    ensures NoneRan(Next(s, e), line, digest)
  {
    hide CountApplied, RanBefore, RecordOk;
    RanBeforeStands(s, s.runner.id, line, digest);
    forall id, k: nat ensures !Ran(Next(s, e), id, k, line, digest) {
      assert !Ran(s, id, k, line, digest);
    }
  }

  lemma NoneRanNext(s: Service, e: Event, line: string, digest: string)
    requires ServiceOk(s) && Enabled(s, e) && NoneRan(s, line, digest) && !Runs(s, e, line, digest)
    ensures NoneRan(Next(s, e), line, digest)
  {
    hide ServiceOk, Next, NoneRan, Runs, Enabled;
    if e.Do? {
      NoneRanDoing(s, e, line, digest);
    } else if e.Stop? {
      NoneRanByStopping(s, line, digest);
    } else if e.Start? || e.Finish? || e.Begin? || e.Mark? || e.Undo? || e.End? {
      NoneRanInside(s, e, line, digest);
    } else {
      NoneRanOutside(s, e, line, digest);
    }
  }

  // ------------------------------------------------------------ whole runs

  lemma {:induction false} RunsAreRecorded(s: Service, es: seq<Event>, line: string, digest: string) returns (id: string, k: nat)
    requires ServiceOk(s) && AllDistinct(s) && NoneRan(s, line, digest) && NoneTwice(es) && Possible(s, es)
    ensures ServiceOk(After(s, es)) && AllDistinct(After(s, es))
    ensures TimesRun(s, es, line, digest) <= 1
    ensures TimesRun(s, es, line, digest) == 1 ==> Ran(After(s, es), id, k, line, digest)
    ensures TimesRun(s, es, line, digest) == 0 ==> NoneRan(After(s, es), line, digest)
  {
    hide Enabled, Next, RecordOk, RunnerOk, DistinctScripts, Ran, AllDistinct, ServiceOk, Runs, NoneRan;
    if es == [] {
      id, k := "", 0;
    } else {
      var init, e := es[..|es| - 1], es[|es| - 1];
      id, k := RunsAreRecorded(s, init, line, digest);
      var before := After(s, init);
      NextOk(before, e);
      DistinctNext(before, e);
      if TimesRun(s, init, line, digest) == 1 {
        RunsNoMore(before, e, id, k, line, digest);
        RanStays(before, e, id, k, line, digest);
      } else if Runs(before, e, line, digest) {
        id, k := NowRan(before, e, line, digest);
      } else {
        NoneRanNext(before, e, line, digest);
      }
    }
  }

  lemma RunsNoMore(s: Service, e: Event, id: string, k: nat, line: string, digest: string)
    requires ServiceOk(s) && AllDistinct(s) && Ran(s, id, k, line, digest)
    ensures !Runs(s, e, line, digest)
  {
    NotSentAgain(s, e, id, k, line, digest);
  }

  /**
   * Over any run of approvals, cancellations, reverts, new versions, deletions and crashes, each script of
   * a line of versions is recorded as having run at most once without having been skipped; and from then on
   * it is not even sent, whatever the machine would answer.
   */
  lemma ScriptsRunOnce(now: int, there: map<string, string>, es: seq<Event>, line: string, digest: string)
    requires NoneTwice(es) && Possible(Nothing(now, there), es)
    ensures TimesRun(Nothing(now, there), es, line, digest) <= 1
    ensures TimesRun(Nothing(now, there), es, line, digest) == 1 ==> forall e :: !Sends(After(Nothing(now, there), es), e, line, digest)
  {
    hide ServiceOk, Possible, After, Sends, Ran;
    NothingRan(now, there, line, digest);
    var id, k := RunsAreRecorded(Nothing(now, there), es, line, digest);
    if TimesRun(Nothing(now, there), es, line, digest) == 1 {
      forall e ensures !Sends(After(Nothing(now, there), es), e, line, digest) {
        NotSentAgain(After(Nothing(now, there), es), e, id, k, line, digest);
      }
    }
  }

  lemma NothingRan(now: int, there: map<string, string>, line: string, digest: string)
    ensures ServiceOk(Nothing(now, there)) && AllDistinct(Nothing(now, there)) && NoneRan(Nothing(now, there), line, digest)
  {
  }

  /**
   * When it is the turn of a script, it is skipped exactly when it ran before in its line, at whatever point
   * of the run and in whatever package.
   */
  lemma SkippedExactlyWhenItRan(now: int, there: map<string, string>, es: seq<Event>, e: Event)
    requires NoneTwice(es) && Possible(Nothing(now, there), es) && e.Do? && Enabled(After(Nothing(now, there), es), e)
    ensures var s := After(Nothing(now, there), es);
            var r := s.packages[s.runner.id];
            var item := r.items[|r.results|];
            item.action.Script? ==>
              (Outcome(s, s.runner.id, item, e.did, e.kept, e.at).skipped <==> TimesRun(Nothing(now, there), es, r.line, item.digest) == 1)
  {
    hide ServiceOk, Possible, After, Ran, NoneRan;
    var s := After(Nothing(now, there), es);
    var r := s.packages[s.runner.id];
    var line, digest := r.line, r.items[|r.results|].digest;
    NothingRan(now, there, line, digest);
    var id, k := RunsAreRecorded(Nothing(now, there), es, line, digest);
    if TimesRun(Nothing(now, there), es, line, digest) == 1 {
      NotSentAgain(s, e, id, k, line, digest);
    } else {
      RanBeforeStands(s, s.runner.id, line, digest);
    }
  }
}
