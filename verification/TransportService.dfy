/** The service that applies packages and puts them back, one at a time. What the machine answers is given to it. */
module TransportServices {
  import opened Options
  import opened Packages
  import opened PackageLifecycle
  import opened PackagePlans

  /** What the machine did for one item, and how it is from then on. */
  datatype Answer = Answer(did: Did, kept: bool, at: int, there: map<string, string>)

  datatype UndoAnswer = UndoAnswer(putting: Putting, there: map<string, string>)

  predicate Settled(putting: Putting) {
    putting == PutBack || putting == NotPutBack || putting == PutBackNotKnown
  }

  lemma OneMore(s: Service, es: seq<Event>, e: Event)
    requires Possible(s, es) && Enabled(After(s, es), e)
    ensures Possible(s, es + [e]) && After(s, es + [e]) == Next(After(s, es), e)
  {
    hide Enabled, Next;
    assert (es + [e])[..|es|] == es;
  }

  lemma NotStuck(r: Record)
    ensures Recovered(r).status != Applying && Recovered(r).status != Reverting
  {
    hide CountApplied, Interrupted, SomeStands, SomeUndone;
  }

  /** The answers come one after the other. */
  ghost predicate InTime(now: int, answers: seq<Answer>) {
    && (forall i :: 0 <= i < |answers| ==> answers[i].at >= now)
    && (forall i, j :: 0 <= i < j < |answers| ==> answers[i].at <= answers[j].at)
  }

  /** The items are done with what the machine answers to each, in order. */
  ghost predicate OnlyDo(es: seq<Event>, answers: seq<Answer>) {
    |es| <= |answers| && forall i :: 0 <= i < |es| ==> es[i] == Do(answers[i].did, answers[i].kept, answers[i].at, answers[i].there)
  }

  /** Each item is marked and put back with what the machine answers to it, in order. */
  ghost function BackSteps(answers: seq<UndoAnswer>): seq<Event> {
    if answers == [] then []
    else
      var last := answers[|answers| - 1];
      BackSteps(answers[..|answers| - 1]) + [Mark] + [Event.Undo(last.putting, last.there)]
  }

  ghost predicate OnlyPutsBack(es: seq<Event>, answers: seq<UndoAnswer>) {
    exists n :: 0 <= n <= |answers| && es == BackSteps(answers[..n])
  }

  lemma NoBackSteps()
    ensures BackSteps([]) == []
  {
  }

  lemma OneMorePutBack(answers: seq<UndoAnswer>, j: nat)
    requires j < |answers|
    ensures BackSteps(answers[..j + 1]) == BackSteps(answers[..j]) + [Mark] + [Event.Undo(answers[j].putting, answers[j].there)]
  {
    assert answers[..j + 1][..j] == answers[..j];
  }

  /** One step was taken. */
  lemma Took(s: Service, es: seq<Event>, e: Event, after: Service)
    requires ServiceOk(s) && Possible(s, es) && ServiceOk(After(s, es)) && Enabled(After(s, es), e) && Next(After(s, es), e) == after
    ensures Possible(s, es + [e]) && After(s, es + [e]) == after && ServiceOk(after)
  {
    hide Enabled, Next, ServiceOk;
    OneMore(s, es, e);
    NextOk(After(s, es), e);
  }

  class TransportService {
    var now: int
    var packages: map<string, Record>
    /** How the machine is. */
    var there: map<string, string>
    /** How far the thread that applies is; it starts over when the service does. */
    ghost var runner: Runner

    ghost function Abs(): Service
      reads this
    {
      Service(now, packages, there, runner)
    }

    ghost predicate Valid()
      reads this
    {
      ServiceOk(Abs())
    }

    constructor (now: int, there: map<string, string>)
      ensures Valid() && Abs() == Nothing(now, there)
    {
      this.now, this.there, packages, runner := now, there, map[], Resting;
    }

    /** The older versions that were waiting give way. */
    method SupersedeOlder(line: string, version: int)
      modifies this`packages
      ensures packages == Supersede(old(packages), line, version)
    {
      var left := packages.Keys;
      while left != {}
        invariant left <= packages.Keys == old(packages).Keys
        invariant forall other :: other in packages ==> packages[other] == if other in left then old(packages)[other] else Supersede(old(packages), line, version)[other]
        decreases left
      {
        var other :| other in left;
        var older := packages[other];
        if older.line == line && older.version < version && older.status == Pending {
          packages := packages[other := older.(status := Superseded)];
        }
        left := left - {other};
      }
    }

    /** A package that arrived. */
    method Import(id: string, line: string, version: int, items: seq<Item>) returns (ok: bool)
      requires Valid()
      modifies this`packages
      ensures Valid() && ok == Enabled(old(Abs()), Event.Import(id, line, version, items))
      ensures Abs() == if ok then Next(old(Abs()), Event.Import(id, line, version, items)) else old(Abs())
    {
      hide ServiceOk;
      if id in packages || items == [] {
        return false;
      }
      NextOk(Abs(), Event.Import(id, line, version, items));
      SupersedeOlder(line, version);
      packages := packages[id := Fresh(line, version, items, true)];
      ok := true;
    }

    method Approve(id: string) returns (ok: bool)
      requires Valid()
      modifies this`packages
      ensures Valid() && ok == Enabled(old(Abs()), Event.Approve(id))
      ensures Abs() == if ok then Next(old(Abs()), Event.Approve(id)) else old(Abs())
    {
      if id !in packages || HasNewer(packages, packages[id]) || !Waits(packages[id]) {
        return false;
      }
      NextOk(Abs(), Event.Approve(id));
      packages := packages[id := packages[id].(status := Approved)];
      ok := true;
    }

    /** What waits is refused; an approval is taken back, and the package waits again. */
    method Reject(id: string) returns (ok: bool)
      requires Valid()
      modifies this`packages
      ensures Valid() && ok == Enabled(old(Abs()), Event.Reject(id))
      ensures Abs() == if ok then Next(old(Abs()), Event.Reject(id)) else old(Abs())
    {
      if id !in packages || (!packages[id].received && packages[id].status != Approved) || !(packages[id].status == Pending || packages[id].status == Approved) {
        return false;
      }
      NextOk(Abs(), Event.Reject(id));
      var r := packages[id];
      packages := packages[id := r.(status := if r.status != Approved then Rejected else if r.received then Pending else Closed)];
      ok := true;
    }

    method Delete(id: string) returns (ok: bool)
      requires Valid()
      modifies this`packages
      ensures Valid() && ok == Enabled(old(Abs()), Event.Delete(id))
      ensures Abs() == if ok then Next(old(Abs()), Event.Delete(id)) else old(Abs())
      ensures ok ==> !SomeStands(old(packages)[id])
    {
      if id !in packages || packages[id].received || packages[id].status != Closed || packages[id].delivered {
        return false;
      }
      NextOk(Abs(), Event.Delete(id));
      assert RecordOk(packages[id]);
      packages := packages - {id};
      ok := true;
    }

    /** One package that was being applied or put back: nobody knows how far the last item went. */
    static method RecoverOne(stuck: Record) returns (r: Record)
      ensures r == Recovered(stuck)
    {
      r := stuck;
      if stuck.status == Applying {
        r := stuck.(status := if CountApplied(stuck.results) > 0 then Partial else Failed);
      } else if stuck.status == Reverting {
        var results := [];
        for i := 0 to |stuck.results|
          invariant |results| == i
          invariant forall k :: 0 <= k < i ==> results[k] == if stuck.results[k].putting == Underway then stuck.results[k].(putting := PutBackNotKnown) else stuck.results[k]
        {
          var result := stuck.results[i];
          if result.putting == Underway {
            result := result.(putting := PutBackNotKnown);
          }
          results := results + [result];
        }
        assert results == Interrupted(stuck.results);
        r := stuck.(results := results);
        r := r.(status := AfterReverting(r));
      }
    }

    /** What was going on when the service stopped is not gone on with. */
    method Recover()
      requires Valid()
      modifies this`packages, this`runner
      ensures Valid() && Abs() == Next(old(Abs()), Stop)
      ensures forall id :: id in packages ==> packages[id].status != Applying && packages[id].status != Reverting
    {
      hide ServiceOk, Recovered;
      NextOk(Abs(), Stop);
      forall id | id in packages ensures Recovered(packages[id]).status != Applying && Recovered(packages[id]).status != Reverting {
        NotStuck(packages[id]);
      }
      var left := packages.Keys;
      while left != {}
        invariant left <= packages.Keys == old(packages).Keys
        invariant forall id :: id in packages ==> packages[id] == if id in left then old(packages)[id] else Recovered(old(packages)[id])
        decreases left
      {
        var id :| id in left;
        var unstuck := RecoverOne(packages[id]);
        packages := packages[id := unstuck];
        left := left - {id};
      }
      runner := Resting;
      assert packages == map id | id in old(packages) :: Recovered(old(packages)[id]);
    }

    /** Whether one item can be put back. */
    method CanUndo(id: string, k: nat) returns (can: bool)
      requires id in packages && k < |packages[id].results| && k < |packages[id].items|
      ensures can == CanPutBack(Abs(), id, k)
    {
      var r, item := packages[id].results[k], packages[id].items[k];
      can := Stands(r) && !Later(packages, id, item, r.at);
      if can {
        match item.action {
          case Script => can := false;
          case Replace => can := r.previous.Some? && item.target in there;
          case Drop => can := !item.table && r.previous.Some?;
          case Define => can := !item.table && (r.previous.Some? || item.target in there);
        }
      }
    }

    /** The items that can be put back, the last applied first. */
    method RevertPlan(id: string) returns (steps: seq<nat>)
      requires Valid() && id in packages
      ensures RecordOk(packages[id]) && steps == Plan(Abs(), id, |packages[id].results|)
      ensures Descending(steps) && forall k: nat :: k in steps <==> Undoable(Abs(), id, k)
    {
      hide RunnerOk, CanPutBack, Later, Undoable, Descending;
      assert RecordOk(packages[id]);
      var i: nat := |packages[id].results|;
      steps := [];
      while i > 0
        invariant i <= |packages[id].results| && steps + Plan(Abs(), id, i) == Plan(Abs(), id, |packages[id].results|)
      {
        i := i - 1;
        var can := CanUndo(id, i);
        if can {
          steps := steps + [i];
        }
      }
      PlanIs(Abs(), id, |packages[id].results|);
      forall k: nat ensures k in steps <==> Undoable(Abs(), id, k) {
        PlanHas(Abs(), id, |packages[id].results|, k);
        if Undoable(Abs(), id, k) {
          InReach(Abs(), id, k);
        }
      }
    }

    /** Asks for what a package did here to be put back. */
    method Revert(id: string) returns (ok: bool)
      requires Valid()
      modifies this`packages
      ensures Valid() && ok == Enabled(old(Abs()), Event.Revert(id))
      ensures Abs() == if ok then Next(old(Abs()), Event.Revert(id)) else old(Abs())
      ensures ok <==>
              && id in old(packages) && (old(packages)[id].status == Applied || old(packages)[id].status == Partial || old(packages)[id].status == RevertedPartly)
              && exists k: nat :: Undoable(old(Abs()), id, k)
    {
      hide ServiceOk, Undoable, Plan, Descending;
      RevertExactly(Abs(), id);
      if id !in packages || !(packages[id].status == Applied || packages[id].status == Partial || packages[id].status == RevertedPartly) {
        return false;
      }
      var steps := RevertPlan(id);
      if steps == [] {
        return false;
      }
      NextOk(Abs(), Event.Revert(id));
      packages := packages[id := packages[id].(status := Reverting)];
      ok := true;
    }

    /** What this item comes to: a script that ran here before is skipped. */
    method Outcome(id: string, item: Item, answer: Answer) returns (result: Result)
      requires id in packages
      ensures result == Packages.Outcome(Abs(), id, item, answer.did, answer.kept, answer.at)
    {
      if item.action.Script? && RanBefore(packages, id, packages[id].line, item.digest) {
        return Result(WasApplied, true, None, answer.at, NotAsked);
      }
      var previous := None;
      if !item.action.Script? && (!item.action.Replace? || answer.kept) {
        previous := Look(there, item.target);
      }
      result := Result(answer.did, false, previous, answer.at, NotAsked);
    }

    /** One item of the package that is being applied. */
    method ApplyItem(id: string, answer: Answer)
      requires Valid() && Enabled(Abs(), Do(answer.did, answer.kept, answer.at, answer.there)) && runner == Running(id)
      modifies this`now, this`packages, this`there
      ensures Valid() && Abs() == Next(old(Abs()), Do(answer.did, answer.kept, answer.at, answer.there)) && runner == Running(id) && id in packages
      ensures packages[id].items == old(packages[id].items) && |packages[id].results| == |old(packages[id].results)| + 1 && now == answer.at
    {
      hide CountApplied, ServiceOk, RanBefore;
      NextOk(Abs(), Do(answer.did, answer.kept, answer.at, answer.there));
      var r := packages[id];
      var result := Outcome(id, r.items[|r.results|], answer);
      packages := packages[id := r.(results := r.results + [result])];
      now := answer.at;
      if !result.skipped {
        there := answer.there;
      }
    }

    /** Applies a package, item by item, and stops at the first that is not applied. */
    method Apply(id: string, answers: seq<Answer>) returns (ghost es: seq<Event>)
      requires Valid() && runner == Resting && InTime(now, answers)
      requires id in packages ==> |answers| >= |packages[id].items|
      modifies this
      ensures Valid() && runner == Resting && Possible(old(Abs()), es) && Abs() == After(old(Abs()), es)
      ensures if id in old(packages) && old(packages)[id].status == Approved
              then |es| >= 2 && es[0] == Start(id) && OnlyDo(es[1..|es| - 1], answers) && es[|es| - 1] == Finish
              else es == []
    {
      hide ServiceOk, Enabled, Next, CountApplied, Possible, After, RanBefore;
      ghost var s0 := Abs();
      es := [];
      NoStep(s0);
      if id !in packages || packages[id].status != Approved {
        return;
      }
      Starts(s0, id);
      Took(s0, es, Start(id), Next(s0, Start(id)));
      es := es + [Start(id)];
      packages := packages[id := packages[id].(status := Applying, results := [])];
      runner := Running(id);
      ghost var dos: seq<Event> := [];
      assert es == [Start(id)] + dos;
      var i := 0;
      while i < |packages[id].items|
        invariant id in packages && runner == Running(id) && Valid() && i == |packages[id].results| <= |packages[id].items| <= |answers|
        invariant Possible(s0, es) && After(s0, es) == Abs() && es == [Start(id)] + dos && OnlyDo(dos, answers) && |dos| == i
        invariant i < |packages[id].items| ==> GoesOn(packages[id])
        invariant forall j :: i <= j < |answers| ==> answers[j].at >= now
        decreases |packages[id].items| - i
      {
        var answer := answers[i];
        ghost var e := Do(answer.did, answer.kept, answer.at, answer.there);
        Does(Abs(), e);
        ghost var before := Abs();
        ApplyItem(id, answer);
        Took(s0, es, e, Abs());
        es, dos := es + [e], dos + [e];
        i := i + 1;
        if packages[id].results[i - 1].did != WasApplied {
          break;
        }
      }
      Finishes(Abs(), id);
      Took(s0, es, Finish, Next(Abs(), Finish));
      es := es + [Finish];
      packages := packages[id := packages[id].(status := AfterApplying(packages[id]))];
      runner := Resting;
      assert es[1..|es| - 1] == dos;
    }

    /** What is about to be tried is written down first. */
    method MarkItem(id: string, k: nat)
      requires Valid() && runner.Undoing? && runner.id == id && !runner.marked && runner.steps != [] && runner.steps[0] == k
      modifies this`packages, this`runner
      ensures Enabled(old(Abs()), Mark) && Valid() && Abs() == Next(old(Abs()), Mark)
      ensures id in packages && k < |packages[id].results| && runner == old(runner).(marked := true)
    {
      hide CountApplied, RecordOk, SomeStands, SomeUndone;
      assert StepOk(packages[id], runner.steps[0]);
      NextOk(Abs(), Mark);
      var r := packages[id];
      packages := packages[id := r.(results := r.results[k := r.results[k].(putting := Underway)])];
      runner := runner.(marked := true);
    }

    /** One item of the package that is being put back. */
    method PutBackItem(id: string, k: nat, answer: UndoAnswer)
      requires Valid() && runner.Undoing? && runner.id == id && !runner.marked && runner.steps != [] && runner.steps[0] == k && Settled(answer.putting)
      modifies this`packages, this`there, this`runner
      ensures Enabled(old(Abs()), Mark) && Enabled(Next(old(Abs()), Mark), Event.Undo(answer.putting, answer.there))
      ensures Valid() && Abs() == Next(Next(old(Abs()), Mark), Event.Undo(answer.putting, answer.there))
      ensures runner == Undoing(id, if answer.putting == PutBack then old(runner).steps[1..] else [], false)
    {
      hide ServiceOk, Enabled, Next;
      MarkItem(id, k);
      SettleItem(id, k, answer);
    }

    /** How it went is written down. */
    method SettleItem(id: string, k: nat, answer: UndoAnswer)
      requires Valid() && runner.Undoing? && runner.id == id && runner.marked && runner.steps != [] && runner.steps[0] == k && Settled(answer.putting)
      modifies this`packages, this`there, this`runner
      ensures Enabled(old(Abs()), Event.Undo(answer.putting, answer.there)) && Valid() && Abs() == Next(old(Abs()), Event.Undo(answer.putting, answer.there))
      ensures runner == Undoing(id, if answer.putting == PutBack then old(runner).steps[1..] else [], false)
    {
      hide CountApplied, RecordOk, SomeStands, SomeUndone;
      assert StepOk(packages[id], runner.steps[0]);
      NextOk(Abs(), Event.Undo(answer.putting, answer.there));
      var r := packages[id];
      packages := packages[id := r.(results := r.results[k := r.results[k].(putting := answer.putting)])];
      there := answer.there;
      runner := Undoing(id, if answer.putting == PutBack then runner.steps[1..] else [], false);
    }

    /** Puts back what a package did, the last applied first, and stops at the first that is not put back. */
    method Undo(id: string, planned: bool, answers: seq<UndoAnswer>) returns (ghost es: seq<Event>)
      requires Valid() && runner == Resting && forall i :: 0 <= i < |answers| ==> Settled(answers[i].putting)
      requires id in packages ==> |answers| >= |packages[id].results|
      modifies this`packages, this`there, this`runner
      ensures Valid() && runner == Resting && Possible(old(Abs()), es) && Abs() == After(old(Abs()), es)
      ensures if id in old(packages) && old(packages)[id].status == Reverting
              then |es| >= 2 && es[0] == Begin(id, planned) && OnlyPutsBack(es[1..|es| - 1], answers) && es[|es| - 1] == End
              else es == []
    {
      hide ServiceOk, Enabled, Next, CountApplied, Possible, After, Plan, BackSteps, Undoable;
      ghost var s0 := Abs();
      es := [];
      NoStep(s0);
      if id !in packages || packages[id].status != Reverting {
        return;
      }
      var steps := RevertPlan(id);
      if !planned {
        steps := [];
      }
      PlanFits(s0, id);
      Begins(s0, id, planned);
      Took(s0, es, Begin(id, planned), Next(s0, Begin(id, planned)));
      es := es + [Begin(id, planned)];
      runner := Undoing(id, steps, false);
      ghost var mids := BackSteps([]);
      assert answers[..0] == [] && mids == [] by { NoBackSteps(); }
      assert es == [Begin(id, planned)] + mids;
      var j := 0;
      while j < |steps|
        invariant j <= |steps| <= |answers| && id in packages && Valid() && runner == Undoing(id, steps[j..], false)
        invariant Possible(s0, es) && After(s0, es) == Abs() && es == [Begin(id, planned)] + mids && mids == BackSteps(answers[..j])
        decreases |steps| - j
      {
        var answer := answers[j];
        ghost var before, e := Abs(), Event.Undo(answer.putting, answer.there);
        assert steps[j..][1..] == steps[j + 1..];
        PutBackItem(id, steps[j], answer);
        Took(s0, es, Mark, Next(before, Mark));
        Took(s0, es + [Mark], e, Abs());
        OneMorePutBack(answers, j);
        es, mids := es + [Mark] + [e], mids + [Mark] + [e];
        There(Abs(), id);
        j := j + 1;
        if answer.putting != PutBack {
          break;
        }
      }
      Ends(Abs(), id);
      Took(s0, es, End, Next(Abs(), End));
      es := es + [End];
      packages := packages[id := packages[id].(status := AfterReverting(packages[id]))];
      runner := Resting;
      assert es[1..|es| - 1] == mids;
    }
  }

  lemma PlanFits(s: Service, id: string)
    requires ServiceOk(s) && id in s.packages
    ensures |s.packages[id].results| <= |s.packages[id].items| && |Plan(s, id, |s.packages[id].results|)| <= |s.packages[id].results|
  {
    assert RecordOk(s.packages[id]);
    PlanLength(s, id, |s.packages[id].results|);
  }

  lemma {:induction false} PlanLength(s: Service, id: string, n: nat)
    requires id in s.packages && n <= |s.packages[id].results| && n <= |s.packages[id].items|
    ensures |Plan(s, id, n)| <= n
  {
    if n > 0 {
      PlanLength(s, id, n - 1);
    }
  }

  lemma Begins(s: Service, id: string, planned: bool)
    requires s.runner == Resting && id in s.packages && s.packages[id].status == Reverting && |s.packages[id].results| <= |s.packages[id].items|
    ensures Enabled(s, Begin(id, planned))
    ensures Next(s, Begin(id, planned)) == s.(runner := Undoing(id, if planned then Plan(s, id, |s.packages[id].results|) else [], false))
  {
  }

  lemma There(s: Service, id: string)
    requires ServiceOk(s) && s.runner.Undoing? && s.runner.id == id
    ensures id in s.packages
  {
  }

  lemma Ends(s: Service, id: string)
    requires s.runner.Undoing? && s.runner.id == id && s.runner.steps == [] && id in s.packages
    ensures Enabled(s, End)
    ensures Next(s, End) == s.(packages := s.packages[id := s.packages[id].(status := AfterReverting(s.packages[id]))], runner := Resting)
  {
  }

  lemma NoStep(s: Service)
    ensures Possible(s, []) && After(s, []) == s
  {
  }

  lemma Starts(s: Service, id: string)
    requires s.runner == Resting && id in s.packages && s.packages[id].status == Approved
    ensures Enabled(s, Start(id))
    ensures Next(s, Start(id)) == s.(packages := s.packages[id := s.packages[id].(status := Applying, results := [])], runner := Running(id))
  {
  }

  lemma Does(s: Service, e: Event)
    requires e.Do? && s.runner.Running? && s.runner.id in s.packages && GoesOn(s.packages[s.runner.id]) && e.at >= s.now
    ensures Enabled(s, e)
  {
  }

  lemma Finishes(s: Service, id: string)
    requires s.runner == Running(id) && id in s.packages && !GoesOn(s.packages[id])
    ensures Enabled(s, Finish)
    ensures Next(s, Finish) == s.(packages := s.packages[id := s.packages[id].(status := AfterApplying(s.packages[id]))], runner := Resting)
  {
  }
}
