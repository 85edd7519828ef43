/** A package may be received and the delivery not be on record. */
module Deliveries {
  import opened Options
  import opened Transfers
  import Packages

  const EMPTY := Door(None, None)

  lemma OneMore(file: Bytes, es: seq<Event>, e: Event) returns (es': seq<Event>)
    requires Possible(Start(EMPTY), file, es) && Enabled(After(Start(EMPTY), file, es), e)
    ensures Possible(Start(EMPTY), file, es') && After(Start(EMPTY), file, es') == Next(After(Start(EMPTY), file, es), file, e)
  {
    hide Enabled, Next;
    es' := es + [e];
    assert es'[..|es|] == es;
  }

  /** One attempt has sent so much and waits for the answer to its latest request. */
  ghost predicate UnderWay(t: Transfer, file: Bytes, offset: nat, r: nat) {
    && offset <= |file| && t.attempts == map[0 := Onward(file, offset, r).0] && t.requests == map[r := Onward(file, offset, r).1]
    && (forall x :: x in t.answers ==> x < r) && !t.recorded
    && t.door == Door(if offset == 0 then None else Some(file[..offset]), None)
  }

  lemma Begins(file: Bytes) returns (es: seq<Event>)
    ensures Possible(Start(EMPTY), file, es) && UnderWay(After(Start(EMPTY), file, es), file, 0, 1)
  {
    hide Possible, After;
    es := NoEvents(file);
    es := OneMore(file, es, Event.Begin(0, 0));
    es := OneMore(file, es, Handle(0, true));
    es := OneMore(file, es, Hear(0, 1));
  }

  lemma NoEvents(file: Bytes) returns (es: seq<Event>)
    ensures Possible(Start(EMPTY), file, es) && After(Start(EMPTY), file, es) == Start(EMPTY)
  {
    es := [];
  }

  /** A part is sent and taken. */
  lemma PartSent(t: Transfer, file: Bytes, offset: nat, r: nat)
    requires UnderWay(t, file, offset, r) && offset < |file| <= MAX_PACKAGE
    ensures Enabled(t, Handle(r, true))
    ensures var n := offset + Size(file, offset);
            Next(t, file, Handle(r, true)) == t.(door := Door(Some(file[..n]), None), requests := map[], answers := t.answers[r := PartTaken(true)])
  {
    var n := offset + Size(file, offset);
    assert file[..offset] + file[offset..n] == file[..n];
    PartIsTaken(t.door, offset, file[offset..n]);
    assert t.requests - {r} == map[];
  }

  lemma PartHeard(t: Transfer, file: Bytes, offset: nat, r: nat)
    requires offset < |file| && t.attempts == map[0 := Onward(file, offset, r).0] && t.requests == map[] && !t.recorded
    requires (forall x :: x in t.answers ==> x < r + 1) && r in t.answers && t.answers[r] == PartTaken(true)
    requires t.door == Door(Some(file[..offset + Size(file, offset)]), None)
    ensures Enabled(t, Hear(0, r + 1)) && UnderWay(Next(t, file, Hear(0, r + 1)), file, offset + Size(file, offset), r + 1)
  {
    var n := offset + Size(file, offset);
    var t' := Next(t, file, Hear(0, r + 1));
    assert t'.attempts == map[0 := Onward(file, n, r + 1).0];
    assert t'.requests == map[r + 1 := Onward(file, n, r + 1).1];
  }

  /** The package is taken in, and the answer is lost. */
  lemma AnswerLost(t: Transfer, file: Bytes, r: nat)
    requires UnderWay(t, file, |file|, r) && file != []
    ensures Enabled(t, Handle(r, true)) && Enabled(Next(t, file, Handle(r, true)), Lose(r))
    ensures var t' := Next(Next(t, file, Handle(r, true)), file, Lose(r)); t'.door.here == Some(file) && !t'.recorded && t'.requests == map[]
  {
    assert file[..|file|] == file;
    assert Next(t, file, Handle(r, true)).requests == map[];
  }

  lemma {:induction false} SentAll(file: Bytes, es: seq<Event>, offset: nat, r: nat) returns (es': seq<Event>)
    requires file != [] && |file| <= MAX_PACKAGE
    requires Possible(Start(EMPTY), file, es) && UnderWay(After(Start(EMPTY), file, es), file, offset, r)
    ensures Possible(Start(EMPTY), file, es')
    ensures var t := After(Start(EMPTY), file, es'); t.door.here == Some(file) && !t.recorded
    decreases |file| - offset
  {
    hide Possible, After, Enabled, Next;
    if offset < |file| {
      var t := After(Start(EMPTY), file, es);
      PartSent(t, file, offset, r);
      es' := OneMore(file, es, Handle(r, true));
      PartHeard(Next(t, file, Handle(r, true)), file, offset, r);
      es' := OneMore(file, es', Hear(0, r + 1));
      es' := SentAll(file, es', offset + Size(file, offset), r + 1);
    } else {
      AnswerLost(After(Start(EMPTY), file, es), file, r);
      es' := OneMore(file, es, Handle(r, true));
      es' := OneMore(file, es', Lose(r));
    }
  }

  /**
   * For every package that can be sent there is a run in which the other environment has it and the sender
   * does not know; nothing keeps the sender from removing it then.
   */
  lemma ReceivedYetRemoved(file: Bytes, s: Packages.Service, id: string) returns (es: seq<Event>)
    requires file != [] && |file| <= MAX_PACKAGE
    requires id in s.packages && !s.packages[id].received && s.packages[id].status == Packages.Closed && !s.packages[id].delivered
    ensures Possible(Start(EMPTY), file, es)
    ensures var t := After(Start(EMPTY), file, es); t.door.here == Some(file) && t.recorded == s.packages[id].delivered
    ensures Packages.Enabled(s, Packages.Delete(id)) && id !in Packages.Next(s, Packages.Delete(id)).packages
  {
    hide Possible, After, UnderWay, Enabled, Next;
    es := Begins(file);
    es := SentAll(file, es, 0, 1);
  }
}
