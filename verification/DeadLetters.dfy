/** Messages that were never delivered or never confirmed, by queue name, oldest first. */
module DeadLetters {
  import opened Options
  import opened Messages

  type Letters<C> = map<string, seq<DeadLetter<C>>>

  /** The newest of them. */
  ghost function Newest<T>(s: seq<T>, limit: int): seq<T> {
    if |s| <= limit then s else if limit <= 0 then [] else s[|s| - limit..]
  }

  ghost function ListOf<C>(m: Letters<C>, queue: string): seq<DeadLetter<C>> {
    if queue in m then m[queue] else []
  }

  ghost function AddLetter<C>(m: Letters<C>, letter: DeadLetter<C>, limit: int, maxAge: int): Letters<C> {
    if limit <= 0 || maxAge <= 0 then m
    else m[letter.queue := Newest(ListOf(m, letter.queue) + [letter], limit)]
  }

  ghost function AddAll<C>(m: Letters<C>, letters: seq<DeadLetter<C>>, limit: int, maxAge: int): Letters<C> {
    if letters == [] then m
    else AddLetter(AddAll(m, letters[..|letters| - 1], limit, maxAge), letters[|letters| - 1], limit, maxAge)
  }

  lemma {:induction false} AddAllAppended<C>(m: Letters<C>, a: seq<DeadLetter<C>>, b: seq<DeadLetter<C>>, limit: int, maxAge: int)
    ensures AddAll(m, a + b, limit, maxAge) == AddAll(AddAll(m, a, limit, maxAge), b, limit, maxAge)
  {
    if b == [] {
      assert a + b == a;
    } else {
      assert (a + b)[..|a + b| - 1] == a + b[..|b| - 1];
      AddAllAppended(m, a, b[..|b| - 1], limit, maxAge);
    }
  }

  /** A list is never left empty. */
  ghost predicate NoneEmpty<C>(m: Letters<C>) {
    forall queue :: queue in m ==> m[queue] != []
  }

  /** Oldest first. */
  ghost predicate ByDeath<C>(letters: seq<DeadLetter<C>>) {
    forall i, j :: 0 <= i < j < |letters| ==> letters[i].diedAt <= letters[j].diedAt
  }

  /** What pruning leaves of one list: the oldest ones go, until neither limit is exceeded. */
  ghost function Pruned<C>(letters: seq<DeadLetter<C>>, limit: int, maxAge: int, now: int): seq<DeadLetter<C>> {
    if letters != [] && (|letters| > limit || now - letters[0].diedAt > maxAge) then Pruned(letters[1..], limit, maxAge, now) else letters
  }

  ghost function Young<C>(letters: seq<DeadLetter<C>>, maxAge: int, now: int): seq<DeadLetter<C>> {
    if letters == [] then []
    else (if now - letters[0].diedAt <= maxAge then [letters[0]] else []) + Young(letters[1..], maxAge, now)
  }

  /** With death times in order, what stays is exactly what is among the newest and young enough. */
  lemma {:induction false} PrunedIsTheYoungNewest<C>(letters: seq<DeadLetter<C>>, limit: int, maxAge: int, now: int)
    requires ByDeath(letters)
    ensures Pruned(letters, limit, maxAge, now) == Young(Newest(letters, limit), maxAge, now)
  {
    if letters == [] {
    } else if |letters| > limit {
      assert Newest(letters[1..], limit) == Newest(letters, limit);
      PrunedIsTheYoungNewest(letters[1..], limit, maxAge, now);
    } else if now - letters[0].diedAt > maxAge {
      assert Newest(letters[1..], limit) == letters[1..];
      PrunedIsTheYoungNewest(letters[1..], limit, maxAge, now);
    } else {
      AllYoung(letters, maxAge, now);
    }
  }

  lemma {:induction false} AllYoung<C>(letters: seq<DeadLetter<C>>, maxAge: int, now: int)
    requires forall i :: 0 <= i < |letters| ==> now - letters[i].diedAt <= maxAge
    ensures Young(letters, maxAge, now) == letters
  {
    if letters != [] {
      AllYoung(letters[1..], maxAge, now);
    }
  }

  /** A letter stays exactly when it is young enough and no more younger ones stay than are kept. */
  lemma {:induction false} PrunedExactly<C>(letters: seq<DeadLetter<C>>, limit: int, maxAge: int, now: int) returns (k: nat)
    requires ByDeath(letters)
    ensures k <= |letters| && Pruned(letters, limit, maxAge, now) == letters[k..]
    ensures forall j :: 0 <= j < |letters| ==> (j >= k <==> |letters| - j <= limit && now - letters[j].diedAt <= maxAge)
    decreases |letters|
  {
    k := 0;
    if letters != [] && (|letters| > limit || now - letters[0].diedAt > maxAge) {
      k := PrunedExactly(letters[1..], limit, maxAge, now);
      assert letters[1..][k..] == letters[k + 1..];
      assert forall j :: 1 <= j < |letters| ==> letters[1..][j - 1] == letters[j];
      k := k + 1;
    }
  }

  lemma StillByDeath<C>(letters: seq<DeadLetter<C>>, letter: DeadLetter<C>, k: nat)
    requires ByDeath(letters) && (forall i :: 0 <= i < |letters| ==> letters[i].diedAt <= letter.diedAt) && k <= |letters|
    ensures ByDeath((letters + [letter])[k..])
  {
    var all := letters + [letter];
    forall i, j | 0 <= i < j < |all[k..]| ensures all[k..][i].diedAt <= all[k..][j].diedAt {
      assert all[k..][i] == letters[k + i];
      assert all[k..][j] == if k + j < |letters| then letters[k + j] else letter;
    }
  }

  /** Letters come in as their messages die: the list stays oldest first, the one added is the newest, and the oldest go. */
  lemma AddedLast<C>(m: Letters<C>, letter: DeadLetter<C>, limit: int, maxAge: int)
    requires limit > 0 && maxAge > 0 && ByDeath(ListOf(m, letter.queue))
    requires forall i :: 0 <= i < |ListOf(m, letter.queue)| ==> ListOf(m, letter.queue)[i].diedAt <= letter.diedAt
    ensures var (before, after) := (ListOf(m, letter.queue), ListOf(AddLetter(m, letter, limit, maxAge), letter.queue));
            && ByDeath(after) && |after| == (if |before| < limit then |before| + 1 else limit)
            && after == before[|before| + 1 - |after|..] + [letter]
  {
    hide ByDeath;
    var before := ListOf(m, letter.queue);
    var k := if |before| < limit then 0 else |before| + 1 - limit;
    StillByDeath(before, letter, k);
    assert (before + [letter])[k..] == before[k..] + [letter];
  }

  ghost function PrunedAll<C>(m: Letters<C>, limits: string -> (int, int), now: int): Letters<C> {
    map queue | queue in m && Pruned(m[queue], limits(queue).0, limits(queue).1, now) != [] :: Pruned(m[queue], limits(queue).0, limits(queue).1, now)
  }

  /** Where a letter is in a list; past the end when it is not. */
  ghost function LetterAt<C>(letters: seq<DeadLetter<C>>, id: string): (k: nat)
    ensures k <= |letters|
    ensures k < |letters| ==> letters[k].content.id == id
    ensures forall j :: 0 <= j < k ==> letters[j].content.id != id
  {
    if letters == [] || letters[0].content.id == id then 0 else 1 + LetterAt(letters[1..], id)
  }

  /** The oldest go until no more are left than are kept. */
  method NewestOf<C>(all: seq<DeadLetter<C>>, limit: int) returns (letters: seq<DeadLetter<C>>)
    requires limit > 0
    ensures letters == Newest(all, limit)
  {
    letters := all;
    while |letters| > limit
      invariant limit <= |letters| || letters == all
      invariant |letters| <= |all| && letters == all[|all| - |letters|..]
    {
      letters := letters[1..];
    }
  }

  class DeadLetterStore<C(==)> {
    var byQueue: map<string, seq<DeadLetter<C>>>
    var total: nat

    ghost predicate Valid()
      reads this
    {
      NoneEmpty(byQueue)
    }

    constructor ()
      ensures Valid() && byQueue == map[] && total == 0
    {
      byQueue, total := map[], 0;
    }

    method Add(letter: DeadLetter<C>, limit: int, maxAge: int)
      requires Valid()
      modifies this
      ensures Valid() && byQueue == AddLetter(old(byQueue), letter, limit, maxAge)
      ensures if limit <= 0 || maxAge <= 0 then byQueue == old(byQueue)
              else
                letter.queue in byQueue && byQueue - {letter.queue} == old(byQueue) - {letter.queue} &&
                var (before, after) := (ListOf(old(byQueue), letter.queue), byQueue[letter.queue]);
                0 < |after| && after[|after| - 1] == letter && after[..|after| - 1] == before[|before| + 1 - |after|..] && |after| == if |before| < limit then |before| + 1 else limit
      ensures total == old(total) + if limit <= 0 || maxAge <= 0 then 0 else 1
    {
      if limit <= 0 || maxAge <= 0 {
        return;
      }
      var letters := NewestOf((if letter.queue in byQueue then byQueue[letter.queue] else []) + [letter], limit);
      total := total + 1;
      byQueue := byQueue[letter.queue := letters];
    }

    method Prune(limits: string -> (int, int), now: int)
      requires Valid()
      modifies this
      ensures Valid() && byQueue == PrunedAll(old(byQueue), limits, now) && total == old(total)
    {
      var left := byQueue.Keys;
      while left != {}
        invariant left <= old(byQueue).Keys && total == old(total)
        invariant forall queue :: queue in left ==> queue in byQueue && byQueue[queue] == old(byQueue)[queue]
        invariant forall queue :: queue in byQueue ==> queue in old(byQueue)
        invariant forall queue :: queue in old(byQueue) && queue !in left ==>
                    var kept := Pruned(old(byQueue)[queue], limits(queue).0, limits(queue).1, now);
                    if kept == [] then queue !in byQueue else queue in byQueue && byQueue[queue] == kept
        decreases left
      {
        var queue :| queue in left;
        var (limit, maxAge) := limits(queue);
        var letters := byQueue[queue];
        while letters != [] && (|letters| > limit || now - letters[0].diedAt > maxAge)
          invariant Pruned(letters, limit, maxAge, now) == Pruned(byQueue[queue], limit, maxAge, now)
          decreases |letters|
        {
          letters := letters[1..];
        }
        if letters == [] {
          byQueue := byQueue - {queue};
        } else {
          byQueue := byQueue[queue := letters];
        }
        left := left - {queue};
      }
    }

    method Remove(queue: string, id: string) returns (found: Option<DeadLetter<C>>)
      requires Valid()
      modifies this
      ensures Valid() && total == old(total)
      ensures var letters := ListOf(old(byQueue), queue);
              var k := LetterAt(letters, id);
              if k == |letters| then found == None && byQueue == old(byQueue)
              else
                found == Some(letters[k]) &&
                byQueue == if |letters| == 1 then old(byQueue) - {queue} else old(byQueue)[queue := letters[..k] + letters[k + 1..]]
    {
      if queue !in byQueue {
        return None;
      }
      var letters := byQueue[queue];
      var k := 0;
      while k < |letters|
        invariant k <= |letters| && forall j :: 0 <= j < k ==> letters[j].content.id != id
      {
        if letters[k].content.id == id {
          assert LetterAt(letters, id) == k;
          var rest := letters[..k] + letters[k + 1..];
          byQueue := if rest == [] then byQueue - {queue} else byQueue[queue := rest];
          return Some(letters[k]);
        }
        k := k + 1;
      }
      return None;
    }

    method Clear(queue: string) returns (count: nat)
      requires Valid()
      modifies this
      ensures Valid() && byQueue == old(byQueue) - {queue} && count == |ListOf(old(byQueue), queue)| && total == old(total)
    {
      count := if queue in byQueue then |byQueue[queue]| else 0;
      byQueue := byQueue - {queue};
    }
  }
}
