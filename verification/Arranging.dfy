/** The order in which the items of a package are applied. */
module Arranging {
  /** An item, as far as its place matters: what it is, and what it names, all by schema and name. */
  datatype Piece = Piece(kind: string, action: string, objectKind: string, name: string, uses: set<string>)

  const ORDER: seq<string> := ["Type", "Table", "Script", "Function", "View", "Procedure"]

  function IndexIn(s: seq<string>, x: string): (k: int)
    ensures -1 <= k < |s|
  {
    if s == [] then -1
    else if s[0] == x then 0
    else
      var k := IndexIn(s[1..], x);
      if k < 0 then -1 else k + 1
  }

  /** The database first, what is dropped after what is made, files then, and the web application last. */
  function Rank(p: Piece): (r: nat)
    ensures r <= |ORDER| + 2
  {
    if p.kind == "frontend" then |ORDER| + 2
    else if p.kind != "database" then |ORDER| + 1
    else if p.action == "Drop" then |ORDER|
    else
      var k := IndexIn(ORDER, if p.action == "Script" then "Script" else p.objectKind);
      if k < 0 then 0 else k
  }

  function OfRank(items: seq<Piece>, r: nat): seq<Piece> {
    if items == [] then [] else (if Rank(items[0]) == r then [items[0]] else []) + OfRank(items[1..], r)
  }

  /** By rank, and in the order given within a rank. */
  function ByRank(items: seq<Piece>, r: nat): seq<Piece> {
    if r == 0 then OfRank(items, 0) else ByRank(items, r - 1) + OfRank(items, r)
  }

  predicate Defines(p: Piece) {
    p.action == "Define"
  }

  /** What is defined in the package. */
  function Inside(items: seq<Piece>): set<string> {
    set p | p in items && Defines(p) :: p.name
  }

  /** What an item needs among what is defined in the package. */
  function Needs(p: Piece, inside: set<string>): set<string> {
    set n | n in p.uses && n in inside && n != p.name
  }

  /** The first item whose every need is done; the first of all when they go round in a circle. */
  function Choice(pending: seq<Piece>, inside: set<string>, done: set<string>, i: nat): (k: nat)
    requires i <= |pending| && pending != []
    ensures k < |pending|
    ensures k == 0 || Needs(pending[k], inside) <= done
    ensures forall j :: i <= j < |pending| && Needs(pending[j], inside) <= done ==> Needs(pending[k], inside) <= done && k <= j
    decreases |pending| - i
  {
    if i == |pending| then 0 else if Needs(pending[i], inside) <= done then i else Choice(pending, inside, done, i + 1)
  }

  function Without<T>(s: seq<T>, k: nat): seq<T>
    requires k < |s|
  {
    s[..k] + s[k + 1..]
  }

  function With(done: set<string>, p: Piece): set<string> {
    if Defines(p) then done + {p.name} else done
  }

  function Placed(pending: seq<Piece>, inside: set<string>, done: set<string>): seq<Piece>
    decreases |pending|
  {
    if pending == [] then []
    else
      var k := Choice(pending, inside, done, 0);
      [pending[k]] + Placed(Without(pending, k), inside, With(done, pending[k]))
  }

  /** The order the items of a package come in. */
  function Arranged(items: seq<Piece>): seq<Piece> {
    Placed(ByRank(items, |ORDER| + 2), Inside(items), {})
  }

  method Arrange(items: seq<Piece>) returns (placed: seq<Piece>)
    ensures placed == Arranged(items)
  {
    hide ByRank, Needs, Inside;
    var pending := ByRank(items, |ORDER| + 2);
    ghost var first := pending;
    var inside := Inside(items);
    var done: set<string> := {};
    placed := [];
    while |pending| > 0
      invariant placed + Placed(pending, inside, done) == Placed(first, inside, {})
      decreases |pending|
    {
      var k := 0;
      while k < |pending| && !(Needs(pending[k], inside) <= done)
        invariant k <= |pending| && Choice(pending, inside, done, k) == Choice(pending, inside, done, 0)
      {
        k := k + 1;
      }
      if k == |pending| {
        k := 0;
      }
      assert k == Choice(pending, inside, done, 0);
      PlacedOneByOne(pending, inside, done);
      var next := pending[k];
      pending := Without(pending, k);
      placed := placed + [next];
      if Defines(next) {
        done := done + {next.name};
      }
    }
  }

  // ------------------------------------------------------------ nothing is lost or made up

  lemma {:induction false} RanksPartition(items: seq<Piece>, r: nat, p: Piece)
    ensures multiset(ByRank(items, r))[p] == if Rank(p) <= r then multiset(items)[p] else 0
  {
    hide OfRank, Rank;
    OfRankCounts(items, r, p);
    if r > 0 {
      RanksPartition(items, r - 1, p);
    }
  }

  lemma {:induction false} OfRankCounts(items: seq<Piece>, r: nat, p: Piece)
    ensures multiset(OfRank(items, r))[p] == if Rank(p) == r then multiset(items)[p] else 0
  {
    if items != [] {
      hide Rank;
      assert items == [items[0]] + items[1..];
      OfRankCounts(items[1..], r, p);
    }
  }

  lemma {:induction false} PlacedKeepsAll(pending: seq<Piece>, inside: set<string>, done: set<string>)
    ensures multiset(Placed(pending, inside, done)) == multiset(pending)
    decreases |pending|
  {
    if pending != [] {
      var k := Choice(pending, inside, done, 0);
      assert pending == pending[..k] + [pending[k]] + pending[k + 1..];
      PlacedKeepsAll(Without(pending, k), inside, With(done, pending[k]));
    }
  }

  /** The items are placed once each. */
  lemma ArrangedIsPermutation(items: seq<Piece>)
    ensures multiset(Arranged(items)) == multiset(items)
  {
    PlacedKeepsAll(ByRank(items, |ORDER| + 2), Inside(items), {});
    forall p ensures multiset(ByRank(items, |ORDER| + 2))[p] == multiset(items)[p] {
      RanksPartition(items, |ORDER| + 2, p);
    }
  }

  // ------------------------------------------------------------ what is needed comes first

  ghost predicate Brings(items: seq<Piece>, n: string) {
    exists p :: p in items && p.action == "Define" && p.name == n
  }

  /** An item uses something that comes along, other than itself. */
  ghost predicate Uses(items: seq<Piece>, p: Piece, n: string) {
    n in p.uses && n != p.name && Brings(items, n)
  }

  /** Names that go round: whatever defines one of them uses one of the others. */
  ghost predicate Circle(items: seq<Piece>, names: set<string>) {
    && names != {} && (forall n :: n in names ==> Brings(items, n))
    && forall p :: p in items && p.action == "Define" && p.name in names ==> exists n :: n in names && Uses(items, p, n)
  }

  lemma UsesAre(items: seq<Piece>)
    ensures forall n :: n in Inside(items) <==> Brings(items, n)
    ensures forall p, n :: n in Needs(p, Inside(items)) <==> Uses(items, p, n)
  {
  }

  lemma CircleIs(items: seq<Piece>, names: set<string>)
    ensures Circle(items, names) <==>
            names != {} && names <= Inside(items) && forall p :: p in items && Defines(p) && p.name in names ==> Needs(p, Inside(items)) * names != {}
  {
    hide Needs, Inside, Uses, Brings;
    UsesAre(items);
    if Circle(items, names) {
      forall p | p in items && Defines(p) && p.name in names ensures Needs(p, Inside(items)) * names != {} {
        var n :| n in names && Uses(items, p, n);
        assert n in Needs(p, Inside(items)) * names;
      }
    } else if names != {} && names <= Inside(items) {
      var p :| p in items && Defines(p) && p.name in names && !exists n :: n in names && Uses(items, p, n);
      assert Needs(p, Inside(items)) * names == {};
    }
  }

  ghost predicate NoCircle(items: seq<Piece>) {
    forall names: set<string> :: !Circle(items, names)
  }

  /** Everything comes after a definition of each name it needs. */
  ghost predicate NeedsFirst(placed: seq<Piece>) {
    forall k: nat, n :: k < |placed| && Uses(placed, placed[k], n) ==> DefinedBefore(placed, k, n)
  }

  ghost predicate DefinedBefore(placed: seq<Piece>, k: nat, n: string)
    requires k <= |placed|
  {
    exists j :: 0 <= j < k && placed[j].action == "Define" && placed[j].name == n
  }

  /** What is pending is of the package, and so is every definition of a name that is not done. */
  ghost predicate ToCome(items: seq<Piece>, pending: seq<Piece>, done: set<string>) {
    (forall p :: p in pending ==> p in items) && forall p :: p in items && Defines(p) && p.name !in done ==> p in pending
  }

  lemma StillToCome(items: seq<Piece>, pending: seq<Piece>, done: set<string>, c: nat)
    requires ToCome(items, pending, done) && c < |pending|
    ensures ToCome(items, Without(pending, c), With(done, pending[c]))
    ensures forall x :: x in pending ==> x == pending[c] || x in Without(pending, c)
  {
    var rest := Without(pending, c);
    forall x | x in pending ensures x == pending[c] || x in rest {
      var j :| 0 <= j < |pending| && pending[j] == x;
      if j != c {
        assert rest[if j < c then j else j - 1] == x;
      }
    }
  }

  /** When no definition is ready although something is missing, what is missing goes round. */
  lemma StuckIsCircle(items: seq<Piece>, pending: seq<Piece>, done: set<string>, p: Piece)
    requires ToCome(items, pending, done) && !(Needs(p, Inside(items)) <= done)
    requires forall q :: q in pending && Defines(q) ==> !(Needs(q, Inside(items)) <= done)
    ensures Circle(items, Inside(items) - done)
  {
    hide Circle;
    var inside := Inside(items);
    var missing := inside - done;
    CircleIs(items, missing);
    var n :| n in Needs(p, inside) && n !in done;
    assert n in missing;
    forall q | q in items && Defines(q) && q.name in missing ensures Needs(q, inside) * missing != {} {
      var m :| m in Needs(q, inside) && m !in done;
      assert m in Needs(q, inside) * missing;
    }
  }

  lemma {:induction false} PlacedAfterNeeds(items: seq<Piece>, pending: seq<Piece>, done: set<string>, k: nat, n: string)
    requires NoCircle(items) && ToCome(items, pending, done)
    requires k < |Placed(pending, Inside(items), done)| && n in Needs(Placed(pending, Inside(items), done)[k], Inside(items))
    ensures n in done || DefinedBefore(Placed(pending, Inside(items), done), k, n)
    decreases |pending|
  {
    hide Needs, Circle, Inside;
    var inside := Inside(items);
    var placed, c := Placed(pending, inside, done), Choice(pending, inside, done, 0);
    if !(Needs(pending[c], inside) <= done) {
      StuckIsCircle(items, pending, done, pending[c]);
    }
    if k > 0 {
      var done' := With(done, pending[c]);
      var later := Placed(Without(pending, c), inside, done');
      StillToCome(items, pending, done, c);
      PlacedAfterNeeds(items, Without(pending, c), done', k - 1, n);
      if n !in done' {
        var i :| 0 <= i < k - 1 && later[i].action == "Define" && later[i].name == n;
        assert placed[i + 1].action == "Define" && placed[i + 1].name == n;
      } else if n !in done {
        assert placed[0] == pending[c] && placed[0].action == "Define";
      }
    }
  }

  lemma DefinedIn(items: seq<Piece>, names: set<string>) returns (d: Piece)
    requires Circle(items, names)
    ensures d in items && Defines(d) && d.name in names
  {
    hide Uses;
    var n :| n in names;
    assert Brings(items, n);
    d :| d in items && Defines(d) && d.name == n;
  }

  /** Of what goes round, the first to be placed comes before a name it needs. */
  lemma {:induction false} FirstOfCircle(items: seq<Piece>, pending: seq<Piece>, done: set<string>, names: set<string>) returns (k: nat, n: string)
    requires Circle(items, names) && names !! done && ToCome(items, pending, done)
    ensures k < |Placed(pending, Inside(items), done)| && n in Needs(Placed(pending, Inside(items), done)[k], Inside(items))
    ensures n in names && !DefinedBefore(Placed(pending, Inside(items), done), k, n)
    decreases |pending|
  {
    hide Needs, Inside, Circle;
    var inside := Inside(items);
    CircleIs(items, names);
    var d := DefinedIn(items, names);
    var placed, c := Placed(pending, inside, done), Choice(pending, inside, done, 0);
    if Defines(pending[c]) && pending[c].name in names {
      k := 0;
      n :| n in Needs(pending[c], inside) * names;
    } else {
      var rest, done' := Without(pending, c), With(done, pending[c]);
      StillToCome(items, pending, done, c);
      k, n := FirstOfCircle(items, rest, done', names);
      assert placed == [pending[c]] + Placed(rest, inside, done');
      k := k + 1;
    }
  }

  lemma RankedHasAll(items: seq<Piece>)
    ensures forall p :: p in ByRank(items, |ORDER| + 2) <==> p in items
  {
    forall p ensures p in ByRank(items, |ORDER| + 2) <==> p in items {
      RanksPartition(items, |ORDER| + 2, p);
      assert p in ByRank(items, |ORDER| + 2) <==> p in multiset(ByRank(items, |ORDER| + 2));
    }
  }

  lemma SameUses(items: seq<Piece>, p: Piece, n: string)
    ensures Uses(Arranged(items), p, n) <==> Uses(items, p, n)
  {
    hide Arranged;
    ArrangedIsPermutation(items);
    forall q: Piece ensures q in Arranged(items) <==> q in items {
      assert q in Arranged(items) <==> q in multiset(Arranged(items));
      assert q in items <==> q in multiset(items);
    }
  }

  /** Every item comes after what it needs of what comes along exactly when no needs go round in a circle. */
  lemma NeedsComeFirst(items: seq<Piece>)
    ensures NeedsFirst(Arranged(items)) <==> NoCircle(items)
  {
    hide Placed, ByRank, Needs, Circle, Inside, Uses;
    RankedHasAll(items);
    var pending, placed := ByRank(items, |ORDER| + 2), Arranged(items);
    UsesAre(items);
    forall p: Piece, n ensures Uses(placed, p, n) <==> Uses(items, p, n) {
      SameUses(items, p, n);
    }
    if NoCircle(items) {
      forall k: nat, n | k < |placed| && Uses(placed, placed[k], n) ensures DefinedBefore(placed, k, n) {
        PlacedAfterNeeds(items, pending, {}, k, n);
      }
    } else {
      var names: set<string> :| Circle(items, names);
      var k, n := FirstOfCircle(items, pending, {}, names);
      assert Uses(placed, placed[k], n);
    }
  }

  /** Every name has a definition that is above all it needs. */
  ghost predicate Rising(items: seq<Piece>, names: set<string>, height: map<string, nat>) {
    height.Keys == names && forall n :: n in names ==> Founded(items, n, height)
  }

  ghost predicate Founded(items: seq<Piece>, n: string, height: map<string, nat>)
    requires n in height
  {
    exists p :: p in items && Defines(p) && p.name == n && AllBelow(Needs(p, Inside(items)), height, height[n])
  }

  ghost predicate AllBelow(needs: set<string>, height: map<string, nat>, top: nat) {
    forall m :: m in needs ==> m in height && height[m] < top
  }

  lemma {:induction false} Heights(items: seq<Piece>, done: set<string>, height: map<string, nat>) returns (full: map<string, nat>)
    requires NoCircle(items) && done <= Inside(items) && Rising(items, done, height)
    requires forall n :: n in done ==> height[n] < |done|
    ensures Rising(items, Inside(items), full)
    decreases |Inside(items) - done|
  {
    hide Needs, Inside, Rising;
    var inside := Inside(items);
    var missing := inside - done;
    if missing == {} {
      assert inside == done;
      full := height;
    } else {
      CircleIs(items, missing);
      assert !Circle(items, missing);
      var p :| p in items && Defines(p) && p.name in missing && Needs(p, inside) * missing == {};
      NeededIsDone(p, inside, done);
      NextHeight(items, done, height, p);
      assert inside - (done + {p.name}) == missing - {p.name};
      full := Heights(items, done + {p.name}, height[p.name := |done|]);
    }
  }

  lemma NeededIsDone(p: Piece, inside: set<string>, done: set<string>)
    requires Needs(p, inside) * (inside - done) == {}
    ensures Needs(p, inside) <= done
  {
    forall m | m in Needs(p, inside) ensures m in done {
      assert m !in Needs(p, inside) * (inside - done);
    }
  }

  lemma NextHeight(items: seq<Piece>, done: set<string>, height: map<string, nat>, p: Piece)
    requires Rising(items, done, height) && (forall n :: n in done ==> height[n] < |done|)
    requires p in items && Defines(p) && p.name !in done && Needs(p, Inside(items)) <= done
    ensures Rising(items, done + {p.name}, height[p.name := |done|])
    ensures forall n :: n in done + {p.name} ==> height[p.name := |done|][n] < |done + {p.name}|
  {
    hide Inside, Founded, Needs;
    var higher := height[p.name := |done|];
    OneFounded(items, p, higher);
    forall n | n in done ensures Founded(items, n, higher) {
      StillFounded(items, n, height, higher);
    }
  }

  lemma OneFounded(items: seq<Piece>, p: Piece, height: map<string, nat>)
    requires p in items && Defines(p) && p.name in height && AllBelow(Needs(p, Inside(items)), height, height[p.name])
    ensures Founded(items, p.name, height)
  {
  }

  lemma StillFounded(items: seq<Piece>, n: string, height: map<string, nat>, higher: map<string, nat>)
    requires n in height && Founded(items, n, height)
    requires forall m :: m in height ==> m in higher && higher[m] == height[m]
    ensures Founded(items, n, higher)
  {
    hide Needs, Inside;
    var p :| p in items && Defines(p) && p.name == n && AllBelow(Needs(p, Inside(items)), height, height[n]);
    assert AllBelow(Needs(p, Inside(items)), higher, higher[n]);
  }

  lemma {:induction false} LowestOf(names: set<string>, height: map<string, nat>) returns (n: string)
    requires names != {} && names <= height.Keys
    ensures n in names && forall m :: m in names ==> height[n] <= height[m]
    decreases |names|
  {
    var first :| first in names;
    var rest := names - {first};
    assert forall m :: m in names ==> m == first || m in rest;
    if rest == {} {
      n := first;
    } else {
      var other := LowestOf(rest, height);
      n := if height[other] < height[first] then other else first;
    }
  }

  lemma LowestNeedsNone(items: seq<Piece>, height: map<string, nat>, names: set<string>)
    requires Rising(items, Inside(items), height) && names != {} && names <= Inside(items)
    ensures !Circle(items, names)
  {
    hide Needs, Inside, Circle;
    CircleIs(items, names);
    var n := LowestOf(names, height);
    assert Founded(items, n, height);
    var p :| p in items && Defines(p) && p.name == n && AllBelow(Needs(p, Inside(items)), height, height[n]);
    assert Needs(p, Inside(items)) * names == {};
  }

  /** No needs go round in a circle exactly when each name can be put above what some definition of it needs. */
  lemma NoCircleRises(items: seq<Piece>)
    ensures NoCircle(items) <==> exists height :: Rising(items, Inside(items), height)
  {
    hide Needs, Inside, Rising;
    if NoCircle(items) {
      assert Rising(items, {}, map[]) by { NothingRises(items); }
      var height := Heights(items, {}, map[]);
    } else if height :| Rising(items, Inside(items), height) {
      forall names: set<string> ensures !Circle(items, names) {
        CircleIs(items, names);
        if names != {} && names <= Inside(items) {
          LowestNeedsNone(items, height, names);
        }
      }
    }
  }

  lemma NothingRises(items: seq<Piece>)
    ensures Rising(items, {}, map[])
  {
  }

  // ------------------------------------------------------------ one layer after the other

  /** What is made in the database; what is dropped there; files; the web application. */
  function Layer(p: Piece): nat {
    if p.kind == "database" then if p.action == "Drop" then 1 else 0
    else if p.kind != "frontend" then 2 else 3
  }

  /** Among what is made: types come first, and with them what is of no kind known here. */
  function Turn(p: Piece): nat {
    match if p.action == "Script" then "Script" else p.objectKind
    case "Table" => 1
    case "Script" => 2
    case "Function" => 3
    case "View" => 4
    case "Procedure" => 5
    case _ => 0
  }

  lemma {:induction false} IndexIs(s: seq<string>, x: string)
    ensures IndexIn(s, x) >= 0 ==> s[IndexIn(s, x)] == x
    ensures IndexIn(s, x) < 0 ==> x !in s
  {
    if s != [] && s[0] != x {
      IndexIs(s[1..], x);
    }
  }

  lemma RankIs(p: Piece)
    ensures Rank(p) == if Layer(p) == 0 then Turn(p) else |ORDER| - 1 + Layer(p)
  {
    if Layer(p) == 0 {
      var x := if p.action == "Script" then "Script" else p.objectKind;
      IndexIs(ORDER, x);
      assert ORDER[0] == "Type" && ORDER[1] == "Table" && ORDER[2] == "Script" && ORDER[3] == "Function" && ORDER[4] == "View" && ORDER[5] == "Procedure";
    }
  }

  ghost predicate Ranked(s: seq<Piece>) {
    forall i, j :: 0 <= i < j < |s| ==> Rank(s[i]) <= Rank(s[j])
  }

  ghost predicate Layered(s: seq<Piece>) {
    forall i, j :: 0 <= i < j < |s| ==> Layer(s[i]) <= Layer(s[j])
  }

  lemma {:induction false} OfRankHas(items: seq<Piece>, r: nat)
    ensures forall p :: p in OfRank(items, r) ==> Rank(p) == r
  {
    if items != [] {
      OfRankHas(items[1..], r);
    }
  }

  lemma {:induction false} ByRankIsRanked(items: seq<Piece>, r: nat)
    ensures Ranked(ByRank(items, r)) && forall p :: p in ByRank(items, r) ==> Rank(p) <= r
  {
    hide Rank, OfRank;
    OfRankHas(items, r);
    if r > 0 {
      ByRankIsRanked(items, r - 1);
      var a, b := ByRank(items, r - 1), OfRank(items, r);
      forall i, j | 0 <= i < j < |a + b| ensures Rank((a + b)[i]) <= Rank((a + b)[j]) {
        if i < |a| {
          assert a[i] in a;
        } else {
          assert b[i - |a|] in b;
        }
        if j >= |a| {
          assert b[j - |a|] in b;
        }
      }
    } else {
      var b := OfRank(items, 0);
      forall i, j | 0 <= i < j < |b| ensures Rank(b[i]) <= Rank(b[j]) {
        assert b[i] in b && b[j] in b;
      }
    }
  }

  /** As closing a package makes them: only objects of the database are defined, and only they and scripts use anything. */
  ghost predicate AsClosed(items: seq<Piece>) {
    forall p :: p in items ==> (p.action == "Define" ==> p.kind == "database") && (p.action == "Define" || (p.action == "Script" && p.kind == "database") || p.uses == {})
  }

  lemma LayersOf(p: Piece)
    requires AsClosed([p])
    ensures Defines(p) ==> Layer(p) == 0
    ensures Layer(p) > 0 ==> p.uses == {}
  {
    assert p in [p];
  }

  /** What is chosen belongs to the first layer there is. */
  lemma ChosenIsFirst(items: seq<Piece>, pending: seq<Piece>, done: set<string>)
    requires pending != [] && Ranked(pending) && NoCircle(items) && ToCome(items, pending, done) && AsClosed(items)
    ensures forall x :: x in pending ==> Layer(pending[Choice(pending, Inside(items), done, 0)]) <= Layer(x)
  {
    hide Circle, Inside, Rank;
    var inside := Inside(items);
    var c := Choice(pending, inside, done, 0);
    assert pending[0] in pending;
    forall a, b | a in pending && b in pending && Rank(a) <= Rank(b) ensures Layer(a) <= Layer(b) {
      RankIs(a);
      RankIs(b);
    }
    LayersOf(pending[0]);
    if !(Needs(pending[0], inside) <= done) && forall q :: q in pending && Defines(q) ==> !(Needs(q, inside) <= done) {
      StuckIsCircle(items, pending, done, pending[0]);
    } else if !(Needs(pending[0], inside) <= done) {
      var q :| q in pending && Defines(q) && Needs(q, inside) <= done;
      LayersOf(q);
    }
  }

  lemma StillRanked(pending: seq<Piece>, c: nat)
    requires Ranked(pending) && c < |pending|
    ensures Ranked(Without(pending, c)) && forall x :: x in Without(pending, c) ==> x in pending
  {
    hide Rank;
    var rest := Without(pending, c);
    forall x | x in rest ensures x in pending {
      var j :| 0 <= j < |rest| && rest[j] == x;
      assert pending[if j < c then j else j + 1] == x;
    }
    assert forall j :: 0 <= j < |rest| ==> rest[j] == pending[if j < c then j else j + 1];
  }

  lemma {:induction false} PlacedIsLayered(items: seq<Piece>, pending: seq<Piece>, done: set<string>)
    requires Ranked(pending) && NoCircle(items) && ToCome(items, pending, done) && AsClosed(items)
    ensures Layered(Placed(pending, Inside(items), done))
    decreases |pending|
  {
    hide Rank, Needs, Layer, Inside, NoCircle, AsClosed, ToCome, Defines, Placed, Choice;
    PlacedOneByOne(pending, Inside(items), done);
    if pending != [] {
      var c := Choice(pending, Inside(items), done, 0);
      var rest, done' := Without(pending, c), With(done, pending[c]);
      ChosenIsFirst(items, pending, done);
      StillToCome(items, pending, done, c);
      StillRanked(pending, c);
      PlacedIsLayered(items, rest, done');
      var later := Placed(rest, Inside(items), done');
      forall j | 0 <= j < |later| ensures Layer(pending[c]) <= Layer(later[j]) {
        PlacedKeepsAll(rest, Inside(items), done');
        assert later[j] in multiset(later);
        assert later[j] in rest;
      }
    }
  }

  lemma ArrangedIsLayered(items: seq<Piece>)
    requires NoCircle(items) && AsClosed(items)
    ensures Layered(Arranged(items))
  {
    hide Placed, Rank, ByRank, Needs, Ranked, Layered, Inside;
    RankedHasAll(items);
    ByRankIsRanked(items, |ORDER| + 2);
    PlacedIsLayered(items, ByRank(items, |ORDER| + 2), {});
  }

  // ------------------------------------------------------------ as early as can be

  /** Layer by layer, and what is made in the turn of its kind. */
  predicate NotAfter(a: Piece, b: Piece) {
    Layer(a) < Layer(b) || (Layer(a) == Layer(b) && (Layer(a) == 0 ==> Turn(a) <= Turn(b)))
  }

  lemma NotAfterIs(a: Piece, b: Piece)
    ensures NotAfter(a, b) <==> Rank(a) <= Rank(b)
  {
    hide Rank, Layer, Turn;
    RankIs(a);
    RankIs(b);
    TurnIs(a);
    TurnIs(b);
  }

  lemma TurnIs(p: Piece)
    ensures Turn(p) < |ORDER| && Layer(p) <= 3
  {
  }

  ghost predicate There(placed: seq<Piece>, k: nat, done: set<string>, needs: set<string>)
    requires k <= |placed|
  {
    forall n :: n in needs ==> n in done || DefinedBefore(placed, k, n)
  }

  lemma ThereLater(p: Piece, later: seq<Piece>, k: nat, done: set<string>, needs: set<string>)
    requires k <= |later| && There([p] + later, k + 1, done, needs)
    ensures There(later, k, With(done, p), needs)
  {
    var placed := [p] + later;
    forall n | n in needs && n !in done ensures n in With(done, p) || DefinedBefore(later, k, n) {
      var j :| 0 <= j < k + 1 && placed[j].action == "Define" && placed[j].name == n;
      if j > 0 {
        assert later[j - 1].action == "Define" && later[j - 1].name == n;
      }
    }
  }

  lemma {:induction false} PlacedSoonest(items: seq<Piece>, pending: seq<Piece>, done: set<string>, i: nat, j: nat)
    requires Ranked(pending) && i < j < |Placed(pending, Inside(items), done)|
    requires There(Placed(pending, Inside(items), done), i, done, Needs(Placed(pending, Inside(items), done)[j], Inside(items)))
    ensures Rank(Placed(pending, Inside(items), done)[i]) <= Rank(Placed(pending, Inside(items), done)[j])
    decreases |pending|
  {
    hide Rank, Needs, Inside, Placed, Choice, Ranked, There, With;
    var inside := Inside(items);
    PlacedOneByOne(pending, inside, done);
    var c := Choice(pending, inside, done, 0);
    var rest, done' := Without(pending, c), With(done, pending[c]);
    var later := Placed(rest, inside, done');
    StillRanked(pending, c);
    if i == 0 {
      PlacedKeepsAll(rest, inside, done');
      assert later[j - 1] in multiset(later);
      assert Needs(later[j - 1], inside) <= done by {
        NothingBefore([pending[c]] + later, done, Needs(later[j - 1], inside));
      }
      var at :| 0 <= at < |rest| && rest[at] == later[j - 1];
      ReadyIsNotPassed(pending, inside, done, c, at);
    } else {
      ThereLater(pending[c], later, i - 1, done, Needs(later[j - 1], inside));
      PlacedSoonest(items, rest, done', i - 1, j - 1);
    }
  }

  lemma NothingBefore(placed: seq<Piece>, done: set<string>, needs: set<string>)
    requires There(placed, 0, done, needs)
    ensures needs <= done
  {
  }

  lemma ReadyIsNotPassed(pending: seq<Piece>, inside: set<string>, done: set<string>, c: nat, at: nat)
    requires Ranked(pending) && pending != [] && c == Choice(pending, inside, done, 0) && at < |Without(pending, c)|
    requires Needs(Without(pending, c)[at], inside) <= done
    ensures Rank(pending[c]) <= Rank(Without(pending, c)[at])
  {
    hide Rank, Needs, Choice;
    var k := if at < c then at else at + 1;
    assert Without(pending, c)[at] == pending[k];
  }

  /**
   * Nothing is held back: where everything an item uses is already there, only what comes before it by
   * layer and kind, or with it, is placed.
   */
  lemma NothingHeldBack(items: seq<Piece>, i: nat, j: nat)
    requires i < j < |Arranged(items)|
    requires forall n :: Uses(items, Arranged(items)[j], n) ==> DefinedBefore(Arranged(items), i, n)
    ensures NotAfter(Arranged(items)[i], Arranged(items)[j])
  {
    hide Placed, Rank, ByRank, Needs, Ranked, Inside, Uses;
    RankedHasAll(items);
    UsesAre(items);
    ByRankIsRanked(items, |ORDER| + 2);
    assert There(Arranged(items), i, {}, Needs(Arranged(items)[j], Inside(items)));
    PlacedSoonest(items, ByRank(items, |ORDER| + 2), {}, i, j);
    NotAfterIs(Arranged(items)[i], Arranged(items)[j]);
  }

  /** The items alike to one that use nothing of what comes along. */
  ghost function Alike(s: seq<Piece>, like: Piece, items: seq<Piece>): seq<Piece> {
    if s == [] then []
    else if NotAfter(s[0], like) && NotAfter(like, s[0]) && (forall n :: !Uses(items, s[0], n)) then [s[0]] + Alike(s[1..], like, items)
    else Alike(s[1..], like, items)
  }

  lemma {:induction false} AlikeAppended(a: seq<Piece>, b: seq<Piece>, like: Piece, items: seq<Piece>)
    ensures Alike(a + b, like, items) == Alike(a, like, items) + Alike(b, like, items)
  {
    hide NotAfter, Uses;
    if a == [] {
      assert a + b == b;
    } else {
      assert (a + b)[1..] == a[1..] + b;
      AlikeAppended(a[1..], b, like, items);
    }
  }

  lemma {:induction false} NoneAlike(s: seq<Piece>, like: Piece, items: seq<Piece>)
    requires forall p :: p in s ==> !(NotAfter(p, like) && NotAfter(like, p)) || exists n :: Uses(items, p, n)
    ensures Alike(s, like, items) == []
  {
    hide NotAfter, Uses;
    if s != [] {
      assert s[0] in s;
      NoneAlike(s[1..], like, items);
    }
  }

  lemma {:induction false} AlikeOfRank(s: seq<Piece>, r: nat, like: Piece, items: seq<Piece>)
    ensures Alike(OfRank(s, r), like, items) == if r == Rank(like) then Alike(s, like, items) else []
  {
    hide NotAfter, Uses, Rank;
    if s != [] {
      NotAfterIs(s[0], like);
      NotAfterIs(like, s[0]);
      AlikeOfRank(s[1..], r, like, items);
      AlikeAppended(if Rank(s[0]) == r then [s[0]] else [], OfRank(s[1..], r), like, items);
    }
  }

  lemma {:induction false} AlikeByRank(s: seq<Piece>, r: nat, like: Piece, items: seq<Piece>)
    ensures Alike(ByRank(s, r), like, items) == if Rank(like) <= r then Alike(s, like, items) else []
  {
    hide NotAfter, Uses, Rank, OfRank;
    AlikeOfRank(s, r, like, items);
    if r > 0 {
      AlikeByRank(s, r - 1, like, items);
      AlikeAppended(ByRank(s, r - 1), OfRank(s, r), like, items);
    }
  }

  lemma {:induction false} AlikePlaced(items: seq<Piece>, pending: seq<Piece>, done: set<string>, like: Piece)
    ensures Alike(Placed(pending, Inside(items), done), like, items) == Alike(pending, like, items)
    decreases |pending|
  {
    hide NotAfter, Uses, Needs, Inside, Placed, Choice;
    var inside := Inside(items);
    PlacedOneByOne(pending, inside, done);
    if pending != [] {
      var c := Choice(pending, inside, done, 0);
      var rest := Without(pending, c);
      AlikePlaced(items, rest, With(done, pending[c]), like);
      UsesAre(items);
      AlikeAppended([pending[c]], rest, like, items);
      AlikeAppended([pending[c]], Placed(rest, inside, With(done, pending[c])), like, items);
      var head, tail := pending[..c], pending[c + 1..];
      AlikeAppended(head, tail, like, items);
      assert pending == head + ([pending[c]] + tail);
      AlikeAppended(head, [pending[c]] + tail, like, items);
      AlikeAppended([pending[c]], tail, like, items);
      forall p | p in head ensures exists n :: Uses(items, p, n) {
        var j :| 0 <= j < c && head[j] == p;
        var n :| n in Needs(pending[j], inside) && n !in done;
        assert Uses(items, p, n);
      }
      NoneAlike(head, like, items);
    }
  }

  /** Of items alike that use nothing of what comes along, the one given first comes first. */
  lemma AlikeAsGiven(items: seq<Piece>, like: Piece)
    ensures Alike(Arranged(items), like, items) == Alike(items, like, items)
  {
    hide NotAfter, Uses, Rank, Placed, ByRank, Inside;
    AlikePlaced(items, ByRank(items, |ORDER| + 2), {}, like);
    AlikeByRank(items, |ORDER| + 2, like, items);
    assert Rank(like) <= |ORDER| + 2;
  }

  // ------------------------------------------------------------ circles

  lemma ReadyIsApart(items: seq<Piece>, p: Piece, done: set<string>, names: set<string>)
    requires Circle(items, names) && names !! done && p in items && Needs(p, Inside(items)) <= done
    ensures !(Defines(p) && p.name in names)
  {
    hide Needs, Inside, Circle;
    CircleIs(items, names);
    assert Needs(p, Inside(items)) * names == {};
  }

  lemma PlacedOneByOne(pending: seq<Piece>, inside: set<string>, done: set<string>)
    ensures pending == [] ==> Placed(pending, inside, done) == []
    ensures pending != [] ==>
              var c := Choice(pending, inside, done, 0);
              Placed(pending, inside, done) == [pending[c]] + Placed(Without(pending, c), inside, With(done, pending[c]))
  {
  }

  /** What is chosen while something is ready is ready, and so does not go round. */
  lemma ChosenIsApart(items: seq<Piece>, pending: seq<Piece>, done: set<string>, names: set<string>, p: Piece)
    requires Circle(items, names) && names !! done && ToCome(items, pending, done) && p in pending && Needs(p, Inside(items)) == {}
    ensures var q := pending[Choice(pending, Inside(items), done, 0)]; !(Defines(q) && q.name in names)
  {
    hide Needs, Inside, Circle;
    ReadyIsApart(items, pending[Choice(pending, Inside(items), done, 0)], done, names);
  }

  lemma {:induction false} AheadOfCircle(items: seq<Piece>, pending: seq<Piece>, done: set<string>, names: set<string>, i: nat, j: nat)
    requires Circle(items, names) && names !! done && ToCome(items, pending, done)
    requires var placed := Placed(pending, Inside(items), done);
             && i < |placed| && Needs(placed[i], Inside(items)) == {}
             && j < |placed| && Defines(placed[j]) && placed[j].name in names
    ensures i < j
    decreases |pending|
  {
    hide Needs, Inside, Circle, Placed, Choice;
    var inside := Inside(items);
    var placed := Placed(pending, inside, done);
    PlacedOneByOne(pending, inside, done);
    var c := Choice(pending, inside, done, 0);
    assert placed[i] in pending by {
      PlacedKeepsAll(pending, inside, done);
      assert placed[i] in multiset(placed);
    }
    ChosenIsApart(items, pending, done, names, placed[i]);
    if i > 0 {
      StillToCome(items, pending, done, c);
      AheadOfCircle(items, Without(pending, c), With(done, pending[c]), names, i - 1, j - 1);
    }
  }

  /** Whatever needs nothing is placed ahead of all that goes round in a circle. */
  lemma CircleLetsOthersAhead(items: seq<Piece>, names: set<string>, i: nat, j: nat)
    requires Circle(items, names)
    requires i < |Arranged(items)| && Needs(Arranged(items)[i], Inside(items)) == {}
    requires j < |Arranged(items)| && Defines(Arranged(items)[j]) && Arranged(items)[j].name in names
    ensures i < j
  {
    hide Placed, ByRank, Needs, Circle, Inside;
    RankedHasAll(items);
    AheadOfCircle(items, ByRank(items, |ORDER| + 2), {}, names, i, j);
  }

  lemma PlaceOf(items: seq<Piece>, p: Piece) returns (k: nat)
    requires p in items
    ensures k < |Arranged(items)| && Arranged(items)[k] == p
  {
    ArrangedIsPermutation(items);
    assert p in multiset(Arranged(items));
    k :| 0 <= k < |Arranged(items)| && Arranged(items)[k] == p;
  }

  /**
   * What is dropped comes after all that is made, files after what is dropped and the web application last
   * exactly when no needs go round in a circle, or there is nothing to drop and no file to replace.
   */
  lemma LayersComeInOrder(items: seq<Piece>)
    requires AsClosed(items)
    ensures Layered(Arranged(items)) <==> NoCircle(items) || forall p :: p in items ==> Layer(p) == 0
  {
    hide Placed, Rank, ByRank, Needs, Ranked, Inside, Arranged;
    ArrangedIsPermutation(items);
    var placed := Arranged(items);
    assert forall k :: 0 <= k < |placed| ==> placed[k] in multiset(placed);
    if NoCircle(items) {
      ArrangedIsLayered(items);
    } else if p :| p in items && Layer(p) > 0 {
      var names: set<string> :| Circle(items, names);
      LayersSpoiled(items, names, p);
    }
  }

  lemma LayersSpoiled(items: seq<Piece>, names: set<string>, p: Piece)
    requires AsClosed(items) && Circle(items, names) && p in items && Layer(p) > 0
    ensures !Layered(Arranged(items))
  {
    hide Placed, Rank, ByRank, Arranged, Layer;
    var d := DefinedIn(items, names);
    LayersOf(p);
    LayersOf(d);
    var i := PlaceOf(items, p);
    var j := PlaceOf(items, d);
    CircleLetsOthersAhead(items, names, i, j);
  }

  /** Two views that use each other, and one that is dropped: the smallest package of which both are false. */
  lemma TwoViewsInACircle()
    ensures var a := Piece("database", "Define", "View", "a", {"b"});
            var b := Piece("database", "Define", "View", "b", {"a"});
            var d := Piece("database", "Drop", "View", "d", {});
            AsClosed([a, b, d]) && !Layered(Arranged([a, b, d])) && !NeedsFirst(Arranged([a, b, d]))
  {
    hide Arranged, Layered, NeedsFirst, Layer, Circle, Inside, AsClosed;
    var a := Piece("database", "Define", "View", "a", {"b"});
    var b := Piece("database", "Define", "View", "b", {"a"});
    var d := Piece("database", "Drop", "View", "d", {});
    var items := [a, b, d];
    assert d in items && Layer(d) > 0 by { DropsLayer(d); }
    OneAnother(a, b, d);
    ClosedSo(a, b, d);
    LayersComeInOrder(items);
    NeedsComeFirst(items);
  }

  lemma DropsLayer(d: Piece)
    requires d.kind == "database" && d.action == "Drop"
    ensures Layer(d) > 0
  {
  }

  lemma ClosedSo(a: Piece, b: Piece, d: Piece)
    requires a.kind == "database" && b.kind == "database" && Defines(a) && Defines(b) && !Defines(d) && d.uses == {}
    ensures AsClosed([a, b, d])
  {
  }

  lemma OneAnother(a: Piece, b: Piece, d: Piece)
    requires Defines(a) && Defines(b) && !Defines(d) && b.name in a.uses && a.name in b.uses && a.name != b.name
    ensures Circle([a, b, d], {a.name, b.name})
  {
    var items, names := [a, b, d], {a.name, b.name};
    assert forall p :: p in items <==> p == a || p == b || p == d;
    assert items[0] in items && items[1] in items;
    assert Brings(items, a.name) && Brings(items, b.name);
    assert Uses(items, a, b.name) && Uses(items, b, a.name);
  }
}
