/** The line comparison of the panel. */
module Diff {
  import opened Options
  import opened Subsequences
  import TextLines

  datatype Kind = Kept | Added | Removed

  /** One line of a comparison: kept, taken out or put in, with its number on each side. */
  datatype DiffLine = DiffLine(kind: Kind, text: string, before: Option<nat>, after: Option<nat>)

  /** Above this many cells the comparison is not worth its cost. */
  const TOO_MUCH: nat := 8_000_000

  /** A cell of a Uint32Array. */
  newtype Cell = x: int | 0 <= x < 0x1_0000_0000

  // ------------------------------------------------------------ what a comparison says

  /** The lines of one side, in order: what was not put in, or what was not taken out. */
  ghost function Side(lines: seq<DiffLine>, missing: Kind): seq<string> {
    if lines == [] then []
    else
      var last := lines[|lines| - 1];
      Side(lines[..|lines| - 1], missing) + if last.kind == missing then [] else [last.text]
  }

  /** The numbers the lines of one side carry. */
  ghost function Numbers(lines: seq<DiffLine>, missing: Kind): seq<Option<nat>> {
    if lines == [] then []
    else
      var last := lines[|lines| - 1];
      Numbers(lines[..|lines| - 1], missing)
      + if last.kind == missing then [] else [if missing == Added then last.before else last.after]
  }

  ghost function KeptTexts(lines: seq<DiffLine>): seq<string> {
    if lines == [] then []
    else
      var last := lines[|lines| - 1];
      KeptTexts(lines[..|lines| - 1]) + if last.kind == Kept then [last.text] else []
  }

  ghost function FromOne(n: nat): seq<Option<nat>> {
    if n == 0 then [] else FromOne(n - 1) + [Some(n)]
  }

  ghost predicate OneSided(lines: seq<DiffLine>) {
    lines == [] ||
    var last := lines[|lines| - 1];
    OneSided(lines[..|lines| - 1]) && (last.kind == Added ==> last.before == None) && (last.kind == Removed ==> last.after == None)
  }

  /** The comparison spells both texts, each numbered from one, and numbers no line on a side it is not on. */
  ghost predicate Spells(lines: seq<DiffLine>, a: seq<string>, b: seq<string>) {
    && Side(lines, Added) == a && Numbers(lines, Added) == FromOne(|a|)
    && Side(lines, Removed) == b && Numbers(lines, Removed) == FromOne(|b|)
    && OneSided(lines)
  }

  /** No common subsequence of the two texts is longer than what the comparison keeps. */
  ghost predicate Minimal(lines: seq<DiffLine>, a: seq<string>, b: seq<string>) {
    forall c :: IsCommon(c, a, b) ==> |c| <= |KeptTexts(lines)|
  }

  lemma Push(lines: seq<DiffLine>, line: DiffLine)
    ensures (lines + [line])[..|lines + [line]| - 1] == lines
  {
  }

  /** What is kept is part of both texts, in order. */
  lemma {:induction false} KeptIsSubsequence(lines: seq<DiffLine>, missing: Kind)
    requires missing != Kept
    ensures IsSubsequence(KeptTexts(lines), Side(lines, missing))
  {
    if lines != [] {
      var init, last := lines[..|lines| - 1], lines[|lines| - 1];
      KeptIsSubsequence(init, missing);
      var side := if last.kind == missing then [] else [last.text];
      var kept := if last.kind == Kept then [last.text] else [];
      WholeIsSubsequence(side);
      assert IsSubsequence(kept, side);
      ExtendSubsequence(KeptTexts(init), Side(init, missing), kept, side);
    }
  }

  lemma KeptIsCommon(lines: seq<DiffLine>, a: seq<string>, b: seq<string>)
    requires Spells(lines, a, b)
    ensures IsCommon(KeptTexts(lines), a, b)
  {
    KeptIsSubsequence(lines, Added);
    KeptIsSubsequence(lines, Removed);
  }

  // ------------------------------------------------------------ steps of the comparison

  lemma PushKept(lines: seq<DiffLine>, a: seq<string>, b: seq<string>, i: nat, j: nat, line: DiffLine)
    requires i < |a| && j < |b| && a[i] == b[j] && Spells(lines, a[..i], b[..j])
    requires line == DiffLine(Kept, a[i], Some(i + 1), Some(j + 1))
    ensures Spells(lines + [line], a[..i + 1], b[..j + 1])
    ensures |KeptTexts(lines + [line])| == |KeptTexts(lines)| + 1
  {
    Push(lines, line);
    assert a[..i + 1] == a[..i] + [a[i]] && b[..j + 1] == b[..j] + [b[j]];
  }

  lemma PushRemoved(lines: seq<DiffLine>, a: seq<string>, b: seq<string>, i: nat, j: nat, line: DiffLine)
    requires i < |a| && j <= |b| && Spells(lines, a[..i], b[..j])
    requires line == DiffLine(Removed, a[i], Some(i + 1), None)
    ensures Spells(lines + [line], a[..i + 1], b[..j])
    ensures |KeptTexts(lines + [line])| == |KeptTexts(lines)|
  {
    Push(lines, line);
    assert a[..i + 1] == a[..i] + [a[i]];
  }

  lemma PushAdded(lines: seq<DiffLine>, a: seq<string>, b: seq<string>, i: nat, j: nat, line: DiffLine)
    requires i <= |a| && j < |b| && Spells(lines, a[..i], b[..j])
    requires line == DiffLine(Added, b[j], None, Some(j + 1))
    ensures Spells(lines + [line], a[..i], b[..j + 1])
    ensures |KeptTexts(lines + [line])| == |KeptTexts(lines)|
  {
    Push(lines, line);
    assert b[..j + 1] == b[..j] + [b[j]];
  }

  // ------------------------------------------------------------ the table

  ghost function At(i: nat, j: nat, width: nat): nat { i * width + j }

  lemma AtInside(i: nat, j: nat, n: nat, width: nat)
    requires i <= n && j < width
    ensures At(i, j, width) < (n + 1) * width
  {
    assert (n - i) * width >= 0;
  }

  lemma AtRow(i: nat, x: nat, width: nat)
    requires i < x
    ensures i * width + width <= x * width
  {
    assert x * width == (i + 1) * width + (x - i - 1) * width;
  }

  lemma AtApart(i: nat, j: nat, x: nat, y: nat, width: nat)
    requires j < width && y < width && (i != x || j != y)
    ensures At(i, j, width) != At(x, y, width)
  {
    if i < x {
      AtRow(i, x, width);
    } else if x < i {
      AtRow(x, i, width);
    }
  }

  /** How much the rest of each side, from i and from j, has in common. */
  ghost function Rest(a: seq<string>, b: seq<string>, i: nat, j: nat): nat
    requires i <= |a| && j <= |b|
  {
    Longest(a[i..], b[j..])
  }

  lemma RestOnEdge(a: seq<string>, b: seq<string>, i: nat, j: nat)
    requires i <= |a| && j <= |b| && (i == |a| || j == |b|)
    ensures Rest(a, b, i, j) == 0
  {
  }

  lemma RestRecurs(a: seq<string>, b: seq<string>, i: nat, j: nat)
    requires i < |a| && j < |b|
    ensures Rest(a, b, i, j) == if a[i] == b[j] then Rest(a, b, i + 1, j + 1) + 1 else Max(Rest(a, b, i + 1, j), Rest(a, b, i, j + 1))
  {
    assert a[i..][1..] == a[i + 1..] && b[j..][1..] == b[j + 1..];
  }

  /** What a cell counts is small: no cell of the table wraps around. */
  lemma RestFits(a: seq<string>, b: seq<string>, i: nat, j: nat)
    requires i <= |a| && j <= |b| && |a| * |b| <= TOO_MUCH
    ensures Rest(a, b, i, j) < 0x1_0000_0000
  {
    var r := Rest(a, b, i, j);
    LongestFits(a[i..], b[j..]);
    if r > 0 {
      assert |a| * |b| == |a| + |a| * (|b| - 1);
    }
  }

  /** The cells after (i, j), row by row from the end, and the edges hold what they should. */
  ghost predicate Filled(cells: seq<Cell>, a: seq<string>, b: seq<string>, i: nat, j: nat) {
    forall x, y {:trigger At(x, y, |b| + 1)} :: 0 <= x <= |a| && 0 <= y <= |b| ==>
      && At(x, y, |b| + 1) < |cells|
      && (x > i || (x == i && y >= j) || y == |b| ==> cells[At(x, y, |b| + 1)] as int == Rest(a, b, x, y))
  }

  lemma FilledAtFirst(cells: seq<Cell>, a: seq<string>, b: seq<string>)
    requires |cells| == (|a| + 1) * (|b| + 1) && forall k :: 0 <= k < |cells| ==> cells[k] == 0
    ensures Filled(cells, a, b, |a|, 0)
  {
    forall x, y {:trigger At(x, y, |b| + 1)} | 0 <= x <= |a| && 0 <= y <= |b|
      ensures At(x, y, |b| + 1) < |cells| && (x == |a| || y == |b| ==> Rest(a, b, x, y) == 0)
    {
      AtInside(x, y, |a|, |b| + 1);
      if x == |a| || y == |b| {
        RestOnEdge(a, b, x, y);
      }
    }
  }

  /** Where the cells next to (i, j) are, and what they hold. */
  lemma Neighbours(cells: seq<Cell>, a: seq<string>, b: seq<string>, i: nat, j: nat)
    requires i < |a| && j < |b| && Filled(cells, a, b, i, j + 1)
    ensures At(i, j, |b| + 1) < |cells| && At(i + 1, j + 1, |b| + 1) < |cells| && At(i + 1, j, |b| + 1) < |cells| && At(i, j + 1, |b| + 1) < |cells|
    ensures cells[At(i + 1, j + 1, |b| + 1)] as int == Rest(a, b, i + 1, j + 1)
    ensures cells[At(i + 1, j, |b| + 1)] as int == Rest(a, b, i + 1, j)
    ensures cells[At(i, j + 1, |b| + 1)] as int == Rest(a, b, i, j + 1)
  {
  }

  /** The last cell of a row is on the edge. */
  lemma FilledRow(cells: seq<Cell>, a: seq<string>, b: seq<string>, i: nat)
    requires i < |a| && Filled(cells, a, b, i + 1, 0)
    ensures Filled(cells, a, b, i, |b|)
  {
    hide Rest;
  }

  lemma FilledNext(cells: seq<Cell>, a: seq<string>, b: seq<string>, i: nat, j: nat, cell: Cell)
    requires i < |a| && j < |b| && Filled(cells, a, b, i, j + 1)
    requires cell as int == Rest(a, b, i, j) && At(i, j, |b| + 1) < |cells|
    ensures Filled(cells[At(i, j, |b| + 1) := cell], a, b, i, j)
  {
    hide Rest;
    forall x, y {:trigger At(x, y, |b| + 1)} | 0 <= x <= |a| && 0 <= y <= |b| && (x != i || y != j)
      ensures At(x, y, |b| + 1) != At(i, j, |b| + 1)
    {
      AtApart(i, j, x, y, |b| + 1);
    }
  }

  ghost predicate IsTable(length: array<Cell>, a: seq<string>, b: seq<string>)
    reads length
  {
    Filled(length[..], a, b, 0, 0)
  }

  method FillCell(length: array<Cell>, a: seq<string>, b: seq<string>, i: nat, j: nat)
    requires i < |a| && j < |b| && |a| * |b| <= TOO_MUCH && Filled(length[..], a, b, i, j + 1)
    modifies length
    ensures Filled(length[..], a, b, i, j)
  {
    hide Filled, Rest;
    var width := |b| + 1;
    Neighbours(length[..], a, b, i, j);
    RestRecurs(a, b, i, j);
    RestFits(a, b, i, j);
    ghost var was := length[..];
    length[i * width + j] :=
      if a[i] == b[j] then length[(i + 1) * width + j + 1] + 1
      else if length[(i + 1) * width + j] >= length[i * width + j + 1] then length[(i + 1) * width + j]
      else length[i * width + j + 1];
    assert length[..] == was[At(i, j, width) := length[i * width + j]];
    FilledNext(was, a, b, i, j, length[i * width + j]);
  }

  method FillTable(a: seq<string>, b: seq<string>) returns (length: array<Cell>)
    requires |a| * |b| <= TOO_MUCH
    ensures fresh(length) && IsTable(length, a, b)
  {
    hide Filled, Rest;
    length := new Cell[(|a| + 1) * (|b| + 1)](_ => 0);
    FilledAtFirst(length[..], a, b);
    var i: nat := |a|;
    while i > 0
      invariant i <= |a| && Filled(length[..], a, b, i, 0)
    {
      i := i - 1;
      FilledRow(length[..], a, b, i);
      var j: nat := |b|;
      while j > 0
        invariant j <= |b| && Filled(length[..], a, b, i, j)
      {
        j := j - 1;
        FillCell(length, a, b, i, j);
      }
    }
  }

  // ------------------------------------------------------------ the comparison

  /** How many lines the two texts start with in common. */
  ghost function Prefix(a: seq<string>, b: seq<string>): (n: nat)
    ensures n <= |a| && n <= |b| && a[..n] == b[..n]
    ensures n < |a| && n < |b| ==> a[n] != b[n]
  {
    if a == [] || b == [] || a[0] != b[0] then 0
    else
      var n := 1 + Prefix(a[1..], b[1..]);
      assert a[..n] == [a[0]] + a[1..][..n - 1] && b[..n] == [b[0]] + b[1..][..n - 1];
      n
  }

  lemma SamePrefixAt(a: seq<string>, b: seq<string>, n: nat, k: nat)
    requires k < n <= |a| && n <= |b| && a[..n] == b[..n]
    ensures a[k] == b[k]
  {
    assert a[..n][k] == b[..n][k];
  }

  lemma {:induction false} PrefixIsUnique(a: seq<string>, b: seq<string>, n: nat)
    requires n <= |a| && n <= |b| && a[..n] == b[..n] && (n < |a| && n < |b| ==> a[n] != b[n])
    ensures n == Prefix(a, b)
  {
    var k := Prefix(a, b);
    if n < k {
      SamePrefixAt(a, b, k, n);
      assert false;
    } else if k < n {
      SamePrefixAt(a, b, n, k);
      assert false;
    }
  }

  ghost function Reverse<T>(s: seq<T>): seq<T> {
    seq(|s|, k requires 0 <= k < |s| => s[|s| - 1 - k])
  }

  /** How many lines they end with in common after that. */
  ghost function Suffix(a: seq<string>, b: seq<string>): (n: nat)
    ensures n <= |a| - Prefix(a, b) && n <= |b| - Prefix(a, b)
  {
    Prefix(Reverse(a[Prefix(a, b)..]), Reverse(b[Prefix(a, b)..]))
  }

  ghost function Middle(a: seq<string>, b: seq<string>): (ab: (seq<string>, seq<string>)) {
    var start, end := Prefix(a, b), Suffix(a, b);
    (a[start..|a| - end], b[start..|b| - end])
  }

  /** How many cells the table of the comparison needs. */
  ghost function Cells(a: seq<string>, b: seq<string>): nat {
    |Middle(a, b).0| * |Middle(a, b).1|
  }

  lemma ReversedSuffix(a: seq<string>, start: nat, end: nat)
    requires start <= end <= |a|
    ensures Reverse(a[start..])[..|a| - end] == Reverse(a[end..])
    ensures start < end ==> Reverse(a[start..])[|a| - end] == a[end - 1]
  {
  }

  lemma SuffixIsUnique(a: seq<string>, b: seq<string>, endA: nat, endB: nat)
    requires Prefix(a, b) <= endA <= |a| && Prefix(a, b) <= endB <= |b| && |a| - endA == |b| - endB
    requires a[endA..] == b[endB..]
    requires endA > Prefix(a, b) && endB > Prefix(a, b) ==> a[endA - 1] != b[endB - 1]
    ensures |a| - endA == Suffix(a, b)
  {
    var start := Prefix(a, b);
    ReversedSuffix(a, start, endA);
    ReversedSuffix(b, start, endB);
    PrefixIsUnique(Reverse(a[start..]), Reverse(b[start..]), |a| - endA);
  }

  method Trim(a: seq<string>, b: seq<string>) returns (start: nat, endA: nat, endB: nat)
    ensures start <= endA <= |a| && start <= endB <= |b|
    ensures a[..start] == b[..start] && a[endA..] == b[endB..]
    ensures (a[start..endA], b[start..endB]) == Middle(a, b)
  {
    hide Prefix;
    start := 0;
    while start < |a| && start < |b| && a[start] == b[start]
      invariant start <= |a| && start <= |b| && a[..start] == b[..start]
    {
      start := start + 1;
    }
    PrefixIsUnique(a, b, start);
    endA, endB := |a|, |b|;
    while endA > start && endB > start && a[endA - 1] == b[endB - 1]
      invariant start <= endA <= |a| && start <= endB <= |b| && |a| - endA == |b| - endB
      invariant a[endA..] == b[endB..]
    {
      endA, endB := endA - 1, endB - 1;
      assert a[endA..] == [a[endA]] + a[endA + 1..] && b[endB..] == [b[endB]] + b[endB + 1..];
    }
    SuffixIsUnique(a, b, endA, endB);
  }

  lemma RestAfterRemoved(a: seq<string>, b: seq<string>, i: nat, j: nat)
    requires i < |a| && j <= |b|
    requires j < |b| ==> a[i] != b[j] && Rest(a, b, i + 1, j) >= Rest(a, b, i, j + 1)
    ensures Rest(a, b, i, j) == Rest(a, b, i + 1, j)
  {
    if j < |b| {
      RestRecurs(a, b, i, j);
    }
  }

  lemma RestAfterAdded(a: seq<string>, b: seq<string>, i: nat, j: nat)
    requires i <= |a| && j < |b|
    requires i < |a| ==> a[i] != b[j] && Rest(a, b, i + 1, j) < Rest(a, b, i, j + 1)
    ensures Rest(a, b, i, j) == Rest(a, b, i, j + 1)
  {
    if i < |a| {
      RestRecurs(a, b, i, j);
    }
  }

  lemma TableAt(cells: seq<Cell>, a: seq<string>, b: seq<string>, i: nat, j: nat)
    requires Filled(cells, a, b, 0, 0)
    ensures Filled(cells, a, b, i, j + 1)
  {
    hide Rest;
  }

  /** Which line the walk writes next: the table decides between taking out and putting in. */
  method Next(a: seq<string>, b: seq<string>, i: nat, j: nat, length: array<Cell>) returns (kind: Kind)
    requires i <= |a| && j <= |b| && (i < |a| || j < |b|)
    requires IsTable(length, a, b)
    ensures kind == Kept ==> i < |a| && j < |b| && a[i] == b[j] && Rest(a, b, i, j) == Rest(a, b, i + 1, j + 1) + 1
    ensures kind == Removed ==> i < |a| && Rest(a, b, i, j) == Rest(a, b, i + 1, j)
    ensures kind == Added ==> j < |b| && Rest(a, b, i, j) == Rest(a, b, i, j + 1)
  {
    hide Filled, Rest;
    var n, m := |a|, |b|;
    var width := m + 1;
    TableAt(length[..], a, b, i, j);
    if i < n && j < m {
      Neighbours(length[..], a, b, i, j);
    }
    if i < n && j < m && a[i] == b[j] {
      RestRecurs(a, b, i, j);
      kind := Kept;
    } else if i < n && (j >= m || length[(i + 1) * width + j] >= length[i * width + j + 1]) {
      RestAfterRemoved(a, b, i, j);
      kind := Removed;
    } else {
      RestAfterAdded(a, b, i, j);
      kind := Added;
    }
  }

  /** The walk through the table, from what the trimmed lines already say. */
  method Walk(a: seq<string>, b: seq<string>, start: nat, endA: nat, endB: nat, before: seq<DiffLine>) returns (lines: seq<DiffLine>)
    requires start <= endA <= |a| && start <= endB <= |b| && (endA - start) * (endB - start) <= TOO_MUCH
    requires Spells(before, a[..start], b[..start])
    ensures Spells(lines, a[..endA], b[..endB])
    ensures |KeptTexts(lines)| == |KeptTexts(before)| + Longest(a[start..endA], b[start..endB])
  {
    hide Spells, KeptTexts, IsTable, Longest;
    RestOnEdge(a[start..endA], b[start..endB], endA - start, endB - start);
    var x, y := a[start..endA], b[start..endB];
    var length := FillTable(x, y);
    var i, j := 0, 0;
    lines := before;
    assert x[0..] == x && y[0..] == y;
    while i < |x| || j < |y|
      invariant i <= |x| && j <= |y|
      invariant Spells(lines, a[..start + i], b[..start + j])
      invariant |KeptTexts(lines)| + Rest(x, y, i, j) == |KeptTexts(before)| + Longest(x, y)
      invariant IsTable(length, x, y)
      decreases |x| - i + |y| - j
    {
      var kind := Next(x, y, i, j, length);
      match kind {
        case Kept =>
          var line := DiffLine(Kept, a[start + i], Some(start + i + 1), Some(start + j + 1));
          PushKept(lines, a, b, start + i, start + j, line);
          lines := lines + [line];
          i, j := i + 1, j + 1;
        case Removed =>
          var line := DiffLine(Removed, a[start + i], Some(start + i + 1), None);
          PushRemoved(lines, a, b, start + i, start + j, line);
          lines := lines + [line];
          i := i + 1;
        case Added =>
          var line := DiffLine(Added, b[start + j], None, Some(start + j + 1));
          PushAdded(lines, a, b, start + i, start + j, line);
          lines := lines + [line];
          j := j + 1;
      }
    }
  }

  /** Everything out, everything in. */
  method Replace(a: seq<string>, b: seq<string>, start: nat, endA: nat, endB: nat, before: seq<DiffLine>) returns (lines: seq<DiffLine>)
    requires start <= endA <= |a| && start <= endB <= |b|
    requires Spells(before, a[..start], b[..start])
    ensures Spells(lines, a[..endA], b[..endB])
    ensures |KeptTexts(lines)| == |KeptTexts(before)|
  {
    hide Spells, KeptTexts;
    lines := before;
    for i := 0 to endA - start
      invariant Spells(lines, a[..start + i], b[..start]) && |KeptTexts(lines)| == |KeptTexts(before)|
    {
      var line := DiffLine(Removed, a[start + i], Some(start + i + 1), None);
      PushRemoved(lines, a, b, start + i, start, line);
      lines := lines + [line];
    }
    for j := 0 to endB - start
      invariant Spells(lines, a[..endA], b[..start + j]) && |KeptTexts(lines)| == |KeptTexts(before)|
    {
      var line := DiffLine(Added, b[start + j], None, Some(start + j + 1));
      PushAdded(lines, a, b, endA, start + j, line);
      lines := lines + [line];
    }
  }

  /** The middles of the two texts have a line in common. */
  ghost predicate MiddlesShare(a: seq<string>, b: seq<string>) {
    var (x, y) := Middle(a, b);
    exists i, j :: 0 <= i < |x| && 0 <= j < |y| && x[i] == y[j]
  }

  lemma SpellsNothing(a: seq<string>, b: seq<string>)
    ensures Spells([], a[..0], b[..0]) && KeptTexts([]) == []
  {
  }

  /** Lines both texts have are kept, as many as asked for, from i on one side and from j on the other. */
  method Keep(a: seq<string>, b: seq<string>, i: nat, j: nat, count: nat, before: seq<DiffLine>) returns (lines: seq<DiffLine>)
    requires i + count <= |a| && j + count <= |b| && a[i..i + count] == b[j..j + count]
    requires Spells(before, a[..i], b[..j])
    ensures Spells(lines, a[..i + count], b[..j + count]) && |KeptTexts(lines)| == |KeptTexts(before)| + count
  {
    hide Spells, KeptTexts;
    lines := before;
    for k := 0 to count
      invariant Spells(lines, a[..i + k], b[..j + k]) && |KeptTexts(lines)| == |KeptTexts(before)| + k
    {
      assert a[i..i + count][k] == b[j..j + count][k];
      var line := DiffLine(Kept, a[i + k], Some(i + k + 1), Some(j + k + 1));
      PushKept(lines, a, b, i + k, j + k, line);
      lines := lines + [line];
    }
  }

  method CompareLines(a: seq<string>, b: seq<string>) returns (lines: seq<DiffLine>)
    ensures Spells(lines, a, b)
    ensures Cells(a, b) <= TOO_MUCH ==> |KeptTexts(lines)| == Longest(a, b)
    ensures Cells(a, b) > TOO_MUCH ==> |KeptTexts(lines)| + Longest(Middle(a, b).0, Middle(a, b).1) == Longest(a, b)
  {
    hide Longest, Prefix, Suffix, Spells, KeptTexts;
    SpellsNothing(a, b);
    var start, endA, endB := Trim(a, b);
    LongestOfTrimmed(a, b, start, endA, endB);
    assert |a[endA..]| == |b[endB..]|;
    lines := Keep(a, b, 0, 0, start, []);
    if (endA - start) * (endB - start) > TOO_MUCH {
      lines := Replace(a, b, start, endA, endB, lines);
    } else {
      lines := Walk(a, b, start, endA, endB, lines);
    }
    lines := Keep(a, b, endA, endB, |a| - endA, lines);
    assert a[..|a|] == a && b[..|b|] == b;
  }

  lemma MinimalIffLongest(lines: seq<DiffLine>, a: seq<string>, b: seq<string>)
    requires Spells(lines, a, b)
    ensures Minimal(lines, a, b) <==> |KeptTexts(lines)| == Longest(a, b)
  {
    var best := Attained(a, b);
    KeptIsCommon(lines, a, b);
    Bounded(KeptTexts(lines), a, b);
    forall c | IsCommon(c, a, b) ensures |c| <= Longest(a, b) {
      Bounded(c, a, b);
    }
  }

  lemma {:induction false} KeptAmong(lines: seq<DiffLine>)
    ensures |KeptTexts(lines)| <= |Side(lines, Added)| && |KeptTexts(lines)| <= |Side(lines, Removed)|
    ensures |KeptTexts(lines)| == |Side(lines, Added)| == |Side(lines, Removed)| <==> forall k :: 0 <= k < |lines| ==> lines[k].kind == Kept
    ensures (forall k :: 0 <= k < |lines| ==> lines[k].kind == Kept) ==> Side(lines, Added) == Side(lines, Removed)
  {
    if lines != [] {
      var init, last := lines[..|lines| - 1], lines[|lines| - 1];
      KeptAmong(init);
      assert forall k :: 0 <= k < |init| ==> lines[k] == init[k];
    }
  }

  /** Every line is kept exactly when the texts have the same lines. */
  lemma AllKeptWhenEqual(lines: seq<DiffLine>, a: seq<string>, b: seq<string>)
    requires Spells(lines, a, b) && (a == b ==> Minimal(lines, a, b))
    ensures (forall k :: 0 <= k < |lines| ==> lines[k].kind == Kept) <==> a == b
  {
    KeptAmong(lines);
    if a == b {
      WholeIsSubsequence(a);
      assert IsCommon(a, a, b);
    }
  }

  /**
   * The comparison of two texts spells both of them. It takes out and puts in as little as can be
   * exactly when the table was small enough to be filled, or there was nothing to find in it.
   */
  method Compare(before: string, after: string) returns (lines: seq<DiffLine>)
    ensures Spells(lines, TextLines.Split(before), TextLines.Split(after))
    ensures IsCommon(KeptTexts(lines), TextLines.Split(before), TextLines.Split(after))
    ensures Minimal(lines, TextLines.Split(before), TextLines.Split(after)) <==>
            Cells(TextLines.Split(before), TextLines.Split(after)) <= 8_000_000 || !MiddlesShare(TextLines.Split(before), TextLines.Split(after))
    ensures (forall k :: 0 <= k < |lines| ==> lines[k].kind == Kept) <==> TextLines.Split(before) == TextLines.Split(after)
  {
    var a, b := TextLines.Split(before), TextLines.Split(after);
    hide Spells, Longest, Prefix, Suffix, IsSubsequence;
    lines := CompareLines(a, b);
    KeptIsCommon(lines, a, b);
    MinimalIffLongest(lines, a, b);
    LongestIsZero(Middle(a, b).0, Middle(a, b).1);
    AllKeptWhenEqual(lines, a, b);
  }
}
