/** How a text is cut into lines before it is compared. */
module TextLines {

  /** Every line ending becomes a single '\n'. */
  function Unify(text: string): string {
    if text == [] then []
    else if text[0] != '\r' then [text[0]] + Unify(text[1..])
    else ['\n'] + Unify(if |text| > 1 && text[1] == '\n' then text[2..] else text[1..])
  }

  /** One line ending at the very end is not a line of its own. */
  function Chomp(text: string): string {
    if text != [] && text[|text| - 1] == '\n' then text[..|text| - 1] else text
  }

  function Cut(text: string): (lines: seq<string>)
    ensures lines != []
  {
    if text == [] then [[]]
    else
      var rest := Cut(text[1..]);
      if text[0] == '\n' then [[]] + rest else [[text[0]] + rest[0]] + rest[1..]
  }

  function Split(text: string): (lines: seq<string>)
    ensures lines != []
  {
    Cut(Chomp(Unify(text)))
  }

  function Joined(lines: seq<string>): string
    requires lines != []
  {
    if |lines| == 1 then lines[0] else lines[0] + ['\n'] + Joined(lines[1..])
  }

  ghost predicate NoBreaks(lines: seq<string>) {
    forall k :: 0 <= k < |lines| ==> '\n' !in lines[k]
  }

  lemma {:induction false} CutIsFaithful(text: string)
    ensures Joined(Cut(text)) == text && NoBreaks(Cut(text))
  {
    if text != [] {
      CutIsFaithful(text[1..]);
      var rest := Cut(text[1..]);
      if text[0] == '\n' {
        assert Cut(text)[1..] == rest;
      } else {
        assert Cut(text)[1..] == rest[1..];
        assert text == [text[0]] + text[1..];
        assert |rest| == 1 ==> Joined(Cut(text)) == [text[0]] + rest[0];
      }
    }
  }

  lemma {:induction false} CutAfterLine(line: string, text: string)
    requires '\n' !in line
    ensures Cut(line + ['\n'] + text) == [line] + Cut(text)
  {
    var whole := line + ['\n'] + text;
    if line == [] {
      assert whole == ['\n'] + text && whole[1..] == text;
      assert Cut(whole) == [[]] + Cut(text);
    } else {
      CutAfterLine(line[1..], text);
      assert whole[1..] == line[1..] + ['\n'] + text;
      assert Cut(whole[1..])[1..] == Cut(text);
      assert [line[0]] + line[1..] == line;
    }
  }

  lemma {:induction false} CutOfLine(line: string)
    requires '\n' !in line
    ensures Cut(line) == [line]
  {
    if line != [] {
      CutOfLine(line[1..]);
      assert [line[0]] + line[1..] == line;
    }
  }

  /** Lines put together and cut again come back as they were. */
  lemma {:induction false} CutOfJoined(lines: seq<string>)
    requires lines != [] && NoBreaks(lines)
    ensures Cut(Joined(lines)) == lines
  {
    if |lines| == 1 {
      CutOfLine(lines[0]);
    } else {
      CutOfJoined(lines[1..]);
      CutAfterLine(lines[0], Joined(lines[1..]));
    }
  }

  // ------------------------------------------------------------ whatever the line endings are

  ghost predicate Plain(lines: seq<string>) {
    forall k :: 0 <= k < |lines| ==> '\n' !in lines[k] && '\r' !in lines[k]
  }

  ghost predicate Endings(ends: seq<string>) {
    forall k :: 0 <= k < |ends| ==> ends[k] == "\n" || ends[k] == "\r\n" || ends[k] == "\r"
  }

  /** Lines put together, each with its ending; the last may go without. */
  ghost function Written(lines: seq<string>, ends: seq<string>): string
    requires |ends| <= |lines| <= |ends| + 1
  {
    if lines == [] then []
    else if ends == [] then lines[0]
    else lines[0] + ends[0] + Written(lines[1..], ends[1..])
  }

  /** A '\r' and the '\n' of an empty line after it would be taken for one ending. */
  ghost predicate Merges(lines: seq<string>, ends: seq<string>, k: nat) {
    k + 1 < |ends| && k + 1 < |lines| && ends[k] == "\r" && lines[k + 1] == [] && ends[k + 1] == "\n"
  }

  ghost predicate NoneMerges(lines: seq<string>, ends: seq<string>) {
    forall k: nat :: !Merges(lines, ends, k)
  }

  lemma {:induction false} UnifyLine(line: string, text: string)
    requires '\r' !in line
    ensures Unify(line + text) == line + Unify(text)
  {
    if line == [] {
      assert line + text == text;
    } else {
      assert (line + text)[1..] == line[1..] + text;
      UnifyLine(line[1..], text);
    }
  }

  /** A line and its ending become the line and a single '\n', unless a '\n' follows a '\r'. */
  lemma UnifyEnded(line: string, end: string, text: string)
    requires '\r' !in line && Endings([end])
    ensures Unify(line + end + text) ==
            line + ['\n'] + Unify(if end == "\r" && text != [] && text[0] == '\n' then text[1..] else text)
  {
    assert end == [end][0];
    assert line + end + text == line + (end + text);
    UnifyLine(line, end + text);
    if end == "\r\n" {
      assert (end + text)[2..] == text;
    } else {
      assert (end + text)[1..] == text;
      assert text != [] && text[0] == '\n' ==> (end + text)[2..] == text[1..];
    }
  }

  lemma WrittenStart(lines: seq<string>, ends: seq<string>)
    requires |ends| <= |lines| <= |ends| + 1 && Plain(lines) && Endings(ends)
    ensures var text := Written(lines, ends);
            text != [] && text[0] == '\n' <==> lines != [] && lines[0] == [] && ends != [] && ends[0] == "\n"
  {
    if lines != [] && lines[0] != [] {
      assert lines[0][0] in lines[0];
      assert Written(lines, ends)[0] == lines[0][0];
    }
  }

  lemma Later(lines: seq<string>, ends: seq<string>)
    requires lines != [] && ends != [] && Plain(lines) && Endings(ends)
    ensures Plain(lines[1..]) && Endings(ends[1..]) && Plain([lines[0]]) && Endings([ends[0]])
    ensures NoneMerges(lines, ends) <==> !Merges(lines, ends, 0) && NoneMerges(lines[1..], ends[1..])
  {
    forall k: nat ensures Merges(lines[1..], ends[1..], k) <==> Merges(lines, ends, k + 1) {
    }
    if !Merges(lines, ends, 0) && NoneMerges(lines[1..], ends[1..]) {
      forall k: nat ensures !Merges(lines, ends, k) {
        assert k > 0 ==> !Merges(lines[1..], ends[1..], k - 1);
      }
    }
  }

  ghost function Newlines(n: nat): (ends: seq<string>)
    ensures |ends| == n && Endings(ends) && forall k :: 0 <= k < n ==> ends[k] == "\n"
  {
    seq(n, _ => "\n")
  }

  /** Where nothing merges, every ending becomes a single '\n'. */
  lemma {:induction false} UnifyWritten(lines: seq<string>, ends: seq<string>)
    requires |ends| <= |lines| <= |ends| + 1 && Plain(lines) && Endings(ends) && NoneMerges(lines, ends)
    ensures Unify(Written(lines, ends)) == Written(lines, Newlines(|ends|))
  {
    if lines != [] && ends == [] {
      UnifyLine(lines[0], []);
      assert lines[0] + [] == lines[0];
    } else if lines != [] {
      Later(lines, ends);
      UnifyWritten(lines[1..], ends[1..]);
      UnifyEnded(lines[0], ends[0], Written(lines[1..], ends[1..]));
      WrittenStart(lines[1..], ends[1..]);
      assert Newlines(|ends|)[1..] == Newlines(|ends| - 1);
    }
  }

  /** As many lines as endings, and what comes after the last one, unless some merge. */
  lemma {:induction false} LinesOfWritten(lines: seq<string>, ends: seq<string>)
    requires |ends| <= |lines| <= |ends| + 1 && Plain(lines) && Endings(ends)
    ensures |Cut(Unify(Written(lines, ends)))| <= |ends| + 1
    ensures |Cut(Unify(Written(lines, ends)))| == |ends| + 1 <==> NoneMerges(lines, ends)
    decreases |lines|
  {
    hide Merges, NoneMerges;
    if lines == [] || ends == [] {
      assert NoneMerges(lines, ends) by { FewDoNotMerge(lines, ends); }
      if lines != [] {
        UnifyLine(lines[0], []);
        assert lines[0] + [] == lines[0];
        CutOfLine(lines[0]);
      }
    } else {
      Later(lines, ends);
      var text := Written(lines[1..], ends[1..]);
      UnifyEnded(lines[0], ends[0], text);
      WrittenStart(lines[1..], ends[1..]);
      if Merges(lines, ends, 0) {
        MergedStart(lines, ends);
        LinesOfWritten(lines[2..], ends[2..]);
        CutAfterLine(lines[0], Unify(text[1..]));
      } else {
        assert !(ends[0] == "\r" && text != [] && text[0] == '\n') by { NotMergedStart(lines, ends); }
        LinesOfWritten(lines[1..], ends[1..]);
        CutAfterLine(lines[0], Unify(text));
      }
    }
  }

  lemma FewDoNotMerge(lines: seq<string>, ends: seq<string>)
    requires lines == [] || ends == []
    ensures NoneMerges(lines, ends)
  {
  }

  lemma NotMergedStart(lines: seq<string>, ends: seq<string>)
    requires |ends| <= |lines| <= |ends| + 1 && lines != [] && ends != [] && Plain(lines) && Endings(ends) && !Merges(lines, ends, 0)
    ensures var text := Written(lines[1..], ends[1..]); !(ends[0] == "\r" && text != [] && text[0] == '\n')
  {
    Later(lines, ends);
    WrittenStart(lines[1..], ends[1..]);
  }

  lemma MergedStart(lines: seq<string>, ends: seq<string>)
    requires |ends| <= |lines| <= |ends| + 1 && Plain(lines) && Endings(ends) && Merges(lines, ends, 0)
    ensures var text := Written(lines[1..], ends[1..]);
            ends[0] == "\r" && text != [] && text[0] == '\n' && text[1..] == Written(lines[2..], ends[2..])
    ensures Plain(lines[2..]) && Endings(ends[2..])
  {
    assert lines[1..][1..] == lines[2..] && ends[1..][1..] == ends[2..];
    assert Written(lines[1..], ends[1..]) == "\n" + Written(lines[2..], ends[2..]);
  }

  /** Whether the text ends with an ending. */
  lemma {:induction false} EndOfUnified(text: string)
    requires text != []
    ensures Unify(text) != []
    ensures Unify(text)[|Unify(text)| - 1] == '\n' <==> text[|text| - 1] == '\n' || text[|text| - 1] == '\r'
    decreases |text|
  {
    var rest := if text[0] == '\r' && |text| > 1 && text[1] == '\n' then text[2..] else text[1..];
    if rest != [] {
      EndOfUnified(rest);
    }
  }

  lemma {:induction false} EndOfWritten(lines: seq<string>, ends: seq<string>)
    requires |ends| <= |lines| <= |ends| + 1 && Plain(lines) && Endings(ends) && lines != []
    ensures var text := Written(lines, ends);
            text != [] && (text[|text| - 1] == '\n' || text[|text| - 1] == '\r') <==> ends != [] && (|ends| == |lines| || lines[|lines| - 1] == [])
  {
    var text := Written(lines, ends);
    if ends == [] {
      if lines[0] != [] {
        assert text[|text| - 1] in lines[0];
      }
    } else {
      Later(lines, ends);
      var rest := Written(lines[1..], ends[1..]);
      if |lines| > 1 {
        EndOfWritten(lines[1..], ends[1..]);
        assert lines[1..][|lines| - 2] == lines[|lines| - 1];
      }
      if rest != [] {
        assert text[|text| - 1] == rest[|rest| - 1];
        if |lines| > 1 && ends[1..] == [] {
          assert rest == lines[1];
        }
      } else {
        assert text == lines[0] + ends[0];
        if |lines| > 1 {
          assert lines[1] == [] && ends[1..] == [];
        }
      }
    }
  }

  lemma {:induction false} WrittenIsJoined(lines: seq<string>)
    requires lines != []
    ensures Written(lines, Newlines(|lines| - 1)) == Joined(lines)
    ensures Written(lines, Newlines(|lines|)) == Joined(lines) + ['\n']
  {
    if |lines| == 1 {
      assert Written(lines[1..], Newlines(1)[1..]) == [];
      assert Written(lines, Newlines(1)) == lines[0] + "\n" + [];
    } else {
      WrittenIsJoined(lines[1..]);
      assert Newlines(|lines|)[1..] == Newlines(|lines| - 1);
      assert Newlines(|lines| - 1)[1..] == Newlines(|lines| - 2);
      assert Written(lines, Newlines(|lines|)) == lines[0] + ['\n'] + (Joined(lines[1..]) + ['\n']);
      assert Written(lines, Newlines(|lines|)) == (lines[0] + ['\n'] + Joined(lines[1..])) + ['\n'];
    }
  }

  /** What is cut off at the very end is one line, an empty one. */
  lemma {:induction false} CutOfEnded(text: string)
    ensures Cut(text + ['\n']) == Cut(text) + [[]]
  {
    if text == [] {
      assert text + ['\n'] == ['\n'];
    } else {
      assert (text + ['\n'])[1..] == text[1..] + ['\n'];
      CutOfEnded(text[1..]);
    }
  }

  /**
   * Lines put together with any mix of line endings, with or without one after the last, are split into
   * those lines again exactly when no '\r' is followed by the '\n' of an empty line, and the last line is
   * not an empty one without an ending.
   */
  lemma SplitOfWritten(lines: seq<string>, ends: seq<string>)
    requires lines != [] && |ends| <= |lines| <= |ends| + 1 && Plain(lines) && Endings(ends)
    ensures Split(Written(lines, ends)) == lines <==>
            (forall k :: 0 <= k < |ends| - 1 ==> !(ends[k] == "\r" && lines[k + 1] == [] && ends[k + 1] == "\n"))
            && (|ends| == |lines| || |lines| == 1 || lines[|lines| - 1] != [])
  {
    hide Unify, Cut, Written, NoneMerges, Merges;
    NoneMergesIs(lines, ends);
    var text := Written(lines, ends);
    var unified := Unify(text);
    EndOfWritten(lines, ends);
    LinesOfWritten(lines, ends);
    if text != [] {
      EndOfUnified(text);
    } else {
      UnifyNothing();
    }
    if Chomp(unified) != unified {
      assert unified == Chomp(unified) + ['\n'];
      CutOfEnded(Chomp(unified));
    }
    if NoneMerges(lines, ends) {
      UnifyWritten(lines, ends);
      WrittenIsJoined(lines);
      CutOfJoined(lines);
      if |ends| == |lines| {
        assert Chomp(unified) == Joined(lines);
      }
    }
  }

  lemma UnifyNothing()
    ensures Unify([]) == []
  {
  }

  lemma NoneMergesIs(lines: seq<string>, ends: seq<string>)
    requires |ends| <= |lines|
    ensures NoneMerges(lines, ends) <==> forall k :: 0 <= k < |ends| - 1 ==> !(ends[k] == "\r" && lines[k + 1] == [] && ends[k + 1] == "\n")
  {
    if NoneMerges(lines, ends) {
      forall k | 0 <= k < |ends| - 1 ensures !(ends[k] == "\r" && lines[k + 1] == [] && ends[k + 1] == "\n") {
        assert !Merges(lines, ends, k);
      }
    }
  }

  lemma {:induction false} UnifiedHasNoReturn(text: string)
    ensures '\r' !in Unify(text)
    decreases |text|
  {
    if text != [] {
      UnifiedHasNoReturn(if text[0] == '\r' && |text| > 1 && text[1] == '\n' then text[2..] else text[1..]);
    }
  }

  lemma {:induction false} CutAddsNothing(text: string, c: char)
    requires c !in text
    ensures forall k :: 0 <= k < |Cut(text)| ==> c !in Cut(text)[k]
  {
    if text != [] {
      CutAddsNothing(text[1..], c);
    }
  }

  /** No line holds a line ending. */
  lemma SplitIsPlain(text: string)
    ensures Plain(Split(text))
  {
    hide Cut, Unify;
    UnifiedHasNoReturn(text);
    CutIsFaithful(Chomp(Unify(text)));
    CutAddsNothing(Chomp(Unify(text)), '\r');
  }

  /** Two texts of the same lines, each with endings of its own. */
  lemma OnlyEndingsDiffer(lines: seq<string>, ends: seq<string>, others: seq<string>)
    requires lines != [] && |ends| <= |lines| <= |ends| + 1 && |others| <= |lines| <= |others| + 1
    requires Plain(lines) && Endings(ends) && Endings(others) && NoneMerges(lines, ends) && NoneMerges(lines, others)
    requires lines[|lines| - 1] != [] || |lines| == 1 || (|ends| == |lines| == |others|)
    ensures Split(Written(lines, ends)) == Split(Written(lines, others)) == lines
  {
    hide Split, Written, NoneMerges;
    NoneMergesIs(lines, ends);
    NoneMergesIs(lines, others);
    SplitOfWritten(lines, ends);
    SplitOfWritten(lines, others);
  }
}
