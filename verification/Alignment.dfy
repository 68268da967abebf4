/** Searching one joined text in another is searching lines in lines. */
module Alignment {
  import opened Text

  ghost predicate AllOneLine(lines: seq<string>) {
    forall i :: 0 <= i < |lines| ==> OneLine(lines[i])
  }

  /** The lines of `e` stand at the start of those of `c`: all but the last are
      equal, and the last is a prefix. */
  ghost predicate StartsLines(c: seq<string>, e: seq<string>)
    requires e != []
  {
    && |e| <= |c|
    && (forall j :: 0 <= j < |e| - 1 ==> c[j] == e[j])
    && e[|e| - 1] <= c[|e| - 1]
  }

  /** The lines of `e` stand in `c` from line i on: the first line of the run
      ends with the first expected line, the inner lines are equal, and the last
      line of the run starts with the last expected line. */
  ghost predicate RunAt(c: seq<string>, e: seq<string>, i: nat)
    requires e != []
  {
    && i + |e| <= |c|
    && if |e| == 1 then Contains(c[i], e[0])
       else
         && EndsWith(c[i], e[0])
         && (forall j :: 1 <= j < |e| - 1 ==> c[i + j] == e[j])
         && e[|e| - 1] <= c[i + |e| - 1]
  }

  lemma JoinHead(c: seq<string>)
    requires |c| > 1
    ensures Join(c) == c[0] + "\n" + Join(c[1..])
    ensures Join(c)[|c[0]|] == '\n' && Join(c)[|c[0]| + 1..] == Join(c[1..])
  {
  }

  lemma EndsBeforeNewline(s: string, line: string, k: nat)
    requires OneLine(line) && line <= s && k < |s| && s[k] == '\n'
    ensures |line| <= k
  {
    assert forall j :: 0 <= j < |line| ==> line[j] in line && s[j] == line[j];
  }

  lemma FirstLinePrefix(c: seq<string>, line: string)
    requires c != [] && OneLine(line)
    ensures line <= Join(c) <==> line <= c[0]
  {
    if |c| > 1 {
      JoinHead(c);
      if line <= Join(c) {
        EndsBeforeNewline(Join(c), line, |c[0]|);
      }
      assert c[0] == Join(c)[..|c[0]|];
    }
  }

  lemma SplitPrefix(c: seq<string>, e: seq<string>)
    requires AllOneLine(c) && AllOneLine(e) && |e| > 1 && c != []
    requires Join(e) <= Join(c)
    ensures |c| > 1 && c[0] == e[0] && Join(e[1..]) <= Join(c[1..])
  {
    JoinHead(e);
    var s, t := Join(c), Join(e);
    assert s[|e[0]|] == '\n' && '\n' in s;
    assert |c| > 1;
    JoinHead(c);
    assert e[0] == t[..|e[0]|] == s[..|e[0]|];
    assert c[0] == s[..|c[0]|];
    EndsBeforeNewline(s, c[0], |e[0]|);
    EndsBeforeNewline(s, e[0], |c[0]|);
    assert t[|e[0]| + 1..] <= s[|e[0]| + 1..];
  }

  lemma SharePrefix(c: seq<string>, e: seq<string>)
    requires |c| > 1 && |e| > 1 && c[0] == e[0] && Join(e[1..]) <= Join(c[1..])
    ensures Join(e) <= Join(c)
  {
    JoinHead(c);
    JoinHead(e);
  }

  lemma StartsTail(c: seq<string>, e: seq<string>)
    requires |c| > 1 && |e| > 1
    ensures StartsLines(c, e) <==> c[0] == e[0] && StartsLines(c[1..], e[1..])
  {
    if c[0] == e[0] && StartsLines(c[1..], e[1..]) {
      assert forall j :: 0 < j < |e| - 1 ==> c[j] == c[1..][j - 1] && e[j] == e[1..][j - 1];
    }
  }

  /** A joined text is a prefix of another exactly when its lines are. */
  lemma {:induction false} PrefixAligned(c: seq<string>, e: seq<string>)
    requires AllOneLine(c) && AllOneLine(e) && e != [] && c != []
    ensures Join(e) <= Join(c) <==> StartsLines(c, e)
    decreases |e|
  {
    if |e| == 1 {
      FirstLinePrefix(c, e[0]);
    } else if |c| == 1 {
      if Join(e) <= Join(c) {
        SplitPrefix(c, e);
      }
    } else {
      PrefixAligned(c[1..], e[1..]);
      StartsTail(c, e);
      if Join(e) <= Join(c) {
        SplitPrefix(c, e);
      } else if c[0] == e[0] && Join(e[1..]) <= Join(c[1..]) {
        SharePrefix(c, e);
      }
    }
  }

  /** The rest of a joined text, from inside its first line, is a joined text again. */
  lemma JoinTail(c: seq<string>, k: nat)
    requires c != [] && k <= |c[0]|
    ensures Join(c)[k..] == Join([c[0][k..]] + c[1..])
  {
    JoinFirst(c[0][k..], c[1..]);
    assert c == [c[0]] + c[1..];
  }

  /** An occurrence is a run of lines. */
  lemma {:induction false} OccurrenceIsRun(c: seq<string>, e: seq<string>, k: nat) returns (i: nat)
    requires AllOneLine(c) && AllOneLine(e) && e != [] && e[0] != ""
    requires OccursAt(Join(c), Join(e), k)
    ensures RunAt(c, e, i)
    decreases |c|
  {
    assert Join(e) <= Join(c)[k..];
    assert Join(e) != "" && c != [];
    if k <= |c[0]| {
      JoinTail(c, k);
      var tail := [c[0][k..]] + c[1..];
      PrefixAligned(tail, e);
      i := 0;
      if |e| == 1 {
        assert e[0] == c[0][k..][..|e[0]|] == c[0][k..k + |e[0]|];
        assert OccursAt(c[0], e[0], k);
      } else {
        assert tail[0] == e[0];
        assert forall j :: 1 <= j < |e| ==> tail[j] == c[j];
      }
    } else {
      JoinHead(c);
      assert Join(c[1..])[k - |c[0]| - 1..] == Join(c)[k..];
      i := OccurrenceIsRun(c[1..], e, k - |c[0]| - 1);
      assert RunAt(c, e, i + 1);
      i := i + 1;
    }
  }

  lemma FirstRunIsOccurrence(c: seq<string>, e: seq<string>) returns (k: nat)
    requires AllOneLine(c) && AllOneLine(e) && e != []
    requires RunAt(c, e, 0)
    ensures OccursAt(Join(c), Join(e), k)
  {
    if |e| == 1 {
      k :| 0 <= k <= |c[0]| && OccursAt(c[0], e[0], k);
    } else {
      k := |c[0]| - |e[0]|;
    }
    JoinTail(c, k);
    var tail := [c[0][k..]] + c[1..];
    assert StartsLines(tail, e);
    PrefixAligned(tail, e);
  }

  lemma OccursLater(c: seq<string>, t: string, k: nat)
    requires |c| > 1 && OccursAt(Join(c[1..]), t, k)
    ensures OccursAt(Join(c), t, |c[0]| + 1 + k)
  {
    OccursWithin(c[0] + "\n", Join(c[1..]), "", t, k);
    assert c[0] + "\n" + Join(c[1..]) + "" == Join(c);
  }

  /** A run of lines is an occurrence. */
  lemma {:induction false} RunIsOccurrence(c: seq<string>, e: seq<string>, i: nat) returns (k: nat)
    requires AllOneLine(c) && AllOneLine(e) && e != []
    requires RunAt(c, e, i)
    ensures OccursAt(Join(c), Join(e), k)
    decreases i
  {
    if i == 0 {
      k := FirstRunIsOccurrence(c, e);
    } else {
      assert RunAt(c[1..], e, i - 1);
      k := RunIsOccurrence(c[1..], e, i - 1);
      OccursLater(c, Join(e), k);
      k := |c[0]| + 1 + k;
    }
  }

  /** The search for the joined text succeeds if and only if there is such a run. */
  lemma Aligned(c: seq<string>, e: seq<string>)
    requires AllOneLine(c) && AllOneLine(e) && e != [] && e[0] != ""
    ensures Contains(Join(c), Join(e)) <==> exists i :: 0 <= i <= |c| && RunAt(c, e, i)
  {
    if Contains(Join(c), Join(e)) {
      var k :| 0 <= k <= |Join(c)| && OccursAt(Join(c), Join(e), k);
      var i := OccurrenceIsRun(c, e, k);
    }
    if i :| 0 <= i <= |c| && RunAt(c, e, i) {
      var k := RunIsOccurrence(c, e, i);
    }
  }
}
