/** What the comment stripper makes of a line in each case, and headers that the
    check must not accept. */
module Rejection {
  import opened Wrappers
  import opened Text
  import opened Alignment
  import opened License
  import opened Headers

  // ----- One line -----

  /** `mark` does not begin in s before place n. */
  ghost predicate NotBefore(s: string, mark: string, n: nat) {
    forall j :: 0 <= j < n ==> !OccursAt(s, mark, j)
  }

  lemma FoundThere(a: string, mark: string, b: string)
    requires NotBefore(a + mark + b, mark, |a|)
    ensures Contains(a + mark + b, mark) && Find(a + mark + b, mark) == |a|
    ensures (a + mark + b)[|a| + |mark|..] == b && (a + mark + b)[..|a|] == a
  {
    assert (a + mark + b)[|a|..|a| + |mark|] == mark;
    assert OccursAt(a + mark + b, mark, |a|);
  }

  /** Outside a block, a line that contains the opener gives what follows its
      first opener, and the block is open. */
  lemma LineOpens(st: Style, raw: string, a: string, b: string)
    requires st.multiStart != "" && Strip(raw) == a + st.multiStart + b
    requires NotBefore(a + st.multiStart + b, st.multiStart, |a|)
    ensures CleanLine(st, raw, false) == (Strip(b), true)
  {
    FoundThere(a, st.multiStart, b);
  }

  /** Inside a block, a line that contains the closer gives what stands before its
      first closer, and the block is closed. */
  lemma LineCloses(st: Style, raw: string, a: string, b: string)
    requires st.multiEnd != "" && Strip(raw) == a + st.multiEnd + b
    requires NotBefore(a + st.multiEnd + b, st.multiEnd, |a|)
    ensures CleanLine(st, raw, true) == (Strip(a), false)
  {
    FoundThere(a, st.multiEnd, b);
  }

  ghost predicate OpensNothing(st: Style, raw: string) {
    st.multiStart == "" || !Contains(raw, st.multiStart)
  }

  ghost predicate ClosesNothing(st: Style, raw: string) {
    st.multiEnd == "" || !Contains(raw, st.multiEnd)
  }

  lemma OpensNothingStripped(st: Style, raw: string)
    requires Trimmed(st.multiStart)
    ensures OpensNothing(st, raw) ==> st.multiStart == "" || !Contains(Strip(raw), st.multiStart)
  {
    if st.multiStart != "" {
      StripKeeps(raw, st.multiStart);
    }
  }

  lemma ClosesNothingStripped(st: Style, raw: string)
    requires Trimmed(st.multiEnd)
    ensures ClosesNothing(st, raw) ==> st.multiEnd == "" || !Contains(Strip(raw), st.multiEnd)
  {
    if st.multiEnd != "" {
      StripKeeps(raw, st.multiEnd);
    }
  }

  lemma DropSum(a: string, b: string)
    ensures (a + b)[|a|..] == b && a <= a + b
  {
  }

  /** Outside a block, a line that starts with the single-line marker gives what follows the marker. */
  lemma LineIsComment(st: Style, raw: string, b: string)
    requires Trimmed(st.multiStart) && OpensNothing(st, raw) && st.single != "" && Strip(raw) == st.single + b
    ensures CleanLine(st, raw, false) == (Strip(b), false)
  {
    OpensNothingStripped(st, raw);
    DropSum(st.single, b);
  }

  /** Outside a block, a line without a marker is kept, and no block is opened. */
  lemma LineIsCode(st: Style, raw: string)
    requires Trimmed(st.multiStart) && OpensNothing(st, raw) && (st.single == "" || !(st.single <= Strip(raw)))
    ensures CleanLine(st, raw, false) == (Strip(raw), false)
  {
    OpensNothingStripped(st, raw);
  }

  /** Inside a C-style block, a line that starts with an asterisk gives what follows it. */
  lemma LineIsStarred(st: Style, raw: string, b: string)
    requires Trimmed(st.multiEnd) && IsCStyle(st) && ClosesNothing(st, raw) && Strip(raw) == "*" + b
    ensures CleanLine(st, raw, true) == (Strip(b), true)
  {
    ClosesNothingStripped(st, raw);
    DropSum("*", b);
  }

  /** Inside a block, every other line is kept, and the block stays open. */
  lemma LineIsInside(st: Style, raw: string)
    requires Trimmed(st.multiEnd) && ClosesNothing(st, raw) && (!IsCStyle(st) || !("*" <= Strip(raw)))
    ensures CleanLine(st, raw, true) == (Strip(raw), true)
  {
    ClosesNothingStripped(st, raw);
  }

  // ----- Cleaning only takes away -----

  lemma PieceContains(s: string, i: nat, j: nat, t: string)
    requires i <= j <= |s|
    ensures Contains(s[i..j], t) ==> Contains(s, t)
  {
    assert s == s[..i] + s[i..j] + s[j..];
    if k :| 0 <= k <= |s[i..j]| && OccursAt(s[i..j], t, k) {
      OccursWithin(s[..i], s[i..j], s[j..], t, k);
    }
  }

  lemma StripContains(s: string, t: string)
    ensures Contains(Strip(s), t) ==> Contains(s, t)
  {
    var before, after := StripParts(s);
    if k :| 0 <= k <= |Strip(s)| && OccursAt(Strip(s), t, k) {
      OccursWithin(before, Strip(s), after, t, k);
    }
  }

  lemma StrippedPiece(s: string, i: nat, j: nat, t: string)
    requires i <= j <= |s|
    ensures Contains(Strip(s[i..j]), t) ==> Contains(s, t)
  {
    StripContains(s[i..j], t);
    PieceContains(s, i, j, t);
  }

  lemma BareContains(st: Style, line: string, inside: bool, t: string)
    ensures Contains(CleanBare(st, line, inside).0, t) ==> Contains(line, t)
  {
    assert forall i :: 0 <= i <= |line| ==> line[i..] == line[i..|line|] && line[..i] == line[0..i];
    if !inside && st.multiStart != "" && Contains(line, st.multiStart) {
      StrippedPiece(line, Find(line, st.multiStart) + |st.multiStart|, |line|, t);
    } else if inside && st.multiEnd != "" && Contains(line, st.multiEnd) {
      StrippedPiece(line, 0, Find(line, st.multiEnd), t);
    } else if !inside && st.single != "" && st.single <= line {
      StrippedPiece(line, |st.single|, |line|, t);
    } else if IsCStyle(st) && inside && "*" <= line {
      StrippedPiece(line, 1, |line|, t);
    }
  }

  /** Whatever occurs in a cleaned line occurs in the line. */
  lemma CleanedContains(st: Style, raw: string, inside: bool, t: string)
    ensures Contains(CleanLine(st, raw, inside).0, t) ==> Contains(raw, t)
  {
    BareContains(st, Strip(raw), inside, t);
    StripContains(raw, t);
  }

  ghost predicate Nowhere(lines: seq<string>, t: string) {
    forall i :: 0 <= i < |lines| ==> !Contains(lines[i], t)
  }

  lemma {:induction false} NowhereCleaned(st: Style, lines: seq<string>, inside: bool, t: string)
    requires Nowhere(lines, t)
    ensures Nowhere(Gather(Cleaner(st), lines, inside), t)
  {
    if lines != [] {
      CleanedContains(st, lines[0], inside, t);
      CleanerIs(st, lines[0], inside);
      NowhereCleaned(st, lines[1..], Cleaner(st)(lines[0], inside).1, t);
    }
  }

  // ----- A run that is interrupted -----

  predicate Apart(s: string, t: string) {
    |s| >= 2 && |t| >= 2 && (s[0] != t[0] || s[1] != t[1])
  }

  predicate EndApart(s: string, t: string) {
    |s| >= 2 && |t| >= 2 && (s[|s| - 1] != t[|t| - 1] || s[|s| - 2] != t[|t| - 2])
  }

  /** Any two lines differ in their first two characters, and every line from the
      first in its last two. */
  ghost predicate Distinct(e: seq<string>) {
    && (forall k, m :: 0 <= k < m < |e| ==> Apart(e[k], e[m]))
    && (forall k :: 0 < k < |e| ==> EndApart(e[k], e[0]))
  }

  lemma NotAtEnd(s: string, t: string)
    requires EndApart(s, t)
    ensures !EndsWith(s, t)
  {
    EndsWithIff(s, t);
  }

  lemma EndIsContained(s: string, t: string)
    ensures EndsWith(s, t) ==> Contains(s, t)
  {
    EndsWithIff(s, t);
    ContainsIff(s, t);
    assert forall a: string :: a + t == a + t + "";
  }

  ghost predicate NoneEndsWith(lines: seq<string>, t: string) {
    forall i :: 0 <= i < |lines| ==> !EndsWith(lines[i], t)
  }

  lemma NowhereAtEnd(lines: seq<string>, t: string)
    requires Nowhere(lines, t)
    ensures NoneEndsWith(lines, t)
  {
    forall i | 0 <= i < |lines| ensures !EndsWith(lines[i], t) {
      EndIsContained(lines[i], t);
    }
  }

  /** The one place where a run can begin. */
  lemma BeginsThere(p: seq<string>, a: seq<string>, rest: seq<string>, t: string)
    requires a != [] && NoneEndsWith(p, t) && NoneEndsWith(a[1..], t) && NoneEndsWith(rest, t)
    ensures forall i :: 0 <= i < |p + a + rest| && EndsWith((p + a + rest)[i], t) ==> i == |p|
  {
    var c := p + a + rest;
    forall i | 0 <= i < |c| && i != |p| ensures !EndsWith(c[i], t) {
      assert i < |p| ==> c[i] == p[i];
      assert |p| < i < |p| + |a| ==> c[i] == a[1..][i - |p| - 1];
      assert |p| + |a| <= i ==> c[i] == rest[i - |p| - |a|];
    }
  }

  lemma BreaksOff(p: seq<string>, a: seq<string>, x: string, b: seq<string>, t: seq<string>, e: seq<string>)
    requires e == a + b && a != [] && b != [] && Distinct(e)
    ensures RunAt(p + a + [x] + b + t, e, |p|) <==> |b| == 1 && b[0] <= x
  {
    var c := p + a + [x] + b + t;
    assert forall k :: 0 <= k < |a| ==> c[|p| + k] == a[k] == e[k];
    assert c[|p| + |a|] == x && c[|p| + |a| + 1] == b[0] == e[|a|];
    if |b| > 1 {
      assert e[|a| + 1] == b[1] && Apart(e[|a|], e[|a| + 1]);
      assert !RunAt(c, e, |p|) by {
        if RunAt(c, e, |p|) {
          NextLine(c, e, |p|, |a| + 1);
        }
      }
    } else {
      assert e[|e| - 1] == b[0] && |e| - 1 == |a|;
      EndsItself(e[0]);
    }
  }

  lemma EndsItself(s: string)
    ensures EndsWith(s, s)
  {
    assert s[0..] == s;
  }

  lemma NextLine(c: seq<string>, e: seq<string>, i: nat, k: nat)
    requires e != [] && RunAt(c, e, i) && 0 < k < |e|
    ensures e[k] <= c[i + k]
  {
  }

  lemma OthersEndElsewhere(p: seq<string>, a: seq<string>, x: string, b: seq<string>, t: seq<string>, e: seq<string>)
    requires e == a + b && a != [] && b != [] && Distinct(e)
    requires Nowhere(p, e[0]) && Nowhere(t, e[0]) && !Contains(x, e[0])
    ensures NoneEndsWith(p, e[0]) && NoneEndsWith(a[1..], e[0]) && NoneEndsWith([x] + b + t, e[0])
  {
    NowhereAtEnd(p, e[0]);
    NowhereAtEnd(t, e[0]);
    EndIsContained(x, e[0]);
    forall k | 0 < k < |e| ensures !EndsWith(e[k], e[0]) {
      NotAtEnd(e[k], e[0]);
    }
    assert forall k :: 0 <= k < |a[1..]| ==> a[1..][k] == e[k + 1];
    assert forall k :: 0 <= k < |b| ==> b[k] == e[|a| + k];
  }

  /** Lines that match up to one foreign line are no run, unless that line stands
      before the last one and starts like it. */
  lemma InterruptedRun(p: seq<string>, a: seq<string>, x: string, b: seq<string>, t: seq<string>, e: seq<string>)
    requires e == a + b && a != [] && b != [] && Distinct(e)
    requires Nowhere(p, e[0]) && Nowhere(t, e[0]) && !Contains(x, e[0])
    ensures var c := p + a + [x] + b + t;
      (exists i :: 0 <= i <= |c| && RunAt(c, e, i)) <==> |b| == 1 && b[0] <= x
  {
    var c := p + a + [x] + b + t;
    BreaksOff(p, a, x, b, t, e);
    OthersEndElsewhere(p, a, x, b, t, e);
    BeginsThere(p, a, [x] + b + t, e[0]);
    assert c == p + a + ([x] + b + t);
    forall i | 0 <= i <= |c| && RunAt(c, e, i) ensures i == |p| {
      assert i < |c| && EndsWith(c[i], e[0]);
    }
  }

  // ----- The Apache header -----

  /** The first two and the last two characters of its lines that are not blank. */
  function StampOf(k: nat): (char, char, char, char) {
    match k
    case 0 => ('L', 'i', 'n', 'e')
    case 1 => ('o', 'r', 'l', 'e')
    case 2 => ('d', 'i', 'o', 'n')
    case 3 => ('r', 'e', 'l', 'e')
    case 4 => ('t', 'o', 'h', 'e')
    case 5 => ('"', 'L', 'c', 'e')
    case 6 => ('w', 'i', 'a', 't')
    case 8 => ('h', 't', '.', '0')
    case 10 => ('U', 'n', 'g', ',')
    case 11 => ('s', 'o', 'a', 'n')
    case 12 => ('"', 'A', 'N', 'Y')
    case 13 => ('K', 'I', 'h', 'e')
    case 14 => ('s', 'p', 'n', 's')
    case _ => ('u', 'n', 'e', '.')
  }

  predicate BlankLine(k: nat) {
    k == 7 || k == 9
  }

  lemma StampsDiffer(k: nat, m: nat)
    requires k < m < 16 && !BlankLine(k) && !BlankLine(m)
    ensures StampOf(k).0 != StampOf(m).0 || StampOf(k).1 != StampOf(m).1
    ensures StampOf(m).3 != StampOf(0).3 || StampOf(m).2 != StampOf(0).2
  {
  }

  predicate Stamped(line: string, stamp: (char, char, char, char)) {
    |line| >= 2 && line[0] == stamp.0 && line[1] == stamp.1 && line[|line| - 2] == stamp.2 && line[|line| - 1] == stamp.3
  }

  predicate StampedParts(p: (string, string, string), stamp: (char, char, char, char)) {
    && |p.0| >= 2 && p.0[0] == stamp.0 && p.0[1] == stamp.1
    && |p.2| >= 2 && p.2[|p.2| - 2] == stamp.2 && p.2[|p.2| - 1] == stamp.3
  }

  lemma StampedWhole(p: (string, string, string), stamp: (char, char, char, char))
    requires StampedParts(p, stamp)
    ensures Stamped(Whole(p), stamp)
  {
  }

  lemma PartsStampedEarly(k: nat)
    requires k < 4
    ensures StampedParts(HeaderParts(k), StampOf(k))
  {
  }

  lemma PartsStampedMiddle(k: nat)
    requires 4 <= k < 7
    ensures StampedParts(HeaderParts(k), StampOf(k))
  {
  }

  lemma PartsStampedNext(k: nat)
    requires 10 <= k < 12
    ensures StampedParts(HeaderParts(k), StampOf(k))
  {
  }

  lemma PartsStampedLate(k: nat)
    requires 12 <= k < 16
    ensures StampedParts(HeaderParts(k), StampOf(k))
  {
  }

  lemma TextIs(k: nat)
    requires k < 16
    ensures |Texts()| == 16 && Texts()[k] == Strip(Whole(HeaderParts(k)))
  {
    StripAllAt(HeaderLines(), k);
  }

  lemma StripSolid(p: (string, string, string))
    requires Solid(p)
    ensures Strip(Whole(p)) == Whole(p)
  {
    SolidEnds(p);
    StripTrimmed(Whole(p));
  }

  lemma TextIsWhole(k: nat)
    requires k < 16 && !BlankLine(k) && k != 8
    ensures |Texts()| == 16 && Texts()[k] == Whole(HeaderParts(k))
  {
    TextIs(k);
    SolidLineAt(k);
    StripSolid(HeaderParts(k));
  }

  lemma TextStamped(k: nat)
    requires k < 16 && !BlankLine(k)
    ensures |Texts()| == 16 && Stamped(Texts()[k], StampOf(k))
  {
    if k == 8 {
      IndentedText();
    } else {
      TextIsWhole(k);
      if k < 4 {
        PartsStampedEarly(k);
      } else if k < 7 {
        PartsStampedMiddle(k);
      } else if k < 12 {
        PartsStampedNext(k);
      } else {
        PartsStampedLate(k);
      }
      StampedWhole(HeaderParts(k), StampOf(k));
    }
  }

  lemma IndentedParts()
    ensures StampedParts((HeaderParts(8).1, "", HeaderParts(8).2), StampOf(8))
  {
  }

  lemma StripIndent(s: string)
    requires Trimmed(s)
    ensures Strip("  " + s) == s
  {
    assert "  " + s == "  " + s + "";
    StripMargins("  ", s, "");
  }

  lemma IndentedIs(p: (string, string, string), stamp: (char, char, char, char))
    requires p.0 == "  " && StampedParts((p.1, "", p.2), stamp)
    requires !IsSpace(p.1[0]) && !IsSpace(p.2[|p.2| - 1])
    ensures Stamped(Strip(Whole(p)), stamp)
  {
    StampedWhole((p.1, "", p.2), stamp);
    assert p.1 + "" + p.2 == p.1 + p.2 && Whole(p) == "  " + (p.1 + p.2);
    StripIndent(p.1 + p.2);
  }

  lemma IndentedText()
    ensures |Texts()| == 16 && Stamped(Texts()[8], StampOf(8))
  {
    TextIs(8);
    HeaderLine8();
    IndentedParts();
    IndentedIs(HeaderParts(8), StampOf(8));
  }

  lemma BlankTexts()
    ensures |Texts()| == 16 && Texts()[7] == "" && Texts()[9] == ""
  {
    TextIs(7);
    TextIs(9);
    StripTrimmed("");
    BlankParts();
  }

  lemma BlankParts()
    ensures Whole(HeaderParts(7)) == "" && Whole(HeaderParts(9)) == ""
  {
  }

  /** Lines that are not blank differ in their first two characters, and from the first line in their last two. */
  ghost predicate Marked(lines: seq<string>) {
    && (forall k, m :: 0 <= k < m < |lines| && lines[k] != "" && lines[m] != "" ==> Apart(lines[k], lines[m]))
  }

  ghost predicate EndMarked(lines: seq<string>, first: string) {
    forall k :: 0 <= k < |lines| && lines[k] != "" ==> EndApart(lines[k], first)
  }

  lemma TextsMarked()
    ensures |Texts()| == 16 && Texts()[0] != "" && Marked(Texts()) && EndMarked(Texts()[1..], Texts()[0])
  {
    BlankTexts();
    TextStamped(0);
    forall k, m | 0 <= k < m < 16 && Texts()[k] != "" && Texts()[m] != ""
      ensures Apart(Texts()[k], Texts()[m]) && EndApart(Texts()[m], Texts()[0])
    {
      TextStamped(k);
      TextStamped(m);
      StampsDiffer(k, m);
    }
  }

  lemma {:induction false} NonEmptyFrom(lines: seq<string>, i: nat) returns (k: nat)
    requires i < |NonEmpty(lines)|
    ensures k < |lines| && lines[k] == NonEmpty(lines)[i] && lines[k] != ""
  {
    if lines[0] == "" {
      k := NonEmptyFrom(lines[1..], i);
      k := k + 1;
    } else if i == 0 {
      k := 0;
    } else {
      k := NonEmptyFrom(lines[1..], i - 1);
      k := k + 1;
    }
  }

  lemma MarkedRest(lines: seq<string>)
    requires lines != [] && Marked(lines)
    ensures Marked(lines[1..])
  {
    assert forall k :: 0 <= k < |lines[1..]| ==> lines[1..][k] == lines[k + 1];
  }

  lemma {:induction false} NonEmptyApart(lines: seq<string>, i: nat, j: nat)
    requires Marked(lines) && i < j < |NonEmpty(lines)|
    ensures Apart(NonEmpty(lines)[i], NonEmpty(lines)[j])
  {
    MarkedRest(lines);
    if lines[0] == "" {
      NonEmptyApart(lines[1..], i, j);
    } else if i == 0 {
      var m := NonEmptyFrom(lines[1..], j - 1);
      assert lines[1..][m] == lines[m + 1];
    } else {
      NonEmptyApart(lines[1..], i - 1, j - 1);
    }
  }

  lemma MarkedIsDistinct(lines: seq<string>)
    requires lines != [] && lines[0] != "" && Marked(lines) && EndMarked(lines[1..], lines[0])
    ensures NonEmpty(lines) != [] && NonEmpty(lines)[0] == lines[0] && Distinct(NonEmpty(lines))
  {
    var e := NonEmpty(lines);
    forall k | 0 < k < |e| ensures EndApart(e[k], e[0]) {
      var m := NonEmptyFrom(lines[1..], k - 1);
    }
    forall k, m | 0 <= k < m < |e| ensures Apart(e[k], e[m]) {
      NonEmptyApart(lines, k, m);
    }
  }

  lemma HeaderIsDistinct()
    ensures |Texts()| == 16 && NonEmpty(Texts()) != [] && NonEmpty(Texts())[0] == Texts()[0] && Distinct(NonEmpty(Texts()))
  {
    TextsMarked();
    MarkedIsDistinct(Texts());
  }

  // ----- The theorem -----

  lemma {:induction false} NonEmptyOf(lines: seq<string>, k: nat)
    requires k < |lines| && lines[k] != ""
    ensures NonEmpty(lines) != []
  {
    if k > 0 {
      NonEmptyOf(lines[1..], k - 1);
    }
  }

  lemma NonEmptyHalves(lines: seq<string>, j: nat)
    requires j <= |lines|
    ensures NonEmpty(lines) == NonEmpty(lines[..j]) + NonEmpty(lines[j..])
  {
    assert lines == lines[..j] + lines[j..];
    NonEmptyConcat(lines[..j], lines[j..]);
  }

  /** What the cleaner leaves of a header written as single-line comments with a line of code in it. */
  lemma InterruptedIsCleaned(st: Style, m1: seq<Margin>, t1: seq<string>, code: string, m2: seq<Margin>, t2: seq<string>)
    requires Sound(st) && AllPlain(t1) && AllPlain(t2)
    requires |m1| == |t1| && |m2| == |t2| && AllMargins(m1) && AllMargins(m2)
    requires OpensNothing(st, code) && !(st.single <= Strip(code)) && Strip(code) != ""
    ensures
      var lines := SingleLines(st, m1, t1) + [code] + SingleLines(st, m2, t2);
      && Gather(Cleaner(st), lines, false) == NonEmpty(t1) + [Strip(code)] + NonEmpty(t2)
      && !BitAfter(Cleaner(st), lines, false)
  {
    var clean := Cleaner(st);
    SinglesAreCleaned(st, m1, t1);
    SinglesAreCleaned(st, m2, t2);
    GatherTexts(clean, SingleLines(st, m1, t1), t1, false);
    GatherTexts(clean, SingleLines(st, m2, t2), t2, false);
    LineIsCode(st, code);
    CleanerIs(st, code, false);
    GatherOne(clean, code, false);
    GatherConcat(clean, SingleLines(st, m1, t1), [code], false);
    GatherConcat(clean, SingleLines(st, m1, t1) + [code], SingleLines(st, m2, t2), false);
  }

  lemma CleanThree(st: Style, before: seq<string>, lines: seq<string>, after: seq<string>, middle: seq<string>)
    requires Outside(st, before) && Gather(Cleaner(st), lines, false) == middle && !BitAfter(Cleaner(st), lines, false)
    ensures CleanLines(st, before + lines + after, false)
      == Gather(Cleaner(st), before, false) + middle + Gather(Cleaner(st), after, false)
  {
    GatherConcat(Cleaner(st), before, lines, false);
    GatherConcat(Cleaner(st), before + lines, after, false);
  }

  /** A header that is written as single-line comments but interrupted by a line of
      code is not accepted, wherever the interruption is, unless the code itself
      starts with the header's last line and stands just before that line; the file
      must not hold the header's first line a second time. */
  lemma InterruptedAs(st: Style, header: seq<string>, preamble: seq<string>, j: nat, m1: seq<Margin>, code: string,
                      m2: seq<Margin>, tail: seq<string>)
    requires Sound(st) && Suitable(header) && AllOneLine(preamble) && OneLine(code) && AllOneLine(tail)
    requires var texts := StripAll(header);
      && j <= |texts| && |m1| == j && |m2| == |texts| - j && AllMargins(m1) && AllMargins(m2) && AllPlain(texts)
      && NonEmpty(texts[..j]) != [] && NonEmpty(texts[j..]) != [] && Distinct(NonEmpty(texts))
      && Nowhere(preamble, NonEmpty(texts)[0]) && Nowhere(tail, NonEmpty(texts)[0]) && !Contains(code, NonEmpty(texts)[0])
    requires Outside(st, preamble) && OpensNothing(st, code) && !(st.single <= Strip(code)) && Strip(code) != ""
    ensures
      var texts := StripAll(header);
      var lines := SingleLines(st, m1, texts[..j]) + [code] + SingleLines(st, m2, texts[j..]);
      ValidateAs(Some(st), Join(preamble + lines + tail), Join(header)).0 <==>
        |NonEmpty(texts[j..])| == 1 && NonEmpty(texts[j..])[0] <= Strip(code)
  {
    var texts := StripAll(header);
    var t1, t2, e := texts[..j], texts[j..], NonEmpty(texts);
    var lines := SingleLines(st, m1, t1) + [code] + SingleLines(st, m2, t2);
    NonEmptyHalves(texts, j);
    SuitableTexts(header);
    PartsPlain(texts, j);
    InterruptedIsCleaned(st, m1, t1, code, m2, t2);
    CleanThree(st, preamble, lines, tail, NonEmpty(t1) + [Strip(code)] + NonEmpty(t2));
    InterruptedOneLine(st, m1, t1, code, m2, t2);
    AcceptedIff(st, header, preamble + lines + tail);
    NowhereCleaned(st, preamble, false, e[0]);
    NowhereCleaned(st, tail, false, e[0]);
    StripContains(code, e[0]);
    var p, t := Gather(Cleaner(st), preamble, false), Gather(Cleaner(st), tail, false);
    InterruptedRun(p, NonEmpty(t1), Strip(code), NonEmpty(t2), t, e);
    FiveParts(p, NonEmpty(t1), Strip(code), NonEmpty(t2), t);
  }

  lemma FiveParts(p: seq<string>, a: seq<string>, x: string, b: seq<string>, t: seq<string>)
    ensures p + (a + [x] + b) + t == p + a + [x] + b + t
  {
  }

  lemma PartsPlain(texts: seq<string>, j: nat)
    requires AllPlain(texts) && j <= |texts|
    ensures AllPlain(texts[..j]) && AllPlain(texts[j..])
  {
    assert forall k :: 0 <= k < |texts[j..]| ==> texts[j..][k] == texts[j + k];
  }

  lemma InterruptedOneLine(st: Style, m1: seq<Margin>, t1: seq<string>, code: string, m2: seq<Margin>, t2: seq<string>)
    requires Sound(st) && AllPlain(t1) && AllPlain(t2) && OneLine(code)
    requires |m1| == |t1| && |m2| == |t2| && AllMargins(m1) && AllMargins(m2)
    ensures AllOneLine(SingleLines(st, m1, t1) + [code] + SingleLines(st, m2, t2))
  {
    SinglesAreCleaned(st, m1, t1);
    SinglesAreCleaned(st, m2, t2);
  }

  lemma AcceptedIff(st: Style, header: seq<string>, lines: seq<string>)
    requires Suitable(header) && AllOneLine(lines) && lines != []
    ensures
      var e := NonEmpty(StripAll(header));
      && e != []
      && (ValidateAs(Some(st), Join(lines), Join(header)).0 <==>
            exists i :: 0 <= i <= |CleanLines(st, lines, false)| && RunAt(CleanLines(st, lines, false), e, i))
  {
    SuitableTexts(header);
    SplitJoin(lines);
    ValidatesIff(Some(st), Join(lines), header);
  }

  /** The same of the Apache header and any file with a comment style. */
  lemma InterruptedHeaderIsRejected(filename: string, st: Style, preamble: seq<string>, j: nat, m1: seq<Margin>, code: string,
                                    m2: seq<Margin>, tail: seq<string>)
    requires StyleFor(filename) == Some(st)
    requires AllOneLine(preamble) && OneLine(code) && AllOneLine(tail) && Outside(st, preamble)
    requires 0 < j < 16 == |Texts()| && |m1| == j && |m2| == 16 - j && AllMargins(m1) && AllMargins(m2)
    requires OpensNothing(st, code) && !(st.single <= Strip(code)) && Strip(code) != ""
    requires Nowhere(preamble, Texts()[0]) && Nowhere(tail, Texts()[0]) && !Contains(code, Texts()[0])
    ensures
      var lines := SingleLines(st, m1, Texts()[..j]) + [code] + SingleLines(st, m2, Texts()[j..]);
      HeadersValidate(Join(preamble + lines + tail), filename).0 <==> j == 15 && Texts()[15] <= Strip(code)
  {
    StyleIsSound(filename, st);
    HeaderIsSuitable();
    SuitableTexts(HeaderLines());
    HeaderIsDistinct();
    HalvesOfHeader(j);
    InterruptedAs(st, HeaderLines(), preamble, j, m1, code, m2, tail);
  }

  lemma HalvesOfHeader(j: nat)
    requires 0 < j < 16
    ensures |Texts()| == 16 && NonEmpty(Texts()[..j]) != [] && NonEmpty(Texts()[j..]) != []
    ensures |NonEmpty(Texts()[j..])| == 1 <==> j == 15
    ensures j == 15 ==> NonEmpty(Texts()[j..])[0] == Texts()[15]
  {
    TextStamped(0);
    TextStamped(14);
    TextStamped(15);
    LastHalf(Texts(), j);
    NonEmptyOf(Texts()[..j], 0);
  }

  lemma LastHalf(texts: seq<string>, j: nat)
    requires |texts| >= 2 && j < |texts| && texts[|texts| - 2] != "" && texts[|texts| - 1] != ""
    ensures NonEmpty(texts[j..]) != []
    ensures |NonEmpty(texts[j..])| == 1 <==> j == |texts| - 1
    ensures j == |texts| - 1 ==> NonEmpty(texts[j..])[0] == texts[|texts| - 1]
  {
    var n, half := |texts| - 1, texts[j..];
    if j == n {
      assert half == [texts[n]];
      NonEmptyOne(texts[n]);
    } else {
      assert half == half[..n - j] + [texts[n]];
      NonEmptyConcat(half[..n - j], [texts[n]]);
      NonEmptyOne(texts[n]);
      NonEmptyOf(half[..n - j], n - j - 1);
    }
  }
}
