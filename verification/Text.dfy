/** Byte and character strings, as far as the licence and archive tasks use them.
    A byte is written as the character with its code. */
module Text {
  import opened Wrappers

  predicate EndsWith(s: string, suffix: string) {
    |suffix| <= |s| && s[|s| - |suffix|..] == suffix
  }

  predicate OccursAt(s: string, t: string, k: nat) {
    k + |t| <= |s| && s[k..k + |t|] == t
  }

  predicate Contains(s: string, t: string) {
    exists k :: 0 <= k <= |s| && OccursAt(s, t, k)
  }

  lemma ContainsIff(s: string, t: string)
    ensures Contains(s, t) <==> exists a, b :: s == a + t + b
  {
    if k :| 0 <= k <= |s| && OccursAt(s, t, k) {
      assert s == s[..k] + t + s[k + |t|..];
    }
    if a, b :| s == a + t + b {
      assert s[|a|..|a| + |t|] == t;
      assert OccursAt(s, t, |a|);
    }
  }

  lemma EndsWithIff(s: string, suffix: string)
    ensures EndsWith(s, suffix) <==> exists a :: s == a + suffix
  {
    if EndsWith(s, suffix) {
      assert s == s[..|s| - |suffix|] + suffix;
    }
    if a :| s == a + suffix {
      assert s[|a|..] == suffix;
    }
  }

  /** The first place at or after i where t occurs in s. */
  function FindFrom(s: string, t: string, i: nat): (k: nat)
    requires exists k :: i <= k <= |s| && OccursAt(s, t, k)
    ensures i <= k <= |s| && OccursAt(s, t, k)
    ensures forall j :: i <= j < k ==> !OccursAt(s, t, j)
    decreases |s| - i
  {
    if OccursAt(s, t, i) then i else FindFrom(s, t, i + 1)
  }

  function Find(s: string, t: string): (k: nat)
    requires Contains(s, t)
    ensures k <= |s| && OccursAt(s, t, k)
    ensures forall j :: 0 <= j < k ==> !OccursAt(s, t, j)
  {
    FindFrom(s, t, 0)
  }

  // ----- Lines -----

  predicate OneLine(s: string) {
    '\n' !in s
  }

  function Split(s: string): (lines: seq<string>)
    ensures lines != [] && forall i :: 0 <= i < |lines| ==> OneLine(lines[i])
  {
    if s == "" then [""]
    else
      var rest := Split(s[1..]);
      if s[0] == '\n' then [""] + rest else [[s[0]] + rest[0]] + rest[1..]
  }

  function Join(lines: seq<string>): string {
    if lines == [] then ""
    else if |lines| == 1 then lines[0]
    else lines[0] + "\n" + Join(lines[1..])
  }

  lemma {:induction false} SplitOne(line: string)
    requires OneLine(line)
    ensures Split(line) == [line]
  {
    if line != "" {
      SplitOne(line[1..]);
      assert [line[0]] + line[1..] == line;
    }
  }

  lemma {:induction false} SplitFirst(line: string, rest: string)
    requires OneLine(line)
    ensures Split(line + "\n" + rest) == [line] + Split(rest)
  {
    var all := line + "\n" + rest;
    if line == "" {
      assert all[0] == '\n' && all[1..] == rest;
    } else {
      assert all[0] == line[0] && all[1..] == line[1..] + "\n" + rest;
      SplitFirst(line[1..], rest);
      assert [line[0]] + line[1..] == line;
    }
  }

  /** Joining lines and splitting the text again gives the lines back. */
  lemma {:induction false} SplitJoin(lines: seq<string>)
    requires lines != [] && forall i :: 0 <= i < |lines| ==> OneLine(lines[i])
    ensures Split(Join(lines)) == lines
  {
    if |lines| == 1 {
      SplitOne(lines[0]);
    } else {
      SplitFirst(lines[0], Join(lines[1..]));
      SplitJoin(lines[1..]);
    }
  }

  lemma {:induction false} JoinFirst(line: string, rest: seq<string>)
    ensures Join([line] + rest) == if rest == [] then line else line + "\n" + Join(rest)
  {
    assert ([line] + rest)[1..] == rest;
  }

  // ----- White space -----

  predicate IsSpace(c: char) {
    c == ' ' || c == '\t' || c == '\n' || c == '\r' || c == 0x0b as char || c == 0x0c as char
  }

  /** The space and the five control characters from the tab on. */
  lemma IsSpaceIff(c: char)
    ensures IsSpace(c) <==> c as int == 32 || 9 <= c as int <= 13
  {
  }

  predicate Blank(s: string) {
    forall i :: 0 <= i < |s| ==> IsSpace(s[i])
  }

  predicate Trimmed(s: string) {
    s == "" || (!IsSpace(s[0]) && !IsSpace(s[|s| - 1]))
  }

  function StripLeft(s: string): string {
    if s != "" && IsSpace(s[0]) then StripLeft(s[1..]) else s
  }

  function StripRight(s: string): string {
    if s != "" && IsSpace(s[|s| - 1]) then StripRight(s[..|s| - 1]) else s
  }

  function Strip(s: string): string {
    StripRight(StripLeft(s))
  }

  lemma {:induction false} DropLeft(before: string, s: string)
    requires Blank(before)
    ensures StripLeft(before + s) == StripLeft(s)
  {
    if before == "" {
      assert before + s == s;
    } else {
      assert (before + s)[1..] == before[1..] + s;
      assert IsSpace((before + s)[0]);
      DropLeft(before[1..], s);
    }
  }

  lemma {:induction false} DropRight(s: string, after: string)
    requires Blank(after)
    ensures StripRight(s + after) == StripRight(s)
  {
    if after == "" {
      assert s + after == s;
    } else {
      var all := s + after;
      assert all[..|all| - 1] == s + after[..|after| - 1];
      assert IsSpace(all[|all| - 1]);
      DropRight(s, after[..|after| - 1]);
    }
  }

  lemma Associative<T>(a: seq<T>, b: seq<T>, c: seq<T>)
    ensures (a + b) + c == a + (b + c)
  {
  }

  lemma BlankIsStripped(s: string)
    requires Blank(s)
    ensures Strip(s) == ""
  {
    DropLeft(s, "");
    assert s + "" == s;
  }

  lemma StripAfter(s: string, after: string)
    requires Blank(after) && Trimmed(s) && s != ""
    ensures Strip(s + after) == s
  {
    assert (s + after)[0] == s[0];
    DropRight(s, after);
  }

  /** What remains is what stands between the white space. */
  lemma StripMargins(before: string, s: string, after: string)
    requires Blank(before) && Blank(after) && Trimmed(s)
    ensures Strip(before + s + after) == s
  {
    Associative(before, s, after);
    DropLeft(before, s + after);
    if s == "" {
      assert s + after == after;
      BlankIsStripped(after);
    } else {
      StripAfter(s, after);
    }
  }

  lemma StripTrimmed(s: string)
    requires Trimmed(s)
    ensures Strip(s) == s
  {
    StripMargins("", s, "");
    assert "" + s + "" == s;
  }

  lemma StripOneLine(s: string)
    requires OneLine(s)
    ensures OneLine(Strip(s))
  {
    var before, after := StripParts(s);
    forall c | c in Strip(s) ensures c in s {
      assert c in before + Strip(s) + after;
    }
  }

  lemma {:induction false} LeftPart(s: string) returns (before: string)
    ensures s == before + StripLeft(s) && Blank(before)
    ensures StripLeft(s) == "" || !IsSpace(StripLeft(s)[0])
  {
    before := "";
    if s != "" && IsSpace(s[0]) {
      before := LeftPart(s[1..]);
      Associative([s[0]], before, StripLeft(s[1..]));
      before := [s[0]] + before;
    }
  }

  lemma {:induction false} RightPart(s: string) returns (after: string)
    ensures s == StripRight(s) + after && Blank(after)
    ensures StripRight(s) == "" || !IsSpace(StripRight(s)[|StripRight(s)| - 1])
  {
    after := "";
    if s != "" && IsSpace(s[|s| - 1]) {
      var last := s[|s| - 1];
      after := RightPart(s[..|s| - 1]);
      Associative(StripRight(s[..|s| - 1]), after, [last]);
      after := after + [last];
    }
  }

  lemma FirstOfSum(s: string, t: string, u: string)
    requires s == t + u && t != ""
    ensures s != "" && s[0] == t[0]
  {
  }

  /** Stripping removes white space only. */
  lemma StripParts(s: string) returns (before: string, after: string)
    ensures s == before + Strip(s) + after && Blank(before) && Blank(after) && Trimmed(Strip(s))
  {
    before := LeftPart(s);
    after := RightPart(StripLeft(s));
    Associative(before, Strip(s), after);
    if Strip(s) != "" {
      FirstOfSum(StripLeft(s), Strip(s), after);
    }
  }

  lemma OccursWithin(before: string, u: string, after: string, t: string, k: nat)
    requires OccursAt(u, t, k)
    ensures OccursAt(before + u + after, t, |before| + k)
  {
    assert (before + u + after)[|before| + k..|before| + k + |t|] == u[k..k + |t|];
  }

  lemma OccursInside(before: string, u: string, after: string, t: string, k: nat)
    requires Blank(before) && Blank(after) && Trimmed(t) && t != ""
    requires OccursAt(before + u + after, t, k)
    ensures |before| <= k && OccursAt(u, t, k - |before|)
  {
    var s := before + u + after;
    assert s[k] == s[k..k + |t|][0] == t[0];
    assert |before| <= k by {
      assert forall i :: 0 <= i < |before| ==> s[i] == before[i];
    }
    var last := k + |t| - 1;
    assert s[last] == s[k..k + |t|][|t| - 1];
    assert last < |before| + |u| by {
      assert forall i :: |before| + |u| <= i < |s| ==> s[i] == after[i - |before| - |u|];
    }
    assert u[k - |before|..k - |before| + |t|] == s[k..k + |t|];
  }

  lemma {:induction false} RightKeeps(s: string, after: string) returns (rest: string)
    requires s != "" && !IsSpace(s[|s| - 1])
    ensures StripRight(s + after) == s + rest
  {
    rest := after;
    if after == "" {
      assert s + after == s;
    } else if IsSpace(after[|after| - 1]) {
      var all := s + after;
      assert all[..|all| - 1] == s + after[..|after| - 1];
      rest := RightKeeps(s, after[..|after| - 1]);
    }
  }

  lemma OccurrenceAt(s: string, t: string, k: nat, j: nat)
    requires j < |t|
    ensures OccursAt(s, t, k) ==> s[k + j] == t[j]
  {
    if OccursAt(s, t, k) {
      assert s[k..k + |t|][j] == s[k + j];
    }
  }

  lemma FirstAt(body: string, mark: string, rest: string)
    requires mark != "" && mark[0] !in body
    ensures Contains(body + mark + rest, mark) && Find(body + mark + rest, mark) == |body|
  {
    var s := body + mark + rest;
    assert s[|body|..|body| + |mark|] == mark;
    assert OccursAt(s, mark, |body|);
    forall j | 0 <= j < |body| ensures !OccursAt(s, mark, j) {
      assert s[j] == body[j] && body[j] in body;
      OccurrenceAt(s, mark, j, 0);
    }
  }

  /** A trimmed text occurs in a line exactly when it occurs in the stripped line. */
  lemma StripKeeps(s: string, t: string)
    requires Trimmed(t) && t != ""
    ensures Contains(s, t) <==> Contains(Strip(s), t)
  {
    var before, after := StripParts(s);
    if k :| 0 <= k <= |s| && OccursAt(s, t, k) {
      OccursInside(before, Strip(s), after, t, k);
    }
    if k :| 0 <= k <= |Strip(s)| && OccursAt(Strip(s), t, k) {
      OccursWithin(before, Strip(s), after, t, k);
    }
  }

  // ----- File names -----

  /** The place of the last c before n in s, or -1. */
  function LastBefore(s: string, c: char, n: nat): (k: int)
    requires n <= |s|
    ensures -1 <= k < n
    ensures k >= 0 ==> s[k] == c
    ensures forall i :: k < i < n ==> s[i] != c
  {
    if n == 0 then -1 else if s[n - 1] == c then n - 1 else LastBefore(s, c, n - 1)
  }

  /** os.path.splitext: the extension starts at the last dot of the last path
      component, unless only dots stand before that dot. */
  function Splitext(p: string): (parts: (string, string))
    ensures parts.0 + parts.1 == p
  {
    var sep := LastBefore(p, '/', |p|);
    var dot := LastBefore(p, '.', |p|);
    if sep < dot && exists i :: sep < i < dot && p[i] != '.' then (p[..dot], p[dot..]) else (p, "")
  }

  /** The last component of a path has a character other than a dot. */
  predicate NamedFile(path: string) {
    exists i :: LastBefore(path, '/', |path|) < i < |path| && path[i] != '.'
  }

  lemma LastBeforeAppend(s: string, t: string, c: char)
    requires c !in t
    ensures LastBefore(s + t, c, |s + t|) == LastBefore(s, c, |s|)
  {
    var k, n := LastBefore(s, c, |s|), LastBefore(s + t, c, |s + t|);
    assert forall i :: |s| <= i < |s + t| ==> (s + t)[i] == t[i - |s|];
    assert forall i :: 0 <= i < |s| ==> (s + t)[i] == s[i];
  }

  /** splitext takes off an extension, unless nothing but dots stands before it
      in the last component of the path. */
  lemma SplitextOf(n: string, ext: string)
    requires ext != "" && ext[0] == '.' && '.' !in ext[1..] && '/' !in ext
    ensures Splitext(n + ext) == if NamedFile(n) then (n, ext) else (n + ext, "")
  {
    var p := n + ext;
    LastBeforeAppend(n, ext, '/');
    LastBeforeAppend(n + ['.'], ext[1..], '.');
    assert p == n + ['.'] + ext[1..];
    assert p[..|n|] == n && p[|n|..] == ext;
    assert forall i :: 0 <= i < |n| ==> p[i] == n[i];
  }

  /** The last component of a path, behind its directory. */
  predicate LastComponent(dir: string, name: string) {
    '/' !in name && (dir == "" || dir[|dir| - 1] == '/')
  }

  lemma SlashBefore(dir: string, name: string)
    requires LastComponent(dir, name)
    ensures LastBefore(dir + name, '/', |dir + name|) == |dir| - 1
  {
    var p := dir + name;
    assert forall i :: |dir| <= i < |p| ==> p[i] == name[i - |dir|];
    if dir != "" {
      assert p[|dir| - 1] == '/';
    }
  }

  /** A name without a dot has no extension. */
  lemma SplitextPlain(dir: string, name: string)
    requires LastComponent(dir, name) && '.' !in name
    ensures Splitext(dir + name) == (dir + name, "")
  {
    var p := dir + name;
    SlashBefore(dir, name);
    assert forall i :: |dir| <= i < |p| ==> p[i] == name[i - |dir|];
  }

  lemma NamedFileIff(dir: string, name: string)
    requires LastComponent(dir, name)
    ensures NamedFile(dir + name) <==> exists i :: 0 <= i < |name| && name[i] != '.'
  {
    var p := dir + name;
    SlashBefore(dir, name);
    assert forall i :: |dir| <= i < |p| ==> p[i] == name[i - |dir|];
    if i :| 0 <= i < |name| && name[i] != '.' {
      assert p[|dir| + i] == name[i];
    }
  }
}
