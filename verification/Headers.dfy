/** The licence header is found wherever it is written as a comment, and what
    the check accepts is exactly a run of matching lines. */
module Headers {
  import opened Wrappers
  import opened Text
  import opened Alignment
  import opened License

  // ----- The header's lines hold nothing that a comment style could mistake -----

  /** Characters that occur in no marker of a block comment except the quote, and no newline. */
  predicate Harmless(c: char) {
    c != '\n' && c != '*' && c != '<' && c != '>' && c != '=' && c != '[' && c != ']' && c != '{' && c != '}'
  }

  predicate Fine(s: string) {
    && (forall i :: 0 <= i < |s| ==> Harmless(s[i]))
    && (forall i :: 0 <= i < |s| - 1 ==> s[i] != '"' || s[i + 1] != '"')
  }

  predicate Calm(s: string) {
    forall i :: 0 <= i < |s| ==> Harmless(s[i]) && s[i] != '"'
  }

  predicate Plain(s: string) {
    Fine(s) && Trimmed(s) && (s != "" ==> s[0] != '/')
  }

  lemma FineAppend(a: string, b: string)
    requires Fine(a) && Fine(b)
    requires a == "" || a[|a| - 1] != '"'
    ensures Fine(a + b)
  {
  }

  /** Three parts of a line of which at most the first holds quotes. */
  predicate Solid(p: (string, string, string)) {
    && Fine(p.0) && Calm(p.1) && Calm(p.2)
    && p.0 != "" && p.1 != "" && p.2 != "" && p.0[|p.0| - 1] != '"'
    && !IsSpace(p.0[0]) && p.0[0] != '/' && !IsSpace(p.2[|p.2| - 1])
  }

  lemma SolidEnds(p: (string, string, string))
    requires Solid(p)
    ensures Fine(Whole(p)) && Whole(p) != ""
    ensures Whole(p)[0] == p.0[0] && Whole(p)[|Whole(p)| - 1] == p.2[|p.2| - 1]
  {
    FineAppend(p.0, p.1);
    FineAppend(p.0 + p.1, p.2);
  }

  lemma PlainLine(p: (string, string, string))
    requires Solid(p)
    ensures Plain(Strip(Whole(p))) && OneLine(Whole(p)) && Strip(Whole(p)) != ""
  {
    SolidEnds(p);
    StripTrimmed(Whole(p));
  }

  lemma HeaderLine0()
    ensures Solid(HeaderParts(0))
  {
    assert Calm(HeaderParts(0).0);
  }

  lemma HeaderLine1()
    ensures Solid(HeaderParts(1))
  {
    assert Calm(HeaderParts(1).0);
  }

  lemma HeaderLine2()
    ensures Solid(HeaderParts(2))
  {
    assert Calm(HeaderParts(2).0);
  }

  lemma HeaderLine3()
    ensures Solid(HeaderParts(3))
  {
    assert Calm(HeaderParts(3).0);
  }

  lemma HeaderLine4()
    ensures Solid(HeaderParts(4))
  {
    assert Calm(HeaderParts(4).0);
  }

  lemma HeaderLine5()
    ensures Solid(HeaderParts(5))
  {
    assert Fine(HeaderParts(5).0);
  }

  lemma HeaderLine6()
    ensures Solid(HeaderParts(6))
  {
    assert Calm(HeaderParts(6).0);
  }

  lemma HeaderLine10()
    ensures Solid(HeaderParts(10))
  {
    assert Calm(HeaderParts(10).0);
  }

  lemma HeaderLine11()
    ensures Solid(HeaderParts(11))
  {
    assert Calm(HeaderParts(11).0);
  }

  lemma HeaderLine12()
    ensures Solid(HeaderParts(12))
  {
    assert Fine(HeaderParts(12).0);
  }

  lemma HeaderLine13()
    ensures Solid(HeaderParts(13))
  {
    assert Calm(HeaderParts(13).0);
  }

  lemma HeaderLine14()
    ensures Solid(HeaderParts(14))
  {
    assert Calm(HeaderParts(14).0);
  }

  lemma HeaderLine15()
    ensures Solid(HeaderParts(15))
  {
    assert Calm(HeaderParts(15).0);
  }

  /** The one indented line. */
  lemma HeaderLine8()
    ensures HeaderParts(8).0 == "  " && Fine(HeaderParts(8).1) && Fine(HeaderParts(8).2)
    ensures HeaderParts(8).1 != "" && HeaderParts(8).2 != ""
    ensures HeaderParts(8).1[0] == 'h' && HeaderParts(8).1[|HeaderParts(8).1| - 1] != '"'
    ensures !IsSpace(HeaderParts(8).2[|HeaderParts(8).2| - 1])
  {
  }

  lemma PlainIndented(p: (string, string, string))
    requires p.0 == "  " && Fine(p.1) && Fine(p.2) && p.1 != "" && p.2 != ""
    requires p.1[0] == 'h' && p.1[|p.1| - 1] != '"' && !IsSpace(p.2[|p.2| - 1])
    ensures Plain(Strip(Whole(p))) && OneLine(Whole(p))
  {
    FineAppend(p.1, p.2);
    var s := p.1 + p.2;
    assert Whole(p) == "  " + s + "";
    StripMargins("  ", s, "");
  }

  lemma HeaderLineAt(k: nat)
    requires k < 16
    ensures Plain(Strip(Whole(HeaderParts(k)))) && OneLine(Whole(HeaderParts(k)))
    ensures k == 0 ==> Strip(Whole(HeaderParts(k))) != ""
  {
    if k == 7 || k == 9 {
      StripTrimmed("");
      assert Whole(HeaderParts(k)) == "";
    } else if k == 8 {
      HeaderLine8();
      PlainIndented(HeaderParts(8));
    } else {
      SolidLineAt(k);
      PlainLine(HeaderParts(k));
    }
  }

  lemma SolidLineAt(k: nat)
    requires k < 16 && k != 7 && k != 8 && k != 9
    ensures Solid(HeaderParts(k))
  {
    match k
    case 0 => HeaderLine0();
    case 1 => HeaderLine1();
    case 2 => HeaderLine2();
    case 3 => HeaderLine3();
    case 4 => HeaderLine4();
    case 5 => HeaderLine5();
    case 6 => HeaderLine6();
    case 10 => HeaderLine10();
    case 11 => HeaderLine11();
    case 12 => HeaderLine12();
    case 13 => HeaderLine13();
    case 14 => HeaderLine14();
    case _ => HeaderLine15();
  }

  /** The header's lines without the white space around them; blank lines are kept here. */
  function Texts(): seq<string> {
    StripAll(HeaderLines())
  }

  lemma {:induction false} StripAllAt(lines: seq<string>, k: nat)
    requires k < |lines|
    ensures |StripAll(lines)| == |lines| && StripAll(lines)[k] == Strip(lines[k])
  {
    if k > 0 {
      StripAllAt(lines[1..], k - 1);
    } else if |lines| > 1 {
      StripAllAt(lines[1..], 0);
    }
  }

  lemma StripAllLines(lines: seq<string>)
    ensures |StripAll(lines)| == |lines|
    ensures forall k :: 0 <= k < |lines| ==> StripAll(lines)[k] == Strip(lines[k])
  {
    forall k | 0 <= k < |lines| ensures |StripAll(lines)| == |lines| && StripAll(lines)[k] == Strip(lines[k]) {
      StripAllAt(lines, k);
    }
  }

  /** A header that starts with a line that is not blank and whose lines hold
      nothing that could be mistaken for a comment marker. */
  ghost predicate Suitable(header: seq<string>) {
    && header != [] && AllOneLine(header) && Strip(header[0]) != ""
    && forall k :: 0 <= k < |header| ==> Plain(Strip(header[k]))
  }

  lemma HeaderIsSuitable()
    ensures Suitable(HeaderLines())
  {
    HeaderLineAt(0);
    forall k | 0 <= k < 16 ensures Plain(Strip(HeaderLines()[k])) && OneLine(HeaderLines()[k]) {
      HeaderLineAt(k);
    }
  }

  lemma NormalisedIs(lines: seq<string>)
    requires lines != [] && AllOneLine(lines)
    ensures Normalised(Join(lines)) == NonEmpty(StripAll(lines))
  {
    SplitJoin(lines);
  }

  // ----- Comment styles -----

  predicate TellsAt(marker: string, j: nat) {
    j < |marker| && !Harmless(marker[j])
  }

  /** A block marker that cannot occur in a harmless line. */
  predicate Telling(marker: string) {
    marker == "\"\"\"" || exists j :: 0 <= j < |marker| && TellsAt(marker, j)
  }

  predicate Sound(st: Style) {
    && st.single != "" && Trimmed(st.single)
    && (forall i :: 0 <= i < |st.single| ==> Harmless(st.single[i]) && st.single[i] != '"')
    && Trimmed(st.multiStart) && (st.multiStart == "" <==> st.multiEnd == "")
    && (st.multiStart != "" ==> Telling(st.multiStart) && Telling(st.multiEnd))
  }

  lemma OneOfTwelve(ext: string)
    requires StyleOf(ext).Some?
    ensures StyleOf(ext).value in
      {C_LIKE, PYTHON, SQL, SHELL, POWERSHELL, LUA, ASSEMBLY, RUBY, VISUAL_BASIC, MATLAB, VBA, PERL}
  {
  }

  lemma SoundScripts()
    ensures Sound(PYTHON) && Sound(SHELL) && Sound(ASSEMBLY) && Sound(VBA)
  {
  }

  lemma SoundSlashes()
    ensures Sound(C_LIKE) && Sound(SQL) && Sound(VISUAL_BASIC)
  {
    assert TellsAt("/*", 1) && TellsAt("*/", 0);
  }

  lemma SoundBrackets()
    ensures Sound(POWERSHELL) && Sound(LUA) && Sound(MATLAB)
  {
    assert TellsAt("<#", 0) && TellsAt("#>", 1) && TellsAt("--[[", 2) && TellsAt("]]", 0);
    assert TellsAt("%{", 1) && TellsAt("%}", 1);
  }

  lemma SoundWords()
    ensures Sound(RUBY) && Sound(PERL)
  {
    assert TellsAt("=begin", 0) && TellsAt("=end", 0) && TellsAt("=pod", 0) && TellsAt("=cut", 0);
  }

  lemma StyleIsSound(filename: string, st: Style)
    requires StyleFor(filename) == Some(st)
    ensures Sound(st)
  {
    OneOfTwelve(HeadersFileTypeGet(filename).value);
    SoundScripts();
    SoundSlashes();
    SoundBrackets();
    SoundWords();
  }

  lemma NotTold(s: string, marker: string)
    requires Fine(s) && Telling(marker)
    ensures !Contains(s, marker)
  {
    forall k | 0 <= k <= |s| ensures !OccursAt(s, marker, k) {
      if marker == "\"\"\"" {
        OccurrenceAt(s, marker, k, 0);
        OccurrenceAt(s, marker, k, 1);
      } else {
        var j :| 0 <= j < |marker| && TellsAt(marker, j);
        OccurrenceAt(s, marker, k, j);
      }
    }
  }

  // ----- Rendering the header as comments -----

  datatype Margin = Margin(indent: string, pad: string, trail: string)

  predicate MarginOk(m: Margin) {
    && Blank(m.indent) && Blank(m.pad) && Blank(m.trail)
    && OneLine(m.indent) && OneLine(m.pad) && OneLine(m.trail)
  }

  function SingleLine(st: Style, m: Margin, text: string): string {
    m.indent + st.single + m.pad + text + m.trail
  }

  function BlockLine(star: bool, m: Margin, text: string): string {
    m.indent + (if star then "*" else "") + m.pad + text + m.trail
  }

  /** Mark, padding and text, without white space at the end. */
  function Core(mark: string, pad: string, text: string): string {
    if text == "" then mark else mark + pad + text
  }

  lemma BareMark(indent: string, mark: string, pad: string, trail: string)
    requires Blank(indent) && Blank(pad) && Blank(trail) && Trimmed(mark)
    ensures Strip(indent + mark + pad + "" + trail) == mark
  {
    assert indent + mark + pad + "" + trail == indent + mark + (pad + trail);
    StripMargins(indent, mark, pad + trail);
  }

  lemma TextAfterMark(mark: string, pad: string, text: string)
    requires Blank(pad) && Trimmed(text)
    ensures Strip((mark + pad + text)[|mark|..]) == text
  {
    assert (mark + pad + text)[|mark|..] == pad + text + "";
    StripMargins(pad, text, "");
  }

  lemma Regroup(a: string, b: string, c: string, d: string, e: string)
    ensures a + b + c + d + e == a + (b + c + d) + e
  {
  }

  lemma MarkAndText(indent: string, mark: string, pad: string, text: string, trail: string)
    requires Blank(indent) && Blank(trail)
    requires Trimmed(mark) && mark != "" && Trimmed(text) && text != ""
    ensures Strip(indent + mark + pad + text + trail) == mark + pad + text
  {
    var core := mark + pad + text;
    assert core[0] == mark[0] && core[|core| - 1] == text[|text| - 1];
    StripMargins(indent, core, trail);
    Regroup(indent, mark, pad, text, trail);
  }

  lemma CoreIsStripped(indent: string, mark: string, pad: string, text: string, trail: string)
    requires Blank(indent) && Blank(pad) && Blank(trail) && Trimmed(mark) && mark != "" && Trimmed(text)
    ensures Strip(indent + mark + pad + text + trail) == Core(mark, pad, text)
  {
    if text == "" {
      BareMark(indent, mark, pad, trail);
    } else {
      MarkAndText(indent, mark, pad, text, trail);
    }
  }

  lemma CoreHolds(mark: string, pad: string, text: string)
    requires Blank(pad) && Trimmed(text)
    ensures mark <= Core(mark, pad, text)
    ensures Strip(Core(mark, pad, text)[|mark|..]) == text
  {
    if text == "" {
      StripTrimmed("");
    } else {
      TextAfterMark(mark, pad, text);
    }
  }

  lemma FineCore(mark: string, pad: string, text: string)
    requires forall i :: 0 <= i < |mark| ==> Harmless(mark[i]) && mark[i] != '"'
    requires Blank(pad) && OneLine(pad) && Fine(text)
    ensures Fine(Core(mark, pad, text))
  {
    assert forall i :: 0 <= i < |pad| ==> pad[i] in pad && Harmless(pad[i]);
    assert Fine(mark) && Fine(pad);
    FineAppend(mark, pad);
    assert mark + pad != "" ==> (mark + pad)[|mark + pad| - 1] != '"';
    FineAppend(mark + pad, text);
  }

  lemma CleanerIs(st: Style, raw: string, inside: bool)
    ensures Cleaner(st)(raw, inside) == CleanLine(st, raw, inside)
  {
  }

  lemma CleanSingle(st: Style, line: string)
    requires st.single != "" && st.single <= line
    requires st.multiStart != "" ==> !Contains(line, st.multiStart)
    ensures CleanBare(st, line, false) == (Strip(line[|st.single|..]), false)
  {
  }

  lemma CleanInside(st: Style, line: string)
    requires !Contains(line, st.multiEnd)
    ensures CleanBare(st, line, true) == (if IsCStyle(st) && "*" <= line then Strip(line[1..]) else line, true)
  {
  }

  lemma CoreIsCleaned(st: Style, pad: string, text: string)
    requires Sound(st) && Blank(pad) && OneLine(pad) && Plain(text)
    ensures CleanBare(st, Core(st.single, pad, text), false) == (text, false)
  {
    CoreHolds(st.single, pad, text);
    FineCore(st.single, pad, text);
    if st.multiStart != "" {
      NotTold(Core(st.single, pad, text), st.multiStart);
    }
    CleanSingle(st, Core(st.single, pad, text));
  }

  /** A line rendered as a single-line comment is cleaned to its text. */
  lemma SingleIsCleaned(st: Style, m: Margin, text: string)
    requires Sound(st) && MarginOk(m) && Plain(text)
    ensures CleanLine(st, SingleLine(st, m, text), false) == (text, false)
  {
    CoreIsStripped(m.indent, st.single, m.pad, text, m.trail);
    CoreIsCleaned(st, m.pad, text);
  }

  /** A starred line of a C-style block does not close the block. */
  lemma StarDoesNotClose(pad: string, text: string)
    requires Blank(pad) && OneLine(pad) && Plain(text)
    ensures !Contains(Core("*", pad, text), "*/")
  {
    var core := Core("*", pad, text);
    FineCore("", pad, text);
    forall k | 0 <= k <= |core| ensures !OccursAt(core, "*/", k) {
      OccurrenceAt(core, "*/", k, 0);
      OccurrenceAt(core, "*/", k, 1);
      assert forall i :: 1 <= i < |core| ==> core[i] == (pad + text)[i - 1];
      assert pad + text == Core("", pad, text) || text == "";
    }
  }

  /** A line inside a block comment is cleaned to its text, starred or not. */
  lemma BlockIsCleaned(st: Style, star: bool, m: Margin, text: string)
    requires Sound(st) && st.multiStart != "" && (star ==> IsCStyle(st)) && MarginOk(m) && Plain(text)
    ensures CleanLine(st, BlockLine(star, m, text), true) == (text, true)
  {
    var raw := BlockLine(star, m, text);
    if star {
      CoreIsStripped(m.indent, "*", m.pad, text, m.trail);
      CoreHolds("*", m.pad, text);
      StarDoesNotClose(m.pad, text);
      CleanInside(st, Core("*", m.pad, text));
    } else {
      assert raw == (m.indent + m.pad) + text + m.trail;
      StripMargins(m.indent + m.pad, text, m.trail);
      NotTold(text, st.multiEnd);
      CleanInside(st, text);
    }
  }

  /** The header's first line may stand behind the opener. */
  lemma OpenerIsCleaned(st: Style, m: Margin, text: string)
    requires Sound(st) && st.multiStart != "" && MarginOk(m) && Plain(text)
    ensures CleanLine(st, m.indent + st.multiStart + m.pad + text + m.trail, false) == (text, true)
  {
    var core := Core(st.multiStart, m.pad, text);
    CoreIsStripped(m.indent, st.multiStart, m.pad, text, m.trail);
    CoreHolds(st.multiStart, m.pad, text);
    assert OccursAt(core, st.multiStart, 0);
  }

  /** What remains of a line that ends a block: the text before the closer. */
  lemma CloserIsStripped(indent: string, body: string, mark: string, after: string) returns (rest: string)
    requires Blank(indent) && body != "" && !IsSpace(body[0]) && mark != "" && Trimmed(mark)
    ensures Strip(indent + body + mark + after) == body + mark + rest
  {
    var core := body + mark;
    assert core[0] == body[0] && core[|core| - 1] == mark[|mark| - 1];
    assert indent + body + mark + after == indent + (core + after);
    DropLeft(indent, core + after);
    assert (core + after)[0] == core[0];
    rest := RightKeeps(core, after);
  }

  /** The header's last line may stand before the closer. */
  lemma CloserIsCleaned(st: Style, indent: string, text: string, pad: string, after: string)
    requires Sound(st) && st.multiStart != "" && Trimmed(st.multiEnd)
    requires Blank(indent) && Blank(pad) && Plain(text) && text != "" && st.multiEnd[0] !in text
    ensures CleanLine(st, indent + (text + pad) + st.multiEnd + after, true) == (text, false)
  {
    var body := text + pad;
    assert body[0] == text[0];
    var rest := CloserIsStripped(indent, body, st.multiEnd, after);
    assert forall i :: 0 <= i < |pad| ==> IsSpace(pad[i]);
    FirstAt(body, st.multiEnd, rest);
    assert (body + st.multiEnd + rest)[..|body|] == body;
    StripAfter(text, pad);
  }

  // ----- Round trips -----

  ghost predicate AllPlain(texts: seq<string>) {
    forall i :: 0 <= i < |texts| ==> Plain(texts[i])
  }

  ghost predicate AllMargins(margins: seq<Margin>) {
    forall i :: 0 <= i < |margins| ==> MarginOk(margins[i])
  }

  /** No line of the preamble opens a block comment. */
  ghost predicate Unopened(st: Style, preamble: seq<string>) {
    st.multiStart == "" || forall i :: 0 <= i < |preamble| ==> !Contains(preamble[i], st.multiStart)
  }

  function SingleLines(st: Style, margins: seq<Margin>, texts: seq<string>): (lines: seq<string>)
    requires |margins| == |texts|
    ensures |lines| == |texts| && forall i :: 0 <= i < |lines| ==> lines[i] == SingleLine(st, margins[i], texts[i])
  {
    if texts == [] then []
    else [SingleLine(st, margins[0], texts[0])] + SingleLines(st, margins[1..], texts[1..])
  }

  function BlockLines(stars: seq<bool>, margins: seq<Margin>, texts: seq<string>): (lines: seq<string>)
    requires |margins| == |texts| == |stars|
    ensures |lines| == |texts| && forall i :: 0 <= i < |lines| ==> lines[i] == BlockLine(stars[i], margins[i], texts[i])
  {
    if texts == [] then []
    else [BlockLine(stars[0], margins[0], texts[0])] + BlockLines(stars[1..], margins[1..], texts[1..])
  }

  /** Each line is cleaned to the text beside it, and the bit stays as it is. */
  ghost predicate CleanedTo(clean: (string, bool) -> (string, bool), lines: seq<string>, texts: seq<string>, inside: bool) {
    |lines| == |texts| && forall i :: 0 <= i < |lines| ==> clean(lines[i], inside) == (texts[i], inside)
  }

  lemma {:induction false} GatherTexts(clean: (string, bool) -> (string, bool), lines: seq<string>, texts: seq<string>, inside: bool)
    requires CleanedTo(clean, lines, texts, inside)
    ensures Gather(clean, lines, inside) == NonEmpty(texts)
    ensures BitAfter(clean, lines, inside) == inside
  {
    if lines != [] {
      assert clean(lines[0], inside) == (texts[0], inside);
      GatherTexts(clean, lines[1..], texts[1..], inside);
    }
  }

  /** Lines without the block opener leave the cleaner outside a block comment. */
  lemma {:induction false} StaysOutside(st: Style, lines: seq<string>)
    requires Trimmed(st.multiStart)
    requires Unopened(st, lines)
    ensures !BitAfter(Cleaner(st), lines, false)
  {
    if lines != [] {
      if st.multiStart != "" {
        StripKeeps(lines[0], st.multiStart);
      }
      NotOpened(st, lines[0]);
      CleanerIs(st, lines[0], false);
      StaysOutside(st, lines[1..]);
    }
  }

  lemma NotOpened(st: Style, line: string)
    requires st.multiStart == "" || !Contains(Strip(line), st.multiStart)
    ensures !CleanLine(st, line, false).1
  {
  }

  lemma Opened(st: Style, line: string)
    requires Trimmed(st.multiStart) && st.multiStart != "" && Contains(line, st.multiStart)
    ensures CleanLine(st, line, false).1
  {
    StripKeeps(line, st.multiStart);
  }

  lemma Closed(st: Style, line: string)
    requires Trimmed(st.multiEnd) && st.multiEnd != "" && Contains(line, st.multiEnd)
    ensures !CleanLine(st, line, true).1
  {
    StripKeeps(line, st.multiEnd);
  }

  /** Inside a block comment every line keeps the cleaner inside, up to one that
      contains the closer. */
  lemma {:induction false} StaysInside(st: Style, lines: seq<string>)
    requires Trimmed(st.multiEnd)
    requires forall i :: 0 <= i < |lines| ==> !Contains(lines[i], st.multiEnd)
    ensures BitAfter(Cleaner(st), lines, true)
  {
    if lines != [] {
      if st.multiEnd != "" {
        StripKeeps(lines[0], st.multiEnd);
      }
      NotClosed(st, lines[0]);
      CleanerIs(st, lines[0], true);
      StaysInside(st, lines[1..]);
    }
  }

  lemma NotClosed(st: Style, line: string)
    requires st.multiEnd == "" || !Contains(Strip(line), st.multiEnd)
    ensures CleanLine(st, line, true).1
  {
  }

  lemma DropOneLine(s: string, i: nat)
    requires OneLine(s) && i <= |s|
    ensures OneLine(Strip(s[i..]))
  {
    assert forall c :: c in s[i..] ==> c in s;
    StripOneLine(s[i..]);
  }

  lemma TakeOneLine(s: string, j: nat)
    requires OneLine(s) && j <= |s|
    ensures OneLine(Strip(s[..j]))
  {
    assert forall c :: c in s[..j] ==> c in s;
    StripOneLine(s[..j]);
  }

  lemma BareOneLine(st: Style, line: string, inside: bool)
    requires OneLine(line)
    ensures OneLine(CleanBare(st, line, inside).0)
  {
    if !inside && st.multiStart != "" && Contains(line, st.multiStart) {
      DropOneLine(line, Find(line, st.multiStart) + |st.multiStart|);
    } else if inside && st.multiEnd != "" && Contains(line, st.multiEnd) {
      TakeOneLine(line, Find(line, st.multiEnd));
    } else if !inside && st.single != "" && st.single <= line {
      DropOneLine(line, |st.single|);
    } else if IsCStyle(st) && inside && "*" <= line {
      DropOneLine(line, 1);
    }
  }

  lemma CleanedOneLine(st: Style, raw: string, inside: bool)
    requires OneLine(raw)
    ensures OneLine(CleanLine(st, raw, inside).0)
  {
    StripOneLine(raw);
    BareOneLine(st, Strip(raw), inside);
  }

  ghost predicate KeepsOneLine(clean: (string, bool) -> (string, bool)) {
    forall raw, inside :: OneLine(raw) ==> OneLine(clean(raw, inside).0)
  }

  lemma CleanerKeepsOneLine(st: Style)
    ensures KeepsOneLine(Cleaner(st))
  {
    forall raw, inside | OneLine(raw) ensures OneLine(Cleaner(st)(raw, inside).0) {
      CleanedOneLine(st, raw, inside);
      CleanerIs(st, raw, inside);
    }
  }

  lemma {:induction false} GatheredOneLine(clean: (string, bool) -> (string, bool), lines: seq<string>, inside: bool)
    requires AllOneLine(lines) && KeepsOneLine(clean)
    ensures AllOneLine(Gather(clean, lines, inside))
  {
    if lines != [] {
      GatheredOneLine(clean, lines[1..], clean(lines[0], inside).1);
    }
  }

  lemma {:induction false} NonEmptyLines(lines: seq<string>)
    requires AllOneLine(lines)
    ensures AllOneLine(NonEmpty(lines)) && forall i :: 0 <= i < |NonEmpty(lines)| ==> NonEmpty(lines)[i] != ""
    ensures lines != [] && lines[0] != "" ==> NonEmpty(lines) != []
  {
    if lines != [] {
      NonEmptyLines(lines[1..]);
    }
  }

  lemma TextsOneLine(lines: seq<string>)
    requires AllOneLine(lines)
    ensures AllOneLine(StripAll(lines))
  {
    StripAllLines(lines);
    forall k | 0 <= k < |lines| ensures OneLine(StripAll(lines)[k]) {
      StripOneLine(lines[k]);
    }
  }

  lemma NormalisedShape(lines: seq<string>)
    requires lines != [] && AllOneLine(lines) && Strip(lines[0]) != ""
    ensures AllOneLine(Normalised(Join(lines))) && Normalised(Join(lines)) != [] && Normalised(Join(lines))[0] != ""
  {
    NormalisedIs(lines);
    StripAllLines(lines);
    TextsOneLine(lines);
    NonEmptyLines(StripAll(lines));
  }

  /** Some run of consecutive cleaned lines matches the header: the first ends
      with the first expected line, the inner ones are equal, the last starts
      with the last expected line. */
  ghost predicate HasRun(st: Style, content: string, header: seq<string>)
    requires Normalised(Join(header)) != []
  {
    var cleaned := CleanLines(st, Split(content), false);
    exists i :: 0 <= i <= |cleaned| && RunAt(cleaned, Normalised(Join(header)), i)
  }

  /** The check accepts a file exactly when its comment style is known and such a
      run exists.  This holds of any header whose first line is not blank. */
  lemma ValidatesIff(style: Option<Style>, content: string, header: seq<string>)
    requires header != [] && AllOneLine(header) && Strip(header[0]) != ""
    ensures Normalised(Join(header)) != []
    ensures ValidateAs(style, content, Join(header)).0 <==> style.Some? && HasRun(style.value, content, header)
  {
    NormalisedShape(header);
    if style.Some? {
      AcceptsIff(style.value, Split(content), Normalised(Join(header)));
    }
  }

  /** The Apache header is such a header. */
  lemma ApacheValidatesIff(content: string, filename: string)
    ensures Normalised(Join(HeaderLines())) != []
    ensures HeadersValidate(content, filename).0 <==>
      StyleFor(filename).Some? && HasRun(StyleFor(filename).value, content, HeaderLines())
  {
    HeaderIsSuitable();
    ValidatesIff(StyleFor(filename), content, HeaderLines());
  }

  lemma AcceptsIff(st: Style, lines: seq<string>, expected: seq<string>)
    requires AllOneLine(lines) && AllOneLine(expected) && expected != [] && expected[0] != ""
    ensures var cleaned := CleanLines(st, lines, false);
      Contains(Join(cleaned), Join(expected)) <==> exists i :: 0 <= i <= |cleaned| && RunAt(cleaned, expected, i)
  {
    CleanerKeepsOneLine(st);
    GatheredOneLine(Cleaner(st), lines, false);
    Aligned(CleanLines(st, lines, false), expected);
  }

  lemma RunInMiddle(a: seq<string>, e: seq<string>, b: seq<string>)
    requires e != []
    ensures RunAt(a + e + b, e, |a|)
  {
    var c := a + e + b;
    assert forall j :: 0 <= j < |e| ==> c[|a| + j] == e[j];
    assert OccursAt(e[0], e[0], 0);
  }

  /** Whatever stands before and after, lines that are cleaned to given texts
      leave the texts in the stripped content. */
  lemma FoundBetween(st: Style, before: seq<string>, lines: seq<string>, after: seq<string>, texts: seq<string>, inside: bool)
    requires AllOneLine(before) && AllOneLine(lines) && AllOneLine(after)
    requires lines != [] && AllOneLine(texts) && texts != []
    requires inside == BitAfter(Cleaner(st), before, false)
    requires Gather(Cleaner(st), lines, inside) == texts
    ensures Contains(StrippedAs(st, Join(before + lines + after)), Join(texts))
  {
    var clean := Cleaner(st);
    var all := before + lines + after;
    SplitJoin(all);
    GatherConcat(clean, before + lines, after, false);
    GatherConcat(clean, before, lines, false);
    var rest := Gather(clean, after, BitAfter(clean, lines, inside));
    var cleaned := Gather(clean, before, false) + texts + rest;
    assert CleanLines(st, all, false) == cleaned;
    CleanerKeepsOneLine(st);
    GatheredOneLine(clean, all, false);
    RunInMiddle(Gather(clean, before, false), texts, rest);
    var k := RunIsOccurrence(cleaned, texts, |Gather(clean, before, false)|);
  }

  lemma RenderedOneLine(mark: string, m: Margin, text: string)
    requires OneLine(mark) && MarginOk(m) && OneLine(text)
    ensures OneLine(m.indent + mark + m.pad + text + m.trail)
  {
  }

  /** After the preamble no block comment is open. */
  ghost predicate Outside(st: Style, preamble: seq<string>) {
    !BitAfter(Cleaner(st), preamble, false)
  }

  /** A preamble without the opener is such a preamble, and so is one in which
      every block comment is closed. */
  lemma OutsideClosed(st: Style, before: seq<string>, opener: string, inner: seq<string>, closer: string)
    requires Sound(st) && st.multiStart != "" && Outside(st, before)
    requires Contains(opener, st.multiStart) && Contains(closer, st.multiEnd)
    requires Trimmed(st.multiEnd) && forall i :: 0 <= i < |inner| ==> !Contains(inner[i], st.multiEnd)
    ensures Outside(st, before + [opener] + inner + [closer])
    ensures !Outside(st, before + [opener] + inner)
  {
    var clean := Cleaner(st);
    BlockOpened(st, before, opener);
    StaysInside(st, inner);
    GatherConcat(clean, before + [opener], inner, false);
    Closed(st, closer);
    CleanerIs(st, closer, true);
    GatherConcat(clean, before + [opener] + inner, [closer], false);
    GatherOne(clean, closer, true);
  }

  lemma SinglesAreCleaned(st: Style, margins: seq<Margin>, texts: seq<string>)
    requires Sound(st) && AllPlain(texts) && |margins| == |texts| && AllMargins(margins)
    ensures CleanedTo(Cleaner(st), SingleLines(st, margins, texts), texts, false)
    ensures AllOneLine(SingleLines(st, margins, texts))
  {
    var lines := SingleLines(st, margins, texts);
    forall i | 0 <= i < |lines| ensures Cleaner(st)(lines[i], false) == (texts[i], false) && OneLine(lines[i]) {
      SingleIsCleaned(st, margins[i], texts[i]);
      CleanerIs(st, lines[i], false);
      RenderedOneLine(st.single, margins[i], texts[i]);
    }
  }

  lemma BlocksAreCleaned(st: Style, stars: seq<bool>, margins: seq<Margin>, texts: seq<string>)
    requires Sound(st) && st.multiStart != "" && AllPlain(texts)
    requires |margins| == |stars| == |texts| && AllMargins(margins)
    requires true in stars ==> IsCStyle(st)
    ensures CleanedTo(Cleaner(st), BlockLines(stars, margins, texts), texts, true)
    ensures AllOneLine(BlockLines(stars, margins, texts))
  {
    var lines := BlockLines(stars, margins, texts);
    forall i | 0 <= i < |lines| ensures Cleaner(st)(lines[i], true) == (texts[i], true) && OneLine(lines[i]) {
      BlockIsCleaned(st, stars[i], margins[i], texts[i]);
      CleanerIs(st, lines[i], true);
      RenderedOneLine(if stars[i] then "*" else "", margins[i], texts[i]);
    }
  }

  lemma SingleLinesFound(st: Style, preamble: seq<string>, margins: seq<Margin>, texts: seq<string>, tail: seq<string>)
    requires Sound(st) && AllOneLine(preamble) && AllOneLine(tail) && Outside(st, preamble)
    requires AllOneLine(NonEmpty(texts)) && NonEmpty(texts) != []
    requires AllPlain(texts) && |margins| == |texts| && AllMargins(margins)
    ensures Contains(StrippedAs(st, Join(preamble + SingleLines(st, margins, texts) + tail)), Join(NonEmpty(texts)))
  {
    SinglesAreCleaned(st, margins, texts);
    GatherTexts(Cleaner(st), SingleLines(st, margins, texts), texts, false);
    FoundBetween(st, preamble, SingleLines(st, margins, texts), tail, NonEmpty(texts), false);
  }

  lemma BitAppend(clean: (string, bool) -> (string, bool), lines: seq<string>, line: string)
    requires !BitAfter(clean, lines, false) && clean(line, false).1
    ensures BitAfter(clean, lines + [line], false)
  {
    GatherConcat(clean, lines, [line], false);
    GatherOne(clean, line, false);
  }

  lemma OneLineAppend(lines: seq<string>, line: string)
    requires AllOneLine(lines) && OneLine(line)
    ensures AllOneLine(lines + [line])
  {
  }

  lemma BlockOpened(st: Style, preamble: seq<string>, opener: string)
    requires Trimmed(st.multiStart) && st.multiStart != "" && Contains(opener, st.multiStart)
    requires Outside(st, preamble)
    ensures BitAfter(Cleaner(st), preamble + [opener], false)
  {
    Opened(st, opener);
    CleanerIs(st, opener, false);
    BitAppend(Cleaner(st), preamble, opener);
  }

  lemma BlockLinesFound(st: Style, preamble: seq<string>, opener: string, stars: seq<bool>, margins: seq<Margin>,
                        texts: seq<string>, tail: seq<string>)
    requires Sound(st) && st.multiStart != "" && AllOneLine(preamble) && OneLine(opener) && AllOneLine(tail)
    requires AllOneLine(NonEmpty(texts)) && NonEmpty(texts) != []
    requires AllPlain(texts) && |margins| == |stars| == |texts| && AllMargins(margins)
    requires true in stars ==> IsCStyle(st)
    requires Outside(st, preamble) && Contains(opener, st.multiStart)
    ensures Contains(StrippedAs(st, Join(preamble + [opener] + BlockLines(stars, margins, texts) + tail)), Join(NonEmpty(texts)))
  {
    BlockOpened(st, preamble, opener);
    OneLineAppend(preamble, opener);
    BlocksAreCleaned(st, stars, margins, texts);
    GatherTexts(Cleaner(st), BlockLines(stars, margins, texts), texts, true);
    FoundBetween(st, preamble + [opener], BlockLines(stars, margins, texts), tail, NonEmpty(texts), true);
  }

  function OpeningLine(st: Style, m: Margin, text: string): string {
    m.indent + st.multiStart + m.pad + text + m.trail
  }

  function ClosingLine(st: Style, m: Margin, text: string, after: string): string {
    m.indent + (text + m.pad) + st.multiEnd + after
  }

  /** A block comment that has the first text on its opening line and the last
      one on its closing line. */
  function CompactBlock(st: Style, first: Margin, stars: seq<bool>, margins: seq<Margin>, last: Margin, after: string,
                        texts: seq<string>): seq<string>
    requires |texts| >= 2 && |margins| == |stars| == |texts| - 2
  {
    [OpeningLine(st, first, texts[0])] + BlockLines(stars, margins, texts[1..|texts| - 1])
    + [ClosingLine(st, last, texts[|texts| - 1], after)]
  }

  lemma {:induction false} NonEmptyConcat(a: seq<string>, b: seq<string>)
    ensures NonEmpty(a + b) == NonEmpty(a) + NonEmpty(b)
  {
    if a == [] {
      assert a + b == b;
    } else {
      assert (a + b)[0] == a[0] && (a + b)[1..] == a[1..] + b;
      NonEmptyConcat(a[1..], b);
    }
  }

  lemma NonEmptyOne(line: string)
    ensures NonEmpty([line]) == Keep(line)
  {
    assert [line][1..] == [];
  }

  lemma GatherThree(clean: (string, bool) -> (string, bool), first: string, lines: seq<string>, last: string,
                    t0: string, texts: seq<string>, t1: string)
    requires clean(first, false) == (t0, true) && CleanedTo(clean, lines, texts, true) && clean(last, true) == (t1, false)
    ensures Gather(clean, [first] + lines + [last], false) == NonEmpty([t0] + texts + [t1])
    ensures !BitAfter(clean, [first] + lines + [last], false)
  {
    GatherTexts(clean, lines, texts, true);
    GatherOne(clean, first, false);
    GatherOne(clean, last, true);
    GatherConcat(clean, [first], lines, false);
    GatherConcat(clean, [first] + lines, [last], false);
    NonEmptyConcat([t0], texts);
    NonEmptyConcat([t0] + texts, [t1]);
    NonEmptyOne(t0);
    NonEmptyOne(t1);
  }

  lemma ThreeParts(texts: seq<string>)
    requires |texts| >= 2
    ensures texts == [texts[0]] + texts[1..|texts| - 1] + [texts[|texts| - 1]]
  {
  }

  lemma CompactIsCleaned(st: Style, first: Margin, stars: seq<bool>, margins: seq<Margin>, last: Margin, after: string,
                         t0: string, texts: seq<string>, t1: string)
    requires Sound(st) && st.multiStart != "" && Trimmed(st.multiEnd) && Plain(t0) && AllPlain(texts) && Plain(t1)
    requires |margins| == |stars| == |texts| && MarginOk(first) && AllMargins(margins) && MarginOk(last)
    requires true in stars ==> IsCStyle(st)
    requires t1 != "" && st.multiEnd[0] !in t1
    ensures Gather(Cleaner(st),
                   [OpeningLine(st, first, t0)] + BlockLines(stars, margins, texts) + [ClosingLine(st, last, t1, after)], false)
      == NonEmpty([t0] + texts + [t1])
  {
    OpenerIsCleaned(st, first, t0);
    CleanerIs(st, OpeningLine(st, first, t0), false);
    BlocksAreCleaned(st, stars, margins, texts);
    CloserIsCleaned(st, last.indent, t1, last.pad, after);
    CleanerIs(st, ClosingLine(st, last, t1, after), true);
    GatherThree(Cleaner(st), OpeningLine(st, first, t0), BlockLines(stars, margins, texts),
                ClosingLine(st, last, t1, after), t0, texts, t1);
  }

  lemma CompactOneLine(st: Style, first: Margin, stars: seq<bool>, margins: seq<Margin>, last: Margin, after: string,
                       texts: seq<string>)
    requires |texts| >= 2 && |margins| == |stars| == |texts| - 2
    requires Sound(st) && st.multiStart != "" && OneLine(st.multiStart) && OneLine(st.multiEnd) && AllPlain(texts)
    requires MarginOk(first) && AllMargins(margins) && MarginOk(last) && OneLine(after)
    requires true in stars ==> IsCStyle(st)
    ensures AllOneLine(CompactBlock(st, first, stars, margins, last, after, texts))
  {
    BlocksAreCleaned(st, stars, margins, texts[1..|texts| - 1]);
    RenderedOneLine(st.multiStart, first, texts[0]);
    assert Plain(texts[|texts| - 1]);
    assert OneLine(ClosingLine(st, last, texts[|texts| - 1], after));
  }

  lemma CompactBlockFound(st: Style, preamble: seq<string>, first: Margin, stars: seq<bool>, margins: seq<Margin>,
                          last: Margin, after: string, texts: seq<string>, tail: seq<string>)
    requires |texts| >= 2 && |margins| == |stars| == |texts| - 2
    requires Sound(st) && st.multiStart != "" && Closes(st, texts) && AllPlain(texts)
    requires AllOneLine(preamble) && AllOneLine(tail) && Outside(st, preamble)
    requires AllOneLine(NonEmpty(texts)) && NonEmpty(texts) != []
    requires MarginOk(first) && AllMargins(margins) && MarginOk(last) && OneLine(after)
    requires true in stars ==> IsCStyle(st)
    ensures Contains(StrippedAs(st, Join(preamble + CompactBlock(st, first, stars, margins, last, after, texts) + tail)),
                     Join(NonEmpty(texts)))
  {
    CompactIsCleaned(st, first, stars, margins, last, after, texts[0], texts[1..|texts| - 1], texts[|texts| - 1]);
    ThreeParts(texts);
    CompactOneLine(st, first, stars, margins, last, after, texts);
    FoundBetween(st, preamble, CompactBlock(st, first, stars, margins, last, after, texts), tail, NonEmpty(texts), false);
  }

  /** The closer cannot be mistaken to begin inside the last text. */
  ghost predicate Closes(st: Style, texts: seq<string>)
    requires |texts| >= 2
  {
    && Trimmed(st.multiEnd) && st.multiEnd != "" && OneLine(st.multiStart) && OneLine(st.multiEnd)
    && texts[|texts| - 1] != "" && st.multiEnd[0] !in texts[|texts| - 1]
  }

  lemma SuitableTexts(header: seq<string>)
    requires Suitable(header)
    ensures var texts := StripAll(header);
      && |texts| == |header| && NonEmpty(texts) == Normalised(Join(header)) && NonEmpty(texts) != []
      && AllOneLine(NonEmpty(texts)) && AllPlain(texts)
  {
    StripAllLines(header);
    NormalisedIs(header);
    NormalisedShape(header);
  }

  lemma SingleLineFoundAs(st: Style, header: seq<string>, preamble: seq<string>, margins: seq<Margin>, tail: seq<string>)
    requires Sound(st) && Suitable(header) && AllOneLine(preamble) && AllOneLine(tail)
    requires |margins| == |StripAll(header)| && AllMargins(margins)
    requires Outside(st, preamble)
    ensures ValidateAs(Some(st), Join(preamble + SingleLines(st, margins, StripAll(header)) + tail), Join(header)) == (true, None)
  {
    SuitableTexts(header);
    SingleLinesFound(st, preamble, margins, StripAll(header), tail);
  }

  lemma BlockFoundAs(st: Style, header: seq<string>, preamble: seq<string>, opener: string,
                     stars: seq<bool>, margins: seq<Margin>, tail: seq<string>)
    requires Sound(st) && Suitable(header) && AllOneLine(preamble) && OneLine(opener) && AllOneLine(tail)
    requires |margins| == |stars| == |StripAll(header)| && AllMargins(margins)
    requires true in stars ==> IsCStyle(st)
    requires st.multiStart != "" && Contains(opener, st.multiStart)
    requires Outside(st, preamble)
    ensures ValidateAs(Some(st), Join(preamble + [opener] + BlockLines(stars, margins, StripAll(header)) + tail), Join(header))
      == (true, None)
  {
    SuitableTexts(header);
    BlockLinesFound(st, preamble, opener, stars, margins, StripAll(header), tail);
  }

  /** The header written as single-line comments, in any style and with any
      indentation, is found after any preamble that opens no block comment. */
  lemma SingleLineHeaderIsFound(filename: string, st: Style, preamble: seq<string>, margins: seq<Margin>, tail: seq<string>)
    requires StyleFor(filename) == Some(st)
    requires AllOneLine(preamble) && AllOneLine(tail)
    requires |margins| == |Texts()| && AllMargins(margins)
    requires Outside(st, preamble)
    ensures HeadersValidate(Join(preamble + SingleLines(st, margins, Texts()) + tail), filename) == (true, None)
  {
    StyleIsSound(filename, st);
    HeaderIsSuitable();
    SingleLineFoundAs(st, HeaderLines(), preamble, margins, tail);
  }

  /** The header written inside a block comment, in any style that has them, with
      or without leading asterisks in the C styles, is found: the block may be
      opened by any line that contains the opener, and closed anywhere or not at all. */
  lemma BlockHeaderIsFound(filename: string, st: Style, preamble: seq<string>, opener: string,
                           stars: seq<bool>, margins: seq<Margin>, tail: seq<string>)
    requires StyleFor(filename) == Some(st) && st.multiStart != ""
    requires AllOneLine(preamble) && OneLine(opener) && AllOneLine(tail)
    requires |margins| == |stars| == |Texts()| && AllMargins(margins)
    requires true in stars ==> IsCStyle(st)
    requires Outside(st, preamble)
    requires Contains(opener, st.multiStart)
    ensures HeadersValidate(Join(preamble + [opener] + BlockLines(stars, margins, Texts()) + tail), filename) == (true, None)
  {
    StyleIsSound(filename, st);
    HeaderIsSuitable();
    BlockFoundAs(st, HeaderLines(), preamble, opener, stars, margins, tail);
  }

  lemma LastLine()
    ensures |Texts()| == 16 && Texts()[15] == Whole(HeaderParts(15)) && Texts()[15] != ""
  {
    StripAllAt(HeaderLines(), 15);
    HeaderLine15();
    SolidEnds(HeaderParts(15));
    StripTrimmed(Whole(HeaderParts(15)));
  }

  lemma LastLineIsFree()
    ensures forall i :: 0 <= i < |Whole(HeaderParts(15))| ==> Whole(HeaderParts(15))[i] !in {'*', '"', '#', ']', '=', '%'}
  {
    var p := HeaderParts(15);
    assert p.0 == "under " && p.1 == "the " && p.2 == "License.";
    assert forall i :: 0 <= i < |p.0| ==> p.0[i] !in {'*', '"', '#', ']', '=', '%'};
    assert forall i :: 0 <= i < |p.1| ==> p.1[i] !in {'*', '"', '#', ']', '=', '%'};
    assert forall i :: 0 <= i < |p.2| ==> p.2[i] !in {'*', '"', '#', ']', '=', '%'};
  }

  lemma ClosersStart(ext: string)
    requires StyleOf(ext).Some? && StyleOf(ext).value.multiStart != ""
    ensures var st := StyleOf(ext).value;
      && st.multiEnd != "" && st.multiEnd[0] in {'*', '"', '#', ']', '=', '%'} && Trimmed(st.multiEnd)
      && OneLine(st.multiStart) && OneLine(st.multiEnd)
  {
    OneOfTwelve(ext);
  }

  lemma HeaderCloses(filename: string, st: Style)
    requires StyleFor(filename) == Some(st) && st.multiStart != ""
    ensures |Texts()| == 16 && Closes(st, Texts())
  {
    ClosersStart(HeadersFileTypeGet(filename).value);
    LastLine();
    LastLineIsFree();
  }

  /** The header is also found when it begins behind the opener and ends before the closer. */
  lemma CompactBlockHeaderIsFound(filename: string, st: Style, preamble: seq<string>, first: Margin,
                                  stars: seq<bool>, margins: seq<Margin>, last: Margin, after: string, tail: seq<string>)
    requires StyleFor(filename) == Some(st) && st.multiStart != ""
    requires AllOneLine(preamble) && AllOneLine(tail) && Outside(st, preamble)
    requires |Texts()| >= 2 && |margins| == |stars| == |Texts()| - 2
    requires MarginOk(first) && AllMargins(margins) && MarginOk(last) && OneLine(after)
    requires true in stars ==> IsCStyle(st)
    ensures HeadersValidate(Join(preamble + CompactBlock(st, first, stars, margins, last, after, Texts()) + tail), filename)
      == (true, None)
  {
    StyleIsSound(filename, st);
    HeaderIsSuitable();
    SuitableTexts(HeaderLines());
    HeaderCloses(filename, st);
    CompactBlockFound(st, preamble, first, stars, margins, last, after, Texts(), tail);
  }
}
