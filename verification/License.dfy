/** The licence-header check: comment stripping and matching. */
module License {
  import opened Wrappers
  import opened Text
  import opened Alignment

  /** Comment markers; "" stands for a marker that the style lacks. */
  datatype Style = Style(single: string, multiStart: string, multiEnd: string)

  const C_LIKE: Style := Style("//", "/*", "*/")
  const PYTHON: Style := Style("#", "\"\"\"", "\"\"\"")
  const SQL: Style := Style("--", "/*", "*/")
  const SHELL: Style := Style("#", "", "")
  const POWERSHELL: Style := Style("#", "<#", "#>")
  const LUA: Style := Style("--", "--[[", "]]")
  const ASSEMBLY: Style := Style(";", "", "")
  const RUBY: Style := Style("#", "=begin", "=end")
  const VISUAL_BASIC: Style := Style("'", "/*", "*/")
  const MATLAB: Style := Style("%", "%{", "%}")
  const VBA: Style := Style("'", "", "")
  const PERL: Style := Style("#", "=pod", "=cut")

  /** _COMMENT_STYLES, by file extension. */
  function StyleOf(ext: string): Option<Style> {
    if ext in {"js", "mjs", "cjs", "jsx", "ts", "tsx", "mts", "cts", "java", "jav", "cs", "csx",
               "cpp", "cxx", "cc", "hpp", "c", "h", "php", "phtml", "go", "rs", "kt", "kts",
               "dart", "swift", "groovy", "gvy", "gy", "gsh", "scala", "sc"} then Some(C_LIKE)
    else if ext == "py" then Some(PYTHON)
    else if ext in {"sql", "ddl", "dml"} then Some(SQL)
    else if ext in {"sh", "bash", "zsh", "ksh", "s", "S", "r", "R"} then Some(SHELL)
    else if ext in {"ps1", "psm1", "psd1"} then Some(POWERSHELL)
    else if ext == "lua" then Some(LUA)
    else if ext == "asm" then Some(ASSEMBLY)
    else if ext in {"rb", "rbw"} then Some(RUBY)
    else if ext in {"vb", "vbs"} then Some(VISUAL_BASIC)
    else if ext == "m" then Some(MATLAB)
    else if ext == "vba" then Some(VBA)
    else if ext in {"pl", "pm", "t"} then Some(PERL)
    else None
  }

  /** The table, style by style: which extensions have it.  No other extension has a style. */
  lemma StyleTable(ext: string, st: Style)
    ensures StyleOf(ext) == Some(st) <==>
      || (st == Style("//", "/*", "*/")
          && ext in {"js", "mjs", "cjs", "jsx", "ts", "tsx", "mts", "cts", "java", "jav", "cs", "csx",
                     "cpp", "cxx", "cc", "hpp", "c", "h", "php", "phtml", "go", "rs", "kt", "kts",
                     "dart", "swift", "groovy", "gvy", "gy", "gsh", "scala", "sc"})
      || (st == Style("#", "\"\"\"", "\"\"\"")
          && ext in {"py"})
      || (st == Style("--", "/*", "*/")
          && ext in {"sql", "ddl", "dml"})
      || (st == Style("#", "", "")
          && ext in {"sh", "bash", "zsh", "ksh", "s", "S", "r", "R"})
      || (st == Style("#", "<#", "#>")
          && ext in {"ps1", "psm1", "psd1"})
      || (st == Style("--", "--[[", "]]")
          && ext in {"lua"})
      || (st == Style(";", "", "")
          && ext in {"asm"})
      || (st == Style("#", "=begin", "=end")
          && ext in {"rb", "rbw"})
      || (st == Style("'", "/*", "*/")
          && ext in {"vb", "vbs"})
      || (st == Style("%", "%{", "%}")
          && ext in {"m"})
      || (st == Style("'", "", "")
          && ext in {"vba"})
      || (st == Style("#", "=pod", "=cut")
          && ext in {"pl", "pm", "t"})
  {
  }

  // ----- The expected header -----

  /** _APACHE_LICENSE_HEADER, line by line, each line in three parts. */
  function HeaderParts(k: nat): (string, string, string) {
    match k
    case 0 => ("Licensed to the ", "Apache Software ", "Foundation (ASF) under one")
    case 1 => ("or more contributor ", "license agreements.  ", "See the NOTICE file")
    case 2 => ("distributed with ", "this work for ", "additional information")
    case 3 => ("regarding copyright ", "ownership.  The ASF ", "licenses this file")
    case 4 => ("to you under the ", "Apache License, ", "Version 2.0 (the")
    case 5 => ("\"License\"); ", "you may not use this ", "file except in compliance")
    case 6 => ("with the License.  ", "You may obtain a copy ", "of the License at")
    case 7 => ("", "", "")
    case 8 => ("  ", "http://www.apache.org", "/licenses/LICENSE-2.0")
    case 9 => ("", "", "")
    case 10 => ("Unless required by ", "applicable law or ", "agreed to in writing,")
    case 11 => ("software distributed ", "under the License is ", "distributed on an")
    case 12 => ("\"AS IS\" ", "BASIS, WITHOUT WARRANTIES ", "OR CONDITIONS OF ANY")
    case 13 => ("KIND, either express ", "or implied.  See the ", "License for the")
    case 14 => ("specific language ", "governing permissions ", "and limitations")
    case _ => ("under ", "the ", "License.")
  }

  function Whole(parts: (string, string, string)): string {
    parts.0 + parts.1 + parts.2
  }

  function HeaderLines(): seq<string> {
    seq(16, k requires 0 <= k < 16 => Whole(HeaderParts(k)))
  }

  function StripAll(lines: seq<string>): seq<string> {
    if lines == [] then [] else [Strip(lines[0])] + StripAll(lines[1..])
  }

  function NonEmpty(lines: seq<string>): seq<string> {
    if lines == [] then [] else (if lines[0] == "" then [] else [lines[0]]) + NonEmpty(lines[1..])
  }

  /** The expected header is split, stripped and cleared of empty lines like the content. */
  function Normalised(header: string): seq<string> {
    NonEmpty(StripAll(Split(header)))
  }

  // ----- Stripping comments -----

  predicate IsCStyle(st: Style) {
    st.multiStart == "/*" && st.multiEnd == "*/"
  }

  /** What a line without margins contributes, and whether the next line is
      inside a block comment. */
  function CleanBare(st: Style, line: string, inside: bool): (string, bool) {
    if !inside && st.multiStart != "" && Contains(line, st.multiStart) then
      (Strip(line[Find(line, st.multiStart) + |st.multiStart|..]), true)
    else if inside && st.multiEnd != "" && Contains(line, st.multiEnd) then
      (Strip(line[..Find(line, st.multiEnd)]), false)
    else if !inside && st.single != "" && st.single <= line then
      (Strip(line[|st.single|..]), inside)
    else if IsCStyle(st) && inside && "*" <= line then
      (Strip(line[1..]), inside)
    else (line, inside)
  }

  function CleanLine(st: Style, raw: string, inside: bool): (string, bool) {
    CleanBare(st, Strip(raw), inside)
  }

  function Keep(line: string): seq<string> {
    if line == "" then [] else [line]
  }

  /** The lines that remain when `clean` goes over them from the left, handing on one bit. */
  function Gather(clean: (string, bool) -> (string, bool), lines: seq<string>, inside: bool): seq<string> {
    if lines == [] then []
    else Keep(clean(lines[0], inside).0) + Gather(clean, lines[1..], clean(lines[0], inside).1)
  }

  function BitAfter(clean: (string, bool) -> (string, bool), lines: seq<string>, inside: bool): bool {
    if lines == [] then inside else BitAfter(clean, lines[1..], clean(lines[0], inside).1)
  }

  /** It is a left fold: it can be done piece by piece. */
  lemma {:induction false} GatherConcat(clean: (string, bool) -> (string, bool), a: seq<string>, b: seq<string>, inside: bool)
    ensures Gather(clean, a + b, inside) == Gather(clean, a, inside) + Gather(clean, b, BitAfter(clean, a, inside))
    ensures BitAfter(clean, a + b, inside) == BitAfter(clean, b, BitAfter(clean, a, inside))
  {
    if a == [] {
      assert a + b == b;
    } else {
      var all := a + b;
      assert all[0] == a[0] && all[1..] == a[1..] + b;
      var (line, next) := clean(a[0], inside);
      GatherConcat(clean, a[1..], b, next);
      Associative(Keep(line), Gather(clean, a[1..], next), Gather(clean, b, BitAfter(clean, a[1..], next)));
    }
  }

  lemma GatherOne(clean: (string, bool) -> (string, bool), line: string, inside: bool)
    ensures Gather(clean, [line], inside) == Keep(clean(line, inside).0)
    ensures BitAfter(clean, [line], inside) == clean(line, inside).1
  {
    assert [line][1..] == [];
  }

  function Cleaner(st: Style): (string, bool) -> (string, bool) {
    (line, inside) => CleanLine(st, line, inside)
  }

  function CleanLines(st: Style, lines: seq<string>, inside: bool): seq<string> {
    Gather(Cleaner(st), lines, inside)
  }

  function StrippedAs(st: Style, content: string): string {
    Join(CleanLines(st, Split(content), false))
  }

  function Stripped(content: string, ext: string): string {
    match StyleOf(ext)
    case None => content
    case Some(st) => StrippedAs(st, content)
  }

  /** The loop over the lines, which keeps the one bit and the lines cleaned so far. */
  method StripLines(clean: (string, bool) -> (string, bool), lines: seq<string>) returns (cleanedLines: seq<string>)
    ensures cleanedLines == Gather(clean, lines, false)
  {
    cleanedLines := [];
    var inMultiline := false;
    for i := 0 to |lines|
      invariant cleanedLines == Gather(clean, lines[..i], false)
      invariant inMultiline == BitAfter(clean, lines[..i], false)
    {
      assert lines[..i + 1] == lines[..i] + [lines[i]];
      GatherConcat(clean, lines[..i], [lines[i]], false);
      GatherOne(clean, lines[i], inMultiline);
      var (line, next) := clean(lines[i], inMultiline);
      inMultiline := next;
      // Only add non-empty lines.
      if line != "" {
        cleanedLines := cleanedLines + [line];
      }
    }
    assert lines[..|lines|] == lines;
  }

  /** _headers_strip_comments. */
  method HeadersStripComments(content: string, ext: string) returns (cleaned: string)
    ensures cleaned == Stripped(content, ext)
    ensures StyleOf(ext).None? ==> cleaned == content
    ensures StyleOf(ext).Some? ==> cleaned == Join(Gather(Cleaner(StyleOf(ext).value), Split(content), false))
  {
    var style := StyleOf(ext);
    if style.None? {
      return content;
    }
    var cleanedLines := StripLines(Cleaner(style.value), Split(content));
    cleaned := Join(cleanedLines);
  }

  // ----- Matching -----

  function Lower(s: string): string {
    if s == "" then ""
    else [if 'A' <= s[0] <= 'Z' then (s[0] as int + 32) as char else s[0]] + Lower(s[1..])
  }

  /** The file extension without the dot, in lower case. */
  function HeadersFileTypeGet(filename: string): Option<string> {
    var ext := Splitext(filename).1;
    if ext == "" then None else Some(Lower(ext[1..]))
  }

  /** The file type is what follows the last dot of the file's name, in lower
      case, unless nothing but dots stands before that dot. */
  lemma FileTypeOf(stem: string, ext: string)
    requires '.' !in ext && '/' !in ext
    ensures HeadersFileTypeGet(stem + "." + ext) == if NamedFile(stem) then Some(Lower(ext)) else None
  {
    assert stem + "." + ext == stem + ("." + ext);
    assert ("." + ext)[1..] == ext;
    SplitextOf(stem, "." + ext);
  }

  /** The comment style of a file, if its extension has one. */
  function StyleFor(filename: string): Option<Style> {
    var ext := HeadersFileTypeGet(filename);
    if ext.None? || ext.value == "" then None else StyleOf(ext.value)
  }

  /** A file without a dot in its name has no file type. */
  lemma NoFileType(dir: string, name: string)
    requires LastComponent(dir, name) && '.' !in name
    ensures HeadersFileTypeGet(dir + name).None? && StyleFor(dir + name).None?
  {
    SplitextPlain(dir, name);
  }

  /** Lower-casing changes the letters from A to Z to those from a to z, and
      nothing else. */
  lemma {:induction false} LowerAt(s: string, i: nat)
    requires i < |s|
    ensures |Lower(s)| == |s|
    ensures 'A' <= s[i] <= 'Z' ==> 'a' <= Lower(s)[i] <= 'z' && Lower(s)[i] - 'a' == s[i] - 'A'
    ensures !('A' <= s[i] <= 'Z') ==> Lower(s)[i] == s[i]
  {
    LowerLength(s);
    if i > 0 {
      LowerAt(s[1..], i - 1);
    }
  }

  lemma {:induction false} LowerLength(s: string)
    ensures |Lower(s)| == |s|
  {
    if s != "" {
      LowerLength(s[1..]);
    }
  }

  /** So the style of a file is that of its extension, in whatever case it is written. */
  lemma StyleForExtension(stem: string, ext: string)
    requires '.' !in ext && '/' !in ext
    ensures StyleFor(stem + "." + ext) == if NamedFile(stem) then StyleOf(Lower(ext)) else None
  {
    FileTypeOf(stem, ext);
  }

  /** The check for a given comment style and expected header. */
  function ValidateAs(style: Option<Style>, content: string, header: string): (bool, Option<string>) {
    if style.None? then
      (false, Some("Could not determine file type from extension"))
    else if !Contains(StrippedAs(style.value, content), Join(Normalised(header))) then
      (false, Some("License header does not match the required Apache License header text"))
    else (true, None)
  }

  /** _headers_validate. */
  function HeadersValidate(content: string, filename: string): (bool, Option<string>) {
    ValidateAs(StyleFor(filename), content, Join(HeaderLines()))
  }

  /** A file is turned away for one of two reasons. */
  lemma Reasons(content: string, filename: string)
    ensures
      var (valid, message) := HeadersValidate(content, filename);
      && (valid <==> message.None?)
      && (StyleFor(filename).None? ==> message == Some("Could not determine file type from extension"))
      && (StyleFor(filename).Some? && !valid ==>
            message == Some("License header does not match the required Apache License header text"))
  {
    ReasonsAs(StyleFor(filename), content, Join(HeaderLines()));
  }

  lemma ReasonsAs(style: Option<Style>, content: string, header: string)
    ensures
      var (valid, message) := ValidateAs(style, content, header);
      && (valid <==> message.None?)
      && (style.None? ==> message == Some("Could not determine file type from extension"))
      && (style.Some? && !valid ==>
            message == Some("License header does not match the required Apache License header text"))
  {
  }
}
