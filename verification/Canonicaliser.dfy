/**
 * The canonical form of README blocks: strip comments, then normalise white space. Two texts are
 * compared after this treatment, so it matters when treating a treated text changes nothing.
 */
module Canonicaliser {
  // ---------------------------------------------------------------------------------------
  // Lines.
  // ---------------------------------------------------------------------------------------

  /** `text.split('\n')`: never empty. */
  function Split(text: string): (lines: seq<string>)
    ensures |lines| >= 1
    ensures forall l | l in lines :: '\n' !in l
  {
    if text == "" then [""]
    else
      var rest := Split(text[1..]);
      if text[0] == '\n' then [""] + rest else [[text[0]] + rest[0]] + rest[1..]
  }

  /** `lines.join('\n')`. */
  function Join(lines: seq<string>): string {
    if |lines| == 0 then ""
    else if |lines| == 1 then lines[0]
    else lines[0] + "\n" + Join(lines[1..])
  }

  lemma {:induction false} SplitLine(l: string, rest: string)
    requires '\n' !in l
    ensures Split(l) == [l]
    ensures Split(l + "\n" + rest) == [l] + Split(rest)
  {
    if l == "" {
      assert ("" + "\n" + rest)[1..] == rest;
    } else {
      SplitLine(l[1..], rest);
      assert (l + "\n" + rest)[1..] == l[1..] + "\n" + rest;
      assert l == [l[0]] + l[1..];
    }
  }

  lemma {:induction false} SplitJoin(lines: seq<string>)
    requires |lines| >= 1 && forall l | l in lines :: '\n' !in l
    ensures Split(Join(lines)) == lines
  {
    if |lines| == 1 {
      SplitLine(lines[0], "");
      assert lines == [lines[0]];
    } else {
      var rest := lines[1..];
      assert lines == [lines[0]] + rest && forall l | l in rest :: l in lines;
      SplitJoin(rest);
      SplitLine(lines[0], Join(rest));
    }
  }

  predicate OccursAt(line: string, pattern: string, i: nat) {
    i + |pattern| <= |line| && line[i..i + |pattern|] == pattern
  }

  /** `line.indexOf(pattern, from)`. */
  function Find(line: string, pattern: string, from: nat): (i: int)
    requires pattern != ""
    ensures i == -1 || (from <= i && OccursAt(line, pattern, i))
    ensures forall k: nat | from <= k && OccursAt(line, pattern, k) :: 0 <= i <= k
    decreases |line| - from
  {
    if from >= |line| then -1
    else if OccursAt(line, pattern, from) then from
    else Find(line, pattern, from + 1)
  }

  // ---------------------------------------------------------------------------------------
  // TypeScript comments.
  // ---------------------------------------------------------------------------------------

  const OPEN: string := "/*"
  const CLOSE: string := "*/"
  const SLASHES: string := "//"

  /** Removes the block comments of one line; true if the last one stays open. */
  function CutBlocks(line: string): (string, bool)
    decreases |line|
  {
    var start := Find(line, OPEN, 0);
    if start < 0 then (line, false)
    else
      var end := Find(line, CLOSE, start + 2);
      if end < 0 then (line[..start], true) else CutBlocks(line[..start] + line[end + 2..])
  }

  /** How many `quote`s are not preceded by a backslash. */
  function Quotes(s: string, quote: char): nat {
    if s == "" then 0
    else
      var n := |s| - 1;
      (if s[n] == quote && (n == 0 || s[n - 1] != '\\') then 1 else 0) + Quotes(s[..n], quote)
  }

  predicate OutsideQuotes(before: string) {
    Quotes(before, '"') % 2 == 0 && Quotes(before, '\'') % 2 == 0
  }

  function CutLineComment(line: string): string {
    var slash := Find(line, SLASHES, 0);
    if slash >= 0 && OutsideQuotes(line[..slash]) then line[..slash] else line
  }

  /** One line, given whether it starts inside a block comment; and whether the next one does. */
  function StripTypeScriptLine(line: string, inBlock: bool): (string, bool) {
    var end := Find(line, CLOSE, 0);
    if inBlock && end < 0 then ("", true)
    else
      var (cut, open) := CutBlocks(if inBlock then line[end + 2..] else line);
      (CutLineComment(cut), open)
  }

  function StripTypeScript(lines: seq<string>, inBlock: bool): (out: seq<string>)
    ensures |out| == |lines|
  {
    if lines == [] then []
    else
      var (line, open) := StripTypeScriptLine(lines[0], inBlock);
      [line] + StripTypeScript(lines[1..], open)
  }

  function BlockStateAfter(lines: seq<string>, inBlock: bool): bool {
    if lines == [] then inBlock else BlockStateAfter(lines[1..], StripTypeScriptLine(lines[0], inBlock).1)
  }

  // ---------------------------------------------------------------------------------------
  // Python comments: /(^|\s)#.*$/ replaced by its first group, at the first match only.
  // ---------------------------------------------------------------------------------------

  /** What `\s` matches. */
  predicate IsSpace(c: char) {
    || '\t' <= c <= '\r' || c == ' ' || c == '\U{A0}' || c == '\U{1680}' || '\U{2000}' <= c <= '\U{200A}'
    || c == '\U{2028}' || c == '\U{2029}' || c == '\U{202F}' || c == '\U{205F}' || c == '\U{3000}' || c == '\U{FEFF}'
  }

  /** What `.` does not match. */
  predicate IsTerminator(c: char) {
    c == '\n' || c == '\r' || c == '\U{2028}' || c == '\U{2029}'
  }

  predicate NoTerminator(s: string) {
    forall k | 0 <= k < |s| :: !IsTerminator(s[k])
  }

  /** A hash sign at the start of the line or after white space. */
  predicate Opener(line: string, h: nat) {
    h < |line| && line[h] == '#' && (h == 0 || IsSpace(line[h - 1]))
  }

  /** An opener that the expression matches at: `.*$` reaches the end only without a terminator. */
  predicate Live(line: string, h: nat) {
    Opener(line, h) && NoTerminator(line[h + 1..])
  }

  /** The first live opener from `h` on, or the line's length. */
  function FirstLive(line: string, h: nat): (i: nat)
    requires h <= |line|
    ensures h <= i <= |line|
    ensures i < |line| ==> Live(line, i)
    ensures forall k: nat | h <= k < i :: !Live(line, k)
    decreases |line| - h
  {
    if h == |line| || Live(line, h) then h else FirstLive(line, h + 1)
  }

  function StripPythonLine(line: string): string {
    line[..FirstLive(line, 0)]
  }

  function StripPython(lines: seq<string>): (out: seq<string>)
    ensures |out| == |lines|
    ensures forall k | 0 <= k < |lines| :: out[k] == StripPythonLine(lines[k])
  {
    if lines == [] then [] else [StripPythonLine(lines[0])] + StripPython(lines[1..])
  }

  // ---------------------------------------------------------------------------------------
  // White space.
  // ---------------------------------------------------------------------------------------

  /** `l.replace(/\s+$/, '')`. */
  function TrimEnd(l: string): (t: string)
    ensures t <= l
    ensures forall k | |t| <= k < |l| :: IsSpace(l[k])
    ensures t == "" || !IsSpace(t[|t| - 1])
  {
    if l != "" && IsSpace(l[|l| - 1]) then TrimEnd(l[..|l| - 1]) else l
  }

  function TrimAll(lines: seq<string>): (out: seq<string>)
    ensures |out| == |lines|
    ensures forall k | 0 <= k < |lines| :: out[k] == TrimEnd(lines[k])
  {
    if lines == [] then [] else [TrimEnd(lines[0])] + TrimAll(lines[1..])
  }

  /** Keeps the first of each run of blank lines. */
  function Collapse(lines: seq<string>, lastBlank: bool): seq<string> {
    if lines == [] then []
    else if lines[0] == "" && lastBlank then Collapse(lines[1..], true)
    else [lines[0]] + Collapse(lines[1..], lines[0] == "")
  }

  function DropLeading(lines: seq<string>): seq<string> {
    if lines != [] && lines[0] == "" then DropLeading(lines[1..]) else lines
  }

  function DropTrailing(lines: seq<string>): seq<string> {
    if lines != [] && lines[|lines| - 1] == "" then DropTrailing(lines[..|lines| - 1]) else lines
  }

  function NormalLines(lines: seq<string>): seq<string> {
    DropTrailing(DropLeading(Collapse(TrimAll(lines), false)))
  }

  // ---------------------------------------------------------------------------------------
  // The two passes on text, as loops over the lines.
  // ---------------------------------------------------------------------------------------

  datatype Dialect = Python | TypeScript | Unrecognised

  function DialectOf(lang: string): Dialect {
    if lang == "python" || lang == "py" then Python
    else if lang == "ts" || lang == "typescript" then TypeScript
    else Unrecognised
  }

  function Stripped(text: string, dialect: Dialect): string {
    match dialect
    case Python => Join(StripPython(Split(text)))
    case TypeScript => Join(StripTypeScript(Split(text), false))
    case Unrecognised => text
  }

  function Normalised(text: string): string {
    Join(NormalLines(Split(text)))
  }

  function Canonical(text: string, dialect: Dialect): string {
    Normalised(Stripped(text, dialect))
  }

  lemma TypeScriptStep(lines: seq<string>, i: nat, inBlock: bool)
    requires i < |lines|
    ensures StripTypeScript(lines[i..], inBlock)
            == [StripTypeScriptLine(lines[i], inBlock).0]
               + StripTypeScript(lines[i + 1..], StripTypeScriptLine(lines[i], inBlock).1)
  {
  }

  /** The inner loop: a removal may splice a new opener out of what surrounded it. */
  method RemoveBlocks(text: string) returns (line: string, inBlock: bool)
    ensures (line, inBlock) == CutBlocks(text)
  {
    line, inBlock := text, false;
    while true
      invariant !inBlock && CutBlocks(line) == CutBlocks(text)
      decreases |line|
    {
      var start := Find(line, OPEN, 0);
      if start < 0 { break; }
      var end := Find(line, CLOSE, start + 2);
      if end < 0 {
        return line[..start], true;
      }
      line := line[..start] + line[end + 2..];
    }
  }

  /** One turn of the outer loop for TypeScript. */
  method StripLine(text: string, wasInBlock: bool) returns (line: string, inBlock: bool)
    ensures (line, inBlock) == StripTypeScriptLine(text, wasInBlock)
  {
    line, inBlock := text, wasInBlock;
    if inBlock {
      var end := Find(line, CLOSE, 0);
      if end < 0 {
        return "", true;
      }
      line := line[end + 2..];
    }
    line, inBlock := RemoveBlocks(line);
    var slash := Find(line, SLASHES, 0);
    if slash >= 0 && OutsideQuotes(line[..slash]) {
      line := line[..slash];
    }
  }

  method StripTypeScriptLines(lines: seq<string>) returns (out: seq<string>)
    ensures out == StripTypeScript(lines, false)
  {
    out := [];
    var inBlock := false;
    for i := 0 to |lines|
      invariant out + StripTypeScript(lines[i..], inBlock) == StripTypeScript(lines, false)
    {
      TypeScriptStep(lines, i, inBlock);
      var line;
      line, inBlock := StripLine(lines[i], inBlock);
      out := out + [line];
    }
    assert lines[|lines|..] == [];
  }

  method StripPythonLines(lines: seq<string>) returns (out: seq<string>)
    ensures out == StripPython(lines)
  {
    out := [];
    for i := 0 to |lines|
      invariant |out| == i && forall k | 0 <= k < i :: out[k] == StripPythonLine(lines[k])
    {
      out := out + [StripPythonLine(lines[i])];
    }
  }

  method StripComments(text: string, lang: string) returns (result: string)
    ensures result == Stripped(text, DialectOf(lang))
    ensures lang !in {"python", "py", "ts", "typescript"} ==> result == text
    ensures lang in {"python", "py"} ==> result == Join(StripPython(Split(text)))
    ensures lang in {"ts", "typescript"} ==> result == Join(StripTypeScript(Split(text), false))
  {
    var out;
    if lang == "python" || lang == "py" {
      out := StripPythonLines(Split(text));
    } else if lang == "ts" || lang == "typescript" {
      out := StripTypeScriptLines(Split(text));
    } else {
      return text;
    }
    return Join(out);
  }

  method CollapseBlanks(lines: seq<string>) returns (collapsed: seq<string>)
    ensures collapsed == Collapse(lines, false)
  {
    collapsed := [];
    var lastBlank := false;
    for i := 0 to |lines|
      invariant collapsed + Collapse(lines[i..], lastBlank) == Collapse(lines, false)
    {
      assert lines[i..][1..] == lines[i + 1..];
      var blank := |lines[i]| == 0;
      if !(blank && lastBlank) {
        collapsed := collapsed + [lines[i]];
        lastBlank := blank;
      }
    }
    assert lines[|lines|..] == [];
  }

  /** Shifts and pops blank lines off the two ends. */
  method DropBlankEnds(all: seq<string>) returns (collapsed: seq<string>)
    ensures collapsed == DropTrailing(DropLeading(all))
  {
    collapsed := all;
    while |collapsed| > 0 && collapsed[0] == ""
      invariant DropLeading(collapsed) == DropLeading(all)
    {
      collapsed := collapsed[1..];
    }
    while |collapsed| > 0 && collapsed[|collapsed| - 1] == ""
      invariant DropTrailing(collapsed) == DropTrailing(DropLeading(all))
    {
      collapsed := collapsed[..|collapsed| - 1];
    }
  }

  method NormalizeWhitespace(text: string) returns (result: string)
    ensures result == Normalised(text)
  {
    var collapsed := CollapseBlanks(TrimAll(Split(text)));
    collapsed := DropBlankEnds(collapsed);
    return Join(collapsed);
  }

  // ---------------------------------------------------------------------------------------
  // Block comments across lines.
  // ---------------------------------------------------------------------------------------

  /** Stripping is compositional once the block state is handed from one part to the next. */
  lemma {:induction false} BlockStateIsCarried(a: seq<string>, b: seq<string>, inBlock: bool)
    ensures StripTypeScript(a + b, inBlock)
            == StripTypeScript(a, inBlock) + StripTypeScript(b, BlockStateAfter(a, inBlock))
  {
    if a == [] {
      assert a + b == b;
    } else {
      assert (a + b)[1..] == a[1..] + b;
      BlockStateIsCarried(a[1..], b, StripTypeScriptLine(a[0], inBlock).1);
    }
  }

  ghost predicate Free(line: string, pattern: string) {
    forall k: nat :: !OccursAt(line, pattern, k)
  }

  lemma PrefixOccurrence(line: string, n: nat, pattern: string, k: nat)
    requires n <= |line|
    ensures OccursAt(line[..n], pattern, k) <==> OccursAt(line, pattern, k) && k + |pattern| <= n
  {
  }

  lemma FreePrefix(line: string, n: nat, pattern: string)
    requires n <= |line|
    requires forall k: nat | k + |pattern| <= n :: !OccursAt(line, pattern, k)
    ensures Free(line[..n], pattern)
  {
    forall k: nat
      ensures OccursAt(line[..n], pattern, k) <==> OccursAt(line, pattern, k) && k + |pattern| <= n
    {
      PrefixOccurrence(line, n, pattern, k);
    }
  }

  /** Cutting leaves no opener on the line, not even a spliced one. */
  lemma {:induction false} CutBlocksIsFree(line: string)
    ensures Free(CutBlocks(line).0, OPEN)
    decreases |line|
  {
    var start := Find(line, OPEN, 0);
    if start >= 0 {
      var end := Find(line, CLOSE, start + 2);
      if end < 0 {
        FreePrefix(line, start, OPEN);
      } else {
        CutBlocksIsFree(line[..start] + line[end + 2..]);
      }
    }
  }

  /** Removing one comment can create another opener, which the loop then sees. */
  lemma RemovalSplicesOpener()
    ensures CutBlocks("//**/* x") == ("", true)
  {
    var line := "//**/* x";
    assert line[0] == '/' && line[1] == '/' && line[2] == '*' && line[3] == '*' && line[4] == '/';
    assert line[1..3] == OPEN && line[3..5] == CLOSE;
    assert OccursAt(line, OPEN, 1) && OccursAt(line, CLOSE, 3);
    assert line[0..2][1] != OPEN[1];
    assert Find(line, OPEN, 0) == 1 && Find(line, CLOSE, 3) == 3;
    var spliced := line[..1] + line[5..];
    assert spliced == "/* x";
    assert spliced[0..2] == OPEN && OccursAt(spliced, OPEN, 0);
    assert Find(spliced, OPEN, 0) == 0;
    assert spliced[2] == ' ' && spliced[3] == 'x';
    assert !OccursAt(spliced, CLOSE, 2);
    assert Find(spliced, CLOSE, 2) == -1;
    assert spliced[..0] == "";
  }

  // ---------------------------------------------------------------------------------------
  // What becomes of a line.
  // ---------------------------------------------------------------------------------------

  predicate IsUnescaped(before: string, quote: char, k: nat) {
    k < |before| && before[k] == quote && (k > 0 ==> before[k - 1] != '\\')
  }

  /** The positions of a quote character that no backslash precedes. */
  function Unescaped(before: string, quote: char): set<nat> {
    set k: nat | k < |before| && IsUnescaped(before, quote, k)
  }

  lemma {:induction false} QuotesAreUnescaped(s: string, quote: char)
    ensures Quotes(s, quote) == |Unescaped(s, quote)|
  {
    if s != "" {
      var n := |s| - 1;
      QuotesAreUnescaped(s[..n], quote);
      assert forall k: nat | k < n :: IsUnescaped(s[..n], quote, k) <==> IsUnescaped(s, quote, k);
      assert Unescaped(s, quote) == Unescaped(s[..n], quote) + if IsUnescaped(s, quote, n) then {n} else {};
    }
  }

  /** The first place where the pattern occurs. */
  ghost predicate FirstAt(line: string, pattern: string, n: nat) {
    OccursAt(line, pattern, n) && forall k: nat | k < n :: !OccursAt(line, pattern, k)
  }

  /** Outside block comments: cut at the first `//` exactly if an even number of quotes of each kind is before it. */
  lemma PlainLineIsCutExactly(line: string)
    requires Free(line, "/*")
    ensures !StripTypeScriptLine(line, false).1
    ensures Free(line, "//") ==> StripTypeScriptLine(line, false).0 == line
    ensures forall n: nat | FirstAt(line, "//", n) ::
              StripTypeScriptLine(line, false).0
              == if |Unescaped(line[..n], '"')| % 2 == 0 && |Unescaped(line[..n], '\'')| % 2 == 0 then line[..n] else line
  {
    forall n: nat | FirstAt(line, "//", n)
      ensures Quotes(line[..n], '"') == |Unescaped(line[..n], '"')|
      ensures Quotes(line[..n], '\'') == |Unescaped(line[..n], '\'')|
    {
      QuotesAreUnescaped(line[..n], '"');
      QuotesAreUnescaped(line[..n], '\'');
    }
  }

  /** A block comment that opens and closes on the line is taken out; what is left is a line again. */
  lemma ClosedBlockIsTakenOut(line: string, open: nat, close: nat)
    requires FirstAt(line, "/*", open) && open + 2 <= close && OccursAt(line, "*/", close)
    requires forall k: nat | open + 2 <= k < close :: !OccursAt(line, "*/", k)
    ensures StripTypeScriptLine(line, false) == StripTypeScriptLine(line[..open] + line[close + 2..], false)
  {
  }

  /** One that does not close takes the rest of the line, and the next line starts inside it. */
  lemma OpenBlockTakesTheRest(line: string, open: nat)
    requires FirstAt(line, "/*", open) && forall k: nat | open + 2 <= k :: !OccursAt(line, "*/", k)
    ensures StripTypeScriptLine(line, false) == (StripTypeScriptLine(line[..open], false).0, true)
  {
    FreePrefix(line, open, "/*");
  }

  lemma BlockEndsAt(line: string, n: nat)
    requires FirstAt(line, "*/", n)
    ensures StripTypeScriptLine(line, true) == StripTypeScriptLine(line[n + 2..], false)
  {
    assert Find(line, CLOSE, 0) == n;
  }

  /** A line that starts inside a block comment starts after its end, if it has one. */
  lemma BlockEndsAtFirstClose(line: string)
    ensures Free(line, "*/") ==> StripTypeScriptLine(line, true) == ("", true)
    ensures forall n: nat | FirstAt(line, "*/", n) :: StripTypeScriptLine(line, true) == StripTypeScriptLine(line[n + 2..], false)
  {
    forall n: nat | FirstAt(line, "*/", n)
      ensures StripTypeScriptLine(line, true) == StripTypeScriptLine(line[n + 2..], false)
    {
      BlockEndsAt(line, n);
    }
  }

  /** The block state runs through the lines: each is stripped in the state in which the one before it ended. */
  lemma {:induction false} LinesAreChained(lines: seq<string>, inBlock: bool) returns (states: seq<bool>)
    ensures |states| == |lines| + 1 && states[0] == inBlock && states[|lines|] == BlockStateAfter(lines, inBlock)
    ensures forall k | 0 <= k < |lines| ::
              StripTypeScriptLine(lines[k], states[k]) == (StripTypeScript(lines, inBlock)[k], states[k + 1])
  {
    if lines == [] {
      states := [inBlock];
    } else {
      var (first, open) := StripTypeScriptLine(lines[0], inBlock);
      var rest := LinesAreChained(lines[1..], open);
      states := [inBlock] + rest;
      forall k | 0 <= k < |lines|
        ensures StripTypeScriptLine(lines[k], states[k]) == (StripTypeScript(lines, inBlock)[k], states[k + 1])
      {
        if k > 0 { assert lines[k] == lines[1..][k - 1]; }
      }
    }
  }

  /** All twenty-five characters that ECMAScript counts as white space or line terminators. */
  lemma SpacesAreListed(c: char)
    ensures IsSpace(c) <==>
            c in ['\t', '\n', '\U{B}', '\U{C}', '\r', ' ', '\U{A0}', '\U{1680}', '\U{2000}', '\U{2001}', '\U{2002}', '\U{2003}',
                  '\U{2004}', '\U{2005}', '\U{2006}', '\U{2007}', '\U{2008}', '\U{2009}', '\U{200A}', '\U{2028}', '\U{2029}',
                  '\U{202F}', '\U{205F}', '\U{3000}', '\U{FEFF}']
  {
  }

  /** A Python comment starts at a hash sign at the start or after white space, with no line terminator after it. */
  ghost predicate CommentAt(line: string, n: nat) {
    && n < |line| && line[n] == '#' && (n > 0 ==> IsSpace(line[n - 1]))
    && '\n' !in line[n..] && '\r' !in line[n..] && '\U{2028}' !in line[n..] && '\U{2029}' !in line[n..]
  }

  lemma CommentIsLive(line: string, n: nat)
    ensures CommentAt(line, n) <==> Live(line, n)
  {
    if n < |line| {
      var tail := line[n + 1..];
      assert line[n..] == [line[n]] + tail;
      assert forall k | 0 <= k < |tail| :: tail[k] in tail;
    }
  }

  /** A Python line is cut where the first comment starts. */
  lemma PythonLineIsCutExactly(line: string)
    ensures (forall n: nat :: !CommentAt(line, n)) ==> StripPythonLine(line) == line
    ensures forall n: nat | CommentAt(line, n) && (forall k: nat | k < n :: !CommentAt(line, k)) ::
              StripPythonLine(line) == line[..n]
  {
    forall n: nat
      ensures CommentAt(line, n) <==> Live(line, n)
    {
      CommentIsLive(line, n);
    }
  }

  // ---------------------------------------------------------------------------------------
  // Which lines white-space normalisation keeps.
  // ---------------------------------------------------------------------------------------

  lemma {:induction false} JoinInvertsSplit(text: string)
    ensures Join(Split(text)) == text
  {
    if text != "" {
      var rest := Split(text[1..]);
      JoinInvertsSplit(text[1..]);
      assert text == [text[0]] + text[1..];
      if text[0] == '\n' {
        assert ([""] + rest)[1..] == rest;
      } else {
        assert ([[text[0]] + rest[0]] + rest[1..])[1..] == rest[1..];
      }
    }
  }

  predicate HasText(lines: seq<string>) {
    exists j :: 0 <= j < |lines| && lines[j] != ""
  }

  /** A line with text, or the first blank one after text if text follows. */
  predicate IsKept(lines: seq<string>, i: nat)
    requires i < |lines|
  {
    lines[i] != "" || (i > 0 && lines[i - 1] != "" && HasText(lines[i + 1..]))
  }

  function KeptFrom(lines: seq<string>, i: nat): seq<string>
    requires i <= |lines|
    decreases |lines| - i
  {
    if i == |lines| then []
    else (if IsKept(lines, i) then [lines[i]] else []) + KeptFrom(lines, i + 1)
  }

  /** The kept lines of `lines`; `afterText` says whether the line before them has text. */
  function Kept(lines: seq<string>, afterText: bool): (out: seq<string>)
    ensures out == [] <==> !HasText(lines)
  {
    if lines == [] then []
    else
      assert HasText(lines) <==> lines[0] != "" || HasText(lines[1..]) by {
        assert forall j | 0 < j < |lines| :: lines[j] == lines[1..][j - 1];
        assert forall j | 0 <= j < |lines| - 1 :: lines[1..][j] == lines[j + 1];
      }
      if lines[0] != "" then [lines[0]] + Kept(lines[1..], true)
      else (if afterText && HasText(lines[1..]) then [""] else []) + Kept(lines[1..], false)
  }

  lemma {:induction false} KeptByIndex(lines: seq<string>, i: nat)
    requires i <= |lines|
    ensures KeptFrom(lines, i) == Kept(lines[i..], i > 0 && lines[i - 1] != "")
    decreases |lines| - i
  {
    if i < |lines| {
      KeptByIndex(lines, i + 1);
      assert lines[i..][1..] == lines[i + 1..] && lines[i..][0] == lines[i];
    }
  }

  lemma {:induction false} DropTrailingOfMore(line: string, lines: seq<string>)
    ensures DropTrailing([line] + lines)
            == if line == "" && DropTrailing(lines) == [] then [] else [line] + DropTrailing(lines)
    decreases |lines|
  {
    if lines == [] {
      assert [line] + lines == [line];
      assert [line][..0] == [];
    } else {
      var n := |lines| - 1;
      assert ([line] + lines)[..n + 1] == [line] + lines[..n];
      DropTrailingOfMore(line, lines[..n]);
    }
  }

  lemma {:induction false} CollapsedIsKept(lines: seq<string>, lastBlank: bool)
    ensures DropTrailing(Collapse(lines, lastBlank)) == Kept(lines, !lastBlank)
  {
    if lines != [] {
      CollapsedIsKept(lines[1..], lines[0] == "");
      if !(lines[0] == "" && lastBlank) {
        DropTrailingOfMore(lines[0], Collapse(lines[1..], lines[0] == ""));
      }
    }
  }

  lemma {:induction false} CollapsedStartsWithText(lines: seq<string>)
    ensures Collapse(lines, true) != [] ==> Collapse(lines, true)[0] != ""
  {
    if lines != [] && lines[0] == "" { CollapsedStartsWithText(lines[1..]); }
  }

  lemma LeadingBlanksGo(lines: seq<string>)
    ensures DropLeading(Collapse(lines, false)) == Collapse(lines, true)
  {
    if lines != [] && lines[0] == "" {
      assert ([""] + Collapse(lines[1..], true))[1..] == Collapse(lines[1..], true);
      CollapsedStartsWithText(lines[1..]);
    }
  }

  /**
   * Normalising keeps, in order, every line that has text after trimming, and of each run of blank lines
   * between two such lines one; nothing else.
   */
  lemma NormalLinesAreKept(lines: seq<string>)
    ensures NormalLines(lines) == KeptFrom(TrimAll(lines), 0)
  {
    var trimmed := TrimAll(lines);
    LeadingBlanksGo(trimmed);
    CollapsedIsKept(trimmed, true);
    KeptByIndex(trimmed, 0);
    assert trimmed[0..] == trimmed;
  }

  // ---------------------------------------------------------------------------------------
  // Normal form.
  // ---------------------------------------------------------------------------------------

  ghost predicate NoBlankPairs(lines: seq<string>) {
    forall k | 0 < k < |lines| :: lines[k - 1] != "" || lines[k] != ""
  }

  ghost predicate AllTrimmed(lines: seq<string>) {
    forall l | l in lines :: TrimEnd(l) == l
  }

  ghost predicate NormalForm(lines: seq<string>) {
    && AllTrimmed(lines) && NoBlankPairs(lines)
    && (lines != [] ==> lines[0] != "" && lines[|lines| - 1] != "")
  }

  /** The non-blank members are the same, and nothing else was added. */
  ghost predicate SameText(out: seq<string>, lines: seq<string>) {
    && (forall l | l in out :: l in lines)
    && (forall l | l in lines && l != "" :: l in out)
  }

  function Total(lines: seq<string>): nat {
    if lines == [] then 0 else |lines[0]| + Total(lines[1..])
  }

  lemma {:induction false} TotalAppend(lines: seq<string>, l: string)
    ensures Total(lines + [l]) == Total(lines) + |l|
  {
    if lines != [] {
      assert (lines + [l])[1..] == lines[1..] + [l];
      TotalAppend(lines[1..], l);
    } else {
      assert [l][1..] == [] && lines + [l] == [l];
    }
  }

  lemma {:induction false} CollapseFacts(lines: seq<string>, lastBlank: bool)
    ensures var out := Collapse(lines, lastBlank);
            && NoBlankPairs(out) && SameText(out, lines)
            && (lastBlank && out != [] ==> out[0] != "")
            && Total(out) == Total(lines)
  {
    if lines != [] {
      assert lines == [lines[0]] + lines[1..];
      CollapseFacts(lines[1..], lines[0] == "");
    }
  }

  lemma {:induction false} DropLeadingFacts(lines: seq<string>)
    requires NoBlankPairs(lines)
    ensures var out := DropLeading(lines);
            && NoBlankPairs(out) && SameText(out, lines) && (out != [] ==> out[0] != "")
            && Total(out) == Total(lines)
  {
  }

  lemma {:induction false} DropTrailingFacts(lines: seq<string>)
    requires NoBlankPairs(lines) && (lines != [] ==> lines[0] != "")
    ensures var out := DropTrailing(lines);
            && NoBlankPairs(out) && SameText(out, lines)
            && (out != [] ==> out[0] != "" && out[|out| - 1] != "")
            && Total(out) == Total(lines)
  {
    var n := |lines|;
    if lines != [] && lines[n - 1] == "" {
      assert lines == lines[..n - 1] + [lines[n - 1]];
      TotalAppend(lines[..n - 1], "");
      DropTrailingFacts(lines[..n - 1]);
    }
  }

  lemma {:induction false} TotalPointwise(a: seq<string>, b: seq<string>)
    requires |a| == |b| && forall k | 0 <= k < |a| :: |a[k]| <= |b[k]|
    ensures Total(a) <= Total(b)
    ensures (exists k :: 0 <= k < |a| && |a[k]| < |b[k]|) ==> Total(a) < Total(b)
  {
    if a != [] {
      TotalPointwise(a[1..], b[1..]);
      if k :| 0 <= k < |a| && |a[k]| < |b[k]| {
        if k > 0 { assert a[1..][k - 1] == a[k] && b[1..][k - 1] == b[k]; }
      }
    }
  }

  /** Normalising gives a normal form whose lines are trimmed input lines, and no non-blank line is lost. */
  lemma NormalLinesFacts(lines: seq<string>)
    ensures var out := NormalLines(lines);
            && NormalForm(out) && SameText(out, TrimAll(lines))
            && Total(out) <= Total(lines)
  {
    var trimmed := TrimAll(lines);
    var collapsed := Collapse(trimmed, false);
    CollapseFacts(trimmed, false);
    DropLeadingFacts(collapsed);
    DropTrailingFacts(DropLeading(collapsed));
    TotalPointwise(trimmed, lines);
    forall l | l in trimmed
      ensures TrimEnd(l) == l
    {
      var k :| 0 <= k < |trimmed| && trimmed[k] == l;
    }
  }

  lemma {:induction false} CollapseKeeps(lines: seq<string>, lastBlank: bool)
    requires NoBlankPairs(lines) && (lastBlank && lines != [] ==> lines[0] != "")
    ensures Collapse(lines, lastBlank) == lines
  {
    if lines != [] {
      assert lines == [lines[0]] + lines[1..];
      CollapseKeeps(lines[1..], lines[0] == "");
    }
  }

  lemma TrimmedIsKept(lines: seq<string>)
    requires AllTrimmed(lines)
    ensures TrimAll(lines) == lines
  {
    forall k | 0 <= k < |lines|
      ensures TrimAll(lines)[k] == lines[k]
    {
    }
  }

  lemma NormalFormIsKept(lines: seq<string>)
    requires NormalForm(lines)
    ensures NormalLines(lines) == lines
  {
    TrimmedIsKept(lines);
    CollapseKeeps(lines, false);
    assert DropLeading(lines) == lines && DropTrailing(lines) == lines;
  }

  lemma BlankNormalises()
    ensures NormalLines([""]) == []
  {
  }

  /** Splitting a canonical text again gives its lines back, up to the one blank line of the empty text. */
  lemma SplitOfNormal(lines: seq<string>)
    requires NormalForm(lines) && forall l | l in lines :: '\n' !in l
    ensures Split(Join(lines)) == if lines == [] then [""] else lines
    ensures NormalLines(Split(Join(lines))) == lines
  {
    if lines == [] {
      BlankNormalises();
    } else {
      SplitJoin(lines);
      NormalFormIsKept(lines);
    }
  }

  lemma TrimmedStaysWhole(l: string)
    requires '\n' !in l
    ensures '\n' !in TrimEnd(l)
  {
  }

  lemma LinesStayWhole(lines: seq<string>)
    requires forall l | l in lines :: '\n' !in l
    ensures forall l | l in NormalLines(lines) :: '\n' !in l
  {
    var trimmed := TrimAll(lines);
    NormalLinesFacts(lines);
    forall l | l in trimmed
      ensures '\n' !in l
    {
      var k :| 0 <= k < |lines| && trimmed[k] == l;
      assert lines[k] in lines;
      TrimmedStaysWhole(lines[k]);
    }
  }

  /** Normalising alone is idempotent. */
  lemma NormalisingTwiceIsOnce(text: string)
    ensures Normalised(Normalised(text)) == Normalised(text)
  {
    var lines := NormalLines(Split(text));
    NormalLinesFacts(Split(text));
    LinesStayWhole(Split(text));
    SplitOfNormal(lines);
  }

  // ---------------------------------------------------------------------------------------
  // TypeScript: canonical twice is canonical once.
  // ---------------------------------------------------------------------------------------

  /** A line that stripping leaves alone outside a block. */
  predicate PlainTypeScript(line: string) {
    StripTypeScriptLine(line, false) == (line, false)
  }

  lemma LineCommentCutOnce(line: string, t: string)
    requires t == TrimEnd(CutLineComment(line))
    ensures CutLineComment(t) == t
  {
    var o := CutLineComment(line);
    var slash := Find(line, SLASHES, 0);
    if slash < 0 || o != line {
      var n := if slash < 0 then |t| else slash;
      assert |t| <= |o|;
      forall k: nat
        ensures !OccursAt(t, SLASHES, k)
      {
        assert t == line[..|t|];
        PrefixOccurrence(line, |t|, SLASHES, k);
      }
    } else {
      assert line[slash..slash + 2][1] == '/';
      assert slash + 2 <= |t|;
      assert t == line[..|t|];
      PrefixOccurrence(line, |t|, SLASHES, slash);
      var again := Find(t, SLASHES, 0);
      PrefixOccurrence(line, |t|, SLASHES, again);
      assert again == slash && t[..slash] == line[..slash];
    }
  }

  lemma {:induction false} CutBlocksDropsOnly(line: string)
    ensures '\n' !in line ==> '\n' !in CutBlocks(line).0
    decreases |line|
  {
    var start := Find(line, OPEN, 0);
    if start >= 0 {
      var end := Find(line, CLOSE, start + 2);
      if end >= 0 { CutBlocksDropsOnly(line[..start] + line[end + 2..]); }
    }
  }

  lemma StrippedLineIsPlain(line: string, inBlock: bool)
    ensures PlainTypeScript(TrimEnd(StripTypeScriptLine(line, inBlock).0))
    ensures '\n' !in line ==> '\n' !in StripTypeScriptLine(line, inBlock).0
  {
    var end := Find(line, CLOSE, 0);
    if inBlock && end < 0 {
      assert Find("", OPEN, 0) == -1;
    } else {
      var rest := if inBlock then line[end + 2..] else line;
      var cut := CutBlocks(rest).0;
      var t := TrimEnd(CutLineComment(cut));
      CutBlocksIsFree(rest);
      assert t == cut[..|t|];
      FreePrefix(cut, |t|, OPEN);
      assert Find(t, OPEN, 0) == -1;
      LineCommentCutOnce(cut, t);
      CutBlocksDropsOnly(rest);
    }
  }

  lemma {:induction false} StrippedLinesArePlain(lines: seq<string>, inBlock: bool)
    ensures forall l | l in StripTypeScript(lines, inBlock) :: PlainTypeScript(TrimEnd(l))
    ensures (forall l | l in lines :: '\n' !in l) ==> forall l | l in StripTypeScript(lines, inBlock) :: '\n' !in l
  {
    if lines != [] {
      StrippedLineIsPlain(lines[0], inBlock);
      StrippedLinesArePlain(lines[1..], StripTypeScriptLine(lines[0], inBlock).1);
    }
  }

  lemma {:induction false} PlainLinesAreKept(lines: seq<string>)
    requires forall l | l in lines :: PlainTypeScript(l)
    ensures StripTypeScript(lines, false) == lines
  {
    if lines != [] {
      assert lines[0] in lines;
      PlainLinesAreKept(lines[1..]);
    }
  }

  lemma TrimmedLinesArePlain(stripped: seq<string>, lines: seq<string>)
    requires forall l | l in stripped :: PlainTypeScript(TrimEnd(l))
    requires forall l | l in lines && l != "" :: l in TrimAll(stripped)
    ensures forall l | l in lines :: PlainTypeScript(l)
  {
    forall l | l in lines
      ensures PlainTypeScript(l)
    {
      if l == "" {
        assert Find("", OPEN, 0) == -1;
      } else {
        var k :| 0 <= k < |stripped| && TrimAll(stripped)[k] == l;
        assert stripped[k] in stripped;
      }
    }
  }

  /** Whatever the language tag, except Python's. */
  lemma CanonicalTwiceIsOnce(text: string, dialect: Dialect)
    requires dialect != Python
    ensures Canonical(Canonical(text, dialect), dialect) == Canonical(text, dialect)
  {
    if dialect == TypeScript {
      var stripped := StripTypeScript(Split(text), false);
      StrippedLinesArePlain(Split(text), false);
      SplitJoin(stripped);
      var lines := NormalLines(stripped);
      NormalLinesFacts(stripped);
      LinesStayWhole(stripped);
      SplitOfNormal(lines);
      TrimmedLinesArePlain(stripped, Split(Join(lines)));
      PlainLinesAreKept(Split(Join(lines)));
    } else {
      NormalisingTwiceIsOnce(text);
    }
  }

  // ---------------------------------------------------------------------------------------
  // Python: exactly when canonical twice is canonical once.
  // ---------------------------------------------------------------------------------------

  predicate HidesCommentAt(line: string, q: nat, r: nat, e: nat) {
    && q < r < e <= |line|
    && Opener(line, q) && NoTerminator(line[q..r]) && IsTerminator(line[r])
    && (forall k | r <= k < e :: IsSpace(line[k]))
    && (e == |line| || (line[e] == '#' && NoTerminator(line[e..])))
  }

  /**
   * A comment that the expression misses because a terminator ends its text, where nothing but white
   * space follows up to the end of the line or up to a comment that is stripped. Once that white
   * space is trimmed, the missed comment is exposed.
   */
  ghost predicate HidesComment(line: string) {
    exists q: nat, r: nat, e: nat :: HidesCommentAt(line, q, r, e)
  }

  function Treated(line: string): string {
    TrimEnd(StripPythonLine(line))
  }

  lemma LiveInPrefix(line: string, n: nat, q: nat)
    requires n <= |line|
    ensures Live(line[..n], q) <==> q < n && Opener(line, q) && forall k | q < k < n :: !IsTerminator(line[k])
  {
  }

  lemma HiddenEndsAtFirstLive(line: string, q: nat, r: nat, e: nat)
    requires HidesCommentAt(line, q, r, e)
    ensures FirstLive(line, 0) == e
  {
    assert line == line[..|line|];
    forall k: nat | Live(line, k)
      ensures e <= k
    {
      LiveInPrefix(line, |line|, k);
    }
    if e < |line| {
      forall k | e < k < |line|
        ensures !IsTerminator(line[k])
      {
        assert line[e..][k - e] == line[k];
      }
      LiveInPrefix(line, |line|, e);
      assert Live(line, e);
    }
  }

  lemma HiddenIsExposed(line: string)
    requires HidesComment(line)
    ensures |StripPythonLine(Treated(line))| < |Treated(line)|
  {
    var q: nat, r: nat, e: nat :| HidesCommentAt(line, q, r, e);
    HiddenEndsAtFirstLive(line, q, r, e);
    var o, t := StripPythonLine(line), Treated(line);
    assert o == line[..e] && t == line[..|t|];
    assert o[q] == '#';
    assert q < |t|;
    assert |t| <= r;
    forall k | q < k < |t|
      ensures !IsTerminator(line[k])
    {
      assert line[q..r][k - q] == line[k];
    }
    LiveInPrefix(line, |t|, q);
    assert Live(t, q);
  }

  function FirstTerminator(line: string, from: nat): (r: nat)
    requires from <= |line|
    ensures from <= r <= |line|
    ensures r < |line| ==> IsTerminator(line[r])
    ensures forall k | from <= k < r :: !IsTerminator(line[k])
    decreases |line| - from
  {
    if from == |line| || IsTerminator(line[from]) then from else FirstTerminator(line, from + 1)
  }

  lemma NoneBetween(line: string, a: nat, b: nat)
    requires a <= b <= |line| && forall k | a <= k < b :: !IsTerminator(line[k])
    ensures NoTerminator(line[a..b])
  {
    assert forall k | 0 <= k < b - a :: line[a..b][k] == line[a + k];
  }

  /** What treating a line cuts off: white space before the first live opener, and the rest. */
  lemma TreatedIsPrefix(line: string)
    ensures var t, e := Treated(line), FirstLive(line, 0);
            |t| <= e && t == line[..|t|] && forall k | |t| <= k < e :: IsSpace(line[k])
  {
    var e := FirstLive(line, 0);
    assert forall k | 0 <= k < e :: line[..e][k] == line[k];
  }

  /** An opener that is live in the treated line, and was not in the line, ends at a terminator in between. */
  lemma ExposedEndsBefore(line: string, q: nat) returns (r: nat)
    requires q < |Treated(line)| && Live(Treated(line), q)
    ensures q < r < FirstLive(line, 0) && Opener(line, q) && IsTerminator(line[r])
    ensures |Treated(line)| <= r && NoTerminator(line[q..r])
  {
    var n, e := |Treated(line)|, FirstLive(line, 0);
    TreatedIsPrefix(line);
    LiveInPrefix(line, n, q);
    assert line == line[..|line|] && !Live(line, q);
    LiveInPrefix(line, |line|, q);
    r := FirstTerminator(line, n);
    if e < |line| { LiveInPrefix(line, |line|, e); }
    NoneBetween(line, q, r);
  }

  lemma ExposedWasHidden(line: string)
    requires StripPythonLine(Treated(line)) != Treated(line)
    ensures HidesComment(line)
  {
    var q, e := FirstLive(Treated(line), 0), FirstLive(line, 0);
    assert q < |Treated(line)| by {
      assert Treated(line)[..|Treated(line)|] == Treated(line);
    }
    var r := ExposedEndsBefore(line, q);
    TreatedIsPrefix(line);
    if e < |line| {
      assert line == line[..|line|];
      LiveInPrefix(line, |line|, e);
      NoneBetween(line, e, |line|);
      assert line[e..|line|] == line[e..];
    }
    assert HidesCommentAt(line, q, r, e);
  }

  /** The lines of a canonical Python text are the treated lines, blanks aside. */
  lemma CanonicalPythonLines(text: string) returns (lines: seq<string>)
    ensures lines == NormalLines(StripPython(Split(text)))
    ensures NormalForm(lines) && Canonical(text, Python) == Join(lines)
    ensures Split(Join(lines)) == if lines == [] then [""] else lines
    ensures NormalLines(Split(Join(lines))) == lines
    ensures SameText(lines, TrimAll(StripPython(Split(text))))
  {
    var source := Split(text);
    var stripped := StripPython(source);
    forall l | l in stripped
      ensures '\n' !in l
    {
      var k :| 0 <= k < |stripped| && stripped[k] == l;
      assert source[k] in source;
    }
    SplitJoin(stripped);
    lines := NormalLines(stripped);
    NormalLinesFacts(stripped);
    LinesStayWhole(stripped);
    SplitOfNormal(lines);
  }

  /** A line of the first result comes from a source line; if that hid nothing, stripping leaves it alone. */
  lemma TreatedLineIsStable(source: seq<string>, line: string)
    requires forall l | l in source :: !HidesComment(l)
    requires line in TrimAll(StripPython(source))
    ensures StripPythonLine(line) == line
  {
    var trimmed := TrimAll(StripPython(source));
    var j :| 0 <= j < |trimmed| && trimmed[j] == line;
    assert source[j] in source && line == Treated(source[j]);
    if StripPythonLine(line) != line { ExposedWasHidden(source[j]); }
  }

  /** A normal form that stripping leaves alone comes back. */
  lemma StableLinesComeBack(lines: seq<string>)
    requires Split(Join(lines)) == (if lines == [] then [""] else lines)
    requires NormalLines(Split(Join(lines))) == lines
    requires forall l | l in lines :: StripPythonLine(l) == l
    ensures Canonical(Join(lines), Python) == Join(lines)
  {
    var again := Split(Join(lines));
    assert forall k | 0 <= k < |again| :: StripPythonLine(again[k]) == again[k];
    assert StripPython(again) == again;
    SplitJoin(again);
  }

  lemma NothingHiddenIsStable(text: string)
    requires forall l | l in Split(text) :: !HidesComment(l)
    ensures Canonical(Canonical(text, Python), Python) == Canonical(text, Python)
  {
    var lines := CanonicalPythonLines(text);
    forall l | l in lines
      ensures StripPythonLine(l) == l
    {
      if l != "" { TreatedLineIsStable(Split(text), l); }
    }
    StableLinesComeBack(lines);
  }

  /** A normal form with a line that stripping shortens does not come back. */
  lemma ShortenedLineChangesText(lines: seq<string>, k: nat)
    requires k < |lines| && |StripPythonLine(lines[k])| < |lines[k]|
    ensures NormalLines(StripPython(lines)) != lines
  {
    TotalPointwise(StripPython(lines), lines);
    NormalLinesFacts(StripPython(lines));
  }

  lemma TreatedLineStays(source: seq<string>, lines: seq<string>, l: string)
    requires SameText(lines, TrimAll(StripPython(source))) && l in source && Treated(l) != ""
    ensures Treated(l) in lines
  {
  }

  lemma HiddenIsUnstable(text: string, l: string)
    requires l in Split(text) && HidesComment(l)
    ensures Canonical(Canonical(text, Python), Python) != Canonical(text, Python)
  {
    var lines := CanonicalPythonLines(text);
    HiddenIsExposed(l);
    TreatedLineStays(Split(text), lines, l);
    var k :| 0 <= k < |lines| && lines[k] == Treated(l);
    ShortenedLineChangesText(lines, k);
    var twice := CanonicalPythonLines(Join(lines));
    assert twice == NormalLines(StripPython(lines));
  }

  /** Treating a Python text twice changes nothing more, exactly when no line of it hides a comment. */
  lemma PythonTwiceIsOnceExactly(text: string)
    ensures Canonical(Canonical(text, Python), Python) == Canonical(text, Python)
            <==> forall l | l in Split(text) :: !HidesComment(l)
  {
    if l :| l in Split(text) && HidesComment(l) {
      HiddenIsUnstable(text, l);
    } else {
      NothingHiddenIsStable(text);
    }
  }

  /** A comment on a line that ends in a carriage return survives the first treatment and not the second. */
  lemma CarriageReturnHidesComment()
    ensures HidesComment("# a\r")
  {
    assert HidesCommentAt("# a\r", 0, 3, 4);
  }
}
