/**
 * `parseDiffToChanges` of services/codeService.js: turns a model's answer
 * into file changes. The answer is cut at every "```diff"; each non-empty
 * piece must open with `path (lines X-Y)` and contain a hunk header
 * `@@ -O,L +N,M @@`; its content is every line that starts with "+" or " ",
 * without that first character.
 */
module DiffParser {
  import opened Wrappers
  import opened Text
  import opened Regex

  /** The literal the answer is split on. */
  const DiffFence: String := "```diff"

  /** `\s+\(lines\s+(\d+)-(\d+)\)`: what must follow the lazily captured path. */
  const LineRangeTail: Pattern :=
    [Plus(Space)] + (Word("(lines") + ([Plus(Space)] + ([Plus(Digit)] + (Word("-") + ([Plus(Digit)] + Word(")"))))))

  /** `@@ -(\d+),\d+ \+(\d+),\d+ @@`, searched anywhere in the piece. */
  const HunkHeader: Pattern :=
    Word("@@ -") + ([Plus(Digit)] + (Word(",") + ([Plus(Digit)] + (Word(" +") + HunkNewRange))))

  /** `(\d+),\d+ @@`: the part of the hunk header after the "+". */
  const HunkNewRange: Pattern :=
    [Plus(Digit)] + (Word(",") + ([Plus(Digit)] + Word(" @@")))

  /** One change to commit: the file, its new content, and an original that the parser never fills in. */
  datatype FileChange = FileChange(filePath: String, content: String, originalContent: Option<String>)

  lemma GatePatternsUnambiguous()
    ensures Unambiguous(LineRangeTail) && Unambiguous(HunkHeader)
  {
    RangeTailUnambiguous();
    HunkHeaderUnambiguous();
  }

  lemma RangeTailUnambiguous()
    ensures Unambiguous(LineRangeTail) && NoDigitLiterals(LineRangeTail)
  {
  }

  lemma HunkHeaderUnambiguous()
    ensures Unambiguous(HunkHeader) && NoDigitLiterals(HunkHeader)
  {
  }

  /**
   * The lazy capture `^(.+?)` tries path lengths `k`, `k + 1`, ... and
   * stops at the first one after which the line range matches, or at the
   * first line terminator, which `.` does not match.
   */
  function PathEndFrom(piece: String, k: nat): (r: Option<nat>)
    requires 1 <= k <= |piece| + 1
    decreases |piece| + 1 - k
    ensures r.Some? ==> k <= r.value <= |piece| && NoLineTerminator(piece[k - 1..r.value])
    ensures r.Some? ==> MatchAt(piece, r.value, LineRangeTail)
    ensures r.Some? ==> forall j :: k <= j < r.value ==> !MatchAt(piece, j, LineRangeTail)
    ensures r.None? ==> forall j :: k <= j <= |piece| && NoLineTerminator(piece[k - 1..j]) ==> !MatchAt(piece, j, LineRangeTail)
  {
    if k > |piece| || IsLineTerminator(piece[k - 1]) then None
    else if MatchAt(piece, k, LineRangeTail) then Some(k)
    else
      var r := PathEndFrom(piece, k + 1);
      assert forall j :: k < j <= |piece| && NoLineTerminator(piece[k - 1..j]) ==> NoLineTerminator(piece[k..j]) by {
        forall j | k < j <= |piece| && NoLineTerminator(piece[k - 1..j]) ensures NoLineTerminator(piece[k..j]) {
          assert forall t :: 0 <= t < j - k ==> piece[k..j][t] == piece[k - 1..j][t + 1];
        }
      }
      assert r.Some? ==> piece[k - 1..r.value] == [piece[k - 1]] + piece[k..r.value];
      r
  }

  /** The length of the path captured by `^(.+?)\s+\(lines\s+(\d+)-(\d+)\)`, if the piece matches at all. */
  function PathEnd(piece: String): (r: Option<nat>)
    ensures r.Some? ==> 1 <= r.value <= |piece| && NoLineTerminator(piece[..r.value])
    ensures r.Some? ==> MatchAt(piece, r.value, LineRangeTail)
    ensures r.Some? ==> forall j :: 1 <= j < r.value ==> !MatchAt(piece, j, LineRangeTail)
    ensures r.None? ==> forall j :: 1 <= j <= |piece| && NoLineTerminator(piece[..j]) ==> !MatchAt(piece, j, LineRangeTail)
  {
    assert forall j :: 0 <= j <= |piece| ==> piece[0..j] == piece[..j];
    PathEndFrom(piece, 1)
  }

  /** The regular expression's own reading of a capture of length `k`: the shortest single-line prefix after which the rest matches. */
  ghost predicate LazyCapture(piece: String, k: nat) {
    && 1 <= k <= |piece| && NoLineTerminator(piece[..k]) && Matches(piece, k, LineRangeTail)
    && forall j :: 1 <= j < k ==> !Matches(piece, j, LineRangeTail)
  }

  lemma GateMatchesRegex(piece: String)
    ensures forall j :: 0 <= j <= |piece| ==> (MatchAt(piece, j, LineRangeTail) <==> Matches(piece, j, LineRangeTail))
  {
    GatePatternsUnambiguous();
    forall j | 0 <= j <= |piece| ensures MatchAt(piece, j, LineRangeTail) <==> Matches(piece, j, LineRangeTail) {
      MatchAtIsRegexMatch(piece, j, LineRangeTail);
    }
  }

  /** `PathEnd` decides the path gate as a backtracking regular-expression engine does. */
  lemma PathEndIsLazyMatch(piece: String, k: nat)
    ensures PathEnd(piece) == Some(k) <==> LazyCapture(piece, k)
  {
    GateMatchesRegex(piece);
    if LazyCapture(piece, k) {
      PathEndIsShortest(piece, k);
    }
  }

  /** `PathEnd` fails exactly when no single-line prefix is followed by a match of the rest of the expression. */
  lemma PathEndNoneIsNoMatch(piece: String)
    ensures PathEnd(piece).None? <==>
      forall j :: 1 <= j <= |piece| && NoLineTerminator(piece[..j]) ==> !Matches(piece, j, LineRangeTail)
  {
    GateMatchesRegex(piece);
  }

  /** Whether the hunk-header expression matches somewhere in the piece. */
  predicate HasHunkHeader(piece: String) {
    SearchFrom(piece, 0, HunkHeader)
  }

  /** What one line adds to the content, following the source's tests on its first characters. */
  function EmitLine(line: String): (r: String)
    ensures line != [] && (line[0] == '+' || line[0] == ' ') ==> r == line[1..] + "\n"
    ensures !(line != [] && (line[0] == '+' || line[0] == ' ')) ==> r == []
  {
    if StartsWith(line, "@@") then []
    else if StartsWith(line, "+") then line[1..] + "\n"
    else if StartsWith(line, "-") then []
    else if StartsWith(line, " ") then line[1..] + "\n"
    else []
  }

  /** The content accumulated over the lines, in order. */
  function Emitted(lines: seq<String>): String {
    FlatMap(EmitLine, lines)
  }

  /** Content accumulates line by line: the lines of two blocks contribute independently. */
  lemma EmittedConcat(a: seq<String>, b: seq<String>)
    ensures Emitted(a + b) == Emitted(a) + Emitted(b)
  {
    FlatMapConcat(EmitLine, a, b);
  }

  /** The change one piece yields, if any. */
  function ParsePiece(piece: String): (r: Option<FileChange>)
    ensures r.Some? ==> PathEnd(piece).Some? && HasHunkHeader(piece)
    ensures r.Some? ==> r.value.originalContent.None?
    ensures r.Some? ==> r.value.content != [] && Trim(r.value.content) == r.value.content
    ensures r.Some? ==> Trim(r.value.filePath) == r.value.filePath && NoLineTerminator(r.value.filePath)
  {
    match PathEnd(piece)
    case None => None
    case Some(k) =>
      if !HasHunkHeader(piece) then None
      else
        var content := Emitted(Split(piece, "\n"));
        if Trim(content) == [] then None
        else
          var filePath := Trim(piece[..k]);
          TrimIdempotent(content);
          TrimIdempotent(piece[..k]);
          TrimOneLine(piece[..k]);
          Some(FileChange(filePath, Trim(content), None))
  }

  /** `filter(Boolean)`: the pieces that are not empty strings, in order. */
  function NonEmpty(parts: seq<String>): (r: seq<String>)
    ensures |r| <= |parts|
    ensures forall p :: p in r <==> p in parts && p != []
  {
    if parts == [] then []
    else
      var init := NonEmpty(parts[..|parts| - 1]);
      var last := parts[|parts| - 1];
      assert parts == parts[..|parts| - 1] + [last];
      if last == [] then init else init + [last]
  }

  /** The changes of the pieces, one at most per piece, in piece order. */
  function Collect(pieces: seq<String>): (r: seq<FileChange>)
    ensures |r| <= |pieces|
  {
    FilterMap(ParsePiece, pieces)
  }

  /** Every change comes from a piece that yields exactly it. */
  lemma CollectOrigins(pieces: seq<String>)
    ensures forall c :: c in Collect(pieces) ==> exists p :: p in pieces && ParsePiece(p) == Some(c)
  {
    FilterMapOrigins(ParsePiece, pieces);
  }

  /** Pieces contribute independently, and in their order. */
  lemma CollectConcat(a: seq<String>, b: seq<String>)
    ensures Collect(a + b) == Collect(a) + Collect(b)
  {
    FilterMapConcat(ParsePiece, a, b);
  }

  /** The whole parse. */
  function ParseDiff(diffText: String): seq<FileChange> {
    Collect(NonEmpty(Split(diffText, DiffFence)))
  }

  /** One iteration of the outer loop: both gates, then the line loop. */
  method ParseFileChange(fileChange: String) returns (change: Option<FileChange>)
    ensures change == ParsePiece(fileChange)
  {
    var pathEnd := PathEnd(fileChange);
    if pathEnd.None? {
      return None;
    }
    var filePath := Trim(fileChange[..pathEnd.value]);
    if !SearchFrom(fileChange, 0, HunkHeader) {
      return None;
    }
    var lines := Split(fileChange, "\n");
    var content := "";
    for j := 0 to |lines|
      invariant content == Emitted(lines[..j])
    {
      var line := lines[j];
      assert lines[..j + 1] == lines[..j] + [line];
      FlatMapSnoc(EmitLine, lines[..j], line);
      if StartsWith(line, "@@") {
        continue;
      }
      if StartsWith(line, "+") {
        content := content + line[1..] + "\n";
      } else if StartsWith(line, "-") {
      } else if StartsWith(line, " ") {
        content := content + line[1..] + "\n";
      }
    }
    assert lines[..|lines|] == lines;
    if Trim(content) != [] {
      change := Some(FileChange(filePath, Trim(content), None));
    } else {
      change := None;
    }
  }

  /** `parseDiffToChanges` */
  method ParseDiffToChanges(diffText: String) returns (changes: seq<FileChange>)
    ensures changes == ParseDiff(diffText)
  {
    var fileChanges := NonEmpty(Split(diffText, DiffFence));
    changes := [];
    for i := 0 to |fileChanges|
      invariant changes == Collect(fileChanges[..i])
    {
      var change := ParseFileChange(fileChanges[i]);
      assert fileChanges[..i + 1] == fileChanges[..i] + [fileChanges[i]];
      FilterMapSnoc(ParsePiece, fileChanges[..i], fileChanges[i]);
      if change.Some? {
        changes := changes + [change.value];
      }
    }
    assert fileChanges[..|fileChanges|] == fileChanges;
  }

  /** Without a "+" there is no hunk header (`@@ -1,5 @@` is not one), hence no change. */
  lemma MissingNewRangeSkipped(piece: String)
    requires '+' !in piece
    ensures !HasHunkHeader(piece) && ParsePiece(piece) == None
  {
    assert Lit('+') in HunkHeader by { assert HunkHeader[8] == Lit('+'); }
    forall k | 0 <= k <= |piece| ensures !MatchAt(piece, k, HunkHeader) {
      if MatchAt(piece, k, HunkHeader) {
        MatchAtReadsLiteral(piece, k, HunkHeader, '+');
      }
    }
  }

  /** A piece opening with a line break never has a path: the gate is anchored and `.` stops at line terminators. */
  lemma LineBreakFirstSkipped(piece: String)
    requires piece != [] && IsLineTerminator(piece[0])
    ensures PathEnd(piece).None? && ParsePiece(piece) == None
  {
  }

  /**
   * An answer made of "```diff" directly followed by a line break, as in a
   * fenced code block, yields no change at all: its one piece opens with the
   * line break.
   */
  lemma FencedBlockYieldsNothing(body: String)
    requires body != [] && IsLineTerminator(body[0]) && !Contains(body, DiffFence)
    ensures ParseDiff(DiffFence + body) == []
  {
    var text := DiffFence + body;
    assert OccursAt(text, DiffFence, 0) by { assert text[..|DiffFence|] == DiffFence; }
    assert text[|DiffFence|..] == body;
    SplitWithoutSeparator(body, DiffFence);
    assert Split(text, DiffFence) == [[], body];
    assert NonEmpty([[], body]) == [body] by {
      assert [[], body][..1] == [[]];
      assert NonEmpty([[]]) == [];
    }
    LineBreakFirstSkipped(body);
    assert [body][..0] == [];
  }

  /** Which pieces pass the two gates does not depend on the values of any digits. */
  lemma GatesIgnoreDigitValues(p: String, q: String)
    requires SameUpToDigits(p, q)
    ensures PathEnd(p) == PathEnd(q) && HasHunkHeader(p) == HasHunkHeader(q)
  {
    RangeTailUnambiguous();
    HunkHeaderUnambiguous();
    forall k | 0 <= k <= |p| ensures MatchAt(p, k, LineRangeTail) == MatchAt(q, k, LineRangeTail)
      && MatchAt(p, k, HunkHeader) == MatchAt(q, k, HunkHeader)
    {
      MatchAtIgnoresDigitValues(p, q, k, LineRangeTail);
      MatchAtIgnoresDigitValues(p, q, k, HunkHeader);
    }
    PathEndFromIgnoresDigits(p, q, 1);
    assert PathEnd(p) == PathEndFrom(p, 1) && PathEnd(q) == PathEndFrom(q, 1);
    SearchIgnoresDigits(p, q, 0);
  }

  lemma {:induction false} PathEndFromIgnoresDigits(p: String, q: String, k: nat)
    requires SameUpToDigits(p, q) && 1 <= k <= |p| + 1
    requires forall j :: k <= j <= |p| ==> MatchAt(p, j, LineRangeTail) == MatchAt(q, j, LineRangeTail)
    ensures PathEndFrom(p, k) == PathEndFrom(q, k)
    decreases |p| + 1 - k
  {
    if k <= |p| {
      assert IsLineTerminator(p[k - 1]) == IsLineTerminator(q[k - 1]);
      PathEndFromIgnoresDigits(p, q, k + 1);
    }
  }

  lemma {:induction false} SearchIgnoresDigits(p: String, q: String, k: nat)
    requires SameUpToDigits(p, q) && k <= |p|
    requires forall j :: k <= j <= |p| ==> MatchAt(p, j, HunkHeader) == MatchAt(q, j, HunkHeader)
    ensures SearchFrom(p, k, HunkHeader) == SearchFrom(q, k, HunkHeader)
    decreases |p| - k
  {
    if k < |p| {
      SearchIgnoresDigits(p, q, k + 1);
    }
  }

  /** The first line of a well-formed block: `path (lines X-Y)`. */
  function RangeLine(path: String, x: String, y: String): String {
    path + " (lines " + x + "-" + y + ")"
  }

  /** The hunk header line `@@ -O,L +N,M @@`. */
  function HunkLine(o: String, l: String, n: String, m: String): String {
    "@@ -" + o + "," + l + " +" + n + "," + m + " @@"
  }

  predicate Number(s: String) {
    s != [] && AllDigits(s)
  }

  /** A path the lazy capture takes whole: one line, no "(", not ending in whitespace, not read as a content line. */
  predicate PlainPath(path: String) {
    && path != [] && NoLineTerminator(path) && '(' !in path
    && !IsSpace(path[|path| - 1]) && path[0] != '+' && path[0] != ' '
  }

  /**
   * A well-formed block yields the trimmed path and the trimmed content of
   * its body, whatever the line numbers X, Y, O, L, N and M are; and nothing
   * when that content is blank.
   */
  lemma WellFormedPiece(path: String, x: String, y: String, o: String, l: String, n: String, m: String, body: String)
    requires PlainPath(path)
    requires Number(x) && Number(y) && Number(o) && Number(l) && Number(n) && Number(m)
    ensures var content := Emitted(Split(body, "\n"));
      ParsePiece(RangeLine(path, x, y) + "\n" + HunkLine(o, l, n, m) + "\n" + body)
        == if Trim(content) == [] then None else Some(FileChange(Trim(path), Trim(content), None))
  {
    var a := RangeLine(path, x, y);
    var h := HunkLine(o, l, n, m);
    var piece := a + "\n" + h + "\n" + body;
    var afterA := h + "\n" + body;
    assert piece == a + ['\n'] + afterA;
    PathGate(path, x, y, ['\n'] + afterA);
    assert a + (['\n'] + afterA) == piece;
    HunkGate(a + "\n", o, l, n, m, "\n" + body);
    assert (a + "\n") + (h + ("\n" + body)) == piece;
    assert piece[..|path|] == path;
    RangeLineOneLine(path, x, y);
    HunkLineOneLine(o, l, n, m);
    assert a[0] == path[0] && h[0] == '@';
    HeaderLinesEmitNothing(a, h, body);
  }

  /** Two leading lines that are neither "+" nor " " lines add nothing to the content. */
  lemma HeaderLinesEmitNothing(a: String, h: String, body: String)
    requires '\n' !in a && '\n' !in h
    requires a != [] && a[0] != '+' && a[0] != ' ' && h != [] && h[0] != '+' && h[0] != ' '
    ensures Emitted(Split(a + "\n" + h + "\n" + body, "\n")) == Emitted(Split(body, "\n"))
  {
    SplitTwoLines(a, h, body);
    SkipSilentLines(a, h, Split(body, "\n"));
  }

  lemma SplitTwoLines(a: String, h: String, body: String)
    requires '\n' !in a && '\n' !in h
    ensures Split(a + "\n" + h + "\n" + body, "\n") == [a, h] + Split(body, "\n")
  {
    var afterA := h + "\n" + body;
    assert a + "\n" + h + "\n" + body == a + ['\n'] + afterA;
    SplitFirstPiece(a, '\n', afterA);
    assert afterA == h + ['\n'] + body;
    SplitFirstPiece(h, '\n', body);
  }

  lemma SkipSilentLines(a: String, h: String, lines: seq<String>)
    requires EmitLine(a) == [] && EmitLine(h) == []
    ensures Emitted([a, h] + lines) == Emitted(lines)
  {
    EmittedConcat([a, h], lines);
    FlatMapSnoc(EmitLine, [], a);
    assert [] + [a] == [a] && [a] + [h] == [a, h];
    FlatMapSnoc(EmitLine, [a], h);
  }

  /** In a block opening with a plain path and its line range, the path gate captures exactly the path. */
  lemma PathGate(path: String, x: String, y: String, rest: String)
    requires PlainPath(path) && Number(x) && Number(y)
    ensures PathEnd(RangeLine(path, x, y) + rest) == Some(|path|)
  {
    var piece := RangeLine(path, x, y) + rest;
    assert piece[..|path|] == path;
    RangeLineMatches(path, x, y, rest);
    forall k | 1 <= k < |path| ensures !MatchAt(piece, k, LineRangeTail) {
      NoEarlierRange(path, piece, k);
    }
    PathEndIsShortest(piece, |path|);
  }

  /** The line range after the path matches the tail of the path gate. */
  lemma RangeLineMatches(path: String, x: String, y: String, rest: String)
    requires Number(x) && Number(y)
    ensures MatchAt(RangeLine(path, x, y) + rest, |path|, LineRangeTail)
  {
    var t6 := ")" + rest;
    var t5 := y + t6;
    var t4 := "-" + t5;
    var t3 := x + t4;
    var t2 := " " + t3;
    var t1 := "(lines" + t2;
    var t0 := " " + t1;
    assert RangeLine(path, x, y) + rest == path + t0;
    var r6 := Word(")");
    var r5 := [Plus(Digit)] + r6;
    var r4 := Word("-") + r5;
    var r3 := [Plus(Digit)] + r4;
    var r2 := [Plus(Space)] + r3;
    var r1 := Word("(lines") + r2;
    assert LineRangeTail == [Plus(Space)] + r1;
    MatchAtShift(path, t0, 0, LineRangeTail);
    MatchRunPrefix(" ", t1, Space, r1);
    MatchWordPrefix("(lines", t2, r2);
    MatchRunPrefix(" ", t3, Space, r3);
    MatchRunPrefix(x, t4, Digit, r4);
    MatchWordPrefix("-", t5, r5);
    MatchRunPrefix(y, t6, Digit, r6);
    assert r6 + [] == r6;
    MatchWordPrefix(")", rest, []);
  }

  /** A hunk-header line matches the hunk-header expression where it starts. */
  lemma HunkGate(pre: String, o: String, l: String, n: String, m: String, rest: String)
    requires Number(o) && Number(l) && Number(n) && Number(m)
    ensures MatchAt(pre + (HunkLine(o, l, n, m) + rest), |pre|, HunkHeader)
    ensures HasHunkHeader(pre + (HunkLine(o, l, n, m) + rest))
  {
    var t5 := n + ("," + (m + (" @@" + rest)));
    var t4 := " +" + t5;
    var t3 := l + t4;
    var t2 := "," + t3;
    var t1 := o + t2;
    var t0 := "@@ -" + t1;
    assert HunkLine(o, l, n, m) + rest == t0;
    var r4 := Word(" +") + HunkNewRange;
    var r3 := [Plus(Digit)] + r4;
    var r2 := Word(",") + r3;
    var r1 := [Plus(Digit)] + r2;
    MatchAtShift(pre, t0, 0, HunkHeader);
    MatchWordPrefix("@@ -", t1, r1);
    MatchRunPrefix(o, t2, Digit, r2);
    MatchWordPrefix(",", t3, r3);
    MatchRunPrefix(l, t4, Digit, r4);
    MatchWordPrefix(" +", t5, HunkNewRange);
    NewRangeMatches(n, m, rest);
  }

  lemma NewRangeMatches(n: String, m: String, rest: String)
    requires Number(n) && Number(m)
    ensures MatchAt(n + ("," + (m + (" @@" + rest))), 0, HunkNewRange)
  {
    var t3 := " @@" + rest;
    var t2 := m + t3;
    var t1 := "," + t2;
    var r3 := Word(" @@");
    var r2 := [Plus(Digit)] + r3;
    var r1 := Word(",") + r2;
    MatchRunPrefix(n, t1, Digit, r1);
    MatchWordPrefix(",", t2, r2);
    MatchRunPrefix(m, t3, Digit, r3);
    assert r3 + [] == r3;
    MatchWordPrefix(" @@", rest, []);
  }

  /** Inside a plain path no shorter capture can be followed by the line range. */
  lemma NoEarlierRange(path: String, piece: String, k: nat)
    requires PlainPath(path) && |path| <= |piece| && piece[..|path|] == path
    requires 1 <= k < |path|
    ensures !MatchAt(piece, k, LineRangeTail)
  {
    var r1 := Word("(lines") + ([Plus(Space)] + ([Plus(Digit)] + (Word("-") + ([Plus(Digit)] + Word(")")))));
    assert LineRangeTail == [Plus(Space)] + r1;
    assert piece[k] == path[k];
    if IsSpace(piece[k]) {
      var tail := path[k..];
      var q := k + LeadingSpaces(tail);
      assert tail[|tail| - 1] == path[|path| - 1];
      assert q < |path|;
      assert piece[q] == path[q] == tail[q - k];
      assert AllIn(Space, piece, k, q) by {
        forall t | k <= t < q ensures IsSpace(piece[t]) {
          assert piece[t] == path[t] == tail[t - k];
        }
      }
      MatchRun(piece, k, q - k, Space, r1);
      assert path[q] != '(';
    }
  }

  /** A capture of length `k` that matches, with none shorter, is what `PathEnd` returns. */
  lemma PathEndIsShortest(piece: String, k: nat)
    requires 1 <= k <= |piece| && NoLineTerminator(piece[..k]) && MatchAt(piece, k, LineRangeTail)
    requires forall j :: 1 <= j < k ==> !MatchAt(piece, j, LineRangeTail)
    ensures PathEnd(piece) == Some(k)
  {
  }

  lemma RangeLineOneLine(path: String, x: String, y: String)
    requires NoLineTerminator(path) && AllDigits(x) && AllDigits(y)
    ensures '\n' !in RangeLine(path, x, y)
  {
    NoNewline(path);
    NoNewline(x);
    NoNewline(y);
  }

  lemma HunkLineOneLine(o: String, l: String, n: String, m: String)
    requires AllDigits(o) && AllDigits(l) && AllDigits(n) && AllDigits(m)
    ensures '\n' !in HunkLine(o, l, n, m)
  {
    NoNewline(o);
    NoNewline(l);
    NoNewline(n);
    NoNewline(m);
  }

  lemma NoNewline(s: String)
    requires NoLineTerminator(s) || AllDigits(s)
    ensures '\n' !in s
  {
    forall t | 0 <= t < |s| ensures s[t] != '\n' {
    }
  }
}
