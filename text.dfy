/**
 * The JavaScript string operations the services rely on, over strings as
 * sequences of characters: `split` on a literal separator, `join`, `trim`,
 * `includes`, `startsWith`, ASCII `toLowerCase`, and the character classes
 * behind the regular expressions `\s`, `.`, `\d` and `[a-zA-Z]`.
 */
module Text {
  import opened Wrappers

  type String = seq<char>

  /** ECMAScript WhiteSpace and LineTerminator: what `\s` matches and what `trim` removes. */
  predicate IsSpace(c: char) {
    || c == '\t' || c == '\n' || c == '\U{000B}' || c == '\U{000C}' || c == '\r' || c == ' '
    || c == '\U{00A0}' || c == '\U{1680}' || ('\U{2000}' <= c <= '\U{200A}')
    || c == '\U{2028}' || c == '\U{2029}' || c == '\U{202F}' || c == '\U{205F}'
    || c == '\U{3000}' || c == '\U{FEFF}'
  }

  /** The characters a regular-expression `.` does not match when the `s` flag is absent. */
  predicate IsLineTerminator(c: char) {
    c == '\n' || c == '\r' || c == '\U{2028}' || c == '\U{2029}'
  }

  predicate IsDigit(c: char) { '0' <= c <= '9' }

  predicate IsAsciiLetter(c: char) { 'a' <= c <= 'z' || 'A' <= c <= 'Z' }

  predicate AllDigits(s: String) { forall k :: 0 <= k < |s| ==> IsDigit(s[k]) }

  predicate AllSpaces(s: String) { forall k :: 0 <= k < |s| ==> IsSpace(s[k]) }

  predicate NoLineTerminator(s: String) { forall k :: 0 <= k < |s| ==> !IsLineTerminator(s[k]) }

  predicate StartsWith(s: String, prefix: String) {
    |prefix| <= |s| && s[..|prefix|] == prefix
  }

  /** `sep` occurs in `s` at index `i`. */
  predicate OccursAt(s: String, sep: String, i: nat) {
    i + |sep| <= |s| && s[i..i + |sep|] == sep
  }

  /** `s.indexOf(sep, i)`, as an option. */
  function FindFrom(s: String, sep: String, i: nat): (r: Option<nat>)
    requires i <= |s|
    decreases |s| - i
    ensures r.Some? ==> i <= r.value <= |s| && OccursAt(s, sep, r.value)
    ensures r.Some? ==> forall j :: i <= j < r.value ==> !OccursAt(s, sep, j)
    ensures r.None? ==> forall j :: i <= j <= |s| ==> !OccursAt(s, sep, j)
  {
    if OccursAt(s, sep, i) then Some(i)
    else if i == |s| then None
    else FindFrom(s, sep, i + 1)
  }

  /** `s.includes(sub)` */
  function Contains(s: String, sub: String): (r: bool)
    ensures r <==> exists i :: 0 <= i <= |s| && OccursAt(s, sub, i)
  {
    FindFrom(s, sub, 0).Some?
  }

  /**
   * `s.split(sep)` for a non-empty literal separator: the pieces between the
   * non-overlapping occurrences of `sep`, scanning from the left.
   */
  function Split(s: String, sep: String): (parts: seq<String>)
    requires sep != []
    ensures |parts| >= 1
    decreases |s|
  {
    match FindFrom(s, sep, 0)
    case None => [s]
    case Some(i) => [s[..i]] + Split(s[i + |sep|..], sep)
  }

  /** `parts.join(sep)` */
  function Join(parts: seq<String>, sep: String): String {
    if parts == [] then []
    else if |parts| == 1 then parts[0]
    else parts[0] + sep + Join(parts[1..], sep)
  }

  /** Joining the pieces of a split with the same separator gives the original string back. */
  lemma {:induction false} JoinSplit(s: String, sep: String)
    requires sep != []
    ensures Join(Split(s, sep), sep) == s
    decreases |s|
  {
    match FindFrom(s, sep, 0)
    case None =>
    case Some(i) =>
      var rest := s[i + |sep|..];
      var tail := Split(rest, sep);
      JoinSplit(rest, sep);
      assert Split(s, sep) == [s[..i]] + tail;
      JoinCons(s[..i], tail, sep);
      assert s[i..i + |sep|] == sep;
      assert s == s[..i] + sep + rest;
  }

  lemma JoinCons(head: String, tail: seq<String>, sep: String)
    requires tail != []
    ensures Join([head] + tail, sep) == head + sep + Join(tail, sep)
  {
    assert ([head] + tail)[1..] == tail;
  }

  /** `s || fallback` for a string: the empty string is falsy. */
  function OrElse(s: String, fallback: String): (r: String)
    ensures r != [] || fallback == []
    ensures s != [] ==> r == s
  {
    if s != [] then s else fallback
  }

  function Min(a: nat, b: nat): nat { if a <= b then a else b }

  /** `content.substring(0, limit) + (content.length > limit ? "..." : "")` */
  function Preview(content: String, limit: nat): (preview: String)
    ensures |content| <= limit ==> preview == content
    ensures content[..Min(|content|, limit)] <= preview
    ensures |content| > limit <==> |preview| == limit + 3
  {
    if |content| > limit then content[..limit] + "..." else content
  }

  function DigitChar(d: nat): (c: char)
    requires d < 10
    ensures IsDigit(c)
  {
    ('0' as int + d) as char
  }

  function DigitValue(c: char): nat
    requires IsDigit(c)
  {
    c as int - '0' as int
  }

  /** A number in a template literal: its decimal digits, with no leading zero unless it is 0. */
  function NatToString(n: nat): (s: String)
    ensures s != [] && AllDigits(s)
    ensures s[0] == '0' ==> n == 0
    decreases n
  {
    if n < 10 then [DigitChar(n)] else NatToString(n / 10) + [DigitChar(n % 10)]
  }

  /** The number a string of decimal digits denotes. */
  function DecimalValue(s: String): nat
    requires AllDigits(s)
  {
    if s == [] then 0 else DecimalValue(s[..|s| - 1]) * 10 + DigitValue(s[|s| - 1])
  }

  /** Printing a number and reading its digits back gives the number: distinct counts print differently. */
  lemma {:induction false} DecimalRoundTrip(n: nat)
    ensures DecimalValue(NatToString(n)) == n
    decreases n
  {
    var s := NatToString(n);
    if n >= 10 {
      DecimalRoundTrip(n / 10);
      assert s[..|s| - 1] == NatToString(n / 10);
    }
  }

  /** Joining one more part adds the separator and that part at the end. */
  lemma {:induction false} JoinSnoc(parts: seq<String>, last: String, sep: String)
    requires parts != []
    ensures Join(parts + [last], sep) == Join(parts, sep) + sep + last
    decreases |parts|
  {
    if |parts| == 1 {
      assert (parts + [last])[1..] == [last];
    } else {
      assert (parts + [last])[1..] == parts[1..] + [last];
      JoinSnoc(parts[1..], last, sep);
    }
  }

  /** No piece of a split contains the separator. */
  lemma {:induction false} SplitPiecesAvoidSeparator(s: String, sep: String)
    requires sep != []
    ensures forall p :: p in Split(s, sep) ==> !Contains(p, sep)
    decreases |s|
  {
    match FindFrom(s, sep, 0)
    case None =>
      assert Split(s, sep) == [s];
    case Some(i) =>
      var rest := s[i + |sep|..];
      SplitPiecesAvoidSeparator(rest, sep);
      var head := s[..i];
      forall j | 0 <= j <= |head| && OccursAt(head, sep, j)
        ensures false
      {
        OccursInPrefix(s, sep, i, j);
      }
  }

  /** An occurrence inside a prefix is an occurrence in the whole string. */
  lemma OccursInPrefix(s: String, sep: String, n: nat, j: nat)
    requires n <= |s| && OccursAt(s[..n], sep, j)
    ensures j + |sep| <= n && OccursAt(s, sep, j)
  {
    assert forall k :: j <= k < j + |sep| ==> s[..n][k] == s[k];
    assert s[j..j + |sep|] == s[..n][j..j + |sep|];
  }

  /** A string without the separator splits into itself alone. */
  lemma SplitWithoutSeparator(s: String, sep: String)
    requires sep != [] && !Contains(s, sep)
    ensures Split(s, sep) == [s]
  {
    assert FindFrom(s, sep, 0).None?;
  }

  /** How many times `c` occurs in `s`. */
  function CountChar(s: String, c: char): nat {
    multiset(s)[c]
  }

  /** Splitting on one character gives one more piece than there are occurrences of it. */
  lemma {:induction false} SplitCharCount(s: String, c: char)
    ensures |Split(s, [c])| == CountChar(s, c) + 1
    decreases |s|
  {
    match FindFrom(s, [c], 0)
    case None =>
      assert c !in multiset(s) by {
        if c in multiset(s) {
          var k :| 0 <= k < |s| && s[k] == c;
          assert OccursAt(s, [c], k);
        }
      }
    case Some(i) =>
      var rest := s[i + 1..];
      SplitCharCount(rest, c);
      FirstCharOccurrence(s, c, i);
      assert s == s[..i] + [c] + rest;
      assert multiset(s) == multiset(s[..i]) + multiset{c} + multiset(rest);
  }

  /** The first occurrence of a character is that character, and none comes before it. */
  lemma FirstCharOccurrence(s: String, c: char, i: nat)
    requires OccursAt(s, [c], i) && forall j :: 0 <= j < i ==> !OccursAt(s, [c], j)
    ensures i < |s| && s[i] == c && c !in multiset(s[..i])
  {
    assert s[i..i + 1][0] == s[i];
    if c in multiset(s[..i]) {
      var k :| 0 <= k < i && s[..i][k] == c;
      CharOccursAt(s, c, k);
    }
  }

  /** A character is a one-character separator occurring at its own position. */
  lemma CharOccursAt(s: String, c: char, k: nat)
    requires k < |s| && s[k] == c
    ensures OccursAt(s, [c], k)
  {
    assert s[k..k + 1] == [c];
  }

  /** A string whose first line holds no separator character splits into that line and the split of the rest. */
  lemma SplitFirstPiece(a: String, c: char, b: String)
    requires c !in a
    ensures Split(a + [c] + b, [c]) == [a] + Split(b, [c])
  {
    var s := a + [c] + b;
    forall j | 0 <= j < |a| ensures !OccursAt(a, [c], j) {
      assert a[j..j + 1] == [a[j]];
    }
    assert FindFrom(a, [c], 0).None?;
    FindCharAfterPrefix(a, c, b);
    SplitAt(s, [c], |a|);
    assert s[..|a|] == a && s[|a| + 1..] == b;
  }

  lemma SplitAt(s: String, sep: String, i: nat)
    requires sep != [] && FindFrom(s, sep, 0) == Some(i)
    ensures Split(s, sep) == [s[..i]] + Split(s[i + |sep|..], sep)
  {
  }

  lemma FindCharAfterPrefix(a: String, c: char, b: String)
    requires FindFrom(a, [c], 0).None?
    ensures FindFrom(a + [c] + b, [c], 0) == Some(|a|)
  {
    var s := a + [c] + b;
    assert OccursAt(s, [c], |a|) by { assert s[|a|..|a| + 1] == [c]; }
    forall j | 0 <= j < |a| ensures !OccursAt(s, [c], j) {
      assert s[j..j + 1] == a[j..j + 1];
      assert !OccursAt(a, [c], j);
    }
  }

  /** Index of the first character that is not whitespace (|s| when there is none). */
  function LeadingSpaces(s: String): (n: nat)
    ensures n <= |s|
    ensures forall k :: 0 <= k < n ==> IsSpace(s[k])
    ensures n < |s| ==> !IsSpace(s[n])
  {
    if s != [] && IsSpace(s[0]) then 1 + LeadingSpaces(s[1..]) else 0
  }

  /** Index where the trailing run of whitespace begins (0 when the string is all whitespace). */
  function TrailingStart(s: String): (n: nat)
    ensures n <= |s|
    ensures forall k :: n <= k < |s| ==> IsSpace(s[k])
    ensures n > 0 ==> !IsSpace(s[n - 1])
  {
    if s != [] && IsSpace(s[|s| - 1]) then TrailingStart(s[..|s| - 1]) else |s|
  }

  /** `s.trim()`: the string without its leading and trailing whitespace. */
  function Trim(s: String): (r: String)
    ensures r == [] <==> AllSpaces(s)
    ensures r != [] ==> !IsSpace(r[0]) && !IsSpace(r[|r| - 1])
    ensures r != [] ==> LeadingSpaces(s) < TrailingStart(s) && r == s[LeadingSpaces(s)..TrailingStart(s)]
  {
    var i := LeadingSpaces(s);
    if i == |s| then []
    else
      var j := TrailingStart(s);
      assert IsSpace(s[i]) == false;
      assert i < j;
      s[i..j]
  }

  /** Trimming a single line leaves a single line. */
  lemma TrimOneLine(s: String)
    requires NoLineTerminator(s)
    ensures NoLineTerminator(Trim(s))
  {
    var r := Trim(s);
    if r != [] {
      var i := LeadingSpaces(s);
      forall t | 0 <= t < |r| ensures !IsLineTerminator(r[t]) {
        assert r[t] == s[i + t];
      }
    }
  }

  /** Trimming twice is trimming once. */
  lemma TrimIdempotent(s: String)
    ensures Trim(Trim(s)) == Trim(s)
  {
    var r := Trim(s);
    if r != [] {
      assert LeadingSpaces(r) == 0;
      assert TrailingStart(r) == |r|;
      assert r[0..|r|] == r;
    }
  }

  /** Whitespace appended to a string does not change its trimmed form. */
  lemma {:induction false} TrimIgnoresTrailingSpaces(s: String, w: String)
    requires AllSpaces(w)
    ensures Trim(s + w) == Trim(s)
    decreases |w|
  {
    if w != [] {
      var s' := s + w[..|w| - 1];
      assert s + w == s' + [w[|w| - 1]];
      assert AllSpaces(w[..|w| - 1]);
      TrimIgnoresTrailingSpaces(s, w[..|w| - 1]);
      TrimDropLastSpace(s + w);
      assert (s + w)[..|s + w| - 1] == s';
      calc {
        Trim(s + w);
        Trim((s + w)[..|s + w| - 1]);
        Trim(s');
        Trim(s);
      }
    } else {
      assert s + w == s;
    }
  }

  lemma TrimDropLastSpace(s: String)
    requires s != [] && IsSpace(s[|s| - 1])
    ensures Trim(s) == Trim(s[..|s| - 1])
  {
    var t := s[..|s| - 1];
    if LeadingSpaces(t) < |t| {
      TrimDropLastSpaceOfText(s, t);
    } else {
      AllSpacesDropLast(s);
    }
  }

  /** The case of `TrimDropLastSpace` where some character is not whitespace: both trims are the same span. */
  lemma TrimDropLastSpaceOfText(s: String, t: String)
    requires s != [] && IsSpace(s[|s| - 1]) && t == s[..|s| - 1] && LeadingSpaces(t) < |t|
    ensures Trim(s) == Trim(t)
  {
    var i, j := LeadingSpaces(t), TrailingStart(t);
    DropLastSpaceSpans(s, t);
    TrimSpan(s);
    TrimSpan(t);
    PrefixSlice(s, |s| - 1, i, j);
  }

  /** Dropping a trailing space moves neither end of the trimmed span. */
  lemma DropLastSpaceSpans(s: String, t: String)
    requires s != [] && IsSpace(s[|s| - 1]) && t == s[..|s| - 1] && LeadingSpaces(t) < |t|
    ensures LeadingSpaces(s) == LeadingSpaces(t) < TrailingStart(t) == TrailingStart(s) <= |t|
  {
    var i, j := LeadingSpaces(t), TrailingStart(t);
    assert forall k :: 0 <= k < |t| ==> t[k] == s[k];
    assert i < j by { assert !IsSpace(t[i]); }
    TrailingStartAt(s, j);
    LeadingSpacesPrefix(s, t, i);
  }

  /** When some character is not whitespace, the trim is the span between the two runs of whitespace. */
  lemma TrimSpan(s: String)
    requires LeadingSpaces(s) < |s|
    ensures LeadingSpaces(s) <= TrailingStart(s) && Trim(s) == s[LeadingSpaces(s)..TrailingStart(s)]
  {
    assert !IsSpace(s[LeadingSpaces(s)]);
  }

  /** The trailing run of whitespace begins at `j` when everything from `j` on is whitespace and the character before is not. */
  lemma TrailingStartAt(s: String, j: nat)
    requires j <= |s| && forall k :: j <= k < |s| ==> IsSpace(s[k])
    requires j > 0 ==> !IsSpace(s[j - 1])
    ensures TrailingStart(s) == j
  {
  }

  lemma PrefixSlice(s: String, n: nat, i: nat, j: nat)
    requires i <= j <= n <= |s|
    ensures s[..n][i..j] == s[i..j]
  {
    assert forall k :: 0 <= k < j - i ==> s[..n][i..j][k] == s[i + k];
  }

  lemma AllSpacesDropLast(s: String)
    requires s != [] && IsSpace(s[|s| - 1]) && AllSpaces(s[..|s| - 1])
    ensures AllSpaces(s)
  {
    assert forall k :: 0 <= k < |s| - 1 ==> s[..|s| - 1][k] == s[k];
  }

  /** Leading whitespace is determined by the characters up to the first non-space. */
  lemma LeadingSpacesPrefix(s: String, t: String, i: nat)
    requires i < |s| && i < |t| && s[..i + 1] == t[..i + 1]
    requires LeadingSpaces(t) == i
    ensures LeadingSpaces(s) == i
  {
    assert s[i] == t[i];
    assert forall k :: 0 <= k < i ==> s[k] == t[k];
  }

  function LowerChar(c: char): (r: char)
    ensures IsAsciiLetter(c) ==> IsAsciiLetter(r) && 'a' <= r <= 'z'
    ensures !('A' <= c <= 'Z') ==> r == c
  {
    if 'A' <= c <= 'Z' then (c as int - 'A' as int + 'a' as int) as char else c
  }

  /** `s.toLowerCase()` restricted to ASCII letters. */
  function ToLowerAscii(s: String): (r: String)
    ensures |r| == |s|
    ensures forall k :: 0 <= k < |s| ==> r[k] == LowerChar(s[k])
  {
    seq(|s|, k requires 0 <= k < |s| => LowerChar(s[k]))
  }

  /** `true` when some character of `s` satisfies `p` (what a regular-expression `test` with one character class decides). */
  function Any(s: String, p: char -> bool): (r: bool)
    ensures r <==> exists k :: 0 <= k < |s| && p(s[k])
  {
    if s == [] then false
    else if p(s[0]) then true
    else
      var r := Any(s[1..], p);
      assert forall k :: 1 <= k < |s| ==> s[k] == s[1..][k - 1];
      r
  }
}
