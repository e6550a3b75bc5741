/**
 * The two regular expressions of the diff parser are sequences of literal
 * characters and one-or-more runs of a character class (`\s+`, `\d+`).
 * `MatchAt` decides them deterministically by taking every run as far as it
 * goes; `Matches` is the backtracking reading of the same pattern, in which a
 * run may stop anywhere. For the patterns used here (every run is followed by
 * a token outside its class) the two agree: lemma `MatchAtIsRegexMatch`.
 */
module Regex {
  import opened Text

  datatype Class = Digit | Space

  predicate InClass(cls: Class, c: char) {
    match cls
    case Digit => IsDigit(c)
    case Space => IsSpace(c)
  }

  /** A pattern token: one literal character, `cls+`, or `cls*` (the rest of a `cls+` run). */
  datatype Token = Lit(c: char) | Plus(cls: Class) | Star(cls: Class)

  type Pattern = seq<Token>

  /** The pattern matches `s` starting at `i`, each run taken greedily (a prefix match, as `String.prototype.match` finds). */
  function MatchAt(s: String, i: nat, pat: Pattern): bool
    requires i <= |s|
    decreases |s| - i, |pat|
  {
    if pat == [] then true
    else match pat[0]
      case Lit(c) => i < |s| && s[i] == c && MatchAt(s, i + 1, pat[1..])
      case Plus(cls) => i < |s| && InClass(cls, s[i]) && MatchAt(s, i + 1, [Star(cls)] + pat[1..])
      case Star(cls) =>
        if i < |s| && InClass(cls, s[i]) then MatchAt(s, i + 1, pat) else MatchAt(s, i, pat[1..])
  }

  predicate AllIn(cls: Class, s: String, i: nat, j: nat)
    requires i <= j <= |s|
  {
    forall k :: i <= k < j ==> InClass(cls, s[k])
  }

  /** The backtracking semantics of a regular expression: a run may end at any position. */
  ghost predicate Matches(s: String, i: nat, pat: Pattern)
    requires i <= |s|
    decreases |pat|
  {
    if pat == [] then true
    else match pat[0]
      case Lit(c) => i < |s| && s[i] == c && Matches(s, i + 1, pat[1..])
      case Plus(cls) => exists j :: i < j <= |s| && AllIn(cls, s, i, j) && Matches(s, j, pat[1..])
      case Star(cls) => exists j :: i <= j <= |s| && AllIn(cls, s, i, j) && Matches(s, j, pat[1..])
  }

  /** The token after a run cannot take a character of the run's class, so the run has only one place to end. */
  predicate Follows(cls: Class, t: Token) {
    match t
    case Lit(c) => !InClass(cls, c)
    case Plus(other) => other != cls
    case Star(_) => false
  }

  /** Every run is last or followed by a token that its class excludes. */
  predicate Unambiguous(pat: Pattern) {
    forall k :: 0 <= k < |pat| - 1 && !pat[k].Lit? ==> Follows(pat[k].cls, pat[k + 1])
  }

  /** For unambiguous patterns, greedy matching finds exactly the regular-expression matches. */
  lemma {:induction false} MatchAtIsRegexMatch(s: String, i: nat, pat: Pattern)
    requires i <= |s| && Unambiguous(pat)
    ensures MatchAt(s, i, pat) <==> Matches(s, i, pat)
    decreases |s| - i, |pat|
  {
    if pat != [] {
      var rest := pat[1..];
      assert Unambiguous(rest);
      match pat[0]
      case Lit(c) =>
        if i < |s| { MatchAtIsRegexMatch(s, i + 1, rest); }
      case Plus(cls) =>
        if i < |s| && InClass(cls, s[i]) {
          var pat' := [Star(cls)] + rest;
          assert pat'[1..] == rest;
          assert Unambiguous(pat');
          MatchAtIsRegexMatch(s, i + 1, pat');
          if Matches(s, i, pat) {
            var j :| i < j <= |s| && AllIn(cls, s, i, j) && Matches(s, j, rest);
            assert AllIn(cls, s, i + 1, j);
            assert Matches(s, i + 1, pat');
          }
          if Matches(s, i + 1, pat') {
            var j :| i + 1 <= j <= |s| && AllIn(cls, s, i + 1, j) && Matches(s, j, rest);
            assert AllIn(cls, s, i, j);
          }
        }
      case Star(cls) =>
        if i < |s| && InClass(cls, s[i]) {
          MatchAtIsRegexMatch(s, i + 1, pat);
          if Matches(s, i, pat) {
            var j :| i <= j <= |s| && AllIn(cls, s, i, j) && Matches(s, j, rest);
            if j == i {
              RunBlocksLiteral(s, i, cls, rest);
              assert AllIn(cls, s, i + 1, i + 1) && Matches(s, i + 1, rest);
            } else {
              assert AllIn(cls, s, i + 1, j);
            }
            assert Matches(s, i + 1, pat);
          }
          if Matches(s, i + 1, pat) {
            var j :| i + 1 <= j <= |s| && AllIn(cls, s, i + 1, j) && Matches(s, j, rest);
            assert AllIn(cls, s, i, j);
          }
        } else {
          MatchAtIsRegexMatch(s, i, rest);
          if Matches(s, i, pat) {
            var j :| i <= j <= |s| && AllIn(cls, s, i, j) && Matches(s, j, rest);
            assert j == i;
          }
          assert AllIn(cls, s, i, i);
        }
    }
  }

  /** A character of a run's class cannot also start the token that ends the run. */
  lemma RunBlocksLiteral(s: String, i: nat, cls: Class, rest: Pattern)
    requires i < |s| && InClass(cls, s[i])
    requires rest != [] ==> Follows(cls, rest[0])
    ensures Matches(s, i, rest) ==> rest == []
  {
  }

  /** The pattern matches somewhere at or after `p` (a regular-expression search without `^`). */
  function SearchFrom(s: String, p: nat, pat: Pattern): (r: bool)
    requires p <= |s|
    decreases |s| - p
    ensures r ==> exists k: nat :: p <= k <= |s| && MatchAt(s, k, pat)
    ensures !r ==> forall k: nat :: p <= k <= |s| ==> !MatchAt(s, k, pat)
  {
    MatchAt(s, p, pat) || (p < |s| && SearchFrom(s, p + 1, pat))
  }

  /**
   * A greedy run reads no further than the first character outside its class:
   * a match over a run and the literal after it reads only the run and that literal.
   */
  lemma {:induction false} StarRun(s: String, i: nat, q: nat, cls: Class, rest: Pattern)
    requires i <= q <= |s| && AllIn(cls, s, i, q)
    requires q == |s| || !InClass(cls, s[q])
    ensures MatchAt(s, i, [Star(cls)] + rest) == MatchAt(s, q, rest)
    decreases q - i
  {
    assert ([Star(cls)] + rest)[1..] == rest;
    if i < q {
      StarRun(s, i + 1, q, cls, rest);
    }
  }

  /** `s` and `t` differ at most in which digit stands at a position. */
  predicate SameUpToDigits(s: String, t: String) {
    |s| == |t| && forall k :: 0 <= k < |s| ==> s[k] == t[k] || (IsDigit(s[k]) && IsDigit(t[k]))
  }

  predicate NoDigitLiterals(pat: Pattern) {
    forall k :: 0 <= k < |pat| && pat[k].Lit? ==> !IsDigit(pat[k].c)
  }

  /** A pattern without digit literals never looks at which digit a character is. */
  lemma {:induction false} MatchAtIgnoresDigitValues(s: String, t: String, i: nat, pat: Pattern)
    requires i <= |s| && SameUpToDigits(s, t) && NoDigitLiterals(pat)
    ensures MatchAt(s, i, pat) == MatchAt(t, i, pat)
    decreases |s| - i, |pat|
  {
    if pat != [] {
      var rest := pat[1..];
      assert NoDigitLiterals(rest);
      match pat[0]
      case Lit(c) =>
        if i < |s| { MatchAtIgnoresDigitValues(s, t, i + 1, rest); }
      case Plus(cls) =>
        if i < |s| {
          var pat' := [Star(cls)] + rest;
          assert NoDigitLiterals(pat');
          MatchAtIgnoresDigitValues(s, t, i + 1, pat');
        }
      case Star(cls) =>
        if i < |s| && InClass(cls, s[i]) {
          MatchAtIgnoresDigitValues(s, t, i + 1, pat);
        } else {
          MatchAtIgnoresDigitValues(s, t, i, rest);
        }
    }
  }

  /** A match reads every literal of its pattern: a pattern holding `Lit(c)` matches only where `c` follows. */
  lemma {:induction false} MatchAtReadsLiteral(s: String, i: nat, pat: Pattern, c: char)
    requires i <= |s| && Lit(c) in pat && MatchAt(s, i, pat)
    ensures exists k :: i <= k < |s| && s[k] == c
    decreases |s| - i, |pat|
  {
    var rest := pat[1..];
    match pat[0]
    case Lit(d) =>
      if d != c {
        assert Lit(c) in rest;
        MatchAtReadsLiteral(s, i + 1, rest, c);
      }
    case Plus(cls) =>
      var pat' := [Star(cls)] + rest;
      assert Lit(c) in rest && Lit(c) in pat';
      MatchAtReadsLiteral(s, i + 1, pat', c);
    case Star(cls) =>
      assert Lit(c) in rest;
      if i < |s| && InClass(cls, s[i]) {
        MatchAtReadsLiteral(s, i + 1, pat, c);
      } else {
        MatchAtReadsLiteral(s, i, rest, c);
      }
  }

  /** The pattern that matches exactly the characters of `w`. */
  function Word(w: String): (p: Pattern)
    ensures |p| == |w|
    ensures forall k :: 0 <= k < |w| ==> p[k] == Lit(w[k])
  {
    seq(|w|, k requires 0 <= k < |w| => Lit(w[k]))
  }

  /** A literal word consumes exactly its own characters. */
  lemma {:induction false} MatchWord(s: String, i: nat, w: String, rest: Pattern)
    requires i + |w| <= |s| && s[i..i + |w|] == w
    ensures MatchAt(s, i, Word(w) + rest) == MatchAt(s, i + |w|, rest)
    decreases |w|
  {
    if w == [] {
      assert Word(w) + rest == rest;
    } else {
      assert s[i] == s[i..i + |w|][0];
      assert s[i + 1..i + |w|] == w[1..];
      assert (Word(w) + rest)[1..] == Word(w[1..]) + rest;
      MatchWord(s, i + 1, w[1..], rest);
    }
  }

  /** A one-or-more run consumes exactly the maximal run of its class. */
  lemma MatchRun(s: String, i: nat, n: nat, cls: Class, rest: Pattern)
    requires 1 <= n && i + n <= |s| && AllIn(cls, s, i, i + n)
    requires i + n == |s| || !InClass(cls, s[i + n])
    ensures MatchAt(s, i, [Plus(cls)] + rest) == MatchAt(s, i + n, rest)
  {
    assert ([Plus(cls)] + rest)[1..] == rest;
    StarRun(s, i + 1, i + n, cls, rest);
  }

  /** Matching depends only on the text from the starting position on. */
  lemma {:induction false} MatchAtShift(p: String, s: String, i: nat, pat: Pattern)
    requires i <= |s|
    ensures MatchAt(p + s, |p| + i, pat) == MatchAt(s, i, pat)
    decreases |s| - i, |pat|
  {
    if pat != [] {
      match pat[0]
      case Lit(c) =>
        if i < |s| { MatchAtShift(p, s, i + 1, pat[1..]); }
      case Plus(cls) =>
        if i < |s| { MatchAtShift(p, s, i + 1, [Star(cls)] + pat[1..]); }
      case Star(cls) =>
        if i < |s| && InClass(cls, s[i]) {
          MatchAtShift(p, s, i + 1, pat);
        } else {
          MatchAtShift(p, s, i, pat[1..]);
        }
    }
  }

  /** A text opening with the word `w` matches `Word(w) + rest` when the text after `w` matches `rest`. */
  lemma MatchWordPrefix(w: String, t: String, rest: Pattern)
    ensures MatchAt(w + t, 0, Word(w) + rest) == MatchAt(t, 0, rest)
  {
    assert (w + t)[0..|w|] == w;
    MatchWord(w + t, 0, w, rest);
    MatchAtShift(w, t, 0, rest);
  }

  /** A text opening with a maximal run `x` of a class matches `cls+` followed by `rest` when the text after `x` matches `rest`. */
  lemma MatchRunPrefix(x: String, t: String, cls: Class, rest: Pattern)
    requires x != [] && forall k :: 0 <= k < |x| ==> InClass(cls, x[k])
    requires t == [] || !InClass(cls, t[0])
    ensures MatchAt(x + t, 0, [Plus(cls)] + rest) == MatchAt(t, 0, rest)
  {
    MatchRun(x + t, 0, |x|, cls, rest);
    MatchAtShift(x, t, 0, rest);
  }
}
