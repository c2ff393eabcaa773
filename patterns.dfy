/**
 * The user-agent tests of the hooks are JavaScript regular expressions of
 * three shapes: a literal word (/iPad/), a literal word ending in a digit
 * range (/iPhone1[2-9]/, /Version\/1[4-9]/), and "a word, then on the same
 * line another word" (/Android.*Chrome/, where `.` matches anything but a
 * line terminator).  They are modelled here as patterns of character
 * classes.  Each test has a ghost reference definition (an existential over
 * positions) and an executable left-to-right search proved equal to it.
 */
module Patterns {

  /** One position of a pattern: a literal character or an inclusive range. */
  datatype CharClass = Lit(c: char) | Range(lo: char, hi: char)

  type Pattern = seq<CharClass>

  predicate Accepts(k: CharClass, ch: char)
  {
    match k
    case Lit(c) => ch == c
    case Range(lo, hi) => lo <= ch <= hi
  }

  /** The pattern `w` with every character taken literally. */
  function Literal(w: string): (p: Pattern)
    ensures |p| == |w|
    ensures forall k :: 0 <= k < |w| ==> p[k] == Lit(w[k])
    ensures forall s: string, i: nat {:trigger MatchesAt(s, p, i)} ::
              MatchesAt(s, p, i) <==> i + |w| <= |s| && s[i..i + |w|] == w
  {
    seq(|w|, k requires 0 <= k < |w| => Lit(w[k]))
  }

  /** `p` matches `s` starting at position `i`. */
  predicate MatchesAt(s: string, p: Pattern, i: nat)
  {
    i + |p| <= |s| && forall k :: 0 <= k < |p| ==> Accepts(p[k], s[i + k])
  }

  /** Reference meaning of `p.test(s)` for a pattern without `.*`. */
  ghost predicate Occurs(s: string, p: Pattern)
  {
    exists i: nat :: MatchesAt(s, p, i)
  }

  /** The characters that a regular-expression `.` refuses to match. */
  predicate IsLineTerminator(ch: char)
  {
    ch == '\n' || ch == '\r' || ch == '\U{2028}' || ch == '\U{2029}'
  }

  /** No line terminator among `s[a..b]` (positions past the end are ignored). */
  predicate OnOneLine(s: string, a: nat, b: nat)
  {
    forall k :: a <= k < b && k < |s| ==> !IsLineTerminator(s[k])
  }

  /** Reference meaning of `/p.*q/.test(s)`. */
  ghost predicate OccursThenOnLine(s: string, p: Pattern, q: Pattern)
  {
    exists i: nat, j: nat ::
      i + |p| <= j && MatchesAt(s, p, i) && MatchesAt(s, q, j) && OnOneLine(s, i + |p|, j)
  }

  /** Search for a match of `p` at position `i` or later. */
  function SearchFrom(s: string, p: Pattern, i: nat): bool
    decreases |s| - i
  {
    if i + |p| > |s| then false
    else MatchesAt(s, p, i) || SearchFrom(s, p, i + 1)
  }

  lemma {:induction false} SearchFromCorrect(s: string, p: Pattern, i: nat)
    ensures SearchFrom(s, p, i) <==> exists j: nat :: i <= j && MatchesAt(s, p, j)
    decreases |s| - i
  {
    if i + |p| <= |s| {
      SearchFromCorrect(s, p, i + 1);
      if exists j: nat :: i <= j && MatchesAt(s, p, j) {
        var j: nat :| i <= j && MatchesAt(s, p, j);
        assert j == i || (i + 1 <= j && MatchesAt(s, p, j));
      }
    }
  }

  /** Executable `p.test(s)`: a match of `p` somewhere in `s`. */
  function Contains(s: string, p: Pattern): (r: bool)
    ensures r <==> Occurs(s, p)
  {
    SearchFromCorrect(s, p, 0);
    SearchFrom(s, p, 0)
  }

  /** A match of `q` at `j` or later, reached from `j` without crossing a line terminator. */
  function SearchOnLineFrom(s: string, q: Pattern, j: nat): bool
    decreases |s| - j
  {
    if j + |q| > |s| then false
    else if MatchesAt(s, q, j) then true
    else if IsLineTerminator(s[j]) then false
    else SearchOnLineFrom(s, q, j + 1)
  }

  lemma {:induction false} SearchOnLineFromCorrect(s: string, q: Pattern, j: nat)
    ensures SearchOnLineFrom(s, q, j) <==>
            exists m: nat :: j <= m && MatchesAt(s, q, m) && OnOneLine(s, j, m)
    decreases |s| - j
  {
    if j + |q| <= |s| && !MatchesAt(s, q, j) {
      SearchOnLineFromCorrect(s, q, j + 1);
      if exists m: nat :: j <= m && MatchesAt(s, q, m) && OnOneLine(s, j, m) {
        var m: nat :| j <= m && MatchesAt(s, q, m) && OnOneLine(s, j, m);
        assert j < m;
        assert !IsLineTerminator(s[j]);
        assert OnOneLine(s, j + 1, m);
      }
      if !IsLineTerminator(s[j]) && SearchOnLineFrom(s, q, j + 1) {
        var m: nat :| j + 1 <= m && MatchesAt(s, q, m) && OnOneLine(s, j + 1, m);
        assert OnOneLine(s, j, m);
      }
    }
  }

  /** Search for `p` at position `i` or later followed on its line by `q`. */
  function SearchThenOnLineFrom(s: string, p: Pattern, q: Pattern, i: nat): bool
    decreases |s| - i
  {
    if i + |p| > |s| then false
    else (MatchesAt(s, p, i) && SearchOnLineFrom(s, q, i + |p|))
         || SearchThenOnLineFrom(s, p, q, i + 1)
  }

  ghost predicate ThenOnLineAt(s: string, p: Pattern, q: Pattern, i: nat)
  {
    exists j: nat :: i + |p| <= j && MatchesAt(s, p, i) && MatchesAt(s, q, j) && OnOneLine(s, i + |p|, j)
  }

  lemma {:induction false} SearchThenOnLineFromCorrect(s: string, p: Pattern, q: Pattern, i: nat)
    ensures SearchThenOnLineFrom(s, p, q, i) <==> exists h: nat :: i <= h && ThenOnLineAt(s, p, q, h)
    decreases |s| - i
  {
    if i + |p| <= |s| {
      SearchOnLineFromCorrect(s, q, i + |p|);
      SearchThenOnLineFromCorrect(s, p, q, i + 1);
      assert ThenOnLineAt(s, p, q, i) <==> MatchesAt(s, p, i) && SearchOnLineFrom(s, q, i + |p|);
      if exists h: nat :: i <= h && ThenOnLineAt(s, p, q, h) {
        var h: nat :| i <= h && ThenOnLineAt(s, p, q, h);
        assert h == i || (i + 1 <= h && ThenOnLineAt(s, p, q, h));
      }
    } else {
      forall h: nat | i <= h ensures !ThenOnLineAt(s, p, q, h) {
        assert !MatchesAt(s, p, h);
      }
    }
  }

  lemma OccursThenOnLineSomewhere(s: string, p: Pattern, q: Pattern)
    ensures OccursThenOnLine(s, p, q) <==> exists h: nat :: 0 <= h && ThenOnLineAt(s, p, q, h)
  {
    if OccursThenOnLine(s, p, q) {
      var i: nat, j: nat :| i + |p| <= j && MatchesAt(s, p, i) && MatchesAt(s, q, j) && OnOneLine(s, i + |p|, j);
      assert ThenOnLineAt(s, p, q, i);
    }
  }

  /** Executable `/p.*q/.test(s)`. */
  function ContainsThenOnLine(s: string, p: Pattern, q: Pattern): (r: bool)
    ensures r <==> OccursThenOnLine(s, p, q)
  {
    SearchThenOnLineFromCorrect(s, p, q, 0);
    OccursThenOnLineSomewhere(s, p, q);
    SearchThenOnLineFrom(s, p, q, 0)
  }

  /** No pattern of positive length occurs in the empty string. */
  lemma NothingInEmpty(p: Pattern, q: Pattern)
    requires |p| > 0
    ensures !Occurs("", p) && !OccursThenOnLine("", p, q)
  {
  }
}
