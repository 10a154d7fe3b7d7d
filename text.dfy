/** Strings as the JavaScript code sees them: `trim`, `toLowerCase`, `includes`,
    `split(' ')[0]` and a one-character global `replace`. */
module Text {

  /** The code points ECMAScript's String.prototype.trim strips: WhiteSpace
      (tab, vertical tab, form feed, space, no-break space, zero-width no-break
      space, the Zs category) and LineTerminator (LF, CR, line and paragraph
      separators). */
  predicate IsJsSpace(c: char) {
    c == '\t' || c == '\n' || c == '\U{000B}' || c == '\U{000C}' || c == '\r' || c == ' '
    || c == '\U{00A0}' || c == '\U{1680}' || ('\U{2000}' <= c <= '\U{200A}')
    || c == '\U{2028}' || c == '\U{2029}' || c == '\U{202F}' || c == '\U{205F}'
    || c == '\U{3000}' || c == '\U{FEFF}'
  }

  /** Every character of s is white space (so `s.trim()` is falsy). */
  predicate IsBlank(s: string) {
    forall i :: 0 <= i < |s| ==> IsJsSpace(s[i])
  }

  /** s with its leading white space removed. */
  function TrimStart(s: string): (r: string)
    ensures |r| <= |s| && r == s[|s| - |r|..]
    ensures IsBlank(s[..|s| - |r|])
    ensures r != [] ==> !IsJsSpace(r[0])
  {
    if s == [] || !IsJsSpace(s[0]) then s else TrimStart(s[1..])
  }

  /** s with its trailing white space removed. */
  function TrimEnd(s: string): (r: string)
    ensures |r| <= |s| && r == s[..|r|]
    ensures IsBlank(s[|r|..])
    ensures r != [] ==> !IsJsSpace(r[|r| - 1])
  {
    if s == [] || !IsJsSpace(s[|s| - 1]) then s else TrimEnd(s[..|s| - 1])
  }

  /** `s.trim()`: s with white space removed from both ends; it is empty exactly
      when s is blank. */
  function Trim(s: string): (r: string)
    ensures r != [] ==> !IsJsSpace(r[0]) && !IsJsSpace(r[|r| - 1])
    ensures r == [] <==> IsBlank(s)
  {
    var t := TrimStart(s);
    var r := TrimEnd(t);
    TrimBlank(s, t, r);
    r
  }

  lemma TrimBlank(s: string, t: string, r: string)
    requires t == TrimStart(s) && r == TrimEnd(t)
    ensures r == [] <==> IsBlank(s)
  {
    var k := |s| - |t|;
    if r == [] {
      assert t[0..] == t;
      assert s == s[..k] + t;
    } else {
      assert r[0] == t[0] == s[k];
    }
  }

  /** What `trim` keeps is an infix of its argument. */
  lemma TrimInfix(s: string)
    ensures Contains(s, Trim(s))
  {
    var t := TrimStart(s);
    var r := TrimEnd(t);
    var k := |s| - |t|;
    assert t == s[k..];
    assert r == t[..|r|];
    assert r == s[k..k + |r|];
    assert OccursAt(s, r, k);
  }

  /** Trimming a string that already has no white space at either end changes nothing. */
  lemma {:induction false} TrimOfTrimmed(s: string)
    requires s != [] ==> !IsJsSpace(s[0]) && !IsJsSpace(s[|s| - 1])
    ensures Trim(s) == s
  {
    assert TrimStart(s) == s;
    assert TrimEnd(s) == s;
  }

  /** Trimming is idempotent. */
  lemma TrimIdempotent(s: string)
    ensures Trim(Trim(s)) == Trim(s)
  {
    TrimOfTrimmed(Trim(s));
  }

  /** `toLowerCase` on the ASCII letters and the Latin-1 capitals (À..Þ except ×),
      the letters the product's French text uses. */
  function LowerChar(c: char): (d: char)
    ensures ('A' <= c <= 'Z') ==> d as int == c as int + 32
    ensures !('A' <= c <= 'Z') && !IsLatinCapital(c) ==> d == c
  {
    if 'A' <= c <= 'Z' || IsLatinCapital(c) then (c as int + 32) as char else c
  }

  predicate IsLatinCapital(c: char) {
    '\U{00C0}' <= c <= '\U{00DE}' && c != '\U{00D7}'
  }

  /** `s.toLowerCase()`, character by character. */
  function Lower(s: string): (r: string)
    ensures |r| == |s|
    ensures forall i :: 0 <= i < |s| ==> r[i] == LowerChar(s[i])
  {
    seq(|s|, i requires 0 <= i < |s| => LowerChar(s[i]))
  }

  /** Lowering twice is lowering once: a lowered string has no capital left. */
  lemma LowerIdempotent(s: string)
    ensures Lower(Lower(s)) == Lower(s)
  {
    forall i | 0 <= i < |s| ensures LowerChar(LowerChar(s[i])) == LowerChar(s[i]) {
      var c := s[i];
      if 'A' <= c <= 'Z' || IsLatinCapital(c) {
        assert !('A' <= LowerChar(c) <= 'Z') && !IsLatinCapital(LowerChar(c));
      }
    }
  }

  /** `s.includes(t)`: t occurs in s at some position. */
  predicate Contains(s: string, t: string) {
    exists i :: 0 <= i <= |s| - |t| && OccursAt(s, t, i)
  }

  /** t occurs in s starting at index i. */
  predicate OccursAt(s: string, t: string, i: int) {
    0 <= i <= |s| - |t| && s[i..i + |t|] == t
  }

  /** Every string includes the empty string. */
  lemma ContainsEmpty(s: string)
    ensures Contains(s, [])
  {
    assert OccursAt(s, [], 0);
  }

  /** A string that includes t is at least as long as t, and a string includes itself. */
  lemma ContainsBasics(s: string, t: string)
    ensures Contains(s, t) ==> |t| <= |s|
    ensures Contains(s, s)
  {
    assert OccursAt(s, s, 0);
  }

  /** The search used by every list screen: `s.toLowerCase().includes(q.toLowerCase())`. */
  predicate MatchesIgnoringCase(s: string, q: string) {
    Contains(Lower(s), Lower(q))
  }

  /** An empty search matches every string; a search matches itself, whatever its case. */
  lemma {:induction false} EmptySearchMatches(s: string)
    ensures MatchesIgnoringCase(s, "")
    ensures MatchesIgnoringCase(s, Lower(s)) && MatchesIgnoringCase(Lower(s), s)
  {
    ContainsEmpty(Lower(s));
    LowerIdempotent(s);
    ContainsBasics(Lower(s), Lower(s));
  }

  /** `s.split(' ')[0]`: s up to its first space. */
  function FirstWord(s: string): (r: string)
    ensures |r| <= |s| && r == s[..|r|]
    ensures ' ' !in r
    ensures |r| < |s| ==> s[|r|] == ' '
  {
    if s == [] || s[0] == ' ' then [] else [s[0]] + FirstWord(s[1..])
  }

  /** `s.replace(/a/g, b)` for single characters a and b. */
  function ReplaceChar(s: string, a: char, b: char): (r: string)
    ensures |r| == |s|
    ensures forall i :: 0 <= i < |s| ==> r[i] == (if s[i] == a then b else s[i])
  {
    if s == [] then [] else [if s[0] == a then b else s[0]] + ReplaceChar(s[1..], a, b)
  }
}
