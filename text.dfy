/**
 * The string primitives the shopping list and the settings route rely on, with the
 * behaviour JavaScript gives them: `\s` and `trim`, `toLowerCase`, `toUpperCase` of
 * one letter, `includes` and `startsWith`.
 */
module Text {

  /** JavaScript's WhiteSpace and LineTerminator characters: what `\s` matches and `trim` removes. */
  predicate IsWhite(c: char) {
    || c == ' ' || c == '\t' || c == '\n' || c == '\U{0B}' || c == '\U{0C}' || c == '\r'
    || c == '\U{A0}' || c == '\U{1680}' || ('\U{2000}' <= c <= '\U{200A}')
    || c == '\U{2028}' || c == '\U{2029}' || c == '\U{202F}' || c == '\U{205F}'
    || c == '\U{3000}' || c == '\U{FEFF}'
  }

  /** The characters a regular-expression `.` does not match. */
  predicate IsLineTerminator(c: char) {
    c == '\n' || c == '\r' || c == '\U{2028}' || c == '\U{2029}'
  }

  predicate AllWhite(s: string) {
    forall i :: 0 <= i < |s| ==> IsWhite(s[i])
  }

  predicate NoLineTerminator(s: string) {
    forall i :: 0 <= i < |s| ==> !IsLineTerminator(s[i])
  }

  predicate IsTrimmed(s: string) {
    s == [] || (!IsWhite(s[0]) && !IsWhite(s[|s| - 1]))
  }

  /** A whitespace character followed by a whitespace run is a whitespace run. */
  lemma WhitePrefixCons(s: string, k: nat)
    requires 0 < k <= |s| && IsWhite(s[0]) && AllWhite(s[1..][..k - 1])
    ensures AllWhite(s[..k])
  {
    forall i | 0 <= i < k ensures IsWhite(s[..k][i]) {
      if i > 0 {
        assert s[..k][i] == s[1..][..k - 1][i - 1];
      }
    }
  }

  /** Drops leading whitespace: what remains is a suffix of `s` that does not start with whitespace. */
  function TrimStart(s: string): (r: string)
    ensures |r| <= |s| && r == s[|s| - |r|..]
    ensures AllWhite(s[..|s| - |r|])
    ensures r == [] || !IsWhite(r[0])
  {
    if |s| > 0 && IsWhite(s[0]) then
      var t := s[1..];
      var r := TrimStart(t);
      assert t[|t| - |r|..] == s[|s| - |r|..];
      WhitePrefixCons(s, |s| - |r|);
      r
    else s
  }

  /** Trimming the start of a suffix of s leaves a suffix of s. */
  lemma TrimStartOfSuffix(s: string, k: nat)
    requires k <= |s|
    ensures |TrimStart(s[k..])| <= |s| - k && TrimStart(s[k..]) == s[|s| - |TrimStart(s[k..])|..]
  {
    var r := TrimStart(s[k..]);
    assert s[k..][|s[k..]| - |r|..] == s[|s| - |r|..];
  }

  /** Drops trailing whitespace: what remains is a prefix of `s` that does not end with whitespace. */
  function TrimEnd(s: string): (r: string)
    ensures |r| <= |s| && r == s[..|r|]
    ensures AllWhite(s[|r|..])
    ensures r == [] || !IsWhite(r[|r| - 1])
  {
    if |s| > 0 && IsWhite(s[|s| - 1]) then
      var r := TrimEnd(s[..|s| - 1]);
      assert s[..|s| - 1][..|r|] == s[..|r|];
      assert s[|r|..] == s[..|s| - 1][|r|..] + [s[|s| - 1]];
      r
    else s
  }

  /** `String.prototype.trim`. */
  function Trim(s: string): (r: string)
    ensures IsTrimmed(r)
    ensures |r| <= |s|
    ensures r == [] <==> AllWhite(s)
  {
    var t := TrimStart(s);
    assert t == [] ==> AllWhite(s) by {
      if t == [] { assert s[..|s|] == s; }
    }
    assert t != [] ==> !IsWhite(s[|s| - |t|]);
    TrimEnd(t)
  }

  lemma TrimOfTrimmed(s: string)
    requires IsTrimmed(s)
    ensures Trim(s) == s
  {
  }

  /** Trimming twice is trimming once. */
  lemma TrimIdempotent(s: string)
    ensures Trim(Trim(s)) == Trim(s)
  {
    TrimOfTrimmed(Trim(s));
  }

  lemma TrimEndAppendWhite(s: string, w: string)
    requires AllWhite(w)
    ensures TrimEnd(s + w) == TrimEnd(s)
    decreases |w|
  {
    if w == [] {
      assert s + w == s;
    } else {
      assert (s + w)[..|s + w| - 1] == s + w[..|w| - 1];
      TrimEndAppendWhite(s, w[..|w| - 1]);
    }
  }

  lemma TrimStartAppend(s: string, w: string)
    requires TrimStart(s) != []
    ensures TrimStart(s + w) == TrimStart(s) + w
    decreases |s|
  {
    assert (s + w)[0] == s[0];
    if IsWhite(s[0]) {
      assert TrimStart(s) == TrimStart(s[1..]);
      assert (s + w)[1..] == s[1..] + w;
      TrimStartAppend(s[1..], w);
    }
  }

  /** Dropping leading whitespace twice is dropping it once. */
  lemma TrimStartIdempotent(s: string)
    ensures TrimStart(TrimStart(s)) == TrimStart(s)
  {
  }

  /** Whitespace put in front of a string disappears under `trimStart`. */
  lemma {:induction false} TrimStartPrependWhite(w: string, s: string)
    requires AllWhite(w)
    ensures TrimStart(w + s) == TrimStart(s)
    decreases |w|
  {
    if w == [] {
      assert w + s == s;
    } else {
      assert (w + s)[1..] == w[1..] + s;
      TrimStartPrependWhite(w[1..], s);
    }
  }

  /** Whitespace put in front of a string disappears under `trim`. */
  lemma TrimPrependWhite(w: string, s: string)
    requires AllWhite(w)
    ensures Trim(w + s) == Trim(s)
  {
    TrimStartPrependWhite(w, s);
  }

  /** Trimming what is left after the leading whitespace is dropped is trimming the string. */
  lemma TrimOfTrimStart(s: string)
    ensures Trim(TrimStart(s)) == Trim(s)
  {
    TrimStartIdempotent(s);
  }

  /** Whitespace appended to a string disappears under `trim`. */
  lemma TrimAppendWhite(s: string, w: string)
    requires AllWhite(w)
    ensures Trim(s + w) == Trim(s)
  {
    if TrimStart(s) == [] {
      assert AllWhite(s + w);
      assert Trim(s) == [] && Trim(s + w) == [];
    } else {
      TrimStartAppend(s, w);
      TrimEndAppendWhite(TrimStart(s), w);
    }
  }

  /**
   * `toLowerCase` on one character, for ASCII and Latin-1 letters (and capital Y with
   * diaeresis, whose small letter is in Latin-1). Other characters are left alone.
   */
  function LowerChar(c: char): char {
    if 'A' <= c <= 'Z' || ('\U{C0}' <= c <= '\U{DE}' && c != '\U{D7}') then (c as int + 32) as char
    else if c == '\U{178}' then '\U{FF}'
    else c
  }

  /** `toLowerCase`: character by character, so lengths and non-letters are kept. */
  function Lower(s: string): string {
    seq(|s|, i requires 0 <= i < |s| => LowerChar(s[i]))
  }

  predicate IsLower(s: string) {
    forall i :: 0 <= i < |s| ==> LowerChar(s[i]) == s[i]
  }

  /** Lowering keeps every character that is not an upper-case letter, whitespace in particular. */
  lemma LowerCharKeepsNonLetters(c: char)
    ensures IsWhite(LowerChar(c)) <==> IsWhite(c)
    ensures IsLineTerminator(LowerChar(c)) <==> IsLineTerminator(c)
    ensures LowerChar(c) == ',' <==> c == ','
    ensures LowerChar(c) == '-' <==> c == '-'
    ensures LowerChar(LowerChar(c)) == LowerChar(c)
  {
  }

  lemma LowerIsLower(s: string)
    ensures IsLower(Lower(s))
  {
    forall i | 0 <= i < |s| ensures LowerChar(Lower(s)[i]) == Lower(s)[i] {
      LowerCharKeepsNonLetters(s[i]);
    }
  }

  lemma LowerOfLower(s: string)
    requires IsLower(s)
    ensures Lower(s) == s
  {
  }

  lemma LowerSlice(s: string, i: nat, j: nat)
    requires i <= j <= |s|
    ensures Lower(s[i..j]) == Lower(s)[i..j]
  {
  }

  lemma LowerAppend(s: string, t: string)
    ensures Lower(s + t) == Lower(s) + Lower(t)
  {
  }

  lemma TrimStartOfLower(s: string)
    ensures TrimStart(Lower(s)) == Lower(TrimStart(s))
    decreases |s|
  {
    if |s| > 0 {
      var l := Lower(s);
      assert l[0] == LowerChar(s[0]);
      LowerCharKeepsNonLetters(s[0]);
      if IsWhite(s[0]) {
        assert l[1..] == Lower(s[1..]);
        TrimStartOfLower(s[1..]);
      }
    }
  }

  lemma TrimEndOfLower(s: string)
    ensures TrimEnd(Lower(s)) == Lower(TrimEnd(s))
    decreases |s|
  {
    if |s| > 0 {
      var l := Lower(s);
      assert l[|s| - 1] == LowerChar(s[|s| - 1]);
      LowerCharKeepsNonLetters(s[|s| - 1]);
      if IsWhite(s[|s| - 1]) {
        assert l[..|s| - 1] == Lower(s[..|s| - 1]);
        TrimEndOfLower(s[..|s| - 1]);
      }
    }
  }

  /** Lowering and trimming commute. */
  lemma TrimOfLower(s: string)
    ensures Trim(Lower(s)) == Lower(Trim(s))
  {
    TrimStartOfLower(s);
    TrimEndOfLower(TrimStart(s));
  }

  /**
   * `c.toUpperCase()` for the first letter of a display name: ASCII and Latin-1 small
   * letters, small y with diaeresis (whose capital lies outside Latin-1) and sharp s,
   * which becomes the two letters "SS".
   */
  function UpperChar(c: char): string {
    if 'a' <= c <= 'z' || ('\U{E0}' <= c <= '\U{FE}' && c != '\U{F7}') then [(c as int - 32) as char]
    else if c == '\U{FF}' then ['\U{178}']
    else if c == '\U{DF}' then "SS"
    else [c]
  }

  /** `s.startsWith(p)`. */
  predicate StartsWith(s: string, p: string) {
    |p| <= |s| && s[..|p|] == p
  }

  /** `t` occurs in `s` at index `i`, compared from the `k`-th character of `t` on. */
  predicate MatchesFrom(s: string, t: string, i: nat, k: nat)
    requires i + |t| <= |s| && k <= |t|
    decreases |t| - k
  {
    k == |t| || (s[i + k] == t[k] && MatchesFrom(s, t, i, k + 1))
  }

  /** `t` occurs in `s` at some index `i` or later. */
  predicate ContainsFrom(s: string, t: string, i: nat)
    decreases |s| - i, |t|
  {
    i + |t| <= |s| && (MatchesFrom(s, t, i, 0) || ContainsFrom(s, t, i + 1))
  }

  /** `s.includes(t)`. */
  predicate Contains(s: string, t: string) {
    ContainsFrom(s, t, 0)
  }

  /** `t` occurs in `s` starting at index `i`. */
  predicate OccursAt(s: string, t: string, i: int) {
    0 <= i <= |s| - |t| && s[i..i + |t|] == t
  }

  lemma {:induction false} MatchesFromSlice(s: string, t: string, i: nat, k: nat)
    requires i + |t| <= |s| && k <= |t|
    ensures MatchesFrom(s, t, i, k) <==> s[i + k..i + |t|] == t[k..]
    decreases |t| - k
  {
    if k < |t| {
      MatchesFromSlice(s, t, i, k + 1);
      assert s[i + k..i + |t|] == [s[i + k]] + s[i + k + 1..i + |t|];
      assert t[k..] == [t[k]] + t[k + 1..];
    }
  }

  lemma {:induction false} ContainsFromAt(s: string, t: string, i: nat)
    ensures ContainsFrom(s, t, i) <==> exists j :: i <= j && OccursAt(s, t, j)
    decreases |s| - i
  {
    if i + |t| <= |s| {
      MatchesFromSlice(s, t, i, 0);
      ContainsFromAt(s, t, i + 1);
      if MatchesFrom(s, t, i, 0) {
        assert OccursAt(s, t, i);
      }
      if exists j :: i <= j && OccursAt(s, t, j) {
        var j :| i <= j && OccursAt(s, t, j);
        if j == i {
          assert MatchesFrom(s, t, i, 0);
        } else {
          assert i + 1 <= j && OccursAt(s, t, j);
          assert ContainsFrom(s, t, i + 1);
        }
      }
    } else {
      assert forall j :: i <= j ==> !OccursAt(s, t, j);
    }
  }

  /** `includes` holds exactly when `t` is a slice of `s`. */
  lemma ContainsAt(s: string, t: string)
    ensures Contains(s, t) <==> exists i :: OccursAt(s, t, i)
  {
    ContainsFromAt(s, t, 0);
  }
}
