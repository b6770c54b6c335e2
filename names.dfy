/**
 * The two normalisers of the shopping list: the recipe-title key used to count a recipe
 * once however its title is cased or hyphenated (`normalizeRecipeTitle`), and the
 * ingredient-name key that folds plurals and synonyms (`normalizeName`), with the display
 * name derived from it.
 */
module Names {
  import opened Wrappers
  import opened Text

  // ---------------------------------------------------------------------------
  // Recipe titles
  // ---------------------------------------------------------------------------

  /** `.replace(/-/g, " ")`: every hyphen becomes a space, nothing else changes. */
  function HyphensToSpaces(s: string): (r: string)
    ensures |r| == |s|
    ensures forall i :: 0 <= i < |s| ==> r[i] == (if s[i] == '-' then ' ' else s[i])
  {
    seq(|s|, i requires 0 <= i < |s| => if s[i] == '-' then ' ' else s[i])
  }

  /** `.replace(/\s+/g, " ")`: every maximal run of whitespace becomes one space. */
  function CollapseWhite(s: string): (r: string)
    ensures |r| <= |s|
    decreases |s|
  {
    if s == [] then []
    else if IsWhite(s[0]) then
      var rest := TrimStart(s);
      assert s[|s| - |rest|..] == rest;
      " " + CollapseWhite(rest)
    else [s[0]] + CollapseWhite(s[1..])
  }

  /** No hyphen, and whitespace only as single spaces. */
  predicate Collapsed(s: string) {
    && (forall i :: 0 <= i < |s| ==> s[i] != '-')
    && (forall i :: 0 <= i < |s| && IsWhite(s[i]) ==> s[i] == ' ')
    && (forall i :: 1 <= i < |s| && IsWhite(s[i]) ==> !IsWhite(s[i - 1]))
  }

  /** `normalizeRecipeTitle`: lower-cased, hyphens turned into spaces, whitespace runs collapsed, trimmed. */
  function NormalizeRecipeTitle(title: string): string {
    Trim(CollapseWhite(HyphensToSpaces(Lower(title))))
  }

  /** A collapsed string starts with its first character, or with one space for a run of whitespace. */
  lemma {:induction false} CollapseWhiteCollapsed(s: string)
    requires forall i :: 0 <= i < |s| ==> s[i] != '-'
    ensures Collapsed(CollapseWhite(s))
    ensures CollapseWhite(s) == [] <==> s == []
    ensures s != [] ==> CollapseWhite(s)[0] == (if IsWhite(s[0]) then ' ' else s[0])
    decreases |s|
  {
    if s != [] {
      if IsWhite(s[0]) {
        var rest := TrimStart(s);
        assert forall i :: 0 <= i < |rest| ==> rest[i] == s[|s| - |rest| + i];
        CollapseWhiteCollapsed(rest);
        CollapseWhiteRun(s);
        ConsCollapsed(' ', CollapseWhite(rest));
      } else {
        CollapseWhiteCollapsed(s[1..]);
        CollapseNonWhite(s);
        ConsCollapsed(s[0], CollapseWhite(s[1..]));
      }
    }
  }

  lemma CollapseWhiteRun(s: string)
    requires |s| > 0 && IsWhite(s[0])
    ensures CollapseWhite(s) == [' '] + CollapseWhite(TrimStart(s))
  {
  }

  /** A character put before a collapsed string keeps it collapsed when it is no hyphen and no second space. */
  lemma ConsCollapsed(c: char, t: string)
    requires Collapsed(t) && c != '-' && (IsWhite(c) ==> c == ' ')
    requires IsWhite(c) && t != [] ==> !IsWhite(t[0])
    ensures Collapsed([c] + t)
  {
    var u := [c] + t;
    assert forall i :: 1 <= i < |u| ==> u[i] == t[i - 1];
  }

  lemma {:induction false} CollapseWhiteOfCollapsed(s: string)
    requires Collapsed(s)
    ensures CollapseWhite(s) == s
    decreases |s|
  {
    if s != [] {
      CollapsedSlice(s, 1, |s|);
      CollapseWhiteOfCollapsed(s[1..]);
      if IsWhite(s[0]) {
        CollapseSingleWhite(s);
      } else {
        CollapseNonWhite(s);
      }
    }
  }

  lemma CollapseSingleWhite(s: string)
    requires |s| > 0 && s[0] == ' ' && (|s| == 1 || !IsWhite(s[1]))
    ensures CollapseWhite(s) == [s[0]] + CollapseWhite(s[1..])
  {
    SingleWhite(s);
  }

  lemma CollapseNonWhite(s: string)
    requires |s| > 0 && !IsWhite(s[0])
    ensures CollapseWhite(s) == [s[0]] + CollapseWhite(s[1..])
  {
  }

  lemma SingleWhite(s: string)
    requires |s| > 0 && IsWhite(s[0]) && (|s| == 1 || !IsWhite(s[1]))
    ensures TrimStart(s) == s[1..]
  {
    assert TrimStart(s) == TrimStart(s[1..]);
  }

  lemma CollapsedSlice(s: string, i: nat, j: nat)
    requires Collapsed(s) && i <= j <= |s|
    ensures Collapsed(s[i..j])
  {
    var t := s[i..j];
    forall k | 0 <= k < |t| ensures t[k] == s[i + k] { }
  }

  lemma IsLowerSlice(s: string, i: nat, j: nat)
    requires IsLower(s) && i <= j <= |s|
    ensures IsLower(s[i..j])
  {
    var t := s[i..j];
    forall k | 0 <= k < |t| ensures t[k] == s[i + k] { }
  }

  /** `trim` returns a slice. */
  lemma TrimSlice(s: string)
    ensures exists i, j :: 0 <= i <= j <= |s| && Trim(s) == s[i..j]
  {
    var u := TrimStart(s);
    var a := |s| - |u|;
    assert u == s[a..];
    var t := TrimEnd(u);
    assert t == u[..|t|] == s[a..a + |t|];
  }

  lemma TrimCollapsedLower(s: string)
    requires Collapsed(s) && IsLower(s)
    ensures Collapsed(Trim(s)) && IsLower(Trim(s))
  {
    TrimSlice(s);
    var i, j :| 0 <= i <= j <= |s| && Trim(s) == s[i..j];
    CollapsedSlice(s, i, j);
    IsLowerSlice(s, i, j);
  }

  lemma HyphensToSpacesLower(s: string)
    requires IsLower(s)
    ensures IsLower(HyphensToSpaces(s))
  {
  }

  lemma {:induction false} CollapseWhiteLower(s: string)
    requires IsLower(s)
    ensures IsLower(CollapseWhite(s))
    decreases |s|
  {
    if s != [] {
      if IsWhite(s[0]) {
        var rest := TrimStart(s);
        assert forall i :: 0 <= i < |rest| ==> rest[i] == s[|s| - |rest| + i];
        CollapseWhiteLower(rest);
      } else {
        CollapseWhiteLower(s[1..]);
      }
    }
  }

  /**
   * A recipe-title key is lower case, trimmed, free of hyphens, and holds whitespace only as
   * single spaces between words.
   */
  lemma NormalizedTitleShape(title: string)
    ensures var k := NormalizeRecipeTitle(title);
            IsLower(k) && IsTrimmed(k) && Collapsed(k)
  {
    var l := Lower(title);
    LowerIsLower(title);
    var h := HyphensToSpaces(l);
    HyphensToSpacesLower(l);
    CollapseWhiteCollapsed(h);
    CollapseWhiteLower(h);
    TrimCollapsedLower(CollapseWhite(h));
  }

  /** Normalising a recipe-title key again leaves it as it is. */
  lemma NormalizeRecipeTitleIdempotent(title: string)
    ensures NormalizeRecipeTitle(NormalizeRecipeTitle(title)) == NormalizeRecipeTitle(title)
  {
    var k := NormalizeRecipeTitle(title);
    NormalizedTitleShape(title);
    LowerOfLower(k);
    assert HyphensToSpaces(k) == k;
    CollapseWhiteOfCollapsed(k);
    TrimOfTrimmed(k);
  }

  /** A hyphen and a space between two parts of a title give the same key ("Buchweizen-Cookies", "Buchweizen Cookies"). */
  lemma HyphenOrSpaceSameTitle(a: string, b: string)
    ensures NormalizeRecipeTitle(a + "-" + b) == NormalizeRecipeTitle(a + " " + b)
  {
    var x := HyphensToSpaces(Lower(a + "-" + b));
    var y := HyphensToSpaces(Lower(a + " " + b));
    assert |x| == |y|;
    forall i | 0 <= i < |x| ensures x[i] == y[i] {
      if i != |a| {
        assert (a + "-" + b)[i] == (a + " " + b)[i];
      }
    }
    assert x == y;
  }

  // ---------------------------------------------------------------------------
  // Ingredient names
  // ---------------------------------------------------------------------------

  /** The fixed plural and synonym table. */
  const SYNONYMS: map<string, string> := map[
    "zwiebeln" := "zwiebel",
    "knoblauchzehe" := "knoblauch",
    "knoblauchzehen" := "knoblauch",
    "tomaten" := "tomate",
    "kartoffeln" := "kartoffel",
    "eier" := "ei",
    "möhren" := "karotte",
    "karotten" := "karotte",
    "paprika" := "paprika",
    "paprikaschote" := "paprika",
    "paprikaschoten" := "paprika",
    "champignons" := "champignon",
    "zitronen" := "zitrone",
    "orangen" := "orange",
    "äpfel" := "apfel",
    "bananen" := "banane",
    "zwiebel" := "zwiebel",
    "knoblauch" := "knoblauch",
    "mehl" := "mehl",
    "zucker" := "zucker",
    "salz" := "salz",
    "pfeffer" := "pfeffer",
    "öl" := "öl",
    "butter" := "butter",
    "milch" := "milch",
    "sahne" := "sahne",
    "creme fraiche" := "sahne",
    "creme" := "sahne",
    "schmand" := "sahne",
    "käse" := "käse",
    "tapiokastärke" := "tapioka"
  ]

  /** `\s*.*$`: whitespace, then characters other than line terminators up to the end. */
  predicate NoteTail(t: string) {
    NoLineTerminator(t) || (|t| > 0 && IsWhite(t[0]) && NoteTail(t[1..]))
  }

  /** The regular expression `\s*,\s*.*$` matches from the comma at q. */
  predicate NoteAt(s: string, q: nat)
    requires q < |s|
  {
    s[q] == ',' && NoteTail(s[q + 1..])
  }

  /** The first comma at index i or later from which the note pattern matches. */
  function NoteComma(s: string, i: nat): (r: Option<nat>)
    ensures r.Some? ==> i <= r.value < |s| && NoteAt(s, r.value)
    ensures r.Some? ==> forall j :: i <= j < r.value ==> !NoteAt(s, j)
    ensures r.None? ==> forall j :: i <= j < |s| ==> !NoteAt(s, j)
    decreases |s| - i
  {
    if i >= |s| then None
    else if NoteAt(s, i) then Some(i)
    else NoteComma(s, i + 1)
  }

  /**
   * `.replace(/\s*,\s*.*$/, "")`: the leftmost match starts at the whitespace before the
   * first comma the pattern matches from, and runs to the end.
   */
  function StripNote(s: string): (r: string)
    ensures |r| <= |s| && r == s[..|r|]
  {
    match NoteComma(s, 0)
    case Some(q) => TrimEnd(s[..q])
    case None => s
  }

  /** `key.split(/\s+/)[0]`: the text before the first whitespace character. */
  function FirstWord(s: string): (r: string)
    ensures |r| <= |s| && r == s[..|r|]
    ensures forall i :: 0 <= i < |r| ==> !IsWhite(r[i])
    ensures |r| == |s| || IsWhite(s[|r|])
  {
    if s == [] || IsWhite(s[0]) then []
    else
      var w := [s[0]] + FirstWord(s[1..]);
      assert s[..|w|] == [s[0]] + s[1..][..|w| - 1];
      w
  }

  /** The comma-stripped key of an ingredient name that is already trimmed and lower-cased. */
  function NameKey(s: string): (key: string)
    ensures IsTrimmed(key)
  {
    Trim(StripNote(s))
  }

  /**
   * `map[base] ?? map[key] ?? key`: the table entry for the first word, else the table entry
   * for the whole key, else the whole key.
   */
  function Resolve(table: map<string, string>, key: string): (r: string)
    ensures r == key || r in table.Values
  {
    var base := FirstWord(key);
    if base in table then table[base]
    else if key in table then table[key]
    else key
  }

  /** `normalizeName`: trim and lower-case, empty stays empty, else drop the note and look up the table. */
  function NormalizeName(raw: string): (r: string)
    ensures AllWhite(raw) ==> r == []
  {
    var s := Lower(Trim(raw));
    if s == [] then [] else Resolve(SYNONYMS, NameKey(s))
  }

  /**
   * A name whose first word or whole key is in the table becomes a table value; any other
   * name keeps its whole comma-stripped key, never a one-word fragment of it.
   */
  lemma NormalizeNameResult(raw: string)
    requires !AllWhite(raw)
    ensures var key := NameKey(Lower(Trim(raw)));
            && (FirstWord(key) in SYNONYMS ==> NormalizeName(raw) == SYNONYMS[FirstWord(key)])
            && (FirstWord(key) !in SYNONYMS && key in SYNONYMS ==> NormalizeName(raw) == SYNONYMS[key])
            && (FirstWord(key) !in SYNONYMS && key !in SYNONYMS ==> NormalizeName(raw) == key)
  {
    assert Trim(raw) != [];
  }

  // The values are checked in six small groups: one obligation over all of them
  // is too large for the solver.
  lemma LowerValues0() ensures IsLower("zwiebel") && IsLower("knoblauch") && IsLower("tomate") {}
  lemma LowerValues1() ensures IsLower("kartoffel") && IsLower("ei") && IsLower("karotte") && IsLower("paprika") {}
  lemma LowerValues2() ensures IsLower("champignon") && IsLower("zitrone") && IsLower("orange") && IsLower("apfel") {}
  lemma LowerValues3() ensures IsLower("banane") && IsLower("mehl") && IsLower("zucker") && IsLower("salz") {}
  lemma LowerValues4() ensures IsLower("pfeffer") && IsLower("öl") && IsLower("butter") && IsLower("milch") {}
  lemma LowerValues5() ensures IsLower("sahne") && IsLower("käse") && IsLower("tapioka") {}

  /** The table maps to lower-case names. */
  lemma SynonymValuesLower()
    ensures forall k :: k in SYNONYMS ==> IsLower(SYNONYMS[k])
  {
    LowerValues0();
    LowerValues1();
    LowerValues2();
    LowerValues3();
    LowerValues4();
    LowerValues5();
  }

  /** A normalised name is lower case. */
  lemma NormalizeNameLower(raw: string)
    ensures IsLower(NormalizeName(raw))
  {
    var s := Lower(Trim(raw));
    if s != [] {
      LowerIsLower(Trim(raw));
      var key := NameKey(s);
      assert IsLower(key) by {
        var t := StripNote(s);
        IsLowerSlice(s, 0, |t|);
        TrimSlice(t);
        var i, j :| 0 <= i <= j <= |t| && Trim(t) == t[i..j];
        IsLowerSlice(t, i, j);
      }
      SynonymValuesLower();
    }
  }

  lemma NoCommaNoNote(s: string)
    requires forall i :: 0 <= i < |s| ==> s[i] != ','
    ensures StripNote(s) == s
  {
    assert NoteComma(s, 0).None?;
  }

  /** A note after the first comma is dropped when it has no line break. */
  lemma NoteDropped(name: string, note: string)
    requires forall i :: 0 <= i < |name| ==> name[i] != ','
    requires NoLineTerminator(note)
    ensures StripNote(name + "," + note) == TrimEnd(name)
  {
    var s := name + "," + note;
    assert s[|name|] == ',';
    assert s[|name| + 1..] == note;
    assert NoteAt(s, |name|);
    var r := NoteComma(s, 0);
    assert r.Some? && r.value <= |name|;
    assert forall j :: 0 <= j < |name| ==> s[j] == name[j];
    assert r.value == |name|;
    assert s[..|name|] == name;
  }

  lemma {:induction false} TrimEndAfter(a: string, b: string)
    requires a != [] && !IsWhite(a[|a| - 1])
    ensures TrimEnd(a + b) == a + TrimEnd(b)
    decreases |b|
  {
    if b == [] {
      assert a + b == a;
    } else if IsWhite(b[|b| - 1]) {
      assert (a + b)[..|a + b| - 1] == a + b[..|b| - 1];
      TrimEndAfter(a, b[..|b| - 1]);
    }
  }

  lemma TrimNameNote(name: string, note: string)
    requires IsTrimmed(name) && name != []
    ensures Trim(name + "," + note) == name + "," + TrimEnd(note)
  {
    var raw := name + "," + note;
    assert raw[0] == name[0];
    assert TrimStart(raw) == raw;
    TrimEndAfter(name + ",", note);
  }

  lemma LowerAroundComma(a: string, b: string)
    ensures Lower(a + "," + b) == Lower(a) + "," + Lower(b)
  {
    var x := Lower(a + "," + b);
    var y := Lower(a) + "," + Lower(b);
    assert |x| == |y|;
    forall i | 0 <= i < |x| ensures x[i] == y[i] {
      if i == |a| {
        assert (a + "," + b)[i] == ',';
      } else if i < |a| {
        assert (a + "," + b)[i] == a[i];
      } else {
        assert (a + "," + b)[i] == b[i - |a| - 1];
      }
    }
  }

  lemma NoCommaLower(name: string)
    requires forall i :: 0 <= i < |name| ==> name[i] != ','
    ensures forall i :: 0 <= i < |Lower(name)| ==> Lower(name)[i] != ','
  {
    forall i | 0 <= i < |name| ensures Lower(name)[i] != ',' {
      LowerCharKeepsNonLetters(name[i]);
    }
  }

  lemma NoLineTerminatorLowerTrimEnd(note: string)
    requires NoLineTerminator(note)
    ensures NoLineTerminator(Lower(TrimEnd(note)))
  {
    var t := TrimEnd(note);
    forall i | 0 <= i < |t| ensures !IsLineTerminator(Lower(t)[i]) {
      assert t[i] == note[i];
      LowerCharKeepsNonLetters(t[i]);
    }
  }

  /** The key of a trimmed name without a comma is the lower-cased name. */
  lemma KeyOfName(name: string)
    requires IsTrimmed(name)
    requires forall i :: 0 <= i < |name| ==> name[i] != ','
    ensures NameKey(Lower(Trim(name))) == Lower(name)
  {
    TrimOfTrimmed(name);
    NoCommaLower(name);
    NoCommaNoNote(Lower(name));
    TrimOfLower(name);
  }

  /** The key of a name with a comma note is the key of the name. */
  lemma KeyOfNameWithNote(name: string, note: string)
    requires IsTrimmed(name) && name != []
    requires forall i :: 0 <= i < |name| ==> name[i] != ','
    requires NoLineTerminator(note)
    ensures NameKey(Lower(Trim(name + "," + note))) == Lower(name)
  {
    var t := TrimEnd(note);
    TrimNameNote(name, note);
    LowerAroundComma(name, t);
    NoCommaLower(name);
    NoLineTerminatorLowerTrimEnd(note);
    NoteDropped(Lower(name), Lower(t));
    TrimEndOfLower(name);
    assert TrimEnd(name) == name;
    TrimOfLower(name);
    TrimOfTrimmed(name);
  }

  /**
   * Everything from the first comma on is dropped: a name followed by a comma and a note
   * (without line breaks) normalises like the name alone ("Zwiebel, fein gewürfelt").
   */
  lemma NameWithNote(name: string, note: string)
    requires IsTrimmed(name) && name != []
    requires forall i :: 0 <= i < |name| ==> name[i] != ','
    requires NoLineTerminator(note)
    ensures NormalizeName(name + "," + note) == NormalizeName(name)
  {
    KeyOfNameWithNote(name, note);
    KeyOfName(name);
    TrimNameNote(name, note);
    TrimOfTrimmed(name);
  }

  /** Case does not matter: a name and its lower-case form normalise alike. */
  lemma NormalizeNameIgnoresCase(raw: string)
    ensures NormalizeName(Lower(raw)) == NormalizeName(raw)
  {
    TrimOfLower(raw);
    LowerIsLower(Trim(raw));
    LowerOfLower(Lower(Trim(raw)));
  }

  /** Leading and trailing whitespace do not matter. */
  lemma NormalizeNameIgnoresSurroundingWhite(w1: string, raw: string, w2: string)
    requires AllWhite(w1) && AllWhite(w2)
    ensures NormalizeName(w1 + raw + w2) == NormalizeName(raw)
  {
    TrimAppendWhite(w1 + raw, w2);
    TrimPrependWhite(w1, raw);
  }

  /** Trimming first changes nothing: the name is trimmed anyway. */
  lemma NormalizeNameOfTrim(raw: string)
    ensures NormalizeName(Trim(raw)) == NormalizeName(raw)
  {
    TrimIdempotent(raw);
  }

  /** `normalized.charAt(0).toUpperCase() + normalized.slice(1)`. */
  function DisplayName(n: string): (d: string)
    ensures n == [] ==> d == []
    ensures n != [] ==> d == UpperChar(n[0]) + n[1..]
  {
    if n == [] then [] else UpperChar(n[0]) + n[1..]
  }

  /**
   * Lower-casing the display name gives the normalised name back, except for a leading
   * sharp s, which comes back as "ss"; the category is computed from that lower-cased form.
   */
  lemma DisplayNameLower(n: string)
    requires IsLower(n)
    ensures n != [] && n[0] == '\U{DF}' ==> Lower(DisplayName(n)) == "ss" + n[1..]
    ensures n == [] || n[0] != '\U{DF}' ==> Lower(DisplayName(n)) == n
  {
    if n != [] {
      LowerAppend(UpperChar(n[0]), n[1..]);
      LowerOfLower(n[1..]);
      assert LowerChar(n[0]) == n[0];
      if n[0] != '\U{DF}' {
        assert Lower(UpperChar(n[0])) == [n[0]];
        assert n == [n[0]] + n[1..];
      }
    }
  }
}
