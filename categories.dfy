/**
 * The shopping-aisle classifier: seven fixed categories in display order, six keyword
 * lists, and the match rule that decides whether a name belongs to a keyword.
 */
module Categories {
  import opened Text

  const VEGETABLE_LABEL: string := "Gemüse & Salat"
  const FRUIT_LABEL: string := "Obst"
  const DAIRY_LABEL: string := "Milchprodukte & Eier"
  const MEAT_FISH_LABEL: string := "Fleisch & Fisch"
  const GRAINS_LABEL: string := "Getreide & Backen"
  const SPICES_LABEL: string := "Gewürze & Öle"

  /** The catch-all category, last in the order. */
  const OTHER: string := "Sonstiges"

  /** The categories in the order the shopping list shows them. */
  const CATEGORY_ORDER: seq<string> := [
    VEGETABLE_LABEL, FRUIT_LABEL, DAIRY_LABEL, MEAT_FISH_LABEL, GRAINS_LABEL, SPICES_LABEL, OTHER
  ]

  const VEGETABLES: seq<string> := [
    "zwiebel", "tomate", "kartoffel", "karotte", "paprika", "champignon", "brokkoli",
    "blumenkohl", "spinat", "lauch", "sellerie", "gurke", "salat", "basilikum",
    "petersilie", "dill", "schnittlauch", "knoblauch", "rote bete", "bete", "edamame",
    "sprossen"
  ]

  const FRUIT: seq<string> := [
    "zitrone", "orange", "apfel", "banane", "beere", "erdbeere", "himbeere", "mango",
    "birne", "ananas", "apfelmus", "heidelbeere"
  ]

  const DAIRY: seq<string> := [
    "milch", "sahne", "käse", "butter", "ei", "joghurt", "quark", "frischkäse"
  ]

  const MEAT_FISH: seq<string> := [
    "huhn", "fleisch", "rind", "schwein", "lachs", "fisch", "wurst", "speck", "thunfisch"
  ]

  const GRAINS: seq<string> := [
    "mehl", "zucker", "backpulver", "hefe", "hafer", "reis", "nudeln", "brot", "semmel",
    "leinsamen", "buchweizen", "reismehl", "kokosraspel"
  ]

  const SPICES: seq<string> := [
    "salz", "pfeffer", "öl", "essig", "gewürz", "paprika", "curry", "oregano", "thymian",
    "zimt", "vanille", "sesam", "ahornsirup", "dressing"
  ]

  /** Keyword list i belongs to CATEGORY_ORDER[i]; the last category has none. */
  const KEYWORDS: seq<seq<string>> := [VEGETABLES, FRUIT, DAIRY, MEAT_FISH, GRAINS, SPICES]

  /** `(^|\s)ei(\s|$)` matches at index i of m. */
  predicate EiWordAt(m: string, i: int) {
    0 <= i && i + 2 <= |m| && m[i] == 'e' && m[i + 1] == 'i'
    && (i == 0 || IsWhite(m[i - 1])) && (i + 2 == |m| || IsWhite(m[i + 2]))
  }

  /** The regular-expression test, scanning m from index i on. */
  predicate EiWordFrom(m: string, i: nat)
    decreases |m| - i
  {
    i + 2 <= |m| && (EiWordAt(m, i) || EiWordFrom(m, i + 1))
  }

  /**
   * The match rule: the keyword "ei" must be a whole word of the name, looked for in the name
   * padded with one space at each end; every other keyword matches when either string
   * contains the other.
   */
  predicate MatchesWord(n: string, term: string) {
    if term == "ei" then n == "ei" || EiWordFrom(" " + n + " ", 0)
    else Contains(n, term) || Contains(term, n)
  }

  /** `terms.some(v => matchesWord(n, v))`. */
  predicate AnyMatches(n: string, terms: seq<string>)
    decreases |terms|, |n|
  {
    |terms| > 0 && (MatchesWord(n, terms[0]) || AnyMatches(n, terms[1..]))
  }

  /** `some` holds exactly when one keyword of the list matches the name. */
  lemma {:induction false} AnyMatchesSome(n: string, terms: seq<string>)
    ensures AnyMatches(n, terms) <==> exists i :: 0 <= i < |terms| && MatchesWord(n, terms[i])
    decreases |terms|
  {
    if |terms| > 0 {
      AnyMatchesSome(n, terms[1..]);
      if exists i :: 0 <= i < |terms| && MatchesWord(n, terms[i]) {
        var i :| 0 <= i < |terms| && MatchesWord(n, terms[i]);
        if i > 0 {
          assert terms[1..][i - 1] == terms[i];
        }
      }
      if AnyMatches(n, terms[1..]) {
        var i :| 0 <= i < |terms[1..]| && MatchesWord(n, terms[1..][i]);
        assert terms[i + 1] == terms[1..][i];
      }
    }
  }

  /** Row i of the keyword table holds a keyword the name matches. */
  predicate InTable(n: string, table: seq<seq<string>>, i: nat) {
    i < |table| && AnyMatches(n, table[i])
  }

  /**
   * The first row from index i on whose keywords the name matches; the table's length when
   * there is none. The classifier's chain of `if`s tries the lists in exactly this order.
   */
  function FirstIn(n: string, table: seq<seq<string>>, i: nat): (r: nat)
    requires i <= |table|
    ensures i <= r <= |table|
    ensures r < |table| ==> InTable(n, table, r)
    ensures forall j :: i <= j < r ==> !InTable(n, table, j)
    decreases |table| - i, |n|
  {
    if i == |table| then i
    else if InTable(n, table, i) then i
    else FirstIn(n, table, i + 1)
  }

  predicate Distinct(labels: seq<string>) {
    forall i, j :: 0 <= i < j < |labels| ==> labels[i] != labels[j]
  }

  /**
   * Classification against a table of keyword lists with one label per row and one more
   * for names no row matches: the label of the first matching row, and the last label
   * exactly when no row matches.
   */
  function Classify(n: string, table: seq<seq<string>>, labels: seq<string>): (c: string)
    requires |labels| == |table| + 1 && Distinct(labels)
    ensures c in labels
    ensures c == labels[|table|] <==> forall i :: 0 <= i < |table| ==> !InTable(n, table, i)
    ensures forall i :: 0 <= i < |table| && c == labels[i] ==>
              InTable(n, table, i) && forall j :: 0 <= j < i ==> !InTable(n, table, j)
  {
    labels[FirstIn(n, table, 0)]
  }

  /** The seven labels are pairwise different (their lengths already are). */
  lemma CategoryOrderDistinct()
    ensures Distinct(CATEGORY_ORDER)
  {
    assert |CATEGORY_ORDER[0]| == 14 && |CATEGORY_ORDER[1]| == 4 && |CATEGORY_ORDER[2]| == 20;
    assert |CATEGORY_ORDER[3]| == 15 && |CATEGORY_ORDER[4]| == 17 && |CATEGORY_ORDER[5]| == 13;
    assert |CATEGORY_ORDER[6]| == 9;
  }

  /** The first matching row is the one the scan returns. */
  lemma {:induction false} FirstInIs(n: string, table: seq<seq<string>>, i: nat, k: nat)
    requires i <= k < |table| && InTable(n, table, k)
    requires forall j :: i <= j < k ==> !InTable(n, table, j)
    ensures FirstIn(n, table, i) == k
    decreases |table| - i
  {
    if i < k {
      FirstInIs(n, table, i + 1, k);
    }
  }

  /** `getCategory`: always one of the seven categories. */
  function GetCategory(n: string): (c: string)
    ensures c in CATEGORY_ORDER
  {
    CategoryOrderDistinct();
    Classify(n, KEYWORDS, CATEGORY_ORDER)
  }

  /**
   * The category of a name is the first, in display order, with a keyword the name
   * matches, and the last one, "Sonstiges", exactly when no keyword matches.
   */
  lemma GetCategoryFirstMatch(n: string)
    ensures GetCategory(n) == CATEGORY_ORDER[|KEYWORDS|] <==>
              forall i :: 0 <= i < |KEYWORDS| ==> !InTable(n, KEYWORDS, i)
    ensures forall i :: 0 <= i < |KEYWORDS| && GetCategory(n) == CATEGORY_ORDER[i] ==>
              InTable(n, KEYWORDS, i) && forall j :: 0 <= j < i ==> !InTable(n, KEYWORDS, j)
  {
    CategoryOrderDistinct();
  }

  /** The catch-all category is the one after the six keyword lists. */
  lemma OtherIsLast()
    ensures |KEYWORDS| == 6 && |CATEGORY_ORDER| == 7 && CATEGORY_ORDER[|KEYWORDS|] == OTHER
  {
  }

  /** A name whose first matching list is row k gets the k-th category. */
  lemma GetCategoryPicks(n: string, k: nat)
    requires k < |KEYWORDS| && InTable(n, KEYWORDS, k)
    requires forall j :: 0 <= j < k ==> !InTable(n, KEYWORDS, j)
    ensures GetCategory(n) == CATEGORY_ORDER[k]
  {
    FirstInIs(n, KEYWORDS, 0, k);
  }

  /** A name matching the first row gets the first label, whatever else it matches. */
  lemma ClassifyFirst(n: string, table: seq<seq<string>>, labels: seq<string>)
    requires |labels| == |table| + 1 && Distinct(labels)
    requires InTable(n, table, 0)
    ensures Classify(n, table, labels) == labels[0]
  {
  }

  /** A name matching a vegetable keyword is a vegetable, whatever else it matches. */
  lemma VegetableFirst(n: string)
    requires InTable(n, KEYWORDS, 0)
    ensures GetCategory(n) == VEGETABLE_LABEL
  {
    CategoryOrderDistinct();
    ClassifyFirst(n, KEYWORDS, CATEGORY_ORDER);
  }

  /** The padded regular-expression scan finds a whole word "ei" at or after index i. */
  lemma {:induction false} EiWordFromAt(m: string, i: nat)
    ensures EiWordFrom(m, i) <==> exists j :: i <= j && EiWordAt(m, j)
    decreases |m| - i
  {
    if i + 2 <= |m| {
      EiWordFromAt(m, i + 1);
      if exists j :: i <= j && EiWordAt(m, j) {
        var j :| i <= j && EiWordAt(m, j);
        assert j == i || (i + 1 <= j && EiWordAt(m, j));
      }
    } else {
      assert forall j :: i <= j ==> !EiWordAt(m, j);
    }
  }

  /**
   * The keyword "ei" matches exactly the names that contain "ei" as a whole word: preceded
   * by the start or by whitespace, and followed by the end or by whitespace.
   */
  lemma MatchesEiWholeWord(n: string)
    ensures MatchesWord(n, "ei") <==> exists k :: EiWordAt(n, k)
  {
    var m := " " + n + " ";
    EiWordFromAt(m, 0);
    if exists j :: 0 <= j && EiWordAt(m, j) {
      var j :| 0 <= j && EiWordAt(m, j);
      assert 1 <= j <= |n| - 1;
      assert n[j - 1] == m[j] && n[j] == m[j + 1];
      assert j - 1 > 0 ==> n[j - 2] == m[j - 1];
      assert j + 1 < |n| ==> n[j + 1] == m[j + 2];
      assert EiWordAt(n, j - 1);
    }
    if exists k :: EiWordAt(n, k) {
      var k :| EiWordAt(n, k);
      assert m[k + 1] == n[k] && m[k + 2] == n[k + 1];
      assert k > 0 ==> m[k] == n[k - 1];
      assert k + 2 < |n| ==> m[k + 3] == n[k + 2];
      assert EiWordAt(m, k + 1);
    }
  }

  /** Every other keyword matches when either string contains the other as a slice. */
  lemma MatchesOtherKeyword(n: string, term: string)
    requires term != "ei"
    ensures MatchesWord(n, term) <==> (exists i :: OccursAt(n, term, i)) || (exists i :: OccursAt(term, n, i))
  {
    ContainsAt(n, term);
    ContainsAt(term, n);
  }

  /** No vegetable keyword matches "ei". */
  lemma EiMatchesNoVegetable()
    ensures forall i :: 0 <= i < |VEGETABLES| ==> !MatchesWord("ei", VEGETABLES[i])
  {
    forall i | 0 <= i < |VEGETABLES| ensures !MatchesWord("ei", VEGETABLES[i]) {
      assert VEGETABLES[i] != "ei";
    }
  }

  /** Hence "ei" is not in the first category. */
  lemma EiNotVegetable()
    ensures !InTable("ei", KEYWORDS, 0)
  {
    EiMatchesNoVegetable();
    AnyMatchesSome("ei", VEGETABLES);
  }

  /** "ei" is inside the fruit keyword "heidelbeere", and the two-way test accepts that. */
  lemma EiMatchesFruit()
    ensures InTable("ei", KEYWORDS, 1)
  {
    assert MatchesWord("ei", FRUIT[11]);
    AnyMatchesSome("ei", FRUIT);
  }

  /** A name matching a fruit keyword and no vegetable keyword is fruit. */
  lemma FruitSecond(n: string)
    requires !InTable(n, KEYWORDS, 0) && InTable(n, KEYWORDS, 1)
    ensures GetCategory(n) == FRUIT_LABEL
  {
    GetCategoryPicks(n, 1);
  }

  /**
   * The name "ei" (also what "Eier" normalises to) is classified as fruit, not as dairy and
   * eggs: the whole-word rule applies only when the keyword is "ei".
   */
  lemma EiIsFruit()
    ensures GetCategory("ei") == FRUIT_LABEL
  {
    EiNotVegetable();
    EiMatchesFruit();
    FruitSecond("ei");
  }

  /** "paprika" is a vegetable and a spice keyword; the earlier category wins. */
  lemma PaprikaIsVegetable()
    ensures GetCategory("paprika") == VEGETABLE_LABEL
  {
    assert MatchesWord("paprika", VEGETABLES[4]);
    AnyMatchesSome("paprika", VEGETABLES);
    VegetableFirst("paprika");
  }

  /** The empty name is inside every keyword, so it lands in the first category. */
  lemma EmptyNameIsVegetable()
    ensures GetCategory("") == VEGETABLE_LABEL
  {
    assert MatchesWord("", VEGETABLES[0]);
    AnyMatchesSome("", VEGETABLES);
    VegetableFirst("");
  }

  /** The whole-word rule keeps "ei" from matching inside longer words. */
  lemma EiNotInsideWords()
    ensures !MatchesWord("leinsamen", "ei") && !MatchesWord("eier", "ei")
    ensures MatchesWord("2 ei", "ei")
  {
    MatchesEiWholeWord("leinsamen");
    MatchesEiWholeWord("eier");
    MatchesEiWholeWord("2 ei");
    assert EiWordAt("2 ei", 2);
  }
}
