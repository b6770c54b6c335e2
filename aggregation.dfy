/**
 * The accumulation loop of `getShoppingList`: every ingredient of every planned recipe is
 * filed under the key "normalised name::unit". The first sighting of a key opens a bucket.
 * Later sightings add their recipe and merge their amount into it.
 *
 * Specified as a fold over the sequence of visits (recipe, ingredient) in loop order.
 * The loop itself is `CollectEntries`, its inner loop `FileRecipe`, and one turn of that `FileIngredient`.
 */
module Aggregation {
  import opened Wrappers
  import opened Text
  import opened Amounts
  import opened Names

  /** An element of a recipe's ingredient list; a missing field is `None`. */
  datatype Ingredient = Ingredient(amount: Option<string>, unit: Option<string>, name: Option<string>)

  /** A planned recipe. Its ingredients are `None` when the stored JSON is malformed or not an array. */
  datatype PlannedRecipe = PlannedRecipe(title: string, ingredients: Option<seq<Ingredient>>)

  /** One turn of the inner loop: an ingredient with the recipe it belongs to. */
  datatype Visit = Visit(recipeKey: string, recipeTitle: string, ingredient: Ingredient)

  /** What one turn of the inner loop computes before it touches the map: key, unit, amount, number, display name. */
  datatype Sighting = Sighting(
    recipeKey: string, recipeTitle: string,
    key: string, unit: string, amount: string, value: Option<real>, displayName: string)

  /** An entry of a bucket's recipe map: normalised title to the first title seen with it. */
  datatype RecipeRef = RecipeRef(key: string, title: string)

  /** A bucket of `byKey`; `numeric` is `numericAmount`, `None` for `undefined`. */
  datatype Bucket = Bucket(
    amount: string, unit: string, recipes: seq<RecipeRef>, numeric: Option<real>, displayName: string)

  /** The `byKey` map, with its keys in insertion order (the order a JavaScript `Map` iterates in). */
  datatype Groups = Groups(byKey: map<string, Bucket>, order: seq<string>)

  const EMPTY: Groups := Groups(map[], [])

  /** `s || "—"`: an empty string is replaced by the placeholder. */
  function OrPlaceholder(s: string): (r: string)
    ensures r != []
    ensures s != [] ==> r == s
  {
    if s == [] then PLACEHOLDER else s
  }

  lemma PlaceholderTrimmed()
    ensures IsTrimmed(PLACEHOLDER)
  {
    assert !IsWhite(PLACEHOLDER[0]);
  }

  /**
   * The values the inner loop computes for one ingredient, or `None` when its name is blank
   * and the ingredient is skipped (`continue`).
   */
  function Sight(v: Visit, read: string -> Option<real>): (r: Option<Sighting>)
    ensures r.None? <==> AllWhite(v.ingredient.name.GetOr(""))
    ensures r.Some? ==> r.value.recipeKey == v.recipeKey && r.value.recipeTitle == v.recipeTitle
  {
    var rawName := Trim(v.ingredient.name.GetOr(""));
    if rawName == [] then None
    else
      var normalized := NormalizeName(rawName);
      var unit := OrPlaceholder(Trim(v.ingredient.unit.GetOr("")));
      var amount := OrPlaceholder(Trim(v.ingredient.amount.GetOr("")));
      Some(Sighting(v.recipeKey, v.recipeTitle, normalized + "::" + unit, unit, amount,
                    read(amount), DisplayName(normalized)))
  }

  /** Whether the recipe map already holds the normalised title `key` (`recipes.has`). */
  predicate HasRecipe(refs: seq<RecipeRef>, key: string) {
    exists i :: 0 <= i < |refs| && refs[i].key == key
  }

  /** `if (!recipes.has(key)) recipes.set(key, title)`. */
  function AddRecipe(refs: seq<RecipeRef>, key: string, title: string): seq<RecipeRef> {
    if HasRecipe(refs, key) then refs else refs + [RecipeRef(key, title)]
  }

  /** A number in bucket form: the sum and its amount text. */
  function Summed(cur: Bucket, sum: real): Bucket {
    cur.(numeric := Some(sum), amount := FormatAmount(sum))
  }

  /**
   * The amount of a repeat sighting merged into the bucket. `reparsed` is the number the
   * loop reads back from the bucket's amount text when the bucket has none. Only the amount
   * and its number change.
   */
  function MergeAmount(cur: Bucket, amount: string, value: Option<real>, reparsed: Option<real>): (b: Bucket)
    ensures b.recipes == cur.recipes && b.unit == cur.unit && b.displayName == cur.displayName
  {
    if value.Some? && cur.numeric.Some? then
      Summed(cur, cur.numeric.value + value.value)
    else if value.Some? && cur.amount != PLACEHOLDER then
      match reparsed
      case Some(curNum) => Summed(cur, curNum + value.value)
      case None => cur
    else if amount != PLACEHOLDER && cur.amount != PLACEHOLDER && cur.amount != amount then
      cur.(amount := cur.amount + " + " + amount)
    else cur
  }

  /** The bucket a first sighting opens, with its recipe map holding that one recipe. */
  function NewBucket(s: Sighting): Bucket {
    Bucket(s.amount, s.unit, [RecipeRef(s.recipeKey, s.recipeTitle)], s.value, s.displayName)
  }

  /**
   * A sighting filed into the map. `read` is how an amount text is read as a number when
   * the bucket's text is parsed again: `NumericValue` in the loop.
   */
  function Observe(g: Groups, s: Sighting, read: string -> Option<real>): Groups {
    if s.key !in g.byKey then
      Groups(g.byKey[s.key := NewBucket(s)], g.order + [s.key])
    else
      var cur := g.byKey[s.key];
      var withRecipe := cur.(recipes := AddRecipe(cur.recipes, s.recipeKey, s.recipeTitle));
      Groups(g.byKey[s.key := MergeAmount(withRecipe, s.amount, s.value, read(cur.amount))], g.order)
  }

  /** The map after the given sightings, starting from an empty one. */
  function Fold(ss: seq<Sighting>, read: string -> Option<real>): Groups
    decreases |ss|
  {
    if ss == [] then EMPTY else Observe(Fold(ss[..|ss| - 1], read), ss[|ss| - 1], read)
  }

  /** What one turn of the inner loop files: nothing when the name is blank. */
  function SightList(v: Visit, read: string -> Option<real>): seq<Sighting> {
    match Sight(v, read)
    case None => []
    case Some(s) => [s]
  }

  /** The sightings of the given turns, in loop order. */
  function Observations(vs: seq<Visit>, read: string -> Option<real>): seq<Sighting>
    decreases |vs|
  {
    if vs == [] then [] else Observations(vs[..|vs| - 1], read) + SightList(vs[|vs| - 1], read)
  }

  /** The turns of the inner loop for one recipe: none when its ingredients did not parse. */
  function Visits(r: PlannedRecipe): (vs: seq<Visit>)
    ensures forall i :: 0 <= i < |vs| ==> vs[i].recipeKey == NormalizeRecipeTitle(vs[i].recipeTitle)
  {
    match r.ingredients
    case None => []
    case Some(list) =>
      var key := NormalizeRecipeTitle(r.title);
      seq(|list|, i requires 0 <= i < |list| => Visit(key, r.title, list[i]))
  }

  /** All turns of both loops, recipe by recipe. */
  function AllVisits(rs: seq<PlannedRecipe>): seq<Visit>
    decreases |rs|
  {
    if rs == [] then [] else AllVisits(rs[..|rs| - 1]) + Visits(rs[|rs| - 1])
  }

  /** The map after `getShoppingList`'s loop over the planned recipes. */
  function Collect(rs: seq<PlannedRecipe>): Groups {
    Fold(Observations(AllVisits(rs), NumericValue), NumericValue)
  }

  // ---------------------------------------------------------------------------
  // Reference definitions: what the turns for one key saw
  // ---------------------------------------------------------------------------

  /** The sightings filed under key k, in loop order. */
  function Seen(ss: seq<Sighting>, k: string): seq<Sighting>
    decreases |ss|
  {
    if ss == [] then []
    else Seen(ss[..|ss| - 1], k) + (if ss[|ss| - 1].key == k then [ss[|ss| - 1]] else [])
  }

  predicate AllNumeric(ss: seq<Sighting>) {
    forall i :: 0 <= i < |ss| ==> ss[i].value.Some?
  }

  /** The sum of the sightings' numbers. */
  function Sum(ss: seq<Sighting>): real
    decreases |ss|
  {
    if ss == [] then 0.0 else Sum(ss[..|ss| - 1]) + ss[|ss| - 1].value.GetOr(0.0)
  }

  function RecipeKeys(refs: seq<RecipeRef>): set<string> {
    set i | 0 <= i < |refs| :: refs[i].key
  }

  function SeenRecipeKeys(ss: seq<Sighting>): set<string> {
    set i | 0 <= i < |ss| :: ss[i].recipeKey
  }

  /** The title of the first sighting from the recipe with normalised title rk. */
  function FirstTitle(ss: seq<Sighting>, rk: string): Option<string>
    decreases |ss|
  {
    if ss == [] then None
    else
      match FirstTitle(ss[..|ss| - 1], rk)
      case Some(t) => Some(t)
      case None => if ss[|ss| - 1].recipeKey == rk then Some(ss[|ss| - 1].recipeTitle) else None
  }

  // ---------------------------------------------------------------------------
  // The invariant of the map
  // ---------------------------------------------------------------------------

  /** A bucket's recipe map holds each normalised title once, and the placeholder amount comes without a number. */
  predicate BucketOk(b: Bucket) {
    RecipesOk(b.recipes) && (b.amount == PLACEHOLDER ==> b.numeric.None?)
  }

  predicate RecipesOk(refs: seq<RecipeRef>) {
    forall i, j :: 0 <= i < j < |refs| ==> refs[i].key != refs[j].key
  }

  /** Every key is in the map once, in insertion order, and every bucket is well formed. */
  ghost predicate Valid(g: Groups) {
    && (forall i, j :: 0 <= i < j < |g.order| ==> g.order[i] != g.order[j])
    && (forall i :: 0 <= i < |g.order| ==> g.order[i] in g.byKey)
    && (forall k :: k in g.byKey ==> k in g.order)
    && (forall k :: k in g.byKey ==> BucketOk(g.byKey[k]))
  }

  /** A sighting as the loop makes it: the placeholder amount has no number. */
  predicate SightingOk(s: Sighting) {
    s.amount == PLACEHOLDER ==> s.value.None?
  }

  predicate FromRecipes(ss: seq<Sighting>) {
    forall i :: 0 <= i < |ss| ==> SightingOk(ss[i])
  }

  // ---------------------------------------------------------------------------
  // One sighting
  // ---------------------------------------------------------------------------

  /**
   * The key is the normalised name, "::", and the trimmed unit or the placeholder; the
   * number is what `parseAmount` reads (the `parseFloat` fallback after it never adds one).
   */
  lemma SightKey(v: Visit, read: string -> Option<real>)
    requires !AllWhite(v.ingredient.name.GetOr(""))
    ensures Sight(v, read).value.key ==
            NormalizeName(v.ingredient.name.GetOr("")) + "::" + OrPlaceholder(Trim(v.ingredient.unit.GetOr("")))
  {
    NormalizeNameOfTrim(v.ingredient.name.GetOr(""));
  }

  /** The amount is the trimmed amount or the placeholder, and its number is what `parseAmount` reads. */
  lemma SightValue(v: Visit)
    requires !AllWhite(v.ingredient.name.GetOr(""))
    ensures Sight(v, NumericValue).value.amount == OrPlaceholder(Trim(v.ingredient.amount.GetOr("")))
    ensures Sight(v, NumericValue).value.value == ParseAmount(Sight(v, NumericValue).value.amount)
  {
    var t := Trim(v.ingredient.amount.GetOr(""));
    PlaceholderTrimmed();
    FallbackRedundant(OrPlaceholder(t));
  }

  /** The loop's sightings are well formed. */
  lemma SightOk(v: Visit, read: string -> Option<real>)
    requires read(PLACEHOLDER).None?
    requires !AllWhite(v.ingredient.name.GetOr(""))
    ensures SightingOk(Sight(v, read).value)
  {
  }

  /** Both amounts numeric: they are summed, and the sum is written out. */
  lemma MergeBothNumeric(cur: Bucket, amount: string, value: Option<real>, reparsed: Option<real>, sum: real)
    requires cur.numeric.Some? && value.Some? && sum == cur.numeric.value + value.value
    ensures MergeAmount(cur, amount, value, reparsed) == Summed(cur, sum)
    ensures MergeAmount(cur, amount, value, reparsed).amount == FormatAmount(sum)
  {
  }

  /**
   * A number arriving at a bucket whose amount is text: the text is read again, and when it
   * holds a number the two are summed.
   */
  lemma MergeReparsed(cur: Bucket, amount: string, value: Option<real>, reparsed: Option<real>, sum: real)
    requires cur.numeric.None? && value.Some? && cur.amount != PLACEHOLDER && reparsed.Some?
    requires sum == reparsed.value + value.value
    ensures MergeAmount(cur, amount, value, reparsed) == Summed(cur, sum)
    ensures MergeAmount(cur, amount, value, reparsed).amount == FormatAmount(sum)
  {
  }

  /** In every case not summed and not joined the bucket stays as it is. */
  lemma MergeOtherwise(cur: Bucket, amount: string, value: Option<real>, reparsed: Option<real>)
    requires !(value.Some? && cur.numeric.Some?)
    requires !(value.Some? && cur.amount != PLACEHOLDER && reparsed.Some?)
    requires !(value.None? && amount != PLACEHOLDER && cur.amount != PLACEHOLDER && cur.amount != amount)
    ensures MergeAmount(cur, amount, value, reparsed) == cur
  {
  }

  /** A new text amount that differs from the current one is appended after " + ". */
  lemma MergeText(cur: Bucket, amount: string, value: Option<real>, reparsed: Option<real>)
    requires value.None? && amount != PLACEHOLDER && cur.amount != PLACEHOLDER && cur.amount != amount
    ensures MergeAmount(cur, amount, value, reparsed) == cur.(amount := cur.amount + " + " + amount)
  {
  }

  /** A text amount equal to the current one, or either side the placeholder, changes nothing. */
  lemma MergeUnchanged(cur: Bucket, amount: string, value: Option<real>, reparsed: Option<real>)
    requires BucketOk(cur)
    requires value.None? || cur.amount == PLACEHOLDER
    requires amount == cur.amount || amount == PLACEHOLDER || cur.amount == PLACEHOLDER
    ensures MergeAmount(cur, amount, value, reparsed) == cur
  {
  }

  /**
   * A number arriving at a bucket whose amount is text without a number is dropped: the
   * bucket keeps its text and still has no number.
   */
  lemma MergeDropsNumber(cur: Bucket, amount: string, value: Option<real>, reparsed: Option<real>)
    requires value.Some? && cur.numeric.None? && reparsed.None?
    ensures MergeAmount(cur, amount, value, reparsed) == cur
  {
  }

  /** "1,5" and "0,5" give "2"; "1,5" and "1" give "2,5". */
  lemma SumExamples()
    ensures FormatAmount(1.5 + 0.5) == "2"
    ensures FormatAmount(1.5 + 1.0) == "2,5"
  {
    assert IsWhole(2.0);
    assert !IsWhole(2.5) && Tenths(2.5) == 25;
  }

  // ---------------------------------------------------------------------------
  // The fold
  // ---------------------------------------------------------------------------

  lemma RecipeKeysAppend(refs: seq<RecipeRef>, r: RecipeRef)
    ensures RecipeKeys(refs + [r]) == RecipeKeys(refs) + {r.key}
  {
    var t := refs + [r];
    assert forall i :: 0 <= i < |refs| ==> t[i] == refs[i];
    assert t[|refs|] == r;
  }

  lemma SeenRecipeKeysAppend(ss: seq<Sighting>, s: Sighting)
    ensures SeenRecipeKeys(ss + [s]) == SeenRecipeKeys(ss) + {s.recipeKey}
  {
    var t := ss + [s];
    assert forall i :: 0 <= i < |ss| ==> t[i] == ss[i];
    assert t[|ss|] == s;
  }

  lemma HasRecipeKeys(refs: seq<RecipeRef>, key: string)
    ensures HasRecipe(refs, key) <==> key in RecipeKeys(refs)
  {
  }

  /** The text of a sum is never the placeholder. */
  lemma FormatNotPlaceholder(x: real)
    ensures FormatAmount(x) != PLACEHOLDER
  {
    if IsWhole(x) {
      var n := x.Floor;
      if n < 0 {
        NatToStringValue(-n);
        assert |IntToString(n)| >= 2;
      } else {
        NatToStringValue(n);
        assert IsDigit(IntToString(n)[0]);
      }
    } else {
      FractionText(x);
      assert |FormatAmount(x)| >= 3;
    }
  }

  /** Merging an amount keeps a bucket well formed. */
  lemma MergeAmountOk(cur: Bucket, amount: string, value: Option<real>, reparsed: Option<real>)
    requires BucketOk(cur)
    ensures BucketOk(MergeAmount(cur, amount, value, reparsed))
  {
    var b := MergeAmount(cur, amount, value, reparsed);
    assert b.recipes == cur.recipes;
    if value.Some? && cur.numeric.Some? {
      FormatNotPlaceholder(cur.numeric.value + value.value);
      assert b.amount != PLACEHOLDER;
    } else if value.Some? && cur.amount != PLACEHOLDER {
      if reparsed.Some? {
        FormatNotPlaceholder(reparsed.value + value.value);
        assert b.amount != PLACEHOLDER;
      } else {
        assert b == cur;
      }
    } else if amount != PLACEHOLDER && cur.amount != PLACEHOLDER && cur.amount != amount {
      assert |b.amount| >= 3;
    } else {
      assert b == cur;
    }
  }

  lemma AddRecipeOk(refs: seq<RecipeRef>, s: Sighting)
    requires RecipesOk(refs) && SightingOk(s)
    ensures RecipesOk(AddRecipe(refs, s.recipeKey, s.recipeTitle))
  {
    if !HasRecipe(refs, s.recipeKey) {
      var refs' := refs + [RecipeRef(s.recipeKey, s.recipeTitle)];
      assert forall i :: 0 <= i < |refs| ==> refs'[i] == refs[i];
    }
  }

  lemma ValidInsert(g: Groups, key: string, b: Bucket)
    requires Valid(g) && key !in g.byKey && BucketOk(b)
    ensures Valid(Groups(g.byKey[key := b], g.order + [key]))
  {
    var order := g.order + [key];
    assert forall i :: 0 <= i < |g.order| ==> order[i] == g.order[i];
    assert forall i :: 0 <= i < |g.order| ==> g.order[i] != key;
  }

  lemma ValidUpdate(g: Groups, key: string, b: Bucket)
    requires Valid(g) && key in g.byKey && BucketOk(b)
    ensures Valid(Groups(g.byKey[key := b], g.order))
  {
  }

  /** A sighting keeps the map well formed. */
  lemma ObserveValid(g: Groups, s: Sighting, read: string -> Option<real>)
    requires Valid(g) && SightingOk(s)
    ensures Valid(Observe(g, s, read))
  {
    if s.key !in g.byKey {
      ValidInsert(g, s.key, NewBucket(s));
    } else {
      var cur := g.byKey[s.key];
      assert BucketOk(cur);
      AddRecipeOk(cur.recipes, s);
      var withRecipe := cur.(recipes := AddRecipe(cur.recipes, s.recipeKey, s.recipeTitle));
      MergeAmountOk(withRecipe, s.amount, s.value, read(cur.amount));
      ValidUpdate(g, s.key, MergeAmount(withRecipe, s.amount, s.value, read(cur.amount)));
    }
  }

  /** The fold keeps the map well formed. */
  lemma {:induction false} FoldValid(ss: seq<Sighting>, read: string -> Option<real>)
    requires FromRecipes(ss)
    ensures Valid(Fold(ss, read))
    decreases |ss|
  {
    if ss != [] {
      var init := ss[..|ss| - 1];
      assert FromRecipes(init) by {
        assert forall i :: 0 <= i < |init| ==> init[i] == ss[i];
      }
      FoldValid(init, read);
      ObserveValid(Fold(init, read), ss[|ss| - 1], read);
    }
  }

  /** A key has a bucket exactly when some ingredient was filed under it. */
  lemma {:induction false} FoldKeys(ss: seq<Sighting>, read: string -> Option<real>, k: string)
    ensures k in Fold(ss, read).byKey <==> Seen(ss, k) != []
    decreases |ss|
  {
    if ss != [] {
      FoldKeys(ss[..|ss| - 1], read, k);
    }
  }

  /** A sighting filed under another key leaves the bucket of k alone. */
  lemma ObserveOtherKey(g: Groups, s: Sighting, read: string -> Option<real>, k: string)
    requires s.key != k && k in g.byKey
    ensures k in Observe(g, s, read).byKey && Observe(g, s, read).byKey[k] == g.byKey[k]
  {
  }

  /** The first sighting of a key opens its bucket. */
  lemma ObserveNew(g: Groups, s: Sighting, read: string -> Option<real>)
    requires s.key !in g.byKey
    ensures s.key in Observe(g, s, read).byKey && Observe(g, s, read).byKey[s.key] == NewBucket(s)
  {
  }

  /** A number filed under a key whose bucket holds a number is added to it. */
  lemma ObserveSum(g: Groups, s: Sighting, read: string -> Option<real>, x: real)
    requires s.key in g.byKey && g.byKey[s.key].numeric == Some(x) && s.value.Some?
    ensures s.key in Observe(g, s, read).byKey
    ensures Observe(g, s, read).byKey[s.key].numeric == Some(x + s.value.value)
    ensures Observe(g, s, read).byKey[s.key].amount == FormatAmount(x + s.value.value)
  {
  }

  /** Whatever is filed under a key whose bucket holds the placeholder, it stays. */
  lemma ObservePlaceholder(g: Groups, s: Sighting, read: string -> Option<real>)
    requires s.key in g.byKey && g.byKey[s.key].amount == PLACEHOLDER && g.byKey[s.key].numeric.None?
    ensures s.key in Observe(g, s, read).byKey
    ensures Observe(g, s, read).byKey[s.key].amount == PLACEHOLDER && Observe(g, s, read).byKey[s.key].numeric.None?
  {
  }

  /** A bucket takes its unit and display name from the first ingredient filed under its key. */
  lemma {:induction false} FoldFirst(ss: seq<Sighting>, read: string -> Option<real>, k: string)
    requires Seen(ss, k) != []
    ensures k in Fold(ss, read).byKey
    ensures Fold(ss, read).byKey[k].unit == Seen(ss, k)[0].unit
    ensures Fold(ss, read).byKey[k].displayName == Seen(ss, k)[0].displayName
    decreases |ss|
  {
    FoldKeys(ss, read, k);
    var init, s := ss[..|ss| - 1], ss[|ss| - 1];
    FoldKeys(init, read, k);
    if Seen(init, k) != [] {
      FoldFirst(init, read, k);
      assert Seen(ss, k)[0] == Seen(init, k)[0];
      if s.key != k {
        ObserveOtherKey(Fold(init, read), s, read, k);
      }
    }
  }

  /** The first sighting under k, when it is the last of ss, is the only one and its number is the sum. */
  lemma SeenFirst(ss: seq<Sighting>, k: string)
    requires ss != [] && Seen(ss[..|ss| - 1], k) == [] && Seen(ss, k) != [] && AllNumeric(Seen(ss, k))
    ensures Seen(ss, k) == [ss[|ss| - 1]] && ss[|ss| - 1].key == k
    ensures ss[|ss| - 1].value.Some? && Sum(Seen(ss, k)) == ss[|ss| - 1].value.value
  {
    var seen := Seen(ss, k);
    assert seen[..0] == [];
    assert seen[0].value.Some?;
  }

  /** A further number under k adds to the sum of the earlier ones, and makes more than one. */
  lemma SeenRepeat(ss: seq<Sighting>, k: string)
    requires ss != [] && ss[|ss| - 1].key == k && Seen(ss[..|ss| - 1], k) != [] && AllNumeric(Seen(ss, k))
    ensures ss[|ss| - 1].value.Some? && |Seen(ss, k)| != 1
    ensures Sum(Seen(ss, k)) == Sum(Seen(ss[..|ss| - 1], k)) + ss[|ss| - 1].value.value
  {
    var seen, before := Seen(ss, k), Seen(ss[..|ss| - 1], k);
    assert seen == before + [ss[|ss| - 1]];
    assert seen[..|seen| - 1] == before;
    assert seen[|seen| - 1].value.Some?;
  }

  /**
   * When every amount filed under k is a number, the bucket's number is their sum, and its
   * amount is the first amount as written if it is the only one, else the sum's text.
   */
  lemma {:induction false} FoldNumericSum(ss: seq<Sighting>, read: string -> Option<real>, k: string)
    requires Seen(ss, k) != [] && AllNumeric(Seen(ss, k))
    ensures k in Fold(ss, read).byKey
    ensures Fold(ss, read).byKey[k].numeric == Some(Sum(Seen(ss, k)))
    ensures Fold(ss, read).byKey[k].amount ==
            if |Seen(ss, k)| == 1 then Seen(ss, k)[0].amount else FormatAmount(Sum(Seen(ss, k)))
    decreases |ss|
  {
    FoldKeys(ss, read, k);
    var init, s := ss[..|ss| - 1], ss[|ss| - 1];
    var seen := Seen(ss, k);
    FoldKeys(init, read, k);
    var g := Fold(init, read);
    assert Fold(ss, read) == Observe(g, s, read);
    if Seen(init, k) == [] {
      SeenFirst(ss, k);
      ObserveNew(g, s, read);
    } else {
      assert AllNumeric(Seen(init, k)) by {
        assert forall i :: 0 <= i < |Seen(init, k)| ==> Seen(init, k)[i] == seen[i];
      }
      FoldNumericSum(init, read, k);
      if s.key != k {
        assert seen == Seen(init, k);
        ObserveOtherKey(g, s, read, k);
      } else {
        SeenRepeat(ss, k);
        ObserveSum(g, s, read, Sum(Seen(init, k)));
      }
    }
  }

  /** The placeholder is sticky: a bucket opened with "—" keeps it whatever follows. */
  lemma {:induction false} FoldPlaceholderSticky(ss: seq<Sighting>, read: string -> Option<real>, k: string)
    requires FromRecipes(ss)
    requires Seen(ss, k) != [] && Seen(ss, k)[0].amount == PLACEHOLDER
    ensures k in Fold(ss, read).byKey
    ensures Fold(ss, read).byKey[k].amount == PLACEHOLDER && Fold(ss, read).byKey[k].numeric.None?
    decreases |ss|
  {
    FoldKeys(ss, read, k);
    var init, s := ss[..|ss| - 1], ss[|ss| - 1];
    FoldKeys(init, read, k);
    assert SightingOk(s);
    if Seen(init, k) == [] {
      assert Seen(ss, k) == [s];
      ObserveNew(Fold(init, read), s, read);
    } else {
      assert Seen(ss, k)[0] == Seen(init, k)[0];
      assert FromRecipes(init) by {
        assert forall i :: 0 <= i < |init| ==> init[i] == ss[i];
      }
      FoldPlaceholderSticky(init, read, k);
      if s.key != k {
        ObserveOtherKey(Fold(init, read), s, read, k);
      } else {
        ObservePlaceholder(Fold(init, read), s, read);
      }
    }
  }

  lemma {:induction false} FirstTitleNone(ss: seq<Sighting>, rk: string)
    ensures FirstTitle(ss, rk).None? <==> rk !in SeenRecipeKeys(ss)
    decreases |ss|
  {
    if ss != [] {
      FirstTitleNone(ss[..|ss| - 1], rk);
      SeenRecipeKeysAppend(ss[..|ss| - 1], ss[|ss| - 1]);
      assert ss == ss[..|ss| - 1] + [ss[|ss| - 1]];
    }
  }

  /** FirstTitle is settled by the first sighting from a recipe. */
  lemma FirstTitleSnoc(ss: seq<Sighting>, s: Sighting, rk: string)
    requires FirstTitle(ss, rk).Some?
    ensures FirstTitle(ss + [s], rk) == FirstTitle(ss, rk)
  {
    PrefixOfPush(ss, s);
  }

  /** The recipe map after a repeat sighting, in terms of the recipes seen so far. */
  lemma AddRecipeFirst(refs: seq<RecipeRef>, seen: seq<Sighting>, s: Sighting)
    requires RecipeKeys(refs) == SeenRecipeKeys(seen)
    requires forall i :: 0 <= i < |refs| ==> FirstTitle(seen, refs[i].key) == Some(refs[i].title)
    ensures RecipeKeys(AddRecipe(refs, s.recipeKey, s.recipeTitle)) == SeenRecipeKeys(seen + [s])
    ensures forall i :: 0 <= i < |AddRecipe(refs, s.recipeKey, s.recipeTitle)| ==>
              FirstTitle(seen + [s], AddRecipe(refs, s.recipeKey, s.recipeTitle)[i].key) ==
              Some(AddRecipe(refs, s.recipeKey, s.recipeTitle)[i].title)
  {
    var refs' := AddRecipe(refs, s.recipeKey, s.recipeTitle);
    SeenRecipeKeysAppend(seen, s);
    HasRecipeKeys(refs, s.recipeKey);
    if !HasRecipe(refs, s.recipeKey) {
      RecipeKeysAppend(refs, RecipeRef(s.recipeKey, s.recipeTitle));
      FirstTitleNone(seen, s.recipeKey);
      PrefixOfPush(seen, s);
    }
    forall i | 0 <= i < |refs'|
      ensures FirstTitle(seen + [s], refs'[i].key) == Some(refs'[i].title)
    {
      if i < |refs| {
        assert refs'[i] == refs[i];
        FirstTitleSnoc(seen, s, refs[i].key);
      }
    }
  }

  /** The recipe map holds the recipes of `seen`, each under the first title seen for it. */
  predicate RecipesOf(refs: seq<RecipeRef>, seen: seq<Sighting>) {
    && RecipeKeys(refs) == SeenRecipeKeys(seen)
    && (forall i :: 0 <= i < |refs| ==> FirstTitle(seen, refs[i].key) == Some(refs[i].title))
  }

  lemma ObserveRecipesNew(g: Groups, s: Sighting, read: string -> Option<real>)
    requires s.key !in g.byKey
    ensures s.key in Observe(g, s, read).byKey
    ensures RecipesOf(Observe(g, s, read).byKey[s.key].recipes, [s])
  {
    ObserveNew(g, s, read);
    RecipeKeysAppend([], RecipeRef(s.recipeKey, s.recipeTitle));
    SeenRecipeKeysAppend([], s);
    assert [s][..0] == [];
  }

  lemma ObserveRecipesRepeat(g: Groups, s: Sighting, read: string -> Option<real>, seen: seq<Sighting>)
    requires s.key in g.byKey && RecipesOf(g.byKey[s.key].recipes, seen)
    ensures s.key in Observe(g, s, read).byKey
    ensures RecipesOf(Observe(g, s, read).byKey[s.key].recipes, seen + [s])
  {
    AddRecipeFirst(g.byKey[s.key].recipes, seen, s);
  }

  /**
   * A bucket's recipe map holds exactly the normalised titles of the recipes that filed an
   * ingredient under its key, each with the first title seen for it.
   */
  lemma {:induction false} FoldRecipes(ss: seq<Sighting>, read: string -> Option<real>, k: string)
    requires k in Fold(ss, read).byKey
    ensures RecipesOf(Fold(ss, read).byKey[k].recipes, Seen(ss, k))
    decreases |ss|
  {
    FoldKeys(ss, read, k);
    var init, s := ss[..|ss| - 1], ss[|ss| - 1];
    FoldKeys(init, read, k);
    if Seen(init, k) == [] {
      assert Seen(ss, k) == [s];
      ObserveRecipesNew(Fold(init, read), s, read);
    } else {
      FoldRecipes(init, read, k);
      if s.key != k {
        assert Seen(ss, k) == Seen(init, k);
        ObserveOtherKey(Fold(init, read), s, read, k);
      } else {
        assert Seen(ss, k) == Seen(init, k) + [s];
        ObserveRecipesRepeat(Fold(init, read), s, read, Seen(init, k));
      }
    }
  }

  // ---------------------------------------------------------------------------
  // What the loop files
  // ---------------------------------------------------------------------------

  /** An ingredient whose name is blank is skipped. */
  lemma BlankNameSkipped(v: Visit, read: string -> Option<real>)
    requires AllWhite(v.ingredient.name.GetOr(""))
    ensures SightList(v, read) == []
  {
  }

  /** The sequence an element was appended to is what precedes it; stated for any element type, like the next lemma. */
  lemma PrefixOfPush<T>(xs: seq<T>, x: T)
    ensures (xs + [x])[..|xs|] == xs && (xs + [x])[|xs|] == x
  {
  }

  /** Concatenation is associative; stated for any element type, so a proof using it need not look inside the elements. */
  lemma AppendAssociative<T>(p: seq<T>, q: seq<T>, r: seq<T>)
    ensures p + q + r == p + (q + r)
  {
  }

  /** One more recipe adds its turns after those of the earlier ones. */
  lemma AllVisitsPush(rs: seq<PlannedRecipe>, r: PlannedRecipe)
    ensures AllVisits(rs + [r]) == AllVisits(rs) + Visits(r)
  {
    PrefixOfPush(rs, r);
  }

  /** The turns of two runs of recipes are the turns of the first run, then those of the second. */
  lemma {:induction false} AllVisitsAppend(a: seq<PlannedRecipe>, b: seq<PlannedRecipe>)
    ensures AllVisits(a + b) == AllVisits(a) + AllVisits(b)
    decreases |b|
  {
    if b == [] {
      assert a + b == a;
    } else {
      var init, x := b[..|b| - 1], b[|b| - 1];
      assert b == init + [x];
      assert a + b == (a + init) + [x];
      AllVisitsAppend(a, init);
      AllVisitsPush(a + init, x);
      AllVisitsPush(init, x);
      AppendAssociative(AllVisits(a), AllVisits(init), Visits(x));
    }
  }

  /** A recipe whose ingredients did not parse changes nothing, wherever it is planned. */
  lemma MalformedRecipeIgnored(a: seq<PlannedRecipe>, title: string, b: seq<PlannedRecipe>)
    ensures Collect(a + [PlannedRecipe(title, None)] + b) == Collect(a + b)
  {
    var m := PlannedRecipe(title, None);
    assert AllVisits([m]) == [] by {
      assert [m][..0] == [];
    }
    AllVisitsAppend(a + [m], b);
    AllVisitsAppend(a, [m]);
    AllVisitsAppend(a, b);
    assert AllVisits(a + [m]) == AllVisits(a);
  }

  lemma SightListOk(v: Visit, read: string -> Option<real>)
    requires read(PLACEHOLDER).None?
    ensures FromRecipes(SightList(v, read))
  {
    if !AllWhite(v.ingredient.name.GetOr("")) {
      SightOk(v, read);
    }
  }

  lemma FromRecipesAppend(a: seq<Sighting>, b: seq<Sighting>)
    requires FromRecipes(a) && FromRecipes(b)
    ensures FromRecipes(a + b)
  {
    assert forall i :: 0 <= i < |a| ==> (a + b)[i] == a[i];
    assert forall i :: |a| <= i < |a| + |b| ==> (a + b)[i] == b[i - |a|];
  }

  /** Every sighting the loop makes is well formed when the placeholder reads as no number. */
  lemma {:induction false} ObservationsFromRecipes(vs: seq<Visit>, read: string -> Option<real>)
    requires read(PLACEHOLDER).None?
    ensures FromRecipes(Observations(vs, read))
    decreases |vs|
  {
    if vs != [] {
      ObservationsFromRecipes(vs[..|vs| - 1], read);
      SightListOk(vs[|vs| - 1], read);
      FromRecipesAppend(Observations(vs[..|vs| - 1], read), SightList(vs[|vs| - 1], read));
    }
  }

  lemma ObservedValid(vs: seq<Visit>, read: string -> Option<real>)
    requires read(PLACEHOLDER).None?
    ensures Valid(Fold(Observations(vs, read), read))
  {
    ObservationsFromRecipes(vs, read);
    FoldValid(Observations(vs, read), read);
  }

  /** The map after the loop is well formed. */
  lemma CollectValid(rs: seq<PlannedRecipe>)
    ensures Valid(Collect(rs))
  {
    var read: string -> Option<real> := NumericValue;
    assert read(PLACEHOLDER).None? by {
      PlaceholderNotNumeric();
    }
    ObservedValid(AllVisits(rs), read);
  }

  // ---------------------------------------------------------------------------
  // One more turn, as the loop takes it
  // ---------------------------------------------------------------------------

  /** The turns of the first r + 1 recipes are those of the first r, then those of recipe r. */
  lemma AllVisitsSnoc(rs: seq<PlannedRecipe>, r: nat)
    requires r < |rs|
    ensures AllVisits(rs[..r + 1]) == AllVisits(rs[..r]) + Visits(rs[r])
  {
    assert rs[..r + 1][..r] == rs[..r];
  }

  /** One more turn adds what it files after the earlier sightings. */
  lemma ObservationsSnoc(vs: seq<Visit>, v: Visit, read: string -> Option<real>)
    ensures Observations(vs + [v], read) == Observations(vs, read) + SightList(v, read)
  {
    PrefixOfPush(vs, v);
  }

  /** One more sighting is observed in the map the earlier ones left. */
  lemma FoldSnoc(ss: seq<Sighting>, s: Sighting, read: string -> Option<real>)
    ensures Fold(ss + [s], read) == Observe(Fold(ss, read), s, read)
  {
    PrefixOfPush(ss, s);
  }

  /** One turn of the inner loop: the ingredient's sighting filed, or nothing for a blank name. */
  function Turn(g: Groups, v: Visit, read: string -> Option<real>): Groups {
    match Sight(v, read)
    case None => g
    case Some(s) => Observe(g, s, read)
  }

  /** Folding the sightings of one more turn is taking that turn in the map the earlier ones left. */
  lemma TurnSnoc(vs: seq<Visit>, v: Visit, read: string -> Option<real>)
    ensures Fold(Observations(vs + [v], read), read) == Turn(Fold(Observations(vs, read), read), v, read)
  {
    ObservationsSnoc(vs, v, read);
    match Sight(v, read)
    case None =>
      assert Observations(vs, read) + [] == Observations(vs, read);
    case Some(s) =>
      FoldSnoc(Observations(vs, read), s, read);
  }

  /** Turn j of recipe e visits its j-th ingredient. */
  lemma VisitsAt(e: PlannedRecipe, list: seq<Ingredient>, j: nat)
    requires e.ingredients.GetOr([]) == list && j < |list|
    ensures j < |Visits(e)| && Visits(e)[j] == Visit(NormalizeRecipeTitle(e.title), e.title, list[j])
  {
  }

  /** Turn j of recipe e comes after the turns before it. */
  lemma VisitsSnoc(e: PlannedRecipe, list: seq<Ingredient>, j: nat, done: seq<Visit>)
    requires e.ingredients.GetOr([]) == list && j < |list|
    ensures done + Visits(e)[..j + 1] == (done + Visits(e)[..j]) + [Visit(NormalizeRecipeTitle(e.title), e.title, list[j])]
  {
    VisitsAt(e, list, j);
    PrefixSnoc(done, Visits(e), j);
  }

  /** Before the first turn of recipe e nothing of it is filed; after the last, all of it is. */
  lemma VisitsEnds(e: PlannedRecipe, list: seq<Ingredient>, done: seq<Visit>)
    requires e.ingredients.GetOr([]) == list
    ensures done + Visits(e)[..0] == done
    ensures |list| <= |Visits(e)| && done + Visits(e)[..|list|] == done + Visits(e)
  {
    assert Visits(e)[..0] == [];
    assert |Visits(e)| == |list|;
    assert Visits(e)[..|list|] == Visits(e);
  }

  lemma PrefixSnoc<T>(done: seq<T>, xs: seq<T>, j: nat)
    requires j < |xs|
    ensures done + xs[..j + 1] == (done + xs[..j]) + [xs[j]]
  {
    assert xs[..j + 1] == xs[..j] + [xs[j]];
  }

  /** A blank name leaves the map as it is (`continue`). */
  lemma TurnBlank(g: Groups, v: Visit, read: string -> Option<real>)
    requires Trim(v.ingredient.name.GetOr("")) == []
    ensures Turn(g, v, read) == g
  {
  }

  /** A named ingredient is filed with the key, unit, amount, number and display name the loop computes. */
  lemma TurnNamed(g: Groups, v: Visit, read: string -> Option<real>, s: Sighting)
    requires Trim(v.ingredient.name.GetOr("")) != []
    requires s.recipeKey == v.recipeKey && s.recipeTitle == v.recipeTitle
    requires s.unit == OrPlaceholder(Trim(v.ingredient.unit.GetOr("")))
    requires s.key == NormalizeName(Trim(v.ingredient.name.GetOr(""))) + "::" + s.unit
    requires s.amount == OrPlaceholder(Trim(v.ingredient.amount.GetOr("")))
    requires s.value == read(s.amount)
    requires s.displayName == DisplayName(NormalizeName(Trim(v.ingredient.name.GetOr(""))))
    ensures Turn(g, v, read) == Observe(g, s, read)
  {
  }

  /** The first sighting of a key opens its bucket and appends the key to the order. */
  lemma ObserveFirst(g: Groups, s: Sighting, read: string -> Option<real>)
    requires s.key !in g.byKey
    ensures Observe(g, s, read) == Groups(g.byKey[s.key := NewBucket(s)], g.order + [s.key])
  {
  }

  /** A repeat sighting adds its recipe and merges its amount into the bucket, in place. */
  lemma ObserveRepeat(g: Groups, s: Sighting, read: string -> Option<real>, recipes: seq<RecipeRef>, reparsed: Option<real>)
    requires s.key in g.byKey
    requires recipes == AddRecipe(g.byKey[s.key].recipes, s.recipeKey, s.recipeTitle)
    requires reparsed == read(g.byKey[s.key].amount)
    ensures Observe(g, s, read) ==
            Groups(g.byKey[s.key := MergeAmount(g.byKey[s.key].(recipes := recipes), s.amount, s.value, reparsed)], g.order)
  {
  }

  /**
   * The merge branch of the loop: the amount of a repeat sighting merged into the bucket
   * `cur`, which already holds the sighting's recipe.
   */
  method MergeInto(cur: Bucket, amountStr: string, value: Option<real>) returns (merged: Bucket)
    ensures merged == MergeAmount(cur, amountStr, value, NumericValue(cur.amount))
  {
    merged := cur;
    if value.Some? && cur.numeric.Some? {
      var sum := cur.numeric.value + value.value;
      MergeBothNumeric(cur, amountStr, value, NumericValue(cur.amount), sum);
      merged := Summed(cur, sum);
    } else if value.Some? && cur.amount != PLACEHOLDER {
      var curNum := NumericValue(cur.amount);
      if curNum.Some? {
        var sum := curNum.value + value.value;
        MergeReparsed(cur, amountStr, value, curNum, sum);
        merged := Summed(cur, sum);
      } else {
        MergeOtherwise(cur, amountStr, value, curNum);
      }
    } else if amountStr != PLACEHOLDER && cur.amount != PLACEHOLDER && cur.amount != amountStr {
      MergeText(cur, amountStr, value, NumericValue(cur.amount));
      merged := cur.(amount := cur.amount + " + " + amountStr);
    } else {
      MergeOtherwise(cur, amountStr, value, NumericValue(cur.amount));
    }
  }

  /**
   * One turn of the inner loop: one ingredient of the recipe with title `recipeTitle` and normalised title
   * `recipeNorm` filed into the map.
   */
  method FileIngredient(byKey: map<string, Bucket>, order: seq<string>, recipeNorm: string, recipeTitle: string, ing: Ingredient)
    returns (byKey': map<string, Bucket>, order': seq<string>)
    ensures Groups(byKey', order') == Turn(Groups(byKey, order), Visit(recipeNorm, recipeTitle, ing), NumericValue)
  {
    ghost var v := Visit(recipeNorm, recipeTitle, ing);
    byKey', order' := byKey, order;
    var rawName := Trim(ing.name.GetOr(""));
    if rawName == [] {
      TurnBlank(Groups(byKey, order), v, NumericValue);
      return;
    }
    var normalized := NormalizeName(rawName);
    var unit := OrPlaceholder(Trim(ing.unit.GetOr("")));
    var amountStr := OrPlaceholder(Trim(ing.amount.GetOr("")));
    var key := normalized + "::" + unit;
    var value := NumericValue(amountStr);
    var displayName := DisplayName(normalized);
    ghost var s := Sighting(recipeNorm, recipeTitle, key, unit, amountStr, value, displayName);
    TurnNamed(Groups(byKey, order), v, NumericValue, s);
    if key !in byKey {
      ObserveFirst(Groups(byKey, order), s, NumericValue);
      byKey' := byKey[key := Bucket(amountStr, unit, [RecipeRef(recipeNorm, recipeTitle)], value, displayName)];
      order' := order + [key];
      assert Groups(byKey', order') == Observe(Groups(byKey, order), s, NumericValue);
    } else {
      var cur := byKey[key];
      var recipes := cur.recipes;
      if !HasRecipe(recipes, recipeNorm) {
        recipes := recipes + [RecipeRef(recipeNorm, recipeTitle)];
      }
      var merged := MergeInto(cur.(recipes := recipes), amountStr, value);
      ObserveRepeat(Groups(byKey, order), s, NumericValue, recipes, NumericValue(cur.amount));
      byKey' := byKey[key := merged];
      assert Groups(byKey', order') == Observe(Groups(byKey, order), s, NumericValue);
    }
  }

  /** One turn of the inner loop, stated as one more visit in the fold. */
  method FileTurn(g: Groups, v: Visit, ghost turns: seq<Visit>) returns (g': Groups)
    requires g == Fold(Observations(turns, NumericValue), NumericValue)
    ensures g' == Fold(Observations(turns + [v], NumericValue), NumericValue)
  {
    TurnSnoc(turns, v, NumericValue);
    var byKey, order := FileIngredient(g.byKey, g.order, v.recipeKey, v.recipeTitle, v.ingredient);
    g' := Groups(byKey, order);
  }

  /**
   * The inner loop: the ingredients of the planned recipe `e` filed one turn at a time, into
   * the map `g` that the turns `done` of the earlier recipes left.
   */
  method FileRecipe(g: Groups, e: PlannedRecipe, ghost done: seq<Visit>) returns (g': Groups)
    requires g == Fold(Observations(done, NumericValue), NumericValue)
    ensures g' == Fold(Observations(done + Visits(e), NumericValue), NumericValue)
  {
    g' := g;
    var list := e.ingredients.GetOr([]);
    var recipeTitle := e.title;
    var recipeNorm := NormalizeRecipeTitle(recipeTitle);
    VisitsEnds(e, list, done);
    for j := 0 to |list|
      invariant g' == Fold(Observations(done + Visits(e)[..j], NumericValue), NumericValue)
    {
      var v := Visit(recipeNorm, recipeTitle, list[j]);
      VisitsSnoc(e, list, j, done);
      g' := FileTurn(g', v, done + Visits(e)[..j]);
    }
  }

  /** `getShoppingList`'s loop over the planned recipes; the loop over each one's ingredients is `FileRecipe`. */
  method CollectEntries(entries: seq<PlannedRecipe>) returns (byKey: map<string, Bucket>, order: seq<string>)
    ensures Groups(byKey, order) == Collect(entries)
  {
    var g := EMPTY;
    for r := 0 to |entries|
      invariant g == Collect(entries[..r])
    {
      g := FileRecipe(g, entries[r], AllVisits(entries[..r]));
      AllVisitsSnoc(entries, r);
    }
    assert entries[..|entries|] == entries;
    byKey, order := g.byKey, g.order;
  }
}
