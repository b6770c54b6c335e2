/**
 * `getShoppingList` after the database read: the planned recipes are folded into the
 * `byKey` map (module Aggregation), every bucket becomes an item, and the items are
 * sorted by category and then by name.
 *
 * `ShoppingList` is the specification; `BuildShoppingList` is the loop as written, proved
 * to compute it.
 */
module ShoppingList {
  import opened Wrappers
  import opened Text
  import opened Amounts
  import opened Names
  import opened Categories
  import opened Sorting
  import opened Aggregation

  /** An entry of the returned list. */
  datatype Item = Item(name: string, amount: string, unit: string, recipes: seq<string>, category: string)

  /** The titles of a bucket's recipe map, in insertion order (`recipes.values()`). */
  function Titles(refs: seq<RecipeRef>): (ts: seq<string>)
    ensures |ts| == |refs|
    ensures forall i :: 0 <= i < |refs| ==> ts[i] == refs[i].title
  {
    seq(|refs|, i requires 0 <= i < |refs| => refs[i].title)
  }

  /** The item a bucket becomes, with its recipe titles sorted and its category. */
  function ItemOf(b: Bucket): Item {
    Item(b.displayName, b.amount, b.unit, SortBy(Titles(b.recipes), StringLeq),
         GetCategory(Lower(b.displayName)))
  }

  /** `indexOf`: the first position of x in s, or -1 when x does not occur. */
  function IndexOf(s: seq<string>, x: string): (r: int)
    ensures -1 <= r < |s|
    ensures r == -1 <==> x !in s
    ensures 0 <= r ==> s[r] == x && x !in s[..r]
    decreases |s|
  {
    if s == [] then -1
    else if s[0] == x then 0
    else
      var r := IndexOf(s[1..], x);
      assert r >= 0 ==> s[..r + 1] == [s[0]] + s[1..][..r];
      if r == -1 then -1 else r + 1
  }

  /** `catOrder`: the position of a category in the display order. */
  function CategoryRank(c: string): int {
    IndexOf(CATEGORY_ORDER, c)
  }

  /**
   * The comparator of the final `items.sort` as "a may come before b": the earlier category
   * first, and within a category the names in the order `nameLeq`, which stands for
   * `a.name.localeCompare(b.name) <= 0` under the runtime's collation.
   */
  predicate ItemBefore(nameLeq: (string, string) -> bool, a: Item, b: Item) {
    var ca, cb := CategoryRank(a.category), CategoryRank(b.category);
    ca < cb || (ca == cb && nameLeq(a.name, b.name))
  }

  /** The comparator as a value `sort` can be given. */
  function ItemLeq(nameLeq: (string, string) -> bool): (Item, Item) -> bool {
    (a: Item, b: Item) => ItemBefore(nameLeq, a, b)
  }

  /** Keys of the map that the insertion order lists are all in the map. */
  predicate KeysListed(g: Groups) {
    forall i :: 0 <= i < |g.order| ==> g.order[i] in g.byKey
  }

  /** `Array.from(byKey.entries()).map(...)`: one item per bucket, in insertion order. */
  function Unsorted(g: Groups): (items: seq<Item>)
    requires KeysListed(g)
    ensures |items| == |g.order|
    ensures forall i :: 0 <= i < |g.order| ==> items[i] == ItemOf(g.byKey[g.order[i]])
  {
    seq(|g.order|, i requires 0 <= i < |g.order| => ItemOf(g.byKey[g.order[i]]))
  }

  /** The shopping list for the planned recipes, in the order they are visited, with names ordered by `nameLeq`. */
  function ShoppingList(rs: seq<PlannedRecipe>, nameLeq: (string, string) -> bool): seq<Item> {
    CollectValid(rs);
    SortBy(Unsorted(Collect(rs)), ItemLeq(nameLeq))
  }

  // ---------------------------------------------------------------------------
  // The comparison
  // ---------------------------------------------------------------------------

  /** For any name order `sort` can order by, the item comparison is one too. */
  lemma ItemLeqTotalPreorder(nameLeq: (string, string) -> bool)
    requires TotalPreorder(nameLeq)
    ensures TotalPreorder(ItemLeq(nameLeq))
  {
    var leq := ItemLeq(nameLeq);
    forall a: Item, b: Item ensures leq(a, b) || leq(b, a) {
      assert nameLeq(a.name, b.name) || nameLeq(b.name, a.name);
    }
    forall a: Item, b: Item, c: Item | leq(a, b) && leq(b, c) ensures leq(a, c) {
      if CategoryRank(a.category) == CategoryRank(b.category) == CategoryRank(c.category) {
        assert nameLeq(a.name, b.name) && nameLeq(b.name, c.name);
      }
    }
  }

  /** Every category is in the display order, so its rank is one of 0 to 6. */
  lemma CategoryRankInRange(c: string)
    requires c in CATEGORY_ORDER
    ensures 0 <= CategoryRank(c) < 7 && CATEGORY_ORDER[CategoryRank(c)] == c
  {
  }

  // ---------------------------------------------------------------------------
  // The items
  // ---------------------------------------------------------------------------

  /**
   * An item lists the titles of its bucket's recipes sorted, each title of the recipe map
   * once, and carries one of the seven categories.
   */
  lemma ItemOfBucket(b: Bucket)
    ensures Sorted(ItemOf(b).recipes, StringLeq)
    ensures multiset(ItemOf(b).recipes) == multiset(Titles(b.recipes))
    ensures ItemOf(b).category in CATEGORY_ORDER
    ensures 0 <= CategoryRank(ItemOf(b).category) < 7
  {
    StringLeqTotalPreorder();
    SortBySorted(Titles(b.recipes), StringLeq);
    SortByPermutation(Titles(b.recipes), StringLeq);
    CategoryRankInRange(ItemOf(b).category);
  }

  /**
   * The category is computed from the normalised name: lower-casing the display name gives
   * it back unless it starts with a sharp s.
   */
  lemma ItemCategory(b: Bucket, n: string)
    requires b.displayName == DisplayName(n) && IsLower(n) && (n == [] || n[0] != '\U{DF}')
    ensures ItemOf(b).category == GetCategory(n)
  {
    DisplayNameLower(n);
  }

  /** The list is ordered by category and, within a category, by name. */
  lemma ShoppingListOrdered(rs: seq<PlannedRecipe>, nameLeq: (string, string) -> bool)
    requires TotalPreorder(nameLeq)
    ensures Sorted(ShoppingList(rs, nameLeq), ItemLeq(nameLeq))
    ensures var list := ShoppingList(rs, nameLeq);
            forall i, j :: 0 <= i < j < |list| ==> CategoryRank(list[i].category) <= CategoryRank(list[j].category)
    ensures var list := ShoppingList(rs, nameLeq);
            forall i, j :: 0 <= i < j < |list| && CategoryRank(list[i].category) == CategoryRank(list[j].category) ==>
                             nameLeq(list[i].name, list[j].name)
  {
    CollectValid(rs);
    ItemLeqTotalPreorder(nameLeq);
    SortBySorted(Unsorted(Collect(rs)), ItemLeq(nameLeq));
    var list := ShoppingList(rs, nameLeq);
    forall i, j | 0 <= i < j < |list| ensures ItemBefore(nameLeq, list[i], list[j]) {
      assert ItemLeq(nameLeq)(list[i], list[j]);
    }
  }

  /** The list holds exactly the items of the buckets, each once. */
  lemma ShoppingListPermutation(rs: seq<PlannedRecipe>, nameLeq: (string, string) -> bool)
    ensures KeysListed(Collect(rs))
    ensures multiset(ShoppingList(rs, nameLeq)) == multiset(Unsorted(Collect(rs)))
  {
    CollectValid(rs);
    SortByPermutation(Unsorted(Collect(rs)), ItemLeq(nameLeq));
  }

  /**
   * Items of the same category and name (the same ingredient in two units) keep the order
   * in which their keys were first seen.
   */
  lemma ShoppingListStable(rs: seq<PlannedRecipe>, nameLeq: (string, string) -> bool, e: Item)
    requires TotalPreorder(nameLeq)
    ensures KeysListed(Collect(rs))
    ensures Equivalents(ShoppingList(rs, nameLeq), e, ItemLeq(nameLeq)) ==
            Equivalents(Unsorted(Collect(rs)), e, ItemLeq(nameLeq))
  {
    CollectValid(rs);
    ItemLeqTotalPreorder(nameLeq);
    SortByStable(Unsorted(Collect(rs)), e, ItemLeq(nameLeq));
  }

  /** There is one item per key of the map, and each bucket's item is in the list. */
  lemma ShoppingListOnePerKey(rs: seq<PlannedRecipe>, nameLeq: (string, string) -> bool)
    ensures |ShoppingList(rs, nameLeq)| == |Collect(rs).byKey|
    ensures forall k :: k in Collect(rs).byKey ==> ItemOf(Collect(rs).byKey[k]) in ShoppingList(rs, nameLeq)
  {
    var g := Collect(rs);
    CollectValid(rs);
    UnsortedOnePerKey(g);
    ShoppingListPermutation(rs, nameLeq);
    var list := ShoppingList(rs, nameLeq);
    forall k | k in g.byKey ensures ItemOf(g.byKey[k]) in list {
      assert ItemOf(g.byKey[k]) in multiset(Unsorted(g));
      assert ItemOf(g.byKey[k]) in multiset(list);
    }
  }

  /** A well-formed map gives one item per key, and every bucket's item is among them. */
  lemma UnsortedOnePerKey(g: Groups)
    requires Valid(g)
    ensures KeysListed(g)
    ensures |Unsorted(g)| == |g.byKey|
    ensures forall k :: k in g.byKey ==> ItemOf(g.byKey[k]) in Unsorted(g)
  {
    DistinctCardinality(g.order);
    assert g.byKey.Keys == set i | 0 <= i < |g.order| :: g.order[i];
    forall k | k in g.byKey ensures ItemOf(g.byKey[k]) in Unsorted(g) {
      var i :| 0 <= i < |g.order| && g.order[i] == k;
      assert Unsorted(g)[i] == ItemOf(g.byKey[k]);
    }
  }

  /** A sequence without repetitions has as many distinct elements as it has elements. */
  lemma {:induction false} DistinctCardinality(s: seq<string>)
    requires forall i, j :: 0 <= i < j < |s| ==> s[i] != s[j]
    ensures |set i | 0 <= i < |s| :: s[i]| == |s|
    decreases |s|
  {
    if s != [] {
      var init := s[..|s| - 1];
      DistinctCardinality(init);
      var before := set i | 0 <= i < |init| :: init[i];
      assert (set i | 0 <= i < |s| :: s[i]) == before + {s[|s| - 1]};
      assert s[|s| - 1] !in before;
    }
  }

  // ---------------------------------------------------------------------------
  // The loop
  // ---------------------------------------------------------------------------

  /** `getShoppingList` after the database read: the loop over the planned recipes, then the items and their sort. */
  method BuildShoppingList(entries: seq<PlannedRecipe>, nameLeq: (string, string) -> bool) returns (items: seq<Item>)
    ensures items == ShoppingList(entries, nameLeq)
  {
    var byKey, order := CollectEntries(entries);
    CollectValid(entries);
    var unsorted := Unsorted(Groups(byKey, order));
    items := SortBy(unsorted, ItemLeq(nameLeq));
  }
}
