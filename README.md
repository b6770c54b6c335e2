# Shopping list and admin settings, modelled in Dafny

This project models two parts of a meal-planning web app.

**The weekly shopping list** (`getShoppingList`). It reads the recipes planned for a week and walks through every ingredient of every recipe. Each ingredient is filed under the key "normalised name::unit".
- The first ingredient under a key opens a bucket.
- A later one adds its recipe to the bucket and merges its amount:
  - two numbers are summed;
  - a number is added to a text amount whose text still reads as a number;
  - two different text amounts are joined with " + ".
- Each bucket becomes one item. The item lists its recipe titles sorted, and it carries one of seven aisle categories.
- The items are sorted by category and then by name.

**The admin settings route** (`GET` and `PATCH`). It keeps API keys and model choices as key/value rows.
- GET reports the keys masked and fills in defaults.
- PATCH applies one guarded delete-or-upsert per field. It refuses the whole request when an OpenAI key does not start with "sk-".

The modules follow the structure of the program:

| file | module | what it holds |
|---|---|---|
| `wrappers.dfy` | `Wrappers` | `Option`, standing for JavaScript's `null`/`undefined` or a value |
| `text.dfy` | `Text` | JavaScript's `\s`, `trim`, `toLowerCase`, `startsWith` and `includes` |
| `amounts.dfy` | `Amounts` | `parseAmount`, the `parseFloat` beneath it, and how a summed amount is written back |
| `names.dfy` | `Names` | `normalizeRecipeTitle`, `normalizeName` with its synonym table, and the display name |
| `categories.dfy` | `Categories` | `CATEGORY_ORDER`, the keyword lists, `matchesWord` and `getCategory` |
| `sorting.dfy` | `Sorting` | `Array.prototype.sort`: a stable sort under a total preorder, and character order on strings |
| `aggregation.dfy` | `Aggregation` | the aggregation loop, as a fold over the visited ingredients (`Collect`) and as the nested loops themselves (`CollectEntries` and `FileRecipe`) |
| `shopping_list.dfy` | `ShoppingList` | the items, their sort, and `BuildShoppingList`, the whole computation after the database read |
| `settings.dfy` | `AdminSettings` | `maskKey`, `normalizeGeminiModel`, the GET view, and the `SettingsStore` class whose `Patch` method updates the table |

Amounts are exact rationals (`real`). The code that loops or updates state is written as methods, each proved equal to a specification function:
- `MergeInto` and `FileIngredient` are proved against `MergeAmount` and `Turn`; `FileTurn` and `FileRecipe`, the inner loop, against `Fold` over one more turn and over one recipe's turns; `CollectEntries`, the outer loop, against `Collect`.
- `BuildShoppingList` is proved against `ShoppingList`.
- `SettingsStore.Get` and `SettingsStore.Patch` are proved against `View` and `Patched`.

The properties of the program are proved as lemmas about those specification functions.

Two consequences of the code as written:
- **"Ei" is filed under "Obst".** The match rule also accepts a name that occurs inside a keyword (`term.includes(n)`), so "ei", which is also what "Eier" normalises to, matches the fruit keyword "heidelbeere". The fruit list comes before the dairy list, so `getCategory` returns "Obst" (`Categories.EiIsFruit`).
- **The `parseFloat` fallback adds nothing.** For the trimmed amounts the loop builds, the fallback `parseFloat(amountStr.replace(",", "."))` never finds a number that `parseAmount` missed (`Amounts.FallbackRedundant`).

## Model

| member | source | states |
|---|---|---|
| Amounts.NatToStringValue | webapp/src/app/actions/get-shopping-list.ts:191-193 | `String(n)` of a whole number has at least one character, all of them digits, and the digits read back as n |
| Amounts.ParseAmount | webapp/src/app/actions/get-shopping-list.ts:10-14 | `parseAmount`: the qualifier removed, the rest trimmed, its first comma read as a point, then `parseFloat`; None stands for `null` |
| Amounts.ParseFloat | webapp/src/app/actions/get-shopping-list.ts:12 | `parseFloat`: leading whitespace skipped, an optional sign, the longest decimal literal after it; None stands for NaN |
| Amounts.NumericValue | webapp/src/app/actions/get-shopping-list.ts:170 | `parseAmount(s) ?? parseFloat(s.replace(",", "."))`, the number the loop reads from an amount |
| Amounts.FormatAmount | webapp/src/app/actions/get-shopping-list.ts:191-194 | the text written for a sum: `String(Math.round(x))` when x is whole, else `x.toFixed(1)` with a decimal comma |
| Amounts.QualifierLength | webapp/src/app/actions/get-shopping-list.ts:11 | for an amount that starts with a qualifier, the part `(ca\.?\|circa\|etwa)` matches is at least two characters long and is one of the four words, "ca." when a point follows "ca" |
| Amounts.StripQualifier | webapp/src/app/actions/get-shopping-list.ts:11 | an amount that does not start with "ca", "ca.", "circa" or "etwa" (in any case) is left as it is; otherwise what remains is a suffix at least two characters shorter that does not start with whitespace |
| Amounts.StripQualifierRemoves | webapp/src/app/actions/get-shopping-list.ts:11 | a qualifier in any case ("CA", "Ca.", "Circa", "ETWA"), then any run of whitespace, then t leaves exactly t with its leading whitespace removed; the only side condition is that a bare "ca" directly followed by "." would take the point as part of "ca." |
| Amounts.StripQualifierSuffix | webapp/src/app/actions/get-shopping-list.ts:11 | what remains after the qualifier and the whitespace after it is a suffix of the amount |
| Amounts.ReplaceFirstComma | webapp/src/app/actions/get-shopping-list.ts:11 | replacing the comma keeps the length, and keeps the first character unless it is the comma |
| Amounts.ReplaceFirstCommaDigits | webapp/src/app/actions/get-shopping-list.ts:11 | replacing the comma neither adds nor removes a digit at any position |
| Amounts.ParseAmountNeedsDigit | webapp/src/app/actions/get-shopping-list.ts:10-14 | `parseAmount` returns a number only for a string that contains a digit |
| Amounts.NoDigitNoNumber | webapp/src/app/actions/get-shopping-list.ts:10-14 | without a digit, neither `parseAmount` nor `parseAmount ?? parseFloat(...)` gives a number ("—", "nach Bedarf") |
| Amounts.ParseFloatOfLetterFirst | webapp/src/app/actions/get-shopping-list.ts:12 | the model's `ParseFloat` of a string whose first character lies between 'A' and 'z' (an ASCII letter, say) is NaN; JavaScript's own `parseFloat` also reads "Infinity", which the model does not (see "Left out") |
| Amounts.QualifierIgnored | webapp/src/app/actions/get-shopping-list.ts:11-13 | a leading "ca", "ca.", "circa" or "etwa" in any case, followed by any run of whitespace, in front of an amount that has no qualifier of its own, does not change the number read ("ca. 100", "CA.100" and "Etwa  100" read as "100") |
| Amounts.DigitsTextParses | webapp/src/app/actions/get-shopping-list.ts:10-14 | an optional minus sign and a run of digits read back as that integer |
| Amounts.DecimalTextParses | webapp/src/app/actions/get-shopping-list.ts:10-14 | "d,e" (decimal comma, optional minus) reads back as the number d.e |
| Amounts.FallbackRedundant | webapp/src/app/actions/get-shopping-list.ts:170 | for a trimmed amount, `parseAmount(s) ?? parseFloat(s.replace(",", "."))` is `parseAmount(s)` |
| Amounts.PlaceholderNotNumeric | webapp/src/app/actions/get-shopping-list.ts:168-171 | the placeholder "—" carries no number |
| Amounts.Tenths | webapp/src/app/actions/get-shopping-list.ts:194 | `toFixed(1)` keeps the nearest number of tenths of \|x\|, the larger one at a tie |
| Amounts.DisplayedIsClose | webapp/src/app/actions/get-shopping-list.ts:191-194 | the quantity the amount text stands for is within 0.05 of the sum, and is the sum itself when the sum is whole |
| Amounts.FormatThenParseWhole | webapp/src/app/actions/get-shopping-list.ts:191-193 | a whole sum, written with `String(Math.round(x))`, reads back exactly |
| Amounts.FormatThenParseFraction | webapp/src/app/actions/get-shopping-list.ts:194 | a fractional sum, written with one decimal and a comma, reads back as that decimal |
| Amounts.FormatThenParse | webapp/src/app/actions/get-shopping-list.ts:191-196 | round trip: `parseAmount` of the text written for any sum gives the displayed value, so a summed bucket that is read again at line 196 keeps its value |
| Amounts.IntToStringParses | webapp/src/app/actions/get-shopping-list.ts:193 | the text of a whole number reads back as that number |
| Text.Trim | webapp/src/app/actions/get-shopping-list.ts:164-168 | `trim` returns a string that neither starts nor ends with whitespace, is no longer than its input, and is empty exactly when the input is all whitespace |
| Text.TrimIdempotent | webapp/src/app/actions/get-shopping-list.ts:22 | trimming twice is trimming once |
| Text.TrimOfTrimStart | webapp/src/app/actions/get-shopping-list.ts:11 | trimming after the qualifier's whitespace is removed is trimming the rest |
| Text.TrimPrependWhite | webapp/src/app/actions/get-shopping-list.ts:27 | whitespace in front of a string does not change its trimmed form |
| Names.HyphensToSpaces | webapp/src/app/actions/get-shopping-list.ts:20 | every hyphen becomes a space and every other character stays |
| Names.CollapseWhite | webapp/src/app/actions/get-shopping-list.ts:21 | `.replace(/\s+/g, " ")`: each maximal whitespace run becomes one space; the result is no longer than the input |
| Names.NormalizeRecipeTitle | webapp/src/app/actions/get-shopping-list.ts:17-23 | lower-case, hyphens to spaces, whitespace runs collapsed, trimmed |
| Names.NormalizedTitleShape | webapp/src/app/actions/get-shopping-list.ts:17-23 | a recipe-title key is lower case and trimmed, has no hyphen, and holds whitespace only as single spaces |
| Names.NormalizeRecipeTitleIdempotent | webapp/src/app/actions/get-shopping-list.ts:17-23 | normalising a recipe-title key again leaves it unchanged |
| Names.HyphenOrSpaceSameTitle | webapp/src/app/actions/get-shopping-list.ts:16-23 | two titles that differ only by a hyphen or a space between two parts ("Buchweizen-Cookies", "Buchweizen Cookies") give the same key |
| Names.StripNote | webapp/src/app/actions/get-shopping-list.ts:62 | removing the comma note leaves a prefix of the name |
| Names.NoteDropped | webapp/src/app/actions/get-shopping-list.ts:62 | a name with no comma, followed by a comma and a note without line breaks, loses the note and the whitespace before the comma |
| Names.FirstWord | webapp/src/app/actions/get-shopping-list.ts:63 | `split(/\s+/)[0]` is the longest prefix without whitespace |
| Names.NameKey | webapp/src/app/actions/get-shopping-list.ts:62 | the comma-stripped key is trimmed |
| Names.Resolve | webapp/src/app/actions/get-shopping-list.ts:64 | the lookup returns the key itself or a value of the synonym table |
| Names.NormalizeName | webapp/src/app/actions/get-shopping-list.ts:27-28 | a name that is all whitespace normalises to the empty string |
| Names.NormalizeNameResult | webapp/src/app/actions/get-shopping-list.ts:26-65 | the table entry for the first word wins, then the entry for the whole key, else the whole key is returned |
| Names.SynonymValuesLower | webapp/src/app/actions/get-shopping-list.ts:29-61 | every value of the synonym table is lower case |
| Names.NormalizeNameLower | webapp/src/app/actions/get-shopping-list.ts:26-65 | a normalised name is lower case |
| Names.KeyOfName | webapp/src/app/actions/get-shopping-list.ts:62 | for a trimmed name without a comma, the key is the lower-cased name |
| Names.KeyOfNameWithNote | webapp/src/app/actions/get-shopping-list.ts:62 | a name followed by a comma note has the same key as the bare name |
| Names.NameWithNote | webapp/src/app/actions/get-shopping-list.ts:62-64 | "Zwiebel, fein gewürfelt" normalises like "Zwiebel": everything from the first comma on is dropped |
| Names.NormalizeNameIgnoresCase | webapp/src/app/actions/get-shopping-list.ts:27 | a name and its lower-case form normalise alike |
| Names.NormalizeNameIgnoresSurroundingWhite | webapp/src/app/actions/get-shopping-list.ts:27 | leading and trailing whitespace do not change the normalised name |
| Names.NormalizeNameOfTrim | webapp/src/app/actions/get-shopping-list.ts:164-166 | normalising the trimmed name, as the loop does, equals normalising the raw name |
| Names.DisplayName | webapp/src/app/actions/get-shopping-list.ts:173-174 | the display name is the first character upper-cased, followed by the rest unchanged; the empty name stays empty |
| Names.DisplayNameLower | webapp/src/app/actions/get-shopping-list.ts:173-174 | lower-casing the display name gives back the normalised name, except that a leading ß comes back as "ss" |
| Categories.CategoryOrderDistinct | webapp/src/app/actions/get-shopping-list.ts:68-76 | the seven categories are pairwise different |
| Categories.MatchesWord | webapp/src/app/actions/get-shopping-list.ts:79-84 | "ei" matches only as a whole word of the space-padded name; any other keyword matches when either string contains the other |
| Categories.AnyMatches | webapp/src/app/actions/get-shopping-list.ts:112-122 | `list.some(v => matchesWord(n, v))` |
| Categories.AnyMatchesSome | webapp/src/app/actions/get-shopping-list.ts:112-122 | `list.some(v => matchesWord(n, v))` holds exactly when some keyword of the list matches |
| Categories.FirstIn | webapp/src/app/actions/get-shopping-list.ts:112-123 | the scan returns the first keyword list the name matches, or the number of lists when none matches |
| Categories.Classify | webapp/src/app/actions/get-shopping-list.ts:86-124 | the label is that of the first matching list; it is the catch-all exactly when no list matches |
| Categories.GetCategory | webapp/src/app/actions/get-shopping-list.ts:86-124 | `getCategory` always returns one of the seven categories |
| Categories.GetCategoryFirstMatch | webapp/src/app/actions/get-shopping-list.ts:112-123 | the category is the first, in display order, whose list the name matches; "Sonstiges" exactly when none matches |
| Categories.OtherIsLast | webapp/src/app/actions/get-shopping-list.ts:68-76 | the six keyword lists belong to the first six categories and "Sonstiges" is the seventh |
| Categories.GetCategoryPicks | webapp/src/app/actions/get-shopping-list.ts:112-122 | a name whose first matching list is list k gets category k |
| Categories.VegetableFirst | webapp/src/app/actions/get-shopping-list.ts:112 | a name matching a vegetable keyword is a vegetable, whatever else it matches |
| Categories.MatchesEiWholeWord | webapp/src/app/actions/get-shopping-list.ts:79-82 | the keyword "ei" matches exactly the names containing "ei" as a whole word |
| Categories.MatchesOtherKeyword | webapp/src/app/actions/get-shopping-list.ts:83 | any other keyword matches exactly when the name contains it or it contains the name |
| Categories.EiNotInsideWords | webapp/src/app/actions/get-shopping-list.ts:78-82 | the keyword "ei" does not match "leinsamen" or "eier", but matches "2 ei" |
| Categories.EiNotVegetable | webapp/src/app/actions/get-shopping-list.ts:88-112 | no vegetable keyword matches "ei" |
| Categories.EiMatchesFruit | webapp/src/app/actions/get-shopping-list.ts:79-114 | "ei" matches the fruit keyword "heidelbeere", because the keyword contains the name |
| Categories.FruitSecond | webapp/src/app/actions/get-shopping-list.ts:112-114 | a name that matches a fruit keyword and no vegetable keyword is fruit |
| Categories.EiIsFruit | webapp/src/app/actions/get-shopping-list.ts:113-116 | "ei" (what "Eier" normalises to) is classified as "Obst", not as "Milchprodukte & Eier" |
| Categories.PaprikaIsVegetable | webapp/src/app/actions/get-shopping-list.ts:112-122 | "paprika", a vegetable and a spice keyword, is a vegetable: the earlier category wins |
| Categories.EmptyNameIsVegetable | webapp/src/app/actions/get-shopping-list.ts:79-112 | the empty name occurs inside every keyword, so it lands in the first category |
| Sorting.SortBySorted | webapp/src/app/actions/get-shopping-list.ts:220-225 | under a total preorder, the sort returns its input in order |
| Sorting.SortByPermutation | webapp/src/app/actions/get-shopping-list.ts:220-225 | the sort returns a permutation of its input |
| Sorting.SortByStable | webapp/src/app/actions/get-shopping-list.ts:220 | the sort is stable: the elements equivalent to any e come out in their input order |
| Sorting.SortBySortedInput | webapp/src/app/actions/get-shopping-list.ts:215 | sorting a sorted sequence leaves it unchanged |
| Sorting.StringLeqTotalPreorder | webapp/src/app/actions/get-shopping-list.ts:215 | the character order used for the titles' `.sort()` is total and transitive |
| Sorting.StringLeqAntisymmetric | webapp/src/app/actions/get-shopping-list.ts:215 | in the character order used for the titles' `.sort()`, two strings that are each at most the other are equal |
| Aggregation.OrPlaceholder | webapp/src/app/actions/get-shopping-list.ts:167-168 | `s \|\| "—"` is never empty, and is s when s is not empty |
| Aggregation.AddRecipe | webapp/src/app/actions/get-shopping-list.ts:188 | `if (!recipes.has(key)) recipes.set(key, title)` on the recipe map in insertion order |
| Aggregation.NewBucket | webapp/src/app/actions/get-shopping-list.ts:176-185 | the bucket a first ingredient opens: its amount, unit, number, display name and a recipe map holding its one recipe |
| Aggregation.Observe | webapp/src/app/actions/get-shopping-list.ts:176-207 | one named ingredient filed: a new bucket and key at the end of the insertion order, or its recipe added and its amount merged |
| Aggregation.Fold | webapp/src/app/actions/get-shopping-list.ts:153-209 | the map after a sequence of filed ingredients, starting from the empty map |
| Aggregation.Turn | webapp/src/app/actions/get-shopping-list.ts:163-208 | one turn of the inner loop: nothing for a blank name, else the ingredient filed |
| Aggregation.Collect | webapp/src/app/actions/get-shopping-list.ts:148-209 | the map after the loops over all planned recipes and their ingredients |
| Aggregation.Sight | webapp/src/app/actions/get-shopping-list.ts:163-174 | an ingredient is skipped exactly when its name is blank; otherwise it is filed with its own recipe |
| Aggregation.SightKey | webapp/src/app/actions/get-shopping-list.ts:164-169 | the key is the normalised name, "::", and the trimmed unit or "—" |
| Aggregation.SightValue | webapp/src/app/actions/get-shopping-list.ts:168-172 | the amount is the trimmed amount or "—", and its number is what `parseAmount` reads from it |
| Aggregation.BlankNameSkipped | webapp/src/app/actions/get-shopping-list.ts:164-165 | an ingredient whose name is blank files nothing |
| Aggregation.MalformedRecipeIgnored | webapp/src/app/actions/get-shopping-list.ts:154-160 | a recipe whose ingredient JSON is malformed or not an array changes nothing, wherever it stands among the planned recipes |
| Aggregation.AllVisitsAppend | webapp/src/app/actions/get-shopping-list.ts:153-163 | the turns of two runs of recipes are the turns of the first run followed by those of the second |
| Aggregation.MergeAmount | webapp/src/app/actions/get-shopping-list.ts:189-206 | merging an amount changes only the amount and its number: recipes, unit and display name stay |
| Aggregation.MergeBothNumeric | webapp/src/app/actions/get-shopping-list.ts:189-194 | a number arriving at a bucket that holds a number: the two are summed and the sum is written out |
| Aggregation.MergeReparsed | webapp/src/app/actions/get-shopping-list.ts:195-203 | a number arriving at a bucket whose text reads as a number: that number and the new one are summed |
| Aggregation.MergeDropsNumber | webapp/src/app/actions/get-shopping-list.ts:195-197 | a number arriving at a bucket whose text does not read as a number is dropped |
| Aggregation.MergeText | webapp/src/app/actions/get-shopping-list.ts:204-205 | a different text amount is appended after " + " |
| Aggregation.MergeUnchanged | webapp/src/app/actions/get-shopping-list.ts:204 | an equal text amount, or "—" on either side, leaves the bucket unchanged |
| Aggregation.MergeOtherwise | webapp/src/app/actions/get-shopping-list.ts:189-206 | in every case that neither sums nor joins, the bucket stays as it is |
| Aggregation.SumExamples | webapp/src/app/actions/get-shopping-list.ts:191-194 | 1,5 and 0,5 are written "2"; 1,5 and 1 are written "2,5" |
| Aggregation.FormatNotPlaceholder | webapp/src/app/actions/get-shopping-list.ts:191-204 | the text of a sum is never "—" |
| Aggregation.MergeAmountOk | webapp/src/app/actions/get-shopping-list.ts:186-207 | merging keeps a bucket well formed: each recipe once, and "—" without a number |
| Aggregation.ObserveValid | webapp/src/app/actions/get-shopping-list.ts:176-207 | filing one ingredient keeps the map well formed |
| Aggregation.FoldValid | webapp/src/app/actions/get-shopping-list.ts:153-209 | after any sequence of the loop's ingredients the map is well formed: every key once, in insertion order |
| Aggregation.CollectValid | webapp/src/app/actions/get-shopping-list.ts:148-209 | the map after the loop is well formed |
| Aggregation.FoldKeys | webapp/src/app/actions/get-shopping-list.ts:169-186 | a key has a bucket exactly when some ingredient was filed under it |
| Aggregation.FoldFirst | webapp/src/app/actions/get-shopping-list.ts:179-185 | a bucket keeps the unit and display name of the first ingredient filed under its key |
| Aggregation.FoldNumericSum | webapp/src/app/actions/get-shopping-list.ts:183-194 | when every amount under a key is a number, the bucket's number is their sum; its text is the first amount as written when there is one ingredient, else the sum's text |
| Aggregation.FoldPlaceholderSticky | webapp/src/app/actions/get-shopping-list.ts:168-204 | a bucket opened with "—" keeps "—" and no number, whatever follows |
| Aggregation.AddRecipeFirst | webapp/src/app/actions/get-shopping-list.ts:188 | adding a recipe keeps the recipe map equal to the recipes seen, each under the first title seen for it |
| Aggregation.FoldRecipes | webapp/src/app/actions/get-shopping-list.ts:177-188 | a bucket's recipe map holds exactly the recipes that filed an ingredient under its key, each once and under its first title |
| Aggregation.Visits | webapp/src/app/actions/get-shopping-list.ts:161-163 | every turn of a recipe carries the normalised title of that recipe |
| Aggregation.TurnSnoc | webapp/src/app/actions/get-shopping-list.ts:163-208 | folding the ingredients of one more turn is taking that turn in the map the earlier turns left |
| Aggregation.TurnBlank | webapp/src/app/actions/get-shopping-list.ts:164-165 | a turn with a blank name leaves the map as it is (`continue`) |
| Aggregation.TurnNamed | webapp/src/app/actions/get-shopping-list.ts:164-174 | a named ingredient is filed with the key, unit, amount, number and display name lines 164-174 compute |
| Aggregation.ObserveFirst | webapp/src/app/actions/get-shopping-list.ts:176-185 | the first ingredient under a key opens its bucket and appends the key to the insertion order |
| Aggregation.ObserveRepeat | webapp/src/app/actions/get-shopping-list.ts:186-207 | a repeat ingredient adds its recipe and merges its amount into the bucket, and the order stays |
| Aggregation.MergeInto | webapp/src/app/actions/get-shopping-list.ts:189-206 | the merge branches as written compute `MergeAmount`, the number read back from the bucket's text being `parseAmount ?? parseFloat` |
| Aggregation.FileIngredient | webapp/src/app/actions/get-shopping-list.ts:164-207 | one turn of the inner loop computes `Turn`: skip, open a bucket, or update the bucket in the map |
| Aggregation.FileTurn | webapp/src/app/actions/get-shopping-list.ts:163-208 | one turn of the inner loop takes the map after the earlier turns to the map after one more turn |
| Aggregation.FileRecipe | webapp/src/app/actions/get-shopping-list.ts:161-208 | the inner loop over one recipe's ingredients takes the map that the earlier turns left to the map after this recipe's turns as well |
| Aggregation.CollectEntries | webapp/src/app/actions/get-shopping-list.ts:148-209 | the nested loops over recipes and ingredients leave the map and its insertion order equal to `Collect` |
| ShoppingList.Titles | webapp/src/app/actions/get-shopping-list.ts:215 | `recipes.values()` lists the titles of the recipe map in insertion order |
| ShoppingList.ItemOf | webapp/src/app/actions/get-shopping-list.ts:211-217 | the item a bucket becomes: display name, amount, unit, sorted recipe titles, category of the lower-cased display name |
| ShoppingList.CategoryRank | webapp/src/app/actions/get-shopping-list.ts:219 | `catOrder`: `CATEGORY_ORDER.indexOf(c)` |
| ShoppingList.ItemLeq | webapp/src/app/actions/get-shopping-list.ts:220-225 | the comparator of `items.sort`: the earlier category first, then the names under the name order standing for `localeCompare` |
| ShoppingList.ShoppingList | webapp/src/app/actions/get-shopping-list.ts:211-225 | the items of `Collect`, sorted by that comparator |
| ShoppingList.IndexOf | webapp/src/app/actions/get-shopping-list.ts:219 | `indexOf` is -1 exactly when the element is absent, and otherwise the first index holding it |
| ShoppingList.CategoryRankInRange | webapp/src/app/actions/get-shopping-list.ts:219 | every category has a rank from 0 to 6 |
| ShoppingList.ItemLeqTotalPreorder | webapp/src/app/actions/get-shopping-list.ts:220-225 | for any name order that is total and transitive, the item comparison (category rank, then that name order) is too |
| ShoppingList.ItemOfBucket | webapp/src/app/actions/get-shopping-list.ts:211-217 | an item's recipe titles are sorted and are exactly the titles of the bucket's recipe map; its category is one of the seven |
| ShoppingList.ItemCategory | webapp/src/app/actions/get-shopping-list.ts:216 | the category computed from the lower-cased display name is that of the normalised name, unless the name starts with ß |
| ShoppingList.Unsorted | webapp/src/app/actions/get-shopping-list.ts:211-217 | one item per key, in insertion order, item i made from the bucket of key i |
| ShoppingList.ShoppingListOrdered | webapp/src/app/actions/get-shopping-list.ts:220-225 | for a total and transitive name order standing for `localeCompare`, the list is sorted: category ranks never decrease, and within one category the names are in that order |
| ShoppingList.ShoppingListPermutation | webapp/src/app/actions/get-shopping-list.ts:211-225 | the list is a permutation of the buckets' items |
| ShoppingList.ShoppingListStable | webapp/src/app/actions/get-shopping-list.ts:220-225 | items that the comparator ranks equal (same category, names equivalent under the name order) keep the order in which their keys were first seen |
| ShoppingList.ShoppingListOnePerKey | webapp/src/app/actions/get-shopping-list.ts:211-217 | the list has one item per key of the map, and every bucket's item is in it |
| ShoppingList.UnsortedOnePerKey | webapp/src/app/actions/get-shopping-list.ts:211 | a well-formed map gives as many items as it has keys, and every bucket's item is among them |
| ShoppingList.BuildShoppingList | webapp/src/app/actions/get-shopping-list.ts:148-225 | the loops, the items and the sort compute `ShoppingList` of the planned recipes under the given name order |
| AdminSettings.KeysDistinct | webapp/src/app/api/admin/settings/route.ts:5-11 | the five row keys are pairwise different |
| AdminSettings.Stars | webapp/src/app/api/admin/settings/route.ts:15 | `"*".repeat(n)` has n characters, all stars |
| AdminSettings.MaskKey | webapp/src/app/api/admin/settings/route.ts:13-16 | "***" below 12 characters; otherwise min(length, 28) characters: the first 4 and last 4 of the key with stars between them |
| AdminSettings.MaskKeyRevealsOnlyEnds | webapp/src/app/api/admin/settings/route.ts:13-16 | two keys of equal length with the same first and last four characters are masked alike |
| AdminSettings.MaskKeyBounds | webapp/src/app/api/admin/settings/route.ts:14-15 | a mask has at most 28 characters, and every character but the first and last four is a star |
| AdminSettings.NormalizeGeminiModel | webapp/src/app/api/admin/settings/route.ts:24-27 | "gemini-3.0-pro" becomes "gemini-3-pro-preview", every other id is returned as it is, and the result is never "gemini-3.0-pro" |
| AdminSettings.NormalizeGeminiModelIdempotent | webapp/src/app/api/admin/settings/route.ts:23-27 | normalising twice is normalising once |
| AdminSettings.Lookup | webapp/src/app/api/admin/settings/route.ts:18-21 | `getSetting` gives the row's value when there is a row, and null otherwise |
| AdminSettings.Truthy | webapp/src/app/api/admin/settings/route.ts:44-51 | a stored value JavaScript treats as true: present and not empty |
| AdminSettings.Masked | webapp/src/app/api/admin/settings/route.ts:44 | `v ? maskKey(v) : null` |
| AdminSettings.OrDefault | webapp/src/app/api/admin/settings/route.ts:50-51 | `v \|\| d` |
| AdminSettings.View | webapp/src/app/api/admin/settings/route.ts:36-52 | the JSON body GET answers with, computed from the five rows |
| AdminSettings.ViewDefaults | webapp/src/app/api/admin/settings/route.ts:43-52 | defaults apply row by row: a missing or empty provider row gives "openai" (a non-empty one is reported as stored), a missing or empty model row gives "gemini-2.5-flash", a missing or empty key row gives no key and not configured, whatever the other rows hold |
| AdminSettings.ViewMasksKeys | webapp/src/app/api/admin/settings/route.ts:44-51 | a key is reported exactly when it is configured, and only masked; the reported model is never the retired id |
| AdminSettings.TrimmedText | webapp/src/app/api/admin/settings/route.ts:72 | `typeof v === "string" ? v.trim() : ""` is trimmed |
| AdminSettings.StoreOrDelete | webapp/src/app/api/admin/settings/route.ts:73-80 | `deleteMany` of the row for an empty value, `upsert` otherwise |
| AdminSettings.ApplyOpenAi | webapp/src/app/api/admin/settings/route.ts:71-87 | the OpenAI block: nothing when the field is absent, delete or store the trimmed key, None (the 400 reply) for a key not starting with "sk-" |
| AdminSettings.ApplyKey | webapp/src/app/api/admin/settings/route.ts:89-113 | the Gemini-key or image-key block: nothing when the field is absent, else delete or store the trimmed key |
| AdminSettings.ApplyProvider | webapp/src/app/api/admin/settings/route.ts:115-122 | the provider block: "gemini" for exactly "gemini", "openai" for anything else given |
| AdminSettings.ApplyModel | webapp/src/app/api/admin/settings/route.ts:124-131 | the model block: the trimmed model stored only for a string that is not blank |
| AdminSettings.Patched | webapp/src/app/api/admin/settings/route.ts:71-131 | the table after the five blocks in order, or None when the OpenAI block refuses |
| AdminSettings.PatchRefused | webapp/src/app/api/admin/settings/route.ts:71-86 | PATCH is refused exactly when an OpenAI key is given that trims to something not starting with "sk-" |
| AdminSettings.OpenAiLookup | webapp/src/app/api/admin/settings/route.ts:71-86 | the OpenAI block deletes the row for a blank key, stores the trimmed key otherwise, and touches no other row |
| AdminSettings.KeyLookup | webapp/src/app/api/admin/settings/route.ts:89-113 | the Gemini and image blocks delete their row for a blank key, store the trimmed key otherwise, and touch no other row |
| AdminSettings.ProviderLookup | webapp/src/app/api/admin/settings/route.ts:115-122 | a given provider is stored as "gemini" only when it is exactly "gemini", else as "openai" |
| AdminSettings.ModelLookup | webapp/src/app/api/admin/settings/route.ts:124-131 | the model is written, trimmed, only when it is a string that is not blank |
| AdminSettings.PatchLookup | webapp/src/app/api/admin/settings/route.ts:71-131 | after a saved PATCH, each of the five rows is what its own block wrote, or as before; every other row is unchanged |
| AdminSettings.PatchIdempotent | webapp/src/app/api/admin/settings/route.ts:71-131 | sending the same PATCH twice leaves the table as the first one did |
| AdminSettings.PatchStoreOk | webapp/src/app/api/admin/settings/route.ts:71-131 | PATCH keeps the table well formed: an OpenAI key starts with "sk-", stored keys and the model are trimmed and not empty, the provider is "openai" or "gemini" |
| AdminSettings.ViewOfStoreOk | webapp/src/app/api/admin/settings/route.ts:44-51 | on a well-formed table GET reports "openai" or "gemini" as provider, reports the OpenAI key as configured exactly when its row exists, and a masked OpenAI key of 12 or more characters still starts with "sk-" |
| AdminSettings.ViewAfterPatch | webapp/src/app/api/admin/settings/route.ts:115-131 | GET after a saved PATCH reports provider "gemini" when exactly "gemini" was sent and "openai" for any other string, reports the normalised trimmed model when a non-blank model was sent, and reports the OpenAI key as configured when a non-blank one was sent |
| AdminSettings.SettingsStore.GetSetting | webapp/src/app/api/admin/settings/route.ts:18-21 | the value of the row under the key, or null when there is no row |
| AdminSettings.SettingsStore.Get | webapp/src/app/api/admin/settings/route.ts:36-52 | the five reads and the reply compute `View` of the table |
| AdminSettings.SettingsStore.Patch | webapp/src/app/api/admin/settings/route.ts:68-133 | a refused request answers 400 and leaves the table unchanged; otherwise the reply is 200 and the table is `Patched` of the old one |

## Left out

- The session check, the date check and the database query of `getShoppingList` (get-shopping-list.ts:133-146). The input is the already-fetched sequence of planned recipes, in the query's order.
- `JSON.parse` of a recipe's ingredients is an `Option`, with `None` for malformed JSON or a value that is not an array. An `amount`, `unit` or `name` that is present but not a string would throw into the outer `catch` (lines 228-231). So would a `null` element of the parsed array, whose `.name` cannot be read. The model's ingredients are always records of optional strings, so neither case is modelled.
- Floating point. Amounts are exact rationals, so rounding in `+=`, `% 1`, `Math.round` and `toFixed(1)` on binary doubles is not modelled. `toFixed(1)` is modelled on the exact value, with halves rounded away from zero.
- Amounts.ParseFloat reads an optional sign, digits, a point and digits. Exponent notation, `Infinity` and other forms are not read: "1e3" gives 1, where `parseFloat` gives 1000, and "Infinity" and "½" give no number.
- Text.LowerChar and Text.UpperChar map ASCII and Latin-1 letters (with ÿ/Ÿ, and ß to "SS" when upper-cased). One Latin-1 letter is not mapped: `toUpperCase` turns µ (U+00B5) into Greek capital mu (U+039C), and Text.UpperChar leaves it as it is. Every character outside Latin-1 is left as it is.
- Sorting.StringLeq: `.sort()` on the titles compares UTF-16 code units, which is character order only inside the Basic Multilingual Plane; the model sorts the titles by character order.
- `localeCompare` on the names depends on the runtime's collation. The model takes it as a parameter `nameLeq` of `ShoppingList` and `BuildShoppingList`, and proves the ordering lemmas for every `nameLeq` that is total and transitive; no particular collation is modelled.
- JavaScript object-prototype names such as "constructor" are not table keys in `normalizeName`'s lookup. The model's table holds only the listed entries.
- The admin check and its 403 reply (`requireAdmin`, settings/route.ts:30-33, 63-66) are not part of this model.
- Errors in the settings route are not modelled: a failing `request.json()` or database call and the 500 replies (settings/route.ts:53-59, 134-140). Nor is a database error after some rows were written, which leaves those rows written.
- AdminSettings.MaskKey: `maskKey`'s `length` and `slice` count UTF-16 code units, while the model counts characters; the two differ only for keys holding characters outside the Basic Multilingual Plane.
- Amounts.StripQualifier: its contract says what is left in general terms; the exact remainder after a qualifier and its whitespace is stated by Amounts.StripQualifierRemoves.
- `Promise.all` in GET reads the five rows concurrently. `SettingsStore.Get` reads them one after another.
