# Ingredient resolution and cart pricing of the grocery shopping app

This project models, in Dafny, the engine behind the shopping cart of the
Flask grocery application in `app.py`. Given a recipe ingredient, the engine
turns it into a priced cart line and keeps the session cart consistent:

- **Normalisation.** `normalize_ingredient_name` lower-cases a name. It then
  removes the modifier words (`fresh`, `diced`, …) and the measurements
  (`500g`, `2 cup`, …), collapses whitespace and strips the ends. Last, it
  applies three plural rewrites.
- **Lookup.** `find_product_key` resolves a normalised name against
  `PRODUCT_INFO` and `INGREDIENT_SYNONYMS`. It tries a direct key first, then
  a synonym, then a partial (substring) match. `find_matching_product` searches
  the product collection the same way: by normalised name, then by synonym,
  then by a fuzzy match on the name.
- **Quantities.** `parse_quantity` reads the leading number and the unit of a
  quantity text. `parse_and_validate_quantity` keeps a recipe quantity that
  reaches the product's minimum. Below the minimum it uses the minimum. For an
  incompatible unit or an unreadable number it uses the default.
- **Pricing.** `calculate_price` converts kg/gm and liter/ml and multiplies by
  the unit price, rounded to cents. Without a `PRODUCT_INFO` entry it prices
  from the product collection. Everything else is priced 0.99.
- **The cart.**
  - `add_to_cart` merges the new line into the first line of the same
    product whose unit agrees; otherwise it appends the new line.
  - `update_cart` re-quantifies the first line with the given id, unless the
    new quantity is below that line's minimum or is 0.
  - `remove_from_cart` drops every line with the id.
  - The cart total is the sum of the line prices.
- **The admin routes** (`admin_panel`, `edit_product`, `delete_product`)
  insert, overwrite and delete `PRODUCT_INFO` entries.

Modules, one file each:

- `Wrappers`: `Option`.
- `Text`: ASCII lower-casing, Python's whitespace set, `strip()` and substring tests.
- `PyNumbers`: Python's int/float values and `f"{v} {unit}"`.
- `Normalizer`: the regular-expression rewrites, written as scanners over the text.
- `Quantities`: `parse_quantity`, unit conversion and `parse_and_validate_quantity`.
- `Catalog`: the built-in tables and the two lookups.
- `Pricing`: `calculate_price`.
- `InfoStore`: the `PRODUCT_INFO` dict as a class updated in place.
- `ShoppingCart`: the cart lines, the three cart routes as functions, and a
  `Cart` class whose methods run the route loops in place.
- `NormalizerExamples`, `QuantitiesExamples`, `CatalogExamples`, `PricingExamples`:
  concrete inputs the code handles.

**Python numbers.** A number is `PyInt` or `PyFloat`. This matters because
`f"{500} gm"` prints `500 gm`, while a float prints through `str(float)`.
Two float operations are parameters of the model: `str(float)` and
`round(x, 2)`. They are the two fields of a `Numerics` value. Where a proof
needs to know how they behave, the lemma states that as a named `requires`:

- `PrintsBack(num, x)`: the printed text of the float `x` is a plain decimal
  (no exponent) that reads back as `x`. It is stated per value. It holds of a
  value such as `1000.0` (`QuantitiesExamples.ThousandPrintsBack`). It fails for
  a value that Python prints with an exponent (`QuantitiesExamples.ExponentDoesNotPrintBack`).
- `RoundKeepsCents`: rounding leaves a value of whole cents unchanged.

Dicts iterate in insertion order, and `find_one` returns the first matching
document. So every table is a sequence, and "first" means the lowest index.

The rewrites of `normalize_ingredient_name` are modelled exactly as the code
is written, including where the code departs from what its comments suggest:

- The measurement pattern has no word boundary, so a digit followed by `g`
  removes the `g` that starts the next word: `"2 garlic"` normalises to
  `"arlic"` (`NormalizerExamples.TwoGarlic`). Since `g` comes before `gram` in
  the alternation, `"2 grams"` loses only `"2 g"` and normalises to `"ram"`
  (`NormalizerExamples.TwoGrams`).
- The last plural rule's `[^s]` accepts any character, including a space.
- The function is not idempotent: `"freshs"` becomes `"fresh"`, which
  normalises to `""` (`NormalizerExamples.NotIdempotent`).
- `parse_quantity` can fail: its `float()` raises on `"."`. The model returns
  `None` there, and every caller handles it as the code's `except` does.

## Model

(All source paths are `ai_powered_grocery_shopping-main/ai_powered_grocery_shopping-main/app.py`, written out in each row.)

| member | source | states |
|---|---|---|
| Text.Lower | ai_powered_grocery_shopping-main/ai_powered_grocery_shopping-main/app.py:1188 | the lowered text has the same length, no upper-case letter, and each character is the lower-case form of the original one |
| Text.StripLeft | ai_powered_grocery_shopping-main/ai_powered_grocery_shopping-main/app.py:1198 | `lstrip()` removes exactly the leading whitespace: what is left is a suffix, it does not start with whitespace, and everything removed is whitespace |
| Text.StripRight | ai_powered_grocery_shopping-main/ai_powered_grocery_shopping-main/app.py:1198 | `rstrip()` removes exactly the trailing whitespace: what is left is a prefix, it does not end with whitespace, and everything removed is whitespace |
| Text.Strip | ai_powered_grocery_shopping-main/ai_powered_grocery_shopping-main/app.py:1198 | a stripped non-empty text neither starts nor ends with whitespace; stripping keeps "no upper case" and "spaces collapsed" |
| Text.StripKeeps | ai_powered_grocery_shopping-main/ai_powered_grocery_shopping-main/app.py:1198 | a text with no whitespace is left unchanged by `strip()` |
| Normalizer.RemoveWord | ai_powered_grocery_shopping-main/ai_powered_grocery_shopping-main/app.py:1192 | removing a whole word never introduces an upper-case letter |
| Normalizer.RemoveModifiers | ai_powered_grocery_shopping-main/ai_powered_grocery_shopping-main/app.py:1191-1192 | removing the nine modifier words keeps a lower-case text lower case |
| Normalizer.RemoveModifiersOfToken | ai_powered_grocery_shopping-main/ai_powered_grocery_shopping-main/app.py:1191-1192 | a single word, possibly followed by one non-word character, disappears exactly when it is one of the modifiers, and is kept otherwise |
| Normalizer.RemoveModifiersSplit | ai_powered_grocery_shopping-main/ai_powered_grocery_shopping-main/app.py:1191-1192 | when the first part ends in a non-word character, the two parts are rewritten independently (the `\b` boundaries cannot straddle the cut) |
| Normalizer.RemoveModifiersKeeps | ai_powered_grocery_shopping-main/ai_powered_grocery_shopping-main/app.py:1191-1192 | a text that none of the nine word removals changes is left unchanged by the whole loop |
| Normalizer.UnitGTaken | ai_powered_grocery_shopping-main/ai_powered_grocery_shopping-main/app.py:1195 | wherever `g` occurs, the leftmost-first alternation picks the unit `g` |
| Normalizer.UnitGramNeverTaken | ai_powered_grocery_shopping-main/ai_powered_grocery_shopping-main/app.py:1195 | the alternative `gram` is never chosen, because `g` comes before it |
| Normalizer.MeasureLength | ai_powered_grocery_shopping-main/ai_powered_grocery_shopping-main/app.py:1195 | a measurement match starting at a position stays inside the text and can start only at a digit |
| Normalizer.RemoveMeasures | ai_powered_grocery_shopping-main/ai_powered_grocery_shopping-main/app.py:1195 | removing measurements keeps a lower-case text lower case |
| Normalizer.RemoveMeasuresKeeps | ai_powered_grocery_shopping-main/ai_powered_grocery_shopping-main/app.py:1195 | a text without digits contains no measurement and is unchanged |
| Normalizer.RemoveMeasuresCons | ai_powered_grocery_shopping-main/ai_powered_grocery_shopping-main/app.py:1195 | a leading non-digit is kept, and the rest is rewritten on its own |
| Normalizer.RemoveMeasuresDigitG | ai_powered_grocery_shopping-main/ai_powered_grocery_shopping-main/app.py:1195 | a digit, a space and a `g` are removed as a measurement even when the `g` starts the next word, and a digit-free rest is kept |
| Normalizer.CollapseSpaces | ai_powered_grocery_shopping-main/ai_powered_grocery_shopping-main/app.py:1198 | after `\s+` to a single space, no two whitespace characters are adjacent and every remaining whitespace character is a plain space; lower case is kept |
| Normalizer.CollapseSpacesKeeps | ai_powered_grocery_shopping-main/ai_powered_grocery_shopping-main/app.py:1198 | a text without whitespace is unchanged |
| Normalizer.StripCollapseSpaceCons | ai_powered_grocery_shopping-main/ai_powered_grocery_shopping-main/app.py:1198 | a leading space makes no difference once spaces are collapsed and the text is stripped |
| Normalizer.SingularIes | ai_powered_grocery_shopping-main/ai_powered_grocery_shopping-main/app.py:1201 | the `ies` to `y` rule keeps a tidy text tidy (lower case, collapsed spaces, no leading space) |
| Normalizer.SingularOes | ai_powered_grocery_shopping-main/ai_powered_grocery_shopping-main/app.py:1202 | the `oes` to `o` rule keeps a tidy text tidy |
| Normalizer.SingularS | ai_powered_grocery_shopping-main/ai_powered_grocery_shopping-main/app.py:1203 | the final-`s` rule keeps a tidy text tidy |
| Normalizer.Normalize | ai_powered_grocery_shopping-main/ai_powered_grocery_shopping-main/app.py:1182-1205 | every normalised name is lower case, has single spaces only and does not start with a space |
| Normalizer.NormalizeChainEmpty | ai_powered_grocery_shopping-main/ai_powered_grocery_shopping-main/app.py:1184-1198 | the rewrite chain turns `""` into `""`, so the early return for an empty name agrees with it |
| Normalizer.NormalizeWord | ai_powered_grocery_shopping-main/ai_powered_grocery_shopping-main/app.py:1188-1203 | a single word of letters that is not a modifier is only lower-cased and put through the three plural rules |
| Normalizer.NormalizeModifierWord | ai_powered_grocery_shopping-main/ai_powered_grocery_shopping-main/app.py:1188-1198 | a name that is one modifier word, in any letter case, normalises to the empty name |
| Normalizer.RemoveLeadingModifier | ai_powered_grocery_shopping-main/ai_powered_grocery_shopping-main/app.py:1188-1192 | lower-casing and modifier removal turn a leading modifier word and its space into that space alone |
| Normalizer.NormalizeDropsModifier | ai_powered_grocery_shopping-main/ai_powered_grocery_shopping-main/app.py:1188-1203 | a leading modifier word and a space do not change the normalised name |
| NormalizerExamples.EmptyName | ai_powered_grocery_shopping-main/ai_powered_grocery_shopping-main/app.py:1184-1185 | `""` normalises to `""` |
| NormalizerExamples.Tomatoes | ai_powered_grocery_shopping-main/ai_powered_grocery_shopping-main/app.py:1202 | `"Tomatoes"` normalises to `"tomato"` |
| NormalizerExamples.Berries | ai_powered_grocery_shopping-main/ai_powered_grocery_shopping-main/app.py:1201 | `"berries"` normalises to `"berry"` |
| NormalizerExamples.Onions | ai_powered_grocery_shopping-main/ai_powered_grocery_shopping-main/app.py:1203 | `"onions"` normalises to `"onion"` |
| NormalizerExamples.Glass | ai_powered_grocery_shopping-main/ai_powered_grocery_shopping-main/app.py:1203 | `"glass"` is kept: `[^s]` refuses the second `s` |
| NormalizerExamples.Tomato | ai_powered_grocery_shopping-main/ai_powered_grocery_shopping-main/app.py:1182-1205 | `"tomato"` normalises to itself |
| NormalizerExamples.FreshDicedTomatoes | ai_powered_grocery_shopping-main/ai_powered_grocery_shopping-main/app.py:1188-1203 | `"Fresh Diced Tomatoes"` normalises to `"tomato"` |
| NormalizerExamples.NotIdempotent | ai_powered_grocery_shopping-main/ai_powered_grocery_shopping-main/app.py:1191-1203 | normalising twice can differ from normalising once: `"freshs"` gives `"fresh"`, which gives `""` |
| NormalizerExamples.TwoGarlic | ai_powered_grocery_shopping-main/ai_powered_grocery_shopping-main/app.py:1195 | `"2 garlic"` normalises to `"arlic"`: the unit `g` needs no word boundary after it |
| NormalizerExamples.TwoGrams | ai_powered_grocery_shopping-main/ai_powered_grocery_shopping-main/app.py:1195 | `"2 grams"` loses only `"2 g"` and normalises to `"ram"`, since `g` comes before `gram` in the alternation |
| PyNumbers.Add | ai_powered_grocery_shopping-main/ai_powered_grocery_shopping-main/app.py:452 | Python `+` on numbers: the value is the sum, and the result is an int exactly when both operands are ints |
| PyNumbers.NatToString | ai_powered_grocery_shopping-main/ai_powered_grocery_shopping-main/app.py:502 | `str()` of a non-negative int is a non-empty run of decimal digits |
| PyNumbers.DigitsValueOfNatToString | ai_powered_grocery_shopping-main/ai_powered_grocery_shopping-main/app.py:502 | reading the digits printed by `str()` gives back the int |
| PyNumbers.FormatQty | ai_powered_grocery_shopping-main/ai_powered_grocery_shopping-main/app.py:502 | `f"{v} {unit}"` of a non-negative int is its decimal digits, a space and the unit |
| Quantities.NumberRunIsGreedy | ai_powered_grocery_shopping-main/ai_powered_grocery_shopping-main/app.py:1256 | `[\d.]+` takes every digit and dot it can and stops at the first other character |
| Quantities.LetterRunIsGreedy | ai_powered_grocery_shopping-main/ai_powered_grocery_shopping-main/app.py:1256 | `[a-zA-Z]*` takes every letter it can and stops at the first non-letter |
| Quantities.FloatValue | ai_powered_grocery_shopping-main/ai_powered_grocery_shopping-main/app.py:1258 | the number that `float()` reads from digits and at most one dot is never negative |
| Quantities.ReadQuantity | ai_powered_grocery_shopping-main/ai_powered_grocery_shopping-main/app.py:1258-1260 | the match gives a quantity exactly when `float()` accepts the number; the value is that float, and the unit is the lower-cased word, or `"unit"` when there is no word |
| Quantities.ParseQuantity | ai_powered_grocery_shopping-main/ai_powered_grocery_shopping-main/app.py:1250-1262 | a parsed quantity has a non-empty lower-case unit and a non-negative value |
| Quantities.ParseQuantityUnit | ai_powered_grocery_shopping-main/ai_powered_grocery_shopping-main/app.py:1256-1259 | a parsed unit is a non-empty word of lower-case ASCII letters |
| Quantities.ParseQuantityDefaultIff | ai_powered_grocery_shopping-main/ai_powered_grocery_shopping-main/app.py:1252-1262 | the result is `(1, "unit")` exactly when the text is empty or does not start with a digit or a dot |
| Quantities.ParseQuantityFailsIff | ai_powered_grocery_shopping-main/ai_powered_grocery_shopping-main/app.py:1256-1258 | parsing fails (the `float()` error) exactly when the text starts with a digit or a dot and the leading run is not a float literal |
| Quantities.ParseQuantityRuns | ai_powered_grocery_shopping-main/ai_powered_grocery_shopping-main/app.py:1256-1260 | once the leading number run is known, the parse is that run read as a float together with the word after any whitespace |
| Quantities.ParseNumberAndUnit | ai_powered_grocery_shopping-main/ai_powered_grocery_shopping-main/app.py:1256-1260 | a number text, a space and a word parse back as that number and the lower-cased word (`"unit"` when the word is empty) |
| Quantities.NatToStringIsNumber | ai_powered_grocery_shopping-main/ai_powered_grocery_shopping-main/app.py:502 | `str()` of a non-negative int is a float literal whose value is the int |
| Quantities.ParseFormatted | ai_powered_grocery_shopping-main/ai_powered_grocery_shopping-main/app.py:502 | a quantity written as `f"{v} {unit}"`, for a unit that is a non-empty word of ASCII letters, is read back by `parse_quantity` as `v` and the lower-cased unit. This holds for a non-negative int, and for a non-negative float whose text reads back (`PrintsBack`) |
| Quantities.UnitsCompatible | ai_powered_grocery_shopping-main/ai_powered_grocery_shopping-main/app.py:482-485 | equal units are compatible, and two different compatible units are exactly the gm/kg pair or the ml/liter pair |
| Quantities.ConvertAmount | ai_powered_grocery_shopping-main/ai_powered_grocery_shopping-main/app.py:489-497 | converting to the same unit changes nothing, converting never makes an amount negative, and between two different compatible units the amount is scaled by 1000 one way or the other |
| Quantities.MeetsMinimum | ai_powered_grocery_shopping-main/ai_powered_grocery_shopping-main/app.py:487-500 | a quantity that reaches the minimum parses in a compatible unit; the default `(1, "unit")` reaches it exactly when the base unit is `unit` and the minimum is at most 1 |
| Quantities.ConvertRoundTrip | ai_powered_grocery_shopping-main/ai_powered_grocery_shopping-main/app.py:489-497 | converting between two compatible units and back gives the original amount |
| Quantities.ConvertKeepsSign | ai_powered_grocery_shopping-main/ai_powered_grocery_shopping-main/app.py:1282-1289 | converting a non-negative amount keeps it non-negative |
| Quantities.ValidateQuantity | ai_powered_grocery_shopping-main/ai_powered_grocery_shopping-main/app.py:473-506 | an empty recipe quantity gives the default; a recipe quantity that reaches the minimum is kept; any other gives the default or `f"{min_qty} {base_unit}"` |
| Quantities.FormattedMeetsMinimum | ai_powered_grocery_shopping-main/ai_powered_grocery_shopping-main/app.py:502 | the replacement `f"{min_qty} {base_unit}"` itself reaches the minimum, when the base unit is a non-empty lower-case word and the minimum is non-negative: an int, or a float whose text reads back. (A negative minimum prints as `-5 gm`, which parses as the default) |
| Quantities.ValidateMeetsMinimum | ai_powered_grocery_shopping-main/ai_powered_grocery_shopping-main/app.py:473-506 | the validated quantity is either the default or reaches the minimum in the base unit. This holds for any base unit, including a blank or multi-word one from the admin forms, and for any minimum, including a negative one. A non-negative float minimum must have a text that reads back |
| Quantities.ValidateRaisesToMinimum | ai_powered_grocery_shopping-main/ai_powered_grocery_shopping-main/app.py:482-502 | a compatible recipe quantity below the minimum is replaced by the minimum in the base unit |
| Quantities.ValidateFallsBack | ai_powered_grocery_shopping-main/ai_powered_grocery_shopping-main/app.py:482-506 | an unreadable recipe quantity, or one in an incompatible unit, gives the default |
| QuantitiesExamples.ParseEmpty | ai_powered_grocery_shopping-main/ai_powered_grocery_shopping-main/app.py:1252-1253 | `""` parses as `(1, "unit")` |
| QuantitiesExamples.ThousandPrintsBack | ai_powered_grocery_shopping-main/ai_powered_grocery_shopping-main/app.py:502 | the float 1000.0 printed as `"1000.0"` reads back as itself |
| QuantitiesExamples.ExponentDoesNotPrintBack | ai_powered_grocery_shopping-main/ai_powered_grocery_shopping-main/app.py:1256-1258 | a float printed with an exponent (`"1e-05"`) does not read back: the number match stops at the `e` |
| QuantitiesExamples.ParseGrams | ai_powered_grocery_shopping-main/ai_powered_grocery_shopping-main/app.py:1256-1260 | `"500 gm"` parses as 500.0 gm |
| QuantitiesExamples.ParseHundredGrams | ai_powered_grocery_shopping-main/ai_powered_grocery_shopping-main/app.py:1256-1260 | `"100 gm"` parses as 100.0 gm |
| QuantitiesExamples.ParseKilo | ai_powered_grocery_shopping-main/ai_powered_grocery_shopping-main/app.py:1256-1260 | `"1 kg"` parses as 1.0 kg |
| QuantitiesExamples.ParseCups | ai_powered_grocery_shopping-main/ai_powered_grocery_shopping-main/app.py:1256-1260 | `"2 cup"` parses as 2.0 cup |
| QuantitiesExamples.ParseFraction | ai_powered_grocery_shopping-main/ai_powered_grocery_shopping-main/app.py:1256-1260 | `"1/2 cup"` parses as 1.0 `unit`: the match stops at `/` and the unit word is empty |
| QuantitiesExamples.ParseDot | ai_powered_grocery_shopping-main/ai_powered_grocery_shopping-main/app.py:1258 | `"."` makes `float()` raise |
| QuantitiesExamples.FormatFiveHundredGrams | ai_powered_grocery_shopping-main/ai_powered_grocery_shopping-main/app.py:502 | the int 500 with unit gm is written `"500 gm"` |
| QuantitiesExamples.ValidateRaises | ai_powered_grocery_shopping-main/ai_powered_grocery_shopping-main/app.py:499-502 | `"100 gm"` against a 500 gm minimum becomes `"500 gm"` |
| QuantitiesExamples.ValidateKeepsKilo | ai_powered_grocery_shopping-main/ai_powered_grocery_shopping-main/app.py:489-500 | `"1 kg"` against a 500 gm minimum is kept (1000 gm) |
| QuantitiesExamples.ValidateCupsFallBack | ai_powered_grocery_shopping-main/ai_powered_grocery_shopping-main/app.py:503-504 | `"2 cup"` for a product sold by the gram gives the default |
| QuantitiesExamples.ValidateDotFallsBack | ai_powered_grocery_shopping-main/ai_powered_grocery_shopping-main/app.py:505-506 | `"."` gives the default through the `except` |
| Catalog.Lookup | ai_powered_grocery_shopping-main/ai_powered_grocery_shopping-main/app.py:1278 | `PRODUCT_INFO[key]` exists exactly when the key is in the dict, and is an item of it |
| Catalog.LookupDistinct | ai_powered_grocery_shopping-main/ai_powered_grocery_shopping-main/app.py:1278 | with distinct keys, each key looks up its own item |
| Catalog.FindProductKey | ai_powered_grocery_shopping-main/ai_powered_grocery_shopping-main/app.py:1232-1248 | a key that is found is a `PRODUCT_INFO` key or a synonym key |
| Catalog.FindProductKeyDirect | ai_powered_grocery_shopping-main/ai_powered_grocery_shopping-main/app.py:1235-1236 | a name that is a `PRODUCT_INFO` key is its own key |
| Catalog.FindProductKeySynonym | ai_powered_grocery_shopping-main/ai_powered_grocery_shopping-main/app.py:1239-1241 | otherwise the first synonym entry whose key or alias list has the name gives its key |
| Catalog.FindProductKeyPartial | ai_powered_grocery_shopping-main/ai_powered_grocery_shopping-main/app.py:1244-1246 | otherwise the first `PRODUCT_INFO` key that contains the name, or is contained in it, is the result |
| Catalog.FindProductKeyNoneIff | ai_powered_grocery_shopping-main/ai_powered_grocery_shopping-main/app.py:1232-1248 | no key is found exactly when the name is not a key, no synonym entry has it, and no key partially matches it |
| Catalog.EmptyMatchesEveryKey | ai_powered_grocery_shopping-main/ai_powered_grocery_shopping-main/app.py:1245 | the empty name is contained in every key, so it partially matches the first one |
| Catalog.SynonymProduct | ai_powered_grocery_shopping-main/ai_powered_grocery_shopping-main/app.py:362-367 | the synonym search returns a product of the collection whose normalised name is the key of a synonym entry that has the name; it returns nothing exactly when no such entry's key names a product |
| Catalog.FindMatchingProduct | ai_powered_grocery_shopping-main/ai_powered_grocery_shopping-main/app.py:354-377 | a product that is found belongs to the collection |
| Catalog.FindMatchingDirect | ai_powered_grocery_shopping-main/ai_powered_grocery_shopping-main/app.py:357-359 | the first product whose normalised name is the name is returned |
| Catalog.FindMatchingSynonym | ai_powered_grocery_shopping-main/ai_powered_grocery_shopping-main/app.py:362-367 | failing that, the first product named by the key of the first useful synonym entry is returned |
| Catalog.SynonymProductFirst | ai_powered_grocery_shopping-main/ai_powered_grocery_shopping-main/app.py:362-367 | entries whose key names no product are passed over, and the first entry that names one decides |
| Catalog.FindMatchingFuzzy | ai_powered_grocery_shopping-main/ai_powered_grocery_shopping-main/app.py:370-375 | failing both, the first product whose name contains the name, ignoring case, is returned |
| Catalog.FindMatchingNoneIff | ai_powered_grocery_shopping-main/ai_powered_grocery_shopping-main/app.py:354-377 | nothing is found exactly when all three searches find nothing |
| CatalogExamples.DefaultKeys | ai_powered_grocery_shopping-main/ai_powered_grocery_shopping-main/app.py:1220-1230 | the built-in `PRODUCT_INFO` keys, in order |
| CatalogExamples.OliveOil | ai_powered_grocery_shopping-main/ai_powered_grocery_shopping-main/app.py:1213 | `"olive oil"` resolves to the synonym key `"oil"`, which is not a `PRODUCT_INFO` key |
| CatalogExamples.RomaTomato | ai_powered_grocery_shopping-main/ai_powered_grocery_shopping-main/app.py:1239-1241 | `"roma tomato"` resolves to `"tomato"` through the synonyms |
| CatalogExamples.TomatoPaste | ai_powered_grocery_shopping-main/ai_powered_grocery_shopping-main/app.py:1244-1246 | `"tomato paste"` resolves to `"tomato"` by partial match |
| CatalogExamples.EmptyName | ai_powered_grocery_shopping-main/ai_powered_grocery_shopping-main/app.py:1244-1246 | the empty name resolves to the first key, `"tomato"` |
| Pricing.PricingInfo | ai_powered_grocery_shopping-main/ai_powered_grocery_shopping-main/app.py:1268-1278 | the entry used for pricing is that of a non-empty key found by `find_product_key` that is present in `PRODUCT_INFO` |
| Pricing.PriceOf | ai_powered_grocery_shopping-main/ai_powered_grocery_shopping-main/app.py:1266-1296 | once the name is normalised and the quantity parsed: a `float()` error gives 0.99, and so does a name with neither a `PRODUCT_INFO` entry nor a product of that normalised name |
| Pricing.CalculatePrice | ai_powered_grocery_shopping-main/ai_powered_grocery_shopping-main/app.py:1264-1296 | `calculate_price` of a quantity whose `float()` raises is 0.99, and so is the price of a product name that resolves to no entry and to no product |
| Pricing.PriceOfUnparsable | ai_powered_grocery_shopping-main/ai_powered_grocery_shopping-main/app.py:1294-1296 | a quantity that makes `float()` raise is priced 0.99 on every path |
| Pricing.PriceOfUnknown | ai_powered_grocery_shopping-main/ai_powered_grocery_shopping-main/app.py:1270-1276 | a name with no `PRODUCT_INFO` entry and no product of that normalised name is priced 0.99 |
| Pricing.PriceFromInfo | ai_powered_grocery_shopping-main/ai_powered_grocery_shopping-main/app.py:1278-1292 | with an entry, the price is the amount converted to the entry's unit, times its unit price, rounded to cents |
| Pricing.PriceUnscaled | ai_powered_grocery_shopping-main/ai_powered_grocery_shopping-main/app.py:1282-1292 | any unit pair other than kg/gm and liter/ml is priced unscaled |
| Pricing.PriceOfEquivalentQuantities | ai_powered_grocery_shopping-main/ai_powered_grocery_shopping-main/app.py:1282-1292 | two quantities with the same amount in the entry's unit (such as 1 kg and 1000 gm) cost the same |
| Pricing.PriceFromCollection | ai_powered_grocery_shopping-main/ai_powered_grocery_shopping-main/app.py:1272-1275 | without an entry, the first product of that normalised name prices the unconverted amount at its own unit price, or at 1 when it has none |
| Pricing.SynonymKeyWithoutInfo | ai_powered_grocery_shopping-main/ai_powered_grocery_shopping-main/app.py:1270 | a resolved key that is missing from `PRODUCT_INFO` sends pricing to the collection |
| PricingExamples.TomatoInfo | ai_powered_grocery_shopping-main/ai_powered_grocery_shopping-main/app.py:1221 | `"tomato"` prices by the built-in tomato entry |
| PricingExamples.FiveHundredGramsOfTomato | ai_powered_grocery_shopping-main/ai_powered_grocery_shopping-main/app.py:1264-1292 | 500 gm of tomato costs 1.00, given that rounding keeps whole cents |
| PricingExamples.OneKiloOfTomato | ai_powered_grocery_shopping-main/ai_powered_grocery_shopping-main/app.py:1282-1283 | 1 kg of tomato is converted to 1000 gm and costs 2.00, given that rounding keeps whole cents |
| InfoStore.AdminInfo | ai_powered_grocery_shopping-main/ai_powered_grocery_shopping-main/app.py:706-711 | the stored entry has default quantity `"1 " + unit`, the unit, the unit price and the float minimum; for an all-letter lower-case unit the default quantity reads back as 1.0 of that unit, or of `unit` when the unit is blank |
| InfoStore.Put | ai_powered_grocery_shopping-main/ai_powered_grocery_shopping-main/app.py:903-908 | `d[key] = v` keeps the size when the key exists and grows it by one otherwise |
| InfoStore.PutKeys | ai_powered_grocery_shopping-main/ai_powered_grocery_shopping-main/app.py:903-908 | after `d[key] = v` the keys keep their order, and a new key is appended |
| InfoStore.PutDistinct | ai_powered_grocery_shopping-main/ai_powered_grocery_shopping-main/app.py:903-908 | `d[key] = v` keeps the keys distinct |
| InfoStore.PutLookup | ai_powered_grocery_shopping-main/ai_powered_grocery_shopping-main/app.py:903-908 | after `d[key] = v` the key maps to `v`, and every other key keeps its value |
| InfoStore.Delete | ai_powered_grocery_shopping-main/ai_powered_grocery_shopping-main/app.py:943 | `del d[key]` never grows the dict |
| InfoStore.DeleteMembers | ai_powered_grocery_shopping-main/ai_powered_grocery_shopping-main/app.py:943 | after `del d[key]` exactly the items with another key remain |
| InfoStore.DeleteDistinct | ai_powered_grocery_shopping-main/ai_powered_grocery_shopping-main/app.py:943 | deleting keeps the keys distinct |
| InfoStore.DeleteLookup | ai_powered_grocery_shopping-main/ai_powered_grocery_shopping-main/app.py:943 | after `del d[key]` the key is gone, and every other key keeps its value |
| InfoStore.AppendDistinct | ai_powered_grocery_shopping-main/ai_powered_grocery_shopping-main/app.py:705-706 | inserting a key that is not yet present keeps the keys distinct |
| InfoStore.DefaultInfoDistinct | ai_powered_grocery_shopping-main/ai_powered_grocery_shopping-main/app.py:1220-1230 | the built-in table has each key once |
| InfoStore.ProductInfoTable.constructor | ai_powered_grocery_shopping-main/ai_powered_grocery_shopping-main/app.py:1220-1230 | the dict starts as the built-in table, with distinct keys |
| InfoStore.ProductInfoTable.AddProduct | ai_powered_grocery_shopping-main/ai_powered_grocery_shopping-main/app.py:666-711 | with a non-blank name and image URL, the entry is appended under the normalised stripped name only when that key is new; otherwise the dict is unchanged; keys stay distinct |
| InfoStore.ProductInfoTable.EditProduct | ai_powered_grocery_shopping-main/ai_powered_grocery_shopping-main/app.py:860-908 | with a non-blank name and image URL, the entry under the normalised name is set (overwritten or appended); otherwise nothing changes; keys stay distinct |
| InfoStore.ProductInfoTable.DeleteProduct | ai_powered_grocery_shopping-main/ai_powered_grocery_shopping-main/app.py:941-943 | a truthy stored normalised name that is a key loses its entry; otherwise the dict is unchanged; keys stay distinct |
| ShoppingCart.Total | ai_powered_grocery_shopping-main/ai_powered_grocery_shopping-main/app.py:513 | the cart total of lines with non-negative prices is non-negative |
| ShoppingCart.NewLine | ai_powered_grocery_shopping-main/ai_powered_grocery_shopping-main/app.py:416-435 | the new line carries the id, product name, ingredient name, image URL, unit, minimum and product id it was given; its quantity is what `parse_and_validate_quantity` chooses (the default, the recipe quantity or the minimum in the base unit); its price is `calculate_price` of that quantity |
| ShoppingCart.NewLineMeetsMinimum | ai_powered_grocery_shopping-main/ai_powered_grocery_shopping-main/app.py:421 | a new line asks for the default quantity or for at least the product's minimum. This holds for any stored unit and minimum; a non-negative float minimum must have a text that reads back |
| ShoppingCart.SameProduct | ai_powered_grocery_shopping-main/ai_powered_grocery_shopping-main/app.py:444-445 | a cart line with a truthy `product_id` is the same product exactly when the ids are equal; a line without one is the same product exactly when the product names are equal |
| ShoppingCart.Mergeable | ai_powered_grocery_shopping-main/ai_powered_grocery_shopping-main/app.py:444-451 | a line whose quantity, or the new item's quantity, makes `float()` raise is skipped; a line merges with itself exactly when its quantity text parses |
| ShoppingCart.MergedQuantity | ai_powered_grocery_shopping-main/ai_powered_grocery_shopping-main/app.py:448-453 | two quantities that both parse as the default `(1, "unit")` merge to `"2 unit"`, as int addition prints |
| ShoppingCart.Merge | ai_powered_grocery_shopping-main/ai_powered_grocery_shopping-main/app.py:452-453 | the merged line has the merged quantity `f"{existing + new} {existing_unit}"`, priced by `calculate_price` under the cart line's own product name; id, names, image, unit, minimum and product id stay |
| ShoppingCart.MergeIndex | ai_powered_grocery_shopping-main/ai_powered_grocery_shopping-main/app.py:443-451 | the merge loop stops at the first line of the same product whose quantity parses in the same unit as the new one |
| ShoppingCart.AddToCart | ai_powered_grocery_shopping-main/ai_powered_grocery_shopping-main/app.py:443-462 | adding grows the cart by at most one line; every line other than the merge target stays; a line that is appended is the new item |
| ShoppingCart.AddToCartMerges | ai_powered_grocery_shopping-main/ai_powered_grocery_shopping-main/app.py:443-457 | when some line takes the item, the first such line is replaced by the merged line, and every other line stays |
| ShoppingCart.AddToCartAppends | ai_powered_grocery_shopping-main/ai_powered_grocery_shopping-main/app.py:462 | when no line takes the item, it is appended and the old lines stay |
| ShoppingCart.AddToCartOutcome | ai_powered_grocery_shopping-main/ai_powered_grocery_shopping-main/app.py:443-462 | the cart keeps its length exactly when some line takes the item, and otherwise grows by one |
| ShoppingCart.AddToCartIds | ai_powered_grocery_shopping-main/ai_powered_grocery_shopping-main/app.py:426-462 | with a fresh id, adding keeps the ids distinct, and the new id ends up in the cart exactly when nothing was merged |
| ShoppingCart.MergedQuantityParses | ai_powered_grocery_shopping-main/ai_powered_grocery_shopping-main/app.py:448-453 | the merged quantity text reads back as the sum of the two parsed amounts in the line's unit, when the sum is an int or a float whose text reads back |
| ShoppingCart.SumParses | ai_powered_grocery_shopping-main/ai_powered_grocery_shopping-main/app.py:452-453 | `f"{a + b} {unit}"` reads back as the sum and the unit, for two non-negative amounts and a unit that is a non-empty lower-case word, when the sum is an int or a float whose text reads back |
| ShoppingCart.AddToCartTotal | ai_powered_grocery_shopping-main/ai_powered_grocery_shopping-main/app.py:443-462 | adding raises the total by the new line's price, or changes it by the merged line's change in price |
| ShoppingCart.IdIndex | ai_powered_grocery_shopping-main/ai_powered_grocery_shopping-main/app.py:526-527 | the loop of `update_cart` stops at the first line with the id |
| ShoppingCart.UpdateOutcomeOf | ai_powered_grocery_shopping-main/ai_powered_grocery_shopping-main/app.py:526-539 | nothing is found exactly when no line has the id, and a line is updated only for a non-zero new quantity |
| ShoppingCart.Requantify | ai_powered_grocery_shopping-main/ai_powered_grocery_shopping-main/app.py:536-537 | the line gets quantity `f"{new_quantity} {unit}"` in its own unit and the price `calculate_price` gives for it; id, names, image, unit, minimum and product id stay |
| ShoppingCart.UpdateLines | ai_powered_grocery_shopping-main/ai_powered_grocery_shopping-main/app.py:526-541 | the cart keeps its length and its ids; unless the outcome is an update, it is unchanged |
| ShoppingCart.UpdateOutcomeIff | ai_powered_grocery_shopping-main/ai_powered_grocery_shopping-main/app.py:526-539 | for the first line with the id: it is updated exactly when the new quantity reaches its minimum and is not 0; the "minimum" warning is given exactly when the new quantity is below the minimum |
| ShoppingCart.UpdateNotFound | ai_powered_grocery_shopping-main/ai_powered_grocery_shopping-main/app.py:526-539 | nothing is found exactly when no line has the id |
| ShoppingCart.UpdateOnlyFirst | ai_powered_grocery_shopping-main/ai_powered_grocery_shopping-main/app.py:526-539 | only the first line with the id can change; it is re-quantified exactly when the quantity reaches the minimum and is not 0; the ids stay |
| ShoppingCart.RemoveLines | ai_powered_grocery_shopping-main/ai_powered_grocery_shopping-main/app.py:557 | filtering never lengthens the cart |
| ShoppingCart.RemoveMembers | ai_powered_grocery_shopping-main/ai_powered_grocery_shopping-main/app.py:557 | exactly the lines with another id remain |
| ShoppingCart.RemoveConcat | ai_powered_grocery_shopping-main/ai_powered_grocery_shopping-main/app.py:557 | filtering a concatenation filters each part |
| ShoppingCart.RemoveShortens | ai_powered_grocery_shopping-main/ai_powered_grocery_shopping-main/app.py:557-562 | the cart gets shorter ("Item removed") exactly when some line has the id, and is unchanged otherwise ("Item not found") |
| ShoppingCart.RemoveDropsAtMostOne | ai_powered_grocery_shopping-main/ai_powered_grocery_shopping-main/app.py:557 | with distinct ids, removing an id drops at most one line |
| ShoppingCart.RemoveTotal | ai_powered_grocery_shopping-main/ai_powered_grocery_shopping-main/app.py:557 | the old total is the new total plus the prices of the removed lines |
| ShoppingCart.RemoveDistinct | ai_powered_grocery_shopping-main/ai_powered_grocery_shopping-main/app.py:557 | removing keeps the ids distinct |
| ShoppingCart.TotalConcat | ai_powered_grocery_shopping-main/ai_powered_grocery_shopping-main/app.py:513 | the total of two carts put together is the sum of their totals |
| ShoppingCart.TotalReplace | ai_powered_grocery_shopping-main/ai_powered_grocery_shopping-main/app.py:513 | replacing one line changes the total by the difference in price |
| ShoppingCart.Cart.constructor | ai_powered_grocery_shopping-main/ai_powered_grocery_shopping-main/app.py:438 | a new session has an empty cart |
| ShoppingCart.Cart.TotalPrice | ai_powered_grocery_shopping-main/ai_powered_grocery_shopping-main/app.py:578 | the total of the empty cart is 0 |
| ShoppingCart.Cart.AddOrMerge | ai_powered_grocery_shopping-main/ai_powered_grocery_shopping-main/app.py:438-462 | the loop leaves the cart as `AddToCart` describes (merge into the first line that takes the item, else append), and ids stay distinct |
| ShoppingCart.Cart.UpdateQuantity | ai_powered_grocery_shopping-main/ai_powered_grocery_shopping-main/app.py:516-548 | the loop reports the branch taken and leaves the cart as `UpdateLines` describes; ids stay distinct |
| ShoppingCart.Cart.Remove | ai_powered_grocery_shopping-main/ai_powered_grocery_shopping-main/app.py:550-565 | the cart becomes the filtered cart, the result says whether a line had the id, ids stay distinct, and at most one line goes |

## Left out

- The Flask layer is not modelled: requests, the session store, `flash` messages, redirects, templates and the admin login check. The cart is a value, or a `Cart` object, passed in and out.
- The product collection is a sequence passed as a parameter. It is only read here. The MongoDB inserts, updates and deletes of the admin routes are not modelled.
- `uuid4()` and `datetime.now()` are not modelled. The new line's id is a parameter, and `Cart.AddOrMerge` requires it to be fresh.
- `float()` of form fields is not modelled. `update_cart` takes the new quantity, and the admin routes take the unit price and minimum, as numbers already read. The `ValueError` branches for bad form numbers are not modelled.
- The product lookup at the start of `add_to_cart` (lines 384-413) is not modelled. This covers the lookup by `product_id` and by name, and the "could not find product" exit. `ShoppingCart.NewLine` takes the product data it found.
- In `add_to_cart` the `.get` defaults for `unit`, `min_qty` and `default_qty` (lines 416-418) are not modelled. A `ProductInfo` always has all four fields.
- The catch-all `except` of `add_to_cart` and `update_cart` is not modelled. The only exception inside the modelled code is `float()` in `parse_quantity`, and the model follows each of the code's own handlers for it.
- The `isinstance(cart, list)` guards are not modelled. The cart is always a list.
- The category, description and tags fields of the admin forms are not modelled. They do not reach `PRODUCT_INFO`.
- Character classes are ASCII only. `\d`, `\w`, `[a-zA-Z]` and `lower()` are read as ASCII, with no Unicode digits, letters or case mappings. `\s` and `strip()` use Python's whitespace set for one-code-unit characters.
- Float arithmetic is exact. Reals stand in for binary floats, `float()` yields the exact decimal value, and `str(float)` and `round(x, 2)` are parameters. The properties that depend on them name their assumption (`PrintsBack` for the one value concerned, `RoundKeepsCents`) as a precondition.
- `Catalog.FindMatchingProduct`: the regular expression `.*name.*` with `re.IGNORECASE` is modelled as an ASCII case-insensitive substring test on the product name.
- `ShoppingCart.Cart.TotalPrice`: its contract states only the empty-cart total. What `sum` computes is stated about `Total` by `ShoppingCart.TotalConcat`, `ShoppingCart.TotalReplace`, `ShoppingCart.RemoveTotal` and `ShoppingCart.AddToCartTotal`.
- `Quantities.ParseFormatted`, `Quantities.FormattedMeetsMinimum`, `Quantities.ValidateMeetsMinimum`, `ShoppingCart.NewLineMeetsMinimum`, `ShoppingCart.MergedQuantityParses`, `ShoppingCart.SumParses`: for a float whose `str()` does not read back, nothing is stated about what the reread quantity is. Such a float is one printed with an exponent, or one with no finite decimal value. `str(1e-05)` is `"1e-05"`, which `parse_quantity` reads as 1.0 of unit `e`.
- `InfoStore.ProductInfoTable.EditProduct`, `InfoStore.ProductInfoTable.DeleteProduct`: both start from a product document that was found. The "Product not found" exits (app.py lines 856-858 and 933-935) are not modelled, because they leave `PRODUCT_INFO` unchanged.
