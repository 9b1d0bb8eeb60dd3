# Catalog importer, modelled in Dafny

`catalog_importer.py` reads a product CSV file and fills a Klaviyo catalog
through the catalog API. Every row describes one variant of a product. The
importer runs in three passes:

1. It collects every category name. Each row's `categories` column holds
   names separated by `//`. It creates one catalog category per distinct name.
2. It groups adjacent rows with equal `external_id` (the `itertools.groupby`
   semantics). It creates one catalog item per group, built from the group's
   first row.
3. It creates one catalog variant per row.

Every create goes through `create_item`:

- It sends the create request and prints "`<name>` created".
- On an HTTP 409 conflict it prints "`<name>` already exists". For items and
  variants it then reshapes the same body dict in place into an update body
  (`update_item`), sends an update under the composite id
  `$custom:::$default:::<key>`, and prints "`<name>` updated".
- Any other API error is re-raised, and the first exception ends the run.

The model has seven modules:

- `Exceptions` has the Python exceptions the importer can raise (`KeyError`,
  `ValueError`, `ApiException`) and a `Result` type that propagates them.
- `Text` has substring search, `str.split("//")` with its inverse `join`, and
  `str.replace(pat, "")`.
- `Rows` has a CSV row as its ordered (column, value) pairs, with `row[c]`
  and `row[c] or row[f]`.
- `Bodies` has JSON-like request bodies, Python truthiness, and the pure
  meaning of `update_item`'s reshaping.
- `Payloads` has the composite ids, the category references, the custom
  metadata dicts, and the item and variant builders with their bodies.
- `Upsert` has `create_item` as a pure function over a service that answers
  each request given all earlier ones, plus a `Body` class whose
  `ToUpdate`/`CreateItem` methods mutate the body object in place as the
  source does.
- `Importer` covers the loops of `main` and `import_categories`, and the
  sequential execution of the imports.

## Model

| member | source | states |
|---|---|---|
| Text.Find | catalog_importer.py:104 | the position reported is an occurrence of the pattern and no earlier position starts one; `None` means no position does (Python's `pat in s`) |
| Text.Split | catalog_importer.py:97 | splitting always yields at least one piece |
| Text.SplitEmpty | catalog_importer.py:202 | an empty `categories` value splits into one empty name |
| Text.SplitThenJoin | catalog_importer.py:97 | joining the pieces of a split with `//` gives back the original string |
| Text.SplitPiecesHaveNoDelimiter | catalog_importer.py:97 | no piece of a split contains `//` |
| Text.JoinThenSplit | catalog_importer.py:202 | a non-empty list of names free of `//`, none but the last ending in `/`, is recovered by splitting its join |
| Text.RemoveAll | catalog_importer.py:102 | removing every occurrence of a non-empty pattern never lengthens the string |
| Text.RemoveAtFirst | catalog_importer.py:102 | `str.replace(pat, "")` keeps the text before the first occurrence found by `find`, drops that occurrence, and treats the rest the same way |
| Text.RemoveAbsent | catalog_importer.py:143 | removing a pattern that does not occur leaves the column name unchanged |
| Text.RemovePrefix | catalog_importer.py:102 | a column `pat + x` whose rest has no occurrence of `pat` gets key `x` |
| Rows.Get | catalog_importer.py:111 | `row[c]` succeeds iff the row has the column, returning a value stored under it; otherwise it raises `KeyError(c)` |
| Rows.GetOr | catalog_importer.py:157 | `row[c] or row[f]`: a missing `c` raises for `c`; a non-empty `c` is returned; an empty `c` gives `row[f]` |
| Bodies.ReshapedFails | catalog_importer.py:37-40 | reshaping succeeds iff all three create-only attributes are present; otherwise it raises `KeyError` for the first one missing, the ones before it being present |
| Bodies.ReshapedBody | catalog_importer.py:37-45 | the update body has `data.id` set to the id; `relationships` is dropped iff truthy and no other `data` key is added or changed; the attributes are the original ones minus the three create-only keys, minus `sku` too iff truthy, with their values unchanged |
| Payloads.CompositeId | catalog_importer.py:95 | the id is `$custom:::$default:::` followed by the key, so the key can be read back |
| Payloads.CategoryRefs | catalog_importer.py:91-99 | one `catalog-category` reference per split name, in order, each with the name's composite id |
| Payloads.CategoryRefsRoundTrip | catalog_importer.py:91-99 | the names referenced are the split pieces in order, and joined they give back the `categories` column |
| Payloads.CustomMetadataHasKeys | catalog_importer.py:101-106 | every selected column gives a metadata key: its name with the marker removed |
| Payloads.CustomMetadataKeysFromColumns | catalog_importer.py:142-147 | every metadata key is the name of some selected column with the marker removed |
| Payloads.CustomMetadataValues | catalog_importer.py:142-147 | each key holds the value of the last selected column that yields that key |
| Payloads.ItemMetadataColumn | catalog_importer.py:101-106 | a column `metadata.<name>` becomes the key `<name>` |
| Payloads.BuildItem | catalog_importer.py:91-124 | the item payload is built iff all seven columns are present and the price parses; on failure the error is a missing column or `ValueError` on the price; every field is its column, the thumbnail is the full image, and the categories are the references of the split column |
| Payloads.BuildVariant | catalog_importer.py:141-181 | the variant payload is built iff every column read (and each fallback needed) is present and the numbers parse; sku and external id are `variant.sku`; an inventory policy of 0 becomes 1; a quantity of 0 stays 0; the item reference is the composite id of `external_id` |
| Payloads.VariantFallback | catalog_importer.py:157-166 | description, url and image take the variant column when non-empty and the item column otherwise |
| Payloads.ItemUpdateBody | catalog_importer.py:107-125 | an item's create body always reshapes: the update keeps only `type` and `id` in `data`, and the attributes minus the three create-only keys |
| Payloads.VariantUpdateBody | catalog_importer.py:149-181 | a variant's create body always reshapes: the item relationship is dropped, and the sku is kept iff it is empty |
| Upsert.UpsertCreatesOnce | catalog_importer.py:50-64 | one call of `create_item` sends exactly one create request |
| Upsert.UpsertOutcomes | catalog_importer.py:20-64 | the create comes first and is the only create; success prints "created"; a non-409 status re-raises with nothing printed; 409 prints "already exists" and then sends an update iff an update id is given and the body reshapes; when the body cannot be reshaped its `KeyError` is raised after the two create events; otherwise a successful update prints "updated" and finishes, and a failed update re-raises its `ApiException`; at most four events occur |
| Upsert.Body.constructor | catalog_importer.py:107-126 | the new body object holds the given body |
| Upsert.Body.ToUpdate | catalog_importer.py:37-45 | on success the object becomes the reshaped body; on a `KeyError` the id is already set and exactly the attributes popped before the failing pop are gone |
| Upsert.CreateItem | catalog_importer.py:20-64 | mutating the body object in place gives exactly the events and outcome of `Upsert` on the body's initial value; the object is unchanged unless a 409 is followed by an update id, then holds the reshaped update body, or, when a pop raises `KeyError`, has the id set and only the attributes popped before the failing one removed |
| Upsert.UpsertTwice | catalog_importer.py:50-62 | against a catalog that remembers creates, a new body is "created" on the first call; on the second it "already exists" and is updated, with no second create succeeding |
| Selection.CategoryNamesFails | catalog_importer.py:201-203 | extraction raises `KeyError("categories")` iff some row lacks the column |
| Selection.CategoryNamesMembers | catalog_importer.py:201-203 | a name is extracted iff it is a piece of some row's `categories` value |
| Selection.CategoryNamesOrderFree | catalog_importer.py:201-203 | the extracted set depends only on which rows occur, not on their order or repetition |
| Selection.CategoryNamesIdempotent | catalog_importer.py:201-203 | reading the rows twice extracts the same names |
| Selection.ItemCategoriesExtracted | catalog_importer.py:91-99 | every category an item refers to is one of the categories created |
| Selection.RunStarts | catalog_importer.py:207 | the group starts are in range, strictly ascending, and begin at 0 |
| Selection.RunStartsExact | catalog_importer.py:207 | a position starts a group iff it is first or its key differs from the previous row's |
| Selection.LastRun | catalog_importer.py:207 | every row after the last group start has that group's key |
| Selection.RunStartsNeighboursDiffer | catalog_importer.py:207 | consecutive group starts have different keys |
| Selection.RunStartsCover | catalog_importer.py:207 | every key appears at a group start at or before its position |
| Selection.ParentRowsAreRunStarts | catalog_importer.py:207-208 | the parents are exactly the first rows of the groups, in input order |
| Selection.ParentRowsNeighboursDiffer | catalog_importer.py:207-208 | consecutive parents have different `external_id` values |
| Selection.ParentRowsCover | catalog_importer.py:207-208 | every row's `external_id` is some parent's |
| Selection.VariantsReferenceParents | catalog_importer.py:171-176 | every variant's item reference is the composite id of some imported parent item |
| Importer.FirstUnkeyed | catalog_importer.py:207 | the rows before the returned position all have `external_id`, and the row at it (if any) does not |
| Importer.ItemPlanFails | catalog_importer.py:207-208 | `groupby` hands out every group iff all rows have `external_id`; otherwise it raises `KeyError("external_id")`; every item imported is an input row |
| Importer.PlanCategories | catalog_importer.py:67-84 | one category import per name in the set, each exactly once, in the order the set yields them |
| Importer.PlanItems | catalog_importer.py:207-208 | the groupby loop imports the first row of each group, and stops with `KeyError` at the first row without `external_id`, before importing the group in progress |
| Importer.Groups | catalog_importer.py:207 | walking the rows stops at the first row without `external_id` or at the end; the rows walked are keyed, the parents are their group starts, and every group but the one in progress has been imported |
| Importer.GroupAdvance | catalog_importer.py:207 | a keyed row with the current key extends the group in progress; a new key hands that group's first row out and starts a group at the row |
| Importer.PlanImports | catalog_importer.py:200-212 | the imports of `main` are the categories, then the parents, then every row's variant; a `KeyError` from extraction or from groupby cuts the list short |
| Importer.PreparedItem | catalog_importer.py:128-134 | an item import sends the built item body to the items endpoint |
| Importer.PreparedVariant | catalog_importer.py:183-189 | a variant import sends the built variant body to the variants endpoint |
| Importer.PreparedUpdates | catalog_importer.py:128-134 | only items and variants are updated on conflict, under the composite id of `external_id` and of `variant.sku` respectively, and their bodies always reshape |
| Importer.ExecutionNothingPending | catalog_importer.py:204-212 | a run that raises nothing had no `KeyError` pending from planning |
| Importer.ExecutionCreates | catalog_importer.py:204-212 | a run that raises nothing built every import, and it sends exactly one create per import, in order, each with that import's endpoint and body |
| Importer.Import | catalog_importer.py:128-134 | one import on a fresh body object builds the arguments, raising what building raises, and then behaves as `create_item` |
| Importer.Execute | catalog_importer.py:204-212 | performing the imports one after another on fresh body objects gives the events and outcome of `Execution` |
| Importer.Run | catalog_importer.py:192-212 | `main` orders the categories as some enumeration of the extracted set and then behaves as the executed plan |
| Importer.CompletePlan | catalog_importer.py:200-212 | a plan with nothing pending read `categories` and `external_id` in every row, and lists the categories, then every group's first row, then every row |
| Importer.CompletedRun | catalog_importer.py:200-212 | a run that raises nothing read `categories` and `external_id` in every row, and sent exactly one create per category, per group and per row |
| Importer.CompletedRunCategory | catalog_importer.py:204 | in a run that raises nothing, the first creates are the categories, in the order the set yields them |
| Importer.CompletedRunItem | catalog_importer.py:207-208 | in a run that raises nothing, the item creates come next: the body built from each group's first row, in group order |
| Importer.CompletedRunVariant | catalog_importer.py:211-212 | in a run that raises nothing, the last creates are the variant bodies built from each row, in row order |

## Left out

- Reading the CSV file and the environment (`INPUT_FILE`, the API key) is left out: the rows are a parameter of `Importer.Run`.
- The API client, its retries and its back-off are left out. The service is an abstract function from the requests sent so far to a response, so any catalog behaviour is covered.
- Lines printed to standard output are modelled as `Printed` events.
- Conversion of text with Python's `int()` and `float()` is left out: both are parameters (`IntParser`, `FloatParser`).
- Floating point is modelled as exact reals. `float(price) or 0.00` therefore keeps the parsed price.
- Rows with fewer values than the header are left out: `csv.DictReader` gives the missing columns `None` values, and every value in the model is a string.
- Rows with more values than the header are left out: `csv.DictReader` puts the extra values in a list under the key `None`.
- Headers that repeat a column name are left out. `csv.DictReader` keeps such a column at its first position with its last value, while the model keeps every pair in header order. With header `metadata.x,metadata.metadata.x,metadata.x` and values `1,2,3` the source's item metadata is `{"x": "2"}` and the model's `{"x": "3"}`. For headers with distinct names the two agree.
- The variant's `images` list is always empty, as in the source. The image logic is a placeholder there.
- Categories are never updated on conflict. The source passes no update request for them, and the model gives no update id.
- Exceptions other than `ApiException`, `KeyError` and `ValueError` are left out, as are errors of the transport itself.
- Payloads.BuildItem: on failure, the contract names some missing column rather than the first one in evaluation order.
- Payloads.BuildVariant: on failure, the contract names some missing column or a `ValueError` rather than the first one in evaluation order.
- Importer.PlanCategories: the set's iteration order is an arbitrary choice, exposed as a ghost `order`. Python's hash order is not modelled.
- Payloads.BuildVariant: the inventory policy has no default for a missing or empty column. `int()` is called on `variant.inventory_policy`, so a missing column raises `KeyError`, an empty value raises `ValueError`, and only the value 0 becomes 1.
