# Construction inventory: cart, material list and stock helpers

A Dafny model of the three pieces of logic in the construction-inventory web
application:

- **The point-of-sale cart** (`templates/static/js/pos.js`), module
  `PointOfSale`. A class `Cart` holds the page's `cart` list as a
  `seq<Line>`. Its methods change that list in place, as the handlers do.
  `AddToCart` merges a line by material id or appends one. `RemoveItem`
  follows JavaScript's `splice(idx, 1)`, negative indices included.
  `RenderTotal` is the accumulating loop of `renderCart`. `AddClicked` is the
  add button's guard and field defaults. `Checkout` is the checkout button's
  guard and its reset of the cart. Each method is proved against a
  specification function (`Added`, `Removed`, `Total`). The lemmas beside them
  prove distinct ids, "nothing else changes" and the total arithmetic.
- **The in-memory material list** (`app.py`), module `App`. A class
  `MaterialStore` holds the `materials` list. `Inventory` is the loop that
  writes each record's status. `AddMaterial` is the append of the add-material
  form. The status labelling is specified by `Classified`. Lemmas prove the
  OK/LOW rule, that only the status field changes, idempotence, and that ids
  stay equal to positions.
- **The stock helpers** (`utils.py`), module `Stock`. `GetLowStock` is a
  filter over a sequence of material rows. In the program it queries the
  database's materials table, not `app.py`'s list. `PredictDepletionDays`
  uses exact reals. A lemma relates the low-stock predicate to the status
  rule of `app.py`, as two predicates over the same record.

Quantities and prices are exact `real`s. The server's answer to a checkout
request is a parameter (`Reply`). The selector option's text is a parameter
too.

`pos.js` posts to `/checkout`, but `app.py` defines no such route, so this
model has no server-side checkout.

One divergence in `app.py` is stated as a lemma, not fixed. `add_material`
stores status OK whatever the quantity. `inventory()` would label a record
with quantity 0 as LOW, because its reorder point is 0 and `0 > 0` is false.
`App.AddedStatusAgreesIffStocked` proves that the stored status matches the
computed one exactly when the quantity is positive.

## Model

| member | source | states |
|---|---|---|
| `PointOfSale.IndexOf` | templates/static/js/pos.js:14 | `cart.find` by id: None exactly when no line has the id; otherwise an in-range index of the first line with that id |
| `PointOfSale.Cart.AddToCart` | templates/static/js/pos.js:13-24 | the cart becomes `Added(old cart, …)`, ids stay pairwise distinct, and the returned shown total is `Total` of the new cart |
| `PointOfSale.AddedToExisting` | templates/static/js/pos.js:14-17 | for an id already in the cart: same length; that line's qty becomes old qty + qty and its price becomes the new price; every other line is unchanged; the total moves by the new minus the old line amount |
| `PointOfSale.AddedNew` | templates/static/js/pos.js:18-22 | for an id not in the cart: exactly one line `{id, option text or "Unknown", qty, price}` is appended after the unchanged old lines, and the total rises by qty × price |
| `PointOfSale.AddedKeepsDistinct` | templates/static/js/pos.js:14-21 | adding preserves "material ids in the cart are pairwise distinct" |
| `PointOfSale.Cart.RenderTotal` | templates/static/js/pos.js:27-47 | the accumulating loop returns Σ qty × price over the cart's lines (`Total`) |
| `PointOfSale.TotalAppend` | templates/static/js/pos.js:30-34 | appending a line adds exactly its qty × price to the total |
| `PointOfSale.TotalConcat` | templates/static/js/pos.js:30-34 | the total of two concatenated carts is the sum of their totals |
| `PointOfSale.TotalRemoveAt` | templates/static/js/pos.js:30-34 | dropping line k lowers the total by exactly that line's amount |
| `PointOfSale.TotalUpdateAt` | templates/static/js/pos.js:30-34 | replacing line k changes the total by the new minus the old line amount |
| `PointOfSale.SpliceStart` | templates/static/js/pos.js:51 | the position `splice(idx, 1)` removes at: idx itself when in range, length + idx for a negative idx, clamped to 0 and to the length |
| `PointOfSale.RemovedShape` | templates/static/js/pos.js:50-52 | for 0 ≤ idx < length the cart becomes `cart[..idx] + cart[idx+1..]`: order kept, length one less, total lowered by that line's amount; an idx past the end changes nothing |
| `PointOfSale.RemovedKeepsDistinct` | templates/static/js/pos.js:50-52 | removing preserves distinct material ids |
| `PointOfSale.Cart.RemoveItem` | templates/static/js/pos.js:50-53 | the cart becomes `Removed(old cart, idx)`, ids stay distinct, and the shown total is that of the new cart |
| `PointOfSale.FieldOr` | templates/static/js/pos.js:68-69 | defaulting of a parsed field: a parsed non-zero value is kept; a missing (NaN) or zero value gives the default; a non-zero default never yields 0 |
| `PointOfSale.Cart.AddClicked` | templates/static/js/pos.js:61-71 | with no material selected nothing is added; otherwise the cart is `Added` with qty defaulting to 1 and price defaulting to 0 |
| `PointOfSale.FailureReason` | templates/static/js/pos.js:108 | a refusal shows the server's message, or "Unknown error" when the message is missing or empty; the reason is never empty |
| `PointOfSale.Cart.Checkout` | templates/static/js/pos.js:75-115 | an empty cart is refused and stays unchanged; an accepted checkout leaves the cart empty with shown total 0; a refusal or a network error leaves the cart unchanged and reports why |
| `PointOfSale.Cart.constructor` | templates/static/js/pos.js:4 | the cart starts empty |
| `App.Classified` | app.py:36-37 | labelling keeps the list's length |
| `App.ClassifiedAt` | app.py:36-37 | record i after labelling is record i with its status set by the OK/LOW rule |
| `App.StatusRule` | app.py:37 | after labelling, each record's status is OK if quantity > reorder_point, otherwise LOW |
| `App.OnlyStatusChanges` | app.py:36-37 | labelling changes only the status field: length, order and every other field are unchanged |
| `App.ClassifiedIdempotent` | app.py:36-37 | labelling twice gives the same list as labelling once |
| `App.ClassifiedKeepsIds` | app.py:36-37 | labelling preserves "record i has id i + 1" |
| `App.MaterialStore.Inventory` | app.py:34-38 | the in-place loop leaves the list equal to `Classified` of the old list and keeps ids equal to positions |
| `App.Seed` | app.py:8-25 | the two seed records have ids 1 and 2 at positions 0 and 1, and no status yet |
| `App.MaterialStore.constructor` | app.py:8-25 | the store starts with the seed list, whose ids are positions |
| `App.AppendKeepsIds` | app.py:46-54 | appending the form's record with id = old length + 1 keeps "record i has id i + 1", and the new id is not among the old ones |
| `App.IdsAreDistinct` | app.py:47 | while ids equal positions, they are pairwise distinct |
| `App.MaterialStore.AddMaterial` | app.py:41-55 | exactly one record is appended after the untouched old ones: id = old length + 1, reorder_point 0, supplier "Default Supplier", status OK |
| `App.AddedStatusAgreesIffStocked` | app.py:46-54 | the appended record has status OK, and the labelling of app.py:37 would give it the same status exactly when its quantity is positive |
| `Stock.GetLowStock` | utils.py:5-10 | an item is returned exactly when it is in the store and has quantity ≤ reorder_point; each low item appears as often as in the store, and nothing else appears |
| `Stock.PredictDepletionDays` | utils.py:13-24 | never negative; 0 when quantity ≤ 0; for quantity > 0 strictly positive, and days × 5 equals the quantity |
| `Stock.DepletionMonotone` | utils.py:19-24 | the estimate is non-decreasing in quantity |
| `Stock.LowStockIsLowStatus` | utils.py:9 | the low-stock predicate holds of a record exactly when the labelling of app.py:37 gives it LOW; if the filter were run over a labelled list, it would return exactly the records labelled LOW (the program never runs this combination) |

## Left out

- DOM work in `pos.js` is not modelled. That covers the table rows, `toFixed(2)`, `alert`, `setTimeout` and `location.reload`. The option text that `findMaterialOption` looks up is passed in as a parameter.
- `parseFloat` is not modelled. A field arrives already parsed, or as None when parsing gives NaN.
- The `fetch("/checkout")` call and its JSON handling are not modelled. The server's reply is a parameter. The payload (the items and the displayed total read back from the page) is not modelled. Neither is the low-stock alert built from `data.low`.
- There is no server-side checkout (stock decrement, sale recording, rollback), because `app.py` defines no `/checkout` route.
- JavaScript's loose `==` on material ids is not modelled. Ids are strings throughout, as the material selector gives them.
- PointOfSale.Cart.RemoveItem: takes an integer index. The non-integer or non-numeric indices that `splice` also accepts are not modelled.
- Flask routing, `render_template`, `redirect`, the GET branch of `add_material` and the stub pages are framework glue and are not modelled.
- App.MaterialStore.AddMaterial: takes the quantity as a real and the name and unit as strings. It does not model `float()` raising on malformed input, or `form.get` returning None.
- Records are values here. In `app.py` the dicts are objects, mutated in place and shared with the templates; that aliasing is not captured.
- Requests served concurrently against the shared list are not modelled.
- `database.py` only creates tables. It has no logic and is not part of this model.
- Stock.GetLowStock: `utils.py` runs the query over the database's materials table (the SQLAlchemy model from `models.py`, whose columns `database.py` creates). It does not run over `app.py`'s in-memory list. The model reuses `app.py`'s record type for those rows. The table's `supplier_id` and `price_per_unit` columns are therefore not represented, and the record's supplier name and status are not columns of the table. `Stock.LowStockIsLowStatus` relates the two predicates only; the program never passes the list that `inventory()` labels to this query.
- PointOfSale.Cart.Checkout: checkout is modelled as one atomic step. While the request is pending, the page stays usable, and the model does not capture changes made during that wait. Lines added meanwhile are not in the request body, yet a successful reply still erases them. A second click sends the same cart again.
- `models.py` is not part of this model. The low-stock query's SQLAlchemy mechanics and its result order are left out. `GetLowStock` keeps store order, and its contract speaks only of membership and multiplicity.
- Stock.PredictDepletionDays: returns the unrounded quotient. Python's `round(days, 1)` and floating-point division are not modelled. Two of its guarantees therefore hold only for the unrounded value, not for the program: "strictly positive for quantity > 0" and "days × 5 equals the quantity". For 0 < quantity < 0.25 the program returns 0.0 (quantity 0.2 gives `round(0.04, 1) == 0.0`).
