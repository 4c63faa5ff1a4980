# Order-total cascade of the Italian restaurant app

This project models the part of the restaurant application's data model
that computes money: an order (`Pedido`) holds lines (`DetallePedido`),
each line names a dish (`Plato`) and a quantity, and saving a line sets
its subtotal to the dish's price times the quantity and then recomputes
the order's total as the sum of the subtotals of all its lines
(`Pedido.calcular_total`).

Prices, subtotals and totals are decimals with two places and quantities
are non-negative integers, so the model keeps every amount exactly as
integer cents (`Models.Cents`).

Layout:

- `wrappers.dfy` — `Option` and `Result`.
- `models.dfy` — module `Models`: the rows (`Pedido`, `DetallePedido`,
  `Plato`, the three order states `Espera`/`Proceso`/`Listo`), the field
  defaults, the sum of an order's subtotals as a recursive ghost function
  `TotalOf` over the line table, its laws, and `SumSubtotals`, the loop
  that adds the subtotals of the order's rows in whatever order the rows
  come and is proved equal to `TotalOf`.
- `cascade.dfy` — module `Cascade`: the tables as a value (`Tables`) and
  the cascade as functions on it: `Recompute` (calcular_total), `SaveLine`
  (the line save as written), `SaveLineFixed` (the corrected save, see
  Findings), `InsertPedido` (storing a fresh order). The invariants
  `Linked` (lines point at stored rows), `Consistent` (every stored total
  is the sum of its lines) and `NonNegative`, and the lemmas about them.
- `store.dfy` — module `Store`: class `Db` holding the tables as mutable
  maps, whose methods change them in place; each method's new state is
  proved equal to the matching `Cascade` function of the old state.

The tables are maps from primary key to row, so storing a line under a
key that is already present replaces that row: this is how the ORM's
save behaves (an update when the key is stored, an insert otherwise). A
line without a key gets a fresh one from a counter. The related-rows
query `detallepedido_set.all()` returns rows in no fixed order; `TotalOf`
picks rows in an unspecified order and `Models.TotalOfRemove` proves that
the choice does not change the sum.

The code puts no validator on the dish price (`precio`,
italian_cuisine_app/models.py:39), so the model allows any price and
treats non-negativity as a hypothesis (`Cascade.NonNegative`) that every
operation is proved to preserve; the order states are those of `ESTADOS`
(italian_cuisine_app/models.py:63-67): `espera`, `proceso`, `listo`.

## Model

| member | source | states |
|---|---|---|
| `Models.NewPedido` | italian_cuisine_app/models.py:62-73 | a fresh order is in state `espera` with total 0 and keeps the given table and waiter |
| `Models.NewDetalle` | italian_cuisine_app/models.py:87-91 | a fresh line has quantity 1 and subtotal 0 |
| `Models.TotalOf` | italian_cuisine_app/models.py:79 | the sum of the subtotals of the rows of the line table that belong to the given order, taking the rows in an unspecified order |
| `Models.TotalOfRemove` | italian_cuisine_app/models.py:79 | the sum of an order's subtotals does not depend on the order the rows are visited in: any row can be taken first |
| `Models.TotalOfUpdate` | italian_cuisine_app/models.py:79 | storing a row under a key replaces the old row in the sum: the new row is counted once and the old one not at all |
| `Models.TotalOfUpdateOther` | italian_cuisine_app/models.py:79 | writing a row that belongs (before and after) to other orders leaves an order's sum unchanged |
| `Models.TotalOfNoLines` | italian_cuisine_app/models.py:79 | an order with no rows sums to 0 |
| `Models.TotalOfNonNegative` | italian_cuisine_app/models.py:79 | with no negative subtotal the sum is not negative |
| `Models.SumSubtotals` | italian_cuisine_app/models.py:79 | adding the subtotals of the order's rows, in any visiting order, yields exactly the sum of the subtotals of the rows that belong to the order |
| `Cascade.Consistent` | italian_cuisine_app/models.py:78-98 | the invariant the cascade is meant to keep: every stored order's total equals the sum of the subtotals of its lines |
| `Cascade.LineSubtotal` | italian_cuisine_app/models.py:95 | the dish's current price times the quantity: 0 for quantity 0, the price for quantity 1, non-negative when the price is |
| `Cascade.Recompute` | italian_cuisine_app/models.py:78-81 | the order's total becomes the sum of its lines' subtotals; its state, table and waiter, every other order, every line and every dish are unchanged |
| `Cascade.RecomputeNonNegative` | italian_cuisine_app/models.py:78-81 | with no negative price, subtotal or total, recomputing an order keeps them all non-negative |
| `Cascade.RecomputeNoLines` | italian_cuisine_app/models.py:73-81 | an order without lines gets total 0, equal to the field default |
| `Cascade.RecomputeIdempotent` | italian_cuisine_app/models.py:78-81 | a second recomputation with no line change in between changes nothing |
| `Cascade.RecomputeConsistent` | italian_cuisine_app/models.py:78-81 | on tables where every total is already the sum of its lines, recomputing is the identity; it keeps the tables linked |
| `Cascade.SaveLine` | italian_cuisine_app/models.py:93-98 | the save as written: the line is stored under its key with subtotal = price times quantity, no order is added or removed, and the order the line now names gets as total the sum of its lines |
| `Cascade.SaveLineStoresLine` | italian_cuisine_app/models.py:93-96 | the saved line keeps its order, dish and quantity, its subtotal is the dish's current price times the quantity, and every other line is unchanged |
| `Cascade.SaveLineTotal` | italian_cuisine_app/models.py:93-98 | after a save the line's order has as total the sum of its lines including the saved one, that is the sum of its other lines plus the new subtotal, with a replaced row not counted |
| `Cascade.SaveLineResave` | italian_cuisine_app/models.py:93-98 | re-saving a line of a consistent order shifts the total by new subtotal minus old subtotal |
| `Cascade.SaveLineTwice` | italian_cuisine_app/models.py:93-98 | saving the same line a second time leaves the tables as after the first save |
| `Cascade.SaveLineOtherOrders` | italian_cuisine_app/models.py:93-98 | saving a line leaves every other order unchanged and keeps the own order's state, table and waiter |
| `Cascade.SaveDefaultLine` | italian_cuisine_app/models.py:90-95 | a line saved with the default quantity costs exactly the dish's price |
| `Cascade.SaveLineLinked` | italian_cuisine_app/models.py:88-96 | saving keeps every line pointing at a stored order and a stored dish |
| `Cascade.SaveLineConsistent` | italian_cuisine_app/models.py:93-98 | saving a new line, or re-saving a line within its order, keeps every stored total equal to the sum of its lines' subtotals |
| `Cascade.SaveLineNonNegative` | italian_cuisine_app/models.py:90-98 | with no negative price, saving keeps every subtotal and every total non-negative |
| `Cascade.SaveLineMovedLineStale` | italian_cuisine_app/models.py:93-98 | a concrete consistent database where re-saving a line under another order leaves the old order's total at 500 although it has no lines left |
| `Cascade.SaveLineFixed` | italian_cuisine_app/models.py:93-98 | the corrected save: stores the same lines as the save as written, and both the order the line now names and the order it belonged to before get as total the sum of their lines; every other order is unchanged and every order keeps its state, table and waiter |
| `Cascade.SaveLineFixedConsistent` | italian_cuisine_app/models.py:93-98 | the corrected save keeps every stored total equal to the sum of its lines for every line saved, moved or not, and keeps lines linked |
| `Cascade.SaveLineFixedNonNegative` | italian_cuisine_app/models.py:90-98 | with no negative price, the corrected save keeps every subtotal and every total non-negative |
| `Cascade.SaveLineFixedAgrees` | italian_cuisine_app/models.py:93-98 | where the line does not change order, the corrected save is the save as written |
| `Cascade.InsertPedido` | italian_cuisine_app/models.py:62-73 | storing a fresh order adds exactly that key, in state `espera` with total 0 and the given table and waiter, and changes no other order, line or dish |
| `Cascade.InsertPedidoConsistent` | italian_cuisine_app/models.py:62-73 | a fresh order waits with total 0, the value calcular_total gives an order with no lines, and storing it keeps the tables linked and consistent |
| `Cascade.InsertPedidoNonNegative` | italian_cuisine_app/models.py:72-73 | a fresh order's total 0 keeps every total non-negative |
| `Store.Db.constructor` | italian_cuisine_app/models.py:36-39 | a database with the given dishes and no orders or lines, in which every total is trivially consistent, and non-negative when no price is negative |
| `Store.Db.CreatePedido` | italian_cuisine_app/models.py:62-73 | stores an order with the field defaults under an unused key and keeps the totals consistent and non-negative |
| `Store.Db.CalcularTotal` | italian_cuisine_app/models.py:78-81 | updates in place to exactly `Recompute` of the old tables: the order's total becomes the sum of its lines, nothing else changes; non-negativity is kept |
| `Store.Db.SaveDetalle` | italian_cuisine_app/models.py:93-98 | a missing dish or order is an error that writes nothing; exactly when both are stored the result is Ok and the tables become `SaveLine` of the old ones, the key is the given one or a fresh one, and consistency is kept when the line does not change order; non-negativity is always kept |
| `Store.Db.SaveDetalleFixed` | italian_cuisine_app/models.py:93-98 | the same errors, and Ok exactly when the dish and the order are stored; then the tables become `SaveLineFixed` of the old ones and consistency and non-negativity are always kept |

## Findings

| source | as written | input that shows it | evidently intended | confidence | as-written member | corrected member |
|---|---|---|---|---|---|---|
| italian_cuisine_app/models.py:93-98 | saving a line recomputes only the order the line names after the save | order 1 with total 500 and one line (key 0, subtotal 500), order 2 with total 0; line 0 re-saved with its order set to 2: order 1 keeps total 500 although it has no line left | the order the line belonged to before is recomputed as well, so every total stays the sum of its lines | medium; not executed | `Cascade.SaveLineMovedLineStale` | `Cascade.SaveLineFixed`, `Cascade.SaveLineFixedConsistent` |

`Store.Db.SaveDetalle` models the save as written; `Store.Db.SaveDetalleFixed`
is the corrected save, built on it.

## Left out

- Views, URL routing, forms and the user bootstrap script: request handling, rendering and I/O with no logic of the cascade.
- Employees, categories and tables (`Empleado`, `Categoria`, `Mesa`): no shown code computes anything with them; `mesa` and `mesero` of an order are kept as optional keys only.
- Table occupancy, order closing and order state transitions: no shown code performs them, so the state of a stored order never changes in the model.
- Dish fields other than the price (name, description, availability, category, image): the cascade reads only the price.
- Deleting rows and the ORM's delete cascades and SET_NULL: no shown code deletes.
- Uniqueness constraints, creation timestamps and image uploads: enforced or filled in by the database and the framework.
- The `max_digits` limits of the decimal fields and the upper bound of the quantity field: only the database checks them; amounts are unbounded integers of cents.
- Choice validation of the state field: the model's three-valued `Estado` admits only the declared states, while the framework checks choices only in form validation.
- The `__str__` display strings.
- Stale in-memory instances: the ORM writes every field of the in-memory order when it saves it, and reads the dish price from the in-memory dish; the model reads and writes the stored rows directly, so it does not capture a stale field of a cached instance being written back.
- Concurrency and transactions: each operation is one atomic step.
- Store.Db.SaveDetalle: the extra arguments that `save` passes on to the ORM's save (italian_cuisine_app/models.py:93, 96) are not modelled; the model is the call without them. With `force_insert=True` (as the ORM's `create` passes) saving under a stored key raises an integrity error, whereas the model replaces the row; with `update_fields` leaving out `subtotal`, the new subtotal is computed but not stored, while the order is still recomputed from the stored, old subtotal.
- Store.Db.SaveDetalle: when the named order is missing, the database's foreign-key check is modelled as rejecting the save before anything is stored; a database that defers that check is not modelled.
