# Optical shop client/order store, modelled in Dafny

This project models the store behind the optical shop's single-page tool
(`script.js`). The store is a list of clients (`clientes`). Each client owns
a list of eyewear orders (`anteojos`), newest first. Two counters,
`nextClienteCodigo` and `nextAnteojoCodigo`, hand out the human-facing codes,
and `selectedClientId` names the client that new orders go to.

The model has these modules:

- `Text` (text.dfy): JavaScript's `trim`, an ASCII `toLowerCase`, `includes`
  and the regular-expression class `\d`.
- `Phone` (phone.dfy): `normalizeArPhone`, a pure function built from its
  four stages: keep the digits, drop the country code `54` and a following
  `9`, drop the trunk `0`s, and drop one mobile marker `15`.
- `Records` (records.dfy): clients, orders and the two form shapes. It also
  holds the invariant that every code lies below its counter.
- `Migrations` (migrations.dfy): the three load-time passes as functions of
  the loaded data, with their properties.
- `Queries` (queries.dfy): `getClienteById`, the order lookup by id, and
  `buscarClientes`.
- `StoreModel` (store.dfy): the loops of the three migrations, which are
  proved equal to the `Migrations` functions. It also holds the `Store`
  class, whose methods change the fields in place as the source does:
  load, migrate, register a client, select, register an order, delete an
  order, start and save an edit, and clear everything.

Values read back from storage can be malformed, and the model says how:

- A `codigo` that is not a number is `None`.
- An `anteojos` that is not an array is `None`.
- A missing string field is `""`.

Where the source calls `saveStore()` only when something changed, the method
returns a `changed` flag instead. The following become parameters:

- the fresh id from `genId()`;
- the date from `new Date()`;
- the answer to `confirm()`;
- the parsed fields that `loadStore` reads.

Some behaviour the model proves:

- The migrations do not give unique codes. In the two-client store made of
  a client without a code followed by a client coded 10000, with both
  counters at 10000, both clients end up coded 10000
  (`CodesMigratedMayRepeat`). What holds is that both counters end up above
  every code, at least 10000 and at least their old values.
- The normaliser is not idempotent, and neither is `migratePhones`, which
  runs on every load. The number `11 15 15` followed by an 8-digit local
  number loses one marker on the first run and the other on the second
  (`NormalizeNotIdempotent`, `PhoneMigratedNotIdempotent`).
- `migrateCodes` and `migrateEstados` are idempotent.

## Model

| member | source | states |
|---|---|---|
| `Phone.NormalizeArPhone` | script.js:275-304 | The result is `""` exactly when the input has no digit. Otherwise it is `+549` followed by decimal digits only. |
| `Phone.NormalizeArPhoneShape` | script.js:276-279 | The result is `""` exactly when the trimmed input has no digit, which is the same test made after trimming. |
| `Phone.NormalizeArPhoneStages` | script.js:282-303 | When the input has a digit, the result is `+549` plus the national digits. At most one `15` is cut, at offset 2, 3 or 4. |
| `Phone.DigitsSound` | script.js:278 | Stripping the non-digits leaves digits only. It leaves nothing exactly when the input has no digit. |
| `Phone.DropCountryCodeSpec` | script.js:282-285 | A leading `549` is removed if present, else a leading `54`, else nothing. |
| `Phone.DropTrunkZerosSpec` | script.js:288 | Only a prefix of `0`s is removed, and the rest does not start with `0`. |
| `Phone.DropMobile15Spec` | script.js:292-300 | Numbers under 12 digits are kept. Otherwise one `15` is cut at offset 2 (only after `11`), else 3 (13 or more digits), else 4 (14 or more digits). Putting it back restores the number. In every other case nothing changes. |
| `Phone.NormalizeOnlyDigitsMatter` | script.js:276-279 | Two inputs with the same digits normalise alike, so separators and `+` do not matter. |
| `Phone.NormalizeWrittenMobile` | script.js:275-303 | `011 15-` followed by an 8-digit local number becomes `+54911` followed by that number. |
| `Phone.NormalizeNotIdempotent` | script.js:292-299 | For `111515` followed by an 8-digit local number, a second run changes the first run's output, to `+54911` followed by the local number. |
| `Text.TrimSpec` | script.js:276 | `trim` removes white space only, at both ends, and leaves neither end as white space. |
| `Text.BlankIffAllSpace` | script.js:389-390 | The trimmed text is empty exactly when the text is all white space. |
| `Text.ContainsAt` | script.js:393-394 | `includes` holds exactly when the term occurs at some offset. |
| `Migrations.BackfillAnteojos` | script.js:189-195 | The orders loop fills in missing codes only and keeps every other field and every numeric code. The tracker never falls. |
| `Migrations.BackfillAnteojosSpec` | script.js:189-195 | After the orders loop, every order has a code no larger than the final tracker. Filled-in codes exceed the starting tracker, and the final tracker is the starting one or a code in the list. |
| `Migrations.BackfillClienteSpec` | script.js:182-195 | One client turn fills in codes and the order list, changes nothing else, and keeps every code below tracker + 1. |
| `Migrations.BackfillClientes` | script.js:181-196 | The clients loop keeps the list length and changes each client only by filling in codes and a missing order list. Neither tracker falls. |
| `Migrations.BackfillClientesBounds` | script.js:179-196 | After the clients loop, every client and order code lies below its final tracker + 1. |
| `Migrations.NextCode` | script.js:198-199 | The new counter is at least 10000, above the highest code seen and at least the stored counter. It is one of those three values. |
| `Migrations.CodesMigrated` | script.js:177-201 | Afterwards every client and order has a code, every client has an order list, and both counters exceed every code of their kind. Neither counter falls, and nothing else changes. |
| `Migrations.CodesMigratedValid` | script.js:177-199 | A store in which every client and order already has a code, every client has an order list, and both counters are at least 10000 and exceed every code of their kind is left exactly as it is. |
| `Migrations.CodesMigratedIdempotent` | script.js:177-199 | Running the code migration a second time changes nothing. |
| `Migrations.CodesMigratedMayRepeat` | script.js:181-186 | In the store made of a client without a code followed by a client coded 10000, with both counters at 10000, both clients end up coded 10000. So codes are not unique. |
| `Migrations.FixEstado` | script.js:238-239 | A missing status becomes `en-proceso` and `terminados` becomes `espera-cliente`. Any other status is kept, so the result is never empty or `terminados`. |
| `Migrations.EstadosFixed` | script.js:235-241 | A client without an order list is skipped. Otherwise each order gets its status fixed and nothing else changes. |
| `Migrations.EstadosFixedChanges` | script.js:234-242 | The status migration changes a client exactly when one of its orders had an empty or `terminados` status. |
| `Migrations.EstadosFixedSettled` | script.js:237-240 | No order is left with an empty or `terminados` status. |
| `Migrations.EstadosFixedIdempotent` | script.js:233-241 | Running the status migration a second time changes nothing. |
| `Migrations.PhoneMigrated` | script.js:248-252 | Only the phone changes. A phone with a digit ends up normalised, and a phone without one is kept. |
| `Migrations.PhoneMigratedNotIdempotent` | script.js:246-254 | The phone `111515` followed by an 8-digit local number becomes `+5491115` and the local number on the first load, and `+54911` and the local number on the second. |
| `Queries.ClienteIndex` | script.js:329-331 | Gives the index of the first client with the id, or `None` exactly when no client has it. |
| `Queries.AnteojoIndex` | script.js:576 | Gives the index of the first order with the id, or `None` (the source's -1) exactly when no order has it. |
| `Queries.Filter` | script.js:391-395 | The filter keeps each matching client as many times as it occurs and drops every other client. The result is a subsequence of the list, in store order. If all match, it keeps them all. |
| `Queries.Buscar` | script.js:388-395 | A blank query gives `[]`. Any other query gives the clients whose lower-cased DNI equals the term or whose lower-cased name or surname contains it. Each appears as many times as it is stored, in store order. |
| `Queries.BuscarFindsDni` | script.js:392 | A query equal to a client's DNI, in any letter case and with surrounding blanks, finds that client. |
| `Queries.BuscarIgnoresCase` | script.js:389 | Lower-casing the query does not change the result. |
| `StoreModel.AppendKeepsDniUnique` | script.js:366-369 | Appending a client whose trimmed DNI is blank or unused keeps non-empty DNIs unique. |
| `StoreModel.AppendKeepsCodes` | script.js:372 | A client coded with the counter is new, and once the counter is bumped all codes stay below it. |
| `StoreModel.NuevoCliente` | script.js:370-379 | The new client carries the given id and code and has no orders. Its name, surname, DNI and email are the form's values trimmed, and its phone is `NormalizeArPhone` of the typed phone: empty exactly when that has no digit, otherwise `+549` and digits. |
| `StoreModel.AppendNuevoCliente` | script.js:366-380 | Appending the client built from a form whose trimmed DNI is blank or unused keeps every code below the bumped counter. The new code is unused, and unique DNIs stay unique. |
| `StoreModel.NuevoAnteojo` | script.js:427-443 | The new order carries the given id, code and date and starts `en-proceso`, which the status migration leaves alone. Every other field is the form's value. The material defaults to `ORG` when empty, and each axis is read from `eje`, falling back to the legacy `grado`. |
| `StoreModel.EditedAnteojo` | script.js:657-669 | An edited order keeps its `id`, `codigo`, `fecha` and `estado`. Every other field is the form's value, with the material defaulting to `ORG` when empty and no `grado` fallback for the axes. |
| `StoreModel.EditedLikeNew` | script.js:657-669 | For a form without the legacy `grado` axis fields, an edit stores the fields a new order from the same form would get, apart from id, code, date and status. |
| `StoreModel.EditedIdempotent` | script.js:657-669 | Saving the same form twice stores the same order. |
| `StoreModel.FixEstados` | script.js:237-240 | The inner status loop fixes each order's status. It reports a change exactly when some order had a stale status. |
| `StoreModel.BackfillOrders` | script.js:189-195 | The inner code loop computes what `BackfillAnteojos` specifies. |
| `StoreModel.BackfillClient` | script.js:182-195 | One outer turn of the code loop computes what `BackfillCliente` specifies. |
| `StoreModel.BackfillClients` | script.js:181-196 | The outer code loop computes what `BackfillClientes` specifies. |
| `StoreModel.FixAllEstados` | script.js:235-241 | Each client becomes `EstadosFixed` of itself. It reports a change exactly when some client had a stale status. |
| `StoreModel.MigrateAllPhones` | script.js:248-252 | Each client becomes `PhoneMigrated` of itself. It reports a change exactly when some phone changed. |
| `StoreModel.Store.constructor` | script.js:142-147 | The store starts with no clients, both counters at 10000 and nothing selected. |
| `StoreModel.Store.Selected` | script.js:329-331 | `getClienteById(selectedClientId)`: the first client with the selected id, or `None` exactly when nothing is selected or no client has that id. |
| `StoreModel.Store.Load` | script.js:158-172 | A stored array replaces the clients and a stored number replaces each counter. The selection is cleared. |
| `StoreModel.Store.MigrateCodes` | script.js:177-201 | The new state is `CodesMigrated` of the old state, so the store becomes valid whatever was loaded. |
| `StoreModel.Store.MigrateEstados` | script.js:233-243 | Each client becomes `EstadosFixed` of itself and the counters are unchanged. The change flag is exact. |
| `StoreModel.Store.MigratePhones` | script.js:246-254 | Each client becomes `PhoneMigrated` of itself and the counters are unchanged. The change flag is exact. |
| `StoreModel.Store.ClearAllData` | script.js:204-227 | A declined confirmation changes nothing. Otherwise the store is emptied, both counters return to 10000 and the selection is cleared. |
| `StoreModel.Store.RegistrarCliente` | script.js:361-385 | Fails, changing nothing, on a blank name or surname, or on a non-empty trimmed DNI already in use. Otherwise it appends one client coded with the old counter and with no orders, raises the counter by 1 and selects the client. The new code is unused and unique DNIs stay unique. |
| `StoreModel.Store.Seleccionar` | script.js:414-419 | The chosen id becomes the selection and nothing else changes. |
| `StoreModel.Store.RegistrarAnteojo` | script.js:423-448 | Fails, changing nothing, when no stored client is selected. Otherwise the selected client's list becomes the new order (old counter as code, `en-proceso`) followed by the old list. The order counter rises by 1 and the new code is unused. |
| `StoreModel.Store.EliminarAnteojo` | script.js:573-584 | Removes exactly the first order with the id, keeping the others in order, when a client is selected, the order exists and the user confirms. Otherwise nothing changes. The counters never change. |
| `StoreModel.Store.IniciarEdicionAnteojo` | script.js:588-593 | Editing starts only when the selected client has the order. The store is untouched. |
| `StoreModel.Store.GuardarEdicionAnteojo` | script.js:652-674 | Replaces the edited order at its own index with `EditedAnteojo`, leaving the list length and the other entries unchanged. This happens when the selected client still has the order, and either way editing ends. The counters are unchanged. |

## Left out

- Browser I/O (session checks, redirects and the DOM) is not modelled. This
  covers the login gating, the menus, rendering, the print ticket, keyboard
  navigation and the hand-off of a pending edit from the other page. None
  of it changes the store's data.
- `saveStore` and the `localStorage` reads and writes are not modelled.
  Methods report whether the source would save. `Load` takes the already
  parsed stored values, and JSON parsing and swallowed exceptions are not
  part of this model.
- `genId`, `new Date()` and `confirm()` are parameters. Id freshness is not
  assumed anywhere.
- Prices are not modelled: `formatPrice`, `formatId` and the `Number(...)`
  conversions of `precio`/`senia` are floating-point and `Intl`. Amounts are
  carried as already-converted `real` values.
- `toLowerCase` is modelled for ASCII letters only. `trim` uses the
  JavaScript white-space set. There is no Unicode case mapping.
- Counters and codes are unbounded integers. JavaScript's `NaN`, `Infinity`
  and precision loss above 2^53 are not modelled.
- `StoreModel.Store.RegistrarAnteojo` requires the store to be valid, which
  means every client has an order list. `migrateCodes` always establishes
  this on load. The model does not cover the exception the source would
  raise on a client whose `anteojos` is not an array. The delete and edit
  methods carry the same precondition.
- `Queries.Buscar`: a stored client with no `nombre` or `apellido` makes
  `buscarClientes` throw in the source, so the search lists nothing. The
  source guards only the DNI. The model reads a missing name as `""` and
  still returns the other matches, so this exception is not modelled.
  Clients created by `registrarCliente` always have both names.
