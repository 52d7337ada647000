# Sales microservices, modelled in Dafny

The system records sales across four small services:

- the **sales service** (`vendas-service/app.py`) validates a sale against two collaborators, prices it and stores it;
- the **product service** (`produtos-service/app.js`) keeps an in-memory product table;
- the **customer service** (`clientes-service/app.js`) keeps a customer directory and checks phone and e-mail formats;
- the **front end** (`frontend-service/app.py`) turns the sale form into the JSON payload it posts to the sales service.

This project models the decision logic of each service and proves what each one promises. All verification is static.

Modules, one per service plus shared helpers:

- `Wrappers`: `Option` and `Result`.
- `Lists`: `FindFirst`, which is JavaScript's `find`/`findIndex`.
- `Text`: decimal digits, a parser for the part of Python's `int()` the front end relies on, and `IntToString`, a decimal rendering that `ParseInt` reads back (a right inverse only: `ParseInt` also accepts leading zeros and a `+` sign).
- `Sales`: the sales service.
  - A lookup is a reply (`TransportError`, or a status code with the body's `success` flag and `data`). `Decide` reads a reply the way `buscar_cliente` and `buscar_produto` do.
  - The network is a function from an id to the reply that lookup receives.
  - `ValidateSale` is the loop of `validar_venda`. It is proved equal to the function `Validate`, and the lemmas about this function state the all-or-nothing policy.
  - `OrderStore` is the `vendas` table, with rows in insertion order and the next id it will assign.
  - `CreateSale` is `criar_venda`. It inserts a row only after validation has fully succeeded.
  - `ListSales` and `GetSale` are the read paths, with best-effort customer enrichment.
- `Catalog`: the product service.
  - A class `ProductTable` holds the `produtos` sequence and the `proximoId` counter.
  - Its methods are the GET-by-id, POST, PUT and DELETE handlers.
  - Its invariant: ids are unique, every id is below the counter, and every price is positive.
- `Clients`: the customer service.
  - `ValidPhone` and `ValidEmail` are the two regular expressions.
  - Lemmas show that each predicate accepts exactly the strings its pattern describes.
  - The seed directory, and the list and get-by-id handlers.
- `Frontend`: the form handling of `realizar_venda`.
  - `BuildPayload` is its loop over the zipped field lists. It is proved equal to the function `Submission`.
- `Integration`: lemmas across services.
  - The catalog's and the directory's replies are what the sales lookups decode.
  - A well-formed catalog makes every accepted sale's total positive.
  - A payload from an accepted form never fails the sales service's quantity check.

Money is held as integer cents. Python's `int()` is modelled as an optional sign followed by ASCII digits. A JavaScript `parseInt` of a path id is an `Option<int>`, where None stands for NaN; NaN equals no id.

Where the code and the design notes for the system disagree, the model follows the code:

- **Lookup failures.** The lookups do not tell "unavailable" apart from "not found". Any non-200 status, a false `success`, or a transport error all give "not found".
- **Two gate errors.** The sales request gate has two errors where the design names one "empty request": a missing or falsy body, and a missing or falsy `cliente_id` or `produtos`. A `cliente_id` of 0 is falsy, so it is refused.
- **No stored line items.** The store keeps only the sale header (customer, total, status). Line items exist only in the answer to the creating request. `GetSale` returns the header.
- **Full customer record.** `buscar_venda` and `criar_venda`'s answer carry the full customer record (`Sales.Customer`: id, name, phone, e-mail), or None, where the design speaks of an `{id, name}` summary. Only the listing builds the summary (`Sales.Summary`).

## Model

The specification functions and predicates have no row of their own; the lemmas and methods about them in the table state what they mean. They are `Sales.Validate`, `Sales.ValidateItems` and `Sales.CheckItem` for `validar_venda`; `Sales.Gate` and `Sales.Admit` for the checks of `criar_venda`; `Catalog.CheckNew` for the checks of `POST /produtos`; `Catalog.Patch` for the field assignments of `PUT /produtos/:id`; `Clients.ValidPhone` and `Clients.ValidEmail` for `validarTelefone` and `validarEmail`; and `Frontend.Collect` and `Frontend.Submission` for the loop and the whole decision of `realizar_venda`.

| member | source | states |
|---|---|---|
| `Lists.FindFirst` | vendas/vendas/produtos-service/app.js:84 | the index returned holds the first element satisfying the predicate, and None means no element does |
| `Text.ParseIntOfIntToString` | vendas/vendas/frontend-service/app.py:52-55 | an integer rendered in decimal parses back to itself |
| `Sales.Decide` | vendas/vendas/vendas-service/app.py:30-50 | a status-200 reply with a truthy `success` gives exactly its `data`; a transport error, another status or a false `success` give None |
| `Sales.ValidateSale` | vendas/vendas/vendas-service/app.py:52-86 | the loop over the items returns exactly `Validate`: customer first, then per item product lookup, quantity check, line and running total |
| `Sales.ValidateItemsSucceeds` | vendas/vendas/vendas-service/app.py:60-79 | the items validate iff every item passes; the lines then have the items' length and order, line j being item j's line |
| `Sales.ValidateItemsFirstFailure` | vendas/vendas/vendas-service/app.py:60-69 | the first failing item's error is the result, whatever the items after it are |
| `Sales.ValidateAllOrNothing` | vendas/vendas/vendas-service/app.py:52-86 | validation succeeds iff the customer is found and every product is found with a positive quantity. Then it has the looked-up customer, one line per item with the product's id, name and price snapshotted and `valor_total = valor * quantidade`, and a grand total equal to the sum of the line totals |
| `Sales.CustomerCheckedFirst` | vendas/vendas/vendas-service/app.py:53-55 | an unknown customer fails with CustomerNotFound for every catalog and every item list |
| `Sales.ValidateReportsFirstBadItem` | vendas/vendas/vendas-service/app.py:61-69 | at the first bad item, an unknown product reports ProductNotFound(id) even with a non-positive quantity. A known product with a missing (defaults to 0) or non-positive quantity reports InvalidQuantity. Earlier valid items give no partial result |
| `Sales.SumTotalsPositive` | vendas/vendas/vendas-service/app.py:58-80 | with positive line totals, the sum is non-negative and 0 only for no lines |
| `Sales.ValidatedTotalZeroOnlyWhenEmpty` | vendas/vendas/vendas-service/app.py:80-85 | against a catalog of positive prices, an accepted sale's total is 0 exactly when it has no items |
| `Sales.WorkedExample` | vendas/vendas/vendas-service/app.py:71-85 | customer 7 buying 2 at 10.00 and 3 at 5.50 gets lines 20.00 and 16.50 and total 36.50; an absent product 999 fails with ProductNotFound(999) |
| `Sales.GateDecidesFirst` | vendas/vendas/vendas-service/app.py:140-150 | a request the gate refuses fails with the gate's error whatever the collaborators answer. An admitted request has a truthy customer id, at least one item and one line per item |
| `Sales.OrderStore.constructor` | vendas/vendas/vendas-service/app.py:153-159 | an empty table whose first id is 1 |
| `Sales.OrderStore.Insert` | vendas/vendas/vendas-service/app.py:155-159 | appends exactly one row under the next id, which no earlier row has, and keeps ids ascending |
| `Sales.OrderStore.Find` | vendas/vendas/vendas-service/app.py:192-193 | a row with the id, or None when no row has it |
| `Sales.NewestFirst` | vendas/vendas/vendas-service/app.py:114-115 | the rows in reverse insertion order, same count |
| `Sales.CreateSale` | vendas/vendas/vendas-service/app.py:137-185 | fails iff the gate or validation fails, with that error and the store unchanged. On success it inserts one row (customer, computed total, 'concluida') under the next id and returns the sale with the validated lines and customer |
| `Sales.ListSales` | vendas/vendas/vendas-service/app.py:109-131 | one entry per row, ids descending. Each entry has its customer's `{id, nome}` when the lookup succeeds and None otherwise, so the listing never fails on a lookup |
| `Sales.GetSale` | vendas/vendas/vendas-service/app.py:187-202 | None exactly when no row has the id. Otherwise that row with the whole customer record the lookup returns (phone and e-mail included), or None |
| `Catalog.IndexOf` | vendas/vendas/produtos-service/app.js:84 | an index of an entry with the parsed id, or None when the id is NaN or no entry has it |
| `Catalog.IndexOfUnique` | vendas/vendas/produtos-service/app.js:30 | in a well-formed table, the lookup returns the one entry with that id |
| `Catalog.RemoveAtWellFormed` | vendas/vendas/produtos-service/app.js:123 | removing one entry keeps ids unique, below the counter and prices positive |
| `Catalog.ProductTable.constructor` | vendas/vendas/produtos-service/app.js:10-17 | the five seed products with ids 1 to 5 and counter 6, satisfying the table invariant |
| `Catalog.ProductTable.Get` | vendas/vendas/produtos-service/app.js:28-43 | a product with the parsed id, or None exactly when no entry has that id |
| `Catalog.ProductTable.Create` | vendas/vendas/produtos-service/app.js:46-77 | a falsy name, description or price gives MissingField, and a negative price NonPositivePrice; on rejection nothing changes. Otherwise exactly one product is appended with id = old counter, the counter rises by one, earlier entries are unchanged and the invariant holds |
| `Catalog.ProductTable.Update` | vendas/vendas/produtos-service/app.js:80-109 | an unknown id gives NotFound, then a truthy negative price gives NonPositivePrice, and both change nothing. Otherwise only the matched entry changes: each of name, description and price becomes the supplied value exactly when that member is truthy and keeps its old value otherwise, and the id, the length and the counter are unchanged. A body whose members are all falsy leaves the table unchanged |
| `Catalog.ProductTable.Delete` | vendas/vendas/produtos-service/app.js:112-129 | an unknown id gives NotFound with no change. Otherwise exactly the matched entry is removed, the others keep their order, and the counter is unchanged |
| `Clients.PhoneFromParts` | vendas/vendas/clientes-service/app.js:30-33 | every string '(' + 2 digits + ')' + one space character + 4 or 5 digits + '-' + 4 digits is accepted |
| `Clients.PhoneParts` | vendas/vendas/clientes-service/app.js:30-33 | every accepted phone is such a string, so it has 14 or 15 characters |
| `Clients.EmailFromParts` | vendas/vendas/clientes-service/app.js:35-39 | every local part + '@' + host + '.' + suffix, each non-empty and free of space characters and '@', is accepted |
| `Clients.EmailParts` | vendas/vendas/clientes-service/app.js:35-39 | every accepted address splits into such parts |
| `Clients.EmailHasOneAt` | vendas/vendas/clientes-service/app.js:37 | an accepted address contains exactly one '@' |
| `Clients.List` | vendas/vendas/clientes-service/app.js:42-48 | all clients, with `total` equal to their number |
| `Clients.Get` | vendas/vendas/clientes-service/app.js:51-66 | a client with the parsed id, or None exactly when no client has that id |
| `Clients.SeedIsWellFormed` | vendas/vendas/clientes-service/app.js:10-27 | the seed ids 1 and 2 are unique and below the counter 3 |
| `Clients.SeedPhonesAccepted` | vendas/vendas/clientes-service/app.js:14-21 | the seed phones '(11) 91234-5678' and '(21) 99876-5432' are accepted |
| `Clients.SeedEmailsAccepted` | vendas/vendas/clientes-service/app.js:15-22 | the seed e-mails 'joao@example.com' and 'maria@example.com' are accepted |
| `Frontend.Zip` | vendas/vendas/frontend-service/app.py:51 | pairs by position, as many as the shorter list holds |
| `Frontend.BuildPayload` | vendas/vendas/frontend-service/app.py:39-67 | the presence check, the loop over the pairs, the emptiness check and the client-id parse return exactly `Submission` |
| `Frontend.Survivors` | vendas/vendas/frontend-service/app.py:52-54 | at most as many pairs as the input, each from the input and with a positive parsed quantity |
| `Frontend.SurvivorsAppend` | vendas/vendas/frontend-service/app.py:51-55 | the kept pairs of a concatenation are the kept pairs of each part, in that order, so kept pairs keep their relative order |
| `Frontend.SurvivorsComplete` | vendas/vendas/frontend-service/app.py:52-55 | every pair whose quantity parses to a positive integer is among the kept pairs |
| `Frontend.MissingFieldsExactly` | vendas/vendas/frontend-service/app.py:45-47 | the form is refused with 'Cliente, produtos e quantidades são obrigatórios' exactly when the client id is missing or empty or either list is empty |
| `Frontend.CollectIsParsedSurvivors` | vendas/vendas/frontend-service/app.py:49-62 | the loop succeeds iff every quantity parses and every kept pair's id parses, and any failure is 'Quantidade inválida'. The items are then the kept pairs, parsed, in their order, each with a positive quantity |
| `Frontend.DroppedPairIdIgnored` | vendas/vendas/frontend-service/app.py:52-55 | the id of a pair dropped for its quantity is never parsed: any id there gives the same result |
| `Frontend.ExtraEntriesIgnored` | vendas/vendas/frontend-service/app.py:51 | entries past the end of the shorter list do not change the outcome |
| `Frontend.NothingKeptIsRejected` | vendas/vendas/frontend-service/app.py:57-59 | when every quantity parses and none is positive, the form is refused with 'Informe pelo menos um produto com quantidade válida' |
| `Frontend.AcceptedPayloadIsPositive` | vendas/vendas/frontend-service/app.py:49-67 | an accepted form gives a non-empty payload, every quantity positive, with the parsed client id |
| `Integration.ProductLookupAgrees` | vendas/vendas/vendas-service/app.py:41-50 | against the product service's replies, `buscar_produto` finds a product iff the table holds that id, and reads back its name and price |
| `Integration.CustomerLookupAgrees` | vendas/vendas/vendas-service/app.py:30-39 | against the customer service's replies, `buscar_cliente` finds a customer iff the directory holds that id |
| `Integration.AcceptedSaleTotalIsPositive` | vendas/vendas/vendas-service/app.py:71-85 | with a well-formed product table as catalog, an accepted non-empty sale has a positive total |
| `Integration.FormPayloadPassesQuantityCheck` | vendas/vendas/frontend-service/app.py:49-70 | a payload posted from an accepted form never fails with InvalidQuantity, and passes the request gate iff its client id is not 0 |

## Left out

- HTTP, routing, JSON serialisation, CORS, status codes and `flash`/`redirect`/`render_template` are not modelled. Each handler's decision is a result value instead.
- Network calls and their 5-second timeouts are not modelled. A collaborator is a function from an id to the reply received. So two lookups of the same id within one request, or across the rows of one listing, get the same reply; a service whose answer changes between calls is not modelled. A body that is not valid JSON is not modelled.
- MySQL is not modelled: connection, SQL text, `lastrowid` and commit. The store is a sequence of rows with a counter. An insert never fails, so the 500 answer for database errors is not modelled.
- Sales have no `data_venda`, and no `dataCadastro` or other timestamps are modelled. These come from the clock. So the customer record the sales service passes on holds id, name, phone and e-mail but not `dataCadastro`.
- Floating-point prices and `parseFloat` are not modelled. Prices are integer cents.
- Python `int()` quirks are not modelled: surrounding whitespace, underscores, non-ASCII digits. JavaScript `parseInt` quirks are not modelled either (`parseInt('12abc')` is 12). A path id arrives already parsed, as an optional integer.
- JSON members of other types are not modelled. In the sales request, `quantidade` and `produto_id` are integers, and a float quantity truncated by `int()` is not modelled. A missing `produto_id` is not modelled; the source would look up `/produtos/None`. In the product handlers, `nome` and `descricao` are strings and `valor` is a number.
- `Sales.Body`: an empty JSON object `{}` is falsy in the source. It is represented by `NoBody`. `Body(None, None)` stands for an object that has neither member but has others.
- `Catalog.ProductTable`: products are values in a sequence. The in-place field assignments of PUT are a replacement of the entry. No object is shared outside the table, so no aliasing is modelled.
- `Clients.Directory` is a value, not a mutable object. The only handler that changes it, `POST /clientes`, is cut off at clientes-service/app.js:70, so its behaviour cannot be read or modelled.
- `GET /produtos`, the front end's `index` page, the health checks, logging, `app.run`/`app.listen`, and the two `index.js` files are not modelled. They only serve fixed text or the whole table.
- The front end's post to the sales service and its reading of the answer (frontend-service/app.py:69-79) are not modelled. They are network and messages; `Integration.FormPayloadPassesQuantityCheck` covers what the sales service does with the payload.
- `Frontend.BuildPayload`: an unparsable `cliente_id` raises outside the handled block (frontend-service/app.py:65). The model reports it as `BadClientId`, not as a server error page.
