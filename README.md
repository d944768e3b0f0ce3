# Shop purchase store and payment handling, modelled in Dafny

This project models the purchase store of a Telegram shop that sells trading
indicators. It also models the two operations that change that store:

- **Invoice creation** (`createInvoice`) looks up the product and the buyer.
  It asks the crypto payment provider for an invoice, whose payload carries
  `{product_id, user_id, telegram_id}`. Only when the provider has issued the
  invoice does it record one `pending` purchase.
- **Payment-update handling** (`handlePaymentUpdate`) reacts to a `paid`
  update. It parses the payload and turns at most one purchase, the most
  recent `pending` one of that (user, product) pair, into `paid`.

The database itself is modelled too: the three tables `users`, `products` and
`purchases`, with their keys and constraints, and the start-up that seeds three
demo products with `INSERT OR IGNORE`.

Modules:

- `Wrappers` (`wrappers.dfy`): `Option` and `Result`.
- `Schema` (`schema.dfy`): the row types and the schema constraints
  (`WellFormed`). The key lookups, `FindProduct` and `FindUserByTelegramId`.
  `INSERT OR IGNORE` and the seed, with lemmas: a lookup by primary key or
  unique column finds *the* row, and seeding never overwrites and is idempotent.
- `Purchases` (`purchases.dfy`): pure functions over the purchases table.
  `PendingCount` counts the pending rows of a pair, `IsLatestPending` says which
  rows the settling update may pick, `MarkPaid` is its effect, and
  `OnlyPromotes` is the pending-to-paid-only invariant.
- `Database` (`database.dfy`): the `Store` class, whose fields are the tables that
  the statement methods reassign. `Valid()` is the schema invariant, which
  every method keeps.
- `Payments` (`payments.dfy`): `CreateInvoice` and `HandlePaymentUpdate` as
  methods that take the `Store`, each specified by the new state of the tables and the
  reply.

Weaknesses of the code that the model keeps and states:

- The reply to a paid update depends only on the update. A replay that settles
  nothing is still acknowledged as a success (`HandlePaymentUpdate`).
- The handler is not idempotent. When a pair has several pending rows, each
  repeated paid update settles one more (`ReplaySettlesAnotherRow`).
- `created_at` has one-second resolution, so "most recent" means *some* pending
  row with a maximal `created_at`. The settled row need not be the one the
  invoice created: an older pending row of the pair with an equal or later
  `created_at` may be chosen instead (`NewRowNeedNotBeSettled`, `InvoiceThenPayment`).

The pending purchase is recorded only after the provider has issued the
invoice (backend/payments.js:23-43).

## Model

| member | source | states |
|---|---|---|
| `Schema.UsersKeyed` | backend/database.js:7-8 | defines the `users` keys: the id is the primary key and the telegram id is unique |
| `Schema.ProductsKeyed` | backend/database.js:15 | defines the `products` key: the id is the primary key |
| `Schema.PurchasesKeyed` | backend/database.js:24 | defines the `purchases` key: ids are distinct and none exceeds the AUTOINCREMENT counter |
| `Schema.ReferencesHold` | backend/database.js:30-31 | defines the two foreign keys: every purchase names an existing user id and an existing product id |
| `Schema.WellFormed` | backend/database.js:5-33 | defines the whole schema's constraints as the conjunction of the keys and the foreign keys |
| `Schema.SeedRows` | backend/database.js:43-45 | defines the three seeded products: ids 1, 2, 3 with their names and descriptions, prices 500, 700, 1000 and no file |
| `Schema.FindProduct` | backend/payments.js:11-14 | the product lookup finds a row exactly when some row has that id, and the row it returns is in the table with that id |
| `Schema.FindUserByTelegramId` | backend/payments.js:17-20 | the user lookup finds a row exactly when some user has that telegram id, and returns such a row of the table |
| `Schema.FindProductIsTheRow` | backend/database.js:15 | `id` is the primary key, so the lookup returns the one row holding that id |
| `Schema.FindUserIsTheRow` | backend/database.js:8 | `telegram_id` is UNIQUE, so the lookup in invoice creation returns the one user with that telegram id |
| `Schema.InsertOrIgnore` | backend/database.js:38-41 | `INSERT OR IGNORE` keeps every existing row in place, ensures the id is present, adds the new row only when its id was absent, and keeps ids unique |
| `Schema.FindAfterInsertOrIgnore` | backend/database.js:38-41 | after `INSERT OR IGNORE`, a lookup finds the inserted row only for an id that had no row before; every other lookup is unchanged |
| `Schema.Seed` | backend/database.js:43-45 | after seeding, products 1, 2 and 3 exist, every earlier row is kept, and ids stay unique |
| `Schema.SeedPrices` | backend/database.js:43-45 | each of products 1, 2, 3 absent before seeding is then the seeded row with price 500, 700 and 1000; each present one is left as it was |
| `Schema.SeedKeepsExistingRows` | backend/database.js:38-45 | seeding never overwrites an existing product row: a lookup of its id still returns it |
| `Schema.SeedIdempotent` | backend/database.js:38-45 | running the seed again, at any later time, leaves the product table unchanged |
| `Purchases.IsPendingFor` | backend/payments.js:66 | defines the rows the settling update may touch: the payload's user id and product id, status pending |
| `Purchases.IsLatestPending` | backend/payments.js:66-68 | defines the row the update may pick: such a pending row, with no matching pending row having a later `created_at` (ties allowed) |
| `Purchases.LatestPendingExists` | backend/payments.js:63-69 | whenever the pair has a pending row, some pending row of the pair has a maximal `created_at` |
| `Purchases.MarkPaid` | backend/payments.js:64-66 | setting one row to paid changes no other row, and changes that row only from pending to paid |
| `Purchases.MarkPaidPendingCount` | backend/payments.js:64-66 | settling a row lowers its own pair's pending count by one and leaves every other pair's count unchanged |
| `Purchases.AppendPendingCount` | backend/payments.js:39-43 | appending a pending row raises its pair's pending count by one |
| `Purchases.OnlyPromotesTransitive` | backend/payments.js:63-70 | table changes that only promote pending rows to paid still only promote when composed: no row is ever demoted over any run of operations |
| `Purchases.ReplaySettlesAnotherRow` | backend/payments.js:63-70 | if the pair has two or more pending rows, a repeated paid update settles a different row from the first one |
| `Purchases.NewRowNeedNotBeSettled` | backend/payments.js:66-68 | an older pending row of the pair whose `created_at` is not earlier than the new row's stays a row the update may pick, and the new row is one too exactly when the timestamps tie |
| `Database.Store.Open` | backend/database.js:5-33 | opening the database with existing schema-conforming rows changes nothing and establishes the schema invariant |
| `Database.Store.InsertOrIgnoreProduct` | backend/database.js:38-41 | the product table becomes `InsertOrIgnore` of the old one; the other tables are unchanged and the invariant holds |
| `Database.Store.SeedProducts` | backend/database.js:43-45 | the three seeding statements turn the product table into `Seed` of the old one and touch nothing else |
| `Database.Store.InsertPendingPurchase` | backend/payments.js:39-43 | exactly one row is appended, with the next AUTOINCREMENT id, the given user, product and amount, status pending and the current time; foreign keys and keys stay intact |
| `Database.Store.SettleLatestPending` | backend/payments.js:63-70 | with no pending row for the pair nothing changes; otherwise exactly one most-recent pending row of the pair becomes paid and nothing else changes |
| `Database.Initialise` | backend/database.js:1-45 | after start-up the store is valid, products 1, 2 and 3 exist, and users and purchases are as they were in the file |
| `Payments.EncodePayload` | backend/payments.js:31-35 | the serialised correlation payload parses back to the same record |
| `Payments.ParsePayload` | backend/payments.js:60 | defines payload parsing: a serialised record yields that record, anything else fails with the parser's message |
| `Payments.EncodeAfterParse` | backend/payments.js:60 | whatever parses successfully is the serialisation of the record it yields, so encoding and parsing are inverse in both directions |
| `Payments.InvoiceRequestFor` | backend/payments.js:23-36 | the invoice asks for the product's price in RUB (fiat, asset USDT), is described by the product name, and its payload decodes to the product id, the user's row id and the telegram id |
| `Payments.CreateInvoice` | backend/payments.js:8-54 | an unknown product or user, or a provider failure, returns the matching error and leaves every table unchanged (no user is created); on success exactly one pending row is appended with the next id, the user's id, the product id, the product price and the current time, and the AUTOINCREMENT counter advances by one, and the invoice's amount and payload agree with that row |
| `Payments.HandlePaymentUpdate` | backend/payments.js:57-85 | a status other than paid returns `NotPaid`, and an unparsable payload returns its error, both leaving the table unchanged; a parsable paid update echoes telegram and product id whether or not a row changed, and settles one most-recent pending row of the pair if there is one, so the pair's pending count drops by one or stays at zero, and no row is demoted |
| `Payments.InvoiceThenPayment` | backend/payments.js:31-70 | users and products are unchanged; a failed invoice leaves the purchases and the counter unchanged; a created invoice followed by the provider's paid update with its payload is acknowledged, the counter advances by one, and the table is the old one plus the new pending row with one most recent pending row of the pair then paid, so the pair's pending count is back to its value before the invoice |

## Left out

- The payment provider's client (`crypto-bot-api`) is a network call, so it is not modelled. `CreateInvoice` takes a function parameter in its place, which maps the request to either an issued invoice (`pay_url`, `invoice_id`) or a failure message.
- `JSON.stringify` and `JSON.parse` are not modelled; payloads have no text form. A payload is either an encoded record or an unparsable value with the parser's error message.
- JavaScript's dynamic typing is not modelled:
  - a `productId` or `telegramId` passed as a string;
  - a parsed payload that lacks fields;
  - a `null` update whose `.status` would throw.
  Every identifier is an `int`.
- `CURRENT_TIMESTAMP` is not read from a clock. Every operation that stamps a row takes the time as a parameter `now`. No ordering between successive times is assumed, so equal timestamps are possible.
- `Database.Store.SettleLatestPending` does not fix which of several pending rows with an equal maximal `created_at` is settled, because the SQL engine does not fix it either. SQLite's support for `ORDER BY ... LIMIT` on `UPDATE` and its type affinity are not modelled.
- The `status` column is modelled as the two values the code writes, `pending` and `paid`. Its `DEFAULT 'pending'` is not modelled, because the only insert sets the status explicitly.
- No one in this code inserts users, so the database is opened with whatever rows the file already holds (`Database.Store.Open`). User creation is not part of this model.
- Foreign keys are kept as an invariant of the store. `Database.Store.InsertPendingPurchase` requires its user and product to exist, which invoice creation ensures by looking them up first. SQLite's runtime foreign-key enforcement is not modelled.
- The `products` AUTOINCREMENT counter is not tracked, because products are only inserted with explicit ids.
- Storage failures inside a statement, which would throw and return `{success: false, error}`, are not modelled.
- Numbers are unbounded `int`s. JavaScript numbers are doubles and SQLite `INTEGER` is 64-bit, so rounding of large ids or prices and 64-bit overflow are not modelled.
- `Database.Store.SeedProducts` stamps all three seeded rows with one `now`. In the source, each of the three inserts reads `CURRENT_TIMESTAMP` itself, so their `created_at` values may differ (backend/database.js:43-45).
- Logging (`console.log`, `console.error`) and `async`/`await` are left out. The invoice flow runs sequentially.
- backend/index.js (bot command replies, HTTP routes, a fixed product list) and frontend/vite.config.js (build settings) hold no store logic and are not part of this model.
