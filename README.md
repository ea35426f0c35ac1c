# Bill authorization in bills-management, modelled in Dafny

The server of bills-management is a GraphQL API over a Prisma database of
users, bills and bill items. This project models its mutation resolvers in
`server/src/schema.ts` (`createBill`, `payBill`, `deleteBill`, `updateBill`,
`createItem`, `deleteItem`, `updateItem`) and the `me` query, and proves what
they promise about authorization and about the store.

Every resolver runs the same gates in order and stops at the first that
fails:

1. the request carries a signed-in user, or it fails with `Unauthenticated`;
2. the rows it names exist: the bill, or for item operations the item first
   and then its bill (`NoSuchItem`, `NoSuchBill`);
3. `payBill` needs a bill nobody has paid (`AlreadyPaid`); every other
   mutation needs the caller to be the bill's payer (`NotAuthorized(op)`).

Only when every gate passes does it make its single create, update or delete.

The modules:

- `Wrappers`: `Option` and `Result`.
- `Records`: the `User`, `Bill` and `Item` rows, the `Error` type and the
  message each error is thrown with.
- `Store`: the database as a value (`Db`), its well-formedness, predicates
  that say which single row an operation added, replaced or removed, and the
  class `Prisma`. That class stands for `context.prisma`: its two maps are
  the tables, its counters are the autoincrement ids, and each method is one
  Prisma call.
- `Authorization`: each resolver as a function from the store and the caller
  to an answer and the new store. Its contract gives the gate order, the
  error of each gate, the result on success and that nothing else changes.
- `Schema`: each resolver as a method over a `Context` (the Prisma client and
  the current user). Like the source, it does its lookups and checks one by
  one with early returns and then makes one write. Each method is proved to
  agree exactly with its `Authorization` function.
- `Traces`: routes a request to its resolver and folds the resolvers over a
  sequence of requests. Lemmas here state what holds across requests: a
  claim is permanent, ids are never reused, and a claimed bill can never be
  paid again.

`createBill` connects `paidBy` to the creator (`server/src/schema.ts:119`),
so every bill is claimed from the moment it exists. Its creator can update
it, delete it and manage its items at once. `payBill` on it always fails with
"Bill is already paid". `PayBillNeverSucceeds` proves the resulting fact:
starting from an empty database, no sequence of requests ever makes
`payBill` succeed.

The clock that stamps `createdAt` is a parameter `now` of the inserts. The
authenticated user (from `server/src/auth.ts`) is a parameter `currentUser`.

## Model

| member | source | states |
|---|---|---|
| `Records.Message` | server/src/schema.ts:13-311 | gives the text each resolver throws for each error; a message starts with "Not authorized to " exactly when the error is an authorization refusal |
| `Records.MessagesDistinct` | server/src/schema.ts:13-311 | the thrown messages are pairwise different, so the message identifies which gate failed |
| `Authorization.Me` | server/src/schema.ts:12-18 | fails with Unauthenticated exactly when there is no current user, and otherwise answers that user |
| `Authorization.CreateBill` | server/src/schema.ts:106-124 | no user: Unauthenticated and the store is unchanged; otherwise it always succeeds with a bill claimed by the caller that carries the given description, amount and timestamp, inserted under a free key with every other bill and item unchanged; well-formedness is kept |
| `Authorization.PayBill` | server/src/schema.ts:126-155 | gates in order Unauthenticated, NoSuchBill, AlreadyPaid (payer already set), each leaving the store unchanged; on success the answer is the old bill with only `paidById` set to the caller, stored under the same key, with all other bills and all items unchanged |
| `Authorization.DeleteBill` | server/src/schema.ts:157-183 | gates in order Unauthenticated, NoSuchBill, NotAuthorized(DeletingBill) when the caller is not the payer (an unpaid bill has no payer); on success it answers the bill as it was and removes exactly that bill key |
| `Authorization.UpdateBill` | server/src/schema.ts:185-215 | same gates with NotAuthorized(UpdatingBill); on success only that bill's description and amount change, keeping its id, timestamp and payer |
| `Authorization.CreateItem` | server/src/schema.ts:217-247 | gates Unauthenticated, NoSuchBill, NotAuthorized(AddingItems) against the parent bill; on success one new item under a free key with `billId` equal to the argument and the given description, amount and timestamp; bills unchanged |
| `Authorization.DeleteItem` | server/src/schema.ts:249-283 | gates in order Unauthenticated, NoSuchItem, NoSuchBill (the item's bill is gone), NotAuthorized(DeletingItems); on success it answers the item as it was and removes exactly that item key |
| `Authorization.UpdateItem` | server/src/schema.ts:285-323 | same gates with NotAuthorized(UpdatingItems); on success only that item's description and amount change, never its `billId`; all other rows unchanged |
| `Authorization.UpdateBillIdempotent` | server/src/schema.ts:206-212 | repeating `updateBill` with the same arguments gives the same answer and the same store |
| `Authorization.UpdateItemIdempotent` | server/src/schema.ts:314-320 | repeating `updateItem` with the same arguments gives the same answer and the same store |
| `Authorization.UnpaidBillIsLocked` | server/src/schema.ts:166-311 | on a bill with no payer, `updateBill`, `deleteBill` and `createItem` fail with NotAuthorized for every signed-in caller (Unauthenticated otherwise) and change nothing, and so do `updateItem` and `deleteItem` on its items |
| `Schema.CreateBill` | server/src/schema.ts:106-124 | the resolver's answer and the store it leaves equal `Authorization.CreateBill`, and the store stays well formed |
| `Schema.PayBill` | server/src/schema.ts:126-155 | the resolver's answer and the store it leaves equal `Authorization.PayBill` |
| `Schema.DeleteBill` | server/src/schema.ts:157-183 | the resolver's answer and the store it leaves equal `Authorization.DeleteBill` |
| `Schema.UpdateBill` | server/src/schema.ts:185-215 | the resolver's answer and the store it leaves equal `Authorization.UpdateBill` |
| `Schema.CreateItem` | server/src/schema.ts:217-247 | the resolver's answer and the store it leaves equal `Authorization.CreateItem` |
| `Schema.DeleteItem` | server/src/schema.ts:249-283 | the resolver's answer and the store it leaves equal `Authorization.DeleteItem` |
| `Schema.UpdateItem` | server/src/schema.ts:285-323 | the resolver's answer and the store it leaves equal `Authorization.UpdateItem` |
| `Store.Prisma.constructor` | server/src/context.ts:5 | a client opened on an existing well-formed database sees exactly its rows and counters |
| `Store.Prisma.FindBill` | server/src/schema.ts:135-137 | answers the bill stored under the id, or none when there is no such key |
| `Store.Prisma.FindItem` | server/src/schema.ts:258-260 | answers the item stored under the id, or none when there is no such key |
| `Store.Prisma.CreateBill` | server/src/schema.ts:115-121 | inserts a bill under the next autoincrement id, which was free, with `paidById` set to the connected user; nothing else changes |
| `Store.Prisma.UpdateBill` | server/src/schema.ts:147-152 | on an existing key it rewrites only the fields in `data`; on a missing key it answers not-found and changes nothing |
| `Store.Prisma.DeleteBill` | server/src/schema.ts:178-180 | removes exactly that key and answers the removed bill, or answers not-found |
| `Store.Prisma.CreateItem` | server/src/schema.ts:238-244 | inserts an item under the next autoincrement id, which was free, connected to the given bill; nothing else changes |
| `Store.Prisma.UpdateItem` | server/src/schema.ts:314-320 | on an existing key it rewrites only description and amount; on a missing key it answers not-found and changes nothing |
| `Store.Prisma.DeleteItem` | server/src/schema.ts:278-280 | removes exactly that key and answers the removed item, or answers not-found |
| `Traces.Execute` | server/src/schema.ts:66-326 | every mutation with no current user answers Unauthenticated and changes nothing; every failure changes nothing; every call keeps the store well formed and only evolves it (no payer cleared or changed, no id reused, no item moved to another bill) |
| `Traces.Run` | server/src/schema.ts:66-326 | serves requests one at a time in order, each on the store the previous one left; requests that carry no signed-in user never change the store |
| `Traces.RunEvolves` | server/src/schema.ts:106-323 | any sequence of requests keeps the store well formed and only evolves it |
| `Traces.ClaimIsPermanent` | server/src/schema.ts:143-151 | once a bill has a payer it keeps that same payer for as long as it exists, after any requests |
| `Traces.SecondPayFails` | server/src/schema.ts:139-145 | after a successful `payBill`, any later `payBill` on that bill, by anyone, fails with AlreadyPaid, or with NoSuchBill once the bill is deleted |
| `Traces.CreatedBillCannotBePaid` | server/src/schema.ts:115-145 | the bill `createBill` answers can never be paid successfully afterwards: AlreadyPaid while it exists, NoSuchBill once deleted |
| `Traces.DeletedBillStaysDeleted` | server/src/schema.ts:178-180 | after a successful `deleteBill` the bill id never reappears, whatever requests follow |
| `Traces.ExecuteKeepsAllClaimed` | server/src/schema.ts:106-323 | no resolver creates or leaves a bill without a payer when every bill has one |
| `Traces.RunKeepsAllClaimed` | server/src/schema.ts:106-323 | that every bill has a payer is kept by any sequence of requests |
| `Traces.PayBillNeverSucceeds` | server/src/schema.ts:115-155 | starting from an empty database, `payBill` fails on every bill id after every sequence of requests |
| `Traces.DinnerScenario` | server/src/schema.ts:106-323 | a worked exchange: the creator of a bill is its payer, so neither another user nor the creator can pay it; the creator adds an item, another user cannot delete it, the creator can update it |

## Left out

- `signup` and `login` (`server/src/schema.ts:67-105`): they consist of bcrypt hashing and comparison and JWT signing, which are library calls. The user table is therefore not modelled.
- The field resolvers of `User`, `Bill`, `Item` and `Link` (`server/src/schema.ts:20-65`): they are projections or relation lookups done by Prisma.
- Token handling in `server/src/auth.ts` and request wiring in `server/src/context.ts`: the current user is a parameter of every resolver.
- Cascading deletion of a bill's items: the Prisma schema is not part of this model. A deleted bill's items stay in the store; `deleteItem` and `updateItem` on them answer NoSuchBill.
- Prisma errors other than record-not-found, such as a `connect` to a missing user or bill. The item and bill resolvers check that the bill or item exists before they write. `createBill` does not check the user; that user was fetched when the request context was built (`server/src/auth.ts:15`). The user table is not modelled.
- Concurrency: requests are served one at a time. Two racing `payBill` calls between the read and the write are not modelled.
- `amount` is a `real` that is only copied; IEEE double semantics are not modelled. `createdAt` is a clock value passed to the inserts.
- Ids are assumed to reach Prisma as integer keys. The schema declares `billId` and `itemId` as GraphQL `ID` (`server/src/type-definitions.ts:12-17`), which resolvers receive as strings, and the resolvers pass them on unconverted. That `ID` string coercion, and any Prisma validation error it causes before the existence gate, is not modelled. Other argument typing by the GraphQL layer (`description`, `amount`) is not modelled either; the source does no validation of its own.
- `PayBillNeverSucceeds` and `DinnerScenario` start from an empty, freshly migrated database. The source opens its client on whatever rows the database already holds (`server/src/context.ts:5`); the other trace lemmas hold for any well-formed starting store.
- The client pages (`client/src/...`): UI markup with no logic.
