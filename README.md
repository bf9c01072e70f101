# AetherLink entity store in Dafny

AetherLink is a supply-chain dashboard whose "blockchain" is the browser's
key-value store. Its one component with behaviour is the entity store in
`lib/blockchain-service.ts`. The store keeps three collections, products,
bids and custody transfers, each under a fixed storage key
(`aetherlink_products`, `aetherlink_bids`, `aetherlink_custody_transfers`).
Every call first seeds any absent key with sample data. Each create call then reads
the collections it needs, changes them and writes them back; the other calls only read.

This project models that store:

- `wrappers.dfy` (`Wrappers`) holds `Option`, for an absent key or field, and `Result`, for a thrown error.
- `types.dfy` (`Types`) holds the records of `lib/types.ts`: `Event`, `Product`, `Bid` and `CustodyTransfer`. Optional properties are `Option` fields.
- `blockchain_service.dfy` (`BlockchainService`) holds the store itself.
  - The sample data and the seeding rule are in `Seed`.
  - The first-match `find` is in `FirstMatch` and `FindById`.
  - The `product?.name || "Unknown Product"` resolution is in `ResolveName`.
  - The records the create calls build are in `NewProduct`, `NewBid` and `NewTransfer`.
  - The id-replacing `map` of the custody-transfer side effect is in `ReplaceById` and `TransferSideEffect`.
  - The class `Store` has one `Option<seq<...>>` field per storage key. It has one method per exported operation, each proved against these functions.
- `store_properties.dfy` (`StoreProperties`) holds lemmas that relate several calls, the behaviour on the sample data, and a client session that drives a `Store`.

Storage availability (`typeof window === "undefined"`) is the constant
`Store.hasStorage`. Without storage, reads return empty results or `None`, and
creates return `Failure("Cannot access storage")` and change nothing.

Caller input is `any` in the source, and the source spreads it into the new
record. For a bid or a transfer the spread comes after the defaults, so the
caller's fields win. For a product it comes before `status` and `events`, so
those two are always the store's. The input records `BidInput` and
`TransferInput` carry the overridable fields as `Option`s. `ProductInput`
carries an optional `status` and `events` that registration ignores.

Duplicate product ids: `registerProduct` never rejects one. The custody
transfer then replaces every product carrying the matched id with the updated
first match. `DuplicateIdLosesHistory` exhibits a second product that loses its
own timeline this way. `TransferAppendOnlyWhenUnique` shows that timelines only
grow when ids are unique.

Two points of the seeding and create behaviour are easy to misread:

- An absent key and an empty collection differ. The comment at `lib/blockchain-service.ts:17` says storage is seeded "if empty", but the tests at lines 22, 69 and 98 check only that the key is absent (or holds the empty string, which this code never writes). A key that holds `[]` is therefore not reseeded, and `Seed` keeps it as it is.
- The generated id and the default status of a bid or transfer can be overridden. At lines 198-203 and 240-246 the defaults come before `...bidData` and `...transferData`, so a caller-supplied `id`, `productName`, `status` (or `date`) replaces them. `NewBid` and `NewTransfer` state both cases.

## Model

| member | source | states |
|---|---|---|
| BlockchainService.Seed | lib/blockchain-service.ts:18-112 | after seeding all three keys are present; a key that was present is untouched; an absent key holds exactly its sample collection |
| BlockchainService.FirstMatch | lib/blockchain-service.ts:137 | the index returned is that of the first product with the id, and `None` means no product has it |
| BlockchainService.FindById | lib/blockchain-service.ts:137 | the lookup is `None` iff no product has the id, and otherwise it is the first product that has it |
| BlockchainService.ResolveName | lib/blockchain-service.ts:196-200 | the resolved name is never empty; it is "Unknown Product" when no product matches, and otherwise the first match's name, or the placeholder if that name is empty |
| BlockchainService.NewProduct | lib/blockchain-service.ts:151-161 | a registered product keeps every caller field except status and events; its status is "Registered" and it has exactly one "Product Registered" event stamped with today's date |
| BlockchainService.NewBid | lib/blockchain-service.ts:196-203 | absent overrides give id "bid-"+suffix, the resolved product name and status "Open"; a caller-supplied id, productName or status replaces each default; the other fields are the caller's |
| BlockchainService.NewTransfer | lib/blockchain-service.ts:238-246 | absent overrides give id "transfer-"+suffix, the resolved product name, today's date and status "Pending"; each caller-supplied field replaces its default |
| BlockchainService.TransferDescription | lib/blockchain-service.ts:258 | the event description is exactly "Custody transfer from ", then `from`, then " to ", then `to` |
| BlockchainService.WithTransferEvent | lib/blockchain-service.ts:252-261 | the updated product differs only in status ("In Transit") and events: the old events (or none) followed by one "Custody Transfer Initiated" event naming from/to, stamped today |
| BlockchainService.ReplaceById | lib/blockchain-service.ts:263 | same length and order; each entry with the id becomes the replacement and every other entry is unchanged |
| BlockchainService.TransferSideEffect | lib/blockchain-service.ts:252-266 | with no matching product the collection is unchanged; otherwise every entry with the id equals the updated first match and all others are unchanged, length and order kept |
| BlockchainService.Store.Initialize | lib/blockchain-service.ts:18-112 | with storage the new state is the seeded old state; without storage nothing changes |
| BlockchainService.Store.GetAllProducts | lib/blockchain-service.ts:115-125 | returns the stored products after seeding, in storage order; without storage returns [] and changes nothing |
| BlockchainService.Store.GetProductById | lib/blockchain-service.ts:127-138 | returns the first stored product with the id or `None`; only seeding changes the store; without storage returns `None` |
| BlockchainService.Store.RegisterProduct | lib/blockchain-service.ts:140-167 | returns the new product; products become the seeded products plus it at the end; bids and transfers are only seeded; without storage fails and changes nothing |
| BlockchainService.Store.GetAllBids | lib/blockchain-service.ts:170-180 | returns the stored bids after seeding; without storage returns [] and changes nothing |
| BlockchainService.Store.CreateBid | lib/blockchain-service.ts:182-209 | returns the new bid, resolved against the seeded products; bids grow by it at the end; products and transfers are only seeded; without storage fails and changes nothing |
| BlockchainService.Store.GetAllCustodyTransfers | lib/blockchain-service.ts:212-222 | returns the stored transfers after seeding; without storage returns [] and changes nothing |
| BlockchainService.Store.CreateCustodyTransfer | lib/blockchain-service.ts:224-269 | returns the new transfer; transfers grow by it at the end; products become the transfer side effect of the seeded products; bids are only seeded; without storage fails and changes nothing |
| StoreProperties.SeedIdempotent | lib/blockchain-service.ts:18-112 | seeding twice equals seeding once |
| StoreProperties.FreshSeed | lib/blockchain-service.ts:23-110 | a fresh store seeds products prod-1234, prod-5678 (the second with 3 events and status "In Transit"), bids bid-1234, bid-5678 and transfer transfer-1234 |
| StoreProperties.FirstMatchAppend | lib/blockchain-service.ts:137 | appending a record keeps an existing first match; otherwise the new record is the first match if its id fits |
| StoreProperties.LookupAfterRegister | lib/blockchain-service.ts:127-167 | after registration, a lookup of an id that was already present still finds the older product; otherwise it finds the new one under its id |
| StoreProperties.LookupAfterTransfer | lib/blockchain-service.ts:252-266 | after a transfer on an existing product, a lookup of its id yields the updated copy |
| StoreProperties.TransferKeepsIds | lib/blockchain-service.ts:263 | the side effect keeps every product's id at its position |
| StoreProperties.TransferAppendOnlyWhenUnique | lib/blockchain-service.ts:252-266 | with unique product ids every product's timeline after a transfer extends its timeline before |
| StoreProperties.DuplicateIdLosesHistory | lib/blockchain-service.ts:263 | with duplicate ids some product's timeline is not extended but replaced |
| StoreProperties.RegisterIgnoresCallerStatus | lib/blockchain-service.ts:151-161 | a caller-supplied status or events field has no effect on the registered product |
| StoreProperties.BidOnSampleProduct | lib/blockchain-service.ts:196-203 | a bid on prod-1234 against the sample products is named "Organic Coffee Beans", is "Open" and has an id starting "bid-" |
| StoreProperties.BidOnUnknownProduct | lib/blockchain-service.ts:200 | a bid on an id no product has, without a caller productName, is named "Unknown Product" |
| StoreProperties.TransferOfSampleProduct | lib/blockchain-service.ts:252-266 | a transfer of prod-1234 from X to Y, then a lookup, gives status "In Transit" and a last event whose description names X and Y |

## Left out

- Simulated network latency (the `setTimeout` delays) is left out. It changes timing only, never results.
- `generateId` is left out: the random base-36 suffix is a method parameter. Its length, its alphabet and any collision between ids are not modelled.
- `getCurrentDate` is a method parameter `today`. `createCustodyTransfer` reads the clock twice, for the transfer's date and for the event's timestamp. Both readings are the same `today` here, so a call that crosses midnight is not modelled.
- The `localStorage` API and JSON serialisation are left out. Storage is the three class fields, and the JSON round trip is the identity. Malformed stored text is not modelled.
- A caller field spread in explicitly as `undefined` (which overrides a default with `undefined`) is not modelled. An override is either present with a value or absent.
- `ProductInput`, `BidInput` and `TransferInput` always carry the fields the pages send, such as id, name, productId, from and to. An untyped caller that omits one of them is not modelled.
- Races between browser tabs on the read-modify-write are left out. The model is sequential.
- Product id uniqueness, which callers may expect, is not modelled as a store invariant, because `registerProduct` never checks for an existing id (`lib/blockchain-service.ts:151-163`). Lemmas take it as a hypothesis where it matters.
- The React pages and components (forms, tables, timeline, sidebar, the chart and recent-activity mock data) and the product search filter are left out. They are presentation, not store behaviour.
