# dsx query builder, modelled in Dafny

dsx is a Go package. It is a generic, fluent wrapper around Google Cloud
Datastore. A `QueryBuilder` is a single-owner object. Each builder call
(`WithFilter`, `WithOrder`, `WithLimit`, `WithOffset`, `WithCursor`, …)
updates its fields in place: the accumulated Datastore query, the `limit`,
and the two pagination flags `usingOffset` and `usingCursor`. The execution
methods check the pagination flags before they run anything. `Select` and
`Get` refuse a cursor query, and `SelectWithCursor` refuses an offset query.
The write methods pair ids with entities. `Delete` fetches the matching keys
and deletes them in batches of at most 500.

The project has three modules:

- `Types` (types.dfy): keys, filter values, operators, the accumulated
  `Query` record, cursors, errors and the backend oracle `Backend<T>`. The
  oracle treats each remote call (GetAll, Run with its iterator and end
  cursor, keys-only GetAll, Put, PutMulti, DeleteMulti) as a total function
  of its request. `Call<T>` is one entry in the log of calls made.
- `Batches` (batches.dfy): how a key list splits into consecutive
  500-key batches. It also defines the first batch the backend refuses and
  what a batched delete leaves behind.
- `Dsx` (dsx.dfy): the `QueryBuilder` class. Its builder methods have
  `modifies this` and state the whole new state. `Valid()` is the invariant
  that every builder method keeps. Every execution and write method returns
  the log of backend calls it made, so "no backend call" reads
  `calls == []`. The module ends with two client methods for the documented
  pagination usage.

Cursor decoding (`datastore.DecodeCursor`) is a parameter `decode` and may
reject any string. Cursor encoding (`cursor.String()`) is a parameter
`encode`.

Two behaviours of dsx.go are worth stating up front. An empty or
undecodable cursor leaves `usingCursor` at its previous value (dsx.go:279-285);
it does not reset it to false. dsx.go has no multi-get and no auto-id insert,
so neither is modelled. `UpsertMulti` does not split its input into batches:
it makes one PutMulti call and leaves the 500-entity ceiling to the backend
(dsx.go:547-548, 569).

## Model

| member | source | states |
|---|---|---|
| `Dsx.QueryBuilder.constructor` | dsx.go:149-158 | a new builder holds the given kind, an empty query of that kind, limit 0, and neither pagination flag; `Valid()` holds |
| `Dsx.QueryBuilder.WithDistinct` | dsx.go:174-177 | sets the query's distinct flag; nothing else changes |
| `Dsx.QueryBuilder.WithLimit` | dsx.go:190-196 | n > 0 sets both `limit` and the query's limit to n; n <= 0 leaves the whole builder unchanged, so repeated calls are no-ops; the flags never change |
| `Dsx.QueryBuilder.WithOffset` | dsx.go:216-222 | n > 0 sets the query's offset and `usingOffset`; otherwise nothing changes; `usingCursor` and `limit` are never touched, so both flags can end up set |
| `Dsx.QueryBuilder.WithOrder` | dsx.go:236-239 | appends `field` to the order list, after the existing orders; nothing else changes |
| `Dsx.QueryBuilder.WithOrderDesc` | dsx.go:252-255 | appends `"-" + field` to the order list; nothing else changes |
| `Dsx.QueryBuilder.WithCursor` | dsx.go:278-287 | an empty or undecodable token leaves the query and `usingCursor` as they were; otherwise the start becomes the decoded cursor and `usingCursor` becomes true; `usingOffset` and `limit` are never touched |
| `Dsx.QueryBuilder.WithFilter` | dsx.go:324-333 | on `__key__`, a string id appends a filter against the name key (builder kind, id) and any other value adds nothing; any other field appends (field, operator text, value) unchanged; filters keep call order and nothing else changes; `Valid()` keeps every key filter on the builder's own kind |
| `Dsx.QueryBuilder.WithAncestorKey` | dsx.go:349-354 | a missing ancestor changes nothing; a present one becomes the query's ancestor |
| `Dsx.QueryBuilder.KeysOnly` | dsx.go:363-366 | sets the query's keys-only flag; nothing else changes |
| `Dsx.QueryBuilder.SelectWithCursor` | dsx.go:426-452 | an offset query gets `UsesOffset` and no backend call; an iterator error returns that error and no partial result; otherwise the result holds the iterator's entities in iteration order and the encoded end cursor, or the cursor error |
| `Dsx.QueryBuilder.Select` | dsx.go:468-480 | a cursor query gets `UsesCursor` and no backend call; otherwise there is exactly one GetAll call on the builder's query, and its entities or its error are passed through |
| `Dsx.QueryBuilder.Get` | dsx.go:502-517 | a cursor query gets `UsesCursor` and no backend call; otherwise the result is the first entity GetAll returns, None (not an error) when it returns none, or GetAll's error |
| `Dsx.QueryBuilder.Upsert` | dsx.go:531-539 | exactly one Put call, on the name key (kind, id) with the entity; its error is passed through |
| `Dsx.QueryBuilder.PairUp` | dsx.go:562-567 | the key and entity sequences are parallel: position i holds the name key (kind, id) and that id's entity, and every id of the map appears exactly once |
| `Dsx.PairedLength` | dsx.go:562-567 | a pairing has as many keys and as many entities as the map has ids |
| `Dsx.QueryBuilder.UpsertMulti` | dsx.go:557-575 | an empty map succeeds with no backend call; otherwise there is exactly one PutMulti call on a pairing of the map, and its error is passed through |
| `Dsx.QueryBuilder.Delete` | dsx.go:594-617 | the first call fetches the keys of the builder's query made keys-only, and an error there is returned; the remaining calls and the outcome are those of a batched delete of the fetched keys |
| `Batches.ChunkCount` | dsx.go:600-613 | N keys split into exactly ceil(N/500) batches |
| `Batches.ChunkAt` | dsx.go:602-608 | batch j is the slice from 500j to min(500j + 500, N), and it exists exactly when 500j < N |
| `Batches.ChunkSizes` | dsx.go:602-608 | every batch holds between 1 and 500 keys |
| `Batches.ChunksCover` | dsx.go:600-613 | the batches laid end to end are the key list: every key appears exactly once, in order |
| `Batches.ChunksPrefix` | dsx.go:602-613 | the first k batches laid end to end are the first min(500k, N) keys |
| `Batches.FirstRefused` | dsx.go:609-612 | every batch before the index succeeds, and the batch at the index, if there is one, is refused |
| `Batches.DeleteEffect` | dsx.go:594-617 | a successful delete made ceil(N/500) calls covering all keys once, in order, and made none for N = 0; a failed one made calls up to and including the refused batch, covering a prefix of the keys; every batch before it succeeded, no later batch was attempted, and that batch's error is returned |
| `Dsx.BothPaginationModes` | dsx.go:216-517 | a builder given both an offset and a decodable cursor is accepted while it is configured (setters at 216-222 and 278-287); the execution guards then decide: Select (469) and Get (503) return `UsesCursor`, SelectWithCursor (427) returns `UsesOffset`, and no backend call is made |
| `Dsx.NextPage` | dsx.go:257-287 | in the documented two-page pattern, the first page is the iterator's entities with the encoded end cursor; if the cursor library decodes every non-empty token it encodes, the second builder's query is the first query started at that cursor, or the first query unchanged when the cursor encodes as the empty token (which `WithCursor` ignores) |

## Left out

- `Connect`, the `DB` type and its `ProjectId`, `DatabaseId` and `Client` accessors (dsx.go:108-132) build the network client and handle credentials. The backend is the `db` oracle given to the constructor instead.
- `QueryBuilder.Kind` and `QueryBuilder.DB` (dsx.go:160-168) only read fields. The model exposes them as the const fields `kind` and `db`.
- `Total` (dsx.go:379-394) is an aggregation RPC whose answer is checked by a type assertion on a protobuf value. It is not part of this model.
- Logging (`log.Println`), `context.Context` cancellation and deadlines, and the marshalling of a Go `T` into Datastore properties are not modelled. Entities are values of a type parameter `T`, and a nil entity pointer cannot be expressed.
- The backend's own behaviour is not modelled: how filters and orders are evaluated, index requirements, consistency, and how results resume from a cursor. Because of this, the claim that page one plus page two equals the unpaged result is not stated. `NextPage` states what the wrapper itself adds: the resumed query.
- The call log records Run and the end-cursor request of `SelectWithCursor`, but not each iterator `Next`.
- The builder methods return nothing. In Go they return the same `*QueryBuilder` for chaining, which changes no state.
- `datastore.Query.Limit` and `Offset` record an error inside the query when the value does not fit in 32 bits. The model keeps the limit and offset as unbounded integers and does not model that error.
- `FilterOperator` is a Go string type, so a caller can pass text other than the seven constants. The model admits only the seven operators.
- Keys are name keys without a parent chain. An ancestor key is one such key or none.
- `UpsertMulti` iterates a Go map, and Go leaves that order unspecified. `PairUp` picks ids in any order, and its contract states only the position-by-position pairing, not which id comes first.
- `Delete` does not look at `usingOffset` or `usingCursor`, and its keys-only query keeps any offset, limit and start cursor. The model does the same.
