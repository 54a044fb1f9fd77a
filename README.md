# Album service: validators and collection operations

A Dafny model of the in-memory album CRUD service in `1a/web-service-gin`.
It covers two parts of the service:

- **Validation** (`validators.dfy`, module `Validators`). `validateTitle`,
  `validateArtist` and `validatePrice` are modelled as total functions. Each
  returns `""` or one fixed message.
  - Go strings are byte sequences and Go's `len` counts bytes. So title,
    artist and id are `seq<byte>`, and every length bound is a byte count.
  - The messages are constants and are kept as Dafny strings.
  - A price is a Go `float64` that is only compared with zero, so it is a
    Dafny `real`.
- **Collection operations** (`handlers.dfy`, module `Handlers`). The
  process-wide `albums` slice becomes the `albums: seq<Album>` field of class
  `AlbumStore`. Each handler becomes a method that returns a `Response`:
  - `Ok`, `Created`, `BadRequest(error)`, `InvalidJson(details)` and
    `NotFound` stand for the 200, 201, 400 (validation), 400 (decode) and
    404 replies.
  - A request body is a `Body`. It is either `Malformed(details)` (the JSON
    decoder failed) or `Decoded(candidate)`. A decoded candidate is an
    `Album` whose missing fields hold Go's zero values (`""`, `0`).
  - The handlers' `for … range` scans are `while` loops. Delete's splice and
    patch's field assignments are reassignments of `albums`.

The model states these properties:

- **Validators.** Each one's exact decision table, in both directions, and
  that it returns nothing outside its own set of messages.
- **Create.** It succeeds exactly when title and artist are 2–100 bytes long
  and the price is positive. On failure it reports the first failing field
  in the order title, artist, price, and the collection is unchanged. On
  success the collection is `old + [album]`, where `album` is the candidate
  under the fresh id.
- **Get.** It returns the first album with the id, or `NotFound` exactly when
  no album has that id. It never changes the collection.
- **Delete.** The collection becomes `old[..i] + old[i+1..]`, where `i` is the
  first match. The removed album is returned, and the multiset of albums
  shrinks by exactly that album.
- **Patch.** It only touches the first match. The id never changes. Empty
  strings and non-positive prices mean "not provided". Fields are written
  one by one: a refused artist leaves an accepted title already written
  (`PatchedAt`). Patch can only be refused for a title or an artist, never
  for a price. An id that is absent gives `NotFound` even when the body is
  malformed, because the body is decoded only after the album is found.
- **Invariants.** Create, delete and patch keep two invariants, even when a
  patch stops part-way:
  - every album has valid fields;
  - ids are non-empty and unique.
- **Across calls** (`scenarios.dfy`, module `Scenarios`).
  - `PostThenGet`: a successful create, then a get of the new id, returns the
    submitted title, artist and price.
  - `DeleteThenGet`: when ids are unique, a get after a delete finds nothing.
  - The request sequences of `main_test.go` are restated as client methods
    (`…Scenario`) whose assertions Dafny verifies. They start from the seed
    of `resetAlbums` (`Seed`), whose three UUIDs are abstracted to three
    distinct non-empty ids. `SeedValid` shows that this seed satisfies both
    invariants.

Three behaviours of the code are worth spelling out:

- **Patch is not transactional.** handlers.go:116 writes the title before
  handlers.go:120 validates the artist. So an accepted title stays written
  when the artist is refused.
- **A create request is validated title first.** `{"title": "A"}` is
  rejected for its title length before the missing artist and price are
  looked at. The reply is the title message.
- **Id uniqueness is assumed, not checked.** The code never checks that an
  id is unique; it relies on `uuid.New()`. `PostAlbums` therefore requires
  the fresh id to be non-empty and absent from the collection. Uniqueness of
  ids is an invariant the operations keep, not a check the code makes.

## Model

| member | source | states |
|---|---|---|
| `Validators.ValidateTitle` | 1a/web-service-gin/validators.go:6-14 | the result is "Title is required" iff required and the title is empty; it is the length message iff the title is non-empty and outside 2..100 bytes, whatever `required` is; it is "" iff (empty and not required) or 2..100 bytes; nothing else is returned |
| `Validators.ValidateArtist` | 1a/web-service-gin/validators.go:19-27 | the same decision table and bounds as the title, with the "Artist" messages |
| `Validators.ValidatePrice` | 1a/web-service-gin/validators.go:32-40 | when required: fails iff price <= 0, always with "Price is required and must be greater than 0"; when optional: passes iff price >= 0, otherwise "Price must be greater than or equal to 0" |
| `Handlers.FirstIndex` | 1a/web-service-gin/handlers.go:66-71 | the scan the handlers share: it yields an index holding the id with no earlier index holding it, and it yields nothing exactly when no album has the id |
| `Handlers.CreateError` | 1a/web-service-gin/handlers.go:42-53 | the create rejection message is "" exactly when title and artist are 2..100 bytes and price > 0; otherwise it is the first failing check in the order title, artist, price: a title outside 2..100 bytes gives "Title is required" if empty and the title length message otherwise; with a good title, an artist outside 2..100 bytes gives "Artist is required" or the artist length message; with both good, a price <= 0 gives "Price is required and must be greater than 0" |
| `Handlers.FirstIndexAfterAppend` | 1a/web-service-gin/handlers.go:55-56 | an album appended under an id no other album has is the one a later scan for that id finds |
| `Handlers.SpliceKeeps` | 1a/web-service-gin/handlers.go:84 | splicing out index i loses exactly that album (multiset), keeps field validity, keeps unique ids, and with unique ids leaves no album with the removed id |
| `Handlers.PatchKeeps` | 1a/web-service-gin/handlers.go:111-135 | a patch, also one refused part-way, keeps field validity and unique ids; it can only be refused with the title or artist length message, never for a price; on success it returns the stored record with the old id |
| `Handlers.AlbumStore.constructor` | 1a/web-service-gin/main_test.go:28 | like the assignment to the global slice, the store holds exactly the given albums |
| `Handlers.AlbumStore.GetAlbums` | 1a/web-service-gin/handlers.go:12-14 | returns the whole collection in order |
| `Handlers.AlbumStore.PostAlbums` | 1a/web-service-gin/handlers.go:31-58 | malformed body gives InvalidJson and no change; Created iff the candidate's fields are valid; otherwise BadRequest with the first failing required check (title, artist, price) and no change; on success the stored and returned album is the candidate under `freshId` and the collection is old + [it]; field validity and id uniqueness are kept |
| `Handlers.AlbumStore.GetAlbumById` | 1a/web-service-gin/handlers.go:63-74 | returns Ok of the first album with the id, NotFound iff no album has it; the collection is not modified |
| `Handlers.AlbumStore.DeleteAlbumById` | 1a/web-service-gin/handlers.go:79-91 | absent id: NotFound, no change; otherwise returns the first match and the collection becomes old[..i] + old[i+1..], one shorter, minus exactly that album; field validity and unique ids are kept, and with unique ids the id is gone afterwards |
| `Handlers.AlbumStore.PatchAlbumById` | 1a/web-service-gin/handlers.go:97-141 | absent id: NotFound and no change, whatever the body; malformed body: InvalidJson and no change; otherwise the new state and reply are those of PatchedAt on the first match; refusals only name title or artist; field validity and unique ids are kept |
| `Handlers.AlbumStore.PatchFields` | 1a/web-service-gin/handlers.go:111-135 | per-field in-place update of album i: title, then artist, then price, each written only when provided and valid; the first refused field stops the request with earlier writes kept; id and all other albums unchanged (PatchedAt) |
| `Scenarios.PostThenGet` | 1a/web-service-gin/handlers.go:55-69 | a create succeeds iff the candidate is valid, and then a get of the new id returns the candidate under the fresh id |
| `Scenarios.SeedValid` | 1a/web-service-gin/main_test.go:27-33 | the `resetAlbums` seed, with any three distinct non-empty ids, has every title and artist within 2..100 bytes, every price positive, and unique non-empty ids |
| `Scenarios.DeleteThenGet` | 1a/web-service-gin/handlers.go:82-90 | with unique ids, delete succeeds iff the id is present, shortens the collection by one, and a following get returns NotFound |

## Left out

- Gin plumbing is not modelled: the request context, path parameters,
  `IndentedJSON`, HTTP status codes and the JSON reply bodies (for example
  `{"message": "album not found"}`). The `Response` constructors stand for
  the replies.
- JSON decoding (`ShouldBindJSON`) is foreign code and is not modelled. A
  body is given already decoded, or as `Malformed(details)` carrying the
  decoder's text.
- `uuid.New()` is a random source and is not modelled. It becomes the
  `freshId` parameter of `PostAlbums`, which must be non-empty and absent
  from the collection.
- `healthCheck` is not modelled: it returns a constant reply.
- `main.go` is not modelled: route registration, logging and starting the
  server. The file that declares `Album` and the startup seed is not part of
  this model either. `Album` is declared directly, and a store is built from
  any seed.
- Concurrency is not modelled. Requests race on the shared slice, but the
  model runs one operation at a time.
- Real `float64` behaviour is not modelled, including NaN: prices are reals.
  Only comparisons with zero occur, and the JSON decoder does not produce
  NaN.
- Aliasing between slices is not modelled: `append` on `albums[:i]` reuses
  the slice's backing array. Every reply is serialised before the handler
  returns, so nothing observes the sharing.
- Non-ASCII text in the scenarios is not modelled. `Scenarios.Ascii` turns a
  literal into bytes by its characters' low bytes. That is the UTF-8
  encoding only for the ASCII literals the scenarios use.
