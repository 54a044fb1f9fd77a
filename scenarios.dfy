/** Properties across calls, and the request sequences of the service's
    test suite on its three-album seed, restated as client methods whose
    assertions Dafny verifies. */
module Scenarios {
  import opened Validators
  import opened Handlers

  /** The low byte of each character: for the ASCII literals used below,
      their UTF-8 encoding. */
  function Ascii(s: string): Bytes
  {
    seq(|s|, k requires 0 <= k < |s| => (s[k] as int % 0x100) as byte)
  }

  /** A successful create followed by a lookup of the returned id finds the
      submitted title, artist and price. */
  method PostThenGet(store: AlbumStore, candidate: Album, freshId: Bytes) returns (created: Response, found: Response)
    requires freshId != [] && Absent(store.albums, freshId)
    modifies store
    ensures created.Created? <==> FieldsValid(candidate)
    ensures created.Created? ==> found == Ok(candidate.(id := freshId))
  {
    created := store.PostAlbums(Decoded(candidate), freshId);
    found := NotFound;
    if created.Created? {
      FirstIndexAfterAppend(old(store.albums), created.album);
      found := store.GetAlbumById(created.album.id);
    }
  }

  /** With unique ids, a lookup after a successful delete of an id finds
      nothing, and the collection is one shorter. */
  method DeleteThenGet(store: AlbumStore, id: Bytes) returns (deleted: Response, found: Response)
    requires IdsUnique(store.albums)
    modifies store
    ensures deleted.Ok? <==> !Absent(old(store.albums), id)
    ensures deleted.Ok? ==> |store.albums| == |old(store.albums)| - 1
    ensures found == NotFound
  {
    deleted := store.DeleteAlbumById(id);
    found := store.GetAlbumById(id);
  }

  /** The seed the test suite resets the collection to; the three UUIDs are
      abstracted to three ids. */
  function Seed(id1: Bytes, id2: Bytes, id3: Bytes): seq<Album>
  {
    [ Album(id1, Ascii("Blue Train"), Ascii("John Coltrane"), 56.99),
      Album(id2, Ascii("Jeru"), Ascii("Gerry Mulligan"), 17.99),
      Album(id3, Ascii("Sarah Vaughan and Clifford Brown"), Ascii("Sarah Vaughan"), 39.99) ]
  }

  /** Three non-empty, pairwise different ids. */
  predicate SeedIds(id1: Bytes, id2: Bytes, id3: Bytes)
  {
    && id1 != [] && id2 != [] && id3 != []
    && id1 != id2 && id1 != id3 && id2 != id3
  }

  /** Seed ids, and a further id that none of them is. */
  predicate Distinct(id1: Bytes, id2: Bytes, id3: Bytes, other: Bytes)
  {
    SeedIds(id1, id2, id3) && other != id1 && other != id2 && other != id3
  }

  /** The seed satisfies both invariants the operations keep, so they hold
      at the start of every test. */
  lemma SeedValid(id1: Bytes, id2: Bytes, id3: Bytes)
    requires SeedIds(id1, id2, id3)
    ensures AllValid(Seed(id1, id2, id3)) && IdsUnique(Seed(id1, id2, id3))
  {
  }

  method GetAlbumByIdScenario(id1: Bytes, id2: Bytes, id3: Bytes, missing: Bytes)
    requires Distinct(id1, id2, id3, missing)
  {
    var store := new AlbumStore(Seed(id1, id2, id3));
    var all := store.GetAlbums();
    assert |all| == 3;
    var r := store.GetAlbumById(id1);
    assert r == Ok(Seed(id1, id2, id3)[0]);
    r := store.GetAlbumById(missing);
    assert r == NotFound;
  }

  method PostAlbumsScenario(id1: Bytes, id2: Bytes, id3: Bytes, freshId: Bytes, nextId: Bytes)
    requires Distinct(id1, id2, id3, freshId) && freshId != []
    requires Distinct(id1, id2, id3, nextId) && nextId != [] && nextId != freshId
  {
    var store := new AlbumStore(Seed(id1, id2, id3));
    var candidate := Album([], Ascii("Kind of Blue"), Ascii("Miles Davis"), 49.99);
    var r := store.PostAlbums(Decoded(candidate), freshId);
    assert r == Created(candidate.(id := freshId));
    assert |store.albums| == 4;
    // {"title": "A"}: the other fields decode to their zero values.
    r := store.PostAlbums(Decoded(Album([], Ascii("A"), [], 0.0)), nextId);
    assert r == BadRequest(TitleBadLength);
    assert |store.albums| == 4;
  }

  method DeleteAlbumByIdScenario(id1: Bytes, id2: Bytes, id3: Bytes)
    requires SeedIds(id1, id2, id3)
  {
    var seed := Seed(id1, id2, id3);
    assert FirstIndex(seed, id1) == Some(0);
    var store := new AlbumStore(seed);
    var r := store.DeleteAlbumById(id1);
    assert r == Ok(seed[0]);
    assert |store.albums| == 2;
  }

  method DeleteMissingScenario(id1: Bytes, id2: Bytes, id3: Bytes, missing: Bytes)
    requires Distinct(id1, id2, id3, missing)
  {
    var seed := Seed(id1, id2, id3);
    assert Absent(seed, missing);
    var store := new AlbumStore(seed);
    var r := store.DeleteAlbumById(missing);
    assert r == NotFound;
    assert store.albums == seed;
  }

  method PatchAlbumByIdScenario(id1: Bytes, id2: Bytes, id3: Bytes)
    requires SeedIds(id1, id2, id3)
  {
    var seed := Seed(id1, id2, id3);
    var store := new AlbumStore(seed);
    var title := Ascii("Updated Title");
    assert InBounds(title);
    var update := Album([], title, [], 0.0);
    assert FirstIndex(seed, id1) == Some(0);
    var r := store.PatchAlbumById(id1, Decoded(update));
    assert r == Ok(seed[0].(title := title));
  }

  method PatchMissingScenario(id1: Bytes, id2: Bytes, id3: Bytes, missing: Bytes)
    requires Distinct(id1, id2, id3, missing)
  {
    var seed := Seed(id1, id2, id3);
    assert Absent(seed, missing);
    var store := new AlbumStore(seed);
    var r := store.PatchAlbumById(missing, Decoded(Album([], Ascii("Updated Title"), [], 0.0)));
    assert r == NotFound;
    assert store.albums == seed;
  }

  /** A one-byte title is refused before the artist and price are looked at,
      so nothing of the album changes. */
  method PatchRefusedTitleScenario(id1: Bytes, id2: Bytes, id3: Bytes, missing: Bytes)
    requires Distinct(id1, id2, id3, missing)
  {
    var seed := Seed(id1, id2, id3);
    var store := new AlbumStore(seed);
    var title := Ascii("A");
    assert Refused(title);
    assert FirstIndex(seed, id2) == Some(1);
    var r := store.PatchAlbumById(id2, Decoded(Album([], title, Ascii("Someone Else"), 1.0)));
    assert r == BadRequest(TitleBadLength);
    assert store.albums == seed;
  }
}
