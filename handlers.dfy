/** The album collection and the operations the HTTP handlers perform on it.

    The process-wide slice of albums becomes the field `albums` of an
    AlbumStore; each handler becomes a method that returns a Response
    instead of writing JSON to the request context.  A request body is
    either malformed (the JSON decoder's error text) or decoded into an
    Album whose absent fields hold Go's zero values. */
module Handlers {
  import opened Validators

  datatype Album = Album(id: Bytes, title: Bytes, artist: Bytes, price: real)

  /** What the JSON decoder made of a request body. */
  datatype Body = Malformed(details: string) | Decoded(candidate: Album)

  /** Ok is 200, Created is 201, BadRequest and InvalidJson are 400, NotFound is 404. */
  datatype Response =
    | Ok(album: Album)
    | Created(album: Album)
    | BadRequest(error: string)
    | InvalidJson(details: string)
    | NotFound

  datatype Option<T> = None | Some(value: T)

  /** The index the handlers' linear scan stops at: the first album with `id`. */
  function FirstIndex(s: seq<Album>, id: Bytes): (r: Option<nat>)
    ensures r.Some? ==> r.value < |s| && s[r.value].id == id
    ensures r.Some? ==> forall k :: 0 <= k < r.value ==> s[k].id != id
    ensures r.None? <==> Absent(s, id)
  {
    if s == [] then None
    else if s[0].id == id then Some(0)
    else match FirstIndex(s[1..], id)
      case None => None
      case Some(k) => Some(k + 1)
  }

  predicate Absent(s: seq<Album>, id: Bytes)
  {
    forall k :: 0 <= k < |s| ==> s[k].id != id
  }

  /** Every album has a non-empty id and no two albums share one. */
  predicate IdsUnique(s: seq<Album>)
  {
    && (forall k :: 0 <= k < |s| ==> s[k].id != [])
    && (forall j, k :: 0 <= j < k < |s| ==> s[j].id != s[k].id)
  }

  /** The field constraints a stored album is meant to satisfy. */
  predicate FieldsValid(a: Album)
  {
    InBounds(a.title) && InBounds(a.artist) && a.price > 0.0
  }

  predicate AllValid(s: seq<Album>)
  {
    forall k :: 0 <= k < |s| ==> FieldsValid(s[k])
  }

  /** The message a create request is refused with: the first failing
      required check, in the order title, artist, price; "" if none fails. */
  function CreateError(c: Album): (msg: string)
    ensures msg == "" <==> FieldsValid(c)
    ensures !InBounds(c.title) ==> msg == (if c.title == [] then TitleRequired else TitleBadLength)
    ensures InBounds(c.title) && !InBounds(c.artist) ==>
              msg == (if c.artist == [] then ArtistRequired else ArtistBadLength)
    ensures InBounds(c.title) && InBounds(c.artist) && c.price <= 0.0 ==> msg == PriceRequired
    ensures msg in {"", TitleRequired, TitleBadLength, ArtistRequired, ArtistBadLength, PriceRequired}
  {
    var t := ValidateTitle(c.title, true);
    if t != "" then t
    else
      var a := ValidateArtist(c.artist, true);
      if a != "" then a else ValidatePrice(c.price, true)
  }

  /** A patch value the PATCH handler refuses: non-empty but out of bounds.
      An empty value is neither written nor refused: it means "not provided";
      a value in bounds is written. */
  predicate Refused(s: Bytes)
  {
    s != [] && !InBounds(s)
  }

  /** The state and response after a decoded patch `u` of the album at index
      `i`: fields are written in the order title, artist, price; the first
      refused field stops the request, and fields written before it stay
      written.  The id and every other album are left alone. */
  ghost predicate PatchedAt(before: seq<Album>, after: seq<Album>, i: nat, u: Album, r: Response)
  {
    && i < |before| && |after| == |before|
    && (forall k :: 0 <= k < |before| && k != i ==> after[k] == before[k])
    && after[i].id == before[i].id
    && after[i].title == (if InBounds(u.title) then u.title else before[i].title)
    && after[i].artist == (if !Refused(u.title) && InBounds(u.artist) then u.artist else before[i].artist)
    && after[i].price == (if !Refused(u.title) && !Refused(u.artist) && u.price > 0.0 then u.price else before[i].price)
    && r == (if Refused(u.title) then BadRequest(TitleBadLength)
             else if Refused(u.artist) then BadRequest(ArtistBadLength)
             else Ok(after[i]))
  }

  /** Splicing out index `i` keeps every other album, in order, and so keeps
      the field and id invariants; with unique ids the removed id is gone. */
  lemma SpliceKeeps(s: seq<Album>, i: nat)
    requires i < |s|
    ensures multiset(s[..i] + s[i + 1..]) + multiset{s[i]} == multiset(s)
    ensures AllValid(s) ==> AllValid(s[..i] + s[i + 1..])
    ensures IdsUnique(s) ==> IdsUnique(s[..i] + s[i + 1..]) && Absent(s[..i] + s[i + 1..], s[i].id)
  {
    var t := s[..i] + s[i + 1..];
    assert s == s[..i] + [s[i]] + s[i + 1..];
    assert multiset(s) == multiset(s[..i]) + multiset{s[i]} + multiset(s[i + 1..]);
    forall k | 0 <= k < |t|
      ensures t[k] == s[if k < i then k else k + 1]
    {
      if k < i {
        assert t[k] == s[..i][k];
      } else {
        assert t[k] == s[i + 1..][k - i];
      }
    }
    if AllValid(s) {
      forall k | 0 <= k < |t| ensures FieldsValid(t[k]) {
        assert FieldsValid(s[if k < i then k else k + 1]);
      }
    }
    if IdsUnique(s) {
      forall k | 0 <= k < |t| ensures t[k].id != [] && t[k].id != s[i].id {
        var m := if k < i then k else k + 1;
        assert t[k] == s[m] && m != i;
        assert s[m].id != [];
        assert if m < i then s[m].id != s[i].id else s[i].id != s[m].id;
      }
      forall j, k | 0 <= j < k < |t| ensures t[j].id != t[k].id {
        var mj, mk := if j < i then j else j + 1, if k < i then k else k + 1;
        assert t[j] == s[mj] && t[k] == s[mk] && mj < mk;
      }
    }
  }

  /** A patch, even one refused part-way, keeps the field and id invariants,
      and can only be refused for a title or an artist, never for a price. */
  lemma PatchKeeps(before: seq<Album>, after: seq<Album>, i: nat, u: Album, r: Response)
    requires PatchedAt(before, after, i, u, r)
    ensures AllValid(before) ==> AllValid(after)
    ensures IdsUnique(before) ==> IdsUnique(after)
    ensures r.BadRequest? ==> r.error in {TitleBadLength, ArtistBadLength}
    ensures r.Ok? ==> r.album == after[i] && r.album.id == before[i].id
  {
  }

  /** An album appended under an id no earlier album has is the one a scan
      for that id stops at. */
  lemma FirstIndexAfterAppend(s: seq<Album>, a: Album)
    requires Absent(s, a.id)
    ensures FirstIndex(s + [a], a.id) == Some(|s|)
  {
    assert (s + [a])[|s|].id == a.id;
  }

  class AlbumStore {
    var albums: seq<Album>

    constructor (seed: seq<Album>)
      ensures albums == seed
    {
      albums := seed;
    }

    /** GET /albums: the whole collection, in order. */
    method GetAlbums() returns (r: seq<Album>)
      ensures r == albums
    {
      r := albums;
    }

    /** POST /albums: validate the candidate with every field required, then
        append it under the freshly generated id. */
    method PostAlbums(body: Body, freshId: Bytes) returns (r: Response)
      requires freshId != [] && Absent(albums, freshId)
      modifies this
      ensures body.Malformed? ==> r == InvalidJson(body.details)
      ensures r.Created? <==> body.Decoded? && FieldsValid(body.candidate)
      ensures body.Decoded? && !r.Created? ==> r == BadRequest(CreateError(body.candidate))
      ensures r.Created? ==> r.album == body.candidate.(id := freshId)
      ensures r.Created? ==> albums == old(albums) + [r.album]
      ensures !r.Created? ==> albums == old(albums)
      ensures old(AllValid(albums)) ==> AllValid(albums)
      ensures old(IdsUnique(albums)) ==> IdsUnique(albums)
    {
      if body.Malformed? {
        return InvalidJson(body.details);
      }
      var newAlbum := body.candidate;
      var errMsg := ValidateTitle(newAlbum.title, true);
      if errMsg != "" {
        return BadRequest(errMsg);
      }
      errMsg := ValidateArtist(newAlbum.artist, true);
      if errMsg != "" {
        return BadRequest(errMsg);
      }
      errMsg := ValidatePrice(newAlbum.price, true);
      if errMsg != "" {
        return BadRequest(errMsg);
      }
      newAlbum := newAlbum.(id := freshId);
      albums := albums + [newAlbum];
      r := Created(newAlbum);
    }

    /** GET /albums/{id}: the first album with the id, or NotFound. */
    method GetAlbumById(id: Bytes) returns (r: Response)
      ensures r == match FirstIndex(albums, id)
                   case Some(i) => Ok(albums[i])
                   case None => NotFound
      ensures r.NotFound? <==> Absent(albums, id)
      ensures r.Ok? ==> r.album.id == id && r.album in albums
    {
      var i := 0;
      while i < |albums|
        invariant 0 <= i <= |albums|
        invariant forall k :: 0 <= k < i ==> albums[k].id != id
      {
        if albums[i].id == id {
          return Ok(albums[i]);
        }
        i := i + 1;
      }
      r := NotFound;
    }

    /** DELETE /albums/{id}: splice out the first album with the id, keeping
        the order of the others, and return it. */
    method DeleteAlbumById(id: Bytes) returns (r: Response)
      modifies this
      ensures r.Ok? || r.NotFound?
      ensures FirstIndex(old(albums), id).None? ==> r == NotFound && albums == old(albums)
      ensures FirstIndex(old(albums), id).Some? ==>
                var i := FirstIndex(old(albums), id).value;
                r == Ok(old(albums)[i]) && albums == old(albums)[..i] + old(albums)[i + 1..]
      ensures r.Ok? ==> |albums| == |old(albums)| - 1
      ensures r.Ok? ==> multiset(albums) + multiset{r.album} == multiset(old(albums))
      ensures old(AllValid(albums)) ==> AllValid(albums)
      ensures old(IdsUnique(albums)) ==> IdsUnique(albums) && Absent(albums, id)
    {
      var i := 0;
      while i < |albums|
        invariant 0 <= i <= |albums|
        invariant albums == old(albums)
        invariant forall k :: 0 <= k < i ==> albums[k].id != id
      {
        if albums[i].id == id {
          r := Ok(albums[i]);
          SpliceKeeps(albums, i);
          albums := albums[..i] + albums[i + 1..];
          return;
        }
        i := i + 1;
      }
      r := NotFound;
    }

    /** PATCH /albums/{id}: find the first album with the id, decode the
        body, then update its fields in place (PatchFields). */
    method PatchAlbumById(id: Bytes, body: Body) returns (r: Response)
      modifies this
      ensures FirstIndex(old(albums), id).None? ==> r == NotFound && albums == old(albums)
      ensures FirstIndex(old(albums), id).Some? && body.Malformed? ==>
                r == InvalidJson(body.details) && albums == old(albums)
      ensures FirstIndex(old(albums), id).Some? && body.Decoded? ==>
                PatchedAt(old(albums), albums, FirstIndex(old(albums), id).value, body.candidate, r)
      ensures r.BadRequest? ==> r.error in {TitleBadLength, ArtistBadLength}
      ensures old(AllValid(albums)) ==> AllValid(albums)
      ensures old(IdsUnique(albums)) ==> IdsUnique(albums)
    {
      var i := 0;
      while i < |albums|
        invariant 0 <= i <= |albums|
        invariant albums == old(albums)
        invariant forall k :: 0 <= k < i ==> albums[k].id != id
      {
        if albums[i].id == id {
          if body.Malformed? {
            return InvalidJson(body.details);
          }
          r := PatchFields(i, body.candidate);
          PatchKeeps(old(albums), albums, i, body.candidate, r);
          return;
        }
        i := i + 1;
      }
      r := NotFound;
    }

    /** The field updates of PATCH on the album at index `i`: title, artist
        and price, each only when provided (non-empty, or a positive price)
        and valid, written in place one after the other.  Not transactional:
        a refused artist leaves an accepted title written. */
    method PatchFields(i: nat, update: Album) returns (r: Response)
      requires i < |albums|
      modifies this
      ensures PatchedAt(old(albums), albums, i, update, r)
    {
      if update.title != [] {
        var errMsg := ValidateTitle(update.title, false);
        if errMsg != "" {
          return BadRequest(errMsg);
        }
        albums := albums[i := albums[i].(title := update.title)];
      }
      if update.artist != [] {
        var errMsg := ValidateArtist(update.artist, false);
        if errMsg != "" {
          return BadRequest(errMsg);
        }
        albums := albums[i := albums[i].(artist := update.artist)];
      }
      if update.price > 0.0 {
        var errMsg := ValidatePrice(update.price, false);
        if errMsg != "" {
          // A positive price always passes the optional check.
          assert false;
        }
        albums := albums[i := albums[i].(price := update.price)];
      }
      return Ok(albums[i]);
    }
  }
}
