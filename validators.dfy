/** Field validation for album payloads.

    Go strings are byte sequences and Go's `len` counts bytes, so a field
    value is modelled as a sequence of bytes; only the error messages, which
    are constants, are Dafny strings.  A price is a Go float64 that is only
    ever compared with zero, so it is modelled as a `real`.

    Each validator is total and returns "" on success or exactly one fixed
    message. */
module Validators {

  newtype byte = x: int | 0 <= x < 0x100
  type Bytes = seq<byte>

  /** Inclusive length bounds, in bytes, shared by title and artist. */
  const MinLength := 2
  const MaxLength := 100

  const TitleRequired := "Title is required"
  const TitleBadLength := "Title must be between 2 and 100 characters"
  const ArtistRequired := "Artist is required"
  const ArtistBadLength := "Artist must be between 2 and 100 characters"
  const PriceRequired := "Price is required and must be greater than 0"
  const PriceNegative := "Price must be greater than or equal to 0"

  /** A title or artist whose byte length lies within the bounds. */
  predicate InBounds(s: Bytes)
  {
    MinLength <= |s| <= MaxLength
  }

  /** `required`: an empty title is rejected; a non-empty title must be in bounds,
      whatever `required` is. */
  function ValidateTitle(title: Bytes, required: bool): (msg: string)
    ensures msg in {"", TitleRequired, TitleBadLength}
    ensures msg == TitleRequired <==> required && title == []
    ensures msg == TitleBadLength <==> title != [] && !InBounds(title)
    ensures msg == "" <==> (title == [] && !required) || InBounds(title)
  {
    if required && title == [] then TitleRequired
    else if title != [] && (|title| < 2 || |title| > 100) then TitleBadLength
    else ""
  }

  /** Same decision table and bounds as ValidateTitle, with "Artist" messages. */
  function ValidateArtist(artist: Bytes, required: bool): (msg: string)
    ensures msg in {"", ArtistRequired, ArtistBadLength}
    ensures msg == ArtistRequired <==> required && artist == []
    ensures msg == ArtistBadLength <==> artist != [] && !InBounds(artist)
    ensures msg == "" <==> (artist == [] && !required) || InBounds(artist)
  {
    if required && artist == [] then ArtistRequired
    else if artist != [] && (|artist| < 2 || |artist| > 100) then ArtistBadLength
    else ""
  }

  /** A required price must be positive; an optional one must not be negative. */
  function ValidatePrice(price: real, required: bool): (msg: string)
    ensures msg in {"", PriceRequired, PriceNegative}
    ensures required ==> (msg == "" <==> price > 0.0) && (msg != "" ==> msg == PriceRequired)
    ensures !required ==> (msg == "" <==> price >= 0.0) && (msg != "" ==> msg == PriceNegative)
  {
    if required && price <= 0.0 then PriceRequired
    else if price < 0.0 then PriceNegative
    else ""
  }
}
