/** Values every component shares: optional values, bytes, object keys and listings.

    Identifiers are UUIDs in the repository; a UUID is a 128-bit number and only its
    identity and its order ever matter, so identifiers are `nat` here. */
module Storage {
  datatype Option<+T> = None | Some(value: T)

  type Bytes = seq<bv8>
  type Time = int
  type TrackId = nat
  type ArtistId = nat

  function Min(a: nat, b: nat): nat {
    if a <= b then a else b
  }

  /** `Audio(t, r, ext)` is the object key "tracks/<t>/<r><ext>", where `r` is the random
      component every upload draws; `Cover` is an album's cover key. */
  datatype Key =
    | Audio(track: TrackId, suffix: nat, ext: string)
    | Cover(name: nat)

  /** The part of a bucket listing the orphan sweep reads. */
  datatype ObjectInfo = ObjectInfo(key: Key, lastModified: Time)

  /** What asking the store for one object's metadata can answer. */
  datatype StatAnswer = Found | NotFound | StatFailed
}
