/** The request handlers as programs over the two stores, with nothing else running. */
module Server {
  import opened Storage
  import opened AudioSniff
  import opened UploadBody
  import opened UploadReader
  import opened Protocol

  datatype Status = NoContent | Ok | BadRequest | NotFoundStatus | Conflict | PayloadTooLarge | ServerError

  /** Which of the calls a request may make fail, and so leave no effect. `put` is the store refusing the
      object before it has read it to its end. */
  datatype Faults = Faults(lookup: bool, deadline: bool, random: bool, put: bool, update: bool, removeNew: bool, removeOld: bool)

  /** A failure before anything is handed to the store. */
  predicate EarlyFault(f: Faults) {
    f.lookup || f.deadline || f.random
  }

  /** What one upload does to the stores and answers. `body` and `declared` are the request's. */
  ghost predicate UploadDone(cap: nat, hash: Bytes -> string, track: TrackId, suffix: nat, stamp: Time,
                             declared: int, body: Bytes, ending: Ending, faults: Faults, status: Status,
                             rows: map<TrackId, Row>, bucket: map<Key, Object>,
                             rows': map<TrackId, Row>, bucket': map<Key, Object>)
  {
    var early := HeadOutcome(declared, cap, body, ending);
    var r := Ingest(declared, cap, body, ending, hash);
    if faults.lookup then
      status == ServerError && rows' == rows && bucket' == bucket
    else if track !in rows then
      status == NotFoundStatus && rows' == rows && bucket' == bucket
    else if faults.deadline then
      status == ServerError && rows' == rows && bucket' == bucket
    else if early.Some? then
      status == StatusOfOutcome(early.value) && rows' == rows && bucket' == bucket
    else if faults.random || faults.put then
      status == ServerError && rows' == rows && bucket' == bucket
    else if !r.Stored? then
      status == StatusOfOutcome(r) && rows' == rows && bucket' == bucket
    else
      var key := Audio(track, suffix, r.format.ext);
      var stored := bucket[key := Object(body, stamp)];
      var row := rows[track];
      if HashTakenByAnother(rows, track, hash(body)) || faults.update then
        && rows' == rows
        && (status == Conflict || status == ServerError)
        && (status == Conflict ==> HashTakenByAnother(rows, track, hash(body)))
        && (status == ServerError ==> faults.update)
        && bucket' == if faults.removeNew then stored else stored - {key}
      else
        && status == NoContent
        && rows' == rows[track := Row(row.artist, Some(key), Some(hash(body)), r.format.ext[1..], |body|)]
        && bucket' == if row.key.None? || row.key == Some(key) || faults.removeOld then stored
                      else stored - {row.key.value}
  }

  function StatusOfOutcome(r: Outcome): Status {
    match r
    case Stored(_, _, _) => NoContent
    case TooLarge => PayloadTooLarge
    case Empty => BadRequest
    case NotAudio => BadRequest
    case ReadFailed => ServerError
  }

  class Stores {
    const cap: nat
    const hash: Bytes -> string
    var artists: set<ArtistId>
    var rows: map<TrackId, Row>
    var bucket: map<Key, Object>

    constructor (cap: nat, hash: Bytes -> string)
      ensures artists == {} && rows == map[] && bucket == map[] && this.cap == cap && this.hash == hash
    {
      this.cap, this.hash := cap, hash;
      artists, rows, bucket := {}, map[], map[];
    }

    /** One UPDATE of the four file columns, guarded by the unique index on the hash. */
    method SetTrackFile(track: TrackId, key: Key, contentHash: string, format: string, fileSize: nat, fails: bool)
      returns (refusal: Option<Refusal>)
      modifies this`rows
      ensures refusal.None? <==> !fails && track in old(rows) && !HashTakenByAnother(old(rows), track, contentHash)
      ensures refusal.None? ==>
        rows == old(rows)[track := Row(old(rows)[track].artist, Some(key), Some(contentHash), format, fileSize)]
      ensures refusal.Some? ==> rows == old(rows)
      ensures refusal == Some(RowMissing) ==> track !in old(rows)
      ensures refusal == Some(DuplicateAudio) ==> track in old(rows) && HashTakenByAnother(old(rows), track, contentHash)
      ensures refusal == Some(OtherError) ==> fails
    {
      if fails { return Some(OtherError); }
      if track !in rows { return Some(RowMissing); }
      if HashTakenByAnother(rows, track, contentHash) { return Some(DuplicateAudio); }
      rows := rows[track := Row(rows[track].artist, Some(key), Some(contentHash), format, fileSize)];
      refusal := None;
    }

    method Remove(key: Key, fails: bool)
      modifies this`bucket
      ensures bucket == if fails then old(bucket) else old(bucket) - {key}
    {
      if !fails { bucket := bucket - {key}; }
    }

    /** PUT /tracks/{id}/file. `suffix` is the random part of the new key. */
    method UploadTrackFile(track: TrackId, body: Body, declared: int, buffer: nat, suffix: nat, stamp: Time, faults: Faults)
      returns (status: Status)
      requires body.Valid() && body.delivered == 0 && body.ended.More? && body.cap == cap && buffer > 0
      modifies this`rows, this`bucket, body
      ensures UploadDone(cap, hash, track, suffix, stamp, declared, body.data, body.ending, faults, status,
                         old(rows), old(bucket), rows, bucket)
    {
      if faults.lookup { return ServerError; }
      if track !in rows { return NotFoundStatus; }
      var previous := rows[track].key;
      if faults.deadline { return ServerError; }
      var early, front, format := ReadHead(body, declared);
      if early.Some? { return StatusOfOutcome(early.value); }
      if faults.random { return ServerError; }
      var key := Audio(track, suffix, format.value.ext);
      if faults.put { return ServerError; }
      var outcome, content := PutContent(body, front, format.value, hash, buffer);
      if !outcome.Stored? { return StatusOfOutcome(outcome); }
      bucket := bucket[key := Object(content, stamp)];
      StoredMetadataDescribesContent(declared, cap, body.data, body.ending, hash);
      var refusal := SetTrackFile(track, key, outcome.contentHash, outcome.format.ext[1..], outcome.fileSize, faults.update);
      if refusal.Some? {
        Remove(key, faults.removeNew);
        return if refusal.value.DuplicateAudio? then Conflict else ServerError;
      }
      if previous.Some? && previous.value != key {
        Remove(previous.value, faults.removeOld);
      }
      status := NoContent;
    }

    /** GET /tracks/{id}/stream: the body and the ETag it is sent with. Reading the row or opening the
        object may fail for reasons of their own. */
    method StreamTrack(track: TrackId, lookupFails: bool, openFails: bool)
      returns (status: Status, etag: Option<string>, body: Bytes)
      ensures status == (if lookupFails then ServerError
                         else if track !in rows || rows[track].key.None? then NotFoundStatus
                         else if openFails then ServerError
                         else if rows[track].key.value !in bucket then NotFoundStatus
                         else Ok)
      ensures if status == Ok then body == bucket[rows[track].key.value].bytes && etag == rows[track].hash
              else body == [] && etag == None
    {
      etag, body := None, [];
      if lookupFails { return ServerError, etag, body; }
      if track !in rows { return NotFoundStatus, etag, body; }
      var row := rows[track];
      if row.key.None? { return NotFoundStatus, etag, body; }
      if openFails { return ServerError, etag, body; }
      if row.key.value !in bucket { return NotFoundStatus, etag, body; }
      return Ok, row.hash, bucket[row.key.value].bytes;
    }

    /** DELETE /tracks/{id}: the row first, then the object; a failed delete is not the client's. */
    method DeleteTrack(track: TrackId, removeFails: bool) returns (status: Status)
      modifies this`rows, this`bucket
      ensures track !in old(rows) ==> status == NotFoundStatus && rows == old(rows) && bucket == old(bucket)
      ensures track in old(rows) ==>
        && status == NoContent && rows == old(rows) - {track}
        && bucket == if old(rows)[track].key.None? || removeFails then old(bucket)
                     else old(bucket) - {old(rows)[track].key.value}
    {
      if track !in rows { return NotFoundStatus; }
      var key := rows[track].key;
      rows := rows - {track};
      if key.None? { return NoContent; }
      Remove(key.value, removeFails);
      status := NoContent;
    }

    /** The repository's half of deleting an artist: collect the keys of the artist's rows, in the
        order the rows come back, and let the cascade take the rows. */
    method CollectAndDelete(artist: ArtistId, order: seq<TrackId>) returns (keys: Option<seq<Key>>)
      requires multiset(order) == multiset(set t | t in rows && rows[t].artist == artist)
      modifies this`artists, this`rows
      ensures keys.None? <==> artist !in old(artists)
      ensures keys.None? ==> artists == old(artists) && rows == old(rows)
      ensures keys.Some? ==>
        && artists == old(artists) - {artist}
        && rows == (map t | t in old(rows) && old(rows)[t].artist != artist :: old(rows)[t])
        && keys.value == KeysOf(old(rows), order)
        && (forall k :: k in keys.value <==> exists t :: t in old(rows) && old(rows)[t].artist == artist && old(rows)[t].key == Some(k))
    {
      OrderIsWho(rows, artist, order);
      var collected: seq<Key> := [];
      for i := 0 to |order|
        invariant artists == old(artists) && rows == old(rows) && collected == KeysOf(rows, order[..i])
      {
        assert order[..i + 1] == order[..i] + [order[i]];
        KeysOneMore(rows, order[..i], order[i]);
        assert order[i] in order;
        var key := rows[order[i]].key;
        if key.Some? { collected := collected + [key.value]; }
      }
      assert order[..|order|] == order;
      KeysOfWho(rows, order);
      if artist !in artists { return None; }
      artists := artists - {artist};
      rows := map t | t in rows && rows[t].artist != artist :: rows[t];
      keys := Some(collected);
    }

    /** The objects go one by one; one that cannot be removed does not stop the others. */
    method RemoveAll(keys: seq<Key>, fails: nat -> bool)
      modifies this`bucket
      ensures bucket == (map k | k in old(bucket) && !RemovedBy(keys, fails, k) :: old(bucket)[k])
    {
      for i := 0 to |keys|
        invariant bucket == map k | k in old(bucket) && !RemovedBy(keys[..i], fails, k) :: old(bucket)[k]
      {
        RemovedOneMore(keys, i, fails);
        Remove(keys[i], fails(i));
      }
      assert keys[..|keys|] == keys;
    }

    /** DELETE /artists/{id}. `fails(i)` says whether the `i`th object delete fails. */
    method DeleteArtist(artist: ArtistId, order: seq<TrackId>, fails: nat -> bool) returns (status: Status, collected: seq<Key>)
      requires multiset(order) == multiset(set t | t in rows && rows[t].artist == artist)
      modifies this
      ensures status == NoContent <==> artist in old(artists)
      ensures status != NoContent ==> status == NotFoundStatus && artists == old(artists) && rows == old(rows) && bucket == old(bucket)
      ensures status == NoContent ==>
        && artists == old(artists) - {artist}
        && rows == (map t | t in old(rows) && old(rows)[t].artist != artist :: old(rows)[t])
        && collected == KeysOf(old(rows), order)
        && (forall k :: k in collected <==> exists t :: t in old(rows) && old(rows)[t].artist == artist && old(rows)[t].key == Some(k))
        && bucket == (map k | k in old(bucket) && !RemovedBy(collected, fails, k) :: old(bucket)[k])
    {
      collected := [];
      var keys := CollectAndDelete(artist, order);
      if keys.None? { return NotFoundStatus, []; }
      collected := keys.value;
      RemoveAll(collected, fails);
      status := NoContent;
    }
  }

  /** The non-empty keys of the rows, in the order the rows come back. */
  function KeysOf(rows: map<TrackId, Row>, order: seq<TrackId>): seq<Key> {
    if order == [] then []
    else
      var t := order[|order| - 1];
      KeysOf(rows, order[..|order| - 1]) + (if t in rows then ToRemove(rows[t].key) else [])
  }

  lemma KeysOneMore(rows: map<TrackId, Row>, order: seq<TrackId>, t: TrackId)
    ensures KeysOf(rows, order + [t]) == KeysOf(rows, order) + (if t in rows then ToRemove(rows[t].key) else [])
  {
    assert (order + [t])[..|order|] == order;
  }

  lemma OrderIsWho(rows: map<TrackId, Row>, artist: ArtistId, order: seq<TrackId>)
    requires multiset(order) == multiset(set t | t in rows && rows[t].artist == artist)
    ensures forall t :: t in order <==> t in rows && rows[t].artist == artist
  {
    forall t ensures t in order <==> t in rows && rows[t].artist == artist { assert t in order <==> t in multiset(order); }
  }

  lemma {:induction false} KeysOfWho(rows: map<TrackId, Row>, order: seq<TrackId>)
    ensures forall k :: k in KeysOf(rows, order) <==> exists t :: t in order && t in rows && rows[t].key == Some(k)
    decreases |order|
  {
    if order != [] {
      var front, last := order[..|order| - 1], order[|order| - 1];
      KeysOfWho(rows, front);
      assert order == front + [last];
      forall k ensures k in KeysOf(rows, order) <==> exists t :: t in order && t in rows && rows[t].key == Some(k) {
        if k in KeysOf(rows, front) {
          var t :| t in front && t in rows && rows[t].key == Some(k);
          assert t in order;
        } else if k in KeysOf(rows, order) {
          assert last in order && last in rows;
        }
      }
    }
  }

  predicate RemovedBy(keys: seq<Key>, fails: nat -> bool, k: Key) {
    exists i: nat :: i < |keys| && keys[i] == k && !fails(i)
  }

  lemma RemovedOneMore(keys: seq<Key>, i: nat, fails: nat -> bool)
    requires i < |keys|
    ensures forall k :: RemovedBy(keys[..i + 1], fails, k) <==> RemovedBy(keys[..i], fails, k) || (k == keys[i] && !fails(i))
  {
    forall k ensures RemovedBy(keys[..i + 1], fails, k) <==> RemovedBy(keys[..i], fails, k) || (k == keys[i] && !fails(i)) {
      if RemovedBy(keys[..i], fails, k) {
        var j: nat :| j < |keys[..i]| && keys[..i][j] == k && !fails(j);
        assert keys[..i + 1][j] == k;
      }
      assert keys[..i + 1][i] == keys[i];
    }
  }

  // ---- What an upload is answered ----

  /** No other track has this hash. */
  ghost predicate IsNew(rows: map<TrackId, Row>, track: TrackId, contentHash: string) {
    forall u :: u in rows && u != track ==> rows[u].hash != Some(contentHash)
  }

  predicate NoFault(f: Faults) {
    !f.lookup && !f.deadline && !f.random && !f.put && !f.update && !f.removeNew && !f.removeOld
  }

  /** The upload of some audio that fits, to a track there is, while nothing fails and no other track has the
      same audio: it is answered as done, the row names a new object with these bytes and describes it, and
      the object it named before is gone. */
  lemma GoodUploadsAreStored(cap: nat, hash: Bytes -> string, track: TrackId, suffix: nat, stamp: Time,
                             declared: int, body: Bytes, faults: Faults, status: Status,
                             rows: map<TrackId, Row>, bucket: map<Key, Object>, rows': map<TrackId, Row>, bucket': map<Key, Object>)
    requires UploadDone(cap, hash, track, suffix, stamp, declared, body, Complete, faults, status, rows, bucket, rows', bucket')
    requires NoFault(faults) && track in rows && IsNew(rows, track, hash(body))
    requires declared <= cap && 0 < |body| <= cap && IsAudio(body)
    ensures var ext := SniffAudio(body).value.ext;
            var key := Audio(track, suffix, ext);
      && status == NoContent
      && rows'.Keys == rows.Keys && (forall t :: t in rows && t != track ==> rows'[t] == rows[t])
      && rows'[track] == Row(rows[track].artist, Some(key), Some(hash(body)), ext[1..], |body|)
      && key in bucket' && bucket'[key] == Object(body, stamp)
      && (forall k :: k in bucket && k != key && rows[track].key != Some(k) ==> k in bucket' && bucket'[k] == bucket[k])
      && (forall k :: k in bucket' ==> k == key || (k in bucket && rows[track].key != Some(k)))
  {
    StoredIff(declared, cap, body, Complete, hash);
    StoredMetadataDescribesContent(declared, cap, body, Complete, hash);
    EarlyIff(declared, cap, body, Complete);
  }

  /** Whatever fails and whatever is sent: exactly which uploads are answered as done. */
  lemma DoneIff(cap: nat, hash: Bytes -> string, track: TrackId, suffix: nat, stamp: Time,
                declared: int, body: Bytes, ending: Ending, faults: Faults, status: Status,
                rows: map<TrackId, Row>, bucket: map<Key, Object>, rows': map<TrackId, Row>, bucket': map<Key, Object>)
    requires UploadDone(cap, hash, track, suffix, stamp, declared, body, ending, faults, status, rows, bucket, rows', bucket')
    ensures status == NoContent <==>
      && !faults.lookup && !faults.deadline && !faults.random && !faults.put && !faults.update
      && track in rows && declared <= cap && 0 < |body| <= cap && ending.Complete? && IsAudio(body)
      && IsNew(rows, track, hash(body))
  {
    StoredIff(declared, cap, body, ending, hash);
    EarlyIff(declared, cap, body, ending);
    RefusedIff(declared, cap, body, ending, hash);
  }

  /** Each refusal of an upload during which nothing fails, from the status the client sees; and none of
      them changes a row or leaves an object. */
  lemma RefusalsAre(cap: nat, hash: Bytes -> string, track: TrackId, suffix: nat, stamp: Time,
                    declared: int, body: Bytes, ending: Ending, faults: Faults, status: Status,
                    rows: map<TrackId, Row>, bucket: map<Key, Object>, rows': map<TrackId, Row>, bucket': map<Key, Object>)
    requires UploadDone(cap, hash, track, suffix, stamp, declared, body, ending, faults, status, rows, bucket, rows', bucket')
    requires NoFault(faults)
    ensures status == NotFoundStatus <==> track !in rows
    ensures track in rows ==>
      && (status == PayloadTooLarge <==> declared > cap || (|body| > cap && (cap < 512 || IsAudio(body))))
      && (status == BadRequest <==>
            && declared <= cap && !IsAudio(body)
            && if |body| <= cap then |body| >= 512 || !ending.Failing? else cap >= 512)
      && (status == ServerError <==>
            && declared <= cap && |body| <= cap
            && if |body| < 512 && ending.Failing? then true else !ending.Complete? && IsAudio(body))
      && (status == Conflict <==>
            && declared <= cap && 0 < |body| <= cap && ending.Complete? && IsAudio(body) && !IsNew(rows, track, hash(body)))
    ensures status != NoContent ==>
      && rows' == rows
      && (forall k :: k in bucket' ==> k in bucket && bucket'[k] == bucket[k])
      && ((forall ext :: Audio(track, suffix, ext) !in bucket) ==> bucket' == bucket)
  {
    EarlyIff(declared, cap, body, ending);
    RefusedIff(declared, cap, body, ending, hash);
    StoredIff(declared, cap, body, ending, hash);
    NothingIsNotAudio(body);
  }

  /** What a failing call is answered, and when it is not reached: an unknown track is looked for first, and
      what the head decides comes before the random key and the store. No failure changes a row. */
  lemma FaultsAreErrors(cap: nat, hash: Bytes -> string, track: TrackId, suffix: nat, stamp: Time,
                        declared: int, body: Bytes, ending: Ending, faults: Faults, status: Status,
                        rows: map<TrackId, Row>, bucket: map<Key, Object>, rows': map<TrackId, Row>, bucket': map<Key, Object>)
    requires UploadDone(cap, hash, track, suffix, stamp, declared, body, ending, faults, status, rows, bucket, rows', bucket')
    ensures faults.lookup || (track in rows && faults.deadline) ==> status == ServerError && rows' == rows && bucket' == bucket
    ensures status == NotFoundStatus <==> !faults.lookup && track !in rows
    ensures !faults.lookup && track in rows && !faults.deadline && (faults.random || faults.put) ==>
              && rows' == rows && bucket' == bucket
              && (status == ServerError <==>
                    && declared <= cap
                    && if |body| <= cap && |body| < 512 && ending.Failing? then true
                       else IsAudio(body) && (|body| > cap ==> cap >= 512))
    ensures status != NoContent ==> rows' == rows
    ensures status == Conflict ==> !IsNew(rows, track, hash(body))
    ensures status == ServerError && IsNew(rows, track, hash(body)) && !EarlyFault(faults) && !faults.put ==>
              faults.update || !ending.Complete?
  {
    EarlyIff(declared, cap, body, ending);
    RefusedIff(declared, cap, body, ending, hash);
  }

  lemma NothingIsNotAudio(body: Bytes)
    ensures IsAudio(body) ==> |body| > 0
  {
  }
}
