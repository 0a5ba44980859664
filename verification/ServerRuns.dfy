/** The handlers run on their own are runs of the protocol, so the protocol's theorems speak about
    what the programs do. */
module ServerRuns {
  import opened Storage
  import opened UploadBody
  import opened Protocol
  import opened ProtocolInvariant
  import opened SweepBound
  import opened Server

  ghost predicate RunTo(p: Params, s: State, es: seq<Event>, s': State) {
    Legal(p, s, es) && Exec(p, s, es) == s'
  }

  lemma Then(p: Params, s: State, es: seq<Event>, s1: State, e: Event) returns (es': seq<Event>, s2: State)
    requires RunTo(p, s, es, s1) && Enabled(p, s1, e)
    ensures s2 == Apply(p, s1, e) && RunTo(p, s, es', s2)
  {
    LegalExtends(p, s, es, e);
    es', s2 := es + [e], Apply(p, s1, e);
  }

  /** The object is written; the row still to come. */
  lemma StoredRun(p: Params, s: State, o: OpId, track: TrackId, suffix: nat, stamp: Time, declared: int, body: Bytes)
    returns (es: seq<Event>, s': State)
    requires o !in s.ops && track in s.rows && s.now - p.skew <= stamp <= s.now + p.skew
    requires Ingest(declared, p.cap, body, Complete, p.hash).Stored?
    requires Audio(track, suffix, Ingest(declared, p.cap, body, Complete, p.hash).format.ext) !in s.births
    ensures RunTo(p, s, es, s')
    ensures var r := Ingest(declared, p.cap, body, Complete, p.hash);
            var key := Audio(track, suffix, r.format.ext);
            && s'.rows == s.rows && s'.locks == s.locks && s'.now == s.now && s'.bucket == s.bucket[key := Object(body, stamp)]
            && s'.ops == s.ops[o := Storing(track, s.rows[track].key, key, r.contentHash, r.format.ext[1..], r.fileSize)]
            && key in s'.births && s'.births[key].putAt == s.now
  {
    es, s' := [], s;
    es, s' := Then(p, s, es, s', BeginUpload(o, track));
    es, s' := Then(p, s, es, s', StoreObject(o, suffix, declared, body, stamp));
  }

  /** A request's last object is removed, or fails to be, and the request ends. */
  lemma CleanupRun(p: Params, s: State, es: seq<Event>, s1: State, o: OpId, key: Key, fails: bool)
    returns (es': seq<Event>, s': State)
    requires RunTo(p, s, es, s1) && o in s1.ops && s1.ops[o] == Cleaning([key])
    ensures RunTo(p, s, es', s') && s'.rows == s1.rows && s'.ops == s1.ops - {o}
    ensures s'.bucket == if fails then s1.bucket else s1.bucket - {key}
  {
    var s2;
    es', s2 := Then(p, s, es, s1, if fails then FailRemove(o) else RemoveObject(o));
    assert s2.ops[o] == Cleaning([]);
    es', s' := Then(p, s, es', s2, EndRequest(o));
    assert s'.ops == s1.ops - {o};
  }

  /** One undisturbed upload, whatever its content and whichever calls fail, is a run of the protocol
      with the same effect on both stores. */
  lemma UploadIsARun(p: Params, s: State, o: OpId, track: TrackId, suffix: nat, stamp: Time, declared: int, body: Bytes,
                     ending: Ending, faults: Faults, status: Status, rows': map<TrackId, Row>, bucket': map<Key, Object>)
    returns (es: seq<Event>)
    requires Proper(p) && Reachable(p, s) && o !in s.ops && track !in s.locks && s.now - p.skew <= stamp <= s.now + p.skew
    requires forall ext :: Audio(track, suffix, ext) !in s.births
    requires UploadDone(p.cap, p.hash, track, suffix, stamp, declared, body, ending, faults, status,
                        s.rows, s.bucket, rows', bucket')
    ensures Legal(p, s, es)
    ensures var s' := Exec(p, s, es); s'.rows == rows' && s'.bucket == bucket' && s'.ops == s.ops
  {
    if track !in s.rows {
      es := [];
    } else if !Ingest(declared, p.cap, body, ending, p.hash).Stored? || faults.put || EarlyFault(faults) {
      es := FruitlessRun(p, s, o, track);
    } else {
      ReachableRowOk(p, s, track);
      es := StoringRun(p, s, o, track, suffix, stamp, declared, body, ending, faults, status, rows', bucket');
    }
  }

  lemma ReachableRowOk(p: Params, s: State, track: TrackId)
    requires Proper(p) && Reachable(p, s) && track in s.rows
    ensures RowOk(p, s, track)
  {
    ReachableIsCore(p, s);
  }

  lemma FruitlessRun(p: Params, s: State, o: OpId, track: TrackId) returns (es: seq<Event>)
    requires o !in s.ops && track in s.rows
    ensures Legal(p, s, es)
    ensures var s' := Exec(p, s, es); s'.rows == s.rows && s'.bucket == s.bucket && s'.ops == s.ops
  {
    var s1, s2;
    es, s1 := Then(p, s, [], s, BeginUpload(o, track));
    es, s2 := Then(p, s, es, s1, EndRequest(o));
    assert s2.ops == s.ops;
  }

  lemma StoringRun(p: Params, s: State, o: OpId, track: TrackId, suffix: nat, stamp: Time, declared: int, body: Bytes,
                   ending: Ending, faults: Faults, status: Status, rows': map<TrackId, Row>, bucket': map<Key, Object>)
    returns (es: seq<Event>)
    requires o !in s.ops && track !in s.locks && s.now - p.skew <= stamp <= s.now + p.skew
    requires RowOk(p, s, track) && (forall ext :: Audio(track, suffix, ext) !in s.births)
    requires Ingest(declared, p.cap, body, ending, p.hash).Stored? && !faults.put && !EarlyFault(faults)
    requires UploadDone(p.cap, p.hash, track, suffix, stamp, declared, body, ending, faults, status,
                        s.rows, s.bucket, rows', bucket')
    ensures Legal(p, s, es)
    ensures var s' := Exec(p, s, es); s'.rows == rows' && s'.bucket == bucket' && s'.ops == s.ops
  {
    StoredMetadataDescribesContent(declared, p.cap, body, ending, p.hash);
    if HashTakenByAnother(s.rows, track, p.hash(body)) || faults.update {
      es := RefusedRun(p, s, o, track, suffix, stamp, declared, body, status == Conflict, faults.removeNew);
    } else {
      es := RecordedRun(p, s, o, track, suffix, stamp, declared, body, faults.removeOld);
    }
  }

  lemma RefusedRun(p: Params, s: State, o: OpId, track: TrackId, suffix: nat, stamp: Time, declared: int, body: Bytes,
                   duplicate: bool, removeFails: bool) returns (es: seq<Event>)
    requires o !in s.ops && track in s.rows && s.now - p.skew <= stamp <= s.now + p.skew
    requires Ingest(declared, p.cap, body, Complete, p.hash).Stored?
    requires Audio(track, suffix, Ingest(declared, p.cap, body, Complete, p.hash).format.ext) !in s.births
    requires duplicate ==> HashTakenByAnother(s.rows, track, Ingest(declared, p.cap, body, Complete, p.hash).contentHash)
    ensures Legal(p, s, es)
    ensures var s' := Exec(p, s, es);
            var key := Audio(track, suffix, Ingest(declared, p.cap, body, Complete, p.hash).format.ext);
            var stored := s.bucket[key := Object(body, stamp)];
            s'.rows == s.rows && s'.ops == s.ops && s'.bucket == if removeFails then stored else stored - {key}
  {
    var key := Audio(track, suffix, Ingest(declared, p.cap, body, Complete, p.hash).format.ext);
    var s1, s2, s3;
    es, s1 := StoredRun(p, s, o, track, suffix, stamp, declared, body);
    es, s2 := Then(p, s, es, s1, RefuseFile(o, if duplicate then DuplicateAudio else OtherError));
    es, s3 := CleanupRun(p, s, es, s2, o, key, removeFails);
    assert s3.ops == s.ops;
  }

  lemma RecordedRun(p: Params, s: State, o: OpId, track: TrackId, suffix: nat, stamp: Time, declared: int, body: Bytes,
                    removeFails: bool) returns (es: seq<Event>)
    requires o !in s.ops && track in s.rows && track !in s.locks && s.now - p.skew <= stamp <= s.now + p.skew
    requires Ingest(declared, p.cap, body, Complete, p.hash).Stored?
    requires Audio(track, suffix, Ingest(declared, p.cap, body, Complete, p.hash).format.ext) !in s.births
    requires !HashTakenByAnother(s.rows, track, Ingest(declared, p.cap, body, Complete, p.hash).contentHash)
    ensures Legal(p, s, es)
    ensures var s' := Exec(p, s, es);
            var r := Ingest(declared, p.cap, body, Complete, p.hash);
            var key := Audio(track, suffix, r.format.ext);
            var row := s.rows[track];
            var stored := s.bucket[key := Object(body, stamp)];
            && s'.rows == s.rows[track := Row(row.artist, Some(key), Some(r.contentHash), r.format.ext[1..], r.fileSize)]
            && s'.ops == s.ops
            && s'.bucket == if row.key.None? || row.key == Some(key) || removeFails then stored else stored - {row.key.value}
  {
    var key := Audio(track, suffix, Ingest(declared, p.cap, body, Complete, p.hash).format.ext);
    var previous := s.rows[track].key;
    var s1, s2, s3;
    es, s1 := StoredRun(p, s, o, track, suffix, stamp, declared, body);
    es, s2 := Then(p, s, es, s1, RecordFile(o));
    if previous.None? || previous == Some(key) {
      es, s3 := Then(p, s, es, s2, EndRequest(o));
    } else {
      es, s3 := CleanupRun(p, s, es, s2, o, previous.value, removeFails);
    }
    assert s3.ops == s.ops;
  }

  /** Deleting a track on its own is a run of the protocol too. */
  lemma DeleteTrackIsARun(p: Params, s: State, o: OpId, track: TrackId, removeFails: bool) returns (es: seq<Event>)
    requires o !in s.ops && track in s.rows && track !in s.locks
    ensures Legal(p, s, es)
    ensures var s' := Exec(p, s, es);
            && s'.rows == s.rows - {track} && s'.ops == s.ops
            && s'.bucket == if s.rows[track].key.None? || removeFails then s.bucket else s.bucket - {s.rows[track].key.value}
  {
    var key := s.rows[track].key;
    var s1, s2;
    es, s1 := Then(p, s, [], s, Event.DeleteTrack(o, track));
    if key.None? {
      es, s2 := Then(p, s, es, s1, EndRequest(o));
    } else {
      es, s2 := CleanupRun(p, s, es, s1, o, key.value, removeFails);
    }
    assert s2.ops == s.ops;
  }

  // ---- Deleting an artist ----

  /** The request has selected the artist's rows and locked the first `n` of them. */
  ghost predicate Locked(s: State, s': State, o: OpId, artist: ArtistId, order: seq<TrackId>, n: nat)
    requires n <= |order|
  {
    && s'.rows == s.rows && s'.bucket == s.bucket && s'.artists == s.artists
    && o in s'.ops && s'.ops[o].Deleting? && s'.ops == s.ops[o := s'.ops[o]]
    && s'.ops[o].artist == artist && s'.ops[o].keys == KeysOf(s.rows, order[..n])
    && (forall t :: t in s'.ops[o].todo <==> t in order[n..])
    && (forall t :: t in s'.locks ==> t in s.locks || (s'.locks[t] == o && t !in order[n..]))
  }

  /** The rows `order` are the artist's, each once, and nobody has any of them locked. */
  ghost predicate Lockable(s: State, artist: ArtistId, order: seq<TrackId>) {
    && (forall t :: t in order <==> t in TracksOf(s, artist))
    && (forall i, j :: 0 <= i < j < |order| ==> order[i] != order[j])
    && (forall t :: t in order ==> t !in s.locks)
  }

  lemma LocksOneMore(s: State, s1: State, o: OpId, artist: ArtistId, order: seq<TrackId>, n: nat)
    requires Lockable(s, artist, order) && n < |order| && Locked(s, s1, o, artist, order, n)
    ensures order[n] in s1.ops[o].todo && order[n] !in s1.locks
    ensures Locked(s, Lock(s1, o, order[n]), o, artist, order, n + 1)
  {
    var t := order[n];
    NextLocked(order, n);
    assert t in order && t in s.rows;
    KeysOneMore(s.rows, order[..n], t);
  }

  lemma NextLocked(order: seq<TrackId>, n: nat)
    requires n < |order| && forall a, b :: 0 <= a < b < |order| ==> order[a] != order[b]
    ensures order[n] !in order[n + 1..] && order[..n + 1] == order[..n] + [order[n]]
    ensures forall t :: t in order[n..] <==> t == order[n] || t in order[n + 1..]
  {
    assert order[n..] == [order[n]] + order[n + 1..];
  }

  lemma {:induction false} LocksRun(p: Params, s: State, o: OpId, artist: ArtistId, order: seq<TrackId>, n: nat)
    returns (es: seq<Event>, s': State)
    requires o !in s.ops && n <= |order| && Lockable(s, artist, order)
    ensures RunTo(p, s, es, s') && Locked(s, s', o, artist, order, n)
    decreases n
  {
    if n == 0 {
      es, s' := Then(p, s, [], s, SelectTracks(o, artist));
      assert order[0..] == order;
    } else {
      var s1;
      es, s1 := LocksRun(p, s, o, artist, order, n - 1);
      LocksOneMore(s, s1, o, artist, order, n - 1);
      es, s' := Then(p, s, es, s1, LockTrack(o, order[n - 1]));
    }
  }

  lemma CascadeRun(p: Params, s: State, o: OpId, artist: ArtistId, order: seq<TrackId>)
    returns (es: seq<Event>, s': State)
    requires o !in s.ops && Lockable(s, artist, order) && artist in s.artists
    ensures RunTo(p, s, es, s') && s'.rows == s.rows - TracksOf(s, artist) && s'.artists == s.artists - {artist}
    ensures s'.bucket == s.bucket && s'.ops == s.ops[o := Cleaning(KeysOf(s.rows, order))]
  {
    var s1;
    es, s1 := LocksRun(p, s, o, artist, order, |order|);
    assert order[|order|..] == [] && order[..|order|] == order;
    assert s1.ops[o].todo == {};
    assert TracksOf(s1, artist) == TracksOf(s, artist);
    es, s' := Then(p, s, es, s1, CascadeArtist(o));
  }

  /** The collected objects are removed in turn, some of them perhaps not. */
  lemma {:induction false} CleaningRun(p: Params, s: State, es0: seq<Event>, s0: State, o: OpId, keys: seq<Key>, fails: nat -> bool, n: nat)
    returns (es: seq<Event>, s': State)
    requires RunTo(p, s, es0, s0) && o in s0.ops && s0.ops[o] == Cleaning(keys) && n <= |keys|
    ensures RunTo(p, s, es, s') && s'.rows == s0.rows && s'.artists == s0.artists && s'.ops == s0.ops[o := Cleaning(keys[n..])]
    ensures s'.bucket == (map k | k in s0.bucket && !RemovedBy(keys[..n], fails, k) :: s0.bucket[k])
    decreases n
  {
    if n == 0 {
      es, s' := es0, s0;
      assert keys[0..] == keys;
    } else {
      var s1;
      es, s1 := CleaningRun(p, s, es0, s0, o, keys, fails, n - 1);
      assert keys[n - 1..][1..] == keys[n..];
      RemovedOneMore(keys, n - 1, fails);
      es, s' := Then(p, s, es, s1, if fails(n - 1) then FailRemove(o) else RemoveObject(o));
    }
  }

  /** Deleting an artist on its own, as the server does it, is a run of the protocol: the rows go with
      the cascade, and of the objects those whose removal does not fail. */
  lemma DeleteArtistIsARun(p: Params, s: State, o: OpId, artist: ArtistId, order: seq<TrackId>, fails: nat -> bool)
    returns (es: seq<Event>)
    requires o !in s.ops && Lockable(s, artist, order) && artist in s.artists
    ensures Legal(p, s, es)
    ensures var s' := Exec(p, s, es);
            var collected := KeysOf(s.rows, order);
            && s'.artists == s.artists - {artist} && s'.ops == s.ops
            && s'.rows == (map t | t in s.rows && s.rows[t].artist != artist :: s.rows[t])
            && s'.bucket == (map k | k in s.bucket && !RemovedBy(collected, fails, k) :: s.bucket[k])
  {
    var keys := KeysOf(s.rows, order);
    var s1, s2, s3;
    es, s1 := CascadeRun(p, s, o, artist, order);
    es, s2 := CleaningRun(p, s, es, s1, o, keys, fails, |keys|);
    assert keys[|keys|..] == [] && keys[..|keys|] == keys;
    es, s3 := Then(p, s, es, s2, EndRequest(o));
    assert s3.ops == s.ops;
  }

  /** Streaming a track on its own is a run too: what the protocol's reader ends up with, under which ETag, is
      what the program answers with. */
  lemma StreamIsARun(p: Params, s: State, o: OpId, track: TrackId) returns (es: seq<Event>)
    requires o !in s.ops && track in s.rows && s.rows[track].key.Some? && s.rows[track].key.value in s.bucket
    ensures Legal(p, s, es)
    ensures var key := s.rows[track].key.value;
            Exec(p, s, es) == WithOp(s, o, Streamed(key, s.rows[track].hash, s.bucket[key].bytes))
  {
    var s1, s2;
    assert Legal(p, s, []) && Exec(p, s, []) == s;
    es, s1 := Then(p, s, [], s, OpenStream(o, track));
    es, s2 := Then(p, s, es, s1, FetchStream(o));
    assert s1.ops[o := s2.ops[o]] == s.ops[o := s2.ops[o]];
  }
}
