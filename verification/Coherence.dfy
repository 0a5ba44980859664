/** What a reader can rely on: rows describe their objects, streams match their ETag, no audio is
    stored twice, and deleting an artist misses no upload it could have seen. */
module Coherence {
  import opened Storage
  import opened Protocol
  import opened ProtocolInvariant
  import opened AudioSniff

  /** Whatever uploads, deletes, sweeps and crashes interleaved, the file columns of a row describe
      the very bytes the bucket holds under its key. */
  lemma RowsDescribeTheirObjects(p: Params, s: State, t: TrackId)
    requires Proper(p) && Reachable(p, s) && t in s.rows && s.rows[t].key.Some? && s.rows[t].key.value in s.bucket
    ensures var r := s.rows[t];
            var bytes := s.bucket[r.key.value].bytes;
            && r.hash == Some(p.hash(bytes)) && r.size == |bytes| <= p.cap
            && SniffAudio(bytes).Some? && r.format == SniffAudio(bytes).value.ext[1..]
  {
    ReachableIsCore(p, s);
    assert RowOk(p, s, t);
    assert BirthOk(p, s, s.rows[t].key.value);
  }

  /** The row is read first and the body opened any number of events later; still the body sent is
      the one the ETag was computed from. */
  lemma StreamsMatchTheirETag(p: Params, s: State, o: OpId)
    requires Proper(p) && Reachable(p, s) && o in s.ops && s.ops[o].Streamed?
    ensures s.ops[o].etag == Some(p.hash(s.ops[o].body))
  {
    ReachableIsCore(p, s);
    assert OpOk(p, s, o, s.ops[o]);
  }

  ghost predicate Injective(hash: Bytes -> string) {
    forall a, b :: hash(a) == hash(b) ==> a == b
  }

  /** A strong validator: at any two points of any two runs, two responses carry the same ETag
      exactly when they carry the same body. */
  lemma ETagsAreStrongValidators(p: Params, s1: State, o1: OpId, s2: State, o2: OpId)
    requires Proper(p) && Injective(p.hash)
    requires Reachable(p, s1) && o1 in s1.ops && s1.ops[o1].Streamed?
    requires Reachable(p, s2) && o2 in s2.ops && s2.ops[o2].Streamed?
    ensures s1.ops[o1].etag == s2.ops[o2].etag <==> s1.ops[o1].body == s2.ops[o2].body
  {
    StreamsMatchTheirETag(p, s1, o1);
    StreamsMatchTheirETag(p, s2, o2);
  }

  // ---- Duplicate audio ----

  /** No two rows ever hold the same content hash, and so no two tracks' objects the same audio. */
  lemma NoAudioStoredTwice(p: Params, s: State, t: TrackId, u: TrackId)
    requires Proper(p) && Reachable(p, s) && t in s.rows && u in s.rows && t != u
    requires s.rows[t].key.Some? && s.rows[t].key.value in s.bucket
    requires s.rows[u].key.Some? && s.rows[u].key.value in s.bucket
    ensures s.rows[t].hash != s.rows[u].hash
    ensures s.bucket[s.rows[t].key.value].bytes != s.bucket[s.rows[u].key.value].bytes
  {
    ReachableIsCore(p, s);
    RowsDescribeTheirObjects(p, s, t);
    RowsDescribeTheirObjects(p, s, u);
  }

  /** An upload is refused as a duplicate only when another track's row holds the same bytes. */
  lemma DuplicateMeansSameBytes(p: Params, s: State, o: OpId)
    requires Proper(p) && Reachable(p, s) && Injective(p.hash) && Enabled(p, s, RefuseFile(o, DuplicateAudio))
    ensures s.ops[o].key in s.births
    ensures exists u, k :: && NamedBy(s, u, k) && u != s.ops[o].track
                           && k in s.births && s.births[k].obj.bytes == s.births[s.ops[o].key].obj.bytes
  {
    ReachableIsCore(p, s);
    assert OpOk(p, s, o, s.ops[o]);
    var u :| u in s.rows && u != s.ops[o].track && s.rows[u].hash == Some(s.ops[o].contentHash);
    assert RowOk(p, s, u);
    assert NamedBy(s, u, s.rows[u].key.value);
  }

  // ---- Deleting an artist against uploads ----

  /** When the cascade fires, every key ever recorded for a track the SELECT saw is either collected
      for removal or had been let go of before: displaced by a later upload, or dropped with its row. */
  lemma CascadeCollectsEveryKey(p: Params, s: State, o: OpId, k: Key)
    requires Proper(p) && Reachable(p, s) && Enabled(p, s, CascadeArtist(o))
    requires k.Audio? && k.track in s.ops[o].selected && k in s.life && !s.life[k].Written?
    ensures s.life[k].Named? ==> k in s.ops[o].keys
    ensures k in s.ops[o].keys ==> Spent(Apply(p, s, CascadeArtist(o)), k)
  {
    ReachableIsCore(p, s);
    assert DeletingOk(s, o, s.ops[o]) by { assert OpOk(p, s, o, s.ops[o]); }
    assert NameOk(s, k);
    CollectedAreSpent(p, s, o);
  }

  lemma GoneStaysGone(p: Params, s: State, e: Event, t: TrackId)
    requires Enabled(p, s, e) && t in s.ids && t !in s.rows
    ensures t in Apply(p, s, e).ids && t !in Apply(p, s, e).rows
  {
    if IsCatalogueEvent(e) { NoRowComesBack(p, s, e, t); }
  }

  lemma NoRowComesBack(p: Params, s: State, e: Event, t: TrackId)
    requires Enabled(p, s, e) && IsCatalogueEvent(e) && t in s.ids && t !in s.rows
    ensures t in Apply(p, s, e).ids && t !in Apply(p, s, e).rows
  {
  }

  lemma {:induction false} GoneForever(p: Params, s: State, es: seq<Event>, t: TrackId)
    requires Legal(p, s, es) && t in s.ids && t !in s.rows
    ensures t in Exec(p, s, es).ids && t !in Exec(p, s, es).rows
    decreases |es|
  {
    if es != [] {
      GoneStaysGone(p, s, es[0], t);
      GoneForever(p, Apply(p, s, es[0]), es[1..], t);
    }
  }

  /** After the cascade, in every further run, an upload to one of those tracks can no longer be
      recorded, and the refusal "row missing" is open to it. */
  lemma LateUploadsAreRefused(p: Params, s: State, o: OpId, es: seq<Event>, q: OpId)
    requires Proper(p) && Reachable(p, s) && Enabled(p, s, CascadeArtist(o))
    requires var s1 := Apply(p, s, CascadeArtist(o));
             && Legal(p, s1, es)
             && var s2 := Exec(p, s1, es);
             q in s2.ops && s2.ops[q].Storing? && s2.ops[q].track in s.ops[o].selected
    ensures var s2 := Exec(p, Apply(p, s, CascadeArtist(o)), es);
            !Enabled(p, s2, RecordFile(q)) && Enabled(p, s2, RefuseFile(q, RowMissing))
  {
    ReachableIsCore(p, s);
    var s1 := Apply(p, s, CascadeArtist(o));
    SelectedGo(p, s, o, Exec(p, s1, es).ops[q].track);
    GoneForever(p, s1, es, Exec(p, s1, es).ops[q].track);
  }

  lemma SelectedGo(p: Params, s: State, o: OpId, t: TrackId)
    requires OpsOk(p, s) && Enabled(p, s, CascadeArtist(o)) && t in s.ops[o].selected
    ensures t in Cascade(s, o).ids && t !in Cascade(s, o).rows
  {
    assert OpOk(p, s, o, s.ops[o]);
  }

  /** A row-missing refusal means that the track was there when its upload began and is gone for good. */
  lemma RowMissingMeansDeleted(p: Params, s: State, o: OpId, es: seq<Event>)
    requires Proper(p) && Reachable(p, s) && Enabled(p, s, RefuseFile(o, RowMissing)) && Legal(p, s, es)
    ensures var t := s.ops[o].track; t in s.ids && t !in s.rows && t !in Exec(p, s, es).rows
  {
    ReachableIsCore(p, s);
    assert OpOk(p, s, o, s.ops[o]);
    GoneForever(p, s, es, s.ops[o].track);
  }
}
