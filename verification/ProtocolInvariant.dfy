/** What every event of the protocol keeps, whatever the timing parameters are. */
module ProtocolInvariant {
  import opened Storage
  import opened Protocol
  import opened AudioSniff
  import opened UploadBody
  import SweepSpec

  /** Written by a request that has not yet had its answer from the catalogue. */
  ghost predicate Owned(s: State, k: Key) {
    && k in s.births
    && var o := s.births[k].owner;
    o in s.ops && s.ops[o].Storing? && s.ops[o].key == k
  }

  /** No row names the key and no request is left that could record it. */
  ghost predicate Spent(s: State, k: Key) {
    && k in s.births && k in s.life
    && (s.life[k].Displaced? || s.life[k].Dropped? || (s.life[k].Written? && !Owned(s, k)))
  }

  ghost predicate BirthOk(p: Params, s: State, k: Key) {
    && k in s.births && k.Audio? && k in s.life
    && var b := s.births[k];
    && b.putAt <= s.now && b.putAt - p.skew <= b.obj.stamp <= b.putAt + p.skew
    && |b.obj.bytes| <= p.cap
    && SniffAudio(b.obj.bytes).Some? && SniffAudio(b.obj.bytes).value.ext == k.ext
  }

  ghost predicate HistoryOk(p: Params, s: State) {
    && Proper(p)
    && s.life.Keys == s.births.Keys
    && (forall k :: k in s.births ==> BirthOk(p, s, k))
    && (forall k :: k in s.bucket ==> k in p.covers || (k in s.births && s.bucket[k] == s.births[k].obj))
  }

  /** A row either has no file, or its four file columns all describe one written object. */
  ghost predicate RowOk(p: Params, s: State, t: TrackId) {
    && t in s.rows && t in s.ids
    && var r := s.rows[t];
    match r.key
    case None => r.hash == None
    case Some(k) =>
      && k in s.births && k.Audio? && k.track == t && k in s.life && s.life[k].Named?
      && var bytes := s.births[k].obj.bytes;
      r.hash == Some(p.hash(bytes)) && r.size == |bytes| && |k.ext| > 0 && r.format == k.ext[1..]
  }

  ghost predicate NameOk(s: State, k: Key) {
    k in s.life && s.life[k].Named? ==> k.Audio? && NamedBy(s, k.track, k)
  }

  ghost predicate HashesDiffer(s: State) {
    forall t, u :: t in s.rows && u in s.rows && t != u && s.rows[t].hash.Some? ==> s.rows[t].hash != s.rows[u].hash
  }

  ghost predicate RowsOk(p: Params, s: State) {
    && (forall t :: t in s.rows ==> RowOk(p, s, t))
    && (forall k :: k in s.life ==> NameOk(s, k))
    && HashesDiffer(s)
  }

  ghost predicate Holds(s: State, o: OpId, t: TrackId) {
    o in s.ops && s.ops[o].Deleting? && t in s.ops[o].locked
  }

  ghost predicate LocksOk(s: State) {
    forall t :: t in s.locks ==> Holds(s, s.locks[t], t)
  }

  ghost predicate PastOk(s: State, k: Key) {
    k in s.births && k in s.life && !s.life[k].Written?
  }

  ghost predicate ListingOk(p: Params, s: State, listing: seq<ObjectInfo>) {
    forall x :: x in listing ==>
      x.key in p.covers || (x.key in s.births && x.lastModified == s.births[x.key].obj.stamp)
  }

  ghost predicate CatalogueOk(p: Params, s: State, keys: seq<Key>) {
    && (forall k :: k in p.covers ==> k in keys)
    && (forall k :: k in keys ==> k in p.covers || PastOk(s, k))
  }

  ghost predicate DeletingOk(s: State, o: OpId, d: Op)
    requires d.Deleting?
  {
    && (forall t :: t in d.locked ==>
          && t in s.locks && s.locks[t] == o && t in s.rows && s.rows[t].artist == d.artist
          && (s.rows[t].key.Some? ==> s.rows[t].key.value in d.keys))
    && (forall k :: k in d.keys ==> k.Audio? && k.track in d.locked && NamedBy(s, k.track, k))
    && d.todo <= d.selected
    && (forall t :: t in d.selected ==> t in s.ids && (t in d.todo || t in d.locked || t !in s.rows))
    && (forall t :: t in d.selected && t in s.rows ==> s.rows[t].artist == d.artist)
  }

  ghost predicate OpOk(p: Params, s: State, o: OpId, op: Op) {
    match op
    case Reading(t, prev) => t in s.ids && (prev.Some? ==> prev.value.Audio? && PastOk(s, prev.value) && prev.value.track == t)
    case Storing(t, prev, k, hash, format, size) =>
      && t in s.ids && (prev.Some? ==> prev.value.Audio? && PastOk(s, prev.value) && prev.value.track == t)
      && k.Audio? && k.track == t && Owned(s, k) && s.births[k].owner == o && k in s.life && s.life[k].Written?
      && var bytes := s.births[k].obj.bytes;
      hash == p.hash(bytes) && size == |bytes| && |k.ext| > 0 && format == k.ext[1..]
    case Cleaning(keys) => forall k :: k in keys ==> Spent(s, k)
    case Deleting(_, _, _, _, _) => DeletingOk(s, o, op)
    case Opening(k, etag) => k in s.births && etag == Some(p.hash(s.births[k].obj.bytes))
    case Streamed(k, etag, body) => k in s.births && body == s.births[k].obj.bytes && etag == Some(p.hash(body))
    case Sweep(w) => SweepOk(p, s, w)
  }

  ghost predicate SweepOk(p: Params, s: State, w: SweepState) {
    match w
    case Listing(_, seen) => ListingOk(p, s, seen)
    case Listed(listing) => ListingOk(p, s, listing)
    case Read(listing, keys, readAt) => ListingOk(p, s, listing) && CatalogueOk(p, s, keys) && readAt <= s.now
    case Removing(listing, keys, cutoff, left, d) =>
      && ListingOk(p, s, listing) && CatalogueOk(p, s, keys) && (forall k :: k in left ==> k !in keys && k in s.births)
      && SweepSpec.Tried(d.made) + left == SweepSpec.Deletes(d.dry, listing, keys, cutoff)
    case Statting(listing, keys, cutoff, answers, d) =>
      && ListingOk(p, s, listing) && CatalogueOk(p, s, keys) && |answers| <= |SweepSpec.Unlisted(listing, keys)|
      && SweepSpec.Tried(d.made) == SweepSpec.Deletes(d.dry, listing, keys, cutoff)
    case Swept(listing, keys, cutoff, report, answers, d) =>
      && ListingOk(p, s, listing) && CatalogueOk(p, s, keys)
      && SweepSpec.Tried(d.made) == SweepSpec.Deletes(d.dry, listing, keys, cutoff)
      && |answers| == |SweepSpec.Unlisted(listing, keys)|
      && SweepSpec.ReportOf(listing, keys, cutoff, answers) == report
  }

  ghost predicate OpsOk(p: Params, s: State) {
    forall o :: o in s.ops ==> OpOk(p, s, o, s.ops[o])
  }

  ghost predicate Core(p: Params, s: State) {
    HistoryOk(p, s) && RowsOk(p, s) && LocksOk(s) && OpsOk(p, s)
  }

  // ---- How one event may change the past ----

  ghost predicate LifeMovesOn(a: Life, b: Life) {
    || a == b
    || (a.Written? && b.Named?)
    || (a.Named? && (b.Displaced? || b.Dropped?))
  }

  /** History is only ever added to, and nothing an operation other than `o` relies on moves; `o` is -1 when no
      operation moves. */
  ghost predicate Later(s: State, s': State, o: int) {
    && s.now <= s'.now && s.ids <= s'.ids
    && (forall k :: k in s.births ==> k in s'.births && s'.births[k] == s.births[k])
    && (forall k :: k in s.life ==> k in s'.life && LifeMovesOn(s.life[k], s'.life[k]))
    && (forall k :: Spent(s, k) ==> Spent(s', k))
    && (forall q :: q in s.ops && q != o ==> q in s'.ops && s'.ops[q] == s.ops[q])
    && (forall q :: q in s'.ops && q != o ==> q in s.ops)
    && (forall k :: Owned(s, k) && s.births[k].owner != o && k in s.life && s.life[k].Written? ==> s'.life[k].Written?)
    && (forall t :: t in s.ids && t !in s.rows ==> t !in s'.rows)
    && (forall t :: t in s.rows && t in s'.rows ==> s'.rows[t].artist == s.rows[t].artist)
    && (forall t :: t in s.locks && s.locks[t] != o ==> t in s'.locks && s'.locks[t] == s.locks[t])
    && (forall t :: t in s.locks && s.locks[t] != o && t in s.rows ==> t in s'.rows && s'.rows[t] == s.rows[t])
  }

  lemma ListingKept(p: Params, s: State, s': State, o: int, listing: seq<ObjectInfo>)
    requires Later(s, s', o) && ListingOk(p, s, listing)
    ensures ListingOk(p, s', listing)
  {
  }

  lemma CatalogueKept(p: Params, s: State, s': State, o: int, keys: seq<Key>)
    requires Later(s, s', o) && CatalogueOk(p, s, keys)
    ensures CatalogueOk(p, s', keys)
  {
    forall k | k in keys && k !in p.covers ensures PastOk(s', k) {
      assert PastOk(s, k);
      assert LifeMovesOn(s.life[k], s'.life[k]);
    }
  }

  lemma SweepKept(p: Params, s: State, s': State, o: int, w: SweepState)
    requires Later(s, s', o) && SweepOk(p, s, w)
    ensures SweepOk(p, s', w)
  {
    ListingKept(p, s, s', o, if w.Listing? then w.seen else w.listing);
    if !w.Listing? && !w.Listed? { CatalogueKept(p, s, s', o, w.keys); }
  }

  lemma OtherOpOk(p: Params, s: State, s': State, o: int, q: OpId)
    requires Later(s, s', o) && q in s.ops && q != o && OpOk(p, s, q, s.ops[q])
    ensures OpOk(p, s', q, s.ops[q])
  {
    match s.ops[q]
    case Reading(t, prev) =>
      if prev.Some? { assert LifeMovesOn(s.life[prev.value], s'.life[prev.value]); }
    case Storing(t, prev, k, _, _, _) =>
      if prev.Some? { assert LifeMovesOn(s.life[prev.value], s'.life[prev.value]); }
      assert Owned(s', k);
    case Cleaning(keys) =>
    case Deleting(_, _, _, _, _) => assert DeletingOk(s', q, s.ops[q]);
    case Opening(_, _) =>
    case Streamed(_, _, _) =>
    case Sweep(w) => SweepKept(p, s, s', o, w);
  }

  lemma OthersOk(p: Params, s: State, s': State, o: int)
    requires OpsOk(p, s) && Later(s, s', o)
    requires forall q :: q == o && q in s'.ops ==> OpOk(p, s', q, s'.ops[q])
    ensures OpsOk(p, s')
  {
    forall q | q in s'.ops ensures OpOk(p, s', q, s'.ops[q]) {
      if q != o { OtherOpOk(p, s, s', o, q); }
    }
  }

  // ---- Each event ----

  lemma MoveIsLater(s: State, o: OpId, op: Op)
    requires !op.Storing?
    ensures Later(s, WithOp(s, o, op), o)
  {
    var s' := WithOp(s, o, op);
    forall k | Spent(s, k) ensures Spent(s', k) {
      if Owned(s', k) { assert Owned(s, k); }
    }
  }

  lemma MoveKeepsLocks(s: State, o: OpId, op: Op)
    requires LocksOk(s) && (o in s.ops ==> !s.ops[o].Deleting?)
    ensures LocksOk(WithOp(s, o, op))
  {
    var s' := WithOp(s, o, op);
    forall t | t in s'.locks ensures Holds(s', s'.locks[t], t) { assert Holds(s, s.locks[t], t); }
  }

  lemma HistoryKept(p: Params, s: State, s': State)
    requires HistoryOk(p, s) && s'.births == s.births && s'.life.Keys == s.life.Keys && s.now <= s'.now
    requires forall k :: k in s'.bucket ==> k in s.bucket && s'.bucket[k] == s.bucket[k]
    ensures HistoryOk(p, s')
  {
    forall k | k in s'.births ensures BirthOk(p, s', k) { assert BirthOk(p, s, k); }
  }

  /** Events that change neither the rows nor the history, and at most shrink the bucket. */
  lemma TablesKept(p: Params, s: State, s': State)
    requires HistoryOk(p, s) && RowsOk(p, s)
    requires s'.rows == s.rows && s'.ids == s.ids && s'.births == s.births && s'.life == s.life && s.now <= s'.now
    requires forall k :: k in s'.bucket ==> k in s.bucket && s'.bucket[k] == s.bucket[k]
    ensures HistoryOk(p, s') && RowsOk(p, s')
  {
    HistoryKept(p, s, s');
    forall t | t in s'.rows ensures RowOk(p, s', t) { assert RowOk(p, s, t); }
    forall k | k in s'.life ensures NameOk(s', k) { assert NameOk(s, k); }
  }

  /** An event that only moves one operation's program counter. */
  lemma MoveOp(p: Params, s: State, o: OpId, op: Op)
    requires Core(p, s)
    requires o in s.ops ==> !s.ops[o].Deleting?
    requires !op.Storing?
    requires OpOk(p, WithOp(s, o, op), o, op)
    ensures Core(p, WithOp(s, o, op))
  {
    MoveIsLater(s, o, op);
    MoveKeepsLocks(s, o, op);
    TablesKept(p, s, WithOp(s, o, op));
    OthersOk(p, s, WithOp(s, o, op), o);
  }

  lemma BeginUploadOk(p: Params, s: State, o: OpId, t: TrackId)
    requires Core(p, s) && Enabled(p, s, BeginUpload(o, t))
    ensures Core(p, Apply(p, s, BeginUpload(o, t)))
  {
    assert RowOk(p, s, t);
    MoveOp(p, s, o, Reading(t, s.rows[t].key));
  }

  lemma OpenStreamOk(p: Params, s: State, o: OpId, t: TrackId)
    requires Core(p, s) && Enabled(p, s, OpenStream(o, t))
    ensures Core(p, Apply(p, s, OpenStream(o, t)))
  {
    assert RowOk(p, s, t);
    MoveOp(p, s, o, Opening(s.rows[t].key.value, s.rows[t].hash));
  }

  lemma FetchStreamOk(p: Params, s: State, o: OpId)
    requires Core(p, s) && Enabled(p, s, FetchStream(o))
    ensures Core(p, Apply(p, s, FetchStream(o)))
  {
    assert OpOk(p, s, o, s.ops[o]);
    MoveOp(p, s, o, Apply(p, s, FetchStream(o)).ops[o]);
  }

  lemma RefuseFileOk(p: Params, s: State, o: OpId, why: Refusal)
    requires Core(p, s) && Enabled(p, s, RefuseFile(o, why))
    ensures Core(p, Apply(p, s, RefuseFile(o, why)))
  {
    var k := s.ops[o].key;
    assert OpOk(p, s, o, s.ops[o]);
    assert Spent(WithOp(s, o, Cleaning([k])), k);
    MoveOp(p, s, o, Cleaning([k]));
  }

  lemma FailRemoveOk(p: Params, s: State, o: OpId)
    requires Core(p, s) && Enabled(p, s, FailRemove(o))
    ensures Core(p, Apply(p, s, FailRemove(o)))
  {
    assert OpOk(p, s, o, s.ops[o]);
    MoveIsLater(s, o, Cleaning(s.ops[o].keys[1..]));
    MoveOp(p, s, o, Cleaning(s.ops[o].keys[1..]));
  }

  lemma SelectTracksOk(p: Params, s: State, o: OpId, a: ArtistId)
    requires Core(p, s) && Enabled(p, s, SelectTracks(o, a))
    ensures Core(p, Apply(p, s, SelectTracks(o, a)))
  {
    var ts := TracksOf(s, a);
    var op := Deleting(a, ts, ts, {}, []);
    forall t | t in ts ensures t in s.ids { assert RowOk(p, s, t); }
    MoveOp(p, s, o, op);
  }

  lemma BucketShrinks(p: Params, s: State, k: Key)
    requires Core(p, s)
    ensures Core(p, s.(bucket := s.bucket - {k}))
  {
    var s' := s.(bucket := s.bucket - {k});
    TablesKept(p, s, s');
    LocksKept(s, s', -1);
    assert forall k :: Owned(s', k) ==> Owned(s, k);
    OthersOk(p, s, s', -1);
  }

  lemma RemoveObjectOk(p: Params, s: State, o: OpId)
    requires Core(p, s) && Enabled(p, s, RemoveObject(o))
    ensures Core(p, Apply(p, s, RemoveObject(o)))
  {
    var s1 := s.(bucket := s.bucket - {s.ops[o].keys[0]});
    BucketShrinks(p, s, s.ops[o].keys[0]);
    assert Enabled(p, s1, FailRemove(o));
    FailRemoveOk(p, s1, o);
  }

  /** Every key the catalogue query returns was put there by an upload. */
  lemma NamedArePast(p: Params, s: State, keys: seq<Key>)
    requires RowsOk(p, s) && multiset(keys) == multiset(NamedKeys(s))
    ensures forall k :: k in keys <==> k in NamedKeys(s)
    ensures forall k :: k in keys ==> PastOk(s, k) && k.Audio? && NamedBy(s, k.track, k)
  {
    forall k ensures k in keys <==> k in NamedKeys(s) {
      assert k in keys <==> k in multiset(keys);
    }
    forall k | k in keys ensures PastOk(s, k) && k.Audio? && NamedBy(s, k.track, k) {
      var t :| t in s.rows && s.rows[t].key == Some(k);
      assert RowOk(p, s, t);
    }
  }

  lemma PickedKeys(listing: seq<ObjectInfo>, keys: seq<Key>, cutoff: Time, v: SweepSpec.Verdict)
    ensures forall k :: k in SweepSpec.Pick(listing, keys, cutoff, v) <==>
              exists i :: 0 <= i < |listing| && listing[i].key == k && SweepSpec.Judge(listing[i], keys, cutoff) == v
  {
    if listing != [] {
      PickedKeys(listing[..|listing| - 1], keys, cutoff, v);
    }
  }

  lemma SweepNextOk(p: Params, s: State, w: SweepState, step: SweepStep)
    requires HistoryOk(p, s) && RowsOk(p, s) && SweepOk(p, s, w) && SweepEnabled(p, s, w, step)
    ensures SweepOk(p, s, SweepNext(p, s, w, step))
  {
    match step
    case ReadCatalogue(keys) => NamedArePast(p, s, keys);
    case TakeCutoff(dry) => PickedKeys(w.listing, w.keys, s.now - p.grace, SweepSpec.Orphan);
    case ListObject(k) => ListedOk(p, s, w, k);
    case EndListing =>
    case _ => SweepTailOk(p, s, w, step);
  }

  lemma SweepTailOk(p: Params, s: State, w: SweepState, step: SweepStep)
    requires SweepOk(p, s, w) && SweepEnabled(p, s, w, step)
    requires step.Remove? || step.EndRemoving? || step.Stat? || step.Finish?
    ensures SweepOk(p, s, SweepNext(p, s, w, step))
  {
  }

  lemma ListedOk(p: Params, s: State, w: SweepState, k: Key)
    requires HistoryOk(p, s) && w.Listing? && ListingOk(p, s, w.seen) && k in s.bucket
    ensures ListingOk(p, s, w.seen + [ObjectInfo(k, s.bucket[k].stamp)])
  {
  }

  lemma SweepOkIgnoresBucket(p: Params, s: State, s': State, w: SweepState)
    requires s'.births == s.births && s'.life == s.life && s'.now == s.now && SweepOk(p, s, w)
    ensures SweepOk(p, s', w)
  {
    assert forall k :: PastOk(s, k) ==> PastOk(s', k);
  }

  lemma BeginSweepOk(p: Params, s: State, o: OpId)
    requires Core(p, s) && Enabled(p, s, BeginSweep(o))
    ensures Core(p, Apply(p, s, BeginSweep(o)))
  {
    MoveOp(p, s, o, Sweep(Listing(s.bucket.Keys, [])));
  }

  lemma SweepMovesOk(p: Params, s: State, o: OpId, step: SweepStep)
    requires Core(p, s) && Enabled(p, s, SweepMoves(o, step))
    ensures Core(p, Apply(p, s, SweepMoves(o, step)))
  {
    var w := s.ops[o].sweep;
    var w' := SweepNext(p, s, w, step);
    assert SweepOk(p, s, w) by { assert OpOk(p, s, o, s.ops[o]); }
    SweepNextOk(p, s, w, step);
    var s1 := SweepEffect(s, w, step);
    SweepEffectOk(p, s, w, step);
    SweepOkIgnoresBucket(p, s, WithOp(s1, o, Sweep(w')), w');
    MoveOp(p, s1, o, Sweep(w'));
  }

  lemma SweepEffectOk(p: Params, s: State, w: SweepState, step: SweepStep)
    requires Core(p, s)
    ensures var s1 := SweepEffect(s, w, step);
            Core(p, s1) && s1.births == s.births && s1.life == s.life && s1.now == s.now && s1.ops == s.ops
  {
    var s1 := SweepEffect(s, w, step);
    if s1 != s { BucketShrinks(p, s, w.left[0]); }
  }

  lemma WithoutIsLater(s: State, o: OpId)
    ensures Later(s, WithoutOp(s, o), o)
  {
    var s' := WithoutOp(s, o);
    forall k | Spent(s, k) ensures Spent(s', k) {
      if Owned(s', k) { assert Owned(s, k); }
    }
  }

  lemma WithoutOpOk(p: Params, s: State, o: OpId)
    requires Core(p, s) && o in s.ops
    ensures Core(p, WithoutOp(s, o))
  {
    var s' := WithoutOp(s, o);
    TablesKept(p, s, s');
    assert LocksOk(s') by {
      forall t | t in s'.locks ensures Holds(s', s'.locks[t], t) { assert Holds(s, s.locks[t], t); }
    }
    WithoutIsLater(s, o);
    OthersOk(p, s, s', o);
  }

  lemma TickOk(p: Params, s: State, span: nat, s': State)
    requires Core(p, s) && s' == s.(now := s.now + span)
    ensures Core(p, s')
  {
    TablesKept(p, s, s');
    forall t | t in s'.locks ensures Holds(s', s'.locks[t], t) { assert Holds(s, s.locks[t], t); }
    assert forall k :: Owned(s', k) ==> Owned(s, k);
    OthersOk(p, s, s', -1);
  }

  lemma CreateArtistOk(p: Params, s: State, a: ArtistId)
    requires Core(p, s)
    ensures Core(p, s.(artists := s.artists + {a}))
  {
    var s' := s.(artists := s.artists + {a});
    TablesKept(p, s, s');
    forall t | t in s'.locks ensures Holds(s', s'.locks[t], t) { assert Holds(s, s.locks[t], t); }
    assert forall k :: Owned(s', k) ==> Owned(s, k);
    OthersOk(p, s, s', -1);
  }

  /** Locks are taken and given up one operation at a time. */
  lemma LocksKept(s: State, s': State, o: int)
    requires LocksOk(s)
    requires forall q :: q in s.ops && q != o ==> q in s'.ops && s'.ops[q] == s.ops[q]
    requires forall t :: t in s'.locks ==> (t in s.locks && s.locks[t] == s'.locks[t] != o) || (s'.locks[t] == o && Holds(s', s'.locks[t], t))
    ensures LocksOk(s')
  {
    forall t | t in s'.locks ensures Holds(s', s'.locks[t], t) {
      if s'.locks[t] != o { assert Holds(s, s.locks[t], t); }
    }
  }

  lemma CreateTrackTables(p: Params, s: State, t: TrackId, a: ArtistId, format: string, size: int)
    requires HistoryOk(p, s) && RowsOk(p, s) && t !in s.ids
    ensures var s' := s.(rows := s.rows[t := Row(a, None, None, format, size)], ids := s.ids + {t});
            t !in s.rows && HistoryOk(p, s') && RowsOk(p, s')
  {
    var s' := s.(rows := s.rows[t := Row(a, None, None, format, size)], ids := s.ids + {t});
    HistoryKept(p, s, s');
    assert t in s.rows ==> RowOk(p, s, t);
    forall u | u in s'.rows ensures RowOk(p, s', u) { if u != t { assert RowOk(p, s, u); } }
    forall k | k in s'.life ensures NameOk(s', k) { assert NameOk(s, k); }
  }

  lemma CreateTrackLater(s: State, t: TrackId, row: Row)
    requires t !in s.ids && t !in s.rows
    ensures Later(s, s.(rows := s.rows[t := row], ids := s.ids + {t}), -1)
  {
    var s' := s.(rows := s.rows[t := row], ids := s.ids + {t});
    forall k | Spent(s, k) ensures Spent(s', k) {
      if Owned(s', k) { assert Owned(s, k); }
    }
  }

  lemma CreateTrackOk(p: Params, s: State, t: TrackId, a: ArtistId, format: string, size: int)
    requires Core(p, s) && Enabled(p, s, CreateTrack(t, a, format, size))
    ensures Core(p, Apply(p, s, CreateTrack(t, a, format, size)))
  {
    var row := Row(a, None, None, format, size);
    var s' := s.(rows := s.rows[t := row], ids := s.ids + {t});
    CreateTrackTables(p, s, t, a, format, size);
    CreateTrackLater(s, t, row);
    LocksKept(s, s', -1);
    OthersOk(p, s, s', -1);
  }

  lemma StoreIsLater(p: Params, s: State, o: OpId, suffix: nat, declared: int, body: Bytes, stamp: Time)
    requires s.life.Keys == s.births.Keys
    requires Enabled(p, s, StoreObject(o, suffix, declared, body, stamp))
    ensures Later(s, Store(p, s, o, suffix, declared, body, stamp), o)
  {
    var s' := Store(p, s, o, suffix, declared, body, stamp);
    forall k | Spent(s, k) ensures Spent(s', k) {
      if Owned(s', k) { assert Owned(s, k); }
    }
  }

  lemma StoreBirths(p: Params, s: State, o: OpId, suffix: nat, declared: int, body: Bytes, stamp: Time)
    requires HistoryOk(p, s) && Enabled(p, s, StoreObject(o, suffix, declared, body, stamp))
    ensures HistoryOk(p, Store(p, s, o, suffix, declared, body, stamp))
  {
    var s' := Store(p, s, o, suffix, declared, body, stamp);
    var key := s'.ops[o].key;
    StoredMetadataDescribesContent(declared, p.cap, body, Complete, p.hash);
    forall k | k in s'.births ensures BirthOk(p, s', k) { if k != key { assert BirthOk(p, s, k); } }
  }

  lemma StoreTables(p: Params, s: State, o: OpId, suffix: nat, declared: int, body: Bytes, stamp: Time)
    requires HistoryOk(p, s) && RowsOk(p, s) && Enabled(p, s, StoreObject(o, suffix, declared, body, stamp))
    ensures var s' := Store(p, s, o, suffix, declared, body, stamp); HistoryOk(p, s') && RowsOk(p, s')
  {
    var s' := Store(p, s, o, suffix, declared, body, stamp);
    var key := s'.ops[o].key;
    StoreBirths(p, s, o, suffix, declared, body, stamp);
    forall t | t in s'.rows ensures RowOk(p, s', t) { assert RowOk(p, s, t); }
    forall k | k in s'.life ensures NameOk(s', k) { if k != key { assert NameOk(s, k); } }
  }

  lemma StoreOk(p: Params, s: State, o: OpId, suffix: nat, declared: int, body: Bytes, stamp: Time)
    requires Core(p, s) && Enabled(p, s, StoreObject(o, suffix, declared, body, stamp))
    ensures Core(p, Store(p, s, o, suffix, declared, body, stamp))
  {
    var s' := Store(p, s, o, suffix, declared, body, stamp);
    StoreIsLater(p, s, o, suffix, declared, body, stamp);
    StoreTables(p, s, o, suffix, declared, body, stamp);
    assert OpOk(p, s, o, s.ops[o]);
    forall u | u in s.locks ensures s.locks[u] != o { assert Holds(s, s.locks[u], u); }
    LocksKept(s, s', o);
    StoringOk(p, s, o, suffix, declared, body, stamp);
    OthersOk(p, s, s', o);
  }

  lemma StoringOk(p: Params, s: State, o: OpId, suffix: nat, declared: int, body: Bytes, stamp: Time)
    requires HistoryOk(p, s) && Enabled(p, s, StoreObject(o, suffix, declared, body, stamp))
    requires OpOk(p, s, o, s.ops[o])
    ensures var s' := Store(p, s, o, suffix, declared, body, stamp); OpOk(p, s', o, s'.ops[o])
  {
    StoredMetadataDescribesContent(declared, p.cap, body, Complete, p.hash);
    StoreIsLater(p, s, o, suffix, declared, body, stamp);
  }

  // ---- SetTrackFile ----

  ghost predicate RecordReady(s: State, o: OpId) {
    && o in s.ops && s.ops[o].Storing?
    && var u := s.ops[o];
    && u.track in s.rows && u.track !in s.locks && u.track in s.ids
    && u.key.Audio? && u.key.track == u.track && Owned(s, u.key) && s.births[u.key].owner == o
    && u.key in s.life && s.life[u.key].Written?
    && (s.rows[u.track].key.Some? ==>
          var c := s.rows[u.track].key.value; c.Audio? && c.track == u.track && c in s.life && s.life[c].Named?)
  }

  lemma RecordIsReady(p: Params, s: State, o: OpId)
    requires OpsOk(p, s) && RowsOk(p, s) && Enabled(p, s, RecordFile(o))
    ensures RecordReady(s, o) && OpOk(p, s, o, s.ops[o])
  {
    assert OpOk(p, s, o, s.ops[o]);
    assert RowOk(p, s, s.ops[o].track);
  }

  lemma RecordLater(s: State, o: OpId)
    requires RecordReady(s, o)
    ensures Later(s, Record(s, o), o)
  {
    var s' := Record(s, o);
    forall k | Spent(s, k) ensures Spent(s', k) {
      if Owned(s', k) { assert Owned(s, k); }
    }
  }

  lemma RecordRows(p: Params, s: State, o: OpId)
    requires RowsOk(p, s) && RecordReady(s, o) && OpOk(p, s, o, s.ops[o])
    ensures forall t :: t in Record(s, o).rows ==> RowOk(p, Record(s, o), t)
  {
    var s' := Record(s, o);
    forall t | t in s'.rows ensures RowOk(p, s', t) { assert RowOk(p, s, t); }
  }

  lemma RecordTables(p: Params, s: State, o: OpId)
    requires HistoryOk(p, s) && RowsOk(p, s) && RecordReady(s, o) && OpOk(p, s, o, s.ops[o])
    requires !HashTakenByAnother(s.rows, s.ops[o].track, s.ops[o].contentHash)
    ensures HistoryOk(p, Record(s, o)) && RowsOk(p, Record(s, o))
  {
    var s' := Record(s, o);
    HistoryKept(p, s, s');
    RecordHashes(s, o);
    RecordRows(p, s, o);
    RecordNames(s, o);
  }

  lemma RecordHashes(s: State, o: OpId)
    requires RecordReady(s, o) && HashesDiffer(s) && !HashTakenByAnother(s.rows, s.ops[o].track, s.ops[o].contentHash)
    ensures HashesDiffer(Record(s, o))
  {
  }

  lemma RecordNames(s: State, o: OpId)
    requires RecordReady(s, o) && forall k :: k in s.life ==> NameOk(s, k)
    ensures forall k :: k in Record(s, o).life ==> NameOk(Record(s, o), k)
  {
    var s' := Record(s, o);
    forall k | k in s'.life ensures NameOk(s', k) { if k != s.ops[o].key { assert NameOk(s, k); } }
  }

  /** What the request goes on to remove is the key it read at its start: an earlier key of the
      same row, which the row has now certainly let go of. */
  lemma PreviousIsSpent(p: Params, s: State, o: OpId)
    requires RecordReady(s, o) && OpOk(p, s, o, s.ops[o])
    requires forall k :: k in s.life ==> NameOk(s, k)
    ensures var prev := s.ops[o].previous; prev.Some? ==> Spent(Record(s, o), prev.value)
  {
    var prev := s.ops[o].previous;
    if prev.Some? {
      assert PastOk(s, prev.value) && NameOk(s, prev.value);
    }
  }

  lemma RecordLocks(s: State, o: OpId)
    requires LocksOk(s) && RecordReady(s, o)
    ensures LocksOk(Record(s, o))
  {
    forall u | u in s.locks ensures s.locks[u] != o { assert Holds(s, s.locks[u], u); }
    LocksKept(s, Record(s, o), o);
  }

  lemma RecordOps(p: Params, s: State, o: OpId)
    requires OpsOk(p, s) && RecordReady(s, o)
    requires forall k :: k in s.life ==> NameOk(s, k)
    ensures OpsOk(p, Record(s, o))
  {
    assert OpOk(p, s, o, s.ops[o]);
    RecordLater(s, o);
    PreviousIsSpent(p, s, o);
    OthersOk(p, s, Record(s, o), o);
  }

  lemma RecordOk(p: Params, s: State, o: OpId)
    requires Core(p, s) && Enabled(p, s, RecordFile(o))
    ensures Core(p, Record(s, o))
  {
    RecordIsReady(p, s, o);
    RecordTables(p, s, o);
    RecordLocks(s, o);
    RecordOps(p, s, o);
  }

  // ---- Deleting rows ----

  ghost predicate Unlocked(s: State, ts: set<TrackId>, o: int) {
    forall t :: t in ts && t in s.locks ==> s.locks[t] == o
  }

  lemma DroppedWereNamed(p: Params, s: State, ts: set<TrackId>)
    requires RowsOk(p, s)
    ensures forall t :: t in ts && t in s.rows && s.rows[t].key.Some? ==> PastOk(s, s.rows[t].key.value) && s.life[s.rows[t].key.value].Named?
  {
    forall t | t in ts && t in s.rows && s.rows[t].key.Some?
      ensures PastOk(s, s.rows[t].key.value) && s.life[s.rows[t].key.value].Named?
    {
      assert RowOk(p, s, t);
    }
  }

  lemma DropRowsLater(s: State, ts: set<TrackId>, o: int)
    requires Unlocked(s, ts, o)
    requires forall t :: t in ts && t in s.rows && s.rows[t].key.Some? ==> PastOk(s, s.rows[t].key.value) && s.life[s.rows[t].key.value].Named?
    ensures Later(s, DropRows(s, ts), o)
  {
    var s' := DropRows(s, ts);
    forall k | Spent(s, k) ensures Spent(s', k) {
      if Owned(s', k) { assert Owned(s, k); }
    }
  }

  lemma DropRowsTables(p: Params, s: State, ts: set<TrackId>)
    requires HistoryOk(p, s) && RowsOk(p, s)
    ensures HistoryOk(p, DropRows(s, ts)) && RowsOk(p, DropRows(s, ts))
  {
    var s' := DropRows(s, ts);
    HistoryKept(p, s, s');
    forall t | t in s'.rows ensures RowOk(p, s', t) { assert RowOk(p, s, t); }
    forall k | k in s'.life ensures NameOk(s', k) { assert NameOk(s, k); }
  }

  lemma DroppedAreSpent(p: Params, s: State, ts: set<TrackId>)
    requires RowsOk(p, s)
    ensures forall t :: t in ts && t in s.rows && s.rows[t].key.Some? ==> Spent(DropRows(s, ts), s.rows[t].key.value)
  {
    forall t | t in ts && t in s.rows && s.rows[t].key.Some? ensures Spent(DropRows(s, ts), s.rows[t].key.value) {
      assert RowOk(p, s, t);
    }
  }

  lemma DeleteRowsOk(p: Params, s: State, ts: set<TrackId>)
    requires Core(p, s) && Unlocked(s, ts, -1)
    ensures Core(p, DropRows(s, ts))
  {
    var s' := DropRows(s, ts);
    DroppedWereNamed(p, s, ts);
    DropRowsLater(s, ts, -1);
    DropRowsTables(p, s, ts);
    LocksKept(s, s', -1);
    OthersOk(p, s, s', -1);
  }

  lemma DeletedIsSpent(p: Params, s: State, t: TrackId)
    requires RowsOk(p, s) && t in s.rows
    ensures forall k :: k in ToRemove(s.rows[t].key) ==> Spent(DropRows(s, {t}), k)
  {
    DroppedAreSpent(p, s, {t});
    assert t in {t};
  }

  lemma DeleteTrackOk(p: Params, s: State, o: OpId, t: TrackId)
    requires Core(p, s) && Enabled(p, s, DeleteTrack(o, t))
    ensures Core(p, Apply(p, s, DeleteTrack(o, t)))
  {
    var op := Cleaning(ToRemove(s.rows[t].key));
    DeleteRowsOk(p, s, {t});
    DeletedIsSpent(p, s, t);
    MoveIsLater(DropRows(s, {t}), o, op);
    MoveOp(p, DropRows(s, {t}), o, op);
  }

  lemma LockSparesTables(s: State, o: OpId, t: TrackId)
    requires o in s.ops && s.ops[o].Deleting?
    ensures var s' := Lock(s, o, t);
      && s'.rows == s.rows && s'.ids == s.ids && s'.births == s.births && s'.life == s.life && s'.now == s.now
      && s'.bucket == s.bucket && s'.ops == s.ops[o := s'.ops[o]]
  {
  }

  lemma LockLater(s: State, o: OpId, t: TrackId)
    requires o in s.ops && s.ops[o].Deleting? && t !in s.locks
    ensures Later(s, Lock(s, o, t), o)
  {
    var s' := Lock(s, o, t);
    LockSparesTables(s, o, t);
    assert forall k :: Owned(s', k) ==> Owned(s, k);
  }

  lemma LockDeleting(p: Params, s: State, o: OpId, t: TrackId)
    requires o in s.ops && s.ops[o].Deleting? && DeletingOk(s, o, s.ops[o])
    requires t in s.ops[o].todo && t !in s.locks && (t in s.rows ==> RowOk(p, s, t))
    ensures DeletingOk(Lock(s, o, t), o, Lock(s, o, t).ops[o])
  {
    var d := Lock(s, o, t).ops[o];
    assert forall k :: k in s.ops[o].keys ==> k in d.keys;
    if t in s.rows && s.rows[t].key.Some? {
      assert d.keys[|d.keys| - 1] == s.rows[t].key.value;
    }
  }

  lemma LockLocks(s: State, o: OpId, t: TrackId)
    requires LocksOk(s) && o in s.ops && s.ops[o].Deleting? && t !in s.locks
    ensures LocksOk(Lock(s, o, t))
  {
    var s' := Lock(s, o, t);
    forall u | u in s'.locks ensures Holds(s', s'.locks[u], u) { if u in s.locks { assert Holds(s, s.locks[u], u); } }
  }

  lemma LockedOk(p: Params, s: State, o: OpId, t: TrackId)
    requires OpsOk(p, s) && RowsOk(p, s) && Enabled(p, s, LockTrack(o, t))
    ensures OpOk(p, Lock(s, o, t), o, Lock(s, o, t).ops[o])
  {
    assert OpOk(p, s, o, s.ops[o]) && (t in s.rows ==> RowOk(p, s, t));
    LockDeleting(p, s, o, t);
  }

  lemma LockTables(p: Params, s: State, o: OpId, t: TrackId)
    requires HistoryOk(p, s) && RowsOk(p, s) && o in s.ops && s.ops[o].Deleting?
    ensures HistoryOk(p, Lock(s, o, t)) && RowsOk(p, Lock(s, o, t))
  {
    LockSparesTables(s, o, t);
    TablesKept(p, s, Lock(s, o, t));
  }

  lemma LockTrackOk(p: Params, s: State, o: OpId, t: TrackId)
    requires Core(p, s) && Enabled(p, s, LockTrack(o, t))
    ensures Core(p, Lock(s, o, t))
  {
    var s' := Lock(s, o, t);
    LockLater(s, o, t);
    LockedOk(p, s, o, t);
    LockTables(p, s, o, t);
    LockLocks(s, o, t);
    OthersOk(p, s, s', o);
  }

  // ---- The artist cascade ----

  lemma CascadeLater(p: Params, s: State, o: OpId)
    requires RowsOk(p, s) && Enabled(p, s, CascadeArtist(o))
    ensures Later(s, Cascade(s, o), o)
  {
    var ts := TracksOf(s, s.ops[o].artist);
    var s1 := DropRows(s, ts);
    var s' := Cascade(s, o);
    DroppedWereNamed(p, s, ts);
    DropRowsLater(s, ts, o);
    forall k | Spent(s, k) ensures Spent(s', k) {
      assert Spent(s1, k);
      if Owned(s', k) { assert Owned(s1, k); }
    }
  }

  /** Every collected key was still the key of a locked row when the cascade took the row away. */
  lemma CollectedAreSpent(p: Params, s: State, o: OpId)
    requires RowsOk(p, s) && o in s.ops && s.ops[o].Deleting? && DeletingOk(s, o, s.ops[o])
    ensures forall k :: k in s.ops[o].keys ==> Spent(Cascade(s, o), k)
  {
    var ts := TracksOf(s, s.ops[o].artist);
    DroppedAreSpent(p, s, ts);
    forall k | k in s.ops[o].keys ensures Spent(Cascade(s, o), k) {
      assert k.track in ts && NamedBy(s, k.track, k);
      SpentThroughCascade(s, o, k);
    }
  }

  lemma SpentThroughCascade(s: State, o: OpId, k: Key)
    requires o in s.ops && s.ops[o].Deleting? && Spent(DropRows(s, TracksOf(s, s.ops[o].artist)), k)
    ensures Spent(Cascade(s, o), k)
  {
  }

  lemma CascadeTables(p: Params, s: State, o: OpId)
    requires HistoryOk(p, s) && RowsOk(p, s) && o in s.ops && s.ops[o].Deleting?
    ensures HistoryOk(p, Cascade(s, o)) && RowsOk(p, Cascade(s, o))
  {
    var ts := TracksOf(s, s.ops[o].artist);
    DropRowsTables(p, s, ts);
    TablesKept(p, DropRows(s, ts), Cascade(s, o));
  }

  lemma CascadeOk(p: Params, s: State, o: OpId)
    requires Core(p, s) && Enabled(p, s, CascadeArtist(o))
    ensures Core(p, Cascade(s, o))
  {
    var s' := Cascade(s, o);
    assert OpOk(p, s, o, s.ops[o]);
    CascadeTables(p, s, o);
    LocksKept(s, s', o);
    assert OpsOk(p, s') by {
      CascadeLater(p, s, o);
      CollectedAreSpent(p, s, o);
      OthersOk(p, s, s', o);
    }
  }

  // ---- Who an event moves ----

  /** The operation an event belongs to, or -1. */
  function Actor(e: Event): int {
    if e.Tick? || e.CreateArtist? || e.CreateTrack? then -1 else e.op
  }

  predicate IsUploadEvent(e: Event) {
    e.BeginUpload? || e.StoreObject? || e.RecordFile? || e.RefuseFile? || e.RemoveObject? || e.FailRemove?
  }

  predicate IsCatalogueEvent(e: Event) {
    e.CreateArtist? || e.CreateTrack? || e.DeleteTrack? || e.SelectTracks? || e.LockTrack? || e.CascadeArtist?
  }

  ghost predicate OthersStand(s: State, s': State, o: int) {
    && (forall q :: q in s.ops && q != o ==> q in s'.ops && s'.ops[q] == s.ops[q])
    && (forall q :: q in s'.ops && q != o ==> q in s.ops)
  }

  lemma UploadMovesOne(p: Params, s: State, e: Event)
    requires Enabled(p, s, e) && IsUploadEvent(e)
    ensures OthersStand(s, Apply(p, s, e), e.op)
  {
  }

  lemma CatalogueMovesOne(p: Params, s: State, e: Event)
    requires Enabled(p, s, e) && IsCatalogueEvent(e)
    ensures OthersStand(s, Apply(p, s, e), Actor(e))
  {
  }

  lemma OtherMovesOne(p: Params, s: State, e: Event)
    requires Enabled(p, s, e) && !IsUploadEvent(e) && !IsCatalogueEvent(e)
    ensures OthersStand(s, Apply(p, s, e), Actor(e))
  {
  }

  lemma OnlyActorMoves(p: Params, s: State, e: Event)
    requires Enabled(p, s, e)
    ensures OthersStand(s, Apply(p, s, e), Actor(e))
  {
    if IsUploadEvent(e) { UploadMovesOne(p, s, e); }
    else if IsCatalogueEvent(e) { CatalogueMovesOne(p, s, e); }
    else { OtherMovesOne(p, s, e); }
  }

  // ---- Any event, any run ----

  lemma InitCore(p: Params, s: State)
    requires Proper(p) && Init(p, s)
    ensures Core(p, s)
  {
  }

  lemma StreamStepKeepsCore(p: Params, s: State, e: Event)
    requires Core(p, s) && Enabled(p, s, e)
    requires e.OpenStream? || e.FetchStream?
    ensures Core(p, Apply(p, s, e))
  {
    match e
    case OpenStream(o, t) => OpenStreamOk(p, s, o, t);
    case FetchStream(o) => FetchStreamOk(p, s, o);
  }

  lemma CleanupStepKeepsCore(p: Params, s: State, e: Event)
    requires Core(p, s) && Enabled(p, s, e)
    requires e.RefuseFile? || e.RemoveObject? || e.FailRemove?
    ensures Core(p, Apply(p, s, e))
  {
    match e
    case RefuseFile(o, why) => RefuseFileOk(p, s, o, why);
    case RemoveObject(o) => RemoveObjectOk(p, s, o);
    case FailRemove(o) => FailRemoveOk(p, s, o);
  }

  lemma UploadStepKeepsCore(p: Params, s: State, e: Event)
    requires Core(p, s) && Enabled(p, s, e)
    requires e.BeginUpload? || e.StoreObject? || e.RecordFile?
    ensures Core(p, Apply(p, s, e))
  {
    match e
    case BeginUpload(o, t) => BeginUploadOk(p, s, o, t);
    case StoreObject(o, suffix, declared, body, stamp) => StoreOk(p, s, o, suffix, declared, body, stamp);
    case RecordFile(o) => RecordOk(p, s, o);
  }

  lemma CatalogueStepKeepsCore(p: Params, s: State, e: Event)
    requires Core(p, s) && Enabled(p, s, e)
    requires IsCatalogueEvent(e)
    ensures Core(p, Apply(p, s, e))
  {
    match e
    case CreateArtist(a) => CreateArtistOk(p, s, a);
    case CreateTrack(t, a, format, size) => CreateTrackOk(p, s, t, a, format, size);
    case DeleteTrack(o, t) => DeleteTrackOk(p, s, o, t);
    case SelectTracks(o, a) => SelectTracksOk(p, s, o, a);
    case LockTrack(o, t) => LockTrackOk(p, s, o, t);
    case CascadeArtist(o) => CascadeOk(p, s, o);
  }

  lemma EndStepKeepsCore(p: Params, s: State, e: Event)
    requires Core(p, s) && Enabled(p, s, e)
    requires e.EndRequest? || e.RollBack? || e.Crash?
    ensures Core(p, Apply(p, s, e))
  {
    assert Apply(p, s, e) == WithoutOp(s, e.op);
    WithoutOpOk(p, s, e.op);
  }

  lemma SweepStepKeepsCore(p: Params, s: State, e: Event)
    requires Core(p, s) && Enabled(p, s, e)
    requires e.BeginSweep? || e.SweepMoves?
    ensures Core(p, Apply(p, s, e))
  {
    match e
    case BeginSweep(o) => BeginSweepOk(p, s, o);
    case SweepMoves(o, step) => SweepMovesOk(p, s, o, step);
  }

  lemma TickKeepsCore(p: Params, s: State, e: Event)
    requires Core(p, s) && e.Tick?
    ensures Core(p, Apply(p, s, e))
  {
    TickOk(p, s, e.span, Apply(p, s, e));
  }

  lemma StepKeepsCore(p: Params, s: State, e: Event)
    requires Core(p, s) && Enabled(p, s, e)
    ensures Core(p, Apply(p, s, e))
  {
    if e.EndRequest? || e.RollBack? || e.Crash? {
      EndStepKeepsCore(p, s, e);
    } else if e.Tick? {
      TickKeepsCore(p, s, e);
    } else if e.BeginSweep? || e.SweepMoves? {
      SweepStepKeepsCore(p, s, e);
    } else if IsCatalogueEvent(e) {
      CatalogueStepKeepsCore(p, s, e);
    } else if e.OpenStream? || e.FetchStream? {
      StreamStepKeepsCore(p, s, e);
    } else if e.RefuseFile? || e.RemoveObject? || e.FailRemove? {
      CleanupStepKeepsCore(p, s, e);
    } else {
      UploadStepKeepsCore(p, s, e);
    }
  }

  lemma {:induction false} RunKeepsCore(p: Params, s: State, es: seq<Event>)
    requires Core(p, s) && Legal(p, s, es)
    ensures Core(p, Exec(p, s, es))
    decreases |es|
  {
    if es != [] {
      StepKeepsCore(p, s, es[0]);
      RunKeepsCore(p, Apply(p, s, es[0]), es[1..]);
    }
  }

  lemma ReachableIsCore(p: Params, s: State)
    requires Proper(p) && Reachable(p, s)
    ensures Core(p, s)
  {
    var s0, es :| Init(p, s0) && Legal(p, s0, es) && Exec(p, s0, es) == s;
    InitCore(p, s0);
    RunKeepsCore(p, s0, es);
  }
}
