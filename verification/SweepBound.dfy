/** The sweep's timing bound is exact: wherever it fails, some run leaves a row without its object. */
module SweepBound {
  import opened Storage
  import opened Protocol
  import opened ProtocolInvariant
  import opened SweepSafety
  import opened AudioSniff
  import opened UploadBody
  import SweepSpec

  lemma {:induction false} LegalExtends(p: Params, s: State, es: seq<Event>, e: Event)
    requires Legal(p, s, es) && Enabled(p, Exec(p, s, es), e)
    ensures Legal(p, s, es + [e]) && Exec(p, s, es + [e]) == Apply(p, Exec(p, s, es), e)
    decreases |es|
  {
    if es == [] {
      assert es + [e] == [e];
      assert Legal(p, Apply(p, s, e), []);
    } else {
      LegalExtends(p, Apply(p, s, es[0]), es[1..], e);
      assert (es + [e])[1..] == es[1..] + [e];
    }
  }

  lemma Go(p: Params, s: State, e: Event) returns (s': State)
    requires Reachable(p, s) && Enabled(p, s, e)
    ensures s' == Apply(p, s, e) && Reachable(p, s')
  {
    var s0, es :| Init(p, s0) && Legal(p, s0, es) && Exec(p, s0, es) == s;
    LegalExtends(p, s0, es, e);
    s' := Apply(p, s, e);
  }

  const FRAME: Bytes := [0xFF, 0xFB]
  const KEY: Key := Audio(0, 0, ".mp3")

  lemma TwoByteFrame(p: Params)
    requires p.cap >= 2
    ensures Ingest(-1, p.cap, FRAME, Complete, p.hash) == Stored(AudioFormat("audio/mpeg", ".mp3"), p.hash(FRAME), 2)
    ensures ".mp3"[1..] == "mp3"
  {
    assert SniffAudio(Head(FRAME)) == Some(AudioFormat("audio/mpeg", ".mp3"));
  }

  function Stalled(p: Params, now: Time, ops: map<OpId, Op>): State {
    State(now, {0}, map[0 := Row(0, None, None, "", 0)], map[KEY := Object(FRAME, 0 - p.skew)],
          ops[0 := Storing(0, None, KEY, p.hash(FRAME), "mp3", 2)], map[], {0},
          map[KEY := Birth(0, 0, Object(FRAME, 0 - p.skew))], map[KEY := Written])
  }

  lemma OneReading(p: Params) returns (s: State)
    ensures Reachable(p, s)
    ensures s == State(0, {0}, map[0 := Row(0, None, None, "", 0)], map[], map[0 := Reading(0, None)], map[], {0},
                       map[], map[])
  {
    s := State(0, {}, map[], map[], map[], map[], {}, map[], map[]);
    assert Legal(p, s, []) && Exec(p, s, []) == s && Init(p, s);
    s := Go(p, s, CreateArtist(0));
    s := Go(p, s, CreateTrack(0, 0, "", 0));
    s := Go(p, s, BeginUpload(0, 0));
  }

  /** One upload has written its object, stamped as early as the clocks allow, and stalls. */
  lemma StalledUpload(p: Params) returns (s: State)
    requires p.cap >= 2
    ensures Reachable(p, s) && s == Stalled(p, 0, map[])
  {
    s := OneReading(p);
    TwoByteFrame(p);
    s := Go(p, s, StoreObject(0, 0, -1, FRAME, 0 - p.skew));
  }

  function Seen(p: Params): seq<ObjectInfo> {
    [ObjectInfo(KEY, 0 - p.skew)]
  }

  lemma StalledUntilTheLast(p: Params) returns (s: State)
    requires p.cap >= 2
    ensures Reachable(p, s) && s == Stalled(p, p.commitWithin, map[])
  {
    s := StalledUpload(p);
    s := Go(p, s, Tick(p.commitWithin));
  }

  lemma SweepBegun(p: Params) returns (s: State)
    requires p.cap >= 2
    ensures Reachable(p, s)
    ensures s == Stalled(p, p.commitWithin, map[1 := Sweep(Listing({KEY}, []))])
  {
    s := StalledUntilTheLast(p);
    assert s.bucket.Keys == {KEY};
    s := Go(p, s, BeginSweep(1));
  }

  lemma OneToList(p: Params, s: State)
    requires s == Stalled(p, p.commitWithin, map[1 := Sweep(Listing({KEY}, []))])
    ensures Enabled(p, s, SweepMoves(1, ListObject(KEY)))
    ensures Apply(p, s, SweepMoves(1, ListObject(KEY))) == Stalled(p, p.commitWithin, map[1 := Sweep(Listing({}, Seen(p)))])
  {
    assert [] + Seen(p) == Seen(p) && {KEY} - {KEY} == {};
  }

  lemma ListedObject(p: Params) returns (s: State)
    requires p.cap >= 2
    ensures Reachable(p, s)
    ensures s == Stalled(p, p.commitWithin, map[1 := Sweep(Listing({}, Seen(p)))])
  {
    s := SweepBegun(p);
    OneToList(p, s);
    s := Go(p, s, SweepMoves(1, ListObject(KEY)));
  }

  lemma NothingLeftToList(p: Params, s: State)
    requires s == Stalled(p, p.commitWithin, map[1 := Sweep(Listing({}, Seen(p)))])
    ensures Enabled(p, s, SweepMoves(1, EndListing))
    ensures Apply(p, s, SweepMoves(1, EndListing)) == Stalled(p, p.commitWithin, map[1 := Sweep(Listed(Seen(p)))])
  {
  }

  lemma ListingDone(p: Params) returns (s: State)
    requires p.cap >= 2
    ensures Reachable(p, s)
    ensures s == Stalled(p, p.commitWithin, map[1 := Sweep(Listed(Seen(p)))])
  {
    s := ListedObject(p);
    NothingLeftToList(p, s);
    s := Go(p, s, SweepMoves(1, EndListing));
  }

  lemma NothingNamed(p: Params, s: State)
    requires s == Stalled(p, p.commitWithin, map[1 := Sweep(Listed(Seen(p)))])
    ensures Enabled(p, s, SweepMoves(1, ReadCatalogue([])))
    ensures Apply(p, s, SweepMoves(1, ReadCatalogue([]))) ==
            Stalled(p, p.commitWithin, map[1 := Sweep(Read(Seen(p), p.covers, p.commitWithin))])
  {
    assert NamedKeys(s) == {};
    assert [] + p.covers == p.covers;
  }

  /** At the last moment the upload may commit, a sweep that has listed the object reads the
      catalogue, and only then does the row appear. */
  lemma ListedAndRead(p: Params) returns (s: State)
    requires Proper(p) && p.cap >= 2
    ensures Reachable(p, s)
    ensures s == Stalled(p, p.commitWithin, map[1 := Sweep(Read(Seen(p), p.covers, p.commitWithin))])
  {
    s := ListingDone(p);
    NothingNamed(p, s);
    s := Go(p, s, SweepMoves(1, ReadCatalogue([])));
  }

  lemma JudgedOrphan(p: Params, cutoff: Time)
    requires Proper(p) && 0 - p.skew <= cutoff
    ensures SweepSpec.Deletes(false, Seen(p), p.covers, cutoff) == [KEY]
  {
    assert Seen(p)[..0] == [];
    assert SweepSpec.Pick(Seen(p)[..0], p.covers, cutoff, SweepSpec.Orphan) == [];
    assert SweepSpec.Judge(Seen(p)[0], p.covers, cutoff) == SweepSpec.Orphan;
  }

  function Recorded(p: Params, now: Time, bucket: map<Key, Object>, w: SweepState): State {
    State(now, {0}, map[0 := Row(0, Some(KEY), Some(p.hash(FRAME)), "mp3", 2)], bucket,
          map[0 := Cleaning([]), 1 := Sweep(w)], map[], {0},
          map[KEY := Birth(0, 0, Object(FRAME, 0 - p.skew))], map[KEY := Named])
  }

  lemma LastMomentRecord(p: Params, w: SweepState)
    requires p.cap >= 2
    ensures var s := Stalled(p, p.commitWithin, map[1 := Sweep(w)]);
      && Enabled(p, s, RecordFile(0))
      && Apply(p, s, RecordFile(0)) == Recorded(p, p.commitWithin, map[KEY := Object(FRAME, 0 - p.skew)], w)
  {
  }

  lemma RecordedNow(p: Params) returns (s: State)
    requires Proper(p) && p.cap >= 2
    ensures Reachable(p, s)
    ensures s == Recorded(p, p.commitWithin, map[KEY := Object(FRAME, 0 - p.skew)],
                          Read(Seen(p), p.covers, p.commitWithin))
  {
    s := ListedAndRead(p);
    LastMomentRecord(p, s.ops[1].sweep);
    s := Go(p, s, RecordFile(0));
  }

  lemma RecordedAndTicked(p: Params) returns (s: State)
    requires Proper(p) && p.cap >= 2
    ensures Reachable(p, s)
    ensures s == Recorded(p, p.commitWithin + p.readToCutoff, map[KEY := Object(FRAME, 0 - p.skew)],
                          Read(Seen(p), p.covers, p.commitWithin))
  {
    s := RecordedNow(p);
    s := Go(p, s, Tick(p.readToCutoff));
  }

  /** The sweep reads its clock late and removes the object the row now names. */
  lemma DanglingRun(p: Params) returns (s: State)
    requires Proper(p) && p.cap >= 2 && !Timely(p)
    ensures Reachable(p, s) && !NoneDangles(s)
  {
    s := RecordedAndTicked(p);
    var cutoff := s.now - p.grace;
    JudgedOrphan(p, cutoff);
    s := Go(p, s, SweepMoves(1, TakeCutoff(false)));
    assert s.ops[1] == Sweep(Removing(Seen(p), p.covers, cutoff, [KEY], SweepSpec.Deletions(false, [])));
    s := Go(p, s, SweepMoves(1, Remove(true)));
    assert s.rows[0].key == Some(KEY) && KEY !in s.bucket;
  }

  /** Nothing shorter than two bytes is recognised as audio, so with a smaller cap nothing is stored. */
  lemma TinyCapStoresNothing(p: Params, s: State)
    requires Proper(p) && p.cap < 2 && Reachable(p, s)
    ensures NoneDangles(s)
  {
    ReachableIsCore(p, s);
    forall k ensures k !in s.births { assert k in s.births ==> BirthOk(p, s, k); }
    forall t | t in s.rows ensures s.rows[t].key.None? { assert RowOk(p, s, t); }
  }

  /** No reachable state has a row without its object exactly when the delays fit the grace window
      (or uploads are impossible altogether). */
  lemma BoundIsExact(p: Params)
    requires Proper(p)
    ensures (forall s :: Reachable(p, s) ==> NoneDangles(s)) <==> (Timely(p) || p.cap < 2)
  {
    if Timely(p) {
      forall s | Reachable(p, s) ensures NoneDangles(s) { NoRowDangles(p, s); }
    } else if p.cap < 2 {
      forall s | Reachable(p, s) ensures NoneDangles(s) { TinyCapStoresNothing(p, s); }
    } else {
      var s := DanglingRun(p);
    }
  }
}
