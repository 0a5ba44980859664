/** Two runs with no crash and no failed delete that all the same strand an object: the ones the
    accounting law singles out. */
module LeakRuns {
  import opened Storage
  import opened Protocol
  import opened SweepBound
  import opened ObjectAccounting

  predicate Smooth(e: Event) {
    !e.Crash? && !e.FailRemove? && !e.RollBack?
  }

  /** `s` is reached from the empty stores by events none of which is a crash or a failure. */
  ghost predicate Smoothly(p: Params, s: State) {
    exists s0, es :: Init(p, s0) && Legal(p, s0, es) && Exec(p, s0, es) == s && forall e :: e in es ==> Smooth(e)
  }

  lemma On(p: Params, s: State, e: Event) returns (s': State)
    requires Smoothly(p, s) && Enabled(p, s, e) && Smooth(e)
    ensures s' == Apply(p, s, e) && Smoothly(p, s')
  {
    var s0, es :| Init(p, s0) && Legal(p, s0, es) && Exec(p, s0, es) == s && forall e :: e in es ==> Smooth(e);
    LegalExtends(p, s0, es, e);
    s' := Apply(p, s, e);
    assert forall x :: x in es + [e] ==> Smooth(x);
  }

  function Empty(): State {
    State(0, {}, map[], map[], map[], map[], {}, map[], map[])
  }

  function FrameObject(): Object {
    Object(FRAME, 0)
  }

  function Key1(): Key {
    Audio(0, 1, ".mp3")
  }

  lemma OneTrack(p: Params) returns (s: State)
    ensures Smoothly(p, s)
    ensures s == Empty().(artists := {0}, rows := map[0 := Row(0, None, None, "", 0)], ids := {0})
  {
    s := Empty();
    assert Legal(p, s, []) && Exec(p, s, []) == s && Init(p, s);
    s := On(p, s, CreateArtist(0));
    s := On(p, s, CreateTrack(0, 0, "", 0));
  }

  function Storing0(p: Params): Op { Storing(0, None, KEY, p.hash(FRAME), "mp3", 2) }
  function Storing1(p: Params): Op { Storing(0, None, Key1(), p.hash(FRAME), "mp3", 2) }
  function Uploaded(p: Params, k: Key): Row { Row(0, Some(k), Some(p.hash(FRAME)), "mp3", 2) }

  lemma TwoReaders(p: Params) returns (s: State)
    requires p.cap >= 2
    ensures Smoothly(p, s)
    ensures s == Empty().(artists := {0}, rows := map[0 := Row(0, None, None, "", 0)], ids := {0},
                          ops := map[0 := Storing0(p), 1 := Reading(0, None)],
                          bucket := map[KEY := FrameObject()],
                          births := map[KEY := Birth(0, 0, FrameObject())], life := map[KEY := Written])
  {
    s := OneTrack(p);
    s := On(p, s, BeginUpload(0, 0));
    s := On(p, s, BeginUpload(1, 0));
    TwoByteFrame(p);
    s := On(p, s, StoreObject(0, 0, -1, FRAME, 0));
  }

  function StoredTwice(p: Params): State {
    Empty().(artists := {0}, rows := map[0 := Row(0, None, None, "", 0)], ids := {0},
             ops := map[0 := Storing0(p), 1 := Storing1(p)],
             bucket := map[KEY := FrameObject(), Key1() := FrameObject()],
             births := map[KEY := Birth(0, 0, FrameObject()), Key1() := Birth(1, 0, FrameObject())],
             life := map[KEY := Written, Key1() := Written])
  }

  lemma TwoStored(p: Params) returns (s: State)
    requires p.cap >= 2
    ensures Smoothly(p, s)
    ensures s == StoredTwice(p)
  {
    s := TwoReaders(p);
    TwoByteFrame(p);
    s := On(p, s, StoreObject(1, 1, -1, FRAME, 0));
  }

  function RecordedOnce(p: Params): State {
    Empty().(artists := {0}, rows := map[0 := Uploaded(p, KEY)], ids := {0},
             ops := map[0 := Cleaning([]), 1 := Storing1(p)],
             bucket := map[KEY := FrameObject(), Key1() := FrameObject()],
             births := map[KEY := Birth(0, 0, FrameObject()), Key1() := Birth(1, 0, FrameObject())],
             life := map[KEY := Named, Key1() := Written])
  }

  lemma FirstRecords(p: Params, s: State)
    requires s == StoredTwice(p)
    ensures Enabled(p, s, RecordFile(0)) && Apply(p, s, RecordFile(0)) == RecordedOnce(p)
  {
  }

  lemma OneRecorded(p: Params) returns (s: State)
    requires p.cap >= 2
    ensures Smoothly(p, s) && s == RecordedOnce(p)
  {
    s := TwoStored(p);
    FirstRecords(p, s);
    s := On(p, s, RecordFile(0));
  }

  lemma TwoRecorded(p: Params) returns (s: State)
    requires p.cap >= 2
    ensures Smoothly(p, s)
    ensures s == Empty().(artists := {0}, rows := map[0 := Uploaded(p, Key1())], ids := {0},
                          ops := map[0 := Cleaning([]), 1 := Cleaning([])],
                          bucket := map[KEY := FrameObject(), Key1() := FrameObject()],
                          births := map[KEY := Birth(0, 0, FrameObject()), Key1() := Birth(1, 0, FrameObject())],
                          life := map[KEY := Displaced, Key1() := Named])
  {
    s := OneRecorded(p);
    s := On(p, s, RecordFile(1));
  }

  /** Two uploads to one track that both began before either committed: the second displaces the
      first one's object, and neither removes it. */
  lemma ConcurrentUploadsStrandAnObject(p: Params) returns (s: State)
    requires p.cap >= 2
    ensures Smoothly(p, s) && s.ops == map[] && Leaked(s, KEY)
  {
    s := TwoRecorded(p);
    s := On(p, s, EndRequest(0));
    s := On(p, s, EndRequest(1));
    assert s.ops == map[];
  }

  lemma SelectedNone(p: Params) returns (s: State)
    ensures Smoothly(p, s)
    ensures s == Empty().(artists := {0}, rows := map[0 := Row(0, None, None, "", 0)], ids := {0},
                          ops := map[1 := Deleting(0, {}, {}, {}, [])])
  {
    s := Empty();
    assert Legal(p, s, []) && Exec(p, s, []) == s && Init(p, s);
    s := On(p, s, CreateArtist(0));
    assert TracksOf(s, 0) == {};
    s := On(p, s, SelectTracks(1, 0));
    assert s.ops == map[1 := Deleting(0, {}, {}, {}, [])];
    s := On(p, s, CreateTrack(0, 0, "", 0));
  }

  lemma StoredUnseen(p: Params) returns (s: State)
    requires p.cap >= 2
    ensures Smoothly(p, s)
    ensures s == Empty().(artists := {0}, rows := map[0 := Row(0, None, None, "", 0)], ids := {0},
                          ops := map[0 := Storing0(p), 1 := Deleting(0, {}, {}, {}, [])],
                          bucket := map[KEY := FrameObject()],
                          births := map[KEY := Birth(0, 0, FrameObject())], life := map[KEY := Written])
  {
    s := SelectedNone(p);
    s := On(p, s, BeginUpload(0, 0));
    TwoByteFrame(p);
    s := On(p, s, StoreObject(0, 0, -1, FRAME, 0));
  }

  lemma UploadedUnseen(p: Params) returns (s: State)
    requires p.cap >= 2
    ensures Smoothly(p, s)
    ensures s == Empty().(artists := {0}, rows := map[0 := Uploaded(p, KEY)], ids := {0},
                          ops := map[0 := Cleaning([]), 1 := Deleting(0, {}, {}, {}, [])],
                          bucket := map[KEY := FrameObject()],
                          births := map[KEY := Birth(0, 0, FrameObject())], life := map[KEY := Named])
  {
    s := StoredUnseen(p);
    s := On(p, s, RecordFile(0));
  }

  /** A track created and uploaded to after the artist's rows were selected goes with the cascade,
      and nobody has its key. */
  lemma UnseenTrackStrandsAnObject(p: Params) returns (s: State)
    requires p.cap >= 2
    ensures Smoothly(p, s) && s.rows == map[] && Leaked(s, KEY)
  {
    s := UploadedUnseen(p);
    assert TracksOf(s, 0) == {0};
    assert (set t | t in {0} && t in s.rows && s.rows[t].key.Some? :: s.rows[t].key.value) == {KEY};
    assert s.ops[1].selected == {};
    s := On(p, s, CascadeArtist(1));
    assert s.ops == map[0 := Cleaning([]), 1 := Cleaning([])];
  }
}
