/** Which objects are in the bucket, and exactly which events strand one there. */
module ObjectAccounting {
  import opened Storage
  import opened Protocol
  import opened ProtocolInvariant
  import opened SweepSafety

  /** Some request has still to remove the object. */
  ghost predicate Pending(s: State, k: Key) {
    exists o :: o in s.ops && s.ops[o].Cleaning? && k in s.ops[o].keys
  }

  /** In the bucket with nobody left to answer for it: no row names it, no upload owns it and no request
      has it among the objects it is to remove. A sweep takes it out, or an upload that read it as its
      track's previous key and goes on to commit. */
  ghost predicate Leaked(s: State, k: Key) {
    k in s.bucket && k in s.births && k in s.life && !s.life[k].Named? && !Owned(s, k) && !Pending(s, k)
  }

  /** The events that strand an object: a crash, a failed delete, a commit that displaces another key
      than the one its request read, and a cascade over a row created after the artist's rows were
      selected. */
  ghost predicate Strands(s: State, e: Event, k: Key) {
    match e
    case Crash(o) =>
      o in s.ops && ((s.ops[o].Storing? && s.ops[o].key == k) || (s.ops[o].Cleaning? && k in s.ops[o].keys))
    case FailRemove(o) => o in s.ops && s.ops[o].Cleaning? && s.ops[o].keys != [] && s.ops[o].keys[0] == k
    case RecordFile(o) =>
      && o in s.ops && s.ops[o].Storing? && k.Audio? && k.track == s.ops[o].track
      && NamedBy(s, k.track, k) && s.ops[o].previous != Some(k)
    case CascadeArtist(o) =>
      && o in s.ops && s.ops[o].Deleting? && k.Audio? && NamedBy(s, k.track, k)
      && s.rows[k.track].artist == s.ops[o].artist && k.track !in s.ops[o].selected
    case _ => false
  }

  /** Every stored audio object is in exactly one of the four classes. */
  lemma BucketIsPartitioned(p: Params, s: State, k: Key)
    requires Proper(p) && Reachable(p, s) && k in s.bucket && k.Audio?
    ensures var named := NamedBy(s, k.track, k);
            && (named || Owned(s, k) || Pending(s, k) || Leaked(s, k))
            && !(named && Owned(s, k)) && !(named && Pending(s, k)) && !(named && Leaked(s, k))
            && !(Owned(s, k) && Pending(s, k)) && !(Owned(s, k) && Leaked(s, k)) && !(Pending(s, k) && Leaked(s, k))
  {
    ReachableIsCore(p, s);
    PendingIsSpent(p, s, k);
    assert BirthOk(p, s, k) && NameOk(s, k);
    assert k.track in s.rows ==> RowOk(p, s, k.track);
    OwnedIsWritten(p, s, k);
  }

  lemma PendingIsSpent(p: Params, s: State, k: Key)
    requires OpsOk(p, s)
    ensures Pending(s, k) ==> Spent(s, k)
  {
    if Pending(s, k) {
      var o :| o in s.ops && s.ops[o].Cleaning? && k in s.ops[o].keys;
      CleaningIsSpent(p, s, o);
    }
  }

  lemma OwnedIsWritten(p: Params, s: State, k: Key)
    requires OpsOk(p, s)
    ensures Owned(s, k) ==> k in s.life && s.life[k].Written?
  {
    if Owned(s, k) { assert OpOk(p, s, s.births[k].owner, s.ops[s.births[k].owner]); }
  }

  /** A key is dropped from somebody's to-do list only by removing it, failing to, or crashing. */
  lemma PendingStays(p: Params, s: State, e: Event, k: Key)
    requires Enabled(p, s, e) && Pending(s, k) && !Removes(s, e, k) && !Strands(s, e, k)
    ensures Pending(Apply(p, s, e), k)
  {
    var s' := Apply(p, s, e);
    var o :| o in s.ops && s.ops[o].Cleaning? && k in s.ops[o].keys;
    if e.FailRemove? && e.op == o {
      assert k in s'.ops[o].keys;
    } else if e.RemoveObject? && e.op == o {
      assert k in s'.ops[o].keys;
    } else {
      assert o in s'.ops && s'.ops[o] == s.ops[o];
    }
  }

  lemma OwnerMoves(p: Params, s: State, e: Event, k: Key)
    requires Enabled(p, s, e) && Owned(s, k) && !Owned(Apply(p, s, e), k) && k in s.life
    ensures || Apply(p, s, e).life[k].Named?
            || Pending(Apply(p, s, e), k)
            || Strands(s, e, k)
  {
    var o := s.births[k].owner;
    var s' := Apply(p, s, e);
    if e.RefuseFile? && e.op == o {
      assert s'.ops[o].Cleaning? && k in s'.ops[o].keys;
    } else {
      BirthsStay(p, s, e, k);
    }
  }

  lemma OnlyTheseUnname(p: Params, s: State, e: Event, k: Key)
    requires Enabled(p, s, e) && k in s.life && s.life[k].Named?
    ensures k in Apply(p, s, e).life
    ensures e.RecordFile? || e.DeleteTrack? || e.CascadeArtist? || e.StoreObject? || Apply(p, s, e).life[k].Named?
  {
    if !IsUploadEvent(e) && !IsCatalogueEvent(e) { OthersSpareLife(p, s, e); }
  }

  lemma OthersSpareLife(p: Params, s: State, e: Event)
    requires Enabled(p, s, e) && !IsUploadEvent(e) && !IsCatalogueEvent(e)
    ensures Apply(p, s, e).life == s.life && Apply(p, s, e).births == s.births
  {
  }

  lemma RecordUnnames(p: Params, s: State, o: OpId, k: Key)
    requires RecordReady(s, o) && NameOk(s, k) && k in s.life && s.life[k].Named? && !Record(s, o).life[k].Named?
    ensures Pending(Record(s, o), k) || Strands(s, RecordFile(o), k)
  {
    var s' := Record(s, o);
    if s.ops[o].previous == Some(k) { assert k in s'.ops[o].keys; }
  }

  lemma DeleteUnnames(p: Params, s: State, o: OpId, t: TrackId, k: Key)
    requires RowsOk(p, s) && k in s.life && s.life[k].Named? && Enabled(p, s, DeleteTrack(o, t))
    requires !Apply(p, s, DeleteTrack(o, t)).life[k].Named?
    ensures Pending(Apply(p, s, DeleteTrack(o, t)), k)
  {
    var s' := Apply(p, s, DeleteTrack(o, t));
    DroppedIs(p, s, {t}, k);
    assert k in s'.ops[o].keys;
  }

  lemma CascadeUnnames(p: Params, s: State, o: OpId, k: Key)
    requires RowsOk(p, s) && k in s.life && s.life[k].Named? && Enabled(p, s, CascadeArtist(o))
    requires DeletingOk(s, o, s.ops[o]) && !Cascade(s, o).life[k].Named?
    ensures Pending(Cascade(s, o), k) || Strands(s, CascadeArtist(o), k)
  {
    var d := s.ops[o];
    var ts := TracksOf(s, d.artist);
    DroppedIs(p, s, ts, k);
    if k.track in d.selected { assert k in Cascade(s, o).ops[o].keys; }
  }

  lemma DroppedIs(p: Params, s: State, ts: set<TrackId>, k: Key)
    requires RowsOk(p, s) && k in s.life && s.life[k].Named? && !DropRows(s, ts).life[k].Named?
    ensures k.Audio? && k.track in ts && NamedBy(s, k.track, k)
  {
    assert NameOk(s, k);
    var t :| t in ts && t in s.rows && s.rows[t].key == Some(k);
    assert RowOk(p, s, t);
  }

  lemma RecordMovesName(p: Params, s: State, o: OpId, k: Key)
    requires Core(p, s) && Enabled(p, s, RecordFile(o)) && k in s.life && s.life[k].Named? && !Record(s, o).life[k].Named?
    ensures Pending(Record(s, o), k) || Strands(s, RecordFile(o), k)
  {
    RecordIsReady(p, s, o);
    assert NameOk(s, k);
    RecordUnnames(p, s, o, k);
  }

  lemma CascadeMovesName(p: Params, s: State, o: OpId, k: Key)
    requires Core(p, s) && Enabled(p, s, CascadeArtist(o)) && k in s.life && s.life[k].Named? && !Cascade(s, o).life[k].Named?
    ensures Pending(Cascade(s, o), k) || Strands(s, CascadeArtist(o), k)
  {
    assert OpOk(p, s, o, s.ops[o]);
    CascadeUnnames(p, s, o, k);
  }

  lemma NameMoves(p: Params, s: State, e: Event, k: Key)
    requires Core(p, s) && Enabled(p, s, e) && k in s.life && s.life[k].Named? && k in Apply(p, s, e).life
    requires e.StoreObject? ==> Apply(p, s, e).life[k] == s.life[k]
    requires !Apply(p, s, e).life[k].Named?
    ensures Pending(Apply(p, s, e), k) || Strands(s, e, k)
  {
    if e.RecordFile? {
      RecordMovesName(p, s, e.op, k);
    } else if e.DeleteTrack? {
      DeleteUnnames(p, s, e.op, e.track, k);
    } else if e.CascadeArtist? {
      CascadeMovesName(p, s, e.op, k);
    } else {
      OnlyTheseUnname(p, s, e, k);
    }
  }

  lemma RecordStrands(p: Params, s: State, o: OpId, k: Key)
    requires Core(p, s) && Enabled(p, s, RecordFile(o)) && Strands(s, RecordFile(o), k)
    ensures var s' := Record(s, o); k in s'.life && !s'.life[k].Named? && !Owned(s', k)
  {
    RecordIsReady(p, s, o);
    assert RowOk(p, s, k.track);
    OwnedIsWritten(p, s, k);
    RecordDisplaces(s, o, k);
  }

  lemma RecordDisplaces(s: State, o: OpId, k: Key)
    requires RecordReady(s, o) && k in s.life && s.life[k].Named? && !Owned(s, k) && s.rows[s.ops[o].track].key == Some(k)
    ensures var s' := Record(s, o); k in s'.life && !s'.life[k].Named? && !Owned(s', k)
  {
  }

  lemma CascadeStrands(p: Params, s: State, o: OpId, k: Key)
    requires Core(p, s) && Enabled(p, s, CascadeArtist(o)) && Strands(s, CascadeArtist(o), k)
    ensures var s' := Cascade(s, o); k in s'.life && !s'.life[k].Named? && !Owned(s', k)
  {
    assert RowOk(p, s, k.track);
    OwnedIsWritten(p, s, k);
  }

  lemma EndStrands(p: Params, s: State, e: Event, k: Key)
    requires OpsOk(p, s) && Enabled(p, s, e) && Strands(s, e, k) && (e.Crash? || e.FailRemove?)
    ensures var s' := Apply(p, s, e); k in s'.life && !s'.life[k].Named? && !Owned(s', k)
  {
    if s.ops[e.op].Cleaning? {
      CleaningIsSpent(p, s, e.op);
      assert e.FailRemove? ==> s.ops[e.op].keys[0] in s.ops[e.op].keys;
      assert Spent(s, k);
    } else {
      assert OpOk(p, s, e.op, s.ops[e.op]);
    }
  }

  lemma StrandsLeaks(p: Params, s: State, e: Event, k: Key)
    requires Core(p, s) && Enabled(p, s, e) && Strands(s, e, k)
    ensures var s' := Apply(p, s, e); k in s'.life && !s'.life[k].Named? && !Owned(s', k)
  {
    if e.RecordFile? { RecordStrands(p, s, e.op, k); }
    else if e.CascadeArtist? { CascadeStrands(p, s, e.op, k); }
    else { EndStrands(p, s, e, k); }
  }

  lemma LeakedStays(p: Params, s: State, e: Event, k: Key)
    requires Core(p, s) && Enabled(p, s, e) && Leaked(s, k)
    ensures var s' := Apply(p, s, e); k in s'.life && !s'.life[k].Named? && !Owned(s', k)
  {
    if e.RecordFile? {
      RecordIsReady(p, s, e.op);
      LeakedSurvivesRecord(s, e.op, k);
    } else {
      OnlyRecordNames(p, s, e, k);
    }
  }

  lemma LeakedSurvivesRecord(s: State, o: OpId, k: Key)
    requires RecordReady(s, o) && k in s.life && !s.life[k].Named? && !Owned(s, k)
    ensures k in Record(s, o).life && !Record(s, o).life[k].Named? && !Owned(Record(s, o), k)
  {
  }

  lemma BucketGrowsByStore(p: Params, s: State, e: Event, k: Key)
    requires Enabled(p, s, e) && k in s.births && k in Apply(p, s, e).bucket
    ensures k in s.bucket
  {
    if IsCatalogueEvent(e) { CatalogueSparesBucket(p, s, e); }
    else if IsUploadEvent(e) { UploadGrowsBucket(p, s, e, k); }
  }

  lemma UploadGrowsBucket(p: Params, s: State, e: Event, k: Key)
    requires Enabled(p, s, e) && IsUploadEvent(e) && k in s.births && k in Apply(p, s, e).bucket
    ensures k in s.bucket
  {
  }

  lemma LeakStep(p: Params, s: State, e: Event, k: Key)
    requires Core(p, s) && Enabled(p, s, e) && k in s.births
    ensures var s' := Apply(p, s, e);
            Leaked(s', k) <==> k in s'.bucket && !Pending(s', k) && (Leaked(s, k) || Strands(s, e, k))
  {
    var s' := Apply(p, s, e);
    BirthsStay(p, s, e, k);
    if k in s'.bucket && !Pending(s', k) {
      if Leaked(s, k) {
        LeakedStays(p, s, e, k);
      } else if Strands(s, e, k) {
        StrandsLeaks(p, s, e, k);
      } else {
        NotStranded(p, s, e, k);
      }
    }
  }

  /** The exact law: after any event in any reachable state, the leaked objects are those leaked before
      or stranded by it, as far as they are still in the bucket and no other request is about to remove
      them. */
  lemma LeakLaw(p: Params, s: State, e: Event, k: Key)
    requires Proper(p) && Reachable(p, s) && Enabled(p, s, e) && k in s.births
    ensures var s' := Apply(p, s, e);
            Leaked(s', k) <==> k in s'.bucket && !Pending(s', k) && (Leaked(s, k) || Strands(s, e, k))
  {
    ReachableIsCore(p, s);
    LeakStep(p, s, e, k);
  }

  lemma PendingNotLeaked(p: Params, s: State, e: Event, k: Key)
    requires Core(p, s) && Enabled(p, s, e) && k in s.births && Pending(s, k) && !Strands(s, e, k)
    ensures !Leaked(Apply(p, s, e), k)
  {
    if Removes(s, e, k) { RemovesTakes(p, s, e, k); } else { PendingStays(p, s, e, k); }
  }

  lemma NotStranded(p: Params, s: State, e: Event, k: Key)
    requires Core(p, s) && Enabled(p, s, e) && k in s.births && !Leaked(s, k) && !Strands(s, e, k)
    ensures !Leaked(Apply(p, s, e), k)
  {
    var s' := Apply(p, s, e);
    if Leaked(s', k) {
      BucketGrowsByStore(p, s, e, k);
      if Pending(s, k) {
        PendingNotLeaked(p, s, e, k);
      } else if Owned(s, k) {
        OwnerMoves(p, s, e, k);
      } else {
        if e.StoreObject? { OnlyRecordNames(p, s, e, k); }
        NameMoves(p, s, e, k);
      }
    }
  }

  lemma RemovesTakes(p: Params, s: State, e: Event, k: Key)
    requires Enabled(p, s, e) && Removes(s, e, k)
    ensures k !in Apply(p, s, e).bucket
  {
  }

  // ---- Whole runs ----

  ghost predicate NothingStrands(p: Params, s: State, es: seq<Event>)
    requires Legal(p, s, es)
    decreases |es|
  {
    es == [] || ((forall k :: !Strands(s, es[0], k)) && NothingStrands(p, Apply(p, s, es[0]), es[1..]))
  }

  lemma {:induction false} StrandlessRun(p: Params, s: State, es: seq<Event>)
    requires Core(p, s) && Legal(p, s, es) && NothingStrands(p, s, es)
    requires forall k :: !Leaked(s, k)
    ensures forall k :: !Leaked(Exec(p, s, es), k)
    decreases |es|
  {
    if es != [] {
      var s' := Apply(p, s, es[0]);
      forall k ensures !Leaked(s', k) {
        if k in s.births { LeakStep(p, s, es[0], k); }
        else if k in s'.births { BornOwned(p, s, es[0], k); }
      }
      StepKeepsCore(p, s, es[0]);
      StrandlessRun(p, s', es[1..]);
    }
  }

  /** From any reachable state with no leak, a run without stranding events leaks nothing. */
  lemma NoStrandingNoLeak(p: Params, s: State, es: seq<Event>)
    requires Proper(p) && Reachable(p, s) && Legal(p, s, es) && NothingStrands(p, s, es)
    requires forall k :: !Leaked(s, k)
    ensures forall k :: !Leaked(Exec(p, s, es), k)
  {
    ReachableIsCore(p, s);
    StrandlessRun(p, s, es);
  }

  lemma BornOwned(p: Params, s: State, e: Event, k: Key)
    requires Enabled(p, s, e) && k !in s.births && k in Apply(p, s, e).births
    ensures Owned(Apply(p, s, e), k)
  {
    if IsCatalogueEvent(e) { CatalogueSparesBucket(p, s, e); }
    else if !IsUploadEvent(e) { OthersSpareLife(p, s, e); }
  }

  ghost predicate Quiet(s: State) {
    forall o :: o in s.ops ==> !s.ops[o].Storing? && !s.ops[o].Cleaning?
  }

  /** Without such an event, once no upload or delete is in flight the bucket holds exactly the
      audio objects some row names. */
  lemma QuiescentBucketIsTheCatalogue(p: Params, s0: State, es: seq<Event>)
    requires Proper(p) && Timely(p) && Init(p, s0) && Legal(p, s0, es)
    requires NothingStrands(p, s0, es) && Quiet(Exec(p, s0, es))
    ensures var s := Exec(p, s0, es);
            forall k: Key :: k.Audio? ==> (k in s.bucket <==> k in NamedKeys(s))
  {
    var s := Exec(p, s0, es);
    InitCore(p, s0);
    StrandlessRun(p, s0, es);
    ReachableIsTimed(p, s);
    NoRowDangles(p, s);
    forall k: Key | k.Audio? ensures k in s.bucket <==> k in NamedKeys(s) {
      if k in s.bucket {
        BucketIsPartitioned(p, s, k);
        assert NamedBy(s, k.track, k);
      }
    }
  }
}
