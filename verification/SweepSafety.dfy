/** A sweep running against a live server never takes an object a row names, or ever will name. */
module SweepSafety {
  import opened Storage
  import opened Protocol
  import opened ProtocolInvariant
  import SweepSpec

  /** The timing hypothesis: an upload's put-to-commit delay, the sweep's own delay between its two
      reads and the disagreement of the clocks together stay below the grace window. */
  predicate Timely(p: Params) {
    p.commitWithin + p.readToCutoff + p.skew < p.grace
  }

  /** Its upload is still waiting for the catalogue and may yet record it. */
  ghost predicate Committable(p: Params, s: State, k: Key) {
    Owned(s, k) && s.now <= s.births[k].putAt + p.commitWithin
  }

  ghost predicate Dead(p: Params, s: State, k: Key) {
    k in s.births && k in s.life && !s.life[k].Named? && !(s.life[k].Written? && Committable(p, s, k))
  }

  /** The row that named it has let go of it for good. */
  ghost predicate Gone(s: State, k: Key) {
    k in s.births && k in s.life && (s.life[k].Displaced? || s.life[k].Dropped?)
  }

  ghost predicate Present(p: Params, s: State) {
    forall k :: k in s.births && !Dead(p, s, k) ==> k in s.bucket
  }

  ghost predicate Judged(p: Params, s: State, w: SweepState) {
    match w
    case Read(listing, keys, readAt) =>
      forall x :: x in listing && x.key !in keys ==>
        x.key in s.births && (Dead(p, s, x.key) || readAt <= s.births[x.key].putAt + p.commitWithin)
    case Removing(_, _, _, left, _) => forall k :: k in left ==> Dead(p, s, k)
    case Statting(listing, keys, _, answers, _) =>
      var asked := SweepSpec.Unlisted(listing, keys);
      && |answers| <= |asked|
      && forall i :: 0 <= i < |answers| && answers[i].NotFound? && asked[i] !in p.covers ==> Gone(s, asked[i])
    case Swept(_, _, _, report, _, _) => forall k :: k in report.missing && k !in p.covers ==> Gone(s, k)
    case _ => true
  }

  ghost predicate SweepsOk(p: Params, s: State) {
    forall o :: o in s.ops && s.ops[o].Sweep? ==> Judged(p, s, s.ops[o].sweep)
  }

  ghost predicate Timed(p: Params, s: State) {
    Core(p, s) && Present(p, s) && SweepsOk(p, s)
  }

  // ---- Death is final ----

  ghost predicate Ages(s: State, s': State, k: Key) {
    && k in s'.births && k in s'.life && k in s.births && k in s.life && s'.births[k] == s.births[k]
    && (s'.life[k] == s.life[k] || s'.life[k].Dropped?)
    && (Owned(s', k) ==> Owned(s, k))
  }

  lemma UploadAges(p: Params, s: State, e: Event, k: Key)
    requires Enabled(p, s, e) && IsUploadEvent(e) && !e.RecordFile? && k in s.births && s.life.Keys == s.births.Keys
    ensures Ages(s, Apply(p, s, e), k)
  {
  }

  lemma CatalogueAges(p: Params, s: State, e: Event, k: Key)
    requires Enabled(p, s, e) && IsCatalogueEvent(e) && k in s.births && s.life.Keys == s.births.Keys
    ensures Ages(s, Apply(p, s, e), k)
  {
  }

  lemma OtherAges(p: Params, s: State, e: Event, k: Key)
    requires Enabled(p, s, e) && !IsUploadEvent(e) && !IsCatalogueEvent(e) && k in s.births && s.life.Keys == s.births.Keys
    ensures Ages(s, Apply(p, s, e), k)
  {
  }

  /** Only SetTrackFile can make a row name an object, and only its own upload can hold it. */
  lemma OnlyRecordNames(p: Params, s: State, e: Event, k: Key)
    requires Enabled(p, s, e) && !e.RecordFile? && k in s.births && s.life.Keys == s.births.Keys
    ensures Ages(s, Apply(p, s, e), k)
  {
    if IsUploadEvent(e) { UploadAges(p, s, e, k); }
    else if IsCatalogueEvent(e) { CatalogueAges(p, s, e, k); }
    else { OtherAges(p, s, e, k); }
  }

  lemma DeadSurvivesRecord(p: Params, s: State, o: OpId, k: Key)
    requires RecordReady(s, o) && Enabled(p, s, RecordFile(o)) && Dead(p, s, k)
    ensures Dead(p, Record(s, o), k)
  {
    assert Committable(p, s, s.ops[o].key);
  }

  lemma DeadStays(p: Params, s: State, e: Event, k: Key)
    requires Core(p, s) && Enabled(p, s, e) && Dead(p, s, k)
    ensures Dead(p, Apply(p, s, e), k)
  {
    if e.RecordFile? {
      RecordIsReady(p, s, e.op);
      DeadSurvivesRecord(p, s, e.op, k);
    } else {
      OnlyRecordNames(p, s, e, k);
    }
  }

  lemma GoneStays(p: Params, s: State, e: Event, k: Key)
    requires Core(p, s) && Enabled(p, s, e) && Gone(s, k)
    ensures Gone(Apply(p, s, e), k)
  {
    if e.RecordFile? {
      RecordIsReady(p, s, e.op);
      GoneSurvivesRecord(s, e.op, k);
    } else {
      OnlyRecordNames(p, s, e, k);
    }
  }

  lemma GoneSurvivesRecord(s: State, o: OpId, k: Key)
    requires RecordReady(s, o) && Gone(s, k)
    ensures Gone(Record(s, o), k)
  {
  }

  // ---- Nothing live is removed ----

  ghost predicate Removes(s: State, e: Event, k: Key) {
    || (e.RemoveObject? && e.op in s.ops && s.ops[e.op].Cleaning? && s.ops[e.op].keys != [] && s.ops[e.op].keys[0] == k)
    || (e.SweepMoves? && e.step == Remove(true) && e.op in s.ops && s.ops[e.op].Sweep?
        && s.ops[e.op].sweep.Removing? && s.ops[e.op].sweep.left != [] && s.ops[e.op].sweep.left[0] == k)
  }

  lemma OnlyRemovalsRemove(p: Params, s: State, e: Event, k: Key)
    requires Enabled(p, s, e) && k in s.bucket && k !in Apply(p, s, e).bucket
    ensures Removes(s, e, k)
  {
    if IsCatalogueEvent(e) { CatalogueSparesBucket(p, s, e); }
    else if IsUploadEvent(e) { UploadRemoves(p, s, e, k); }
  }

  lemma UploadRemoves(p: Params, s: State, e: Event, k: Key)
    requires Enabled(p, s, e) && IsUploadEvent(e) && k in s.bucket && k !in Apply(p, s, e).bucket
    ensures Removes(s, e, k)
  {
  }

  /** No event of the catalogue touches the bucket or writes an object. */
  lemma CatalogueSparesBucket(p: Params, s: State, e: Event)
    requires Enabled(p, s, e) && IsCatalogueEvent(e)
    ensures Apply(p, s, e).bucket == s.bucket && Apply(p, s, e).births == s.births
  {
  }

  lemma OnlyStoreBears(p: Params, s: State, e: Event, k: Key)
    requires Enabled(p, s, e) && k in Apply(p, s, e).births && k !in s.births
    ensures k in Apply(p, s, e).bucket
  {
    if IsCatalogueEvent(e) { CatalogueSparesBucket(p, s, e); }
    else if IsUploadEvent(e) { UploadBears(p, s, e, k); }
  }

  lemma UploadBears(p: Params, s: State, e: Event, k: Key)
    requires Enabled(p, s, e) && IsUploadEvent(e) && k in Apply(p, s, e).births && k !in s.births
    ensures k in Apply(p, s, e).bucket
  {
  }

  lemma RemovedAreDead(p: Params, s: State, e: Event, k: Key)
    requires Timed(p, s) && Enabled(p, s, e) && Removes(s, e, k)
    ensures Dead(p, s, k)
  {
    if e.SweepMoves? {
      assert Judged(p, s, s.ops[e.op].sweep);
    } else {
      CleaningIsSpent(p, s, e.op);
      assert k in s.ops[e.op].keys;
    }
  }

  lemma CleaningIsSpent(p: Params, s: State, o: OpId)
    requires OpsOk(p, s) && o in s.ops && s.ops[o].Cleaning?
    ensures forall k :: k in s.ops[o].keys ==> Spent(s, k)
  {
    assert OpOk(p, s, o, s.ops[o]);
  }

  lemma StepKeepsPresent(p: Params, s: State, e: Event)
    requires Timed(p, s) && Enabled(p, s, e)
    ensures Present(p, Apply(p, s, e))
  {
    var s' := Apply(p, s, e);
    forall k | k in s'.births && !Dead(p, s', k) ensures k in s'.bucket {
      if k !in s.births {
        OnlyStoreBears(p, s, e, k);
      } else {
        if Dead(p, s, k) { DeadStays(p, s, e, k); }
        if k !in s'.bucket {
          OnlyRemovalsRemove(p, s, e, k);
          RemovedAreDead(p, s, e, k);
        }
      }
    }
  }

  // ---- What a sweep has singled out stays dead ----

  lemma JudgedStays(p: Params, s: State, e: Event, w: SweepState)
    requires Core(p, s) && Enabled(p, s, e) && Judged(p, s, w)
    ensures Judged(p, Apply(p, s, e), w)
  {
    var s' := Apply(p, s, e);
    match w
    case Read(listing, keys, readAt) =>
      forall x | x in listing && x.key !in keys
        ensures x.key in s'.births && (Dead(p, s', x.key) || readAt <= s'.births[x.key].putAt + p.commitWithin)
      {
        if Dead(p, s, x.key) { DeadStays(p, s, e, x.key); } else { BirthsStay(p, s, e, x.key); }
      }
    case Removing(_, _, _, left, _) =>
      forall k | k in left ensures Dead(p, s', k) { DeadStays(p, s, e, k); }
    case Statting(listing, keys, _, answers, _) =>
      var asked := SweepSpec.Unlisted(listing, keys);
      forall i | 0 <= i < |answers| && answers[i].NotFound? && asked[i] !in p.covers ensures Gone(s', asked[i]) {
        GoneStays(p, s, e, asked[i]);
      }
    case Swept(_, _, _, report, _, _) =>
      forall k | k in report.missing && k !in p.covers ensures Gone(s', k) { GoneStays(p, s, e, k); }
    case _ =>
  }

  lemma BirthsStay(p: Params, s: State, e: Event, k: Key)
    requires Enabled(p, s, e) && k in s.births
    ensures k in Apply(p, s, e).births && Apply(p, s, e).births[k] == s.births[k]
  {
    if IsCatalogueEvent(e) { CatalogueSparesBucket(p, s, e); }
  }

  lemma DeadIgnoresSweeps(p: Params, s: State, s': State, k: Key)
    requires Dead(p, s, k) && s'.births == s.births && s'.life == s.life && s'.now == s.now
    requires forall o :: o in s'.ops && s'.ops[o].Storing? ==> o in s.ops && s.ops[o] == s'.ops[o]
    ensures Dead(p, s', k)
  {
  }

  /** The catalogue read: whatever is listed but not named now is either dead already or belongs to
      an upload whose deadline has not passed at the moment of the read. */
  lemma ReadJudges(p: Params, s: State, listing: seq<ObjectInfo>, keys: seq<Key>)
    requires Core(p, s) && ListingOk(p, s, listing) && multiset(keys) == multiset(NamedKeys(s))
    ensures Judged(p, s, Read(listing, keys + p.covers, s.now))
  {
    NamedArePast(p, s, keys);
    forall x | x in listing && x.key !in keys + p.covers
      ensures x.key in s.births && (Dead(p, s, x.key) || s.now <= s.births[x.key].putAt + p.commitWithin)
    {
      assert NameOk(s, x.key);
    }
  }

  /** The clock read: an orphan older than the grace window was written so long before the catalogue
      read that its upload's deadline had passed by then. */
  lemma CutoffJudges(p: Params, s: State, w: SweepState, dry: bool)
    requires Core(p, s) && Timely(p) && w.Read? && SweepOk(p, s, w) && Judged(p, s, w)
    requires s.now - w.readAt <= p.readToCutoff
    ensures forall k :: k in SweepSpec.Deletes(dry, w.listing, w.keys, s.now - p.grace) ==> Dead(p, s, k)
  {
    var cutoff := s.now - p.grace;
    PickedKeys(w.listing, w.keys, cutoff, SweepSpec.Orphan);
    forall k | k in SweepSpec.Deletes(dry, w.listing, w.keys, cutoff) ensures Dead(p, s, k) {
      var i :| 0 <= i < |w.listing| && w.listing[i].key == k && SweepSpec.Judge(w.listing[i], w.keys, cutoff).Orphan?;
      assert w.listing[i] in w.listing;
      assert BirthOk(p, s, k);
    }
  }

  /** A key the store denies having, though the catalogue named it when read, has been let go of. */
  lemma DeniedIsGone(p: Params, s: State, w: SweepState, step: SweepStep)
    requires Present(p, s) && w.Statting? && SweepOk(p, s, w) && Judged(p, s, w)
    requires step.Stat? && SweepEnabled(p, s, w, step)
    ensures Judged(p, s, SweepNext(p, s, w, step))
  {
    var k := SweepSpec.Unlisted(w.listing, w.keys)[|w.answers|];
    if step.answer.NotFound? && k !in p.covers { AskedIsPast(p, s, w); AbsentIsGone(p, s, k); }
  }

  lemma AskedIsPast(p: Params, s: State, w: SweepState)
    requires w.Statting? && CatalogueOk(p, s, w.keys)
    requires |w.answers| < |SweepSpec.Unlisted(w.listing, w.keys)|
    ensures var k := SweepSpec.Unlisted(w.listing, w.keys)[|w.answers|]; k in w.keys && (k in p.covers || PastOk(s, k))
  {
    UnlistedAre(w.listing, w.keys);
    assert SweepSpec.Unlisted(w.listing, w.keys)[|w.answers|] in SweepSpec.Unlisted(w.listing, w.keys);
  }

  lemma AbsentIsGone(p: Params, s: State, k: Key)
    requires Present(p, s) && PastOk(s, k) && k !in s.bucket
    ensures Gone(s, k)
  {
    assert Dead(p, s, k);
  }

  lemma UnlistedAre(listing: seq<ObjectInfo>, keys: seq<Key>)
    ensures forall k :: k in SweepSpec.Unlisted(listing, keys) <==> k in keys && !SweepSpec.IsListed(listing, k)
  {
    if keys != [] { UnlistedAre(listing, keys[..|keys| - 1]); }
  }

  lemma AbsentAre(asked: seq<Key>, answers: seq<StatAnswer>)
    requires |answers| == |asked|
    ensures forall k :: k in SweepSpec.Absent(asked, answers) <==> exists i :: 0 <= i < |asked| && asked[i] == k && answers[i].NotFound?
  {
    if asked != [] {
      var n := |asked| - 1;
      AbsentAre(asked[..n], answers[..n]);
    }
  }

  lemma NextIsJudged(p: Params, s: State, w: SweepState, step: SweepStep)
    requires Timed(p, s) && Timely(p) && SweepOk(p, s, w) && Judged(p, s, w) && SweepEnabled(p, s, w, step)
    ensures Judged(p, s, SweepNext(p, s, w, step))
  {
    match step
    case ReadCatalogue(keys) => ReadJudges(p, s, w.listing, keys);
    case TakeCutoff(dry) => CutoffJudges(p, s, w, dry);
    case Stat(_) => DeniedIsGone(p, s, w, step);
    case Finish => AbsentAre(SweepSpec.Unlisted(w.listing, w.keys), w.answers);
    case _ =>
  }

  lemma JudgedIgnoresSweeps(p: Params, s: State, s': State, w: SweepState)
    requires Judged(p, s, w) && s'.births == s.births && s'.life == s.life && s'.now == s.now
    requires forall o :: o in s'.ops && s'.ops[o].Storing? ==> o in s.ops && s.ops[o] == s'.ops[o]
    ensures Judged(p, s', w)
  {
    match w
    case Read(listing, keys, readAt) =>
      forall x | x in listing && x.key !in keys
        ensures x.key in s'.births && (Dead(p, s', x.key) || readAt <= s'.births[x.key].putAt + p.commitWithin)
      {
        if Dead(p, s, x.key) { DeadIgnoresSweeps(p, s, s', x.key); }
      }
    case Removing(_, _, _, left, _) =>
      forall k | k in left ensures Dead(p, s', k) { DeadIgnoresSweeps(p, s, s', k); }
    case _ => assert forall k :: Gone(s, k) ==> Gone(s', k);
  }

  lemma SweepMovesItself(p: Params, s: State, o: OpId, step: SweepStep)
    requires Enabled(p, s, SweepMoves(o, step))
    ensures var s' := Apply(p, s, SweepMoves(o, step));
      && s'.births == s.births && s'.life == s.life && s'.now == s.now
      && s'.ops == s.ops[o := Sweep(SweepNext(p, s, s.ops[o].sweep, step))]
  {
  }

  lemma SweepIsOk(p: Params, s: State, o: OpId)
    requires Timed(p, s) && o in s.ops && s.ops[o].Sweep?
    ensures SweepOk(p, s, s.ops[o].sweep) && Judged(p, s, s.ops[o].sweep)
  {
    assert OpOk(p, s, o, s.ops[o]);
  }

  lemma MovedSweepIsJudged(p: Params, s: State, o: OpId, step: SweepStep)
    requires Timed(p, s) && Timely(p) && Enabled(p, s, SweepMoves(o, step))
    ensures var s' := Apply(p, s, SweepMoves(o, step)); Judged(p, s', s'.ops[o].sweep)
  {
    var w := s.ops[o].sweep;
    SweepIsOk(p, s, o);
    NextIsJudged(p, s, w, step);
    SweepMovesItself(p, s, o, step);
    JudgedIgnoresSweeps(p, s, Apply(p, s, SweepMoves(o, step)), SweepNext(p, s, w, step));
  }

  lemma OnlySweepMovesSweep(p: Params, s: State, e: Event, o: OpId)
    requires Enabled(p, s, e) && o in Apply(p, s, e).ops && Apply(p, s, e).ops[o].Sweep?
    ensures || (e.SweepMoves? && e.op == o)
            || (o in s.ops && s.ops[o] == Apply(p, s, e).ops[o])
            || Apply(p, s, e).ops[o].sweep.Listing?
  {
    if Actor(e) != o {
      OnlyActorMoves(p, s, e);
    } else {
      OwnEventIsSweep(p, s, e, o);
    }
  }

  lemma OwnEventIsSweep(p: Params, s: State, e: Event, o: OpId)
    requires Enabled(p, s, e) && Actor(e) == o && o in Apply(p, s, e).ops && Apply(p, s, e).ops[o].Sweep?
    ensures e.BeginSweep? || e.SweepMoves?
  {
    if IsUploadEvent(e) {
    } else if IsCatalogueEvent(e) {
    }
  }

  lemma StepKeepsSweeps(p: Params, s: State, e: Event)
    requires Timed(p, s) && Timely(p) && Enabled(p, s, e)
    ensures SweepsOk(p, Apply(p, s, e))
  {
    var s' := Apply(p, s, e);
    forall o | o in s'.ops && s'.ops[o].Sweep? ensures Judged(p, s', s'.ops[o].sweep) {
      OnlySweepMovesSweep(p, s, e, o);
      if e.SweepMoves? && e.op == o {
        MovedSweepIsJudged(p, s, o, e.step);
      } else if o in s.ops && s.ops[o] == s'.ops[o] {
        JudgedStays(p, s, e, s.ops[o].sweep);
      }
    }
  }

  lemma StepKeepsTimed(p: Params, s: State, e: Event)
    requires Timed(p, s) && Timely(p) && Enabled(p, s, e)
    ensures Timed(p, Apply(p, s, e))
  {
    StepKeepsCore(p, s, e);
    StepKeepsPresent(p, s, e);
    StepKeepsSweeps(p, s, e);
  }

  lemma {:induction false} RunKeepsTimed(p: Params, s: State, es: seq<Event>)
    requires Timed(p, s) && Timely(p) && Legal(p, s, es)
    ensures Timed(p, Exec(p, s, es))
    decreases |es|
  {
    if es != [] {
      StepKeepsTimed(p, s, es[0]);
      RunKeepsTimed(p, Apply(p, s, es[0]), es[1..]);
    }
  }

  lemma ReachableIsTimed(p: Params, s: State)
    requires Proper(p) && Timely(p) && Reachable(p, s)
    ensures Timed(p, s)
  {
    var s0, es :| Init(p, s0) && Legal(p, s0, es) && Exec(p, s0, es) == s;
    InitCore(p, s0);
    RunKeepsTimed(p, s0, es);
  }

  // ---- The theorems ----

  /** Every key a row records names an object in the bucket. */
  predicate NoneDangles(s: State) {
    forall t :: t in s.rows && s.rows[t].key.Some? ==> s.rows[t].key.value in s.bucket
  }

  /** Safety: however uploads, deletes, sweeps, crashes and failed deletes interleave, no row ever
      names an object that is not in the bucket. */
  lemma NoRowDangles(p: Params, s: State)
    requires Proper(p) && Timely(p) && Reachable(p, s)
    ensures NoneDangles(s)
  {
    ReachableIsTimed(p, s);
    forall t | t in s.rows && s.rows[t].key.Some? ensures s.rows[t].key.value in s.bucket {
      assert RowOk(p, s, t);
    }
  }

  lemma {:induction false} DeadForever(p: Params, s: State, es: seq<Event>, k: Key)
    requires Core(p, s) && Dead(p, s, k) && Legal(p, s, es)
    ensures Dead(p, Exec(p, s, es), k)
    ensures forall t :: t in Exec(p, s, es).rows ==> Exec(p, s, es).rows[t].key != Some(k)
    decreases |es|
  {
    if es == [] {
      forall t | t in s.rows ensures s.rows[t].key != Some(k) { assert RowOk(p, s, t); }
    } else {
      StepKeepsCore(p, s, es[0]);
      DeadStays(p, s, es[0], k);
      DeadForever(p, Apply(p, s, es[0]), es[1..], k);
    }
  }

  /** What a sweep removes, no row names when it goes and no row names after any further run. */
  lemma SweptIsNeverNamed(p: Params, s: State, o: OpId, es: seq<Event>)
    requires Proper(p) && Timely(p) && Reachable(p, s)
    requires Enabled(p, s, SweepMoves(o, Remove(true)))
    requires Legal(p, Apply(p, s, SweepMoves(o, Remove(true))), es)
    ensures var k := s.ops[o].sweep.left[0];
            var s1 := Apply(p, s, SweepMoves(o, Remove(true)));
            && (forall t :: t in s.rows ==> s.rows[t].key != Some(k))
            && (forall t :: t in Exec(p, s1, es).rows ==> Exec(p, s1, es).rows[t].key != Some(k))
  {
    var e := SweepMoves(o, Remove(true));
    var k := s.ops[o].sweep.left[0];
    ReachableIsTimed(p, s);
    RemovedAreDead(p, s, e, k);
    DeadForever(p, s, [], k);
    DeadStays(p, s, e, k);
    StepKeepsCore(p, s, e);
    DeadForever(p, Apply(p, s, e), es, k);
  }

  /** In a run where no row dangles, at the moment the store denies having a track's key, that key is one
      the catalogue named when it was read and its row has let go of it since, for good: a broken track
      is never reported for one that is whole. */
  lemma MissingIsSound(p: Params, s: State, o: OpId)
    requires Proper(p) && Timely(p) && Reachable(p, s) && Enabled(p, s, SweepMoves(o, Stat(NotFound)))
    ensures var w := s.ops[o].sweep;
            var k := SweepSpec.Unlisted(w.listing, w.keys)[|w.answers|];
            && k in w.keys
            && (k !in p.covers ==> Gone(s, k) && forall t :: t in s.rows ==> s.rows[t].key != Some(k))
  {
    var w := s.ops[o].sweep;
    ReachableIsTimed(p, s);
    SweepIsOk(p, s, o);
    AskedIsPast(p, s, w);
    var k := SweepSpec.Unlisted(w.listing, w.keys)[|w.answers|];
    if k !in p.covers { AbsentIsGone(p, s, k); DeadForever(p, s, [], k); }
  }

  /** What a finished sweep reports missing are exactly the keys so denied. */
  lemma MissingWasDenied(p: Params, s: State, o: OpId, k: Key)
    requires Proper(p) && Reachable(p, s) && o in s.ops && s.ops[o].Sweep? && s.ops[o].sweep.Swept?
    ensures var w := s.ops[o].sweep;
            var asked := SweepSpec.Unlisted(w.listing, w.keys);
            && |w.answers| == |asked|
            && (k in w.report.missing <==> exists i :: 0 <= i < |asked| && asked[i] == k && w.answers[i].NotFound?)
  {
    ReachableIsCore(p, s);
    var w := s.ops[o].sweep;
    assert OpOk(p, s, o, s.ops[o]);
    AbsentAre(SweepSpec.Unlisted(w.listing, w.keys), w.answers);
  }
}
