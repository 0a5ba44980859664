/** An upload that is refused leaves no trace, whatever ran beside it: taking its events out of a run
    gives a run with the same rows, the same objects and the same other requests. */
module RefusedUploads {
  import opened Storage
  import opened Protocol
  import opened ProtocolInvariant
  import opened SweepSafety
  import opened ObjectAccounting

  // ---- What uploads under one request id do when none of them is recorded ----

  predicate IsSweepEvent(e: Event) {
    e.BeginSweep? || e.SweepMoves?
  }

  /** An event of an upload, other than the commit of its row. */
  predicate Unrecorded(e: Event) {
    e.BeginUpload? || e.StoreObject? || e.RefuseFile? || e.RemoveObject? || e.FailRemove? || e.EndRequest? || e.Crash?
  }

  /** No sweep is at work, and what request `o` does are uploads none of which is recorded. */
  predicate OnlyRefused(o: OpId, es: seq<Event>) {
    forall e :: e in es ==> !IsSweepEvent(e) && (Actor(e) == o ==> Unrecorded(e))
  }

  /** The run without the events of request `o`. */
  function Others(es: seq<Event>, o: OpId): seq<Event>
    decreases |es|
  {
    if es == [] then [] else (if Actor(es[0]) == o then [] else [es[0]]) + Others(es[1..], o)
  }

  /** The state as it would be without request `o` and the objects `own` it has written. */
  function Erased(s: State, o: OpId, own: set<Key>): State {
    s.(ops := s.ops - {o}, bucket := s.bucket - own, births := s.births - own, life := s.life - own)
  }

  function OwnAfter(s: State, e: Event, o: OpId, own: set<Key>, p: Params): set<Key>
    requires Enabled(p, s, e)
  {
    if e.StoreObject? && e.op == o then own + {Apply(p, s, e).ops[o].key} else own
  }

  /** Nothing but request `o` has to do with the objects it has written. */
  ghost predicate Private(s: State, o: OpId, own: set<Key>) {
    && (forall k :: k in own ==> k in s.births && s.births[k].owner == o && k in s.life && s.life[k].Written?)
    && (o in s.ops ==> OwnOp(s.ops[o], own))
    && (forall q :: q in s.ops && s.ops[q].Opening? ==> s.ops[q].key in s.births && s.ops[q].key !in own)
    && (forall t :: t in s.locks ==> s.locks[t] != o)
  }

  // ---- Its own events ----

  /** The request's own part of `Private`. */
  predicate OwnOp(op: Op, own: set<Key>) {
    op.Reading? || (op.Storing? && op.key in own) || (op.Cleaning? && forall k :: k in op.keys ==> k in own)
  }

  lemma StoreErases(s: State, o: OpId, op: Op, k: Key, obj: Object, birth: Birth, own: set<Key>)
    requires k !in s.births && k !in s.bucket && k !in s.life
    ensures Erased(s.(bucket := s.bucket[k := obj], births := s.births[k := birth], life := s.life[k := Written], ops := s.ops[o := op]),
                   o, own + {k}) == Erased(s, o, own)
  {
    assert s.bucket[k := obj] - (own + {k}) == s.bucket - own;
    assert s.births[k := birth] - (own + {k}) == s.births - own;
    assert s.life[k := Written] - (own + {k}) == s.life - own;
    assert s.ops[o := op] - {o} == s.ops - {o};
  }

  lemma StoreStaysPrivate(s: State, s': State, o: OpId, k: Key, own: set<Key>)
    requires Private(s, o, own) && k !in s.births && s'.locks == s.locks
    requires o in s'.ops && s'.ops == s.ops[o := s'.ops[o]] && s'.ops[o].Storing? && s'.ops[o].key == k
    requires k in s'.births && s'.births == s.births[k := s'.births[k]] && s'.births[k].owner == o
    requires s'.life == s.life[k := Written]
    ensures Private(s', o, own + {k})
  {
  }

  lemma OpIsErased(s: State, o: OpId, op: Op, own: set<Key>)
    requires Private(s, o, own) && OwnOp(op, own)
    ensures Erased(WithOp(s, o, op), o, own) == Erased(s, o, own) && Private(WithOp(s, o, op), o, own)
  {
    assert s.ops[o := op] - {o} == s.ops - {o};
  }

  lemma EndIsErased(s: State, o: OpId, own: set<Key>)
    requires Private(s, o, own)
    ensures Erased(WithoutOp(s, o), o, own) == Erased(s, o, own) && Private(WithoutOp(s, o), o, own)
  {
    assert Released(s.locks, o) == s.locks;
    assert (s.ops - {o}) - {o} == s.ops - {o};
  }

  lemma RemovalIsErased(s: State, o: OpId, own: set<Key>, k: Key)
    requires Private(s, o, own) && k in own
    ensures Erased(s.(bucket := s.bucket - {k}), o, own) == Erased(s, o, own) && Private(s.(bucket := s.bucket - {k}), o, own)
  {
    assert (s.bucket - {k}) - own == s.bucket - own;
  }

  lemma StoreIsErased(p: Params, s: State, e: Event, o: OpId, own: set<Key>)
    requires HistoryOk(p, s) && Private(s, o, own) && Enabled(p, s, e) && e.StoreObject? && e.op == o
    ensures var own' := OwnAfter(s, e, o, own, p);
            Erased(Apply(p, s, e), o, own') == Erased(s, o, own) && Private(Apply(p, s, e), o, own')
  {
    var s' := Apply(p, s, e);
    var k := s'.ops[o].key;
    StoreErases(s, o, s'.ops[o], k, s'.bucket[k], s'.births[k], own);
    StoreStaysPrivate(s, s', o, k, own);
  }

  /** Outside its own objects, an event of the request changes nothing. */
  lemma OwnStep(p: Params, s: State, e: Event, o: OpId, own: set<Key>)
    requires HistoryOk(p, s) && Private(s, o, own) && Enabled(p, s, e) && Actor(e) == o && Unrecorded(e)
    ensures var own' := OwnAfter(s, e, o, own, p);
            Erased(Apply(p, s, e), o, own') == Erased(s, o, own) && Private(Apply(p, s, e), o, own')
  {
    if e.StoreObject? {
      StoreIsErased(p, s, e, o, own);
    } else if e.EndRequest? || e.Crash? {
      EndIsErased(s, o, own);
    } else if e.BeginUpload? {
      OpIsErased(s, o, Reading(e.track, s.rows[e.track].key), own);
    } else if e.RefuseFile? {
      OpIsErased(s, o, Cleaning([s.ops[o].key]), own);
    } else {
      CleaningIsErased(p, s, e, o, own);
    }
  }

  lemma CleaningIsErased(p: Params, s: State, e: Event, o: OpId, own: set<Key>)
    requires Private(s, o, own) && Enabled(p, s, e) && Actor(e) == o && (e.RemoveObject? || e.FailRemove?)
    ensures Erased(Apply(p, s, e), o, own) == Erased(s, o, own) && Private(Apply(p, s, e), o, own)
  {
    var keys := s.ops[o].keys;
    assert keys[0] in keys && forall k :: k in keys[1..] ==> k in keys;
    if e.RemoveObject? {
      RemovalIsErased(s, o, own, keys[0]);
      OpIsErased(s.(bucket := s.bucket - {keys[0]}), o, Cleaning(keys[1..]), own);
    } else {
      OpIsErased(s, o, Cleaning(keys[1..]), own);
    }
  }

  // ---- The events of others ----

  /** The event is as possible without the request as with it, and does the same. */
  ghost predicate Commutes(p: Params, s: State, e: Event, o: OpId, own: set<Key>) {
    && Enabled(p, s, e) && Enabled(p, Erased(s, o, own), e)
    && Apply(p, Erased(s, o, own), e) == Erased(Apply(p, s, e), o, own)
    && Private(Apply(p, s, e), o, own)
  }

  lemma OthersOp(s: State, o: OpId, own: set<Key>, q: OpId, op: Op)
    requires Private(s, o, own) && q != o && (op.Opening? ==> op.key in s.births && op.key !in own)
    ensures WithOp(Erased(s, o, own), q, op) == Erased(WithOp(s, q, op), o, own) && Private(WithOp(s, q, op), o, own)
  {
    assert s.ops[q := op] - {o} == (s.ops - {o})[q := op];
  }

  lemma CreationCommutes(p: Params, s: State, e: Event, o: OpId, own: set<Key>)
    requires Private(s, o, own) && Enabled(p, s, e) && (e.Tick? || e.CreateArtist? || e.CreateTrack?)
    ensures Commutes(p, s, e, o, own)
  {
    var s' := Apply(p, s, e);
    SameHistory(s, s', o, own);
  }

  lemma SameHistory(s: State, s': State, o: OpId, own: set<Key>)
    requires Private(s, o, own)
    requires s'.ops == s.ops && s'.births == s.births && s'.life == s.life && s'.locks == s.locks
    ensures Private(s', o, own)
  {
  }

  lemma BeginCommutes(p: Params, s: State, e: Event, o: OpId, own: set<Key>)
    requires Private(s, o, own) && Enabled(p, s, e) && e.BeginUpload? && e.op != o
    ensures Commutes(p, s, e, o, own)
  {
    OthersOp(s, o, own, e.op, Reading(e.track, s.rows[e.track].key));
  }

  lemma RefusalCommutes(p: Params, s: State, e: Event, o: OpId, own: set<Key>)
    requires Private(s, o, own) && Enabled(p, s, e) && e.RefuseFile? && e.op != o
    ensures Commutes(p, s, e, o, own)
  {
    OthersOp(s, o, own, e.op, Cleaning([s.ops[e.op].key]));
  }

  lemma StoringCommutes(s: State, o: OpId, own: set<Key>, q: OpId, k: Key, obj: Object, birth: Birth, op: Op)
    requires Private(s, o, own) && q != o && k !in s.births && op.Storing?
    ensures var s' := s.(bucket := s.bucket[k := obj], births := s.births[k := birth], life := s.life[k := Written], ops := s.ops[q := op]);
            var r := Erased(s, o, own);
            && Erased(s', o, own) == r.(bucket := r.bucket[k := obj], births := r.births[k := birth], life := r.life[k := Written], ops := r.ops[q := op])
            && Private(s', o, own)
  {
    assert k !in own;
    assert s.bucket[k := obj] - own == (s.bucket - own)[k := obj];
    assert s.births[k := birth] - own == (s.births - own)[k := birth];
    assert s.life[k := Written] - own == (s.life - own)[k := Written];
    assert s.ops[q := op] - {o} == (s.ops - {o})[q := op];
  }

  lemma StoreCommutes(p: Params, s: State, e: Event, o: OpId, own: set<Key>)
    requires Private(s, o, own) && Enabled(p, s, e) && e.StoreObject? && e.op != o
    ensures Commutes(p, s, e, o, own)
  {
    var s' := Apply(p, s, e);
    var k := s'.ops[e.op].key;
    StoringCommutes(s, o, own, e.op, k, s'.bucket[k], s'.births[k], s'.ops[e.op]);
  }

  lemma RecordCommutes(p: Params, s: State, e: Event, o: OpId, own: set<Key>)
    requires Private(s, o, own) && Enabled(p, s, e) && e.RecordFile? && e.op != o && RecordReady(s, e.op)
    ensures Commutes(p, s, e, o, own)
  {
    var s' := Apply(p, s, e);
    assert s.ops[e.op].key !in own;
    assert s'.ops - {o} == (s.ops - {o})[e.op := s'.ops[e.op]];
    assert s'.life - own == Apply(p, Erased(s, o, own), e).life;
  }

  lemma RemovingCommutes(s: State, o: OpId, own: set<Key>, q: OpId, k: Key, op: Op)
    requires Private(s, o, own) && q != o && !op.Opening?
    ensures var s' := WithOp(s.(bucket := s.bucket - {k}), q, op);
            && Erased(s', o, own) == WithOp(Erased(s, o, own).(bucket := Erased(s, o, own).bucket - {k}), q, op)
            && Private(s', o, own)
  {
    assert (s.bucket - {k}) - own == (s.bucket - own) - {k};
    OthersOp(s.(bucket := s.bucket - {k}), o, own, q, op);
  }

  lemma CleanupCommutes(p: Params, s: State, e: Event, o: OpId, own: set<Key>)
    requires Private(s, o, own) && Enabled(p, s, e) && (e.RemoveObject? || e.FailRemove?) && e.op != o
    ensures Commutes(p, s, e, o, own)
  {
    var op := Cleaning(s.ops[e.op].keys[1..]);
    if e.RemoveObject? { RemovingCommutes(s, o, own, e.op, s.ops[e.op].keys[0], op); } else { OthersOp(s, o, own, e.op, op); }
  }

  lemma WithoutCommutes(s: State, o: OpId, own: set<Key>, q: OpId)
    requires Private(s, o, own) && q != o
    ensures WithoutOp(Erased(s, o, own), q) == Erased(WithoutOp(s, q), o, own) && Private(WithoutOp(s, q), o, own)
  {
    assert (s.ops - {q}) - {o} == (s.ops - {o}) - {q};
  }

  lemma EndCommutes(p: Params, s: State, e: Event, o: OpId, own: set<Key>)
    requires Private(s, o, own) && Enabled(p, s, e) && (e.EndRequest? || e.RollBack? || e.Crash?) && e.op != o
    ensures Commutes(p, s, e, o, own)
  {
    WithoutCommutes(s, o, own, e.op);
  }

  lemma DropCommutes(s: State, o: OpId, own: set<Key>, ts: set<TrackId>)
    requires Private(s, o, own) && NamedAreNot(s, own)
    ensures DropRows(Erased(s, o, own), ts) == Erased(DropRows(s, ts), o, own) && Private(DropRows(s, ts), o, own)
  {
    assert DropRows(Erased(s, o, own), ts).life == DropRows(s, ts).life - own;
  }

  ghost predicate NamedAreNot(s: State, own: set<Key>) {
    forall t :: t in s.rows && s.rows[t].key.Some? ==> s.rows[t].key.value in s.births && s.rows[t].key.value !in own
  }

  lemma DeleteCommutes(p: Params, s: State, e: Event, o: OpId, own: set<Key>)
    requires Private(s, o, own) && NamedAreNot(s, own) && Enabled(p, s, e) && e.DeleteTrack? && e.op != o
    ensures Commutes(p, s, e, o, own)
  {
    DropCommutes(s, o, own, {e.track});
    OthersOp(DropRows(s, {e.track}), o, own, e.op, Cleaning(ToRemove(s.rows[e.track].key)));
  }

  lemma SelectCommutes(p: Params, s: State, e: Event, o: OpId, own: set<Key>)
    requires Private(s, o, own) && Enabled(p, s, e) && e.SelectTracks? && e.op != o
    ensures Commutes(p, s, e, o, own)
  {
    assert TracksOf(Erased(s, o, own), e.artist) == TracksOf(s, e.artist);
    OthersOp(s, o, own, e.op, Deleting(e.artist, TracksOf(s, e.artist), TracksOf(s, e.artist), {}, []));
  }

  lemma LockingCommutes(s: State, o: OpId, own: set<Key>, q: OpId, t: TrackId)
    requires Private(s, o, own) && q != o && q in s.ops && s.ops[q].Deleting?
    ensures Lock(Erased(s, o, own), q, t) == Erased(Lock(s, q, t), o, own) && Private(Lock(s, q, t), o, own)
  {
    var op := Lock(s, q, t).ops[q];
    assert s.ops[q := op] - {o} == (s.ops - {o})[q := op];
  }

  lemma LockCommutes(p: Params, s: State, e: Event, o: OpId, own: set<Key>)
    requires Private(s, o, own) && Enabled(p, s, e) && e.LockTrack? && e.op != o
    ensures Commutes(p, s, e, o, own)
  {
    LockingCommutes(s, o, own, e.op, e.track);
  }

  lemma CascadingCommutes(s: State, o: OpId, own: set<Key>, q: OpId)
    requires Private(s, o, own) && NamedAreNot(s, own) && q != o && q in s.ops && s.ops[q].Deleting?
    ensures Cascade(Erased(s, o, own), q) == Erased(Cascade(s, q), o, own) && Private(Cascade(s, q), o, own)
  {
    var ts := TracksOf(s, s.ops[q].artist);
    assert TracksOf(Erased(s, o, own), s.ops[q].artist) == ts;
    DropCommutes(s, o, own, ts);
    OthersOp(DropRows(s, ts), o, own, q, Cleaning(s.ops[q].keys));
  }

  lemma CascadeCommutes(p: Params, s: State, e: Event, o: OpId, own: set<Key>)
    requires Private(s, o, own) && NamedAreNot(s, own) && Enabled(p, s, e) && e.CascadeArtist? && e.op != o
    ensures Commutes(p, s, e, o, own)
  {
    CascadingCommutes(s, o, own, e.op);
  }

  lemma StreamCommutes(p: Params, s: State, e: Event, o: OpId, own: set<Key>)
    requires Private(s, o, own) && NamedAreNot(s, own) && Enabled(p, s, e) && (e.OpenStream? || e.FetchStream?) && e.op != o
    ensures Commutes(p, s, e, o, own)
  {
    OthersOp(s, o, own, e.op, Apply(p, s, e).ops[e.op]);
  }

  lemma NamedAreOthers(p: Params, s: State, o: OpId, own: set<Key>)
    requires RowsOk(p, s) && Private(s, o, own)
    ensures NamedAreNot(s, own)
  {
    forall t | t in s.rows && s.rows[t].key.Some?
      ensures s.rows[t].key.value in s.births && s.rows[t].key.value !in own
    {
      assert RowOk(p, s, t);
    }
  }

  lemma OthersUpload(p: Params, s: State, e: Event, o: OpId, own: set<Key>)
    requires Private(s, o, own) && Enabled(p, s, e) && IsUploadEvent(e) && e.op != o && (e.RecordFile? ==> RecordReady(s, e.op))
    ensures Commutes(p, s, e, o, own)
  {
    if e.BeginUpload? { BeginCommutes(p, s, e, o, own); }
    else if e.StoreObject? { StoreCommutes(p, s, e, o, own); }
    else if e.RecordFile? { RecordCommutes(p, s, e, o, own); }
    else if e.RefuseFile? { RefusalCommutes(p, s, e, o, own); }
    else { CleanupCommutes(p, s, e, o, own); }
  }

  lemma OthersCatalogue(p: Params, s: State, e: Event, o: OpId, own: set<Key>)
    requires Private(s, o, own) && NamedAreNot(s, own) && Enabled(p, s, e) && IsCatalogueEvent(e) && Actor(e) != o
    ensures Commutes(p, s, e, o, own)
  {
    match e
    case DeleteTrack(_, _) => DeleteCommutes(p, s, e, o, own);
    case SelectTracks(_, _) => SelectCommutes(p, s, e, o, own);
    case LockTrack(_, _) => LockCommutes(p, s, e, o, own);
    case CascadeArtist(_) => CascadeCommutes(p, s, e, o, own);
    case _ => CreationCommutes(p, s, e, o, own);
  }

  lemma OtherStep(p: Params, s: State, e: Event, o: OpId, own: set<Key>)
    requires Core(p, s) && Private(s, o, own) && Enabled(p, s, e) && !IsSweepEvent(e) && Actor(e) != o
    ensures Commutes(p, s, e, o, own)
  {
    if IsUploadEvent(e) {
      if e.RecordFile? { RecordIsReady(p, s, e.op); }
      OthersUpload(p, s, e, o, own);
    } else {
      NamedAreOthers(p, s, o, own);
      if IsCatalogueEvent(e) { OthersCatalogue(p, s, e, o, own); }
      else if e.Tick? { CreationCommutes(p, s, e, o, own); }
      else if e.OpenStream? || e.FetchStream? { StreamCommutes(p, s, e, o, own); }
      else { EndCommutes(p, s, e, o, own); }
    }
  }

  // ---- Runs ----

  /** The objects request `o` writes in a run, added to `own`. */
  function WrittenIn(p: Params, s: State, es: seq<Event>, o: OpId, own: set<Key>): set<Key>
    requires Legal(p, s, es)
    decreases |es|
  {
    if es == [] then own else WrittenIn(p, Apply(p, s, es[0]), es[1..], o, OwnAfter(s, es[0], o, own, p))
  }

  lemma {:induction false} RunErases(p: Params, s: State, es: seq<Event>, o: OpId, own: set<Key>)
    requires Core(p, s) && Private(s, o, own) && Legal(p, s, es) && OnlyRefused(o, es)
    ensures Legal(p, Erased(s, o, own), Others(es, o))
    ensures Exec(p, Erased(s, o, own), Others(es, o)) == Erased(Exec(p, s, es), o, WrittenIn(p, s, es, o, own))
    ensures Private(Exec(p, s, es), o, WrittenIn(p, s, es, o, own))
    decreases |es|
  {
    if es != [] {
      var e := es[0];
      var s1 := Apply(p, s, e);
      StepKeepsCore(p, s, e);
      if Actor(e) == o {
        OwnStep(p, s, e, o, own);
        assert Others(es, o) == Others(es[1..], o);
      } else {
        OtherStep(p, s, e, o, own);
        var rest := Others(es[1..], o);
        assert Others(es, o)[0] == e && Others(es, o)[1..] == rest;
      }
      RunErases(p, s1, es[1..], o, OwnAfter(s, e, o, own, p));
    }
  }

  /** Nothing request `o` wrote is left in the bucket, but what it still has to refuse or remove. */
  ghost predicate CleansUp(s: State, o: OpId, own: set<Key>) {
    forall k :: k in own && k in s.bucket ==>
      o in s.ops && ((s.ops[o].Storing? && s.ops[o].key == k) || (s.ops[o].Cleaning? && k in s.ops[o].keys))
  }

  predicate NoFailure(o: OpId, es: seq<Event>) {
    forall e :: e in es && Actor(e) == o ==> !e.FailRemove? && !e.Crash?
  }

  lemma OwnStepCleans(p: Params, s: State, e: Event, o: OpId, own: set<Key>)
    requires HistoryOk(p, s) && Private(s, o, own) && CleansUp(s, o, own) && Enabled(p, s, e)
    requires Actor(e) == o && Unrecorded(e) && !e.FailRemove? && !e.Crash?
    ensures CleansUp(Apply(p, s, e), o, OwnAfter(s, e, o, own, p))
  {
    if e.RemoveObject? {
      var keys := s.ops[o].keys;
      assert forall k :: k in keys ==> k == keys[0] || k in keys[1..];
    }
  }

  lemma OtherStepCleans(p: Params, s: State, e: Event, o: OpId, own: set<Key>)
    requires Private(s, o, own) && CleansUp(s, o, own) && Enabled(p, s, e) && Actor(e) != o
    ensures CleansUp(Apply(p, s, e), o, own)
  {
    OnlyActorMoves(p, s, e);
    forall k | k in own && k in Apply(p, s, e).bucket ensures k in s.bucket { BucketGrowsByStore(p, s, e, k); }
  }

  lemma {:induction false} RunCleans(p: Params, s: State, es: seq<Event>, o: OpId, own: set<Key>)
    requires Core(p, s) && Private(s, o, own) && CleansUp(s, o, own) && Legal(p, s, es) && OnlyRefused(o, es) && NoFailure(o, es)
    ensures CleansUp(Exec(p, s, es), o, WrittenIn(p, s, es, o, own))
    decreases |es|
  {
    if es != [] {
      var e := es[0];
      assert e in es;
      StepKeepsCore(p, s, e);
      if Actor(e) == o {
        OwnStep(p, s, e, o, own);
        OwnStepCleans(p, s, e, o, own);
      } else {
        OtherStep(p, s, e, o, own);
        OtherStepCleans(p, s, e, o, own);
      }
      RunCleans(p, Apply(p, s, e), es[1..], o, OwnAfter(s, e, o, own, p));
    }
  }

  lemma NothingYet(s: State, o: OpId)
    requires LocksOk(s) && (forall q :: q in s.ops && s.ops[q].Opening? ==> s.ops[q].key in s.births) && o !in s.ops
    ensures Private(s, o, {}) && Erased(s, o, {}) == s && CleansUp(s, o, {})
  {
    forall t | t in s.locks ensures s.locks[t] != o { assert Holds(s, s.locks[t], t); }
    assert s.ops - {o} == s.ops && s.bucket - {} == s.bucket && s.births - {} == s.births && s.life - {} == s.life;
  }

  lemma OpeningsAreBorn(p: Params, s: State)
    requires OpsOk(p, s)
    ensures forall q :: q in s.ops && s.ops[q].Opening? ==> s.ops[q].key in s.births
  {
    forall q | q in s.ops && s.ops[q].Opening? ensures s.ops[q].key in s.births { assert OpOk(p, s, q, s.ops[q]); }
  }

  /** The same rows, artists, locks and clock, the same other requests, and the same objects but for those
      request `o` wrote. */
  ghost predicate SameBut(s: State, s': State, o: OpId, own: set<Key>) {
    && s'.rows == s.rows && s'.artists == s.artists && s'.locks == s.locks && s'.now == s.now && s'.ids == s.ids
    && s'.ops == s.ops - {o} && s'.bucket == s.bucket - own
  }

  /** Refused uploads leave no trace: take all events of a request whose uploads are refused, for whatever
      reason, out of any run of any other requests, and what is left is a run that ends with the same rows,
      the same other requests and the same objects but for the refused ones. Once the request has ended and
      its compensating deletes went through, the two buckets are equal. */
  lemma RefusedUploadsLeaveNoTrace(p: Params, s: State, es: seq<Event>, o: OpId)
    requires Proper(p) && Reachable(p, s) && o !in s.ops && Legal(p, s, es) && OnlyRefused(o, es)
    ensures Legal(p, s, Others(es, o))
    ensures SameBut(Exec(p, s, es), Exec(p, s, Others(es, o)), o, WrittenIn(p, s, es, o, {}))
    ensures NoFailure(o, es) && o !in Exec(p, s, es).ops ==> Exec(p, s, Others(es, o)).bucket == Exec(p, s, es).bucket
  {
    ReachableIsCore(p, s);
    OpeningsAreBorn(p, s);
    NothingYet(s, o);
    RunErases(p, s, es, o, {});
    if NoFailure(o, es) { RunCleans(p, s, es, o, {}); }
  }

  // ---- The refused object ----

  lemma {:induction false} GoneFromBucket(p: Params, s: State, es: seq<Event>, k: Key)
    requires Legal(p, s, es) && k in s.births && k !in s.bucket
    ensures k in Exec(p, s, es).births && k !in Exec(p, s, es).bucket
    decreases |es|
  {
    if es != [] {
      BirthsStay(p, s, es[0], k);
      if k in Apply(p, s, es[0]).bucket { BucketGrowsByStore(p, s, es[0], k); }
      GoneFromBucket(p, Apply(p, s, es[0]), es[1..], k);
    }
  }

  /** Once an upload is refused, no row names its object in any further run, sweeps and all; and once the
      object is out of the bucket it is out for good. */
  lemma RefusedKeyIsNeverNamed(p: Params, s: State, o: OpId, why: Refusal, es: seq<Event>, more: seq<Event>)
    requires Proper(p) && Reachable(p, s) && Enabled(p, s, RefuseFile(o, why))
    requires Legal(p, Apply(p, s, RefuseFile(o, why)), es)
    requires Legal(p, Exec(p, Apply(p, s, RefuseFile(o, why)), es), more)
    ensures var k := s.ops[o].key;
            var s1 := Exec(p, Apply(p, s, RefuseFile(o, why)), es);
            && (forall t :: t in s1.rows ==> s1.rows[t].key != Some(k))
            && (k !in s1.bucket ==> k !in Exec(p, s1, more).bucket)
  {
    var k := s.ops[o].key;
    var s1 := Apply(p, s, RefuseFile(o, why));
    ReachableIsCore(p, s);
    RefusedIsDead(p, s, o, why);
    StepKeepsCore(p, s, RefuseFile(o, why));
    DeadForever(p, s1, es, k);
    if k !in Exec(p, s1, es).bucket { GoneFromBucket(p, Exec(p, s1, es), more, k); }
  }

  lemma RefusedIsDead(p: Params, s: State, o: OpId, why: Refusal)
    requires OpsOk(p, s) && Enabled(p, s, RefuseFile(o, why))
    ensures Dead(p, Apply(p, s, RefuseFile(o, why)), s.ops[o].key)
  {
    assert OpOk(p, s, o, s.ops[o]);
  }
}
