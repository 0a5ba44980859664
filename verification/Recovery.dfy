/** One sweep with nothing else running puts the bucket right again. */
module Recovery {
  import opened Storage
  import opened Protocol
  import opened ProtocolInvariant
  import opened SweepSafety
  import opened SweepSpec

  /** Nothing but the clock and sweep `o` moves, the sweep is not dry, and every call it makes
      succeeds. */
  predicate Undisturbed(o: OpId, es: seq<Event>) {
    forall e :: e in es ==>
      || e.Tick?
      || (e.SweepMoves? && e.op == o
          && e.step != Remove(false) && e.step != TakeCutoff(true) && e.step != Stat(StatFailed))
  }

  ghost predicate IsReferenced(p: Params, s: State, k: Key) {
    k in NamedKeys(s) || k in p.covers
  }

  ghost predicate ShowsBucket(s0: State, listing: seq<ObjectInfo>) {
    forall x :: x in listing ==> x.key in s0.bucket && x.lastModified == s0.bucket[x.key].stamp
  }

  ghost predicate ShowsAll(s0: State, listing: seq<ObjectInfo>) {
    ShowsBucket(s0, listing) && forall k :: k in s0.bucket ==> IsListed(listing, k)
  }

  ghost predicate ShowsCatalogue(p: Params, s0: State, keys: seq<Key>) {
    forall k :: k in keys <==> IsReferenced(p, s0, k)
  }

  function Minus(bucket: map<Key, Object>, gone: seq<Key>): map<Key, Object> {
    map k | k in bucket && k !in gone :: bucket[k]
  }

  /** What the phases of an undisturbed sweep that began in `s0` have done so far. */
  ghost predicate Phase(p: Params, s0: State, s: State, w: SweepState) {
    match w
    case Listing(expected, seen) =>
      && s.bucket == s0.bucket && ShowsBucket(s0, seen)
      && (forall k :: k in s0.bucket ==> k in expected || IsListed(seen, k))
      && (forall k :: k in expected ==> !IsListed(seen, k))
    case Listed(listing) => s.bucket == s0.bucket && ShowsAll(s0, listing)
    case Read(listing, keys, readAt) => s.bucket == s0.bucket && ShowsAll(s0, listing) && ShowsCatalogue(p, s0, keys)
    case Removing(listing, keys, cutoff, left, _) =>
      && ShowsAll(s0, listing) && ShowsCatalogue(p, s0, keys) && s0.now - p.grace <= cutoff
      && RemovedSoFar(p, s0, s.bucket, Pick(listing, keys, cutoff, Orphan), left)
    case Statting(listing, keys, cutoff, answers, _) =>
      && ShowsAll(s0, listing) && ShowsCatalogue(p, s0, keys) && s0.now - p.grace <= cutoff
      && s.bucket == Minus(s0.bucket, Pick(listing, keys, cutoff, Orphan))
      && |answers| <= |Unlisted(listing, keys)| && (forall i :: 0 <= i < |answers| ==> answers[i] == NotFound)
    case Swept(listing, keys, cutoff, report, _, _) =>
      && ShowsAll(s0, listing) && ShowsCatalogue(p, s0, keys) && s0.now - p.grace <= cutoff
      && s.bucket == Minus(s0.bucket, Pick(listing, keys, cutoff, Orphan))
      && report == Report(Pick(listing, keys, cutoff, Orphan), Unlisted(listing, keys), Pick(listing, keys, cutoff, Recent))
  }

  ghost predicate Alone(p: Params, s0: State, s: State, o: OpId) {
    && s.rows == s0.rows && s.births == s0.births && s.life == s0.life && s0.now <= s.now
    && o in s.ops && s.ops[o].Sweep? && Phase(p, s0, s, s.ops[o].sweep)
  }

  lemma {:induction false} AllDenied(asked: seq<Key>, answers: seq<StatAnswer>)
    requires |answers| == |asked| && forall i :: 0 <= i < |answers| ==> answers[i] == NotFound
    ensures Absent(asked, answers) == asked
  {
    if asked != [] {
      var n := |asked| - 1;
      AllDenied(asked[..n], answers[..n]);
      assert asked == asked[..n] + [asked[n]];
    }
  }

  lemma ListedStays(seen: seq<ObjectInfo>, x: ObjectInfo)
    ensures forall k :: IsListed(seen, k) ==> IsListed(seen + [x], k)
    ensures IsListed(seen + [x], x.key)
  {
    forall k | IsListed(seen, k) ensures IsListed(seen + [x], k) {
      var i :| 0 <= i < |seen| && seen[i].key == k;
      assert (seen + [x])[i].key == k;
    }
    assert (seen + [x])[|seen|] == x;
  }

  lemma ObservingMoves(p: Params, s0: State, s: State, w: SweepState, step: SweepStep)
    requires RowsOk(p, s0) && s.rows == s0.rows && Phase(p, s0, s, w) && SweepEnabled(p, s, w, step)
    requires step.ListObject? || step.EndListing? || step.ReadCatalogue?
    ensures Phase(p, s0, s, SweepNext(p, s, w, step))
  {
    match step
    case ListObject(k) => ListedStays(w.seen, ObjectInfo(k, s.bucket[k].stamp));
    case EndListing =>
    case ReadCatalogue(keys) =>
      assert NamedKeys(s) == NamedKeys(s0);
      NamedArePast(p, s0, keys);
  }

  lemma CutoffMoves(p: Params, s0: State, s: State, w: SweepState)
    requires s0.now <= s.now && Phase(p, s0, s, w) && SweepEnabled(p, s, w, TakeCutoff(false))
    ensures Phase(p, s0, s, SweepNext(p, s, w, TakeCutoff(false)))
  {
    var orphans := Pick(w.listing, w.keys, s.now - p.grace, Orphan);
    assert orphans[..0] == [] && orphans[0..] == orphans;
    assert Minus(s0.bucket, []) == s0.bucket;
  }

  ghost predicate RemovedSoFar(p: Params, s0: State, bucket: map<Key, Object>, orphans: seq<Key>, left: seq<Key>) {
    && |left| <= |orphans| && left == orphans[|orphans| - |left|..]
    && bucket == Minus(s0.bucket, orphans[..|orphans| - |left|])
  }

  lemma RemovalMoves(p: Params, s0: State, bucket: map<Key, Object>, orphans: seq<Key>, left: seq<Key>)
    requires left != [] && RemovedSoFar(p, s0, bucket, orphans, left)
    ensures RemovedSoFar(p, s0, bucket - {left[0]}, orphans, left[1..])
  {
    var n := |orphans| - |left|;
    assert left[0] == orphans[n] && orphans[..n + 1] == orphans[..n] + [orphans[n]];
    assert left[1..] == orphans[n + 1..];
    assert bucket - {left[0]} == Minus(s0.bucket, orphans[..n + 1]);
  }

  lemma ClosingMoves(p: Params, s0: State, s: State, w: SweepState, step: SweepStep)
    requires Phase(p, s0, s, w) && SweepEnabled(p, s, w, step) && (step.EndRemoving? || step.Finish?)
    ensures Phase(p, s0, s, SweepNext(p, s, w, step))
  {
    if step.Finish? {
      AllDenied(Unlisted(w.listing, w.keys), w.answers);
    } else {
      var orphans := Pick(w.listing, w.keys, w.cutoff, Orphan);
      assert orphans[..|orphans|] == orphans;
    }
  }

  /** One move of an undisturbed sweep keeps what its phase says; only a removal touches the bucket. */
  lemma PhaseMoves(p: Params, s0: State, s: State, w: SweepState, step: SweepStep)
    requires RowsOk(p, s0) && s.rows == s0.rows && s0.now <= s.now && Phase(p, s0, s, w)
    requires SweepEnabled(p, s, w, step)
    requires step != Remove(false) && step != TakeCutoff(true) && step != Stat(StatFailed)
    ensures Phase(p, s0, SweepEffect(s, w, step), SweepNext(p, s, w, step))
  {
    match step
    case TakeCutoff(_) => CutoffMoves(p, s0, s, w);
    case Remove(_) => RemovalMoves(p, s0, s.bucket, Pick(w.listing, w.keys, w.cutoff, Orphan), w.left);
    case Stat(answer) => DenialMoves(p, s0, s, w, answer);
    case EndRemoving => ClosingMoves(p, s0, s, w, step);
    case Finish => ClosingMoves(p, s0, s, w, step);
    case _ => ObservingMoves(p, s0, s, w, step);
  }

  lemma DenialMoves(p: Params, s0: State, s: State, w: SweepState, answer: StatAnswer)
    requires Phase(p, s0, s, w) && SweepEnabled(p, s, w, Stat(answer)) && !answer.StatFailed?
    ensures Phase(p, s0, s, SweepNext(p, s, w, Stat(answer)))
  {
    UnlistedAre(w.listing, w.keys);
  }

  lemma PhaseIgnoresOps(p: Params, s0: State, s: State, s': State, w: SweepState)
    requires Phase(p, s0, s, w) && s'.bucket == s.bucket
    ensures Phase(p, s0, s', w)
  {
  }

  lemma StepStaysAlone(p: Params, s0: State, s: State, o: OpId, e: Event)
    requires RowsOk(p, s0) && Alone(p, s0, s, o) && Enabled(p, s, e) && Undisturbed(o, [e])
    ensures Alone(p, s0, Apply(p, s, e), o)
  {
    assert e in [e];
    var w := s.ops[o].sweep;
    var s' := Apply(p, s, e);
    if e.SweepMoves? {
      PhaseMoves(p, s0, s, w, e.step);
      PhaseIgnoresOps(p, s0, SweepEffect(s, w, e.step), s', SweepNext(p, s, w, e.step));
    } else {
      PhaseIgnoresOps(p, s0, s, s', w);
    }
  }

  lemma {:induction false} RunStaysAlone(p: Params, s0: State, s: State, o: OpId, es: seq<Event>)
    requires RowsOk(p, s0) && Alone(p, s0, s, o) && Legal(p, s, es) && Undisturbed(o, es)
    ensures Alone(p, s0, Exec(p, s, es), o)
    decreases |es|
  {
    if es != [] {
      assert es[0] in es;
      StepStaysAlone(p, s0, s, o, es[0]);
      RunStaysAlone(p, s0, Apply(p, s, es[0]), o, es[1..]);
    }
  }

  lemma QuietSweepEnds(p: Params, s0: State, o: OpId, es: seq<Event>)
    requires Core(p, s0) && Legal(p, s0, [BeginSweep(o)] + es) && Undisturbed(o, es)
    ensures Alone(p, s0, Exec(p, s0, [BeginSweep(o)] + es), o)
  {
    var begin := BeginSweep(o);
    assert ([begin] + es)[1..] == es;
    RunStaysAlone(p, s0, Apply(p, s0, begin), o, es);
  }

  /** What a finished quiet sweep reported and left behind. */
  ghost predicate Reported(p: Params, s0: State, s: State, w: SweepState)
    requires w.Swept?
  {
    && s.rows == s0.rows && s.bucket == Minus(s0.bucket, w.report.orphaned)
    && s0.now - p.grace <= w.cutoff
    && (forall k :: k in w.report.orphaned <==>
          k in s0.bucket && !IsReferenced(p, s0, k) && s0.bucket[k].stamp <= w.cutoff)
    && (forall k :: k in w.report.skipped <==>
          k in s0.bucket && !IsReferenced(p, s0, k) && s0.bucket[k].stamp > w.cutoff)
    && w.report.missing == Unlisted(w.listing, w.keys)
    && (forall k :: k in w.report.missing <==> IsReferenced(p, s0, k) && k !in s0.bucket)
  }

  lemma EndIsReport(p: Params, s0: State, s: State, w: SweepState)
    requires w.Swept? && s.rows == s0.rows && Phase(p, s0, s, w)
    ensures Reported(p, s0, s, w)
  {
    PickedFromBucket(s0, w.listing, w.keys, w.cutoff);
    UnlistedAre(w.listing, w.keys);
    ListedIffStored(s0, w.listing);
  }

  /** An undisturbed sweep reports the bucket's unreferenced objects, the old ones as orphaned and the
      recent ones as skipped, and the referenced keys that have no object as missing, in catalogue
      order and as often as they are referenced; and it has removed the orphans and nothing else. */
  lemma UndisturbedSweep(p: Params, s0: State, o: OpId, es: seq<Event>)
    requires Proper(p) && Reachable(p, s0) && Legal(p, s0, [BeginSweep(o)] + es) && Undisturbed(o, es)
    requires var s := Exec(p, s0, [BeginSweep(o)] + es); o in s.ops && s.ops[o].Sweep? && s.ops[o].sweep.Swept?
    ensures var s := Exec(p, s0, [BeginSweep(o)] + es); Reported(p, s0, s, s.ops[o].sweep)
  {
    ReachableIsCore(p, s0);
    QuietSweepEnds(p, s0, o, es);
    var s := Exec(p, s0, [BeginSweep(o)] + es);
    EndIsReport(p, s0, s, s.ops[o].sweep);
  }

  lemma ListedIffStored(s0: State, listing: seq<ObjectInfo>)
    requires ShowsAll(s0, listing)
    ensures forall k :: IsListed(listing, k) <==> k in s0.bucket
  {
    forall k | IsListed(listing, k) ensures k in s0.bucket {
      var i :| 0 <= i < |listing| && listing[i].key == k;
      assert listing[i] in listing;
    }
  }

  lemma PickedFromBucket(s0: State, listing: seq<ObjectInfo>, keys: seq<Key>, cutoff: Time)
    requires ShowsAll(s0, listing)
    ensures forall k :: k in Pick(listing, keys, cutoff, Orphan) <==>
              k in s0.bucket && k !in keys && s0.bucket[k].stamp <= cutoff
    ensures forall k :: k in Pick(listing, keys, cutoff, Recent) <==>
              k in s0.bucket && k !in keys && s0.bucket[k].stamp > cutoff
  {
    PickedKeys(listing, keys, cutoff, Orphan);
    PickedKeys(listing, keys, cutoff, Recent);
    forall i | 0 <= i < |listing|
      ensures listing[i].key in s0.bucket && listing[i].lastModified == s0.bucket[listing[i].key].stamp
    {
      assert listing[i] in listing;
    }
    forall k | k in s0.bucket ensures exists i :: 0 <= i < |listing| && listing[i].key == k {
      assert IsListed(listing, k);
    }
  }

  lemma FirstIsIn(keys: seq<Key>)
    ensures keys == [] || keys[0] in keys
  {
  }

  /** Recovery: after any history of crashes and failed deletes, once everything unreferenced is older
      than the grace window, one undisturbed sweep leaves exactly the referenced objects, reports no
      track's audio missing and skips nothing. */
  lemma SweepRecovers(p: Params, s0: State, o: OpId, es: seq<Event>)
    requires Proper(p) && Timely(p) && Reachable(p, s0)
    requires Legal(p, s0, [BeginSweep(o)] + es) && Undisturbed(o, es)
    requires var s := Exec(p, s0, [BeginSweep(o)] + es); o in s.ops && s.ops[o].Sweep? && s.ops[o].sweep.Swept?
    requires forall k :: k in s0.bucket && !IsReferenced(p, s0, k) ==> s0.bucket[k].stamp <= s0.now - p.grace
    ensures var s := Exec(p, s0, [BeginSweep(o)] + es);
            var report := s.ops[o].sweep.report;
            && s.rows == s0.rows
            && (forall k :: k in s.bucket <==> k in s0.bucket && IsReferenced(p, s, k))
            && (forall k: Key :: k.Audio? ==> (k in s.bucket <==> k in NamedKeys(s)))
            && (forall k: Key :: k in report.missing ==> k.Cover?) && report.skipped == []
  {
    ReachableIsTimed(p, s0);
    UndisturbedSweep(p, s0, o, es);
    NoRowDangles(p, s0);
    var s := Exec(p, s0, [BeginSweep(o)] + es);
    ReportedRecovery(p, s0, s, s.ops[o].sweep);
  }

  lemma ReportedRecovery(p: Params, s0: State, s: State, w: SweepState)
    requires Proper(p) && w.Swept? && Reported(p, s0, s, w) && NoneDangles(s0)
    requires forall k :: k in s0.bucket && !IsReferenced(p, s0, k) ==> s0.bucket[k].stamp <= s0.now - p.grace
    ensures forall k :: k in s.bucket <==> k in s0.bucket && IsReferenced(p, s, k)
    ensures forall k: Key :: k.Audio? ==> (k in s.bucket <==> k in NamedKeys(s))
    ensures (forall k: Key :: k in w.report.missing ==> k.Cover?) && w.report.skipped == []
  {
    assert NamedKeys(s) == NamedKeys(s0);
    FirstIsIn(w.report.skipped);
  }

  /** A sweep over a bucket that holds only referenced objects removes and skips nothing, and reports
      missing exactly the referenced keys that are not stored: within the timing bound only album covers
      that were never there. */
  lemma SecondSweepFindsNothing(p: Params, s0: State, o: OpId, es: seq<Event>)
    requires Proper(p) && Reachable(p, s0) && Legal(p, s0, [BeginSweep(o)] + es) && Undisturbed(o, es)
    requires var s := Exec(p, s0, [BeginSweep(o)] + es); o in s.ops && s.ops[o].Sweep? && s.ops[o].sweep.Swept?
    requires forall k :: k in s0.bucket ==> IsReferenced(p, s0, k)
    ensures var s := Exec(p, s0, [BeginSweep(o)] + es);
            s.ops[o].sweep.report.orphaned == [] && s.ops[o].sweep.report.skipped == [] && s.bucket == s0.bucket
    ensures var missing := Exec(p, s0, [BeginSweep(o)] + es).ops[o].sweep.report.missing;
            && (forall k :: k in missing <==> IsReferenced(p, s0, k) && k !in s0.bucket)
            && (Timely(p) ==> forall k :: k in missing <==> k in p.covers && k !in s0.bucket)
  {
    UndisturbedSweep(p, s0, o, es);
    var report := Exec(p, s0, [BeginSweep(o)] + es).ops[o].sweep.report;
    FirstIsIn(report.orphaned);
    FirstIsIn(report.skipped);
    assert Minus(s0.bucket, []) == s0.bucket;
    if Timely(p) { NoRowDangles(p, s0); }
  }

  // ---- An undisturbed sweep can always be carried to its end ----

  lemma SetAsSeq(keys: set<Key>) returns (q: seq<Key>)
    ensures multiset(q) == multiset(keys)
    decreases |keys|
  {
    if keys == {} {
      q := [];
    } else {
      var k :| k in keys;
      var rest := SetAsSeq(keys - {k});
      q := rest + [k];
    }
  }

  function Stage(w: SweepState): nat {
    match w
    case Listing(_, _) => 5
    case Listed(_) => 4
    case Read(_, _, _) => 3
    case Removing(_, _, _, _, _) => 2
    case Statting(_, _, _, _, _) => 1
    case Swept(_, _, _, _, _, _) => 0
  }

  function Work(w: SweepState): nat {
    match w
    case Listing(expected, _) => |expected|
    case Removing(_, _, _, left, _) => |left|
    case Statting(listing, keys, _, answers, _) =>
      var n := |Unlisted(listing, keys)|;
      if |answers| <= n then n - |answers| else 0
    case _ => 0
  }

  lemma NextMove(p: Params, s0: State, s: State, w: SweepState) returns (step: SweepStep)
    requires Phase(p, s0, s, w) && !w.Swept?
    requires w.Read? ==> s.now - w.readAt <= p.readToCutoff
    ensures SweepEnabled(p, s, w, step)
    ensures step != Remove(false) && step != TakeCutoff(true) && step != Stat(StatFailed)
    ensures w.Listing? && step.ListObject? ==> step.key in w.expected
  {
    match w
    case Listing(expected, _) =>
      if k :| k in expected && k in s.bucket { step := ListObject(k); } else { step := EndListing; }
    case Listed(_) =>
      var keys := SetAsSeq(NamedKeys(s));
      step := ReadCatalogue(keys);
    case Read(_, _, _) => step := TakeCutoff(false);
    case Removing(_, _, _, left, _) => step := if left != [] then Remove(true) else EndRemoving;
    case Statting(listing, keys, _, answers, _) =>
      var asked := Unlisted(listing, keys);
      step := if |answers| == |asked| then Finish
              else if asked[|answers|] in s.bucket then Stat(Found) else Stat(NotFound);
  }

  lemma MoveIsProgress(p: Params, s: State, w: SweepState, step: SweepStep)
    requires SweepEnabled(p, s, w, step)
    requires w.Listing? && step.ListObject? ==> step.key in w.expected
    ensures var w' := SweepNext(p, s, w, step); Stage(w') < Stage(w) || (Stage(w') == Stage(w) && Work(w') < Work(w))
  {
    if step.ListObject? { assert w.expected == (w.expected - {step.key}) + {step.key}; }
  }

  lemma {:induction false} FinishSweep(p: Params, s0: State, s: State, o: OpId) returns (es: seq<Event>)
    requires RowsOk(p, s0) && Alone(p, s0, s, o)
    requires s.ops[o].sweep.Read? ==> s.now - s.ops[o].sweep.readAt <= p.readToCutoff
    ensures Legal(p, s, es) && Undisturbed(o, es)
    ensures var s' := Exec(p, s, es); o in s'.ops && s'.ops[o].Sweep? && s'.ops[o].sweep.Swept?
    decreases Stage(s.ops[o].sweep), Work(s.ops[o].sweep)
  {
    var w := s.ops[o].sweep;
    if w.Swept? {
      es := [];
    } else {
      var step := NextMove(p, s0, s, w);
      var e := SweepMoves(o, step);
      assert Undisturbed(o, [e]);
      StepStaysAlone(p, s0, s, o, e);
      MoveIsProgress(p, s, w, step);
      var rest := FinishSweep(p, s0, Apply(p, s, e), o);
      es := [e] + rest;
      assert es[1..] == rest;
    }
  }

  /** From every reachable state a sweep can run undisturbed to its report, so the recovery theorem
      is never about no run at all. */
  lemma SweepCanAlwaysFinish(p: Params, s0: State, o: OpId) returns (es: seq<Event>)
    requires Proper(p) && Reachable(p, s0) && o !in s0.ops
    ensures Legal(p, s0, [BeginSweep(o)] + es) && Undisturbed(o, es)
    ensures var s := Exec(p, s0, [BeginSweep(o)] + es); o in s.ops && s.ops[o].Sweep? && s.ops[o].sweep.Swept?
  {
    ReachableIsCore(p, s0);
    var s1 := Apply(p, s0, BeginSweep(o));
    es := FinishSweep(p, s0, s1, o);
    assert ([BeginSweep(o)] + es)[1..] == es;
  }
}
