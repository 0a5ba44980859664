/** The orphan sweep as a program, proved against the decisions of `SweepSpec`. */
module OrphanSweep {
  import opened Storage
  import opened SweepSpec

  datatype Call = ListBucket | ReadTrackKeys | ReadCoverKeys | ReadClock | Delete(key: Key) | Stat(key: Key)

  datatype Error = ListFailed | CatalogueFailed | DeleteFailed(key: Key) | StatUnclear(key: Key)

  /** The two stores and the clock as one sweep sees them. The constants are the answers the sweep is
      going to get, whatever else is running against the stores: the `n`th delete call succeeds iff
      `deletes(n)`, the `n`th stat call is answered `stats(n)`. */
  class World {
    const listing: Option<seq<ObjectInfo>>
    const trackKeys: Option<seq<Key>>
    const coverKeys: Option<seq<Key>>
    const clock: Time
    const deletes: nat -> bool
    const stats: nat -> StatAnswer
    var calls: seq<Call>
    var deleted: seq<Key>
    var asked: seq<Key>

    ghost predicate Fresh() reads this {
      calls == [] && deleted == [] && asked == []
    }

    constructor (listing: Option<seq<ObjectInfo>>, trackKeys: Option<seq<Key>>, coverKeys: Option<seq<Key>>,
                 clock: Time, deletes: nat -> bool, stats: nat -> StatAnswer)
      ensures Fresh() && this.listing == listing && this.trackKeys == trackKeys && this.coverKeys == coverKeys
      ensures this.clock == clock && this.deletes == deletes && this.stats == stats
    {
      this.listing, this.trackKeys, this.coverKeys := listing, trackKeys, coverKeys;
      this.clock, this.deletes, this.stats := clock, deletes, stats;
      calls, deleted, asked := [], [], [];
    }

    method List() returns (r: Option<seq<ObjectInfo>>)
      modifies this`calls
      ensures r == listing && calls == old(calls) + [ListBucket]
    {
      calls := calls + [ListBucket];
      r := listing;
    }

    /** The catalogue read: every track's key and then every album's cover key. */
    method Referenced() returns (r: Option<seq<Key>>)
      modifies this`calls
      ensures r == if trackKeys.None? || coverKeys.None? then None else Some(trackKeys.value + coverKeys.value)
      ensures calls == old(calls) + [ReadTrackKeys] + (if trackKeys.None? then [] else [ReadCoverKeys])
    {
      calls := calls + [ReadTrackKeys];
      if trackKeys.None? { return None; }
      calls := calls + [ReadCoverKeys];
      if coverKeys.None? { return None; }
      r := Some(trackKeys.value + coverKeys.value);
    }

    method Now() returns (t: Time)
      modifies this`calls
      ensures t == clock && calls == old(calls) + [ReadClock]
    {
      calls := calls + [ReadClock];
      t := clock;
    }

    method Remove(key: Key) returns (ok: bool)
      modifies this`calls, this`deleted
      ensures ok == deletes(|old(deleted)|)
      ensures deleted == old(deleted) + [key] && calls == old(calls) + [Delete(key)]
    {
      ok := deletes(|deleted|);
      deleted := deleted + [key];
      calls := calls + [Delete(key)];
    }

    method Ask(key: Key) returns (answer: StatAnswer)
      modifies this`calls, this`asked
      ensures answer == stats(|old(asked)|)
      ensures asked == old(asked) + [key] && calls == old(calls) + [Stat(key)]
    {
      answer := stats(|asked|);
      asked := asked + [key];
      calls := calls + [Stat(key)];
    }
  }

  function DeleteCalls(keys: seq<Key>): seq<Call> {
    seq(|keys|, i requires 0 <= i < |keys| => Delete(keys[i]))
  }

  function StatCalls(keys: seq<Key>): seq<Call> {
    seq(|keys|, i requires 0 <= i < |keys| => Stat(keys[i]))
  }

  function Answers(stats: nat -> StatAnswer, n: nat): seq<StatAnswer> {
    seq(n, i requires 0 <= i < n => stats(i))
  }

  /** The failed calls, in the order they were made. */
  function DeleteErrors(keys: seq<Key>, deletes: nat -> bool): seq<Error> {
    if keys == [] then []
    else
      var n := |keys| - 1;
      DeleteErrors(keys[..n], deletes) + (if deletes(n) then [] else [DeleteFailed(keys[n])])
  }

  function StatErrors(keys: seq<Key>, stats: nat -> StatAnswer): seq<Error> {
    if keys == [] then []
    else
      var n := |keys| - 1;
      StatErrors(keys[..n], stats) + (if stats(n).StatFailed? then [StatUnclear(keys[n])] else [])
  }

  /** What one sweep does and answers: nothing after a failed read, and otherwise the calls, the report
      and the errors that follow from what it observed. The report does not depend on `dryRun` nor on
      which deletes failed. */
  ghost predicate Swept(w: World, grace: Time, dryRun: bool, calls: seq<Call>, deleted: seq<Key>, asked: seq<Key>,
                        report: Report, errs: seq<Error>)
  {
    if w.listing.None? then
      calls == [ListBucket] && deleted == asked == [] && report == Report([], [], []) && errs == [ListFailed]
    else if w.trackKeys.None? then
      calls == [ListBucket, ReadTrackKeys] && deleted == asked == [] && report == Report([], [], []) && errs == [CatalogueFailed]
    else if w.coverKeys.None? then
      calls == [ListBucket, ReadTrackKeys, ReadCoverKeys] && deleted == asked == []
      && report == Report([], [], []) && errs == [CatalogueFailed]
    else
      var listing := w.listing.value;
      var keys := w.trackKeys.value + w.coverKeys.value;
      var cutoff := w.clock - grace;
      && deleted == Deletes(dryRun, listing, keys, cutoff)
      && asked == Unlisted(listing, keys)
      && calls == [ListBucket, ReadTrackKeys, ReadCoverKeys, ReadClock] + DeleteCalls(deleted) + StatCalls(asked)
      && report == ReportOf(listing, keys, cutoff, Answers(w.stats, |asked|))
      && errs == DeleteErrors(deleted, w.deletes) + StatErrors(asked, w.stats)
  }

  method Sweep(w: World, grace: Time, dryRun: bool) returns (report: Report, errs: seq<Error>)
    requires w.Fresh()
    modifies w
    ensures Swept(w, grace, dryRun, w.calls, w.deleted, w.asked, report, errs)
  {
    report := Report([], [], []);
    var listed := w.List();
    if listed.None? { return report, [ListFailed]; }
    var referenced := w.Referenced();
    if referenced.None? { return report, [CatalogueFailed]; }
    var now := w.Now();
    report, errs := Compare(w, listed.value, referenced.value, now - grace, dryRun);
  }

  /** The part of the sweep after its reads: a set of what is referenced, then the two loops. */
  method Compare(w: World, objects: seq<ObjectInfo>, keys: seq<Key>, cutoff: Time, dryRun: bool)
    returns (report: Report, errs: seq<Error>)
    requires w.deleted == [] && w.asked == []
    modifies w`calls, w`deleted, w`asked
    ensures w.deleted == Deletes(dryRun, objects, keys, cutoff) && w.asked == Unlisted(objects, keys)
    ensures w.calls == old(w.calls) + DeleteCalls(w.deleted) + StatCalls(w.asked)
    ensures report == ReportOf(objects, keys, cutoff, Answers(w.stats, |w.asked|))
    ensures errs == DeleteErrors(w.deleted, w.deletes) + StatErrors(w.asked, w.stats)
  {
    var referencedSet: set<Key> := {};
    for i := 0 to |keys|
      invariant forall k :: k in referencedSet <==> k in keys[..i]
    {
      referencedSet := referencedSet + {keys[i]};
    }
    assert keys[..|keys|] == keys;
    var present: set<Key>;
    report, present, errs := RemoveOrphans(w, objects, keys, referencedSet, cutoff, dryRun);
    report, errs := AskForMissing(w, objects, keys, present, report, errs);
  }

  method RemoveOrphans(w: World, objects: seq<ObjectInfo>, ghost keys: seq<Key>, referenced: set<Key>, cutoff: Time, dryRun: bool)
    returns (report: Report, present: set<Key>, errs: seq<Error>)
    requires (forall k :: k in referenced <==> k in keys) && w.deleted == []
    modifies w`calls, w`deleted
    ensures w.deleted == Deletes(dryRun, objects, keys, cutoff)
    ensures w.calls == old(w.calls) + DeleteCalls(w.deleted)
    ensures report == Report(Pick(objects, keys, cutoff, Orphan), [], Pick(objects, keys, cutoff, Recent))
    ensures errs == DeleteErrors(w.deleted, w.deletes)
    ensures forall k :: k in present <==> IsListed(objects, k)
  {
    report, present, errs := Report([], [], []), {}, [];
    for i := 0 to |objects|
      invariant w.deleted == Deletes(dryRun, objects[..i], keys, cutoff)
      invariant w.calls == old(w.calls) + DeleteCalls(w.deleted)
      invariant report == Report(Pick(objects[..i], keys, cutoff, Orphan), [], Pick(objects[..i], keys, cutoff, Recent))
      invariant errs == DeleteErrors(w.deleted, w.deletes)
      invariant forall k :: k in present <==> IsListed(objects[..i], k)
    {
      var x := objects[i];
      assert objects[..i + 1] == objects[..i] + [x];
      ListedOneMore(objects[..i], x);
      PickOneMore(objects[..i], x, keys, cutoff);
      present := present + {x.key};
      if x.key in referenced { continue; }
      if x.lastModified > cutoff {
        report := report.(skipped := report.skipped + [x.key]);
        continue;
      }
      report := report.(orphaned := report.orphaned + [x.key]);
      if dryRun { continue; }
      CallsOneMore(w.deleted, x.key);
      DeletedOneMore(w.deleted, x.key, w.deletes);
      var ok := w.Remove(x.key);
      if !ok { errs := errs + [DeleteFailed(x.key)]; }
    }
    assert objects[..|objects|] == objects;
  }

  method AskForMissing(w: World, objects: seq<ObjectInfo>, keys: seq<Key>, present: set<Key>, report0: Report, errs0: seq<Error>)
    returns (report: Report, errs: seq<Error>)
    requires w.asked == [] && report0.missing == []
    requires forall k :: k in present <==> IsListed(objects, k)
    modifies w`calls, w`asked
    ensures w.asked == Unlisted(objects, keys)
    ensures w.calls == old(w.calls) + StatCalls(w.asked)
    ensures report == report0.(missing := Absent(w.asked, Answers(w.stats, |w.asked|)))
    ensures errs == errs0 + StatErrors(w.asked, w.stats)
  {
    report, errs := report0, errs0;
    for i := 0 to |keys|
      invariant w.asked == Unlisted(objects, keys[..i])
      invariant w.calls == old(w.calls) + StatCalls(w.asked)
      invariant report == report0.(missing := Absent(w.asked, Answers(w.stats, |w.asked|)))
      invariant errs == errs0 + StatErrors(w.asked, w.stats)
    {
      var key := keys[i];
      assert keys[..i + 1] == keys[..i] + [key];
      UnlistedOneMore(objects, keys[..i], key);
      if key in present { continue; }
      CallsOneMore(w.asked, key);
      AskedOneMore(w.asked, key, w.stats);
      AbsentOneMore(w.asked, key, w.stats);
      var answer := w.Ask(key);
      if answer.Found? { continue; }
      if answer.StatFailed? {
        errs := errs + [StatUnclear(key)];
        continue;
      }
      report := report.(missing := report.missing + [key]);
    }
    assert keys[..|keys|] == keys;
  }

  lemma ListedOneMore(seen: seq<ObjectInfo>, x: ObjectInfo)
    ensures forall k :: IsListed(seen + [x], k) <==> IsListed(seen, k) || k == x.key
  {
    forall k ensures IsListed(seen + [x], k) <==> IsListed(seen, k) || k == x.key {
      if IsListed(seen, k) {
        var i :| 0 <= i < |seen| && seen[i].key == k;
        assert (seen + [x])[i].key == k;
      }
      assert (seen + [x])[|seen|].key == x.key;
    }
  }

  lemma PickOneMore(seen: seq<ObjectInfo>, x: ObjectInfo, refs: seq<Key>, cutoff: Time)
    ensures forall v :: Pick(seen + [x], refs, cutoff, v)
                        == Pick(seen, refs, cutoff, v) + (if Judge(x, refs, cutoff) == v then [x.key] else [])
  {
    assert (seen + [x])[..|seen|] == seen;
  }

  lemma CallsOneMore(keys: seq<Key>, key: Key)
    ensures DeleteCalls(keys + [key]) == DeleteCalls(keys) + [Delete(key)]
    ensures StatCalls(keys + [key]) == StatCalls(keys) + [Stat(key)]
  {
  }

  lemma DeletedOneMore(keys: seq<Key>, key: Key, deletes: nat -> bool)
    ensures DeleteErrors(keys + [key], deletes)
            == DeleteErrors(keys, deletes) + (if deletes(|keys|) then [] else [DeleteFailed(key)])
  {
    assert (keys + [key])[..|keys|] == keys;
  }

  lemma UnlistedOneMore(listing: seq<ObjectInfo>, keys: seq<Key>, key: Key)
    ensures Unlisted(listing, keys + [key]) == Unlisted(listing, keys) + (if IsListed(listing, key) then [] else [key])
  {
    assert (keys + [key])[..|keys|] == keys;
  }

  lemma AskedOneMore(asked: seq<Key>, key: Key, stats: nat -> StatAnswer)
    ensures StatErrors(asked + [key], stats)
            == StatErrors(asked, stats) + (if stats(|asked|).StatFailed? then [StatUnclear(key)] else [])
  {
    assert (asked + [key])[..|asked|] == asked;
  }

  lemma AbsentOneMore(asked: seq<Key>, key: Key, stats: nat -> StatAnswer)
    ensures Absent(asked + [key], Answers(stats, |asked| + 1))
            == Absent(asked, Answers(stats, |asked|)) + (if stats(|asked|).NotFound? then [key] else [])
  {
    assert (asked + [key])[..|asked|] == asked;
    assert Answers(stats, |asked| + 1)[..|asked|] == Answers(stats, |asked|);
  }

  // ---- What the contract amounts to ----

  /** Both reads went through, so there was something to decide. */
  predicate Informed(w: World) {
    w.listing.Some? && w.trackKeys.Some? && w.coverKeys.Some?
  }

  /** A dry run makes no delete call; any other run deletes exactly what it reports as orphaned, in
      that order, whether or not the deletes succeed. */
  lemma DeletesWhatItReports(w: World, grace: Time, dryRun: bool, calls: seq<Call>, deleted: seq<Key>, asked: seq<Key>,
                             report: Report, errs: seq<Error>)
    requires Swept(w, grace, dryRun, calls, deleted, asked, report, errs)
    ensures deleted == if dryRun then [] else report.orphaned
    ensures forall k :: Delete(k) in calls ==> k in deleted
  {
    if Informed(w) {
      forall k | Delete(k) in calls ensures k in deleted {
        assert Delete(k) in [ListBucket, ReadTrackKeys, ReadCoverKeys, ReadClock] || Delete(k) in DeleteCalls(deleted)
               || Delete(k) in StatCalls(asked);
        assert Delete(k) !in StatCalls(asked);
      }
    }
  }

  /** A dry run, or a run whose deletes fail, gives the report a successful run would give. */
  lemma ReportIgnoresDeletes(w: World, v: World, grace: Time,
                             dry1: bool, calls1: seq<Call>, deleted1: seq<Key>, asked1: seq<Key>, report1: Report, errs1: seq<Error>,
                             dry2: bool, calls2: seq<Call>, deleted2: seq<Key>, asked2: seq<Key>, report2: Report, errs2: seq<Error>)
    requires w.listing == v.listing && w.trackKeys == v.trackKeys && w.coverKeys == v.coverKeys && w.clock == v.clock
    requires forall n :: w.stats(n) == v.stats(n)
    requires Swept(w, grace, dry1, calls1, deleted1, asked1, report1, errs1)
    requires Swept(v, grace, dry2, calls2, deleted2, asked2, report2, errs2)
    ensures report1 == report2
  {
    if Informed(w) {
      assert Answers(w.stats, |asked1|) == Answers(v.stats, |asked2|);
    }
  }

  lemma {:induction false} NoDeleteErrors(keys: seq<Key>, deletes: nat -> bool)
    ensures DeleteErrors(keys, deletes) == [] <==> forall i: nat :: i < |keys| ==> deletes(i)
  {
    if keys != [] { NoDeleteErrors(keys[..|keys| - 1], deletes); }
  }

  lemma {:induction false} NoStatErrors(keys: seq<Key>, stats: nat -> StatAnswer)
    ensures StatErrors(keys, stats) == [] <==> forall i: nat :: i < |keys| ==> !stats(i).StatFailed?
  {
    if keys != [] { NoStatErrors(keys[..|keys| - 1], stats); }
  }

  lemma {:induction false} FailedDeletesAreNamed(keys: seq<Key>, deletes: nat -> bool, k: Key)
    ensures DeleteFailed(k) in DeleteErrors(keys, deletes) <==> exists i: nat :: i < |keys| && keys[i] == k && !deletes(i)
    ensures StatUnclear(k) !in DeleteErrors(keys, deletes)
    decreases |keys|
  {
    if keys != [] {
      var n := |keys| - 1;
      FailedDeletesAreNamed(keys[..n], deletes, k);
      assert (exists i: nat :: i < n && keys[..n][i] == k && !deletes(i)) <==> (exists i: nat :: i < n && keys[i] == k && !deletes(i));
    }
  }

  lemma {:induction false} UnclearStatsAreNamed(keys: seq<Key>, stats: nat -> StatAnswer, k: Key)
    ensures StatUnclear(k) in StatErrors(keys, stats) <==> exists i: nat :: i < |keys| && keys[i] == k && stats(i).StatFailed?
    ensures DeleteFailed(k) !in StatErrors(keys, stats)
    decreases |keys|
  {
    if keys != [] {
      var n := |keys| - 1;
      UnclearStatsAreNamed(keys[..n], stats, k);
      assert (exists i: nat :: i < n && keys[..n][i] == k && stats(i).StatFailed?) <==> (exists i: nat :: i < n && keys[i] == k && stats(i).StatFailed?);
    }
  }

  /** Each failed delete and each unclear answer is named among the errors, and no other key is. */
  lemma ErrorsNameTheFailures(w: World, grace: Time, dryRun: bool, calls: seq<Call>, deleted: seq<Key>, asked: seq<Key>,
                              report: Report, errs: seq<Error>, k: Key)
    requires Swept(w, grace, dryRun, calls, deleted, asked, report, errs)
    ensures DeleteFailed(k) in errs <==> exists i: nat :: i < |deleted| && deleted[i] == k && !w.deletes(i)
    ensures StatUnclear(k) in errs <==> exists i: nat :: i < |asked| && asked[i] == k && w.stats(i).StatFailed?
    ensures ListFailed in errs <==> w.listing.None?
    ensures CatalogueFailed in errs <==> w.listing.Some? && (w.trackKeys.None? || w.coverKeys.None?)
  {
    if Informed(w) {
      FailedDeletesAreNamed(deleted, w.deletes, k);
      UnclearStatsAreNamed(asked, w.stats, k);
      OnlyOfTheLoops(deleted, w.deletes, asked, w.stats);
    }
  }

  lemma {:induction false} OnlyOfTheLoops(deleted: seq<Key>, deletes: nat -> bool, asked: seq<Key>, stats: nat -> StatAnswer)
    ensures ListFailed !in DeleteErrors(deleted, deletes) + StatErrors(asked, stats)
    ensures CatalogueFailed !in DeleteErrors(deleted, deletes) + StatErrors(asked, stats)
    decreases |deleted| + |asked|
  {
    if deleted != [] { OnlyOfTheLoops(deleted[..|deleted| - 1], deletes, [], stats); }
    if asked != [] { OnlyOfTheLoops([], deletes, asked[..|asked| - 1], stats); }
  }

  /** The sweep returns no error exactly when both reads, every delete it made and every question it
      asked went through; "no such object" is an answer, not an error. */
  lemma ErrorsAreFailures(w: World, grace: Time, dryRun: bool, calls: seq<Call>, deleted: seq<Key>, asked: seq<Key>,
                          report: Report, errs: seq<Error>)
    requires Swept(w, grace, dryRun, calls, deleted, asked, report, errs)
    ensures errs == [] <==>
      Informed(w) && (forall i: nat :: i < |deleted| ==> w.deletes(i)) && (forall i: nat :: i < |asked| ==> !w.stats(i).StatFailed?)
  {
    if Informed(w) {
      NoDeleteErrors(deleted, w.deletes);
      NoStatErrors(asked, w.stats);
    }
  }

  // ---- The partition of the listing ----

  /** The positions in the listing with verdict `v`, ascending. */
  function Positions(listing: seq<ObjectInfo>, refs: seq<Key>, cutoff: Time, v: Verdict): seq<nat> {
    if listing == [] then []
    else
      var n := |listing| - 1;
      Positions(listing[..n], refs, cutoff, v) + (if Judge(listing[n], refs, cutoff) == v then [n] else [])
  }

  /** Each verdict's report is the listing restricted to that verdict: every listed object falls under
      exactly one, none is lost or repeated, and listing order is kept. */
  lemma {:induction false} PickKeepsOrder(listing: seq<ObjectInfo>, refs: seq<Key>, cutoff: Time, v: Verdict)
    ensures var at := Positions(listing, refs, cutoff, v);
            var keys := Pick(listing, refs, cutoff, v);
            && |keys| == |at|
            && (forall i :: 0 <= i < |at| ==> at[i] < |listing| && keys[i] == listing[at[i]].key)
            && (forall i, j :: 0 <= i < j < |at| ==> at[i] < at[j])
            && (forall n: nat :: n < |listing| ==> (n in at <==> Judge(listing[n], refs, cutoff) == v))
  {
    if listing != [] {
      var front, x := listing[..|listing| - 1], listing[|listing| - 1];
      PickKeepsOrder(front, refs, cutoff, v);
      assert listing == front + [x];
      PickOneMore(front, x, refs, cutoff);
      PositionsOneMore(front, x, refs, cutoff, v);
    }
  }

  lemma PositionsOneMore(front: seq<ObjectInfo>, x: ObjectInfo, refs: seq<Key>, cutoff: Time, v: Verdict)
    requires forall i :: 0 <= i < |Positions(front, refs, cutoff, v)| ==> Positions(front, refs, cutoff, v)[i] < |front|
    ensures var at, more := Positions(front, refs, cutoff, v), Positions(front + [x], refs, cutoff, v);
            && more == at + (if Judge(x, refs, cutoff) == v then [|front|] else [])
            && |front| !in at
  {
    assert (front + [x])[..|front|] == front;
  }

  lemma {:induction false} VerdictsAddUp(listing: seq<ObjectInfo>, refs: seq<Key>, cutoff: Time)
    ensures |Pick(listing, refs, cutoff, Referenced)| + |Pick(listing, refs, cutoff, Recent)|
            + |Pick(listing, refs, cutoff, Orphan)| == |listing|
  {
    if listing != [] { VerdictsAddUp(listing[..|listing| - 1], refs, cutoff); }
  }
}
