/** The maintenance command around the sweep, and the tie between the sweep as a program and the
    sweep as a process of the protocol. */
module SweepCommand {
  import opened Storage
  import opened SweepSpec
  import opened OrphanSweep
  import P = Protocol
  import I = ProtocolInvariant
  import S = SweepSafety
  import B = SweepBound

  // In seconds.
  const GC_GRACE_PERIOD: Time := 3600

  datatype About = Removed | WouldRemove | RowWithoutObject | TooRecent

  datatype LogLine =
    | SweepFailed
    | About(what: About, key: Key)
    | Complete(orphaned: nat, missing: nat, skipped: nat, dryRun: bool)

  function Lines(what: About, keys: seq<Key>): seq<LogLine> {
    seq(|keys|, i requires 0 <= i < |keys| => LogLine.About(what, keys[i]))
  }

  function LogOf(report: Report, failed: bool, dryRun: bool): seq<LogLine> {
    (if failed then [SweepFailed] else [])
    + Lines(if dryRun then WouldRemove else Removed, report.orphaned)
    + Lines(RowWithoutObject, report.missing)
    + Lines(TooRecent, report.skipped)
    + [Complete(|report.orphaned|, |report.missing|, |report.skipped|, dryRun)]
  }

  method LogEach(log0: seq<LogLine>, what: About, keys: seq<Key>) returns (log: seq<LogLine>)
    ensures log == log0 + Lines(what, keys)
  {
    log := log0;
    for i := 0 to |keys|
      invariant log == log0 + Lines(what, keys[..i])
    {
      log := log + [LogLine.About(what, keys[i])];
    }
    assert keys[..|keys|] == keys;
  }

  /** Runs one sweep with the configured grace and logs its report, one line per key, even when some
      of its calls failed. */
  method RunOrphanSweep(w: World, dryRun: bool) returns (log: seq<LogLine>, errs: seq<Error>)
    requires w.Fresh()
    modifies w
    ensures exists report ::
      && Swept(w, GC_GRACE_PERIOD, dryRun, w.calls, w.deleted, w.asked, report, errs)
      && log == LogOf(report, errs != [], dryRun)
  {
    var report;
    report, errs := Sweep(w, GC_GRACE_PERIOD, dryRun);
    log := if errs != [] then [SweepFailed] else [];
    log := LogEach(log, if dryRun then WouldRemove else Removed, report.orphaned);
    log := LogEach(log, RowWithoutObject, report.missing);
    log := LogEach(log, TooRecent, report.skipped);
    log := log + [Complete(|report.orphaned|, |report.missing|, |report.skipped|, dryRun)];
  }

  /** The configured hour protects every upload whose row follows its object within the read timeout's
      quarter of an hour, as long as the sweep's own delay and the clocks' disagreement stay below 45 minutes. */
  lemma HourOfGraceIsEnough(p: P.Params, s: P.State)
    requires P.Proper(p) && P.Reachable(p, s)
    requires p.grace == GC_GRACE_PERIOD && p.commitWithin <= 900
    requires p.readToCutoff + p.skew < 2700
    ensures S.NoneDangles(s)
  {
    S.NoRowDangles(p, s);
  }

  /** And 45 minutes is exact: with uploads that take the whole quarter of an hour, a sweep that is any later,
      or on a clock that strays further, removes the audio of some row. */
  lemma HourOfGraceIsExact(p: P.Params)
    requires P.Proper(p) && p.grace == GC_GRACE_PERIOD && p.commitWithin == 900 && p.cap >= 2
    ensures (forall s :: P.Reachable(p, s) ==> S.NoneDangles(s)) <==> p.readToCutoff + p.skew < 2700
  {
    B.BoundIsExact(p);
  }

  /** What the command does to an object nothing refers to, with the hour written out: older than that it is
      deleted, and reported, and younger it is reported as too recent. */
  lemma HourDecides(w: World, dryRun: bool, calls: seq<Call>, deleted: seq<Key>, asked: seq<Key>, report: Report, errs: seq<Error>)
    requires Swept(w, GC_GRACE_PERIOD, dryRun, calls, deleted, asked, report, errs) && Informed(w)
    ensures forall k :: k in report.orphaned <==>
              Unreferenced(w, k) && exists i :: 0 <= i < |w.listing.value| && w.listing.value[i].key == k
                                                && w.listing.value[i].lastModified <= w.clock - 3600
    ensures forall k :: k in report.skipped <==>
              Unreferenced(w, k) && exists i :: 0 <= i < |w.listing.value| && w.listing.value[i].key == k
                                                && w.listing.value[i].lastModified > w.clock - 3600
    ensures deleted == if dryRun then [] else report.orphaned
  {
    var listing, keys := w.listing.value, w.trackKeys.value + w.coverKeys.value;
    I.PickedKeys(listing, keys, w.clock - GC_GRACE_PERIOD, Orphan);
    I.PickedKeys(listing, keys, w.clock - GC_GRACE_PERIOD, Recent);
  }

  /** No track and no album refers to the key. */
  predicate Unreferenced(w: World, k: Key)
    requires w.trackKeys.Some? && w.coverKeys.Some?
  {
    k !in w.trackKeys.value && k !in w.coverKeys.value
  }

  /** Every line of the log: which keys are said to have been removed, or only to be up for removal, to be
      missing or to be too recent, whether a failure is reported, and the last line's counts. */
  lemma LogSaysWhatHappened(report: Report, failed: bool, dryRun: bool)
    ensures var log := LogOf(report, failed, dryRun);
      && (forall k :: LogLine.About(Removed, k) in log <==> !dryRun && k in report.orphaned)
      && (forall k :: LogLine.About(WouldRemove, k) in log <==> dryRun && k in report.orphaned)
      && (forall k :: LogLine.About(RowWithoutObject, k) in log <==> k in report.missing)
      && (forall k :: LogLine.About(TooRecent, k) in log <==> k in report.skipped)
      && (SweepFailed in log <==> failed)
      && |log| > 0 && log[|log| - 1] == Complete(|report.orphaned|, |report.missing|, |report.skipped|, dryRun)
  {
    var first := if failed then [SweepFailed] else [];
    var orphaned := Lines(if dryRun then WouldRemove else Removed, report.orphaned);
    var missing, skipped := Lines(RowWithoutObject, report.missing), Lines(TooRecent, report.skipped);
    var last := [Complete(|report.orphaned|, |report.missing|, |report.skipped|, dryRun)];
    LinesAre(if dryRun then WouldRemove else Removed, report.orphaned);
    LinesAre(RowWithoutObject, report.missing);
    LinesAre(TooRecent, report.skipped);
    forall line ensures line in LogOf(report, failed, dryRun) <==>
      line in first || line in orphaned || line in missing || line in skipped || line in last {}
  }

  lemma LinesAre(what: About, keys: seq<Key>)
    ensures forall line :: line in Lines(what, keys) <==> line.About? && line.what == what && line.key in keys
  {
    forall k | k in keys ensures LogLine.About(what, k) in Lines(what, keys) {
      var i :| 0 <= i < |keys| && keys[i] == k;
      assert Lines(what, keys)[i] == LogLine.About(what, k);
    }
  }

  // ---- The program and the process ----

  /** The call sweep `o` makes with one event: a delete with how it went, or the answer to a question. */
  function DeletesBy(s: P.State, e: P.Event, o: P.OpId): seq<Removal> {
    if e.SweepMoves? && e.op == o && e.step.Remove? && o in s.ops && s.ops[o].Sweep? && s.ops[o].sweep.Removing?
       && s.ops[o].sweep.left != []
    then [Removal(s.ops[o].sweep.left[0], e.step.deleted)] else []
  }

  function AnswersBy(e: P.Event, o: P.OpId): seq<StatAnswer> {
    if e.SweepMoves? && e.op == o && e.step.Stat? then [e.step.answer] else []
  }

  /** The calls it makes in a run, in order. */
  function DeletesIn(p: P.Params, s: P.State, es: seq<P.Event>, o: P.OpId): seq<Removal>
    requires P.Legal(p, s, es)
    decreases |es|
  {
    if es == [] then [] else DeletesBy(s, es[0], o) + DeletesIn(p, P.Apply(p, s, es[0]), es[1..], o)
  }

  function AnswersIn(es: seq<P.Event>, o: P.OpId): seq<StatAnswer>
    decreases |es|
  {
    if es == [] then [] else AnswersBy(es[0], o) + AnswersIn(es[1..], o)
  }

  function Made(w: P.SweepState): seq<Removal> {
    if w.Removing? || w.Statting? || w.Swept? then w.deletions.made else []
  }

  function Heard(w: P.SweepState): seq<StatAnswer> {
    if w.Statting? || w.Swept? then w.answers else []
  }

  /** The event does not end sweep `o`. */
  predicate GoesOn(o: P.OpId, e: P.Event) {
    !((e.EndRequest? || e.Crash? || e.RollBack?) && e.op == o)
  }

  /** The sweep goes on from `w` with these further calls on its record. */
  ghost predicate Recorded(w: P.SweepState, s: P.State, o: P.OpId, made: seq<Removal>, heard: seq<StatAnswer>) {
    && o in s.ops && s.ops[o].Sweep?
    && Made(s.ops[o].sweep) == Made(w) + made && Heard(s.ops[o].sweep) == Heard(w) + heard
  }

  lemma StepRecords(p: P.Params, s: P.State, e: P.Event, o: P.OpId)
    requires P.Enabled(p, s, e) && GoesOn(o, e) && o in s.ops && s.ops[o].Sweep?
    ensures Recorded(s.ops[o].sweep, P.Apply(p, s, e), o, DeletesBy(s, e, o), AnswersBy(e, o))
  {
    if e.SweepMoves? && e.op == o {
    } else {
      OthersLeaveIt(p, s, e, o);
    }
  }

  lemma OthersLeaveIt(p: P.Params, s: P.State, e: P.Event, o: P.OpId)
    requires P.Enabled(p, s, e) && GoesOn(o, e) && o in s.ops && s.ops[o].Sweep? && !(e.SweepMoves? && e.op == o)
    ensures o in P.Apply(p, s, e).ops && P.Apply(p, s, e).ops[o] == s.ops[o]
  {
    I.OnlyActorMoves(p, s, e);
    if I.Actor(e) == o { SweepsOwnEvents(p, s, e, o); }
  }

  lemma SweepsOwnEvents(p: P.Params, s: P.State, e: P.Event, o: P.OpId)
    requires P.Enabled(p, s, e) && GoesOn(o, e) && o in s.ops && s.ops[o].Sweep? && I.Actor(e) == o
    ensures e.SweepMoves?
  {
  }

  lemma RecordsJoin(w: P.SweepState, s1: P.State, s2: P.State, o: P.OpId, made1: seq<Removal>, heard1: seq<StatAnswer>,
                    made2: seq<Removal>, heard2: seq<StatAnswer>)
    requires Recorded(w, s1, o, made1, heard1) && Recorded(s1.ops[o].sweep, s2, o, made2, heard2)
    ensures Recorded(w, s2, o, made1 + made2, heard1 + heard2)
  {
    assert (Made(w) + made1) + made2 == Made(w) + (made1 + made2);
    assert (Heard(w) + heard1) + heard2 == Heard(w) + (heard1 + heard2);
  }

  /** What a sweep has on record is what it did, whatever ran between its calls. */
  lemma {:induction false} SweepRecordsItsCalls(p: P.Params, s: P.State, es: seq<P.Event>, o: P.OpId)
    requires P.Legal(p, s, es) && (forall e :: e in es ==> GoesOn(o, e)) && o in s.ops && s.ops[o].Sweep?
    ensures Recorded(s.ops[o].sweep, P.Exec(p, s, es), o, DeletesIn(p, s, es, o), AnswersIn(es, o))
    decreases |es|
  {
    if es != [] {
      var s1 := P.Apply(p, s, es[0]);
      StepRecords(p, s, es[0], o);
      SweepRecordsItsCalls(p, s1, es[1..], o);
      RecordsJoin(s.ops[o].sweep, s1, P.Exec(p, s, es), o, DeletesBy(s, es[0], o), AnswersBy(es[0], o),
                  DeletesIn(p, s1, es[1..], o), AnswersIn(es[1..], o));
    }
  }

  /** The two models agree call by call: whatever interleaved with a sweep in the protocol, the program,
      shown the same listing, keys, clock, delete results and answers, makes the delete calls the sweep
      made, asks what it asked and gives its report; and it returns no error exactly when all of the
      sweep's deletes went through and every answer was definite. */
  lemma ProtocolSweepIsTheProgram(p: P.Params, s: P.State, o: P.OpId, w: World, calls: seq<Call>, deleted: seq<Key>,
                                  asked: seq<Key>, report: Report, errs: seq<Error>)
    requires P.Proper(p) && P.Reachable(p, s) && o in s.ops && s.ops[o].Sweep? && s.ops[o].sweep.Swept?
    requires SameView(w, p, s.ops[o].sweep)
    requires Swept(w, p.grace, s.ops[o].sweep.deletions.dry, calls, deleted, asked, report, errs)
    ensures var v := s.ops[o].sweep;
            && deleted == Tried(v.deletions.made) && |asked| == |v.answers| && report == v.report
            && asked == Unlisted(v.listing, v.keys)
            && (errs == [] <==> (forall i :: 0 <= i < |v.deletions.made| ==> v.deletions.made[i].deleted)
                                && forall i :: 0 <= i < |v.answers| ==> !v.answers[i].StatFailed?)
  {
    var v := s.ops[o].sweep;
    I.ReachableIsCore(p, s);
    RecordedSweep(p, s, o, v);
    ErrorsAreFailures(w, p.grace, v.deletions.dry, calls, deleted, asked, report, errs);
    assert forall i :: 0 <= i < |v.answers| ==> w.stats(i) == Answers(w.stats, |v.answers|)[i];
  }

  /** The program is shown what the sweep saw and answered as the sweep was. */
  ghost predicate SameView(w: World, p: P.Params, v: P.SweepState)
    requires v.Swept?
  {
    && Informed(w) && w.listing.value == v.listing && w.trackKeys.value + w.coverKeys.value == v.keys
    && w.clock - p.grace == v.cutoff && Answers(w.stats, |v.answers|) == v.answers
    && forall i: nat :: i < |v.deletions.made| ==> w.deletes(i) == v.deletions.made[i].deleted
  }

  lemma RecordedSweep(p: P.Params, s: P.State, o: P.OpId, v: P.SweepState)
    requires I.OpsOk(p, s) && o in s.ops && s.ops[o] == P.Op.Sweep(v) && v.Swept?
    ensures Tried(v.deletions.made) == Deletes(v.deletions.dry, v.listing, v.keys, v.cutoff)
    ensures |v.answers| == |Unlisted(v.listing, v.keys)|
    ensures ReportOf(v.listing, v.keys, v.cutoff, v.answers) == v.report
  {
    assert I.OpOk(p, s, o, s.ops[o]);
  }
}
