/** Exactly which commits keep the playlists dense, in every run, clean or not and with the lock statement
    or without it: those that have moved every row behind the track, or inserted at the end, as the rows are
    at the commit. From dense tables these are also exactly the commits that do what their request does when
    it runs alone, so that a run of such commits is serial. */
module TxDensity {
  import opened Storage
  import opened Positions
  import opened PlaylistSpec
  import opened PlaylistRepo
  import opened PlaylistTx
  import opened TxSerial
  import opened TxTables

  // ---- One playlist ----

  /** Of the rows, the track's may go and others may move up by one. */
  ghost predicate Cuts(m: Slots, w: Changes, t: TrackId) {
    && (forall u :: u in w && w[u].None? ==> u == t)
    && (forall u :: u in w && w[u].Some? ==> u in m && w[u].value == m[u] - 1)
  }

  predicate Goes(w: Changes, t: TrackId) {
    t in w && w[t].None?
  }

  predicate Puts(w: Changes, t: TrackId) {
    w.Keys == {t} && w[t].Some?
  }

  /** Every row behind the track has been moved. */
  ghost predicate AllMoved(m: Slots, w: Changes, t: TrackId) {
    t in m ==> forall u :: u in m && m[u] > m[t] ==> u in w
  }

  /** Changes to a dense playlist that are ready to be committed. */
  ghost predicate CutOfDense(m: Slots, w: Changes, t: TrackId) {
    SlotsOk(m) && Dense(m) && Cuts(m, w, t) && (t in m ==> Goes(w, t)) && SlotsOk(Overlay(m, w))
  }

  /** Only rows behind the track can have moved: the first to move would have run into another. */
  lemma {:induction false} MovesAreBehind(m: Slots, w: Changes, t: TrackId, u: TrackId)
    requires CutOfDense(m, w, t) && u in w && w[u].Some?
    ensures t in m && m[u] > m[t]
    decreases m[u]
  {
    assert u in Overlay(m, w) && Overlay(m, w)[u] == m[u] - 1;
    var v := TrackAt(m, m[u] - 1);
    NextMakesRoom(m, w, t, u, v);
    if w[v].Some? { MovesAreBehind(m, w, t, v); }
  }

  lemma NextMakesRoom(m: Slots, w: Changes, t: TrackId, u: TrackId, v: TrackId)
    requires CutOfDense(m, w, t) && u in w && w[u].Some? && v in m && m[v] == m[u] - 1
    ensures v in w
  {
    var r := Overlay(m, w);
    assert u in r && r[u] == m[u] - 1;
    assert forall x :: x in m && x !in w ==> x in r && r[x] == m[x];
  }

  lemma NextStays(m: Slots, w: Changes, t: TrackId, u: TrackId, v: TrackId)
    requires CutOfDense(m, w, t) && u in m && v in m && v != t && u !in w && m[v] == m[u] + 1
    ensures v !in w
  {
    var r := Overlay(m, w);
    assert u in r && r[u] == m[u];
    assert forall x :: x in w && w[x].Some? ==> x in r && r[x] == m[x] - 1;
  }

  /** A row behind the track that stays where it is keeps those behind it where they are. */
  lemma {:induction false} LastStays(m: Slots, w: Changes, t: TrackId, u: TrackId) returns (last: TrackId)
    requires CutOfDense(m, w, t) && t in m && u in m && m[u] > m[t] && u !in w
    ensures last in m && last !in w && m[last] == |m| - 1
    decreases |m| - m[u]
  {
    if m[u] == |m| - 1 {
      last := u;
    } else {
      var v := TrackAt(m, m[u] + 1);
      NextStays(m, w, t, u, v);
      last := LastStays(m, w, t, v);
    }
  }

  lemma CutSize(m: Slots, w: Changes, t: TrackId)
    requires CutOfDense(m, w, t) && t in m
    ensures |Overlay(m, w)| == |m| - 1
  {
    assert Overlay(m, w).Keys == m.Keys - {t};
  }

  lemma AllMovedIsDrop(m: Slots, w: Changes, t: TrackId)
    requires CutOfDense(m, w, t) && AllMoved(m, w, t)
    ensures Overlay(m, w) == Drop(m, t)
  {
    forall u | u in w && w[u].Some? ensures t in m && m[u] > m[t] { MovesAreBehind(m, w, t, u); }
    MovedAreThose(m, w, t);
  }

  lemma MovedAreThose(m: Slots, w: Changes, t: TrackId)
    requires Cuts(m, w, t) && (t in m ==> Goes(w, t)) && AllMoved(m, w, t)
    requires forall u :: u in w && w[u].Some? ==> t in m && m[u] > m[t]
    ensures Overlay(m, w) == Drop(m, t)
  {
    var r, d := Overlay(m, w), Drop(m, t);
    forall u ensures u in r <==> u in d {}
    forall u | u in r ensures r[u] == d[u] {}
  }

  /** What is left is dense exactly when every row behind the track has been moved, and then it is what
      dropping the track leaves. */
  lemma CutIsDenseIff(m: Slots, w: Changes, t: TrackId)
    requires CutOfDense(m, w, t)
    ensures Dense(Overlay(m, w)) <==> AllMoved(m, w, t)
    ensures AllMoved(m, w, t) ==> Overlay(m, w) == Drop(m, t)
  {
    if AllMoved(m, w, t) {
      AllMovedIsDrop(m, w, t);
      DropStaysDense(m, t);
    } else {
      var u :| u in m && m[u] > m[t] && u !in w;
      var last := LastStays(m, w, t, u);
      CutSize(m, w, t);
      assert last in Overlay(m, w) && Overlay(m, w)[last] == m[last];
    }
  }

  /** A playlist that was listed and has lost the track to somebody else in the meantime is left alone. */
  lemma StrayIsUnchanged(m: Slots, w: Changes, t: TrackId)
    requires CutOfDense(m, w, t) && t !in m
    ensures Overlay(m, w) == m
  {
    AllMovedIsDrop(m, w, t);
  }

  lemma InsertIsDenseIff(m: Slots, w: Changes, t: TrackId)
    requires SlotsOk(m) && Dense(m) && t !in m && Puts(w, t) && SlotsOk(Overlay(m, w))
    ensures Dense(Overlay(m, w)) <==> w[t] == Some(|m|)
    ensures w[t] == Some(|m|) ==> Overlay(m, w) == Append(m, t)
  {
    OneAt(m, w, t);
    PutIsDenseIff(m, t, w[t].value);
    GapMeasuresDensity(m);
  }

  lemma PutIsDenseIff(m: Slots, t: TrackId, q: int)
    requires SlotsOk(m) && Dense(m) && t !in m && SlotsOk(m[t := q])
    ensures Dense(m[t := q]) <==> q == |m|
  {
    var r := m[t := q];
    assert r.Keys == m.Keys + {t} && |r| == |m| + 1;
    assert r[t] == q;
    BelowIsTaken(m, t, q);
  }

  lemma BelowIsTaken(m: Slots, t: TrackId, q: int)
    requires SlotsOk(m) && Dense(m) && t !in m && q >= 0
    ensures q < |m| ==> !Distinct(m[t := q])
  {
    if q < |m| {
      var u := TrackAt(m, q);
      assert m[t := q][u] == m[t := q][t];
    }
  }

  lemma OneAt(m: Slots, w: Changes, t: TrackId)
    requires Puts(w, t)
    ensures Overlay(m, w) == m[t := w[t].value]
  {
  }

  // ---- What a transaction has changed, in terms of the rows as committed ----

  /** The playlists still to renumber have not been renumbered before. */
  ghost predicate Unrenumbered(tx: Tx, rows: seq<Membership>) {
    && DistinctLists(rows)
    && forall i, u :: 0 <= i < |rows| && Claims(tx, rows[i].playlist, u) ==> tx.writes[rows[i].playlist][u].None?
  }

  ghost predicate CutsRows(db: Db, tx: Tx, t: TrackId) {
    forall p :: p in tx.writes ==> p in db.playlists && Cuts(Rows(db, p), tx.writes[p], t)
  }

  ghost predicate AddTight(db: Db, tx: Tx, p: PlaylistId, t: TrackId) {
    tx.phase.Writing? ==>
      && p in db.playlists
      && (tx.writes != map[] ==> t !in Rows(db, p) && tx.writes.Keys == {p} && Puts(tx.writes[p], t))
  }

  ghost predicate RemoveTight(db: Db, tx: Tx, p: PlaylistId, t: TrackId) {
    tx.phase.Writing? ==>
      && p in db.playlists && t in Rows(db, p) && tx.writes.Keys == {p} && Goes(tx.writes[p], t)
      && CutsRows(db, tx, t) && Unrenumbered(tx, tx.phase.rows)
      && forall i :: 0 <= i < |tx.phase.rows| ==> tx.phase.rows[i].playlist == p
  }

  ghost predicate DeleteTight(db: Db, tx: Tx, t: TrackId) {
    && (tx.phase.Erasing? ==> DistinctLists(tx.phase.rows))
    && (tx.phase.Writing? ==> t in db.tracks && CutsRows(db, tx, t) && Unrenumbered(tx, tx.phase.rows))
  }

  ghost predicate Tight(db: Db, tx: Tx) {
    match tx.cmd
    case AddTrack(p, t) => AddTight(db, tx, p, t)
    case RemoveTrack(p, t) => RemoveTight(db, tx, p, t)
    case DeleteTrack(t) => DeleteTight(db, tx, t)
    case _ => tx.phase.Starting? || Ended(tx)
  }

  ghost predicate Exact(s: State) {
    Guarded(s) && forall x :: 0 <= x < |s.txs| ==> Tight(s.db, s.txs[x])
  }

  // ---- Each statement ----

  lemma InsertedIsTight(lockFirst: bool, s: State, o: nat)
    requires Guarded(s) && Enabled(lockFirst, s, Insert(o))
    ensures Tight(s.db, InsertingRow(s, o).txs[o])
  {
    assert Sane(s.db, s.txs[o]);
  }

  lemma RemovedIsTight(lockFirst: bool, s: State, o: nat)
    requires Enabled(lockFirst, s, Remove(o))
    ensures Tight(s.db, RemovingRow(s, o).txs[o])
  {
  }

  lemma ErasedIsTight(lockFirst: bool, s: State, o: nat)
    requires Enabled(lockFirst, s, Erase(o)) && Tight(s.db, s.txs[o])
    ensures Tight(s.db, ErasingTrack(s, o).txs[o])
  {
  }

  lemma RenumberedCuts(m: Slots, w: Changes, t: TrackId, x: int)
    requires Cuts(m, w, t) && forall u :: u in w ==> w[u].None?
    ensures Cuts(m, w + Moved(Overlay(m, w), x), t) && (Goes(w, t) ==> Goes(w + Moved(Overlay(m, w), x), t))
  {
  }

  lemma RenumberedRows(tx: Tx, tx': Tx, p: PlaylistId, w: Changes)
    requires tx.phase.Writing? && tx.phase.rows != [] && tx.phase.rows[0].playlist == p && Unrenumbered(tx, tx.phase.rows)
    requires tx'.writes == tx.writes[p := w]
    ensures Unrenumbered(tx', tx.phase.rows[1..])
  {
    var rows := tx.phase.rows;
    forall i, u | 0 <= i < |rows[1..]| && Claims(tx', rows[1..][i].playlist, u)
      ensures tx'.writes[rows[1..][i].playlist][u].None?
    {
      assert rows[1..][i] == rows[i + 1] && rows[0].playlist != rows[i + 1].playlist;
      assert Claims(tx, rows[i + 1].playlist, u);
    }
  }

  lemma RenumberedCutsRows(db: Db, tx: Tx, tx': Tx, t: TrackId, p: PlaylistId, x: int)
    requires CutsRows(db, tx, t) && p in db.playlists && forall u :: Claims(tx, p, u) ==> tx.writes[p][u].None?
    requires tx'.writes == tx.writes[p := ChangesOf(tx, p) + Moved(View(db, tx, p), x)]
    ensures CutsRows(db, tx', t) && (p in tx.writes && Goes(tx.writes[p], t) ==> Goes(tx'.writes[p], t))
  {
    OverlayNothing(Rows(db, p));
    RenumberedCuts(Rows(db, p), ChangesOf(tx, p), t, x);
  }

  lemma RenumberedIsTight(s: State, o: nat)
    requires o < |s.txs| && Tight(s.db, s.txs[o]) && s.txs[o].phase.Writing? && s.txs[o].phase.rows != []
    requires !s.txs[o].cmd.AddTrack? && s.txs[o].phase.rows[0].playlist in s.db.playlists
    ensures Tight(s.db, Renumbering(s, o).txs[o])
  {
    var tx, tx' := s.txs[o], Renumbering(s, o).txs[o];
    if !tx'.phase.Failed? {
      var row, t := tx.phase.rows[0], tx.cmd.track;
      assert forall u :: Claims(tx, row.playlist, u) ==> tx.writes[tx.phase.rows[0].playlist][u].None?;
      RenumberedRows(tx, tx', row.playlist, tx'.writes[row.playlist]);
      RenumberedCutsRows(s.db, tx, tx', t, row.playlist, row.position);
    }
  }

  lemma MoverStaysTight(lockFirst: bool, s: State, e: Event)
    requires Exact(s) && Enabled(lockFirst, s, e) && !e.Commit?
    ensures Tight(s.db, Apply(lockFirst, s, e).txs[e.o])
  {
    match e
    case Insert(o) => InsertedIsTight(lockFirst, s, o);
    case Remove(o) => RemovedIsTight(lockFirst, s, o);
    case Erase(o) => ErasedIsTight(lockFirst, s, o);
    case Renumber(o) => assert Sane(s.db, s.txs[o]); RenumberedIsTight(s, o);
    case _ =>
  }

  // ---- The commits of others ----

  lemma UnclaimedRowStays(db: Db, o: Tx, p: PlaylistId, u: TrackId)
    requires p in db.playlists && !Claims(o, p, u)
    ensures u in View(db, o, p) <==> u in Rows(db, p)
    ensures u in Rows(db, p) ==> View(db, o, p)[u] == Rows(db, p)[u]
  {
  }

  lemma CutsStay(db: Db, o: Tx, x: Tx, t: TrackId)
    requires CutsRows(db, x, t) && Separate(o, x)
    ensures CutsRows(Merged(db, o), x, t)
  {
    var db' := Merged(db, o);
    forall p | p in x.writes ensures p in db'.playlists && Cuts(Rows(db', p), x.writes[p], t) {
      forall u | u in x.writes[p] && x.writes[p][u].Some?
        ensures u in Rows(db', p) && x.writes[p][u].value == Rows(db', p)[u] - 1
      {
        assert Claims(x, p, u) && !Claims(o, p, u);
        UnclaimedRowStays(db, o, p, u);
      }
    }
  }

  lemma OtherStaysTight(db: Db, o: Tx, x: Tx)
    requires Tight(db, x) && Separate(o, x) && Separate(x, o) && o.phase == Writing([])
    ensures Tight(Merged(db, o), x)
  {
    match x.cmd
    case AddTrack(p, t) => OtherAddStays(db, o, x, p, t);
    case RemoveTrack(p, t) => OtherRemoveStays(db, o, x, p, t);
    case DeleteTrack(t) => OtherDeleteStays(db, o, x, t);
    case _ =>
  }

  lemma OtherAddStays(db: Db, o: Tx, x: Tx, p: PlaylistId, t: TrackId)
    requires AddTight(db, x, p, t) && Separate(o, x)
    ensures AddTight(Merged(db, o), x, p, t)
  {
    if x.phase.Writing? && x.writes != map[] {
      assert Claims(x, p, t) && !Claims(o, p, t);
      UnclaimedRowStays(db, o, p, t);
    }
  }

  lemma OtherRemoveStays(db: Db, o: Tx, x: Tx, p: PlaylistId, t: TrackId)
    requires RemoveTight(db, x, p, t) && Separate(o, x)
    ensures RemoveTight(Merged(db, o), x, p, t)
  {
    if x.phase.Writing? {
      assert Claims(x, p, t) && !Claims(o, p, t);
      UnclaimedRowStays(db, o, p, t);
      CutsStay(db, o, x, t);
    }
  }

  lemma OtherDeleteStays(db: Db, o: Tx, x: Tx, t: TrackId)
    requires x.cmd == DeleteTrack(t) && DeleteTight(db, x, t) && Separate(o, x) && Separate(x, o) && o.phase == Writing([])
    ensures DeleteTight(Merged(db, o), x, t)
  {
    if x.phase.Writing? {
      assert !Clash(x, o);
      CutsStay(db, o, x, t);
    }
  }

  // ---- Any run ----

  lemma OneChanges(lockFirst: bool, s: State, e: Event)
    requires Enabled(lockFirst, s, e)
    ensures var s' := Apply(lockFirst, s, e); s'.txs == s.txs[e.o := s'.txs[e.o]] && (e.Commit? || s'.db == s.db)
  {
    OneAnswers(lockFirst, s, e);
  }

  lemma StepStaysExact(lockFirst: bool, s: State, e: Event)
    requires Exact(s) && Enabled(lockFirst, s, e)
    ensures Exact(Apply(lockFirst, s, e))
  {
    var s' := Apply(lockFirst, s, e);
    StepStaysGuarded(lockFirst, s, e);
    OneChanges(lockFirst, s, e);
    if e.Commit? {
      forall x | 0 <= x < |s.txs| && x != e.o ensures Tight(s'.db, s'.txs[x]) {
        assert Separate(s.txs[e.o], s.txs[x]) && Separate(s.txs[x], s.txs[e.o]);
        OtherStaysTight(s.db, s.txs[e.o], s.txs[x]);
      }
    } else {
      MoverStaysTight(lockFirst, s, e);
    }
  }

  lemma {:induction false} RunStaysExact(lockFirst: bool, s: State, es: seq<Event>)
    requires Exact(s) && Legal(lockFirst, s, es)
    ensures Exact(Exec(lockFirst, s, es))
    decreases |es|
  {
    if es != [] {
      StepStaysExact(lockFirst, s, es[0]);
      RunStaysExact(lockFirst, Apply(lockFirst, s, es[0]), es[1..]);
    }
  }

  lemma BeginsExact(db: Db, cmds: seq<Command>)
    requires Valid(db)
    ensures Exact(Begin(db, cmds))
  {
  }

  // ---- Commits ----

  /** What the transaction has changed in the playlist is what the rows, as they are now, call for. */
  ghost predicate FitsIn(db: Db, tx: Tx, p: PlaylistId)
    requires p in db.playlists && p in tx.writes
  {
    match tx.cmd
    case AddTrack(_, t) => t in tx.writes[p] ==> tx.writes[p][t] == Some(|Rows(db, p)|)
    case RemoveTrack(_, t) => AllMoved(Rows(db, p), tx.writes[p], t)
    case DeleteTrack(t) => AllMoved(Rows(db, p), tx.writes[p], t)
    case _ => true
  }

  /** An insert is at the end, or nothing was inserted; and behind a track that goes every row has moved. */
  ghost predicate Fits(db: Db, tx: Tx) {
    forall p :: p in tx.writes && p in db.playlists ==> FitsIn(db, tx, p)
  }

  /** What the request makes of one playlist it concerns, alone. */
  function AloneRows(m: Slots, c: Command): Slots
    requires Distinct(m) && Modelled(c)
  {
    if c.AddTrack? then Append(m, c.track) else Drop(m, c.track)
  }

  lemma CutViewDenseIff(db: Db, tx: Tx, p: PlaylistId)
    requires Sane(db, tx) && Tight(db, tx) && tx.phase == Writing([]) && !tx.cmd.AddTrack?
    requires p in tx.writes && p in db.playlists && SlotsOk(Rows(db, p)) && Dense(Rows(db, p))
    ensures Dense(View(db, tx, p)) <==> FitsIn(db, tx, p)
    ensures FitsIn(db, tx, p) ==> View(db, tx, p) == Drop(Rows(db, p), tx.cmd.track)
  {
    var t := tx.cmd.track;
    if tx.cmd.DeleteTrack? && t in Rows(db, p) { assert p in Holders(db, t) && Claims(tx, p, t); }
    CutIsDenseIff(Rows(db, p), tx.writes[p], t);
  }

  lemma InsertViewDenseIff(db: Db, tx: Tx, p: PlaylistId)
    requires ViewsOk(db, tx) && tx.cmd.AddTrack? && AddTight(db, tx, tx.cmd.id, tx.cmd.track) && tx.phase == Writing([])
    requires p in tx.writes && p in db.playlists && SlotsOk(Rows(db, p)) && Dense(Rows(db, p))
    ensures Dense(View(db, tx, p)) <==> FitsIn(db, tx, p)
    ensures FitsIn(db, tx, p) ==> View(db, tx, p) == Append(Rows(db, p), tx.cmd.track)
  {
    InsertIsDenseIff(Rows(db, p), tx.writes[p], tx.cmd.track);
  }

  lemma ViewDenseIff(db: Db, tx: Tx, p: PlaylistId)
    requires Sane(db, tx) && Tight(db, tx) && tx.phase == Writing([])
    requires p in tx.writes && p in db.playlists && SlotsOk(Rows(db, p)) && Dense(Rows(db, p))
    ensures Modelled(tx.cmd)
    ensures Dense(View(db, tx, p)) <==> FitsIn(db, tx, p)
    ensures FitsIn(db, tx, p) ==> View(db, tx, p) == AloneRows(Rows(db, p), tx.cmd)
  {
    if tx.cmd.AddTrack? { InsertViewDenseIff(db, tx, p); } else { CutViewDenseIff(db, tx, p); }
  }

  /** One commit: the tables stay dense exactly when it fits. */
  lemma CommitIsDenseIff(lockFirst: bool, s: State, o: nat)
    requires Exact(s) && Enabled(lockFirst, s, Commit(o)) && AllDense(s.db)
    ensures AllDense(Apply(lockFirst, s, Commit(o)).db) <==> Fits(s.db, s.txs[o])
  {
    var db, tx := s.db, s.txs[o];
    assert Sane(db, tx) && Tight(db, tx);
    var db' := Merged(db, tx);
    forall p | p in db.playlists ensures Dense(Rows(db', p)) <==> (p in tx.writes ==> FitsIn(db, tx, p)) {
      if p in tx.writes { ViewDenseIff(db, tx, p); }
    }
  }

  /** A playlist that has lost the track to somebody else is as it was. */
  lemma StraysStand(s: State, o: nat, p: PlaylistId)
    requires Exact(s) && o < |s.txs| && s.txs[o].phase == Writing([]) && AllDense(s.db) && p in s.db.playlists
    requires (s.txs[o].cmd.RemoveTrack? || s.txs[o].cmd.DeleteTrack?) && s.txs[o].cmd.track !in Rows(s.db, p)
    ensures Rows(Merged(s.db, s.txs[o]), p) == Rows(s.db, p)
  {
    var tx := s.txs[o];
    assert Sane(s.db, tx) && Tight(s.db, tx);
    if p in tx.writes { StrayIsUnchanged(Rows(s.db, p), tx.writes[p], tx.cmd.track); }
  }

  /** Density, for every run whatever: from a dense state a commit leaves every playlist at 0..n-1 exactly
      when its insert, if any, is at the number of rows there are, or every row behind the track it takes
      out has been moved, in every playlist that has the track at the commit. A playlist that has lost it
      in the meantime is not touched. */
  lemma CommitsStayDenseIff(lockFirst: bool, db: Db, cmds: seq<Command>, es: seq<Event>, s: State, o: nat)
    requires Valid(db) && Legal(lockFirst, Begin(db, cmds), es) && Exec(lockFirst, Begin(db, cmds), es) == s
    requires Enabled(lockFirst, s, Commit(o)) && AllDense(s.db)
    ensures var s' := Apply(lockFirst, s, Commit(o));
      && (AllDense(s'.db) <==> Fits(s.db, s.txs[o]))
      && (s.txs[o].cmd.RemoveTrack? || s.txs[o].cmd.DeleteTrack? ==>
            forall p :: p in s.db.playlists && s.txs[o].cmd.track !in Rows(s.db, p) ==> Rows(s'.db, p) == Rows(s.db, p))
  {
    BeginsExact(db, cmds);
    RunStaysExact(lockFirst, Begin(db, cmds), es);
    CommitIsDenseIff(lockFirst, s, o);
    if s.txs[o].cmd.RemoveTrack? || s.txs[o].cmd.DeleteTrack? {
      forall p | p in s.db.playlists && s.txs[o].cmd.track !in Rows(s.db, p)
        ensures Rows(Merged(s.db, s.txs[o]), p) == Rows(s.db, p)
      {
        StraysStand(s, o, p);
      }
    }
  }

  // ---- The request run alone ----

  /** It commits an insert, or found the track already there and it still is. */
  ghost predicate StillThere(db: Db, tx: Tx) {
    tx.cmd.AddTrack? && tx.writes == map[] ==> tx.cmd.id in db.playlists && tx.cmd.track in Rows(db, tx.cmd.id)
  }

  lemma FittingAdd(db: Db, tx: Tx, now: Time)
    requires Valid(db) && AllDense(db) && Sane(db, tx) && Tight(db, tx) && tx.phase == Writing([]) && tx.cmd.AddTrack?
    requires Fits(db, tx) && StillThere(db, tx)
    ensures RunsAlone(db, tx, now)
  {
    var p, t := tx.cmd.id, tx.cmd.track;
    if tx.writes != map[] {
      assert Claims(tx, p, t) && tx.writes[p][t].Some?;
      SourceOf(db, tx, p, t);
      ViewDenseIff(db, tx, p);
    }
    OneIsChanged(db, tx, p);
    SameRowsAsPut(db, tx, p, now);
  }

  lemma OneIsChanged(db: Db, tx: Tx, p: PlaylistId)
    requires tx.writes.Keys <= {p}
    ensures forall q :: q in db.playlists && q != p ==> View(db, tx, q) == Rows(db, q)
  {
  }

  lemma SameRowsAsPut(db: Db, tx: Tx, p: PlaylistId, now: Time)
    requires Valid(db) && p in db.playlists && (tx.cmd.AddTrack? || tx.cmd.RemoveTrack?) && tx.cmd.id == p
    requires if tx.cmd.AddTrack? then tx.cmd.track in Rows(db, p) || tx.cmd.track in db.tracks else tx.cmd.track in Rows(db, p)
    requires View(db, tx, p) == AloneRows(Rows(db, p), tx.cmd)
    requires forall q :: q in db.playlists && q != p ==> View(db, tx, q) == Rows(db, q)
    ensures RunsAlone(db, tx, now)
  {
  }

  lemma FittingRemove(db: Db, tx: Tx, now: Time)
    requires Valid(db) && AllDense(db) && Sane(db, tx) && Tight(db, tx) && tx.phase == Writing([]) && tx.cmd.RemoveTrack?
    requires Fits(db, tx)
    ensures RunsAlone(db, tx, now)
  {
    ViewDenseIff(db, tx, tx.cmd.id);
    OneIsChanged(db, tx, tx.cmd.id);
    SameRowsAsPut(db, tx, tx.cmd.id, now);
  }

  lemma FittingDelete(db: Db, tx: Tx, now: Time)
    requires Valid(db) && AllDense(db) && Sane(db, tx) && Tight(db, tx) && tx.phase == Writing([]) && tx.cmd.DeleteTrack?
    requires Fits(db, tx)
    ensures RunsAlone(db, tx, now)
  {
    var t := tx.cmd.track;
    forall p | p in db.playlists ensures View(db, tx, p) == Drop(Rows(db, p), t) {
      if p in tx.writes {
        ViewDenseIff(db, tx, p);
      } else {
        assert p !in Holders(db, t) by { assert p in Holders(db, t) ==> Claims(tx, p, t); }
      }
    }
  }

  lemma AloneStaysDense(db: Db, c: Command, now: Time)
    requires Valid(db) && AllDense(db) && Modelled(c)
    ensures AllDense(Run(db, c, now).0)
  {
    DenseIffNoGapOpened(db, c, now);
  }

  lemma AloneIsStillThere(db: Db, tx: Tx, now: Time)
    requires Valid(db) && Tight(db, tx) && tx.phase == Writing([]) && Modelled(tx.cmd) && RunsAlone(db, tx, now)
    ensures StillThere(db, tx)
  {
    if tx.cmd.AddTrack? && tx.writes == map[] {
      var p := tx.cmd.id;
      assert Rows(Run(db, tx.cmd, now).0, p) == Append(Rows(db, p), tx.cmd.track) == Rows(Merged(db, tx), p);
    }
  }

  /** From dense tables a commit does what its request does alone, and answers the same, exactly when it
      fits and an insert that found its track there still does. */
  lemma CommitIsAloneIff(db: Db, tx: Tx, now: Time)
    requires Valid(db) && AllDense(db) && Sane(db, tx) && Tight(db, tx) && tx.phase == Writing([]) && Modelled(tx.cmd)
    ensures RunsAlone(db, tx, now) <==> Fits(db, tx) && StillThere(db, tx)
  {
    if Fits(db, tx) && StillThere(db, tx) {
      if tx.cmd.AddTrack? { FittingAdd(db, tx, now); }
      else if tx.cmd.RemoveTrack? { FittingRemove(db, tx, now); }
      else { FittingDelete(db, tx, now); }
    }
    if RunsAlone(db, tx, now) {
      AloneIsStillThere(db, tx, now);
      AloneStaysDense(db, tx.cmd, now);
      SameRowsDense(Merged(db, tx), Run(db, tx.cmd, now).0);
      FitsIfDense(db, tx);
    }
  }

  lemma FitsIfDense(db: Db, tx: Tx)
    requires Valid(db) && AllDense(db) && Sane(db, tx) && Tight(db, tx) && tx.phase == Writing([]) && AllDense(Merged(db, tx))
    ensures Fits(db, tx)
  {
    forall p | p in tx.writes && p in db.playlists ensures FitsIn(db, tx, p) {
      assert Dense(Rows(Merged(db, tx), p));
      ViewDenseIff(db, tx, p);
    }
  }

  /** The same for every run: which commits are the request run alone on the tables as they are. */
  lemma CommitsRunAloneIff(lockFirst: bool, db: Db, cmds: seq<Command>, es: seq<Event>, s: State, o: nat, now: Time)
    requires Valid(db) && Legal(lockFirst, Begin(db, cmds), es) && Exec(lockFirst, Begin(db, cmds), es) == s
    requires Enabled(lockFirst, s, Commit(o)) && AllDense(s.db) && Modelled(s.txs[o].cmd)
    ensures Valid(s.db) && (RunsAlone(s.db, s.txs[o], now) <==> Fits(s.db, s.txs[o]) && StillThere(s.db, s.txs[o]))
  {
    BeginsExact(db, cmds);
    RunStaysExact(lockFirst, Begin(db, cmds), es);
    assert Sane(s.db, s.txs[o]) && Tight(s.db, s.txs[o]);
    CommitIsAloneIff(s.db, s.txs[o], now);
  }

  // ---- Whole runs ----

  ghost predicate DenseThroughout(lockFirst: bool, s: State, es: seq<Event>)
    requires Legal(lockFirst, s, es)
    decreases |es|
  {
    AllDense(s.db) && (es == [] || DenseThroughout(lockFirst, Apply(lockFirst, s, es[0]), es[1..]))
  }

  ghost predicate CommitsFit(lockFirst: bool, s: State, es: seq<Event>)
    requires Legal(lockFirst, s, es)
    decreases |es|
  {
    es == [] || ((es[0].Commit? ==> Fits(s.db, s.txs[es[0].o])) && CommitsFit(lockFirst, Apply(lockFirst, s, es[0]), es[1..]))
  }

  lemma {:induction false} DenseIffFit(lockFirst: bool, s: State, es: seq<Event>)
    requires Exact(s) && AllDense(s.db) && Legal(lockFirst, s, es)
    ensures DenseThroughout(lockFirst, s, es) <==> CommitsFit(lockFirst, s, es)
    decreases |es|
  {
    if es != [] {
      var s' := Apply(lockFirst, s, es[0]);
      StepStaysExact(lockFirst, s, es[0]);
      OneChanges(lockFirst, s, es[0]);
      if es[0].Commit? { CommitIsDenseIff(lockFirst, s, es[0].o); }
      if AllDense(s'.db) { DenseIffFit(lockFirst, s', es[1..]); }
    }
  }

  /** A run that starts dense is dense throughout exactly when all of its commits fit. */
  lemma RunsAreDenseIff(lockFirst: bool, db: Db, cmds: seq<Command>, es: seq<Event>)
    requires Valid(db) && AllDense(db) && Legal(lockFirst, Begin(db, cmds), es)
    ensures DenseThroughout(lockFirst, Begin(db, cmds), es) <==> CommitsFit(lockFirst, Begin(db, cmds), es)
  {
    BeginsExact(db, cmds);
    DenseIffFit(lockFirst, Begin(db, cmds), es);
  }

  /** No AddTrack commits after the track it had found was deleted. */
  ghost predicate FoundStayThere(lockFirst: bool, s: State, es: seq<Event>)
    requires Legal(lockFirst, s, es)
    decreases |es|
  {
    es == [] || ((es[0].Commit? ==> StillThere(s.db, s.txs[es[0].o])) && FoundStayThere(lockFirst, Apply(lockFirst, s, es[0]), es[1..]))
  }

  lemma {:induction false} FitStaysSerial(lockFirst: bool, db: Db, cmds: seq<Command>, s: State, es: seq<Event>, now: Time)
    requires Exact(s) && AllDense(s.db) && Legal(lockFirst, s, es)
    requires CommitsFit(lockFirst, s, es) && FoundStayThere(lockFirst, s, es)
    requires Valid(db) && SameRequests(cmds, s) && OrderIsWho(s) && Serial(db, cmds, s, now)
    ensures var s' := Exec(lockFirst, s, es); SameRequests(cmds, s') && OrderIsWho(s') && Serial(db, cmds, s', now)
    decreases |es|
  {
    if es != [] {
      var e := es[0];
      StepStaysExact(lockFirst, s, e);
      OneChanges(lockFirst, s, e);
      if e.Commit? {
        CommitIsAloneIff(s.db, s.txs[e.o], now);
        CommitIsDenseIff(lockFirst, s, e.o);
      }
      StepKeepsRequests(lockFirst, cmds, s, e);
      StepStaysSerial(lockFirst, db, cmds, s, e, now);
      FitStaysSerial(lockFirst, db, cmds, Apply(lockFirst, s, e), es[1..], now);
    }
  }

  /** A run from dense tables whose commits all fit is serial, clean or not: rows and answers are those of
      the answered requests one at a time, in the order they answered. */
  lemma FittingRunsAreSerial(lockFirst: bool, db: Db, cmds: seq<Command>, es: seq<Event>, now: Time)
    requires Valid(db) && AllDense(db) && AllModelled(cmds) && Legal(lockFirst, Begin(db, cmds), es)
    requires CommitsFit(lockFirst, Begin(db, cmds), es) && FoundStayThere(lockFirst, Begin(db, cmds), es)
    ensures var s := Exec(lockFirst, Begin(db, cmds), es);
            SameRequests(cmds, s) && OrderIsWho(s) && Serial(db, cmds, s, now)
  {
    BeginsExact(db, cmds);
    BeginsSerial(db, cmds, now);
    FitStaysSerial(lockFirst, db, cmds, Begin(db, cmds), es, now);
  }
}
