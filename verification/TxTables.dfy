/** In every run, clean or not and with the lock statement or without it, the committed tables satisfy
    their constraints: the row locks and the checks each statement makes are enough for that. */
module TxTables {
  import opened Storage
  import opened Positions
  import opened PlaylistSpec
  import opened PlaylistRepo
  import opened PlaylistTx
  import opened TxSerial

  // ---- What holds of one transaction ----

  /** Before it writes, a transaction has written nothing; only deletes and removals have gaps to close. */
  ghost predicate PhaseOk(tx: Tx) {
    && (!tx.phase.Writing? ==> tx.writes == map[])
    && (tx.phase.Erasing? || tx.phase.Writing? ==> forall i :: 0 <= i < |tx.phase.rows| ==> tx.phase.rows[i].position >= 0)
    && (tx.phase.Writing? && tx.cmd.AddTrack? ==> tx.phase.rows == [])
  }

  /** The rows as the transaction would leave them meet the constraints of a playlist. */
  ghost predicate ViewsOk(db: Db, tx: Tx) {
    forall p :: p in tx.writes ==> p in db.playlists && SlotsOk(View(db, tx, p))
  }

  /** It moves rows that are there, or inserts one of a track that is. */
  ghost predicate SourcesOk(db: Db, tx: Tx) {
    forall p, u :: p in tx.writes && u in tx.writes[p] && tx.writes[p][u].Some? ==>
      p in db.playlists && (u in Rows(db, p) || (Pins(tx, u) && u in db.tracks))
  }

  /** A track it deletes it has taken out of every playlist. */
  ghost predicate ErasureOk(db: Db, tx: Tx) {
    tx.cmd.DeleteTrack? && tx.phase.Writing? ==>
      forall p :: p in Holders(db, tx.cmd.track) ==> Claims(tx, p, tx.cmd.track) && tx.writes[p][tx.cmd.track].None?
  }

  ghost predicate Sane(db: Db, tx: Tx) {
    PhaseOk(tx) && ViewsOk(db, tx) && SourcesOk(db, tx) && ErasureOk(db, tx)
  }

  /** Two transactions never have the same row, nor two rows at the same position, in hand. */
  ghost predicate Separate(a: Tx, b: Tx) {
    && (forall p, u :: !(Claims(a, p, u) && Claims(b, p, u)))
    && (forall p, q :: !(PendingAt(a, p, q) && PendingAt(b, p, q)))
    && !Clash(a, b) && !Clash(b, a)
  }

  ghost predicate Guarded(s: State) {
    && Valid(s.db)
    && (forall x :: 0 <= x < |s.txs| ==> Sane(s.db, s.txs[x]))
    && (forall x, y :: 0 <= x < |s.txs| && 0 <= y < |s.txs| && x != y ==> Separate(s.txs[x], s.txs[y]))
  }

  // ---- Steps that commit nothing ----

  lemma MoveStaysGuarded(s: State, s': State, o: nat, tx: Tx)
    requires Guarded(s) && o < |s.txs| && s'.txs == s.txs[o := tx] && s'.db == s.db && Sane(s.db, tx)
    requires forall x :: 0 <= x < |s.txs| && x != o ==> Separate(tx, s.txs[x]) && Separate(s.txs[x], tx)
    ensures Guarded(s')
  {
  }

  lemma IdleIsSeparate(tx: Tx, x: Tx)
    requires tx.writes == map[] && !tx.phase.Writing?
    ensures Separate(tx, x) && Separate(x, tx)
  {
  }

  /** A step of a transaction that has written nothing and still has written nothing. */
  lemma QuietStep(s: State, s': State, o: nat, tx: Tx)
    requires Guarded(s) && o < |s.txs| && s'.txs == s.txs[o := tx] && s'.db == s.db
    requires tx.writes == map[] && !tx.phase.Writing? && PhaseOk(tx)
    ensures Guarded(s')
  {
    forall x | 0 <= x < |s.txs| && x != o ensures Separate(tx, s.txs[x]) && Separate(s.txs[x], tx) { IdleIsSeparate(tx, s.txs[x]); }
    MoveStaysGuarded(s, s', o, tx);
  }

  lemma ReadPositions(rows: seq<Membership>, db: Db, t: TrackId)
    requires Valid(db) && ListsMemberships(rows, db.playlists, t)
    ensures forall i :: 0 <= i < |rows| ==> rows[i].position >= 0
  {
    forall i | 0 <= i < |rows| ensures rows[i].position >= 0 {
      assert IsMembership(rows[i], db.playlists, t);
      assert SlotsOk(Rows(db, rows[i].playlist));
    }
  }

  lemma InsertGuarded(lockFirst: bool, s: State, o: nat)
    requires Guarded(s) && Enabled(lockFirst, s, Insert(o))
    ensures Guarded(InsertingRow(s, o))
  {
    var p, t := s.txs[o].cmd.id, s.txs[o].cmd.track;
    var tx := InsertingRow(s, o).txs[o];
    if tx.writes == map[] {
      InsertedNothing(s, o);
    } else {
      InsertedIsSane(s.db, s.txs[o], tx);
      forall x | 0 <= x < |s.txs| && x != o ensures Separate(tx, s.txs[x]) && Separate(s.txs[x], tx) {
        assert !Claims(s.txs[x], p, t) && !PendingAt(s.txs[x], p, Top(Rows(s.db, p))) && !Erases(s.txs[x], t);
        InsertedIsSeparate(tx, s.txs[x], p, t, Top(Rows(s.db, p)));
      }
      MoveStaysGuarded(s, InsertingRow(s, o), o, tx);
    }
  }

  lemma InsertedIsSane(db: Db, tx: Tx, tx': Tx)
    requires Valid(db) && tx.cmd.AddTrack? && tx.cmd.id in db.playlists && tx.cmd.track !in Rows(db, tx.cmd.id)
    requires tx.cmd.track in db.tracks && tx'.cmd == tx.cmd && tx'.phase == Writing([])
    requires tx'.writes == map[tx.cmd.id := map[tx.cmd.track := Some(Top(Rows(db, tx.cmd.id)))]]
    ensures Sane(db, tx')
  {
    InsertedView(Rows(db, tx.cmd.id), tx.cmd.track);
    assert tx.cmd.id in tx'.writes && Pins(tx', tx.cmd.track);
  }

  lemma InsertedView(m: Slots, t: TrackId)
    requires SlotsOk(m) && t !in m
    ensures SlotsOk(Overlay(m, map[t := Some(Top(m))]))
  {
    OneMore(m, t);
    AppendKeepsGap(m, t);
  }

  lemma InsertedIsSeparate(tx: Tx, x: Tx, p: PlaylistId, t: TrackId, top: int)
    requires tx.cmd == AddTrack(p, t) && tx.writes == map[p := map[t := Some(top)]]
    requires !Claims(x, p, t) && !PendingAt(x, p, top) && !Erases(x, t)
    ensures Separate(tx, x) && Separate(x, tx)
  {
  }

  lemma InsertedNothing(s: State, o: nat)
    requires Guarded(s) && o < |s.txs| && s.txs[o].cmd.AddTrack? && s.txs[o].cmd.id in s.db.playlists && s.txs[o].phase.Inserting?
    requires Distinct(Rows(s.db, s.txs[o].cmd.id)) && InsertingRow(s, o).txs[o].writes == map[]
    ensures Guarded(InsertingRow(s, o))
  {
    var tx := InsertingRow(s, o).txs[o];
    forall x | 0 <= x < |s.txs| && x != o ensures Separate(tx, s.txs[x]) && Separate(s.txs[x], tx) {}
    MoveStaysGuarded(s, InsertingRow(s, o), o, tx);
  }

  lemma RemoveGuarded(lockFirst: bool, s: State, o: nat)
    requires Guarded(s) && Enabled(lockFirst, s, Remove(o))
    ensures Guarded(RemovingRow(s, o))
  {
    var p, t := s.txs[o].cmd.id, s.txs[o].cmd.track;
    var m := Rows(s.db, p);
    var tx := RemovingRow(s, o).txs[o];
    assert SlotsOk(m);
    if t !in m {
      QuietStep(s, RemovingRow(s, o), o, tx);
    } else {
      OneGone(m, t);
      forall x | 0 <= x < |s.txs| && x != o ensures Separate(tx, s.txs[x]) && Separate(s.txs[x], tx) {
        RemovalIsSeparate(tx, s.txs[x], p, t);
      }
      MoveStaysGuarded(s, RemovingRow(s, o), o, tx);
    }
  }

  lemma RemovalIsSeparate(a: Tx, b: Tx, p: PlaylistId, t: TrackId)
    requires a.cmd.RemoveTrack? && a.writes == map[p := map[t := None]] && !Claims(b, p, t)
    ensures Separate(a, b) && Separate(b, a)
  {
  }

  lemma EraseGuarded(lockFirst: bool, s: State, o: nat)
    requires Guarded(s) && Enabled(lockFirst, s, Erase(o))
    ensures Guarded(ErasingTrack(s, o))
  {
    var t := s.txs[o].cmd.track;
    var tx := ErasingTrack(s, o).txs[o];
    if t !in s.db.tracks {
      QuietStep(s, ErasingTrack(s, o), o, tx);
    } else {
      forall p | p in tx.writes ensures SlotsOk(View(s.db, tx, p)) { OneGone(Rows(s.db, p), t); }
      forall x | 0 <= x < |s.txs| && x != o ensures Separate(tx, s.txs[x]) && Separate(s.txs[x], tx) {
        forall p | p in tx.writes ensures !Claims(s.txs[x], p, t) { assert p in Holders(s.db, t); }
        assert !Erases(s.txs[x], t) && !Pins(s.txs[x], t);
      }
      MoveStaysGuarded(s, ErasingTrack(s, o), o, tx);
    }
  }

  lemma MovedView(db: Db, tx: Tx, tx': Tx, p: PlaylistId, x: int)
    requires p in db.playlists && tx'.writes == tx.writes[p := ChangesOf(tx, p) + Moved(View(db, tx, p), x)]
    ensures View(db, tx', p) == Shift(View(db, tx, p), x)
    ensures forall q :: q in tx.writes && q != p && q in db.playlists ==> View(db, tx', q) == View(db, tx, q)
  {
    OverlayNothing(Rows(db, p));
    MovedIsShift(Rows(db, p), ChangesOf(tx, p), x);
  }

  lemma RenumberedIsSane(s: State, o: nat)
    requires Guarded(s) && o < |s.txs| && s.txs[o].phase.Writing? && s.txs[o].phase.rows != []
    requires s.txs[o].phase.rows[0].playlist in s.db.playlists && !Renumbering(s, o).txs[o].phase.Failed?
    ensures Sane(s.db, Renumbering(s, o).txs[o])
  {
    var tx, tx' := s.txs[o], Renumbering(s, o).txs[o];
    var p, x := tx.phase.rows[0].playlist, tx.phase.rows[0].position;
    assert Sane(s.db, tx);
    MovedView(s.db, tx, tx', p, x);
    RenumberedViews(s.db, tx, tx', p, x);
    RenumberedSources(s.db, tx, tx', p, x);
    RenumberedErasure(s.db, tx, tx', p, x);
  }

  lemma RenumberedViews(db: Db, tx: Tx, tx': Tx, p: PlaylistId, x: int)
    requires Valid(db) && ViewsOk(db, tx) && p in db.playlists && x >= 0 && Distinct(Shift(View(db, tx, p), x))
    requires tx'.writes.Keys == tx.writes.Keys + {p} && View(db, tx', p) == Shift(View(db, tx, p), x)
    requires forall q :: q in tx.writes && q != p && q in db.playlists ==> View(db, tx', q) == View(db, tx, q)
    ensures ViewsOk(db, tx')
  {
    assert SlotsOk(View(db, tx, p));
  }

  lemma SourceOf(db: Db, tx: Tx, p: PlaylistId, u: TrackId)
    requires SourcesOk(db, tx) && p in tx.writes && u in tx.writes[p] && tx.writes[p][u].Some?
    ensures p in db.playlists && (u in Rows(db, p) || (Pins(tx, u) && u in db.tracks))
  {
  }

  /** A row that only the transaction sees is the one it has inserted. */
  lemma NewRowIsPinned(db: Db, tx: Tx, p: PlaylistId, u: TrackId)
    requires SourcesOk(db, tx) && p in db.playlists && u in View(db, tx, p) && u !in Rows(db, p)
    ensures Pins(tx, u) && u in db.tracks
  {
    SourceOf(db, tx, p, u);
  }

  lemma RenumberedSource(db: Db, tx: Tx, tx': Tx, p: PlaylistId, x: int, q: PlaylistId, u: TrackId)
    requires SourcesOk(db, tx) && p in db.playlists && !tx.cmd.AddTrack?
    requires tx'.writes == tx.writes[p := ChangesOf(tx, p) + Moved(View(db, tx, p), x)]
    requires q in tx'.writes && u in tx'.writes[q] && tx'.writes[q][u].Some?
    ensures q in db.playlists && u in Rows(db, q)
  {
    if q == p && u in Moved(View(db, tx, p), x) {
      assert u in View(db, tx, p);
      if u !in Rows(db, p) { NewRowIsPinned(db, tx, p, u); }
    } else {
      SourceOf(db, tx, q, u);
    }
  }

  lemma RenumberedSources(db: Db, tx: Tx, tx': Tx, p: PlaylistId, x: int)
    requires SourcesOk(db, tx) && p in db.playlists && !tx.cmd.AddTrack?
    requires tx'.writes == tx.writes[p := ChangesOf(tx, p) + Moved(View(db, tx, p), x)]
    ensures SourcesOk(db, tx')
  {
    forall q, u | q in tx'.writes && u in tx'.writes[q] && tx'.writes[q][u].Some?
      ensures q in db.playlists && u in Rows(db, q)
    {
      RenumberedSource(db, tx, tx', p, x, q, u);
    }
  }

  lemma RenumberedErasure(db: Db, tx: Tx, tx': Tx, p: PlaylistId, x: int)
    requires ErasureOk(db, tx) && p in db.playlists && tx'.cmd == tx.cmd && tx.phase.Writing?
    requires tx'.writes == tx.writes[p := ChangesOf(tx, p) + Moved(View(db, tx, p), x)]
    ensures ErasureOk(db, tx')
  {
    if tx.cmd.DeleteTrack? {
      var t := tx.cmd.track;
      forall q | q in Holders(db, t) ensures Claims(tx', q, t) && tx'.writes[q][t].None? {
        assert Claims(tx, q, t) && tx.writes[q][t].None?;
        if q == p { ErasedIsGone(db, tx, p); }
      }
    }
  }

  lemma RenumberGuarded(lockFirst: bool, s: State, o: nat)
    requires Guarded(s) && Enabled(lockFirst, s, Renumber(o))
    ensures Guarded(Renumbering(s, o))
  {
    var tx, tx' := s.txs[o], Renumbering(s, o).txs[o];
    if tx'.phase.Failed? {
      QuietStep(s, Renumbering(s, o), o, tx');
    } else {
      RenumberedIsSane(s, o);
      var row := tx.phase.rows[0];
      forall x | 0 <= x < |s.txs| && x != o ensures Separate(tx', s.txs[x]) && Separate(s.txs[x], tx') {
        assert Separate(s.txs[o], s.txs[x]) && Sane(s.db, s.txs[o]);
        RenumberedIsSeparate(s, o, x);
      }
      MoveStaysGuarded(s, Renumbering(s, o), o, tx');
    }
  }

  lemma RenumberedIsSeparate(s: State, o: nat, x: nat)
    requires o < |s.txs| && x < |s.txs| && x != o && Separate(s.txs[o], s.txs[x])
    requires s.txs[o].phase.Writing? && s.txs[o].phase.rows != [] && !s.txs[o].cmd.AddTrack?
    requires s.txs[o].phase.rows[0].playlist in s.db.playlists && !Renumbering(s, o).txs[o].phase.Failed?
    requires var row := s.txs[o].phase.rows[0];
             CanRenumber(s, o, row.playlist, View(s.db, s.txs[o], row.playlist), row.position)
    ensures Separate(Renumbering(s, o).txs[o], s.txs[x]) && Separate(s.txs[x], Renumbering(s, o).txs[o])
  {
    var tx, b := s.txs[o], s.txs[x];
    var row := tx.phase.rows[0];
    var m := View(s.db, tx, row.playlist);
    forall u | u in m && m[u] > row.position ensures !Claims(b, row.playlist, u) && !PendingAt(b, row.playlist, m[u] - 1) {
      assert Concerns(m, row.position, u);
      assert Unclaimed(s, o, row.playlist, u) && NonePending(s, o, row.playlist, m[u] - 1);
    }
    MovedIsSeparate(tx, Renumbering(s, o).txs[o], b, row.playlist, m, row.position);
  }

  lemma MovedIsSeparate(tx: Tx, tx': Tx, b: Tx, p: PlaylistId, m: Slots, x: int)
    requires Separate(tx, b) && tx'.cmd == tx.cmd && tx'.phase.Writing? && tx.phase.Writing? && !tx.cmd.AddTrack?
    requires tx'.writes == tx.writes[p := ChangesOf(tx, p) + Moved(m, x)]
    requires forall u :: u in m && m[u] > x ==> !Claims(b, p, u) && !PendingAt(b, p, m[u] - 1)
    ensures Separate(tx', b) && Separate(b, tx')
  {
    forall q, u | Claims(tx', q, u) ensures !Claims(b, q, u) { assert Claims(tx, q, u) || (q == p && u in m && m[u] > x); }
    forall q, z | PendingAt(tx', q, z) ensures !PendingAt(b, q, z) {
      var u :| u in tx'.writes[q] && tx'.writes[q][u] == Some(z);
      if q == p && u in Moved(m, x) {
        assert z == m[u] - 1;
      } else {
        assert PendingAt(tx, q, z);
      }
    }
  }

  // ---- A commit ----

  lemma MergedIsValid(db: Db, tx: Tx)
    requires Valid(db) && Sane(db, tx) && tx.phase == Writing([])
    ensures Valid(Merged(db, tx))
  {
    var db' := Merged(db, tx);
    forall p | p in db'.playlists ensures SlotsOk(db'.playlists[p].slots) { assert p !in tx.writes ==> SlotsOk(Rows(db, p)); }
    forall p, u | p in db'.playlists && u in db'.playlists[p].slots ensures u in db'.tracks { MergedTrackIsThere(db, tx, p, u); }
  }

  lemma MergedTrackIsThere(db: Db, tx: Tx, p: PlaylistId, u: TrackId)
    requires Valid(db) && Sane(db, tx) && tx.phase == Writing([]) && p in db.playlists && u in View(db, tx, p)
    ensures u in Merged(db, tx).tracks
  {
    if u in Rows(db, p) {
      assert u in db.tracks;
      if tx.cmd == DeleteTrack(u) { ErasedIsGone(db, tx, p); }
    } else {
      NewRowIsPinned(db, tx, p, u);
    }
  }

  lemma ErasedIsGone(db: Db, tx: Tx, p: PlaylistId)
    requires ErasureOk(db, tx) && tx.cmd.DeleteTrack? && tx.phase.Writing? && p in Holders(db, tx.cmd.track)
    ensures tx.cmd.track !in View(db, tx, p)
  {
  }

  lemma OtherViewStays(db: Db, o: Tx, x: Tx, p: PlaylistId)
    requires Valid(db) && Sane(db, o) && Sane(db, x) && Separate(o, x) && p in x.writes
    ensures p in Merged(db, o).playlists && SlotsOk(View(Merged(db, o), x, p))
  {
    var mine, theirs := x.writes[p], ChangesOf(o, p);
    OverlayNothing(Rows(db, p));
    assert View(db, o, p) == Overlay(Rows(db, p), theirs);
    assert SlotsOk(View(db, o, p)) && SlotsOk(View(db, x, p));
    forall u | u in theirs ensures u !in mine { assert Claims(o, p, u); }
    forall u, v | u in theirs && v in mine && theirs[u].Some? && mine[v].Some? ensures theirs[u] != mine[v] {
      assert PendingAt(o, p, theirs[u].value);
      if theirs[u] == mine[v] { assert PendingAt(x, p, mine[v].value); }
    }
    OverlaysAgree(Rows(db, p), theirs, mine);
  }

  /** Changes to different rows, to different positions, each fine on its own, are fine together. */
  lemma OverlaysAgree(m: Slots, theirs: Changes, mine: Changes)
    requires SlotsOk(Overlay(m, theirs)) && SlotsOk(Overlay(m, mine))
    requires forall u :: u in theirs ==> u !in mine
    requires forall u, v :: u in theirs && v in mine && theirs[u].Some? && mine[v].Some? ==> theirs[u] != mine[v]
    ensures SlotsOk(Overlay(Overlay(m, theirs), mine))
  {
    var a, b, r := Overlay(m, theirs), Overlay(m, mine), Overlay(Overlay(m, theirs), mine);
    forall u | u in r ensures (u in a && r[u] == a[u]) || (u in b && r[u] == b[u]) {}
    forall u, v | u in r && v in r && r[u] == r[v] ensures u == v { SameRow(m, theirs, mine, u, v); }
  }

  lemma SameRow(m: Slots, theirs: Changes, mine: Changes, u: TrackId, v: TrackId)
    requires Distinct(Overlay(m, theirs)) && Distinct(Overlay(m, mine))
    requires forall w :: w in theirs ==> w !in mine
    requires forall w, z :: w in theirs && z in mine && theirs[w].Some? && mine[z].Some? ==> theirs[w] != mine[z]
    requires var r := Overlay(Overlay(m, theirs), mine); u in r && v in r && r[u] == r[v]
    ensures u == v
  {
    var a, b, r := Overlay(m, theirs), Overlay(m, mine), Overlay(Overlay(m, theirs), mine);
    assert r[u] == if u in mine then mine[u].value else a[u];
    assert r[v] == if v in mine then mine[v].value else a[v];
    if u !in mine && v !in mine {
      assert u in a && v in a;
    } else if u !in theirs && v !in theirs {
      assert u in b && v in b && b[u] == r[u] && b[v] == r[v];
    }
  }

  lemma OtherStaysSane(db: Db, o: Tx, x: Tx)
    requires Valid(db) && Sane(db, o) && Sane(db, x) && Separate(o, x) && Separate(x, o) && o.phase == Writing([])
    ensures Sane(Merged(db, o), x)
  {
    forall p | p in x.writes ensures p in Merged(db, o).playlists && SlotsOk(View(Merged(db, o), x, p)) { OtherViewStays(db, o, x, p); }
    OtherSourcesStay(db, o, x);
    OtherErasureStays(db, o, x);
  }

  lemma OtherSourcesStay(db: Db, o: Tx, x: Tx)
    requires SourcesOk(db, x) && Separate(o, x) && o.phase == Writing([])
    ensures SourcesOk(Merged(db, o), x)
  {
    var db' := Merged(db, o);
    forall p, u | p in x.writes && u in x.writes[p] && x.writes[p][u].Some?
      ensures p in db'.playlists && (u in Rows(db', p) || (Pins(x, u) && u in db'.tracks))
    {
      SourceOf(db, x, p, u);
      assert Claims(x, p, u) && !Claims(o, p, u);
    }
  }

  lemma OtherErasureStays(db: Db, o: Tx, x: Tx)
    requires SourcesOk(db, o) && ErasureOk(db, x) && !Clash(x, o)
    ensures ErasureOk(Merged(db, o), x)
  {
    if x.cmd.DeleteTrack? && x.phase.Writing? {
      var t := x.cmd.track;
      forall p | p in Holders(Merged(db, o), t) ensures p in Holders(db, t) {
        if t !in Rows(db, p) { NewRowIsPinned(db, o, p, t); }
      }
    }
  }

  lemma CommitGuarded(lockFirst: bool, s: State, o: nat)
    requires Guarded(s) && Enabled(lockFirst, s, Commit(o))
    ensures Guarded(Apply(lockFirst, s, Commit(o)))
  {
    var s' := Apply(lockFirst, s, Commit(o));
    var done := s'.txs[o];
    MergedIsValid(s.db, s.txs[o]);
    forall x | 0 <= x < |s.txs| && x != o ensures Sane(s'.db, s.txs[x]) {
      assert Separate(s.txs[o], s.txs[x]) && Separate(s.txs[x], s.txs[o]);
      OtherStaysSane(s.db, s.txs[o], s.txs[x]);
    }
    forall x | 0 <= x < |s.txs| && x != o ensures Separate(done, s.txs[x]) && Separate(s.txs[x], done) { IdleIsSeparate(done, s.txs[x]); }
  }

  // ---- Any run ----

  lemma StepStaysGuarded(lockFirst: bool, s: State, e: Event)
    requires Guarded(s) && Enabled(lockFirst, s, e)
    ensures Guarded(Apply(lockFirst, s, e))
  {
    var s' := Apply(lockFirst, s, e);
    match e
    case Insert(o) => InsertGuarded(lockFirst, s, o);
    case Remove(o) => RemoveGuarded(lockFirst, s, o);
    case Erase(o) => EraseGuarded(lockFirst, s, o);
    case Renumber(o) => RenumberGuarded(lockFirst, s, o);
    case Commit(o) => CommitGuarded(lockFirst, s, o);
    case Read(o, rows) => ReadPositions(rows, s.db, s.txs[o].cmd.track); QuietStep(s, s', o, s'.txs[o]);
    case _ => assert Sane(s.db, s.txs[e.o]); QuietStep(s, s', e.o, s'.txs[e.o]);
  }

  lemma {:induction false} RunStaysGuarded(lockFirst: bool, s: State, es: seq<Event>)
    requires Guarded(s) && Legal(lockFirst, s, es)
    ensures Guarded(Exec(lockFirst, s, es))
    decreases |es|
  {
    if es != [] {
      StepStaysGuarded(lockFirst, s, es[0]);
      RunStaysGuarded(lockFirst, Apply(lockFirst, s, es[0]), es[1..]);
    }
  }

  lemma ReachedIsGuarded(lockFirst: bool, db: Db, cmds: seq<Command>, es: seq<Event>)
    requires Valid(db) && Legal(lockFirst, Begin(db, cmds), es)
    ensures Guarded(Exec(lockFirst, Begin(db, cmds), es))
  {
    RunStaysGuarded(lockFirst, Begin(db, cmds), es);
  }

  /** Whatever AddTrack, RemoveTrack and DeleteTrack requests interleave however, the committed tables meet
      both unique constraints and both foreign keys throughout. */
  lemma TablesStayValid(lockFirst: bool, db: Db, cmds: seq<Command>, es: seq<Event>)
    requires Valid(db) && Legal(lockFirst, Begin(db, cmds), es)
    ensures Valid(Exec(lockFirst, Begin(db, cmds), es).db)
  {
    ReachedIsGuarded(lockFirst, db, cmds, es);
  }

  /** The statement is a renumbering that would move a row to a position another row keeps. */
  ghost predicate RunsInto(s: State, e: Event) {
    && e.Renumber? && e.o < |s.txs| && s.txs[e.o].phase.Writing? && s.txs[e.o].phase.rows != []
    && var row := s.txs[e.o].phase.rows[0];
    row.playlist in s.db.playlists && Collision(View(s.db, s.txs[e.o], row.playlist), row.position)
  }

  /** Exactly when a statement fails: a renumbering that would move a row to a position another row keeps.
      In a clean run none does (`TxSerial.CleanRunsNeverFail`). */
  lemma FailsIffCollides(lockFirst: bool, db: Db, cmds: seq<Command>, es: seq<Event>, s: State, e: Event)
    requires Valid(db) && Legal(lockFirst, Begin(db, cmds), es) && Exec(lockFirst, Begin(db, cmds), es) == s
    requires Enabled(lockFirst, s, e)
    ensures Apply(lockFirst, s, e).txs[e.o].phase.Failed? <==> RunsInto(s, e)
  {
    ReachedIsGuarded(lockFirst, db, cmds, es);
    StepFailsIff(lockFirst, s, e);
  }

  lemma StepFailsIff(lockFirst: bool, s: State, e: Event)
    requires Guarded(s) && Enabled(lockFirst, s, e)
    ensures Apply(lockFirst, s, e).txs[e.o].phase.Failed? <==> RunsInto(s, e)
  {
    if e.Renumber? {
      var row := s.txs[e.o].phase.rows[0];
      assert Sane(s.db, s.txs[e.o]) && SlotsOk(Rows(s.db, row.playlist));
      CollisionNeedsTwo(View(s.db, s.txs[e.o], row.playlist), row.position);
    }
  }

  /** What a renumbering waits for, from the rows: each row it moves, and each position it moves one to, must
      be nobody else's; and so must a row that would be run into, which is let go of before it counts as one. */
  lemma RenumberIsReadyIff(lockFirst: bool, s: State, o: nat, p: PlaylistId, x: int)
    requires o < |s.txs| && s.txs[o].phase.Writing? && s.txs[o].phase.rows != [] && s.txs[o].phase.rows[0] == Membership(p, x)
    requires p in s.db.playlists
    ensures var m := View(s.db, s.txs[o], p);
            Enabled(lockFirst, s, Renumber(o)) <==>
              && (forall u, y :: u in m && m[u] > x && 0 <= y < |s.txs| && y != o ==>
                    !Claims(s.txs[y], p, u) && !PendingAt(s.txs[y], p, m[u] - 1))
              && (forall u, v, y :: u in m && v in m && m[u] == x && m[v] == x + 1 && 0 <= y < |s.txs| && y != o ==>
                    !Claims(s.txs[y], p, u))
  {
    var m := View(s.db, s.txs[o], p);
    if Enabled(lockFirst, s, Renumber(o)) {
      forall u, y | u in m && m[u] > x && 0 <= y < |s.txs| && y != o
        ensures !Claims(s.txs[y], p, u) && !PendingAt(s.txs[y], p, m[u] - 1)
      {
        assert Concerns(m, x, u) && NonePending(s, o, p, m[u] - 1);
      }
      forall u, v, y | u in m && v in m && m[u] == x && m[v] == x + 1 && 0 <= y < |s.txs| && y != o
        ensures !Claims(s.txs[y], p, u)
      {
        assert Concerns(m, x, u);
      }
    }
  }
}
