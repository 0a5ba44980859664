/** What a track delete does when the track was inserted somewhere after its lock statement, from the
    positions it has read: exactly when it fails, and when it leaves every playlist dense, if nobody else moves
    from its DELETE to its commit. `TxDensity` has the condition at the commit, whoever moves. */
module TxWindow {
  import opened Storage
  import opened Positions
  import opened PlaylistSpec
  import opened PlaylistRepo
  import opened PlaylistTx
  import opened TxSerial
  import opened TxRuns

  // ---- One playlist ----

  /** The position the memberships give for a playlist, if they list it. */
  function ListedAt(rows: seq<Membership>, p: PlaylistId): Option<int> {
    if rows == [] then None
    else if rows[0].playlist == p then Some(rows[0].position)
    else ListedAt(rows[1..], p)
  }

  /** The rows without the track, and past position `x` moved up by one if the playlist was listed with it. */
  function CutSlots(m: Slots, t: TrackId, x: Option<int>): Slots {
    if x.Some? then Shift(m - {t}, x.value) else m - {t}
  }

  /** The renumbering runs into a row that stays at `x`: there is one, and one behind it to move there. */
  predicate Bumps(m: Slots, t: TrackId, x: int) {
    0 <= x && x + 1 < |m| && (t in m ==> m[t] != x && m[t] != x + 1)
  }

  ghost predicate IsLast(m: Slots, t: TrackId)
    requires t in m
  {
    m[t] == |m| - 1
  }

  /** The gap the track leaves is closed: it is where the delete believes it to be or one further, or
      there is nothing behind it. */
  ghost predicate Closes(m: Slots, t: TrackId, x: Option<int>)
    requires t in m
  {
    IsLast(m, t) || (x.Some? && (x.value == m[t] || x.value == m[t] - 1))
  }

  /** Exactly when the renumbering fails. */
  lemma BumpsIff(m: Slots, t: TrackId, x: int)
    requires SlotsOk(m) && Dense(m) && x >= 0
    ensures Distinct(Shift(m - {t}, x)) <==> !Bumps(m, t, x)
  {
    CollisionNeedsTwo(m - {t}, x);
    if Bumps(m, t, x) {
      var u := TrackAt(m, x);
      var v := TrackAt(m, x + 1);
      assert u in m - {t} && v in m - {t};
    }
  }

  lemma RowsBelow(m: Slots, t: TrackId)
    requires t in m
    ensures |m - {t}| == |m| - 1
  {
    assert (m - {t}).Keys == m.Keys - {t};
  }

  lemma ShiftSize(m: Slots, x: int)
    ensures |Shift(m, x)| == |m|
  {
    assert Shift(m, x).Keys == m.Keys;
  }

  /** Exactly when a delete that does not fail leaves the playlist dense. */
  lemma ClosesIff(m: Slots, t: TrackId, x: Option<int>)
    requires SlotsOk(m) && Dense(m) && t in m && (x.Some? ==> x.value >= 0 && !Bumps(m, t, x.value))
    ensures Dense(CutSlots(m, t, x)) <==> Closes(m, t, x)
  {
    var r := CutSlots(m, t, x);
    var n := |m|;
    RowsBelow(m, t);
    if x.Some? {
      BumpsIff(m, t, x.value);
      ShiftSize(m - {t}, x.value);
    }
    if Closes(m, t, x) {
      forall u | u in r ensures 0 <= r[u] < n - 1 { assert u in m && m[u] != m[t]; }
    } else {
      var u := TrackAt(m, n - 1);
      assert u in r && r[u] == n - 1;
    }
  }

  /** A playlist listed by mistake: the track has left it again. Nothing changes, or the delete fails. */
  lemma StrayIsHarmless(m: Slots, t: TrackId, x: int)
    requires SlotsOk(m) && Dense(m) && t !in m && x >= 0 && !Bumps(m, t, x)
    ensures CutSlots(m, t, Some(x)) == m
  {
    assert m - {t} == m;
  }

  // ---- All playlists ----

  /** Transaction `o` is about to delete `t` with these memberships in hand, true or no longer true.
      Others may be at work, holding what they like, so long as they have changed no row of a playlist
      concerned and neither insert nor delete the track. */
  ghost predicate AboutToCut(s: State, o: nat, t: TrackId, rows: seq<Membership>) {
    && o < |s.txs| && s.txs[o].cmd == DeleteTrack(t) && s.txs[o].phase == Erasing(rows) && s.txs[o].writes == map[]
    && Valid(s.db) && t in s.db.tracks && DistinctLists(rows)
    && InRange(s.db, rows) && Undisputed(s, o, t, rows)
  }

  ghost predicate Undisputed(s: State, o: nat, t: TrackId, rows: seq<Membership>) {
    forall x :: 0 <= x < |s.txs| && x != o ==>
      && !Erases(s.txs[x], t) && !Pins(s.txs[x], t)
      && forall p :: p in s.txs[x].writes ==> p !in Holders(s.db, t) && !Mentions(rows, p)
  }

  /** What the delete makes of the rows once it has renumbered the playlists in `done`. */
  ghost predicate CutSoFar(db: Db, tx: Tx, t: TrackId, done: seq<Membership>) {
    forall p :: p in db.playlists ==> View(db, tx, p) == CutSlots(Rows(db, p), t, ListedAt(done, p))
  }

  lemma {:induction false} ListedOneMore(done: seq<Membership>, row: Membership, p: PlaylistId)
    ensures ListedAt(done + [row], p) ==
            if ListedAt(done, p).Some? then ListedAt(done, p) else if row.playlist == p then Some(row.position) else None
    decreases |done|
  {
    if done == [] {
      assert [row][1..] == [] && done + [row] == [row];
    } else {
      assert (done + [row])[1..] == done[1..] + [row];
      ListedOneMore(done[1..], row, p);
    }
  }

  lemma {:induction false} ListedMeans(rows: seq<Membership>, p: PlaylistId)
    requires DistinctLists(rows)
    ensures ListedAt(rows, p).Some? <==> Mentions(rows, p)
    ensures forall i :: 0 <= i < |rows| && rows[i].playlist == p ==> ListedAt(rows, p) == Some(rows[i].position)
    decreases |rows|
  {
    if rows != [] {
      ListedMeans(rows[1..], p);
      MentionsHead(rows, p);
      forall i | 0 <= i < |rows| && rows[i].playlist == p ensures ListedAt(rows, p) == Some(rows[i].position) {
        if i > 0 { assert rows[1..][i - 1] == rows[i]; }
      }
    }
  }

  lemma Erased(lockFirst: bool, clean: bool, s0: State, was: State, o: nat, t: TrackId, rows: seq<Membership>) returns (s: State)
    requires AboutToCut(was, o, t, rows) && Leads(lockFirst, clean, s0, was)
    ensures Leads(lockFirst, clean, s0, s) && s.db == was.db && |s.txs| == |was.txs| && s.txs == was.txs[o := s.txs[o]]
    ensures s.txs[o].cmd == DeleteTrack(t) && s.txs[o].phase == Writing(rows) && CutSoFar(s.db, s.txs[o], t, [])
  {
    s := Go(lockFirst, clean, s0, was, Erase(o));
    forall p | p in s.db.playlists ensures View(s.db, s.txs[o], p) == CutSlots(Rows(s.db, p), t, None) {
      OneGone(Rows(s.db, p), t);
      assert t !in Rows(s.db, p) ==> Rows(s.db, p) - {t} == Rows(s.db, p);
    }
  }

  /** One renumbering: it collides, or it completes one more playlist. */
  lemma OneCut(lockFirst: bool, clean: bool, s0: State, was: State, o: nat, t: TrackId, done: seq<Membership>)
    returns (s: State)
    requires o < |was.txs| && was.txs[o].cmd == DeleteTrack(t) && was.txs[o].phase.Writing? && was.txs[o].phase.rows != []
    requires var row := was.txs[o].phase.rows[0];
             && row.playlist in was.db.playlists && ListedAt(done, row.playlist).None?
             && forall x :: 0 <= x < |was.txs| && x != o ==> row.playlist !in was.txs[x].writes
    requires CutSoFar(was.db, was.txs[o], t, done) && Leads(lockFirst, clean, s0, was)
    ensures Leads(lockFirst, clean, s0, s) && s.db == was.db && |s.txs| == |was.txs| && s.txs == was.txs[o := s.txs[o]]
    ensures var row := was.txs[o].phase.rows[0];
            if !Distinct(Shift(Rows(was.db, row.playlist) - {t}, row.position)) then s.txs[o].phase.Failed?
            else && s.txs[o].cmd == DeleteTrack(t) && s.txs[o].phase == Writing(was.txs[o].phase.rows[1..])
                 && CutSoFar(s.db, s.txs[o], t, done + [row])
  {
    var row := was.txs[o].phase.rows[0];
    s := Go(lockFirst, clean, s0, was, Renumber(o));
    if !s.txs[o].phase.Failed? { RenumberedView(was.db, was.txs[o], s.txs[o], t, done, row); }
  }

  lemma RenumberedView(db: Db, tx: Tx, tx': Tx, t: TrackId, done: seq<Membership>, row: Membership)
    requires row.playlist in db.playlists && ListedAt(done, row.playlist).None? && CutSoFar(db, tx, t, done)
    requires tx'.writes == tx.writes[row.playlist := ChangesOf(tx, row.playlist) + Moved(View(db, tx, row.playlist), row.position)]
    ensures CutSoFar(db, tx', t, done + [row])
  {
    var p := row.playlist;
    OverlayNothing(Rows(db, p));
    MovedIsShift(Rows(db, p), ChangesOf(tx, p), row.position);
    forall q | q in db.playlists ensures View(db, tx', q) == CutSlots(Rows(db, q), t, ListedAt(done + [row], q)) {
      ListedOneMore(done, row, q);
      assert q != p ==> View(db, tx', q) == View(db, tx, q);
    }
  }

  /** A listed playlist whose renumbering fails. */
  ghost predicate FailsAt(db: Db, t: TrackId, row: Membership)
    requires row.playlist in db.playlists
  {
    Bumps(Rows(db, row.playlist), t, row.position)
  }

  ghost predicate InRange(db: Db, rows: seq<Membership>) {
    forall i :: 0 <= i < |rows| ==> rows[i].playlist in db.playlists && rows[i].position >= 0
  }

  ghost predicate SomeFails(db: Db, t: TrackId, rows: seq<Membership>, n: nat)
    requires InRange(db, rows)
  {
    exists i :: n <= i < |rows| && FailsAt(db, t, rows[i])
  }

  ghost predicate Untouched(s: State, o: nat, rows: seq<Membership>) {
    forall i, x :: 0 <= i < |rows| && 0 <= x < |s.txs| && x != o ==> rows[i].playlist !in s.txs[x].writes
  }

  /** The delete has renumbered the first `n` of the playlists it has listed. */
  ghost predicate Cutting(s: State, o: nat, t: TrackId, rows: seq<Membership>, n: nat) {
    && o < |s.txs| && n <= |rows| && s.txs[o].cmd == DeleteTrack(t) && s.txs[o].phase == Writing(rows[n..])
    && DistinctLists(rows) && InRange(s.db, rows) && Untouched(s, o, rows) && CutSoFar(s.db, s.txs[o], t, rows[..n])
  }

  lemma CutStep(lockFirst: bool, clean: bool, s0: State, was: State, o: nat, t: TrackId, rows: seq<Membership>, n: nat)
    returns (s: State)
    requires Cutting(was, o, t, rows, n) && n < |rows| && Leads(lockFirst, clean, s0, was)
    requires SlotsOk(Rows(was.db, rows[n].playlist)) && Dense(Rows(was.db, rows[n].playlist))
    ensures Leads(lockFirst, clean, s0, s) && s.db == was.db && |s.txs| == |was.txs|
    ensures if FailsAt(was.db, t, rows[n]) then s.txs[o].phase.Failed? else Cutting(s, o, t, rows, n + 1)
  {
    assert rows[n..][0] == rows[n] && rows[n..][1..] == rows[n + 1..] && rows[..n + 1] == rows[..n] + [rows[n]];
    NotListedYet(rows, n);
    BumpsIff(Rows(was.db, rows[n].playlist), t, rows[n].position);
    s := OneCut(lockFirst, clean, s0, was, o, t, rows[..n]);
  }

  lemma {:induction false} AllCut(lockFirst: bool, clean: bool, s0: State, was: State, o: nat, t: TrackId, rows: seq<Membership>, n: nat)
    returns (s: State)
    requires Cutting(was, o, t, rows, n) && Leads(lockFirst, clean, s0, was)
    requires forall p :: p in was.db.playlists ==> SlotsOk(Rows(was.db, p)) && Dense(Rows(was.db, p))
    ensures Leads(lockFirst, clean, s0, s) && s.db == was.db && |s.txs| == |was.txs|
    ensures if SomeFails(was.db, t, rows, n) then s.txs[o].phase.Failed? else Cutting(s, o, t, rows, |rows|)
    decreases |rows| - n
  {
    if n == |rows| {
      s := was;
    } else {
      s := CutStep(lockFirst, clean, s0, was, o, t, rows, n);
      if !FailsAt(was.db, t, rows[n]) {
        s := AllCut(lockFirst, clean, s0, s, o, t, rows, n + 1);
        assert SomeFails(was.db, t, rows, n) <==> SomeFails(was.db, t, rows, n + 1);
      }
    }
  }

  lemma NotListedYet(rows: seq<Membership>, n: nat)
    requires DistinctLists(rows) && n < |rows|
    ensures ListedAt(rows[..n], rows[n].playlist).None?
  {
    ListedMeans(rows[..n], rows[n].playlist);
  }

  /** A delete that has its memberships in hand, whatever has come and gone since its lock statement, run to
      its end from a database that is dense: it fails, and changes nothing, exactly when the position of
      some listed playlist has another track and the next one too; and if it succeeds every playlist is
      dense exactly when, wherever the track is, it was read at its position or the one before, or is last. */
  lemma LateDeleteIff(lockFirst: bool, clean: bool, s0: State, was: State, o: nat, t: TrackId, rows: seq<Membership>)
    returns (s: State)
    requires AboutToCut(was, o, t, rows) && AllDense(was.db) && Leads(lockFirst, clean, s0, was)
    ensures Leads(lockFirst, clean, s0, s) && |s.txs| == |was.txs|
    ensures s.txs[o].phase.Failed? <==> SomeFails(was.db, t, rows, 0)
    ensures s.txs[o].phase.Failed? ==> s.db == was.db
    ensures !s.txs[o].phase.Failed? ==>
            && s.txs[o].phase == Finished(Done)
            && (AllDense(s.db) <==>
                  forall p :: p in Holders(was.db, t) ==> Closes(Rows(was.db, p), t, ListedAt(rows, p)))
  {
    s := ReadyToCut(lockFirst, clean, s0, was, o, t, rows);
    s := AllCut(lockFirst, clean, s0, s, o, t, rows, 0);
    if !SomeFails(was.db, t, rows, 0) { s := CutCommits(lockFirst, clean, s0, s, o, t, rows); }
  }

  lemma ReadyToCut(lockFirst: bool, clean: bool, s0: State, was: State, o: nat, t: TrackId, rows: seq<Membership>) returns (s: State)
    requires AboutToCut(was, o, t, rows) && Leads(lockFirst, clean, s0, was)
    ensures Leads(lockFirst, clean, s0, s) && s.db == was.db && |s.txs| == |was.txs| && Cutting(s, o, t, rows, 0)
  {
    s := Erased(lockFirst, clean, s0, was, o, t, rows);
    assert forall i :: 0 <= i < |rows| ==> Mentions(rows, rows[i].playlist);
    assert rows[0..] == rows && rows[..0] == [];
  }

  lemma CutCommits(lockFirst: bool, clean: bool, s0: State, was: State, o: nat, t: TrackId, rows: seq<Membership>) returns (s: State)
    requires Valid(was.db) && AllDense(was.db) && Cutting(was, o, t, rows, |rows|) && Leads(lockFirst, clean, s0, was)
    requires !SomeFails(was.db, t, rows, 0)
    ensures Leads(lockFirst, clean, s0, s) && |s.txs| == |was.txs| && s.txs[o].phase == Finished(Done)
    ensures AllDense(s.db) <==> forall p :: p in Holders(was.db, t) ==> Closes(Rows(was.db, p), t, ListedAt(rows, p))
  {
    assert rows[|rows|..] == [] && rows[..|rows|] == rows;
    CutIsDenseIff(was.db, was.txs[o], t, rows);
    s := Go(lockFirst, clean, s0, was, Commit(o));
  }

  lemma CutIsDenseIff(db: Db, tx: Tx, t: TrackId, rows: seq<Membership>)
    requires Valid(db) && AllDense(db) && tx.cmd == DeleteTrack(t) && DistinctLists(rows) && CutSoFar(db, tx, t, rows)
    requires InRange(db, rows) && !SomeFails(db, t, rows, 0)
    ensures AllDense(Merged(db, tx)) <==>
            forall p :: p in Holders(db, t) ==> Closes(Rows(db, p), t, ListedAt(rows, p))
  {
    forall p | p in db.playlists
      ensures Dense(View(db, tx, p)) <==> (p in Holders(db, t) ==> Closes(Rows(db, p), t, ListedAt(rows, p)))
    {
      CutOneIff(db, t, rows, p);
    }
    var db' := Merged(db, tx);
    assert forall p :: p in db.playlists ==> db'.playlists[p].slots == View(db, tx, p);
  }

  lemma CutOneIff(db: Db, t: TrackId, rows: seq<Membership>, p: PlaylistId)
    requires Valid(db) && AllDense(db) && DistinctLists(rows) && p in db.playlists
    requires InRange(db, rows) && !SomeFails(db, t, rows, 0)
    ensures Dense(CutSlots(Rows(db, p), t, ListedAt(rows, p))) <==>
            (p in Holders(db, t) ==> Closes(Rows(db, p), t, ListedAt(rows, p)))
  {
    var m, x := Rows(db, p), ListedAt(rows, p);
    ListedMeans(rows, p);
    if x.Some? {
      var i :| 0 <= i < |rows| && rows[i].playlist == p;
      assert !FailsAt(db, t, rows[i]);
    }
    if t in m {
      ClosesIff(m, t, x);
    } else if x.Some? {
      StrayIsHarmless(m, t, x.value);
    } else {
      assert m - {t} == m;
    }
  }
}
