/** Clean runs of the interleaved transactions are serial: each transaction that answers does, at the
    moment it answers, exactly what running it alone on the committed tables would do. */
module TxSerial {
  import opened Storage
  import opened Positions
  import opened PlaylistSpec
  import opened PlaylistRepo
  import opened PlaylistTx

  // ---- What a transaction has done so far, in terms of the committed tables ----

  ghost predicate AddOk(db: Db, tx: Tx)
    requires tx.cmd.AddTrack?
  {
    var p, t := tx.cmd.id, tx.cmd.track;
    match tx.phase
    case Inserting => tx.holds == {p} && tx.writes == map[] && p in db.playlists
    case Writing(rows) =>
      && rows == [] && tx.holds == {p} && p in db.playlists
      && (if t in Rows(db, p) then tx.writes == map[]
          else t in db.tracks && Distinct(Rows(db, p)) && tx.writes == map[p := map[t := Some(Top(Rows(db, p)))]])
    case _ => tx.phase.Starting? || Ended(tx)
  }

  ghost predicate RemoveOk(db: Db, tx: Tx)
    requires tx.cmd.RemoveTrack?
  {
    var p, t := tx.cmd.id, tx.cmd.track;
    match tx.phase
    case Removing => tx.holds == {p} && tx.writes == map[] && p in db.playlists
    case Writing(rows) =>
      && tx.holds == {p} && p in db.playlists && t in Rows(db, p)
      && (rows == [] || rows == [Membership(p, Rows(db, p)[t])])
      && tx.writes.Keys == {p} && View(db, tx, p) == if rows == [] then Drop(Rows(db, p), t) else Rows(db, p) - {t}
    case _ => tx.phase.Starting? || Ended(tx)
  }

  /** The rows still to close are memberships as committed, each of another playlist. */
  ghost predicate Pending(rows: seq<Membership>, playlists: map<PlaylistId, Playlist>, t: TrackId) {
    && (forall i :: 0 <= i < |rows| ==> IsMembership(rows[i], playlists, t))
    && DistinctLists(rows)
  }

  /** The track is out of every playlist that held it, and the gap is closed in those not listed any more. */
  ghost predicate DroppedSoFar(db: Db, tx: Tx, t: TrackId, rows: seq<Membership>) {
    && tx.writes.Keys == Holders(db, t)
    && forall p :: p in tx.writes ==>
         View(db, tx, p) == if Mentions(rows, p) then Rows(db, p) - {t} else Drop(Rows(db, p), t)
  }

  ghost predicate DeleteOk(db: Db, tx: Tx)
    requires tx.cmd.DeleteTrack?
  {
    var t := tx.cmd.track;
    match tx.phase
    case Locking(wanted) =>
      && tx.writes == map[] && Ascending(wanted)
      && (forall p :: p in wanted ==> p in db.playlists)
      && (forall h, p :: h in tx.holds && p in wanted ==> h < p)
      && (forall p :: p in Holders(db, t) ==> p in tx.holds || p in wanted)
    case Erasing(rows) =>
      tx.writes == map[] && Holders(db, t) <= tx.holds && ListsMemberships(rows, db.playlists, t)
    case Writing(rows) =>
      && t in db.tracks && Holders(db, t) <= tx.holds && Pending(rows, db.playlists, t) && DroppedSoFar(db, tx, t, rows)
    case _ => tx.phase.Starting? || Ended(tx)
  }

  ghost predicate TxOk(db: Db, tx: Tx) {
    && tx.holds <= db.playlists.Keys
    && (tx.phase.Starting? || Ended(tx) ==> tx.holds == {} && tx.writes == map[])
    && (match tx.cmd
        case AddTrack(_, _) => AddOk(db, tx)
        case RemoveTrack(_, _) => RemoveOk(db, tx)
        case DeleteTrack(_) => DeleteOk(db, tx)
        case _ => false)
  }

  ghost predicate AllOk(s: State) {
    forall x :: 0 <= x < |s.txs| ==> TxOk(s.db, s.txs[x])
  }

  ghost predicate Apart(s: State) {
    forall x, y :: 0 <= x < |s.txs| && 0 <= y < |s.txs| && x != y ==> s.txs[x].holds !! s.txs[y].holds
  }

  ghost predicate Clash(a: Tx, b: Tx) {
    a.cmd.DeleteTrack? && a.phase.Writing? && (Erases(b, a.cmd.track) || Pins(b, a.cmd.track))
  }

  ghost predicate NoClash(s: State) {
    forall x, y :: 0 <= x < |s.txs| && 0 <= y < |s.txs| && x != y ==> !Clash(s.txs[x], s.txs[y])
  }

  ghost predicate Inv(s: State) {
    Valid(s.db) && AllOk(s) && Apart(s) && NoClash(s)
  }

  // ---- Each statement keeps its own transaction in order ----

  lemma TouchOk(s: State, o: nat)
    requires Enabled(true, s, Touch(o)) && TxOk(s.db, s.txs[o])
    ensures TxOk(s.db, Touching(s, o).txs[o])
  {
  }

  lemma InsertOk(s: State, o: nat)
    requires Enabled(true, s, Insert(o)) && TxOk(s.db, s.txs[o])
    ensures TxOk(s.db, InsertingRow(s, o).txs[o])
  {
  }

  lemma OneGone(m: Slots, t: TrackId)
    ensures Overlay(m, map[t := None]) == m - {t}
  {
  }

  lemma OneMore(m: Slots, t: TrackId)
    requires Distinct(m) && t !in m
    ensures Overlay(m, map[t := Some(Top(m))]) == Append(m, t)
  {
  }

  lemma RemoveRowOk(s: State, o: nat)
    requires Enabled(true, s, Remove(o)) && TxOk(s.db, s.txs[o])
    ensures TxOk(s.db, RemovingRow(s, o).txs[o])
  {
    OneGone(Rows(s.db, s.txs[o].cmd.id), s.txs[o].cmd.track);
  }

  lemma LockHoldersOk(s: State, o: nat, wanted: seq<PlaylistId>)
    requires Enabled(true, s, LockHolders(o, wanted)) && TxOk(s.db, s.txs[o])
    ensures TxOk(s.db, s.txs[o].(phase := Locking(wanted)))
  {
    assert forall p :: p in wanted ==> p in Holders(s.db, s.txs[o].cmd.track);
  }

  lemma LockNextOk(s: State, o: nat)
    requires Enabled(true, s, LockNext(o)) && TxOk(s.db, s.txs[o])
    ensures var tx := s.txs[o];
            TxOk(s.db, tx.(phase := Locking(tx.phase.wanted[1..]), holds := tx.holds + {tx.phase.wanted[0]}))
  {
    var tx := s.txs[o];
    var wanted := tx.phase.wanted;
    HeadIsLeast(wanted);
    assert forall h, p :: h in tx.holds + {wanted[0]} && p in wanted[1..] ==> h < p;
  }

  lemma HeadIsLeast(ps: seq<PlaylistId>)
    requires Ascending(ps) && ps != []
    ensures Ascending(ps[1..])
    ensures forall p :: p in ps <==> p == ps[0] || p in ps[1..]
    ensures forall p :: p in ps[1..] ==> ps[0] < p
  {
    var rest := ps[1..];
    assert ps == [ps[0]] + rest;
    forall p | p in rest ensures ps[0] < p {
      var i :| 0 <= i < |rest| && rest[i] == p;
      assert ps[i + 1] == p;
    }
  }

  lemma ReadOk(s: State, o: nat, rows: seq<Membership>)
    requires Enabled(true, s, Read(o, rows)) && TxOk(s.db, s.txs[o])
    ensures TxOk(s.db, s.txs[o].(phase := Erasing(rows)))
  {
  }

  lemma EraseOk(s: State, o: nat)
    requires Enabled(true, s, Erase(o)) && TxOk(s.db, s.txs[o])
    ensures TxOk(s.db, ErasingTrack(s, o).txs[o])
    ensures ErasingTrack(s, o).txs[o].holds <= s.txs[o].holds
  {
    var t := s.txs[o].cmd.track;
    if t in s.db.tracks {
      assert Cascade(s.db, t).Keys == Holders(s.db, t);
      forall p | p in Holders(s.db, t) ensures Overlay(Rows(s.db, p), map[t := None]) == Rows(s.db, p) - {t} {
        OneGone(Rows(s.db, p), t);
      }
    }
  }

  /** Closing the gap a deleted row leaves never runs into another row, and completes the drop. */
  lemma GapCloses(m: Slots, t: TrackId)
    requires SlotsOk(m) && t in m
    ensures Distinct(Shift(m - {t}, m[t])) && Shift(m - {t}, m[t]) == Drop(m, t)
  {
    MemberDropped(m, t);
  }

  lemma RenumberRemoveOk(s: State, o: nat)
    requires Valid(s.db) && Enabled(true, s, Renumber(o)) && TxOk(s.db, s.txs[o]) && s.txs[o].cmd.RemoveTrack?
    ensures TxOk(s.db, Renumbering(s, o).txs[o]) && !Renumbering(s, o).txs[o].phase.Failed?
    ensures Renumbering(s, o).txs[o].holds <= s.txs[o].holds
  {
    var tx := s.txs[o];
    var p := tx.cmd.id;
    GapCloses(Rows(s.db, p), tx.cmd.track);
    MovedIsShift(Rows(s.db, p), tx.writes[p], tx.phase.rows[0].position);
  }

  lemma RenumberDeleteOk(s: State, o: nat)
    requires Valid(s.db) && Enabled(true, s, Renumber(o)) && TxOk(s.db, s.txs[o]) && s.txs[o].cmd.DeleteTrack?
    ensures TxOk(s.db, Renumbering(s, o).txs[o]) && !Renumbering(s, o).txs[o].phase.Failed?
    ensures Renumbering(s, o).txs[o].holds <= s.txs[o].holds
  {
    var tx, tx' := s.txs[o], Renumbering(s, o).txs[o];
    NextPending(tx.phase.rows, s.db, tx.cmd.track);
    NextIsSetAside(s.db, tx, tx.cmd.track, tx.phase.rows);
    NextGapCloses(s, o);
    NextRenumbered(s.db, tx, tx', tx.cmd.track, tx.phase.rows);
    WritingOn(s.db, tx, tx', tx.phase.rows[1..]);
  }

  lemma WritingOn(db: Db, tx: Tx, tx': Tx, rows: seq<Membership>)
    requires TxOk(db, tx) && tx.cmd.DeleteTrack? && tx.phase.Writing?
    requires tx' == Tx(tx.cmd, Writing(rows), tx.holds, tx'.writes)
    requires Pending(rows, db.playlists, tx.cmd.track) && DroppedSoFar(db, tx', tx.cmd.track, rows)
    ensures TxOk(db, tx')
  {
  }

  lemma NextIsSetAside(db: Db, tx: Tx, t: TrackId, rows: seq<Membership>)
    requires DroppedSoFar(db, tx, t, rows) && Pending(rows, db.playlists, t) && rows != []
    ensures SetAside(db, tx, t, rows[0])
  {
    assert IsMembership(rows[0], db.playlists, t) && rows[0].playlist in Holders(db, t);
    assert Mentions(rows, rows[0].playlist);
  }

  /** The track is out of the playlist and the gap it has left, at this position, still there. */
  ghost predicate SetAside(db: Db, tx: Tx, t: TrackId, row: Membership) {
    && row.playlist in db.playlists && row.playlist in tx.writes
    && t in Rows(db, row.playlist) && row.position == Rows(db, row.playlist)[t]
    && View(db, tx, row.playlist) == Rows(db, row.playlist) - {t}
  }

  lemma NextGapCloses(s: State, o: nat)
    requires Valid(s.db) && o < |s.txs| && s.txs[o].cmd.DeleteTrack? && s.txs[o].phase.Writing? && s.txs[o].phase.rows != []
    requires SetAside(s.db, s.txs[o], s.txs[o].cmd.track, s.txs[o].phase.rows[0])
    ensures var tx := s.txs[o];
            var p := tx.phase.rows[0].playlist;
            && p in s.db.playlists
            && var tx' := Renumbering(s, o).txs[o];
            && tx' == Tx(tx.cmd, Writing(tx.phase.rows[1..]), tx.holds, tx'.writes) && tx'.writes.Keys == tx.writes.Keys + {p}
            && View(s.db, tx', p) == Drop(Rows(s.db, p), tx.cmd.track)
            && forall q :: q in tx.writes && q != p ==> tx'.writes[q] == tx.writes[q]
  {
    var tx := s.txs[o];
    var p := tx.phase.rows[0].playlist;
    GapCloses(Rows(s.db, p), tx.cmd.track);
    MovedIsShift(Rows(s.db, p), tx.writes[p], tx.phase.rows[0].position);
  }

  /** The next playlist to renumber still has its gap, and is not met again. */
  lemma NextPending(rows: seq<Membership>, db: Db, t: TrackId)
    requires rows != [] && Pending(rows, db.playlists, t)
    ensures var p := rows[0].playlist;
            && p in Holders(db, t) && rows[0].position == Rows(db, p)[t]
            && !Mentions(rows[1..], p) && Pending(rows[1..], db.playlists, t)
            && forall q :: Mentions(rows, q) <==> q == p || Mentions(rows[1..], q)
  {
    assert IsMembership(rows[0], db.playlists, t);
    forall q ensures Mentions(rows, q) <==> q == rows[0].playlist || Mentions(rows[1..], q) { MentionsHead(rows, q); }
  }

  lemma NextRenumbered(db: Db, tx: Tx, tx': Tx, t: TrackId, rows: seq<Membership>)
    requires DroppedSoFar(db, tx, t, rows) && rows != [] && Pending(rows, db.playlists, t)
    requires var p := rows[0].playlist;
             && p in db.playlists && tx'.writes.Keys == tx.writes.Keys + {p} && t in Rows(db, p)
             && View(db, tx', p) == Drop(Rows(db, p), t)
             && forall q :: q in tx.writes && q != p ==> tx'.writes[q] == tx.writes[q]
    ensures DroppedSoFar(db, tx', t, rows[1..])
  {
    NextPending(rows, db, t);
    forall q | q in tx'.writes
      ensures View(db, tx', q) == if Mentions(rows[1..], q) then Rows(db, q) - {t} else Drop(Rows(db, q), t)
    {
      assert q != rows[0].playlist ==> View(db, tx', q) == View(db, tx, q);
    }
  }

  lemma MentionsHead(rows: seq<Membership>, p: PlaylistId)
    requires rows != []
    ensures Mentions(rows, p) <==> p == rows[0].playlist || Mentions(rows[1..], p)
  {
    if Mentions(rows, p) {
      var i :| 0 <= i < |rows| && rows[i].playlist == p;
      assert i > 0 ==> rows[1..][i - 1] == rows[i];
    }
    if Mentions(rows[1..], p) {
      var i :| 0 <= i < |rows[1..]| && rows[1..][i].playlist == p;
      assert rows[i + 1] == rows[1..][i];
    }
  }

  // ---- A commit leaves the others in order ----

  /** What one transaction may assume of another that commits. */
  ghost predicate MayCommitBeside(o: Tx, x: Tx) {
    && o.phase == Writing([]) && o.holds !! x.holds
    && (Inserted(o) ==> !InWindow(x, o.cmd.track))
    && !Clash(o, x) && !Clash(x, o)
  }

  lemma WritesAreHeld(db: Db, tx: Tx, p: PlaylistId)
    requires TxOk(db, tx) && p in tx.writes
    ensures p in tx.holds && p in db.playlists
  {
  }

  lemma HeldRowsStay(db: Db, o: Tx, x: Tx, p: PlaylistId)
    requires TxOk(db, o) && TxOk(db, x) && o.holds !! x.holds && p in x.holds
    ensures p in Merged(db, o).playlists && Rows(Merged(db, o), p) == Rows(db, p)
  {
    if p in o.writes { WritesAreHeld(db, o, p); }
  }

  lemma OnlyInsertsAdd(db: Db, o: Tx, t: TrackId, p: PlaylistId)
    requires TxOk(db, o) && o.phase == Writing([])
    requires p in Holders(Merged(db, o), t) && p !in Holders(db, t)
    ensures Inserted(o) && o.cmd.track == t
  {
  }

  lemma AddUndisturbed(db: Db, o: Tx, x: Tx)
    requires TxOk(db, o) && TxOk(db, x) && x.cmd.AddTrack? && MayCommitBeside(o, x)
    ensures TxOk(Merged(db, o), x)
  {
    if x.cmd.id in x.holds { HeldRowsStay(db, o, x, x.cmd.id); }
    if x.cmd.id in x.writes { assert Pins(x, x.cmd.track); }
  }

  lemma RemoveUndisturbed(db: Db, o: Tx, x: Tx)
    requires TxOk(db, o) && TxOk(db, x) && x.cmd.RemoveTrack? && MayCommitBeside(o, x)
    ensures TxOk(Merged(db, o), x)
  {
    if x.cmd.id in x.holds { HeldRowsStay(db, o, x, x.cmd.id); }
  }

  lemma HoldersOnlyShrink(db: Db, o: Tx, x: Tx)
    requires TxOk(db, o) && TxOk(db, x) && x.cmd.DeleteTrack? && MayCommitBeside(o, x)
    requires x.phase.Locking? || x.phase.Erasing? || x.phase.Writing?
    ensures Holders(Merged(db, o), x.cmd.track) <= Holders(db, x.cmd.track)
  {
    var t := x.cmd.track;
    forall p | p in Holders(Merged(db, o), t) ensures p in Holders(db, t) {
      if p !in Holders(db, t) {
        OnlyInsertsAdd(db, o, t, p);
      }
    }
  }

  lemma HoldersStay(db: Db, o: Tx, x: Tx)
    requires TxOk(db, o) && TxOk(db, x) && x.cmd.DeleteTrack? && MayCommitBeside(o, x)
    requires x.phase.Erasing? || x.phase.Writing?
    ensures Holders(Merged(db, o), x.cmd.track) == Holders(db, x.cmd.track)
    ensures forall p :: p in Holders(db, x.cmd.track) ==> Rows(Merged(db, o), p) == Rows(db, p)
  {
    HoldersOnlyShrink(db, o, x);
    forall p | p in Holders(db, x.cmd.track) ensures Rows(Merged(db, o), p) == Rows(db, p) { HeldRowsStay(db, o, x, p); }
  }

  lemma DeleteUndisturbed(db: Db, o: Tx, x: Tx)
    requires TxOk(db, o) && TxOk(db, x) && x.cmd.DeleteTrack? && MayCommitBeside(o, x)
    ensures TxOk(Merged(db, o), x)
  {
    match x.phase
    case Locking(_) => HoldersOnlyShrink(db, o, x);
    case Erasing(rows) => ErasingUndisturbed(db, o, x);
    case Writing(rows) => WritingUndisturbed(db, o, x);
    case _ =>
  }

  lemma ErasingUndisturbed(db: Db, o: Tx, x: Tx)
    requires TxOk(db, o) && TxOk(db, x) && x.cmd.DeleteTrack? && x.phase.Erasing? && MayCommitBeside(o, x)
    ensures TxOk(Merged(db, o), x)
  {
    HoldersStay(db, o, x);
    MembershipsStay(x.phase.rows, db.playlists, Merged(db, o).playlists, x.cmd.track);
  }

  lemma WritingUndisturbed(db: Db, o: Tx, x: Tx)
    requires TxOk(db, o) && TxOk(db, x) && x.cmd.DeleteTrack? && x.phase.Writing? && MayCommitBeside(o, x)
    ensures TxOk(Merged(db, o), x)
  {
    HoldersStay(db, o, x);
    TrackStays(db, o, x);
    PendingStays(x.phase.rows, db, Merged(db, o), x.cmd.track);
  }

  lemma TrackStays(db: Db, o: Tx, x: Tx)
    requires TxOk(db, x) && x.cmd.DeleteTrack? && x.phase.Writing? && MayCommitBeside(o, x)
    ensures x.cmd.track in Merged(db, o).tracks
  {
    assert o.cmd == DeleteTrack(x.cmd.track) ==> Erases(o, x.cmd.track);
  }

  lemma PendingStays(rows: seq<Membership>, db: Db, db': Db, t: TrackId)
    requires Pending(rows, db.playlists, t) && db'.playlists.Keys == db.playlists.Keys
    requires forall p :: p in Holders(db, t) ==> Rows(db', p) == Rows(db, p)
    ensures Pending(rows, db'.playlists, t)
  {
    forall i | 0 <= i < |rows| ensures IsMembership(rows[i], db'.playlists, t) {
      assert IsMembership(rows[i], db.playlists, t) && rows[i].playlist in Holders(db, t);
    }
  }

  lemma MembershipsStay(rows: seq<Membership>, was: map<PlaylistId, Playlist>, now: map<PlaylistId, Playlist>, t: TrackId)
    requires ListsMemberships(rows, was, t) && now.Keys == was.Keys
    requires forall p :: p in was && t in was[p].slots ==> now[p].slots == was[p].slots
    requires forall p :: p in now && t in now[p].slots ==> t in was[p].slots
    ensures ListsMemberships(rows, now, t)
  {
    forall i | 0 <= i < |rows| ensures IsMembership(rows[i], now, t) { assert IsMembership(rows[i], was, t); }
  }

  // ---- Every clean step keeps the invariant ----

  lemma HeldApart(s: State, o: nat, tx: Tx)
    requires Apart(s) && o < |s.txs|
    requires forall p :: p in tx.holds ==> p in s.txs[o].holds || Free(s, o, p)
    ensures Apart(With(s, o, tx))
  {
  }

  lemma NoNewClash(s: State, o: nat, tx: Tx)
    requires NoClash(s) && o < |s.txs|
    requires forall x :: 0 <= x < |s.txs| && x != o ==> !Clash(tx, s.txs[x]) && !Clash(s.txs[x], tx)
    ensures NoClash(With(s, o, tx))
  {
  }

  /** A step that commits nothing: only the moving transaction has to be looked at. */
  lemma MoveKeepsInv(s: State, s': State, o: nat, tx: Tx)
    requires Inv(s) && o < |s.txs| && s'.txs == s.txs[o := tx] && s'.db == s.db
    requires TxOk(s.db, tx)
    requires forall p :: p in tx.holds ==> p in s.txs[o].holds || Free(s, o, p)
    requires forall x :: 0 <= x < |s.txs| && x != o ==> !Clash(tx, s.txs[x]) && !Clash(s.txs[x], tx)
    ensures Inv(s')
  {
    HeldApart(s, o, tx);
    NoNewClash(s, o, tx);
  }

  lemma TouchKeeps(s: State, o: nat)
    requires Inv(s) && Enabled(true, s, Touch(o))
    ensures Inv(Touching(s, o))
  {
    TouchOk(s, o);
    var tx := Touching(s, o).txs[o];
    MoveKeepsInv(s, Touching(s, o), o, tx);
  }

  lemma InsertKeeps(s: State, o: nat)
    requires Inv(s) && Enabled(true, s, Insert(o))
    ensures Inv(InsertingRow(s, o))
  {
    InsertOk(s, o);
    MoveKeepsInv(s, InsertingRow(s, o), o, InsertingRow(s, o).txs[o]);
  }

  lemma RemoveKeeps(s: State, o: nat)
    requires Inv(s) && Enabled(true, s, Remove(o))
    ensures Inv(RemovingRow(s, o))
  {
    RemoveRowOk(s, o);
    MoveKeepsInv(s, RemovingRow(s, o), o, RemovingRow(s, o).txs[o]);
  }

  lemma LockKeeps(s: State, e: Event)
    requires Inv(s) && Enabled(true, s, e) && (e.LockHolders? || e.LockNext? || e.Read?)
    ensures Inv(Apply(true, s, e))
  {
    match e {
      case LockHolders(o, wanted) => LockHoldersOk(s, o, wanted);
      case LockNext(o) => LockNextOk(s, o);
      case Read(o, rows) => ReadOk(s, o, rows);
    }
    MoveKeepsInv(s, Apply(true, s, e), e.o, Apply(true, s, e).txs[e.o]);
  }

  lemma EraseKeeps(s: State, o: nat)
    requires Inv(s) && Enabled(true, s, Erase(o))
    ensures Inv(ErasingTrack(s, o))
  {
    EraseOk(s, o);
    MoveKeepsInv(s, ErasingTrack(s, o), o, ErasingTrack(s, o).txs[o]);
  }

  lemma RenumberKeeps(s: State, o: nat)
    requires Inv(s) && Enabled(true, s, Renumber(o))
    ensures Inv(Renumbering(s, o))
  {
    if s.txs[o].cmd.RemoveTrack? { RenumberRemoveOk(s, o); } else { RenumberDeleteOk(s, o); }
    forall x | 0 <= x < |s.txs| && x != o
      ensures !Clash(Renumbering(s, o).txs[o], s.txs[x]) && !Clash(s.txs[x], Renumbering(s, o).txs[o])
    {
      assert !Clash(s.txs[o], s.txs[x]) && !Clash(s.txs[x], s.txs[o]);
    }
    MoveKeepsInv(s, Renumbering(s, o), o, Renumbering(s, o).txs[o]);
  }

  // ---- A commit is the request run alone ----

  /** The same tables but for the stamps. */
  ghost predicate SameRows(a: Db, b: Db) {
    && a.artists == b.artists && a.tracks == b.tracks && a.playlists.Keys == b.playlists.Keys
    && forall p :: p in a.playlists ==> a.playlists[p].slots == b.playlists[p].slots
  }

  lemma DeleteCommitIsRun(db: Db, tx: Tx, now: Time)
    requires Valid(db) && TxOk(db, tx) && tx.phase == Writing([]) && tx.cmd.DeleteTrack?
    ensures SameRows(Merged(db, tx), Run(db, tx.cmd, now).0) && Run(db, tx.cmd, now).1 == Done
  {
    var t := tx.cmd.track;
    forall p | p in db.playlists ensures Rows(Merged(db, tx), p) == Rows(Run(db, tx.cmd, now).0, p) {
      assert p in tx.writes <==> p in Holders(db, t);
    }
  }

  lemma AddCommitIsRun(db: Db, tx: Tx, now: Time)
    requires Valid(db) && TxOk(db, tx) && tx.phase == Writing([]) && tx.cmd.AddTrack?
    ensures SameRows(Merged(db, tx), Run(db, tx.cmd, now).0) && Run(db, tx.cmd, now).1 == Done
  {
    var p, t := tx.cmd.id, tx.cmd.track;
    if t !in Rows(db, p) { OneMore(Rows(db, p), t); }
  }

  lemma RemoveCommitIsRun(db: Db, tx: Tx, now: Time)
    requires Valid(db) && TxOk(db, tx) && tx.phase == Writing([]) && tx.cmd.RemoveTrack?
    ensures SameRows(Merged(db, tx), Run(db, tx.cmd, now).0) && Run(db, tx.cmd, now).1 == Done
  {
  }

  lemma CommitIsRun(db: Db, tx: Tx, now: Time)
    requires Valid(db) && TxOk(db, tx) && tx.phase == Writing([])
    ensures SameRows(Merged(db, tx), Run(db, tx.cmd, now).0) && Run(db, tx.cmd, now).1 == Done
  {
    if tx.cmd.DeleteTrack? { DeleteCommitIsRun(db, tx, now); }
    else if tx.cmd.AddTrack? { AddCommitIsRun(db, tx, now); }
    else { RemoveCommitIsRun(db, tx, now); }
  }

  lemma SameRowsValid(a: Db, b: Db)
    requires SameRows(a, b) && Valid(b)
    ensures Valid(a)
  {
  }

  lemma CommitKeeps(s: State, o: nat)
    requires Inv(s) && Enabled(true, s, Commit(o)) && Clean(s, Commit(o))
    ensures Inv(Apply(true, s, Commit(o)))
  {
    CommitIsValid(s, o);
    var s' := Apply(true, s, Commit(o));
    forall x | 0 <= x < |s'.txs| ensures TxOk(s'.db, s'.txs[x]) {
      if x != o { Undisturbed(s, o, x); }
    }
    HeldApart(s, o, s'.txs[o]);
    NoNewClash(s, o, s'.txs[o]);
  }

  lemma CommitIsValid(s: State, o: nat)
    requires Inv(s) && Enabled(true, s, Commit(o))
    ensures Valid(Merged(s.db, s.txs[o]))
  {
    var tx := s.txs[o];
    CommitIsRun(s.db, tx, 0);
    RunKeepsValid(s.db, tx.cmd, 0);
    SameRowsValid(Merged(s.db, tx), Run(s.db, tx.cmd, 0).0);
  }

  lemma Undisturbed(s: State, o: nat, x: nat)
    requires Inv(s) && Enabled(true, s, Commit(o)) && Clean(s, Commit(o)) && x < |s.txs| && x != o
    ensures TxOk(Merged(s.db, s.txs[o]), s.txs[x])
  {
    var a, b := s.txs[o], s.txs[x];
    assert TxOk(s.db, a) && TxOk(s.db, b);
    assert MayCommitBeside(a, b);
    if b.cmd.AddTrack? { AddUndisturbed(s.db, a, b); }
    else if b.cmd.RemoveTrack? { RemoveUndisturbed(s.db, a, b); }
    else { DeleteUndisturbed(s.db, a, b); }
  }

  lemma AbortKeeps(s: State, o: nat)
    requires Inv(s) && Enabled(true, s, Abort(o))
    ensures Inv(Apply(true, s, Abort(o)))
  {
    MoveKeepsInv(s, Apply(true, s, Abort(o)), o, Tx(s.txs[o].cmd, Aborted, {}, map[]));
  }

  lemma StepKeepsInv(s: State, e: Event)
    requires Inv(s) && Enabled(true, s, e) && Clean(s, e)
    ensures Inv(Apply(true, s, e))
  {
    match e
    case Touch(o) => TouchKeeps(s, o);
    case Insert(o) => InsertKeeps(s, o);
    case Remove(o) => RemoveKeeps(s, o);
    case LockHolders(_, _) => LockKeeps(s, e);
    case LockNext(_) => LockKeeps(s, e);
    case Read(_, _) => LockKeeps(s, e);
    case Erase(o) => EraseKeeps(s, o);
    case Renumber(o) => RenumberKeeps(s, o);
    case Commit(o) => CommitKeeps(s, o);
    case Abort(o) => AbortKeeps(s, o);
  }

  // ---- The serial order ----

  /** Whatever a step answers, it answers as the request run alone on the committed tables, and
      leaves them as that would; a step that answers nothing changes nothing committed. */
  lemma AnswersAsAlone(s: State, e: Event, now: Time)
    requires Inv(s) && Enabled(true, s, e)
    ensures var s' := Apply(true, s, e);
            var alone := Run(s.db, s.txs[e.o].cmd, now);
            if s'.order == s.order then s'.db == s.db && !s'.txs[e.o].phase.Finished?
            else && s'.order == s.order + [e.o] && s'.txs[e.o].phase == Finished(alone.1)
                 && SameRows(s'.db, alone.0)
  {
    assert TxOk(s.db, s.txs[e.o]);
    if e.Commit? { CommitIsRun(s.db, s.txs[e.o], now); }
    StepAnswersAlone(true, s, e, now);
  }

  /** What the transaction would commit is what its request does alone. */
  ghost predicate RunsAlone(db: Db, tx: Tx, now: Time)
    requires Valid(db) && Modelled(tx.cmd)
  {
    SameRows(Merged(db, tx), Run(db, tx.cmd, now).0) && Run(db, tx.cmd, now).1 == Done
  }

  /** In any run only a commit can fail to be the request run alone. */
  lemma StepAnswersAlone(lockFirst: bool, s: State, e: Event, now: Time)
    requires Valid(s.db) && Enabled(lockFirst, s, e) && Modelled(s.txs[e.o].cmd)
    requires e.Commit? ==> RunsAlone(s.db, s.txs[e.o], now)
    ensures var s' := Apply(lockFirst, s, e);
            var alone := Run(s.db, s.txs[e.o].cmd, now);
            if s'.order == s.order then s'.db == s.db && !s'.txs[e.o].phase.Finished?
            else && s'.order == s.order + [e.o] && s'.txs[e.o].phase == Finished(alone.1)
                 && SameRows(s'.db, alone.0)
  {
  }

  lemma SameRowsRunAlike(a: Db, b: Db, c: Command, now: Time)
    requires Valid(a) && Valid(b) && SameRows(a, b) && Modelled(c)
    ensures SameRows(Run(a, c, now).0, Run(b, c, now).0) && Run(a, c, now).1 == Run(b, c, now).1
  {
  }

  function Answers(db: Db, cs: seq<Command>, now: Time): (r: seq<Outcome>)
    requires Valid(db) && LegalRun(db, cs, now)
    ensures |r| == |cs|
    decreases |cs|
  {
    if cs == [] then []
    else
      RunKeepsValid(db, cs[0], now);
      [Run(db, cs[0], now).1] + Answers(Run(db, cs[0], now).0, cs[1..], now)
  }

  lemma {:induction false} CommandOneMore(db: Db, cs: seq<Command>, c: Command, now: Time)
    requires Valid(db) && LegalRun(db, cs, now) && Modelled(c)
    ensures Valid(After(db, cs, now)) && LegalRun(db, cs + [c], now)
    ensures After(db, cs + [c], now) == Run(After(db, cs, now), c, now).0
    ensures Answers(db, cs + [c], now) == Answers(db, cs, now) + [Run(After(db, cs, now), c, now).1]
    decreases |cs|
  {
    if cs == [] {
      RunKeepsValid(db, c, now);
      assert [c][1..] == [] && cs + [c] == [c];
    } else {
      RunKeepsValid(db, cs[0], now);
      CommandOneMore(Run(db, cs[0], now).0, cs[1..], c, now);
      assert (cs + [c])[1..] == cs[1..] + [c];
    }
  }

  function InOrder(cmds: seq<Command>, order: seq<nat>): (r: seq<Command>)
    requires forall k :: 0 <= k < |order| ==> order[k] < |cmds|
    ensures |r| == |order|
  {
    seq(|order|, k requires 0 <= k < |order| => cmds[order[k]])
  }

  ghost predicate SameRequests(cmds: seq<Command>, s: State) {
    && |s.txs| == |cmds|
    && (forall x :: 0 <= x < |cmds| ==> s.txs[x].cmd == cmds[x] && Modelled(cmds[x]))
    && (forall k :: 0 <= k < |s.order| ==> s.order[k] < |cmds|)
  }

  /** `order` has every transaction that answered, once. */
  ghost predicate OrderIsWho(s: State) {
    && (forall x :: 0 <= x < |s.txs| ==> (s.txs[x].phase.Finished? <==> x in s.order))
    && (forall j, k :: 0 <= j < k < |s.order| ==> s.order[j] != s.order[k])
  }

  /** The committed rows, and every answer given, are those of running the requests one after the
      other in that order from `db`. */
  ghost predicate Serial(db: Db, cmds: seq<Command>, s: State, now: Time)
    requires Valid(db) && SameRequests(cmds, s)
  {
    var cs := InOrder(cmds, s.order);
    && LegalRun(db, cs, now)
    && SameRows(s.db, After(db, cs, now))
    && forall k :: 0 <= k < |s.order| ==> s.txs[s.order[k]].phase == Finished(Answers(db, cs, now)[k])
  }

  lemma StepKeepsRequests(lockFirst: bool, cmds: seq<Command>, s: State, e: Event)
    requires SameRequests(cmds, s) && OrderIsWho(s) && Enabled(lockFirst, s, e)
    ensures SameRequests(cmds, Apply(lockFirst, s, e)) && OrderIsWho(Apply(lockFirst, s, e))
    ensures e.o !in s.order
    ensures forall x :: 0 <= x < |s.txs| && x != e.o ==> Apply(lockFirst, s, e).txs[x] == s.txs[x]
  {
    OneAnswers(lockFirst, s, e);
    assert forall x :: x in s.order + [e.o] <==> x in s.order || x == e.o;
  }

  /** Only the moving transaction changes, and the order grows by it exactly if it answers. */
  lemma OneAnswers(lockFirst: bool, s: State, e: Event)
    requires Enabled(lockFirst, s, e)
    ensures var s' := Apply(lockFirst, s, e);
      && s'.txs == s.txs[e.o := s'.txs[e.o]] && s'.txs[e.o].cmd == s.txs[e.o].cmd && !s.txs[e.o].phase.Finished?
      && s'.order == if s'.txs[e.o].phase.Finished? then s.order + [e.o] else s.order
  {
  }

  lemma StepStaysSerial(lockFirst: bool, db: Db, cmds: seq<Command>, s: State, e: Event, now: Time)
    requires Valid(db) && SameRequests(cmds, s) && OrderIsWho(s) && Serial(db, cmds, s, now)
    requires Valid(s.db) && Enabled(lockFirst, s, e) && SameRequests(cmds, Apply(lockFirst, s, e))
    requires e.Commit? ==> RunsAlone(s.db, s.txs[e.o], now)
    ensures Serial(db, cmds, Apply(lockFirst, s, e), now)
  {
    var s' := Apply(lockFirst, s, e);
    StepKeepsRequests(lockFirst, cmds, s, e);
    StepAnswersAlone(lockFirst, s, e, now);
    if s'.order == s.order {
      forall k | 0 <= k < |s.order| ensures s'.txs[s.order[k]] == s.txs[s.order[k]] { assert s.order[k] in s.order; }
    } else {
      AnswerStaysSerial(db, cmds, s, s', e.o, now);
    }
  }

  lemma AnswerStaysSerial(db: Db, cmds: seq<Command>, s: State, s': State, o: nat, now: Time)
    requires Valid(db) && SameRequests(cmds, s) && SameRequests(cmds, s') && Serial(db, cmds, s, now)
    requires o < |cmds| && o !in s.order && s'.order == s.order + [o] && Valid(s.db)
    requires forall x :: 0 <= x < |s.txs| && x != o ==> s'.txs[x] == s.txs[x]
    requires s'.txs[o].phase == Finished(Run(s.db, cmds[o], now).1) && SameRows(s'.db, Run(s.db, cmds[o], now).0)
    ensures Serial(db, cmds, s', now)
  {
    var cs := InOrder(cmds, s.order);
    CommandOneMore(db, cs, cmds[o], now);
    assert InOrder(cmds, s'.order) == cs + [cmds[o]];
    SameRowsRunAlike(s.db, After(db, cs, now), cmds[o], now);
    forall k | 0 <= k < |s'.order| ensures s'.txs[s'.order[k]].phase == Finished(Answers(db, cs + [cmds[o]], now)[k]) {
      assert k < |s.order| ==> s.order[k] in s.order;
    }
  }

  ghost predicate AllModelled(cmds: seq<Command>) {
    forall x :: 0 <= x < |cmds| ==> Modelled(cmds[x])
  }

  lemma BeginsSerial(db: Db, cmds: seq<Command>, now: Time)
    requires Valid(db) && AllModelled(cmds)
    ensures Inv(Begin(db, cmds)) && SameRequests(cmds, Begin(db, cmds)) && OrderIsWho(Begin(db, cmds))
    ensures Serial(db, cmds, Begin(db, cmds), now)
  {
    assert InOrder(cmds, []) == [];
  }

  ghost predicate NoneFailed(s: State) {
    forall x :: 0 <= x < |s.txs| ==> !s.txs[x].phase.Failed?
  }

  /** The renumbering of a clean run never collides. */
  lemma StepNeverFails(s: State, e: Event)
    requires Inv(s) && NoneFailed(s) && Enabled(true, s, e)
    ensures NoneFailed(Apply(true, s, e))
  {
    if e.Renumber? {
      assert TxOk(s.db, s.txs[e.o]);
      if s.txs[e.o].cmd.RemoveTrack? { RenumberRemoveOk(s, e.o); } else { RenumberDeleteOk(s, e.o); }
    }
  }

  ghost predicate Good(db: Db, cmds: seq<Command>, s: State, now: Time)
    requires Valid(db)
  {
    Inv(s) && SameRequests(cmds, s) && OrderIsWho(s) && Serial(db, cmds, s, now) && NoneFailed(s)
  }

  lemma StepStaysGood(db: Db, cmds: seq<Command>, s: State, e: Event, now: Time)
    requires Valid(db) && Good(db, cmds, s, now) && Enabled(true, s, e) && Clean(s, e)
    ensures Good(db, cmds, Apply(true, s, e), now)
  {
    StepKeepsInv(s, e);
    StepKeepsRequests(true, cmds, s, e);
    assert TxOk(s.db, s.txs[e.o]);
    if e.Commit? { CommitIsRun(s.db, s.txs[e.o], now); }
    StepStaysSerial(true, db, cmds, s, e, now);
    StepNeverFails(s, e);
  }

  lemma {:induction false} RunStaysGood(db: Db, cmds: seq<Command>, s: State, es: seq<Event>, now: Time)
    requires Valid(db) && Good(db, cmds, s, now) && Legal(true, s, es) && CleanRun(true, s, es)
    ensures Good(db, cmds, Exec(true, s, es), now)
    decreases |es|
  {
    if es != [] {
      StepStaysGood(db, cmds, s, es[0], now);
      RunStaysGood(db, cmds, Apply(true, s, es[0]), es[1..], now);
    }
  }

  /** Reached from the start by a run in which no insert of a track commits in a window. */
  ghost predicate ReachedCleanly(db: Db, cmds: seq<Command>, s: State) {
    exists es :: Legal(true, Begin(db, cmds), es) && CleanRun(true, Begin(db, cmds), es) && Exec(true, Begin(db, cmds), es) == s
  }

  lemma ReachedIsGood(db: Db, cmds: seq<Command>, s: State, now: Time)
    requires Valid(db) && AllModelled(cmds) && ReachedCleanly(db, cmds, s)
    ensures Good(db, cmds, s, now)
  {
    var es :| Legal(true, Begin(db, cmds), es) && CleanRun(true, Begin(db, cmds), es) && Exec(true, Begin(db, cmds), es) == s;
    BeginsSerial(db, cmds, now);
    RunStaysGood(db, cmds, Begin(db, cmds), es, now);
  }

  /** Serializability: after any clean interleaving of any AddTrack, RemoveTrack and DeleteTrack
      requests, the committed rows and every answer are those of running the answered requests one
      at a time, in the order they answered. */
  lemma CleanRunsAreSerial(db: Db, cmds: seq<Command>, s: State, now: Time)
    requires Valid(db) && AllModelled(cmds) && ReachedCleanly(db, cmds, s)
    ensures SameRequests(cmds, s) && OrderIsWho(s) && Serial(db, cmds, s, now)
  {
    ReachedIsGood(db, cmds, s, now);
  }

  /** No statement of a clean run is refused by a constraint: RemoveTrack and DeleteTrack always renumber
      without a collision. */
  lemma CleanRunsNeverFail(db: Db, cmds: seq<Command>, s: State)
    requires Valid(db) && AllModelled(cmds) && ReachedCleanly(db, cmds, s)
    ensures NoneFailed(s)
  {
    ReachedIsGood(db, cmds, s, 0);
  }

  lemma SameRowsDense(a: Db, b: Db)
    requires SameRows(a, b) && AllDense(b)
    ensures AllDense(a)
  {
  }

  /** Positions stay exactly 0..n-1 in every playlist through every clean interleaving. */
  lemma CleanRunsStayDense(db: Db, cmds: seq<Command>, s: State)
    requires Valid(db) && AllDense(db) && AllModelled(cmds) && ReachedCleanly(db, cmds, s)
    ensures AllDense(s.db)
  {
    CleanRunsAreSerial(db, cmds, s, 0);
    RunsStayDense(db, InOrder(cmds, s.order), 0);
    SameRowsDense(s.db, After(db, InOrder(cmds, s.order), 0));
  }
}
