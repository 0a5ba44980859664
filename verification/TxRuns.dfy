/** What happens outside the hypotheses of `TxSerial` and `TxProgress`: without DeleteTrack's lock
    statement, and when an insert of the track commits between that statement and the DELETE. */
module TxRuns {
  import opened Storage
  import opened Positions
  import opened PlaylistSpec
  import opened PlaylistRepo
  import opened PlaylistTx
  import opened TxSerial
  import opened TxProgress

  /** `s` is reached from `s0`, and if `clean` by a run in which no insert of a track commits in a window. */
  ghost predicate Leads(lockFirst: bool, clean: bool, s0: State, s: State) {
    exists es :: Legal(lockFirst, s0, es) && (clean ==> CleanRun(lockFirst, s0, es)) && Exec(lockFirst, s0, es) == s
  }

  lemma {:induction false} RunExtends(lockFirst: bool, s0: State, es: seq<Event>, e: Event)
    requires Legal(lockFirst, s0, es) && Enabled(lockFirst, Exec(lockFirst, s0, es), e)
    ensures Legal(lockFirst, s0, es + [e])
    ensures Exec(lockFirst, s0, es + [e]) == Apply(lockFirst, Exec(lockFirst, s0, es), e)
    ensures CleanRun(lockFirst, s0, es) && Clean(Exec(lockFirst, s0, es), e) ==> CleanRun(lockFirst, s0, es + [e])
    decreases |es|
  {
    if es == [] {
      assert [e][1..] == [] && es + [e] == [e];
      assert Legal(lockFirst, Apply(lockFirst, s0, e), []);
    } else {
      RunExtends(lockFirst, Apply(lockFirst, s0, es[0]), es[1..], e);
      assert (es + [e])[0] == es[0] && (es + [e])[1..] == es[1..] + [e];
    }
  }

  lemma Go(lockFirst: bool, clean: bool, s0: State, s: State, e: Event) returns (s': State)
    requires Leads(lockFirst, clean, s0, s) && Enabled(lockFirst, s, e) && (clean ==> Clean(s, e))
    ensures s' == Apply(lockFirst, s, e) && Leads(lockFirst, clean, s0, s')
  {
    var es :| Legal(lockFirst, s0, es) && (clean ==> CleanRun(lockFirst, s0, es)) && Exec(lockFirst, s0, es) == s;
    RunExtends(lockFirst, s0, es, e);
    s' := Apply(lockFirst, s, e);
  }

  lemma Stays(lockFirst: bool, clean: bool, s: State)
    ensures Leads(lockFirst, clean, s, s)
  {
    assert Legal(lockFirst, s, []) && CleanRun(lockFirst, s, []) && Exec(lockFirst, s, []) == s;
  }

  // ---- One request from its first statement to its commit ----

  function Waiting(c: Command): Tx { Tx(c, Starting, {}, map[]) }
  function Answered(c: Command): Tx { Tx(c, Finished(Done), {}, map[]) }
  function AboutToErase(t: TrackId, rows: seq<Membership>): Tx { Tx(DeleteTrack(t), Erasing(rows), {}, map[]) }

  /** Nobody but `o` has anything locked. */
  ghost predicate Idle(s: State, o: nat) {
    forall x :: 0 <= x < |s.txs| && x != o ==> s.txs[x].holds == {} && s.txs[x].writes == map[] && !s.txs[x].phase.Writing?
  }

  /** The tables with other rows for one playlist. */
  function Installed(db: Db, p: PlaylistId, m: Slots): Db
    requires p in db.playlists
  {
    db.(playlists := db.playlists[p := db.playlists[p].(slots := m)])
  }

  lemma MergedOne(db: Db, tx: Tx, p: PlaylistId, m: Slots)
    requires p in db.playlists && !tx.cmd.DeleteTrack? && tx.writes.Keys == {p} && View(db, tx, p) == m
    ensures Merged(db, tx) == Installed(db, p, m)
  {
    assert Merged(db, tx).playlists == Installed(db, p, m).playlists;
  }

  function InsertedAt(p: PlaylistId, t: TrackId, q: int): Tx {
    Tx(AddTrack(p, t), Writing([]), {p}, map[p := map[t := Some(q)]])
  }

  lemma AddInserts(lockFirst: bool, s0: State, was: State, o: nat, p: PlaylistId, t: TrackId) returns (s: State)
    requires p in was.db.playlists && Distinct(Rows(was.db, p)) && t !in Rows(was.db, p) && t in was.db.tracks
    requires o < |was.txs| && was.txs[o] == Waiting(AddTrack(p, t)) && Leads(lockFirst, false, s0, was)
    requires Free(was, o, p) && Unclaimed(was, o, p, t) && NotErased(was, o, t) && NonePending(was, o, p, Top(Rows(was.db, p)))
    ensures Leads(lockFirst, false, s0, s) && s.db == was.db
    ensures s.txs == was.txs[o := InsertedAt(p, t, Top(Rows(was.db, p)))]
  {
    s := Go(lockFirst, false, s0, was, Touch(o));
    assert {} + {p} == {p};
    assert s.txs == was.txs[o := Tx(AddTrack(p, t), Phase.Inserting, {p}, map[])];
    s := Go(lockFirst, false, s0, s, Insert(o));
  }

  lemma AddRuns(lockFirst: bool, s0: State, was: State, o: nat, p: PlaylistId, t: TrackId) returns (s: State)
    requires p in was.db.playlists && Distinct(Rows(was.db, p)) && t !in Rows(was.db, p) && t in was.db.tracks
    requires o < |was.txs| && was.txs[o] == Waiting(AddTrack(p, t)) && Idle(was, o) && Leads(lockFirst, false, s0, was)
    ensures Leads(lockFirst, false, s0, s) && s.db == Installed(was.db, p, Append(Rows(was.db, p), t))
    ensures s.txs == was.txs[o := Answered(AddTrack(p, t))]
  {
    s := AddInserts(lockFirst, s0, was, o, p, t);
    OneMore(Rows(was.db, p), t);
    MergedOne(s.db, s.txs[o], p, Append(Rows(was.db, p), t));
    s := Go(lockFirst, false, s0, s, Commit(o));
  }

  lemma RemoveTouches(lockFirst: bool, clean: bool, s0: State, was: State, o: nat, p: PlaylistId, t: TrackId) returns (s: State)
    requires p in was.db.playlists && t in Rows(was.db, p)
    requires o < |was.txs| && was.txs[o] == Waiting(RemoveTrack(p, t)) && Idle(was, o) && Leads(lockFirst, clean, s0, was)
    ensures Leads(lockFirst, clean, s0, s) && s.db == was.db
    ensures s.txs == was.txs[o := Tx(RemoveTrack(p, t), Writing([Membership(p, Rows(was.db, p)[t])]), {p}, map[p := map[t := None]])]
  {
    s := Go(lockFirst, clean, s0, was, Touch(o));
    assert {} + {p} == {p};
    s := Go(lockFirst, clean, s0, s, Remove(o));
  }

  /** One renumbering, of rows nobody else has touched, that collides with nothing. */
  lemma Renumbers(lockFirst: bool, clean: bool, s0: State, was: State, o: nat, p: PlaylistId, x: int) returns (s: State)
    requires o < |was.txs| && was.txs[o].phase == Writing([Membership(p, x)]) && Idle(was, o) && Leads(lockFirst, clean, s0, was)
    requires p in was.txs[o].writes && p in was.db.playlists && Distinct(Shift(View(was.db, was.txs[o], p), x))
    ensures Leads(lockFirst, clean, s0, s) && s.db == was.db && s.order == was.order && |s.txs| == |was.txs|
    ensures s.txs == was.txs[o := s.txs[o]] && s.txs[o].cmd == was.txs[o].cmd && s.txs[o].phase == Writing([])
    ensures s.txs[o].writes.Keys == was.txs[o].writes.Keys
    ensures View(s.db, s.txs[o], p) == Shift(View(was.db, was.txs[o], p), x)
  {
    MovedIsShift(Rows(was.db, p), was.txs[o].writes[p], x);
    s := Go(lockFirst, clean, s0, was, Renumber(o));
  }

  /** One renumbering that runs one row into another. */
  lemma RenumberFails(lockFirst: bool, clean: bool, s0: State, was: State, o: nat, p: PlaylistId, x: int) returns (s: State)
    requires o < |was.txs| && was.txs[o].phase == Writing([Membership(p, x)]) && Idle(was, o) && Leads(lockFirst, clean, s0, was)
    requires p in was.db.playlists && !Distinct(Shift(View(was.db, was.txs[o], p), x))
    ensures Leads(lockFirst, clean, s0, s) && s.db == was.db && |s.txs| == |was.txs| && s.txs[o].phase.Failed?
  {
    s := Go(lockFirst, clean, s0, was, Renumber(o));
  }

  /** Nothing stands in the way of the DELETE of track t. */
  ghost predicate CanErase(s: State, o: nat, t: TrackId) {
    && NotErased(s, o, t) && NotPinned(s, o, t)
    && forall p :: p in Holders(s.db, t) ==> Unclaimed(s, o, p, t)
  }

  lemma Deletes(lockFirst: bool, clean: bool, s0: State, was: State, o: nat, t: TrackId, rows: seq<Membership>,
                w: map<PlaylistId, Changes>) returns (s: State)
    requires o < |was.txs| && was.txs[o].cmd == DeleteTrack(t) && was.txs[o].phase == Erasing(rows) && CanErase(was, o, t)
    requires t in was.db.tracks && Cascade(was.db, t) == w && Leads(lockFirst, clean, s0, was)
    ensures Leads(lockFirst, clean, s0, s) && s.db == was.db
    ensures s.txs == was.txs[o := Tx(DeleteTrack(t), Writing(rows), was.txs[o].holds, w)]
  {
    s := Go(lockFirst, clean, s0, was, Erase(o));
  }

  lemma RemoveRuns(lockFirst: bool, clean: bool, s0: State, was: State, o: nat, p: PlaylistId, t: TrackId) returns (s: State)
    requires p in was.db.playlists && SlotsOk(Rows(was.db, p)) && t in Rows(was.db, p)
    requires o < |was.txs| && was.txs[o] == Waiting(RemoveTrack(p, t)) && Idle(was, o) && Leads(lockFirst, clean, s0, was)
    ensures Leads(lockFirst, clean, s0, s) && s.db == Installed(was.db, p, Drop(Rows(was.db, p), t))
    ensures s.txs == was.txs[o := Answered(RemoveTrack(p, t))]
  {
    var m := Rows(was.db, p);
    s := RemoveTouches(lockFirst, clean, s0, was, o, p, t);
    OneGone(m, t);
    GapCloses(m, t);
    s := Renumbers(lockFirst, clean, s0, s, o, p, m[t]);
    MergedOne(s.db, s.txs[o], p, Drop(m, t));
    s := Go(lockFirst, clean, s0, s, Commit(o));
  }

  lemma OneMembership(playlists: map<PlaylistId, Playlist>, t: TrackId, p: PlaylistId)
    requires p in playlists && t in playlists[p].slots
    requires forall q :: q in playlists && t in playlists[q].slots ==> q == p
    ensures ListsMemberships([Membership(p, playlists[p].slots[t])], playlists, t)
  {
    var rows := [Membership(p, playlists[p].slots[t])];
    assert rows[0].playlist == p;
    assert Mentions(rows, p);
  }

  lemma CommitsOne(lockFirst: bool, clean: bool, s0: State, was: State, o: nat, p: PlaylistId, m: Slots) returns (s: State)
    requires o < |was.txs| && was.txs[o].phase == Writing([]) && !Inserted(was.txs[o]) && Leads(lockFirst, clean, s0, was)
    requires p in was.db.playlists && was.txs[o].writes.Keys == {p} && View(was.db, was.txs[o], p) == m
    ensures Leads(lockFirst, clean, s0, s) && s.db.playlists == Installed(was.db, p, m).playlists
  {
    s := Go(lockFirst, clean, s0, was, Commit(o));
  }

  // ---- One playlist ----

  function One(m: Slots): Db {
    Db({0}, map[1 := 0, 2 := 0, 3 := 0, 4 := 0], map[0 := Playlist(0, m)])
  }

  lemma OneInstalled(m: Slots, m': Slots)
    ensures Installed(One(m), 0, m') == One(m')
  {
  }

  const THREE: Slots := map[1 := 0, 2 := 1, 3 := 2]
  const TWO: Slots := map[2 := 0, 3 := 1]
  const GAPPED: Slots := map[3 := 1]

  /** The delete of track 2, with this position in hand, removes the row and closes the gap it believes in. */
  lemma ErasesTwo(lockFirst: bool, clean: bool, s0: State, was: State, m: Slots, x: int) returns (s: State)
    requires was.db == One(m) && 2 in m && 0 < |was.txs| && was.txs[0] == AboutToErase(2, [Membership(0, x)])
    requires Idle(was, 0) && Leads(lockFirst, clean, s0, was)
    ensures Leads(lockFirst, clean, s0, s) && s.db == was.db
    ensures s.txs == was.txs[0 := Tx(DeleteTrack(2), Writing([Membership(0, x)]), {}, map[0 := map[2 := None]])]
  {
    assert Cascade(was.db, 2) == map[0 := map[2 := None]];
    s := Deletes(lockFirst, clean, s0, was, 0, 2, [Membership(0, x)], map[0 := map[2 := None]]);
  }

  lemma StaleDelete(lockFirst: bool, clean: bool, s0: State, was: State) returns (s: State)
    requires was.db == One(TWO) && 0 < |was.txs| && was.txs[0] == AboutToErase(2, [Membership(0, 1)])
    requires Idle(was, 0) && Leads(lockFirst, clean, s0, was)
    ensures Leads(lockFirst, clean, s0, s) && s.db.playlists == One(GAPPED).playlists
  {
    s := ErasesTwo(lockFirst, clean, s0, was, TWO, 1);
    OneGone(TWO, 2);
    assert TWO - {2} == GAPPED && Shift(GAPPED, 1) == GAPPED;
    s := Renumbers(lockFirst, clean, s0, s, 0, 0, 1);
    s := CommitsOne(lockFirst, clean, s0, s, 0, 0, GAPPED);
    OneInstalled(TWO, GAPPED);
  }

  lemma SmallIsDense(m: Slots, n: nat)
    requires m.Keys <= {1, 2, 3} && |m| == n && Distinct(m) && forall t :: t in m ==> 0 <= m[t] < n
    ensures Valid(One(m)) && AllDense(One(m))
  {
  }

  lemma GapIsAGap(db: Db)
    requires db.playlists == One(GAPPED).playlists
    ensures !AllDense(db)
  {
    assert |GAPPED| == 1;
    assert db.playlists[0].slots[3] == 1;
  }

  // ---- Without the lock statement ----

  lemma ThreeIsFull()
    ensures SlotsOk(THREE) && |THREE| == 3
  {
    assert THREE.Keys == {1, 2, 3} && |THREE| == |THREE.Keys|;
  }

  lemma ThreeLosesOne()
    ensures Drop(THREE, 1) == TWO
  {
    assert THREE - {1} == map[2 := 1, 3 := 2];
  }

  lemma ReadsUnlocked(s0: State) returns (s: State)
    requires s0 == State(One(THREE), [Waiting(DeleteTrack(2)), Waiting(RemoveTrack(0, 1))], [])
    ensures Leads(false, true, s0, s) && s.db == s0.db
    ensures s.txs == [AboutToErase(2, [Membership(0, 1)]), Waiting(RemoveTrack(0, 1))]
  {
    Stays(false, true, s0);
    s := Go(false, true, s0, s0, LockHolders(0, []));
    OneMembership(s.db.playlists, 2, 0);
    s := Go(false, true, s0, s, Read(0, [Membership(0, 1)]));
  }

  lemma RowsMove(s0: State, was: State) returns (s: State)
    requires was.db == One(THREE) && was.txs == [AboutToErase(2, [Membership(0, 1)]), Waiting(RemoveTrack(0, 1))]
    requires Leads(false, true, s0, was)
    ensures Leads(false, true, s0, s) && s.db == One(TWO) && 0 < |s.txs|
    ensures s.txs[0] == AboutToErase(2, [Membership(0, 1)]) && Idle(s, 0)
  {
    ThreeIsFull();
    ThreeLosesOne();
    s := RemoveRuns(false, true, s0, was, 1, 0, 1);
    OneInstalled(THREE, TWO);
  }

  /** Were the lock statement not there, a RemoveTrack could move the rows between the read of the
      positions and the renumbering, and a dense playlist would be left with a gap. */
  lemma UnlockedDeleteLeavesAGap() returns (db: Db, cmds: seq<Command>, s: State)
    ensures Valid(db) && AllDense(db) && Leads(false, true, Begin(db, cmds), s) && !AllDense(s.db)
  {
    db, cmds := One(THREE), [DeleteTrack(2), RemoveTrack(0, 1)];
    var s0 := Begin(db, cmds);
    assert s0.txs == [Waiting(DeleteTrack(2)), Waiting(RemoveTrack(0, 1))];
    ThreeIsFull();
    SmallIsDense(THREE, 3);
    s := ReadsUnlocked(s0);
    s := RowsMove(s0, s);
    s := StaleDelete(false, true, s0, s);
    GapIsAGap(s.db);
  }

  // ---- Inserts in the window ----

  /** The delete has found no playlist that holds track 2, and so locked none. */
  lemma LooksUpNothing(s0: State) returns (s: State)
    requires 0 < |s0.txs| && s0.txs[0] == Waiting(DeleteTrack(2)) && Holders(s0.db, 2) == {}
    ensures Leads(true, false, s0, s) && s.db == s0.db
    ensures s.txs == s0.txs[0 := Tx(DeleteTrack(2), Locking([]), {}, map[])]
  {
    Stays(true, false, s0);
    s := Go(true, false, s0, s0, LockHolders(0, []));
  }

  lemma ReadsRows(s0: State, was: State, rows: seq<Membership>) returns (s: State)
    requires 0 < |was.txs| && was.txs[0] == Tx(DeleteTrack(2), Locking([]), {}, map[])
    requires ListsMemberships(rows, was.db.playlists, 2) && Leads(true, false, s0, was)
    ensures Leads(true, false, s0, s) && s.db == was.db && s.txs == was.txs[0 := AboutToErase(2, rows)]
  {
    s := Go(true, false, s0, was, Read(0, rows));
  }

  lemma AppendAfter(m: Slots, t: TrackId, top: int)
    requires Distinct(m) && t !in m && (forall u :: u in m ==> m[u] < top)
    requires if m == map[] then top == 0 else exists u :: u in m && m[u] == top - 1
    ensures Append(m, t) == m[t := top] && Distinct(m[t := top])
  {
  }

  lemma AppendsInTurn()
    ensures Append(map[], 2) == map[2 := 0] && Append(map[2 := 0], 3) == TWO
  {
    AppendAfter(map[], 2, 0);
    var m := map[2 := 0];
    assert m[2] == 0;
    AppendAfter(m, 3, 1);
  }

  lemma ErasesUnlisted(s0: State, was: State) returns (s: State)
    requires was.db == One(TWO) && 0 < |was.txs| && was.txs[0] == AboutToErase(2, []) && Idle(was, 0)
    requires Leads(true, false, s0, was)
    ensures Leads(true, false, s0, s) && s.db.playlists == One(GAPPED).playlists
  {
    assert Cascade(was.db, 2) == map[0 := map[2 := None]];
    s := Deletes(true, false, s0, was, 0, 2, [], map[0 := map[2 := None]]);
    OneGone(TWO, 2);
    assert TWO - {2} == GAPPED;
    s := CommitsOne(true, false, s0, s, 0, 0, GAPPED);
    OneInstalled(TWO, GAPPED);
  }

  /** The delete of track 2 has these rows to hand, nobody has anything locked, and the requests from
      the nth on have not begun. */
  ghost predicate Queued(s: State, cmds: seq<Command>, rows: seq<Membership>, n: nat) {
    && 0 < n <= |cmds| == |s.txs| && s.txs[0] == AboutToErase(2, rows)
    && (forall x :: 0 <= x < |s.txs| ==> s.txs[x].holds == {} && s.txs[x].writes == map[] && !s.txs[x].phase.Writing?)
    && (forall x :: n <= x < |cmds| ==> s.txs[x] == Waiting(cmds[x]))
  }

  lemma NextAdds(s0: State, was: State, cmds: seq<Command>, rows: seq<Membership>, n: nat, m: Slots, t: TrackId) returns (s: State)
    requires Queued(was, cmds, rows, n) && n < |cmds| && cmds[n] == AddTrack(0, t) && Leads(true, false, s0, was)
    requires was.db == One(m) && Distinct(m) && t !in m && 1 <= t <= 4
    ensures Leads(true, false, s0, s) && Queued(s, cmds, rows, n + 1) && s.db == One(Append(m, t))
  {
    s := AddRuns(true, s0, was, n, 0, t);
    OneInstalled(m, Append(m, t));
  }

  lemma NextRemoves(s0: State, was: State, cmds: seq<Command>, rows: seq<Membership>, n: nat, m: Slots, t: TrackId) returns (s: State)
    requires Queued(was, cmds, rows, n) && n < |cmds| && cmds[n] == RemoveTrack(0, t) && Leads(true, false, s0, was)
    requires was.db == One(m) && SlotsOk(m) && t in m
    ensures Leads(true, false, s0, s) && Queued(s, cmds, rows, n + 1) && s.db == One(Drop(m, t))
  {
    s := RemoveRuns(true, false, s0, was, n, 0, t);
    OneInstalled(m, Drop(m, t));
  }

  lemma EmptyIsDense()
    ensures Valid(One(map[])) && AllDense(One(map[]))
  {
    SmallIsDense(map[], 0);
  }

  lemma ReadsNoRow(s0: State, m: Slots, cmds: seq<Command>) returns (s: State)
    requires s0 == Begin(One(m), cmds) && 2 !in m && 1 <= |cmds| && cmds[0] == DeleteTrack(2)
    ensures Leads(true, false, s0, s) && s.db == One(m) && Queued(s, cmds, [], 1)
  {
    s := LooksUpNothing(s0);
    s := ReadsRows(s0, s, []);
  }

  lemma TwoAdded(s0: State, was: State, cmds: seq<Command>) returns (s: State)
    requires Queued(was, cmds, [], 1) && cmds[1..] == [AddTrack(0, 2), AddTrack(0, 3)] && was.db == One(map[])
    requires Leads(true, false, s0, was)
    ensures Leads(true, false, s0, s) && Queued(s, cmds, [], 3) && s.db == One(TWO)
  {
    assert cmds[1] == cmds[1..][0] && cmds[2] == cmds[1..][1];
    AppendsInTurn();
    s := NextAdds(s0, was, cmds, [], 1, map[], 2);
    s := NextAdds(s0, s, cmds, [], 2, map[2 := 0], 3);
  }

  /** The lock statement only sees the playlists that hold the track when it runs. An AddTrack of it
      that commits after the delete has read its memberships, followed by another, leaves a gap. */
  lemma InsertInTheWindowLeavesAGap() returns (db: Db, cmds: seq<Command>, s: State)
    ensures Valid(db) && AllDense(db) && AllModelled(cmds) && Leads(true, false, Begin(db, cmds), s) && !AllDense(s.db)
  {
    db, cmds := One(map[]), [DeleteTrack(2), AddTrack(0, 2), AddTrack(0, 3)];
    EmptyIsDense();
    s := ReadsNoRow(Begin(db, cmds), map[], cmds);
    s := TwoAdded(Begin(db, cmds), s, cmds);
    s := ErasesUnlisted(Begin(db, cmds), s);
    GapIsAGap(s.db);
  }

  ghost predicate NoArtistDelete(cs: seq<Command>) {
    forall i :: 0 <= i < |cs| ==> !cs[i].DeleteArtist?
  }

  /** Nor does serial order survive: the rows that run leaves are not those of any requests run one at a
      time, be it all of these, some of them or others, as long as none deletes an artist. */
  lemma InsertInTheWindowIsNotSerial() returns (db: Db, cmds: seq<Command>, s: State)
    ensures Valid(db) && AllModelled(cmds) && Leads(true, false, Begin(db, cmds), s)
    ensures forall cs: seq<Command>, now: Time :: NoArtistDelete(cs) && LegalRun(db, cs, now) ==> !SameRows(s.db, After(db, cs, now))
  {
    db, cmds, s := InsertInTheWindowLeavesAGap();
    forall cs: seq<Command>, now: Time | NoArtistDelete(cs) && LegalRun(db, cs, now) ensures !SameRows(s.db, After(db, cs, now)) {
      SerialRunHasNoGap(db, cs, now, s.db);
    }
  }

  lemma SerialRunHasNoGap(db: Db, cs: seq<Command>, now: Time, gapped: Db)
    requires Valid(db) && AllDense(db) && !AllDense(gapped) && NoArtistDelete(cs) && LegalRun(db, cs, now)
    ensures !SameRows(gapped, After(db, cs, now))
  {
    RunsStayDense(db, cs, now);
    if SameRows(gapped, After(db, cs, now)) { SameRowsDense(gapped, After(db, cs, now)); }
  }

  // ---- A position read too early ----

  const ONE: Slots := map[1 := 0]
  const ONETWO: Slots := map[1 := 0, 2 := 1]

  lemma AppendsToOne()
    ensures Append(ONE, 2) == ONETWO && Append(ONETWO, 3) == THREE
  {
    assert ONE[1] == 0;
    AppendAfter(ONE, 2, 1);
    assert ONETWO[2] == 1;
    AppendAfter(ONETWO, 3, 2);
  }

  const STALE: seq<Membership> := [Membership(0, 1)]

  /** The track is inserted between the lock statement and the read, so the playlist is listed, with the
      track at position 1, and not locked. */
  lemma ReadsUnlockedRow(s0: State, cmds: seq<Command>) returns (s: State)
    requires s0 == Begin(One(ONE), cmds) && 2 <= |cmds| && cmds[0] == DeleteTrack(2) && cmds[1] == AddTrack(0, 2)
    ensures Leads(true, false, s0, s) && s.db == One(ONETWO) && Queued(s, cmds, STALE, 2)
  {
    s := LooksUpNothing(s0);
    s := SecondAppended(s0, s);
    s := ReadsStale(s0, s, cmds);
  }

  lemma ReadsStale(s0: State, was: State, cmds: seq<Command>) returns (s: State)
    requires was.db == One(ONETWO) && 2 <= |cmds| == |was.txs| && Leads(true, false, s0, was)
    requires was.txs[0] == Tx(DeleteTrack(2), Locking([]), {}, map[]) && was.txs[1] == Answered(AddTrack(0, 2))
    requires forall x :: 2 <= x < |cmds| ==> was.txs[x] == Waiting(cmds[x])
    ensures Leads(true, false, s0, s) && s.db == One(ONETWO) && Queued(s, cmds, STALE, 2)
  {
    OneListed();
    s := ReadsRows(s0, was, STALE);
  }

  lemma OneListed()
    ensures ListsMemberships(STALE, One(ONETWO).playlists, 2)
  {
    OneMembership(One(ONETWO).playlists, 2, 0);
  }

  lemma SecondAppended(s0: State, was: State) returns (s: State)
    requires was.db == One(ONE) && 2 <= |was.txs| && was.txs[1] == Waiting(AddTrack(0, 2)) && Idle(was, 1)
    requires Leads(true, false, s0, was)
    ensures Leads(true, false, s0, s) && s.db == One(ONETWO) && s.txs == was.txs[1 := Answered(AddTrack(0, 2))]
  {
    AppendsToOne();
    s := AddRuns(true, s0, was, 1, 0, 2);
    OneInstalled(ONE, ONETWO);
  }

  /** One more is appended after it. */
  lemma ThirdAppended(s0: State, was: State, cmds: seq<Command>) returns (s: State)
    requires Queued(was, cmds, STALE, 2) && 2 < |cmds| && cmds[2] == AddTrack(0, 3) && was.db == One(ONETWO)
    requires Leads(true, false, s0, was)
    ensures Leads(true, false, s0, s) && Queued(s, cmds, STALE, 3) && s.db == One(THREE)
  {
    AppendsToOne();
    s := NextAdds(s0, was, cmds, STALE, 2, ONETWO, 3);
  }

  lemma OneIsFull()
    ensures Valid(One(ONE)) && AllDense(One(ONE))
  {
    assert ONE.Keys == {1} && |ONE| == |ONE.Keys|;
    SmallIsDense(ONE, 1);
  }

  /** A playlist can also be listed and not locked: the track was inserted before the read and after the
      lock statement. The position read then goes stale, and a gap is left although it was listed. */
  lemma StaleReadLeavesAGap() returns (db: Db, cmds: seq<Command>, s: State)
    ensures Valid(db) && AllDense(db) && Leads(true, false, Begin(db, cmds), s) && !AllDense(s.db)
  {
    db, cmds := One(ONE), [DeleteTrack(2), AddTrack(0, 2), AddTrack(0, 3), RemoveTrack(0, 1)];
    var s0 := Begin(db, cmds);
    OneIsFull();
    s := ReadsUnlockedRow(s0, cmds);
    s := ThirdAppended(s0, s, cmds);
    ThreeIsFull();
    ThreeLosesOne();
    s := NextRemoves(s0, s, cmds, STALE, 3, THREE, 1);
    s := StaleDelete(true, false, s0, s);
    GapIsAGap(s.db);
  }

  // ---- Between the DELETE and the commit ----

  const LATE: seq<Command> := [DeleteTrack(2), AddTrack(0, 2), AddTrack(0, 3)]
  const HOLED: Slots := map[1 := 0, 3 := 2]

  /** Track 2 is inserted, last, where the delete neither locked nor listed it. */
  lemma InsertedLast(s0: State) returns (s: State)
    requires s0 == Begin(One(ONE), LATE)
    ensures Leads(true, false, s0, s) && s.db == One(ONETWO) && Queued(s, LATE, [], 2)
  {
    s := ReadsNoRow(s0, ONE, LATE);
    AppendsToOne();
    s := NextAdds(s0, s, LATE, [], 1, ONE, 2);
  }

  function Erased2(): Tx {
    Tx(DeleteTrack(2), Writing([]), {}, map[0 := map[2 := None]])
  }

  /** The DELETE runs, and the next AddTrack, which nothing holds up, counts the row it has taken out. */
  lemma InsertedBehind(s0: State, was: State) returns (s: State)
    requires Leads(true, false, s0, was) && was.db == One(ONETWO) && Queued(was, LATE, [], 2)
    ensures Leads(true, false, s0, s) && s.db == was.db && s.txs == [Erased2(), was.txs[1], InsertedAt(0, 3, 2)]
  {
    assert Cascade(was.db, 2) == map[0 := map[2 := None]];
    s := Deletes(true, false, s0, was, 0, 2, [], map[0 := map[2 := None]]);
    TopOfTwo();
    s := AddInserts(true, s0, s, 2, 0, 3);
  }

  lemma TopOfTwo()
    ensures Distinct(ONETWO) && Top(ONETWO) == 2
  {
    assert ONETWO[2] == 1;
    AppendAfter(ONETWO, 3, 2);
  }

  ghost predicate BothReady(s: State) {
    s.db == One(ONETWO) && |s.txs| == 3 && s.txs[0] == Erased2() && s.txs[2] == InsertedAt(0, 3, 2)
  }

  lemma BothGetReady() returns (db: Db, s: State)
    ensures Valid(db) && AllDense(db) && Leads(true, false, Begin(db, LATE), s) && BothReady(s)
  {
    db := One(ONE);
    OneIsFull();
    s := InsertedLast(Begin(db, LATE));
    s := InsertedBehind(Begin(db, LATE), s);
  }

  lemma HoleIsAGap(db: Db)
    requires db.playlists == One(HOLED).playlists
    ensures !AllDense(db)
  {
    assert HOLED.Keys == {1, 3} && |HOLED| == |HOLED.Keys|;
    assert db.playlists[0].slots[3] == 2;
  }

  lemma DeleteCommits(s: State, m: Slots, r: Slots)
    requires |s.txs| == 3 && s.txs[0] == Erased2() && s.db == One(m) && m - {2} == r
    ensures Enabled(true, s, Commit(0)) && Apply(true, s, Commit(0)).db.playlists == One(r).playlists
  {
    OneGone(m, 2);
  }

  lemma AddCommits(s: State, m: Slots, r: Slots)
    requires |s.txs| == 3 && s.txs[2] == InsertedAt(0, 3, 2) && s.db.playlists == One(m).playlists && m[3 := 2] == r
    ensures Enabled(true, s, Commit(2)) && Apply(true, s, Commit(2)).db == s.db.(playlists := One(r).playlists)
  {
    assert Overlay(m, map[3 := Some(2)]) == m[3 := 2];
    assert Merged(s.db, s.txs[2]).playlists == One(r).playlists;
  }

  /** The rows of the two commits, in either order. */
  lemma EitherOrder()
    ensures ONETWO[3 := 2] == THREE && THREE - {2} == HOLED && ONETWO - {2} == ONE && ONE[3 := 2] == HOLED
  {
  }

  lemma ThreeIsDense()
    ensures AllDense(One(THREE))
  {
    ThreeIsFull();
    SmallIsDense(THREE, 3);
  }

  /** The delete's own commit can be too late: at its DELETE the track was last wherever it was, so that
      there was no gap to close; then an AddTrack committed a row behind it. */
  lemma AddBehindTheDeleteLeavesAGap() returns (db: Db, s: State)
    ensures Valid(db) && AllDense(db) && Leads(true, false, Begin(db, LATE), s) && AllDense(s.db)
    ensures |s.txs| == 3 && s.txs[0].cmd == DeleteTrack(2) && Enabled(true, s, Commit(0))
    ensures !AllDense(Apply(true, s, Commit(0)).db)
  {
    db, s := BothGetReady();
    EitherOrder();
    AddCommits(s, ONETWO, THREE);
    s := Go(true, false, Begin(db, LATE), s, Commit(2));
    ThreeIsDense();
    DeleteCommits(s, THREE, HOLED);
    HoleIsAGap(Apply(true, s, Commit(0)).db);
  }

  /** Or the delete commits first and leaves no gap, and the AddTrack's commit makes it. */
  lemma DeleteBeforeTheAddLeavesAGap() returns (db: Db, s: State)
    ensures Valid(db) && AllDense(db) && Leads(true, false, Begin(db, LATE), s) && AllDense(s.db)
    ensures |s.txs| == 3 && s.txs[0].phase == Finished(Done) && s.txs[2].cmd == AddTrack(0, 3) && Enabled(true, s, Commit(2))
    ensures !AllDense(Apply(true, s, Commit(2)).db)
  {
    db, s := BothGetReady();
    EitherOrder();
    DeleteCommits(s, ONETWO, ONE);
    s := Go(true, false, Begin(db, LATE), s, Commit(0));
    OneIsFull();
    AddCommits(s, ONE, HOLED);
    HoleIsAGap(Apply(true, s, Commit(2)).db);
  }

  // ---- A renumbering that collides ----

  const FOUR: Slots := map[1 := 0, 2 := 1, 3 := 2, 4 := 3]
  const LASTTHREE: Slots := map[2 := 0, 3 := 1, 4 := 2]

  lemma FourAppended()
    ensures Append(THREE, 4) == FOUR
  {
    assert THREE[3] == 2;
    AppendAfter(THREE, 4, 3);
  }

  lemma FourIsFull()
    ensures SlotsOk(FOUR)
  {
    assert FOUR.Keys == {1, 2, 3, 4} && |FOUR| == |FOUR.Keys|;
  }

  lemma FourLosesOne()
    ensures Drop(FOUR, 1) == LASTTHREE
  {
    assert FOUR - {1} == map[2 := 1, 3 := 2, 4 := 3];
  }

  /** A fourth is appended and the first removed, so that everything moves down by one. */
  lemma FourthTakesItsPlace(s0: State, was: State, cmds: seq<Command>) returns (s: State)
    requires Queued(was, cmds, STALE, 3) && cmds[3..] == [AddTrack(0, 4), RemoveTrack(0, 1)] && was.db == One(THREE)
    requires Leads(true, false, s0, was)
    ensures Leads(true, false, s0, s) && Queued(s, cmds, STALE, 5) && s.db == One(LASTTHREE)
  {
    assert cmds[3] == cmds[3..][0] && cmds[4] == cmds[3..][1];
    FourAppended();
    s := NextAdds(s0, was, cmds, STALE, 3, THREE, 4);
    FourIsFull();
    FourLosesOne();
    s := NextRemoves(s0, s, cmds, STALE, 4, FOUR, 1);
  }

  lemma TwoCollide()
    ensures !Distinct(Shift(map[3 := 1, 4 := 2], 1))
  {
    var m: Slots := map[3 := 1, 4 := 2];
    assert Shift(m, 1)[3] == Shift(m, 1)[4];
  }

  lemma Collides(s0: State, was: State) returns (s: State)
    requires was.db == One(LASTTHREE) && 0 < |was.txs| && was.txs[0] == AboutToErase(2, [Membership(0, 1)])
    requires Idle(was, 0) && Leads(true, false, s0, was)
    ensures Leads(true, false, s0, s) && s.db == was.db && 0 < |s.txs| && s.txs[0].phase.Failed?
  {
    s := ErasesTwo(true, false, s0, was, LASTTHREE, 1);
    OneGone(LASTTHREE, 2);
    assert LASTTHREE - {2} == map[3 := 1, 4 := 2];
    TwoCollide();
    s := RenumberFails(true, false, s0, s, 0, 0, 1);
  }

  /** The unique constraint does complain: a track delete with a stale position can run one row into
      another, and then fails as a whole with an error that is nobody's mistake. */
  lemma TrackDeleteCanFail() returns (db: Db, cmds: seq<Command>, s: State)
    ensures Valid(db) && AllDense(db) && Leads(true, false, Begin(db, cmds), s)
    ensures 0 < |s.txs| && s.txs[0].cmd == DeleteTrack(2) && s.txs[0].phase.Failed?
  {
    db, cmds := One(ONE), [DeleteTrack(2), AddTrack(0, 2), AddTrack(0, 3), AddTrack(0, 4), RemoveTrack(0, 1)];
    var s0 := Begin(db, cmds);
    OneIsFull();
    s := ReadsUnlockedRow(s0, cmds);
    s := ThirdAppended(s0, s, cmds);
    s := FourthTakesItsPlace(s0, s, cmds);
    s := Collides(s0, s);
    CommandStays(true, false, s0, s, 0);
  }

  lemma {:induction false} CommandsStay(lockFirst: bool, s: State, es: seq<Event>)
    requires Legal(lockFirst, s, es)
    ensures |Exec(lockFirst, s, es).txs| == |s.txs|
    ensures forall x :: 0 <= x < |s.txs| ==> Exec(lockFirst, s, es).txs[x].cmd == s.txs[x].cmd
    decreases |es|
  {
    if es != [] {
      OneMoves(lockFirst, s, es[0]);
      CommandsStay(lockFirst, Apply(lockFirst, s, es[0]), es[1..]);
    }
  }

  lemma CommandStays(lockFirst: bool, clean: bool, s0: State, s: State, x: nat)
    requires Leads(lockFirst, clean, s0, s) && x < |s0.txs|
    ensures x < |s.txs| && s.txs[x].cmd == s0.txs[x].cmd
  {
    var es :| Legal(lockFirst, s0, es) && (clean ==> CleanRun(lockFirst, s0, es)) && Exec(lockFirst, s0, es) == s;
    CommandsStay(lockFirst, s0, es);
  }

  // ---- Two deletes in each other's way ----

  function Both(a: Slots, b: Slots): Db {
    Db({0}, map[1 := 0, 2 := 0], map[1 := Playlist(0, a), 2 := Playlist(0, b)])
  }

  const TWOTHENONE: Slots := map[2 := 0, 1 := 1]

  function Crossing(): seq<Tx> {
    [Waiting(DeleteTrack(1)), Waiting(DeleteTrack(2)), Waiting(AddTrack(1, 1)), Waiting(AddTrack(2, 2))]
  }

  function Pair(a: Tx, b: Tx): seq<Tx> {
    [a, b, Answered(AddTrack(1, 1)), Answered(AddTrack(2, 2))]
  }

  /** Each delete has found the one playlist that holds its track and locked nothing yet. */
  lemma BothLookUp(s0: State) returns (s: State)
    requires s0 == State(Both(map[2 := 0], map[1 := 0]), Crossing(), [])
    ensures Leads(true, false, s0, s) && s.db == s0.db
    ensures s.txs == [Tx(DeleteTrack(1), Locking([2]), {}, map[]), Tx(DeleteTrack(2), Locking([1]), {}, map[]),
                      Waiting(AddTrack(1, 1)), Waiting(AddTrack(2, 2))]
  {
    Stays(true, false, s0);
    assert Holders(s0.db, 1) == {2} && Holders(s0.db, 2) == {1};
    s := Go(true, false, s0, s0, LockHolders(0, [2]));
    s := Go(true, false, s0, s, LockHolders(1, [1]));
  }

  lemma CrossAppends()
    ensures Append(map[2 := 0], 1) == TWOTHENONE && Append(map[1 := 0], 2) == ONETWO
    ensures Installed(Both(map[2 := 0], map[1 := 0]), 1, TWOTHENONE) == Both(TWOTHENONE, map[1 := 0])
    ensures Installed(Both(TWOTHENONE, map[1 := 0]), 2, ONETWO) == Both(TWOTHENONE, ONETWO)
  {
    var a, b := map[2 := 0], map[1 := 0];
    assert a[2] == 0 && b[1] == 0;
    AppendAfter(a, 1, 1);
    AppendAfter(b, 2, 1);
  }

  lemma BothInserted(s0: State, was: State) returns (s: State)
    requires Leads(true, false, s0, was) && was.db == Both(map[2 := 0], map[1 := 0])
    requires was.txs == [Tx(DeleteTrack(1), Locking([2]), {}, map[]), Tx(DeleteTrack(2), Locking([1]), {}, map[]),
                         Waiting(AddTrack(1, 1)), Waiting(AddTrack(2, 2))]
    ensures Leads(true, false, s0, s) && s.db == Both(TWOTHENONE, ONETWO)
    ensures s.txs == Pair(was.txs[0], was.txs[1])
  {
    CrossAppends();
    s := AddRuns(true, s0, was, 2, 1, 1);
    s := AddRuns(true, s0, s, 3, 2, 2);
  }

  lemma BothLocked(s0: State, was: State) returns (s: State)
    requires Leads(true, false, s0, was) && was.db == Both(TWOTHENONE, ONETWO)
    requires was.txs == Pair(Tx(DeleteTrack(1), Locking([2]), {}, map[]), Tx(DeleteTrack(2), Locking([1]), {}, map[]))
    ensures Leads(true, false, s0, s) && s.db == was.db
    ensures s.txs == Pair(Tx(DeleteTrack(1), Locking([]), {2}, map[]), Tx(DeleteTrack(2), Locking([]), {1}, map[]))
  {
    assert [2][1..] == [] && [1][1..] == [] && {} + {2} == {2} && {} + {1} == {1};
    s := Go(true, false, s0, was, LockNext(0));
    assert s.txs[0] == Tx(DeleteTrack(1), Locking([]), {2}, map[]);
    s := Go(true, false, s0, s, LockNext(1));
    assert s.txs[1] == Tx(DeleteTrack(2), Locking([]), {1}, map[]);
  }

  function RowsOf(first: int, second: int): seq<Membership> {
    [Membership(1, first), Membership(2, second)]
  }

  lemma TwoMemberships(t: TrackId)
    requires t == 1 || t == 2
    ensures ListsMemberships(if t == 1 then RowsOf(1, 0) else RowsOf(0, 1), Both(TWOTHENONE, ONETWO).playlists, t)
  {
    var rows := if t == 1 then RowsOf(1, 0) else RowsOf(0, 1);
    assert rows[0].playlist == 1 && rows[1].playlist == 2;
    assert Mentions(rows, 1) && Mentions(rows, 2);
  }

  lemma BothRead(s0: State, was: State) returns (s: State)
    requires Leads(true, false, s0, was) && was.db == Both(TWOTHENONE, ONETWO)
    requires was.txs == Pair(Tx(DeleteTrack(1), Locking([]), {2}, map[]), Tx(DeleteTrack(2), Locking([]), {1}, map[]))
    ensures Leads(true, false, s0, s) && s.db == was.db
    ensures s.txs == Pair(Tx(DeleteTrack(1), Erasing(RowsOf(1, 0)), {2}, map[]), Tx(DeleteTrack(2), Erasing(RowsOf(0, 1)), {1}, map[]))
  {
    TwoMemberships(1);
    TwoMemberships(2);
    s := Go(true, false, s0, was, Read(0, RowsOf(1, 0)));
    s := Go(true, false, s0, s, Read(1, RowsOf(0, 1)));
  }

  /** What each delete's cascade has removed: its own track's rows, in both playlists. */
  function BothRows(t: TrackId): map<PlaylistId, Changes> {
    map[1 := map[t := None], 2 := map[t := None]]
  }

  lemma BothCascade(t: TrackId)
    requires t == 1 || t == 2
    ensures Cascade(Both(TWOTHENONE, ONETWO), t) == BothRows(t)
  {
  }

  lemma FirstCanErase(s: State)
    requires |s.txs| == 4 && forall x :: 1 <= x < 4 ==> s.txs[x].writes == map[] && !s.txs[x].phase.Writing?
    ensures CanErase(s, 0, 1)
  {
  }

  lemma SecondCanErase(s: State)
    requires |s.txs| == 4 && forall x :: 2 <= x < 4 ==> s.txs[x].writes == map[] && !s.txs[x].phase.Writing?
    requires s.txs[0].cmd == DeleteTrack(1) && s.txs[0].writes == BothRows(1)
    ensures CanErase(s, 1, 2)
  {
  }

  lemma FirstErased(s0: State, was: State) returns (s: State)
    requires Leads(true, false, s0, was) && was.db == Both(TWOTHENONE, ONETWO)
    requires was.txs == Pair(Tx(DeleteTrack(1), Erasing(RowsOf(1, 0)), {2}, map[]), Tx(DeleteTrack(2), Erasing(RowsOf(0, 1)), {1}, map[]))
    ensures Leads(true, false, s0, s) && s.db == was.db
    ensures s.txs == Pair(Tx(DeleteTrack(1), Writing(RowsOf(1, 0)), {2}, BothRows(1)), was.txs[1])
  {
    BothCascade(1);
    FirstCanErase(was);
    s := Deletes(true, false, s0, was, 0, 1, RowsOf(1, 0), BothRows(1));
  }

  lemma SecondErased(s0: State, was: State) returns (s: State)
    requires Leads(true, false, s0, was) && was.db == Both(TWOTHENONE, ONETWO)
    requires was.txs == Pair(Tx(DeleteTrack(1), Writing(RowsOf(1, 0)), {2}, BothRows(1)), Tx(DeleteTrack(2), Erasing(RowsOf(0, 1)), {1}, map[]))
    ensures Leads(true, false, s0, s) && s.db == was.db
    ensures s.txs == Pair(was.txs[0], Tx(DeleteTrack(2), Writing(RowsOf(0, 1)), {1}, BothRows(2)))
  {
    BothCascade(2);
    SecondCanErase(was);
    s := Deletes(true, false, s0, was, 1, 2, RowsOf(0, 1), BothRows(2));
  }

  /** The first delete's first renumbering has nothing to move; its second would move the row the other
      delete has removed. */
  lemma OneRenumbered(s0: State, was: State) returns (s: State)
    requires Leads(true, false, s0, was) && was.db == Both(TWOTHENONE, ONETWO)
    requires was.txs == Pair(Tx(DeleteTrack(1), Writing(RowsOf(1, 0)), {2}, BothRows(1)), Tx(DeleteTrack(2), Writing(RowsOf(0, 1)), {1}, BothRows(2)))
    ensures Leads(true, false, s0, s) && s.db == was.db
    ensures s.txs == Pair(Tx(DeleteTrack(1), Writing([Membership(2, 0)]), {2}, BothRows(1)), was.txs[1])
  {
    NothingToMove();
    assert RowsOf(1, 0)[1..] == [Membership(2, 0)];
    s := Go(true, false, s0, was, Renumber(0));
  }

  lemma NothingToMove()
    ensures var m := Overlay(TWOTHENONE, map[1 := None]); Moved(m, 1) == map[] && Shift(m, 1) == m && Distinct(m)
    ensures var w: Changes := map[1 := None]; w + map[] == w && BothRows(1)[1 := w] == BothRows(1)
    ensures forall u :: !Concerns(Overlay(TWOTHENONE, map[1 := None]), 1, u)
  {
    OneGone(TWOTHENONE, 1);
    assert Overlay(TWOTHENONE, map[1 := None]) == map[2 := 0];
  }

  /** Locking in id order is not enough when tracks are inserted in the window: each delete then has
      removed a row the other's renumbering has to settle, and only an abort gets anyone on. */
  lemma InsertsInTheWindowDeadlock() returns (db: Db, cmds: seq<Command>, s: State)
    ensures Valid(db) && AllDense(db) && Leads(true, false, Begin(db, cmds), s)
    ensures WaitsFor(s, 0, 1) && WaitsFor(s, 1, 0)
    ensures forall e :: Enabled(true, s, e) ==> e.Abort?
  {
    db, cmds := Both(map[2 := 0], map[1 := 0]), [DeleteTrack(1), DeleteTrack(2), AddTrack(1, 1), AddTrack(2, 2)];
    assert Begin(db, cmds).txs == Crossing();
    s := DeletesCross(Begin(db, cmds));
    EachIsBlocked(s);
    Stuck(s);
    BothAreDense();
  }

  lemma DeletesCross(s0: State) returns (s: State)
    requires s0 == State(Both(map[2 := 0], map[1 := 0]), Crossing(), [])
    ensures Leads(true, false, s0, s) && Crossed(s)
  {
    s := BothLookUp(s0);
    s := BothInserted(s0, s);
    s := BothLocked(s0, s);
    s := BothRead(s0, s);
    s := FirstErased(s0, s);
    s := SecondErased(s0, s);
    s := OneRenumbered(s0, s);
  }

  lemma OneIsDense(t: TrackId)
    ensures Dense(map[t := 0]) && SlotsOk(map[t := 0])
  {
    var m := map[t := 0];
    assert m.Keys == {t} && |m| == |m.Keys|;
  }

  lemma BothAreDense()
    ensures Valid(Both(map[2 := 0], map[1 := 0])) && AllDense(Both(map[2 := 0], map[1 := 0]))
  {
    OneIsDense(1);
    OneIsDense(2);
  }

  ghost predicate Crossed(s: State) {
    && s.db == Both(TWOTHENONE, ONETWO)
    && s.txs == Pair(Tx(DeleteTrack(1), Writing([Membership(2, 0)]), {2}, BothRows(1)),
                        Tx(DeleteTrack(2), Writing(RowsOf(0, 1)), {1}, BothRows(2)))
  }

  /** Each renumbering has a row to move that the other delete has removed. */
  lemma EachIsBlocked(s: State)
    requires Crossed(s)
    ensures WaitsFor(s, 0, 1) && WaitsFor(s, 1, 0)
    ensures !CanRenumber(s, 0, 2, View(s.db, s.txs[0], 2), 0) && !CanRenumber(s, 1, 1, View(s.db, s.txs[1], 1), 0)
  {
    OneGone(ONETWO, 1);
    OneGone(TWOTHENONE, 2);
    assert Concerns(View(s.db, s.txs[0], 2), 0, 2) && Claims(s.txs[1], 2, 2);
    assert Concerns(View(s.db, s.txs[1], 1), 0, 1) && Claims(s.txs[0], 1, 1);
    assert !Unclaimed(s, 0, 2, 2) && !Unclaimed(s, 1, 1, 1);
  }

  lemma Stuck(s: State)
    requires |s.txs| == 4 && Ended(s.txs[2]) && Ended(s.txs[3]) && 1 in s.db.playlists && 2 in s.db.playlists
    requires s.txs[0].phase == Writing([Membership(2, 0)]) && !CanRenumber(s, 0, 2, View(s.db, s.txs[0], 2), 0)
    requires s.txs[1].phase == Writing(RowsOf(0, 1)) && !CanRenumber(s, 1, 1, View(s.db, s.txs[1], 1), 0)
    ensures forall e :: Enabled(true, s, e) ==> e.Abort?
  {
    forall e | Enabled(true, s, e) ensures e.Abort? {
      if e.o == 0 { WaiterOnlyAborts(s, e, 2, 0); }
      else if e.o == 1 { WaiterOnlyAborts(s, e, 1, 0); }
      else { EndedIsStill(s, e); }
    }
  }

  lemma EndedIsStill(s: State, e: Event)
    requires e.o < |s.txs| && Ended(s.txs[e.o])
    ensures !Enabled(true, s, e)
  {
  }

  lemma WaiterOnlyAborts(s: State, e: Event, p: PlaylistId, x: int)
    requires e.o < |s.txs| && s.txs[e.o].phase.Writing? && s.txs[e.o].phase.rows != [] && s.txs[e.o].phase.rows[0] == Membership(p, x)
    requires p in s.db.playlists && !CanRenumber(s, e.o, p, View(s.db, s.txs[e.o], p), x) && Enabled(true, s, e)
    ensures e.Abort?
  {
  }
}
