/** The playlist statements as transactions over tables, proved against `PlaylistSpec.Run`. */
module PlaylistRepo {
  import opened Storage
  import opened Positions
  import opened PlaylistSpec

  datatype Membership = Membership(playlist: PlaylistId, position: int)

  /** Each playlist that holds the track exactly once, in whatever order the database returns them. */
  ghost predicate ListsMemberships(rows: seq<Membership>, playlists: map<PlaylistId, Playlist>, t: TrackId) {
    && (forall i :: 0 <= i < |rows| ==> IsMembership(rows[i], playlists, t))
    && DistinctLists(rows)
    && (forall p :: p in playlists && t in playlists[p].slots ==> Mentions(rows, p))
  }

  ghost predicate DistinctLists(rows: seq<Membership>) {
    forall i, j :: 0 <= i < j < |rows| ==> rows[i].playlist != rows[j].playlist
  }

  ghost predicate IsMembership(row: Membership, playlists: map<PlaylistId, Playlist>, t: TrackId) {
    && row.playlist in playlists && t in playlists[row.playlist].slots
    && playlists[row.playlist].slots[t] == row.position
  }

  ghost predicate Mentions(rows: seq<Membership>, p: PlaylistId) {
    exists i :: 0 <= i < |rows| && rows[i].playlist == p
  }

  /** The tables as one open transaction sees them. Dropping it without a commit is the rollback. */
  class Transaction {
    const now: Time
    var artists: set<ArtistId>
    var tracks: map<TrackId, ArtistId>
    var playlists: map<PlaylistId, Playlist>

    ghost function Contents(): Db reads this { Db(artists, tracks, playlists) }

    constructor (db: Db, start: Time)
      ensures Contents() == db && now == start
    {
      artists, tracks, playlists, now := db.artists, db.tracks, db.playlists, start;
    }

    method InsertPlaylist(p: PlaylistId)
      requires p !in playlists
      modifies this`playlists
      ensures playlists == old(playlists)[p := Playlist(now, map[])]
    {
      playlists := playlists[p := Playlist(now, map[])];
    }

    /** Stamps the playlist and tells whether there is one. */
    method TouchPlaylist(p: PlaylistId) returns (found: bool)
      modifies this`playlists
      ensures found == (p in old(playlists))
      ensures playlists == if found then old(playlists)[p := old(playlists)[p].(updatedAt := now)] else old(playlists)
    {
      found := p in playlists;
      if found { playlists := playlists[p := playlists[p].(updatedAt := now)]; }
    }

    /** A membership row at a given position, refused by either unique constraint or the foreign key. */
    method InsertMembership(p: PlaylistId, t: TrackId, position: int) returns (r: Outcome)
      requires p in playlists
      modifies this`playlists
      ensures r == if t in old(playlists)[p].slots || !Vacant(old(playlists)[p].slots, position) then Conflict
                   else if t !in tracks then InvalidInput
                   else Done
      ensures playlists == if r != Done then old(playlists)
                           else old(playlists)[p := old(playlists)[p].(slots := old(playlists)[p].slots[t := position])]
    {
      var slots := playlists[p].slots;
      if t in slots || exists u :: u in slots && slots[u] == position {
        r := Conflict;
      } else if t !in tracks {
        r := InvalidInput;
      } else {
        r := Done;
        playlists := playlists[p := playlists[p].(slots := slots[t := position])];
      }
    }

    /** The list's entries at their indices, stopping at the first that is refused. */
    method InsertMemberships(p: PlaylistId, ids: seq<TrackId>) returns (r: Outcome)
      requires p in playlists && playlists[p].slots == map[]
      modifies this`playlists
      ensures r == Refusal(ids, tracks)
      ensures r == Done ==> playlists == old(playlists)[p := old(playlists)[p].(slots := FromList(ids))]
    {
      var i := 0;
      while i < |ids|
        invariant 0 <= i <= |ids| && Refusal(ids[..i], tracks) == Done
        invariant p in playlists && playlists[p].slots == FromList(ids[..i])
        invariant playlists == old(playlists)[p := old(playlists)[p].(slots := FromList(ids[..i]))]
      {
        PositionIsFree(ids[..i], tracks);
        ListGrows(ids[..i], ids[i], tracks);
        assert ids[..i] + [ids[i]] == ids[..i + 1];
        r := InsertMembership(p, ids[i], i);
        if r != Done {
          RefusalSticks(ids, i + 1, tracks);
          return;
        }
        i := i + 1;
      }
      assert ids[..i] == ids;
      r := Done;
    }

    /** A membership row after all others, unless the track is a member. */
    method AppendMembership(p: PlaylistId, t: TrackId) returns (r: Outcome)
      requires p in playlists && Distinct(playlists[p].slots)
      modifies this`playlists
      ensures r == if t !in old(playlists)[p].slots && t !in tracks then InvalidInput else Done
      ensures playlists == if r != Done then old(playlists)
                           else old(playlists)[p := old(playlists)[p].(slots := Append(old(playlists)[p].slots, t))]
    {
      if t in playlists[p].slots { return Done; }
      if t !in tracks { return InvalidInput; }
      playlists := playlists[p := playlists[p].(slots := playlists[p].slots[t := Top(playlists[p].slots)])];
      r := Done;
    }

    method DeleteMembership(p: PlaylistId, t: TrackId) returns (r: Option<int>)
      requires p in playlists
      modifies this`playlists
      ensures r == if t in old(playlists)[p].slots then Some(old(playlists)[p].slots[t]) else None
      ensures playlists == if r.None? then old(playlists)
                           else old(playlists)[p := old(playlists)[p].(slots := old(playlists)[p].slots - {t})]
    {
      if t !in playlists[p].slots { return None; }
      r := Some(playlists[p].slots[t]);
      playlists := playlists[p := playlists[p].(slots := playlists[p].slots - {t})];
    }

    /** Every row of the playlist past `position` moves up by one. */
    method ShiftAfter(p: PlaylistId, position: int)
      requires p in playlists
      modifies this`playlists
      ensures playlists == old(playlists)[p := old(playlists)[p].(slots := Shift(old(playlists)[p].slots, position))]
    {
      playlists := playlists[p := playlists[p].(slots := Shift(playlists[p].slots, position))];
    }

    /** Stamps, and so locks, every playlist that holds the track. */
    method TouchHolders(t: TrackId)
      modifies this`playlists
      ensures playlists == Touched(old(playlists), t, now)
    {
      playlists := Touched(playlists, t, now);
    }

    method MembershipsOf(t: TrackId) returns (rows: seq<Membership>)
      ensures ListsMemberships(rows, playlists, t)
    {
      rows := [];
      var left := playlists;
      while left != map[]
        invariant forall p :: p in left ==> p in playlists && !Mentions(rows, p)
        invariant forall i :: 0 <= i < |rows| ==> IsMembership(rows[i], playlists, t)
        invariant forall i, j :: 0 <= i < j < |rows| ==> rows[i].playlist != rows[j].playlist
        invariant forall p :: p in playlists && t in playlists[p].slots ==> p in left || Mentions(rows, p)
        decreases |left|
      {
        var p :| p in left;
        ghost var was, wasLeft := rows, left;
        left := left - {p};
        assert wasLeft.Keys == left.Keys + {p};
        if t in playlists[p].slots {
          rows := rows + [Membership(p, playlists[p].slots[t])];
          assert rows[|was|].playlist == p;
        }
        forall q ensures Mentions(rows, q) <==> Mentions(was, q) || (q == p && t in playlists[p].slots) {
          MentionsOneMore(was, rows, p, q);
        }
      }
    }

    /** Deletes the track; its membership rows go with it, and nothing is renumbered. */
    method DeleteTrackRow(t: TrackId) returns (found: bool)
      modifies this`tracks, this`playlists
      ensures found == (t in old(tracks))
      ensures tracks == old(tracks) - {t}
      ensures playlists == if found then CascadedEverywhere(old(playlists), {t}) else old(playlists)
    {
      found := t in tracks;
      if found {
        tracks := tracks - {t};
        playlists := CascadedEverywhere(playlists, {t});
      }
    }

    /** Closes the gap in each of the playlists, in whatever order they come. `was` is the playlists before
        the track was deleted. */
    method RenumberAll(rows: seq<Membership>, t: TrackId, ghost was: map<PlaylistId, Playlist>)
      requires ListsMemberships(rows, was, t) && playlists == CascadedEverywhere(was, {t})
      modifies this`playlists
      ensures Renumbered(was, playlists, t, rows)
    {
      var i := 0;
      while i < |rows|
        invariant 0 <= i <= |rows|
        invariant Renumbered(was, playlists, t, rows[..i])
      {
        ghost var before := playlists;
        assert IsMembership(rows[i], was, t);
        ShiftAfter(rows[i].playlist, rows[i].position);
        RenumberStep(was, before, playlists, t, rows, i);
        i := i + 1;
      }
      assert rows[..i] == rows;
    }

    /** Deletes the artist; the tracks go with it, and their membership rows with them. */
    method DeleteArtistRow(a: ArtistId) returns (found: bool)
      modifies this
      ensures found == (a in old(artists))
      ensures Contents() == if !found then old(Contents())
                            else Db(old(artists) - {a}, old(tracks) - By(old(tracks), a),
                                    CascadedEverywhere(old(playlists), By(old(tracks), a)))
    {
      found := a in artists;
      if found {
        var gone := By(tracks, a);
        artists, tracks, playlists := artists - {a}, tracks - gone, CascadedEverywhere(playlists, gone);
      }
    }
  }

  lemma MentionsOneMore(was: seq<Membership>, rows: seq<Membership>, p: PlaylistId, q: PlaylistId)
    requires rows == was || (|rows| == |was| + 1 && rows[..|was|] == was && rows[|was|].playlist == p)
    ensures Mentions(rows, q) <==> Mentions(was, q) || (q == p && rows != was)
  {
    if Mentions(was, q) {
      var i :| 0 <= i < |was| && was[i].playlist == q;
      assert rows[i] == was[i];
    }
    if Mentions(rows, q) {
      var i :| 0 <= i < |rows| && rows[i].playlist == q;
      assert i < |was| ==> was[i] == rows[i];
    }
  }

  function Touched(playlists: map<PlaylistId, Playlist>, t: TrackId, now: Time): map<PlaylistId, Playlist> {
    map p | p in playlists :: if t in playlists[p].slots then playlists[p].(updatedAt := now) else playlists[p]
  }

  // ---- The repositories ----

  class Repository {
    var artists: set<ArtistId>
    var tracks: map<TrackId, ArtistId>
    var playlists: map<PlaylistId, Playlist>

    ghost function Contents(): Db reads this { Db(artists, tracks, playlists) }

    constructor ()
      ensures Contents() == Db({}, map[], map[])
    {
      artists, tracks, playlists := {}, map[], map[];
    }

    method BeginTx(now: Time) returns (tx: Transaction)
      ensures fresh(tx) && tx.Contents() == Contents() && tx.now == now
    {
      tx := new Transaction(Db(artists, tracks, playlists), now);
    }

    method Commit(tx: Transaction)
      modifies this
      ensures Contents() == tx.Contents()
    {
      artists, tracks, playlists := tx.artists, tx.tracks, tx.playlists;
    }

    /** A playlist row, then a membership row per list entry; a refusal undoes everything. */
    method CreatePlaylist(p: PlaylistId, ids: seq<TrackId>, now: Time) returns (r: Outcome)
      requires PlaylistSpec.Valid(Contents()) && p !in playlists
      modifies this
      ensures (Contents(), r) == Run(old(Contents()), PlaylistSpec.CreatePlaylist(p, ids), now)
    {
      var tx := BeginTx(now);
      tx.InsertPlaylist(p);
      r := tx.InsertMemberships(p, ids);
      if r != Done { return; }
      assert tx.playlists == playlists[p := Playlist(now, FromList(ids))];
      Commit(tx);
    }

    /** The rows in position order, appended one at a time. */
    method TrackIds(p: PlaylistId) returns (ids: seq<TrackId>)
      requires p in playlists ==> Distinct(playlists[p].slots)
      ensures ids == if p in playlists then Ordered(playlists[p].slots) else []
    {
      var rows := if p in playlists then playlists[p].slots else map[];
      ghost var all := rows;
      ids := [];
      while rows != map[]
        invariant Distinct(rows) && Scanned(all, rows, ids)
        decreases |rows|
      {
        var next := First(rows);
        ghost var was := rows;
        rows := rows - {next};
        assert was.Keys == rows.Keys + {next};
        ScanStep(all, was, rows, next, ids);
        ids := ids + [next];
      }
      assert all - rows.Keys == all;
      ReadsIsOrdered(all, ids);
    }

    /** Two reads with no transaction around them: `later` is the tables as they are at the second. A
        playlist deleted in between is answered as an empty one. */
    method GetPlaylistById(p: PlaylistId, later: Repository) returns (r: Option<seq<TrackId>>)
      requires PlaylistSpec.Valid(later.Contents())
      ensures r == if p !in playlists then None
                   else if p !in later.playlists then Some([])
                   else Some(Ordered(later.playlists[p].slots))
    {
      if p !in playlists { return None; }
      var ids := later.TrackIds(p);
      r := Some(ids);
    }

    method DeletePlaylist(p: PlaylistId, now: Time) returns (r: Outcome)
      requires PlaylistSpec.Valid(Contents())
      modifies this
      ensures (Contents(), r) == Run(old(Contents()), PlaylistSpec.DeletePlaylist(p), now)
    {
      if p !in playlists { return Missing; }
      playlists := playlists - {p};
      r := Done;
    }

    method AddTrack(p: PlaylistId, t: TrackId, now: Time) returns (r: Outcome)
      requires PlaylistSpec.Valid(Contents())
      modifies this
      ensures (Contents(), r) == Run(old(Contents()), PlaylistSpec.AddTrack(p, t), now)
    {
      var tx := BeginTx(now);
      var found := tx.TouchPlaylist(p);
      if !found { return Missing; }
      r := tx.AppendMembership(p, t);
      if r != Done { return; }
      assert tx.playlists == playlists[p := Playlist(now, Append(playlists[p].slots, t))];
      Commit(tx);
    }

    method RemoveTrack(p: PlaylistId, t: TrackId, now: Time) returns (r: Outcome)
      requires PlaylistSpec.Valid(Contents())
      modifies this
      ensures (Contents(), r) == Run(old(Contents()), PlaylistSpec.RemoveTrack(p, t), now)
    {
      var tx := BeginTx(now);
      var found := tx.TouchPlaylist(p);
      if !found { return Missing; }
      var position := tx.DeleteMembership(p, t);
      if position.None? { return Missing; }
      tx.ShiftAfter(p, position.value);
      assert tx.playlists == playlists[p := Playlist(now, Drop(playlists[p].slots, t))];
      Commit(tx);
      r := Done;
    }

    /** Lock and stamp the holders, read where the track sits in each, delete it, then close each gap.
        The outcome does not depend on the order the memberships are visited in. */
    method DeleteTrack(t: TrackId, now: Time) returns (r: Outcome)
      requires PlaylistSpec.Valid(Contents())
      modifies this
      ensures (Contents(), r) == Run(old(Contents()), PlaylistSpec.DeleteTrack(t), now)
    {
      var tx := BeginTx(now);
      tx.TouchHolders(t);
      ghost var touched := tx.playlists;
      var memberships := tx.MembershipsOf(t);
      var found := tx.DeleteTrackRow(t);
      if !found { return Missing; }
      tx.RenumberAll(memberships, t, touched);
      AllRenumbered(playlists, tx.playlists, t, now, memberships);
      Commit(tx);
      r := Done;
    }

    method DeleteArtist(a: ArtistId, now: Time) returns (r: Outcome)
      requires PlaylistSpec.Valid(Contents())
      modifies this
      ensures (Contents(), r) == Run(old(Contents()), PlaylistSpec.DeleteArtist(a), now)
    {
      var tx := BeginTx(now);
      var found := tx.DeleteArtistRow(a);
      if !found { return Missing; }
      Commit(tx);
      r := Done;
    }
  }

  /** Create then read gives the list back; a refused create leaves nothing to read. */
  method CreateThenGet(db: Repository, p: PlaylistId, ids: seq<TrackId>, now: Time) returns (r: Outcome, read: Option<seq<TrackId>>)
    requires PlaylistSpec.Valid(db.Contents()) && p !in db.playlists
    modifies db
    ensures r == Done <==> NoRepeats(ids) && forall t :: t in ids ==> t in old(db.tracks)
    ensures read == if r == Done then Some(ids) else None
    ensures r != Done ==> db.Contents() == old(db.Contents())
  {
    RefusalIsExact(ids, db.tracks);
    RunKeepsValid(db.Contents(), PlaylistSpec.CreatePlaylist(p, ids), now);
    r := db.CreatePlaylist(p, ids, now);
    read := db.GetPlaylistById(p, db);
    if r == Done { FromListRoundTrips(ids); }
  }

  // ---- Inserting a list ----

  lemma ListGrows(front: seq<TrackId>, t: TrackId, tracks: map<TrackId, ArtistId>)
    requires Refusal(front, tracks) == Done
    ensures FromList(front + [t]) == FromList(front)[t := |front|]
    ensures Refusal(front + [t], tracks) == if t in front then Conflict else if t !in tracks then InvalidInput else Done
  {
    var ids := front + [t];
    assert ids[..|front|] == front;
  }

  /** Before the i-th insert no row has its position, and the rows are those of the entries before it. */
  lemma PositionIsFree(front: seq<TrackId>, tracks: map<TrackId, ArtistId>)
    requires Refusal(front, tracks) == Done
    ensures Vacant(FromList(front), |front|)
    ensures forall t :: t in FromList(front) <==> t in front
  {
    RefusalIsExact(front, tracks);
    FromListAt(front);
    forall t | t in front ensures t in FromList(front) && FromList(front)[t] < |front| {
      var k :| 0 <= k < |front| && front[k] == t;
    }
  }

  /** Once one entry is refused the whole list is, with that refusal. */
  lemma {:induction false} RefusalSticks(ids: seq<TrackId>, n: nat, tracks: map<TrackId, ArtistId>)
    requires n <= |ids| && Refusal(ids[..n], tracks) != Done
    ensures Refusal(ids, tracks) == Refusal(ids[..n], tracks)
    decreases |ids|
  {
    if n == |ids| {
      assert ids[..n] == ids;
    } else {
      var front := ids[..|ids| - 1];
      assert front[..n] == ids[..n];
      RefusalSticks(front, n, tracks);
    }
  }

  // ---- Reading in order ----

  ghost predicate Lowest(m: Slots, t: TrackId) {
    t in m && forall u :: u in m ==> m[t] <= m[u]
  }

  lemma {:induction false} FirstExists(m: Slots) returns (first: TrackId)
    requires m != map[]
    ensures Lowest(m, first)
    decreases |m|
  {
    var t :| t in m;
    var rest := m - {t};
    assert m.Keys == rest.Keys + {t};
    first := t;
    if rest != map[] {
      var r := FirstExists(rest);
      first := if m[r] <= m[t] then r else t;
      forall u | u in m ensures m[first] <= m[u] {
        if u != t { assert u in rest && rest[r] <= rest[u]; }
      }
    } else {
      assert forall u :: u in m ==> u == t || u in rest;
    }
  }

  function First(m: Slots): (t: TrackId)
    requires m != map[] && Distinct(m)
    ensures t in m && forall u :: u in m && u != t ==> m[t] < m[u]
  {
    assert exists t :: Lowest(m, t) by { var t := FirstExists(m); }
    var t :| t in m && forall u :: u in m ==> m[t] <= m[u];
    t
  }

  /** `ids` are the rows before those of `rows`, in order. */
  ghost predicate Scanned(all: Slots, rows: Slots, ids: seq<TrackId>) {
    && (forall t :: t in rows ==> t in all && all[t] == rows[t])
    && (forall t, u :: t in all && t !in rows && u in rows ==> all[t] < all[u])
    && ReadsAs(all - rows.Keys, ids)
  }

  lemma ScanStep(all: Slots, was: Slots, rows: Slots, next: TrackId, ids: seq<TrackId>)
    requires Scanned(all, was, ids) && next in was && rows == was - {next}
    requires forall t :: t in was && t != next ==> was[next] < was[t]
    ensures Scanned(all, rows, ids + [next])
  {
    AddLast(all - was.Keys, ids, all - rows.Keys, next);
  }

  // ---- Renumbering ----

  /** The playlists of `done` have closed their gap; the others have only lost the row. */
  ghost predicate Renumbered(was: map<PlaylistId, Playlist>, now: map<PlaylistId, Playlist>, t: TrackId, done: seq<Membership>) {
    && now.Keys == was.Keys
    && forall p :: p in was ==> now[p] == was[p].(slots := if Mentions(done, p) then Drop(was[p].slots, t) else was[p].slots - {t})
  }

  lemma RenumberStep(was: map<PlaylistId, Playlist>, before: map<PlaylistId, Playlist>, now: map<PlaylistId, Playlist>,
                     t: TrackId, rows: seq<Membership>, i: nat)
    requires ListsMemberships(rows, was, t) && i < |rows| && Renumbered(was, before, t, rows[..i])
    requires var p := rows[i].playlist;
             p in before && now == before[p := before[p].(slots := Shift(before[p].slots, rows[i].position))]
    ensures Renumbered(was, now, t, rows[..i + 1])
  {
    var p := rows[i].playlist;
    assert !Mentions(rows[..i], p);
    assert IsMembership(rows[i], was, t);
    forall q ensures Mentions(rows[..i + 1], q) <==> Mentions(rows[..i], q) || q == p {
      assert rows[..i + 1][..i] == rows[..i];
      MentionsOneMore(rows[..i], rows[..i + 1], p, q);
    }
  }

  lemma AllRenumbered(was: map<PlaylistId, Playlist>, now: map<PlaylistId, Playlist>, t: TrackId, stamp: Time, rows: seq<Membership>)
    requires ListsMemberships(rows, Touched(was, t, stamp), t)
    requires Renumbered(Touched(was, t, stamp), now, t, rows)
    ensures now == DroppedEverywhere(was, t, stamp)
  {
    var touched := Touched(was, t, stamp);
    forall p | p in was ensures now[p] == DroppedEverywhere(was, t, stamp)[p] {
      if Mentions(rows, p) {
        var i :| 0 <= i < |rows| && rows[i].playlist == p;
        assert IsMembership(rows[i], touched, t);
      } else {
        assert t !in touched[p].slots;
        assert was[p].slots - {t} == was[p].slots;
      }
    }
  }
}
