/** The playlist tables and what each request does to them, against plain lists. */
module PlaylistSpec {
  import opened Storage
  import opened Positions

  type PlaylistId = nat

  datatype Playlist = Playlist(updatedAt: Time, slots: Slots)

  datatype Db = Db(artists: set<ArtistId>, tracks: map<TrackId, ArtistId>, playlists: map<PlaylistId, Playlist>)

  datatype Outcome = Done | Missing | InvalidInput | Conflict

  datatype Command =
    | CreateArtist(artist: ArtistId)
    | CreateTrack(track: TrackId, artist: ArtistId)
    | CreatePlaylist(id: PlaylistId, ids: seq<TrackId>)
    | DeletePlaylist(id: PlaylistId)
    | AddTrack(id: PlaylistId, track: TrackId)
    | RemoveTrack(id: PlaylistId, track: TrackId)
    | DeleteTrack(track: TrackId)
    | DeleteArtist(artist: ArtistId)

  /** Keys, uniqueness and both foreign keys of `playlist_tracks`. */
  ghost predicate Valid(db: Db) {
    && (forall p :: p in db.playlists ==> SlotsOk(db.playlists[p].slots))
    && (forall p, t :: p in db.playlists && t in db.playlists[p].slots ==> t in db.tracks)
    && (forall t :: t in db.tracks ==> db.tracks[t] in db.artists)
  }

  /** The ids the database hands out are new. */
  predicate FreshIds(db: Db, c: Command) {
    match c
    case CreateArtist(a) => a !in db.artists
    case CreateTrack(t, _) => t !in db.tracks
    case CreatePlaylist(p, _) => p !in db.playlists
    case _ => true
  }

  /** The first membership row that cannot be inserted decides how making a playlist fails. */
  function Refusal(ids: seq<TrackId>, tracks: map<TrackId, ArtistId>): (r: Outcome)
    ensures r != Missing
  {
    if ids == [] then Done
    else
      var n := |ids| - 1;
      var before := Refusal(ids[..n], tracks);
      if before != Done then before
      else if ids[n] in ids[..n] then Conflict
      else if ids[n] !in tracks then InvalidInput
      else Done
  }

  function By(tracks: map<TrackId, ArtistId>, a: ArtistId): set<TrackId> {
    set t | t in tracks && tracks[t] == a
  }

  function TracksBy(db: Db, a: ArtistId): set<TrackId> {
    By(db.tracks, a)
  }

  /** Every playlist that held the track closes the gap it leaves, and is stamped. */
  function DroppedEverywhere(playlists: map<PlaylistId, Playlist>, t: TrackId, now: Time): map<PlaylistId, Playlist> {
    map p | p in playlists ::
      if t in playlists[p].slots then Playlist(now, Drop(playlists[p].slots, t)) else playlists[p]
  }

  /** The cascade of an artist delete only removes rows: no renumbering, no stamp. */
  function CascadedEverywhere(playlists: map<PlaylistId, Playlist>, ts: set<TrackId>): map<PlaylistId, Playlist> {
    map p | p in playlists :: playlists[p].(slots := Without(playlists[p].slots, ts))
  }

  function Run(db: Db, c: Command, now: Time): (r: (Db, Outcome))
    requires Valid(db) && FreshIds(db, c)
  {
    match c
    case CreateArtist(a) => (db.(artists := db.artists + {a}), Done)
    case CreateTrack(t, a) =>
      if a !in db.artists then (db, InvalidInput) else (db.(tracks := db.tracks[t := a]), Done)
    case CreatePlaylist(p, ids) =>
      var refusal := Refusal(ids, db.tracks);
      if refusal != Done then (db, refusal)
      else (db.(playlists := db.playlists[p := Playlist(now, FromList(ids))]), Done)
    case DeletePlaylist(p) =>
      if p !in db.playlists then (db, Missing) else (db.(playlists := db.playlists - {p}), Done)
    case AddTrack(p, t) =>
      if p !in db.playlists then (db, Missing)
      else if t !in db.playlists[p].slots && t !in db.tracks then (db, InvalidInput)
      else (db.(playlists := db.playlists[p := Playlist(now, Append(db.playlists[p].slots, t))]), Done)
    case RemoveTrack(p, t) =>
      if p !in db.playlists || t !in db.playlists[p].slots then (db, Missing)
      else (db.(playlists := db.playlists[p := Playlist(now, Drop(db.playlists[p].slots, t))]), Done)
    case DeleteTrack(t) =>
      if t !in db.tracks then (db, Missing)
      else (Db(db.artists, db.tracks - {t}, DroppedEverywhere(db.playlists, t, now)), Done)
    case DeleteArtist(a) =>
      if a !in db.artists then (db, Missing)
      else
        var ts := TracksBy(db, a);
        (Db(db.artists - {a}, db.tracks - ts, CascadedEverywhere(db.playlists, ts)), Done)
  }

  // ---- The plain lists ----

  datatype Library = Library(artists: set<ArtistId>, tracks: map<TrackId, ArtistId>, lists: map<PlaylistId, seq<TrackId>>)

  function Lists(playlists: map<PlaylistId, Playlist>): map<PlaylistId, seq<TrackId>>
    requires forall p :: p in playlists ==> Distinct(playlists[p].slots)
  {
    map p | p in playlists :: Ordered(playlists[p].slots)
  }

  function Abstract(db: Db): Library
    requires Valid(db)
  {
    Library(db.artists, db.tracks, Lists(db.playlists))
  }

  function KeptEverywhere(lists: map<PlaylistId, seq<TrackId>>, ts: set<TrackId>): map<PlaylistId, seq<TrackId>> {
    map p | p in lists :: Keep(lists[p], ts)
  }

  /** The same requests on lists: nothing here knows of positions. */
  function RunOnLists(l: Library, c: Command): (Library, Outcome) {
    match c
    case CreateArtist(a) => (l.(artists := l.artists + {a}), Done)
    case CreateTrack(t, a) =>
      if a !in l.artists then (l, InvalidInput) else (l.(tracks := l.tracks[t := a]), Done)
    case CreatePlaylist(p, ids) =>
      var refusal := Refusal(ids, l.tracks);
      if refusal != Done then (l, refusal) else (l.(lists := l.lists[p := ids]), Done)
    case DeletePlaylist(p) =>
      if p !in l.lists then (l, Missing) else (l.(lists := l.lists - {p}), Done)
    case AddTrack(p, t) =>
      if p !in l.lists then (l, Missing)
      else if t in l.lists[p] then (l, Done)
      else if t !in l.tracks then (l, InvalidInput)
      else (l.(lists := l.lists[p := l.lists[p] + [t]]), Done)
    case RemoveTrack(p, t) =>
      if p !in l.lists || t !in l.lists[p] then (l, Missing)
      else (l.(lists := l.lists[p := Keep(l.lists[p], {t})]), Done)
    case DeleteTrack(t) =>
      if t !in l.tracks then (l, Missing)
      else (Library(l.artists, l.tracks - {t}, KeptEverywhere(l.lists, {t})), Done)
    case DeleteArtist(a) =>
      if a !in l.artists then (l, Missing)
      else
        var ts := By(l.tracks, a);
        (Library(l.artists - {a}, l.tracks - ts, KeptEverywhere(l.lists, ts)), Done)
  }

  // ---- Each request keeps the tables valid ----

  lemma RepeatsAtTheEnd(ids: seq<TrackId>, t: TrackId)
    ensures NoRepeats(ids + [t]) <==> NoRepeats(ids) && t !in ids
  {
    var all := ids + [t];
    assert all[|ids|] == t;
    assert forall i :: 0 <= i < |ids| ==> all[i] == ids[i];
    if t in ids {
      var i :| 0 <= i < |ids| && ids[i] == t;
      assert all[i] == all[|ids|];
    }
    if !NoRepeats(ids) {
      var i, j :| 0 <= i < j < |ids| && ids[i] == ids[j];
      assert all[i] == all[j];
    }
  }

  /** Making a playlist from a list succeeds exactly when every track is known and none comes twice. */
  lemma {:induction false} RefusalIsExact(ids: seq<TrackId>, tracks: map<TrackId, ArtistId>)
    ensures Refusal(ids, tracks) == Done <==> NoRepeats(ids) && forall t :: t in ids ==> t in tracks
    decreases |ids|
  {
    if ids != [] {
      var front, last := ids[..|ids| - 1], ids[|ids| - 1];
      RefusalIsExact(front, tracks);
      RepeatsAtTheEnd(front, last);
      assert ids == front + [last];
      assert forall t :: t in ids <==> t in front || t == last;
    }
  }

  /** Which refusal: the first entry that cannot be inserted is repeated, or else unknown. */
  lemma {:induction false} RefusalIsTheFirst(ids: seq<TrackId>, tracks: map<TrackId, ArtistId>) returns (n: nat)
    requires Refusal(ids, tracks) != Done
    ensures n < |ids| && NoRepeats(ids[..n]) && (forall t :: t in ids[..n] ==> t in tracks)
    ensures ids[n] in ids[..n] || ids[n] !in tracks
    ensures Refusal(ids, tracks) == if ids[n] in ids[..n] then Conflict else InvalidInput
    decreases |ids|
  {
    var front := ids[..|ids| - 1];
    if Refusal(front, tracks) == Done {
      n := |ids| - 1;
      RefusalIsExact(front, tracks);
    } else {
      n := RefusalIsTheFirst(front, tracks);
      assert front[..n] == ids[..n];
    }
  }

  lemma CreateRefines(db: Db, p: PlaylistId, ids: seq<TrackId>, now: Time)
    requires Valid(db) && p !in db.playlists
    ensures Simulated(db, CreatePlaylist(p, ids), now)
  {
    RefusalIsExact(ids, db.tracks);
    if Refusal(ids, db.tracks) == Done {
      FromListRoundTrips(ids);
      FromListReads(ids);
      Installed(db, p, Playlist(now, FromList(ids)), ids);
    }
  }

  /** The request keeps the tables valid and does to them what it does to the lists. */
  ghost predicate Simulated(db: Db, c: Command, now: Time)
    requires Valid(db) && FreshIds(db, c)
  {
    && Valid(Run(db, c, now).0)
    && (Abstract(Run(db, c, now).0), Run(db, c, now).1) == RunOnLists(Abstract(db), c)
  }

  function Put(db: Db, p: PlaylistId, playlist: Playlist): Db {
    db.(playlists := db.playlists[p := playlist])
  }

  lemma PutKeepsValid(db: Db, p: PlaylistId, playlist: Playlist)
    requires Valid(db) && SlotsOk(playlist.slots)
    requires forall t :: t in playlist.slots ==> t in db.tracks
    ensures Valid(Put(db, p, playlist))
  {
    forall q | q in Put(db, p, playlist).playlists && q != p ensures q in db.playlists {}
  }

  lemma PutLists(playlists: map<PlaylistId, Playlist>, p: PlaylistId, playlist: Playlist)
    requires (forall q :: q in playlists ==> Distinct(playlists[q].slots)) && Distinct(playlist.slots)
    ensures Lists(playlists[p := playlist]) == Lists(playlists)[p := Ordered(playlist.slots)]
  {
    var after := playlists[p := playlist];
    forall q | q in after ensures q in Lists(playlists)[p := Ordered(playlist.slots)] {}
  }

  lemma DropLists(playlists: map<PlaylistId, Playlist>, p: PlaylistId)
    requires forall q :: q in playlists ==> Distinct(playlists[q].slots)
    ensures Lists(playlists - {p}) == Lists(playlists) - {p}
  {
  }

  /** Changing one playlist's rows changes one list. */
  lemma Installed(db: Db, p: PlaylistId, playlist: Playlist, s: seq<TrackId>)
    requires Valid(db) && SlotsOk(playlist.slots) && Ordered(playlist.slots) == s
    requires forall t :: t in playlist.slots ==> t in db.tracks
    ensures Valid(Put(db, p, playlist))
    ensures Abstract(Put(db, p, playlist)) == Abstract(db).(lists := Abstract(db).lists[p := s])
  {
    PutKeepsValid(db, p, playlist);
    PutLists(db.playlists, p, playlist);
  }

  lemma AddRefines(db: Db, p: PlaylistId, t: TrackId, now: Time)
    requires Valid(db)
    ensures Simulated(db, AddTrack(p, t), now)
  {
    if p in db.playlists && (t in db.playlists[p].slots || t in db.tracks) {
      var m := db.playlists[p].slots;
      OrderedReads(m);
      AppendReads(m, t);
      AppendKeepsGap(m, t);
      var s := if t in m then Ordered(m) else Ordered(m) + [t];
      Installed(db, p, Playlist(now, Append(m, t)), s);
      assert Abstract(db).lists[p := Ordered(m)] == Abstract(db).lists;
    } else if p in db.playlists {
      OrderedReads(db.playlists[p].slots);
    }
  }

  lemma RemoveRefines(db: Db, p: PlaylistId, t: TrackId, now: Time)
    requires Valid(db)
    ensures Simulated(db, RemoveTrack(p, t), now)
  {
    if p in db.playlists {
      OrderedReads(db.playlists[p].slots);
      if t in db.playlists[p].slots { RemoveMember(db, p, t, now); }
    }
  }

  lemma RunRemoves(db: Db, p: PlaylistId, t: TrackId, now: Time)
    requires Valid(db) && p in db.playlists && t in db.playlists[p].slots
    ensures Run(db, RemoveTrack(p, t), now) == (Put(db, p, Playlist(now, Drop(db.playlists[p].slots, t))), Done)
  {
  }

  lemma ListRemoves(l: Library, p: PlaylistId, t: TrackId)
    requires p in l.lists && t in l.lists[p]
    ensures RunOnLists(l, RemoveTrack(p, t)) == (l.(lists := l.lists[p := Keep(l.lists[p], {t})]), Done)
  {
  }

  lemma RemoveMember(db: Db, p: PlaylistId, t: TrackId, now: Time)
    requires Valid(db) && p in db.playlists && t in db.playlists[p].slots && t in Ordered(db.playlists[p].slots)
    ensures Simulated(db, RemoveTrack(p, t), now)
  {
    var m := db.playlists[p].slots;
    MemberDropped(m, t);
    assert forall u :: u in Drop(m, t) ==> u in m;
    Installed(db, p, Playlist(now, Drop(m, t)), Keep(Ordered(m), {t}));
    RunRemoves(db, p, t, now);
    ListRemoves(Abstract(db), p, t);
  }

  lemma MemberDropped(m: Slots, t: TrackId)
    requires SlotsOk(m)
    ensures SlotsOk(Drop(m, t)) && Ordered(Drop(m, t)) == Keep(Ordered(m), {t})
  {
    DropReads(m, t);
    DropNeverWidensGap(m, t);
  }

  lemma DroppedRows(db: Db, t: TrackId, now: Time)
    requires Valid(db) && t in db.tracks
    ensures Valid(Db(db.artists, db.tracks - {t}, DroppedEverywhere(db.playlists, t, now)))
  {
    forall p | p in db.playlists ensures SlotsOk(Drop(db.playlists[p].slots, t)) { MemberDropped(db.playlists[p].slots, t); }
  }

  lemma DroppedList(playlist: Playlist, t: TrackId)
    requires Distinct(playlist.slots) && Distinct(Drop(playlist.slots, t))
    ensures Ordered(Drop(playlist.slots, t)) == Keep(Ordered(playlist.slots), {t})
  {
    DropReads(playlist.slots, t);
  }

  lemma DroppedLists(playlists: map<PlaylistId, Playlist>, t: TrackId, now: Time)
    requires forall p :: p in playlists ==> Distinct(playlists[p].slots)
    requires forall p :: p in DroppedEverywhere(playlists, t, now) ==> Distinct(DroppedEverywhere(playlists, t, now)[p].slots)
    ensures Lists(DroppedEverywhere(playlists, t, now)) == KeptEverywhere(Lists(playlists), {t})
  {
    var was, kept := Lists(DroppedEverywhere(playlists, t, now)), KeptEverywhere(Lists(playlists), {t});
    forall p | p in playlists ensures was[p] == kept[p] { DroppedListAt(playlists, t, now, p); }
    MapsAgree(was, kept);
  }

  lemma MapsAgree(a: map<PlaylistId, seq<TrackId>>, b: map<PlaylistId, seq<TrackId>>)
    requires a.Keys == b.Keys && forall p :: p in a ==> a[p] == b[p]
    ensures a == b
  {
  }

  lemma DroppedListAt(playlists: map<PlaylistId, Playlist>, t: TrackId, now: Time, p: PlaylistId)
    requires p in playlists && Distinct(playlists[p].slots)
    requires Distinct(DroppedEverywhere(playlists, t, now)[p].slots)
    ensures Ordered(DroppedEverywhere(playlists, t, now)[p].slots) == Keep(Ordered(playlists[p].slots), {t})
  {
    assert DroppedEverywhere(playlists, t, now)[p].slots == Drop(playlists[p].slots, t);
    DroppedList(playlists[p], t);
  }

  lemma DeleteTrackRefines(db: Db, t: TrackId, now: Time)
    requires Valid(db)
    ensures Simulated(db, DeleteTrack(t), now)
  {
    if t in db.tracks {
      DroppedRows(db, t, now);
      DroppedLists(db.playlists, t, now);
    }
  }

  lemma CascadedRows(playlists: map<PlaylistId, Playlist>, ts: set<TrackId>)
    requires forall p :: p in playlists ==> SlotsOk(playlists[p].slots)
    ensures forall p :: p in playlists ==> SlotsOk(CascadedEverywhere(playlists, ts)[p].slots)
  {
    forall p | p in playlists ensures SlotsOk(Without(playlists[p].slots, ts)) { WithoutReads(playlists[p].slots, ts); }
  }

  lemma CascadedList(playlist: Playlist, ts: set<TrackId>)
    requires Distinct(playlist.slots) && Distinct(Without(playlist.slots, ts))
    ensures Ordered(Without(playlist.slots, ts)) == Keep(Ordered(playlist.slots), ts)
  {
    WithoutReads(playlist.slots, ts);
  }

  lemma CascadedLists(playlists: map<PlaylistId, Playlist>, ts: set<TrackId>)
    requires forall p :: p in playlists ==> Distinct(playlists[p].slots)
    requires forall p :: p in CascadedEverywhere(playlists, ts) ==> Distinct(CascadedEverywhere(playlists, ts)[p].slots)
    ensures Lists(CascadedEverywhere(playlists, ts)) == KeptEverywhere(Lists(playlists), ts)
  {
    var after := CascadedEverywhere(playlists, ts);
    var was, kept := Lists(after), KeptEverywhere(Lists(playlists), ts);
    assert was.Keys == kept.Keys;
    forall p | p in was ensures was[p] == kept[p] {
      assert after[p].slots == Without(playlists[p].slots, ts);
      CascadedList(playlists[p], ts);
    }
  }

  lemma CascadeKeepsValid(db: Db, a: ArtistId)
    requires Valid(db) && a in db.artists
    ensures Valid(Db(db.artists - {a}, db.tracks - TracksBy(db, a), CascadedEverywhere(db.playlists, TracksBy(db, a))))
  {
    CascadedRows(db.playlists, TracksBy(db, a));
  }

  lemma DeleteArtistRefines(db: Db, a: ArtistId, now: Time)
    requires Valid(db)
    ensures Simulated(db, DeleteArtist(a), now)
  {
    if a in db.artists {
      CascadeKeepsValid(db, a);
      CascadedLists(db.playlists, TracksBy(db, a));
    }
  }

  lemma CreateArtistRefines(db: Db, a: ArtistId, now: Time)
    requires Valid(db) && a !in db.artists
    ensures Simulated(db, CreateArtist(a), now)
  {
    assert Abstract(Run(db, CreateArtist(a), now).0).lists == Abstract(db).lists;
  }

  lemma CreateTrackRefines(db: Db, t: TrackId, a: ArtistId, now: Time)
    requires Valid(db) && t !in db.tracks
    ensures Simulated(db, CreateTrack(t, a), now)
  {
    assert Abstract(Run(db, CreateTrack(t, a), now).0).lists == Abstract(db).lists;
  }

  lemma DeletePlaylistRefines(db: Db, p: PlaylistId, now: Time)
    requires Valid(db)
    ensures Simulated(db, DeletePlaylist(p), now)
  {
    DropLists(db.playlists, p);
  }

  /** Refinement: read back in position order, the tables are the plain lists after every request,
      whatever gaps the positions have, and both answer alike. */
  lemma RunRefinesLists(db: Db, c: Command, now: Time)
    requires Valid(db) && FreshIds(db, c)
    ensures Valid(Run(db, c, now).0)
    ensures (Abstract(Run(db, c, now).0), Run(db, c, now).1) == RunOnLists(Abstract(db), c)
  {
    match c
    case CreatePlaylist(p, ids) => CreateRefines(db, p, ids, now);
    case AddTrack(p, t) => AddRefines(db, p, t, now);
    case RemoveTrack(p, t) => RemoveRefines(db, p, t, now);
    case DeleteTrack(t) => DeleteTrackRefines(db, t, now);
    case DeleteArtist(a) => DeleteArtistRefines(db, a, now);
    case CreateArtist(a) => CreateArtistRefines(db, a, now);
    case CreateTrack(t, a) => CreateTrackRefines(db, t, a, now);
    case DeletePlaylist(p) => DeletePlaylistRefines(db, p, now);
  }

  // ---- The change marker ----

  /** A playlist whose list a request changes carries that request's stamp, an artist delete apart: a client
      that compares stamps misses the change exactly when the request runs at the time of the old stamp. */
  lemma ChangesAreStamped(db: Db, c: Command, now: Time, p: PlaylistId)
    requires Valid(db) && FreshIds(db, c) && !c.DeleteArtist?
    requires p in db.playlists && p in Run(db, c, now).0.playlists
    ensures Valid(Run(db, c, now).0)
    ensures var before, after := db.playlists[p], Run(db, c, now).0.playlists[p];
            Ordered(after.slots) != Ordered(before.slots) ==>
              after.updatedAt == now && (after.updatedAt != before.updatedAt <==> before.updatedAt != now)
  {
    RunKeepsValid(db, c, now);
    StampOrSame(db, c, now, p);
  }

  lemma StampOrSame(db: Db, c: Command, now: Time, p: PlaylistId)
    requires Valid(db) && FreshIds(db, c) && !c.DeleteArtist? && p in Run(db, c, now).0.playlists
    ensures Run(db, c, now).0.playlists[p].updatedAt == now || (p in db.playlists && Run(db, c, now).0.playlists[p] == db.playlists[p])
  {
    if c.DeleteTrack? && c.track in db.tracks {
      assert Run(db, c, now).0.playlists[p] == DroppedEverywhere(db.playlists, c.track, now)[p];
    }
  }

  /** A request stamps no playlist but the one it is about, or those that held the track it deletes. */
  lemma OthersAreNotStamped(db: Db, c: Command, now: Time, p: PlaylistId)
    requires Valid(db) && FreshIds(db, c) && p in db.playlists && p in Run(db, c, now).0.playlists
    ensures Run(db, c, now).0.playlists[p].updatedAt != db.playlists[p].updatedAt ==>
              || ((c.AddTrack? || c.RemoveTrack?) && c.id == p)
              || (c.DeleteTrack? && c.track in db.playlists[p].slots)
  {
  }

  /** No playlist was stamped later than this. */
  ghost predicate StampedBy(db: Db, now: Time) {
    forall p :: p in db.playlists ==> db.playlists[p].updatedAt <= now
  }

  /** Requests that follow each other in time, each later than the one before. */
  predicate LegalAt(db: Db, cs: seq<Command>, times: seq<Time>, from: Time)
    requires Valid(db)
    decreases |cs|
  {
    && |cs| == |times|
    && (cs != [] ==> FreshIds(db, cs[0]) && from < times[0])
    && (cs != [] ==> (RunKeepsValid(db, cs[0], times[0]); LegalAt(Run(db, cs[0], times[0]).0, cs[1..], times[1..], times[0])))
  }

  function AfterAt(db: Db, cs: seq<Command>, times: seq<Time>, from: Time): Db
    requires Valid(db) && LegalAt(db, cs, times, from)
    decreases |cs|
  {
    if cs == [] then db
    else RunKeepsValid(db, cs[0], times[0]); AfterAt(Run(db, cs[0], times[0]).0, cs[1..], times[1..], times[0])
  }

  /** A playlist in both has the same rows and the same stamp, or a later stamp. */
  ghost predicate ShowsChanges(was: Db, db: Db) {
    forall p :: p in was.playlists && p in db.playlists ==>
      || (db.playlists[p].slots == was.playlists[p].slots && db.playlists[p].updatedAt == was.playlists[p].updatedAt)
      || db.playlists[p].updatedAt > was.playlists[p].updatedAt
  }

  lemma StepShowsChanges(was: Db, db: Db, c: Command, from: Time, now: Time)
    requires Valid(db) && FreshIds(db, c) && !c.DeleteArtist? && StampedBy(was, from) && StampedBy(db, from) && from < now
    requires ShowsChanges(was, db)
    ensures ShowsChanges(was, Run(db, c, now).0) && StampedBy(Run(db, c, now).0, now) && StampedBy(was, now)
  {
    forall p | p in Run(db, c, now).0.playlists
      ensures Run(db, c, now).0.playlists[p].updatedAt == now || (p in db.playlists && Run(db, c, now).0.playlists[p] == db.playlists[p])
    {
      StampOrSame(db, c, now, p);
    }
  }

  lemma {:induction false} RunShowsChanges(was: Db, db: Db, cs: seq<Command>, times: seq<Time>, from: Time)
    requires Valid(db) && LegalAt(db, cs, times, from) && (forall c :: c in cs ==> !c.DeleteArtist?)
    requires StampedBy(was, from) && StampedBy(db, from) && ShowsChanges(was, db)
    ensures ShowsChanges(was, AfterAt(db, cs, times, from))
    decreases |cs|
  {
    if cs != [] {
      assert cs[0] in cs;
      RunKeepsValid(db, cs[0], times[0]);
      StepShowsChanges(was, db, cs[0], from, times[0]);
      RunShowsChanges(was, Run(db, cs[0], times[0]).0, cs[1..], times[1..], times[0]);
    }
  }

  /** A client that remembers a stamp misses no change, however many requests run in between, as long as no
      two run at the same time and none deletes an artist: where the list differs the stamp is later. */
  lemma StampsShowEveryChange(db: Db, cs: seq<Command>, times: seq<Time>, from: Time, p: PlaylistId)
    requires Valid(db) && LegalAt(db, cs, times, from) && (forall c :: c in cs ==> !c.DeleteArtist?) && StampedBy(db, from)
    requires p in db.playlists && p in AfterAt(db, cs, times, from).playlists
    ensures var before, after := db.playlists[p], AfterAt(db, cs, times, from).playlists[p];
            && Distinct(before.slots) && Distinct(after.slots)
            && (Ordered(after.slots) != Ordered(before.slots) ==> after.updatedAt > before.updatedAt)
  {
    RunShowsChanges(db, db, cs, times, from);
    AfterAtIsValid(db, cs, times, from);
  }

  lemma {:induction false} AfterAtIsValid(db: Db, cs: seq<Command>, times: seq<Time>, from: Time)
    requires Valid(db) && LegalAt(db, cs, times, from)
    ensures Valid(AfterAt(db, cs, times, from))
    decreases |cs|
  {
    if cs != [] {
      RunKeepsValid(db, cs[0], times[0]);
      AfterAtIsValid(Run(db, cs[0], times[0]).0, cs[1..], times[1..], times[0]);
    }
  }

  /** An artist delete never stamps, and changes exactly the playlists that held one of its tracks. */
  lemma ArtistDeleteChangesUnstamped(db: Db, a: ArtistId, now: Time, p: PlaylistId)
    requires Valid(db) && a in db.artists && p in db.playlists
    ensures var db' := Run(db, DeleteArtist(a), now).0;
            && Valid(db') && p in db'.playlists && db'.playlists[p].updatedAt == db.playlists[p].updatedAt
            && (Ordered(db'.playlists[p].slots) != Ordered(db.playlists[p].slots) <==>
                  exists t :: t in db.playlists[p].slots && db.tracks[t] == a)
  {
    RunKeepsValid(db, DeleteArtist(a), now);
    TakenOutShows(db.playlists[p].slots, TracksBy(db, a));
    assert forall t :: t in db.playlists[p].slots ==> (t in TracksBy(db, a) <==> db.tracks[t] == a);
  }

  /** Whose tracks go with an artist: the artist's own and no others, from the catalogue and from every
      playlist, with everything else as it was and in the order it was. */
  lemma ArtistDeleteTakesOwnTracks(db: Db, a: ArtistId, now: Time)
    requires Valid(db) && a in db.artists
    ensures var (after, r) := Run(db, DeleteArtist(a), now);
      && r == Done && Valid(after) && (forall x :: x in after.artists <==> x in db.artists && x != a)
      && (forall t :: t in after.tracks <==> t in db.tracks && db.tracks[t] != a)
      && (forall t :: t in after.tracks ==> after.tracks[t] == db.tracks[t])
      && after.playlists.Keys == db.playlists.Keys
      && (forall p, t :: p in db.playlists ==>
            (t in after.playlists[p].slots <==> t in db.playlists[p].slots && db.tracks[t] != a))
      && (forall p :: p in db.playlists ==>
            Ordered(after.playlists[p].slots) == Keep(Ordered(db.playlists[p].slots), set t | t in db.tracks && db.tracks[t] == a))
  {
    RunKeepsValid(db, DeleteArtist(a), now);
    var after := Run(db, DeleteArtist(a), now).0;
    assert TracksBy(db, a) == set t | t in db.tracks && db.tracks[t] == a;
    forall p | p in db.playlists
      ensures Ordered(after.playlists[p].slots) == Keep(Ordered(db.playlists[p].slots), set t | t in db.tracks && db.tracks[t] == a)
    {
      CascadedList(db.playlists[p], TracksBy(db, a));
    }
  }

  lemma ListedIsMember(m: Slots, t: TrackId)
    requires Distinct(m)
    ensures t in Ordered(m) <==> t in m
  {
    OrderedReads(m);
  }

  lemma OneLess(m: Slots, r: Slots, t: TrackId)
    requires Distinct(m) && Distinct(r) && t in m && t !in r
    ensures Ordered(r) != Ordered(m)
  {
    ListedIsMember(m, t);
    ListedIsMember(r, t);
  }

  lemma TakenOutShows(m: Slots, ts: set<TrackId>)
    requires Distinct(m) && Distinct(Without(m, ts))
    ensures Ordered(Without(m, ts)) != Ordered(m) <==> exists t :: t in m && t in ts
  {
    if t :| t in m && t in ts {
      OneLess(m, Without(m, ts), t);
    } else {
      assert Without(m, ts) == m;
    }
  }

  // ---- Density over whole runs ----

  ghost predicate AllDense(db: Db) {
    forall p :: p in db.playlists ==> Dense(db.playlists[p].slots)
  }

  /** An artist delete that takes some track out of the middle of a playlist. */
  ghost predicate OpensGap(db: Db, c: Command) {
    && c.DeleteArtist? && c.artist in db.artists
    && exists p, t, u :: && p in db.playlists && t in db.playlists[p].slots && u in db.playlists[p].slots
                         && t in db.tracks && u in db.tracks && db.tracks[t] == c.artist && db.tracks[u] != c.artist
                         && db.playlists[p].slots[t] < db.playlists[p].slots[u]
  }

  lemma AppendStaysDense(m: Slots, t: TrackId)
    requires SlotsOk(m) && Dense(m)
    ensures SlotsOk(Append(m, t)) && Dense(Append(m, t))
  {
    AppendKeepsGap(m, t);
    GapMeasuresDensity(m);
    GapMeasuresDensity(Append(m, t));
  }

  lemma DropStaysDense(m: Slots, t: TrackId)
    requires SlotsOk(m) && Dense(m)
    ensures SlotsOk(Drop(m, t)) && Dense(Drop(m, t))
  {
    DropNeverWidensGap(m, t);
    GapMeasuresDensity(m);
    GapMeasuresDensity(Drop(m, t));
  }

  lemma CascadeOpensGap(db: Db, a: ArtistId, now: Time)
    requires Valid(db) && AllDense(db)
    ensures AllDense(Run(db, DeleteArtist(a), now).0) <==> !OpensGap(db, DeleteArtist(a))
  {
    if a in db.artists {
      var after := CascadedEverywhere(db.playlists, TracksBy(db, a));
      if OpensGap(db, DeleteArtist(a)) {
        var p := GapOpened(db, a);
        assert !Dense(after[p].slots);
      } else {
        forall p | p in after ensures Dense(after[p].slots) { CascadeStaysDense(db, a, p); }
      }
    }
  }

  lemma GapOpened(db: Db, a: ArtistId) returns (p: PlaylistId)
    requires AllDense(db) && OpensGap(db, DeleteArtist(a))
    ensures p in db.playlists && !Dense(Without(db.playlists[p].slots, TracksBy(db, a)))
  {
    var ts := TracksBy(db, a);
    var q, t, u :| && q in db.playlists && t in db.playlists[q].slots && u in db.playlists[q].slots
                   && t in db.tracks && u in db.tracks && db.tracks[t] == a && db.tracks[u] != a
                   && db.playlists[q].slots[t] < db.playlists[q].slots[u];
    assert t in ts && u !in ts;
    CascadeKeepsDenseIff(db.playlists[q].slots, ts);
    p := q;
  }

  lemma CascadeStaysDense(db: Db, a: ArtistId, p: PlaylistId)
    requires Valid(db) && AllDense(db) && a in db.artists && p in db.playlists && !OpensGap(db, DeleteArtist(a))
    ensures Dense(Without(db.playlists[p].slots, TracksBy(db, a)))
  {
    var m := db.playlists[p].slots;
    var ts := TracksBy(db, a);
    forall t, u | t in m && t in ts && u in m && u !in ts ensures m[u] < m[t] { assert m[u] == m[t] ==> u == t; }
    CascadeKeepsDenseIff(m, ts);
  }

  lemma CreateStaysDense(db: Db, p: PlaylistId, ids: seq<TrackId>, now: Time)
    requires Valid(db) && p !in db.playlists && AllDense(db)
    ensures AllDense(Run(db, CreatePlaylist(p, ids), now).0)
  {
    RefusalIsExact(ids, db.tracks);
    if Refusal(ids, db.tracks) == Done { FromListReads(ids); }
  }

  lemma AddStaysDense(db: Db, p: PlaylistId, t: TrackId, now: Time)
    requires Valid(db) && AllDense(db)
    ensures AllDense(Run(db, AddTrack(p, t), now).0)
  {
    if p in db.playlists { AppendStaysDense(db.playlists[p].slots, t); }
  }

  lemma RemoveStaysDense(db: Db, p: PlaylistId, t: TrackId, now: Time)
    requires Valid(db) && AllDense(db)
    ensures AllDense(Run(db, RemoveTrack(p, t), now).0)
  {
    if p in db.playlists { DropStaysDense(db.playlists[p].slots, t); }
  }

  lemma DeleteTrackStaysDense(db: Db, t: TrackId, now: Time)
    requires Valid(db) && AllDense(db)
    ensures AllDense(Run(db, DeleteTrack(t), now).0)
  {
    forall p | p in db.playlists ensures Dense(Drop(db.playlists[p].slots, t)) { DropStaysDense(db.playlists[p].slots, t); }
  }

  /** Every request but an artist delete keeps dense playlists dense, and that one does exactly when
      no remaining member of a playlist stood after one that goes. */
  lemma DenseIffNoGapOpened(db: Db, c: Command, now: Time)
    requires Valid(db) && FreshIds(db, c) && AllDense(db)
    ensures AllDense(Run(db, c, now).0) <==> !OpensGap(db, c)
  {
    match c
    case CreatePlaylist(p, ids) => CreateStaysDense(db, p, ids, now);
    case AddTrack(p, t) => AddStaysDense(db, p, t, now);
    case RemoveTrack(p, t) => RemoveStaysDense(db, p, t, now);
    case DeleteTrack(t) => DeleteTrackStaysDense(db, t, now);
    case DeleteArtist(a) => CascadeOpensGap(db, a, now);
    case _ =>
  }

  predicate LegalRun(db: Db, cs: seq<Command>, now: Time)
    requires Valid(db)
    decreases |cs|
  {
    cs == [] || (FreshIds(db, cs[0]) && (RunKeepsValid(db, cs[0], now); LegalRun(Run(db, cs[0], now).0, cs[1..], now)))
  }

  lemma RunKeepsValid(db: Db, c: Command, now: Time)
    requires Valid(db) && FreshIds(db, c)
    ensures Valid(Run(db, c, now).0)
  {
    RunRefinesLists(db, c, now);
  }

  function After(db: Db, cs: seq<Command>, now: Time): Db
    requires Valid(db) && LegalRun(db, cs, now)
    decreases |cs|
  {
    if cs == [] then db else RunKeepsValid(db, cs[0], now); After(Run(db, cs[0], now).0, cs[1..], now)
  }

  /** In every run without an artist delete, all playlists are exactly 0..n-1 throughout. */
  lemma {:induction false} RunsStayDense(db: Db, cs: seq<Command>, now: Time)
    requires Valid(db) && AllDense(db) && LegalRun(db, cs, now)
    requires forall c :: c in cs ==> !c.DeleteArtist?
    ensures AllDense(After(db, cs, now))
    decreases |cs|
  {
    if cs != [] {
      assert cs[0] in cs;
      RunKeepsValid(db, cs[0], now);
      DenseIffNoGapOpened(db, cs[0], now);
      RunsStayDense(Run(db, cs[0], now).0, cs[1..], now);
    }
  }

  // ---- Gaps over whole runs ----

  /** Every playlist's gap is at most what it was; a new playlist has none. */
  ghost predicate NoWider(was: Db, db: Db)
    requires Valid(was) && Valid(db)
  {
    forall p :: p in db.playlists ==>
      Gap(db.playlists[p].slots) <= if p in was.playlists then Gap(was.playlists[p].slots) else 0
  }

  lemma GapOf(db: Db, p: PlaylistId)
    requires Valid(db) && p in db.playlists
    ensures Gap(db.playlists[p].slots) >= 0
  {
    GapMeasuresDensity(db.playlists[p].slots);
  }

  lemma RequestNeverWidens(db: Db, c: Command, now: Time, p: PlaylistId)
    requires Valid(db) && FreshIds(db, c) && !c.DeleteArtist? && Valid(Run(db, c, now).0) && p in Run(db, c, now).0.playlists
    ensures Gap(Run(db, c, now).0.playlists[p].slots) <= if p in db.playlists then Gap(db.playlists[p].slots) else 0
  {
    match c
    case CreatePlaylist(q, ids) => if q == p && q !in db.playlists { CreatedHasNoGap(db, q, ids, now); }
    case AddTrack(q, t) => if q in db.playlists { AppendKeepsGap(db.playlists[q].slots, t); }
    case RemoveTrack(q, t) => if q in db.playlists { DropNeverWidensGap(db.playlists[q].slots, t); }
    case DeleteTrack(t) => DeleteNeverWidens(db, t, now, p);
    case _ =>
  }

  lemma DeleteNeverWidens(db: Db, t: TrackId, now: Time, p: PlaylistId)
    requires Valid(db) && Valid(Run(db, DeleteTrack(t), now).0) && p in Run(db, DeleteTrack(t), now).0.playlists
    ensures p in db.playlists && Gap(Run(db, DeleteTrack(t), now).0.playlists[p].slots) <= Gap(db.playlists[p].slots)
  {
    DeleteLeaves(db, t, now, p);
    GapDropped(db.playlists[p].slots, Run(db, DeleteTrack(t), now).0.playlists[p].slots, t);
  }

  lemma DeleteLeaves(db: Db, t: TrackId, now: Time, p: PlaylistId)
    requires Valid(db) && p in Run(db, DeleteTrack(t), now).0.playlists
    ensures p in db.playlists
    ensures var m, r := db.playlists[p].slots, Run(db, DeleteTrack(t), now).0.playlists[p].slots; r == m || r == Drop(m, t)
  {
  }

  lemma GapDropped(m: Slots, r: Slots, t: TrackId)
    requires SlotsOk(m) && (r == m || r == Drop(m, t))
    ensures SlotsOk(r) && Gap(r) <= Gap(m)
  {
    DropNeverWidensGap(m, t);
  }

  lemma CreatedHasNoGap(db: Db, p: PlaylistId, ids: seq<TrackId>, now: Time)
    requires Valid(db) && p !in db.playlists && p in Run(db, CreatePlaylist(p, ids), now).0.playlists
    ensures var m := Run(db, CreatePlaylist(p, ids), now).0.playlists[p].slots; Distinct(m) && Gap(m) == 0
  {
    RefusalIsExact(ids, db.tracks);
    FromListRoundTrips(ids);
  }

  lemma StepNeverWidens(was: Db, db: Db, c: Command, now: Time)
    requires Valid(was) && Valid(db) && FreshIds(db, c) && !c.DeleteArtist? && NoWider(was, db) && Valid(Run(db, c, now).0)
    ensures NoWider(was, Run(db, c, now).0)
  {
    var after := Run(db, c, now).0;
    forall p | p in after.playlists
      ensures Gap(after.playlists[p].slots) <= if p in was.playlists then Gap(was.playlists[p].slots) else 0
    {
      RequestNeverWidens(db, c, now, p);
      if p in was.playlists { GapOf(was, p); }
    }
  }

  lemma {:induction false} RunNeverWidens(was: Db, db: Db, cs: seq<Command>, now: Time)
    requires Valid(was) && Valid(db) && NoWider(was, db) && LegalRun(db, cs, now) && forall c :: c in cs ==> !c.DeleteArtist?
    ensures Valid(After(db, cs, now)) && NoWider(was, After(db, cs, now))
    decreases |cs|
  {
    if cs != [] {
      assert cs[0] in cs;
      RunKeepsValid(db, cs[0], now);
      StepNeverWidens(was, db, cs[0], now);
      RunNeverWidens(was, Run(db, cs[0], now).0, cs[1..], now);
    }
  }

  /** Gaps that are there, once an artist delete has left them, are never widened by anything else, in runs
      of any length; and playlists made since have none. */
  lemma GapsNeverWiden(db: Db, cs: seq<Command>, now: Time)
    requires Valid(db) && LegalRun(db, cs, now) && forall c :: c in cs ==> !c.DeleteArtist?
    ensures Valid(After(db, cs, now)) && NoWider(db, After(db, cs, now))
  {
    RunNeverWidens(db, db, cs, now);
  }
}
