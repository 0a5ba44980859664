/** AddTrack, RemoveTrack and DeleteTrack as transactions that interleave one statement at a time
    under READ COMMITTED, with the row locks the statements take. */
module PlaylistTx {
  import opened Storage
  import opened Positions
  import opened PlaylistSpec
  import opened PlaylistRepo

  /** Where a transaction stands.
      `Locking` is inside DeleteTrack's lock statement, with the rows it still has to lock.
      `Erasing` has read the memberships and is about to delete the track.
      `Writing` has changed rows and has these gaps still to close before it can commit.
      `Failed` had a statement refused by a constraint nobody expects: rolled back, an internal error. */
  datatype Phase =
    | Starting
    | Inserting
    | Removing
    | Locking(wanted: seq<PlaylistId>)
    | Erasing(rows: seq<Membership>)
    | Writing(rows: seq<Membership>)
    | Finished(outcome: Outcome)
    | Failed
    | Aborted

  /** Uncommitted changes to one playlist's rows: the new position of a row, or None for a deleted one. */
  type Changes = map<TrackId, Option<int>>

  /** `holds` are the playlists rows it has locked, `writes` its uncommitted changes to `playlist_tracks`;
      a row changed is a row locked until the transaction ends. */
  datatype Tx = Tx(cmd: Command, phase: Phase, holds: set<PlaylistId>, writes: map<PlaylistId, Changes>)

  /** `order` lists the transactions that have answered, in the order they did. */
  datatype State = State(db: Db, txs: seq<Tx>, order: seq<nat>)

  datatype Event =
    | Touch(o: nat)
    | Insert(o: nat)
    | Remove(o: nat)
    | LockHolders(o: nat, wanted: seq<PlaylistId>)
    | LockNext(o: nat)
    | Read(o: nat, rows: seq<Membership>)
    | Erase(o: nat)
    | Renumber(o: nat)
    | Commit(o: nat)
    | Abort(o: nat)

  predicate Modelled(c: Command) {
    c.AddTrack? || c.RemoveTrack? || c.DeleteTrack?
  }

  function Begin(db: Db, cmds: seq<Command>): State {
    State(db, seq(|cmds|, i requires 0 <= i < |cmds| => Tx(cmds[i], Starting, {}, map[])), [])
  }

  predicate Ended(tx: Tx) {
    tx.phase.Finished? || tx.phase.Failed? || tx.phase.Aborted?
  }

  // ---- Reading ----

  function Rows(db: Db, p: PlaylistId): Slots
    requires p in db.playlists
  {
    db.playlists[p].slots
  }

  /** The playlists whose committed rows hold the track. */
  function Holders(db: Db, t: TrackId): set<PlaylistId> {
    set p | p in db.playlists && t in db.playlists[p].slots
  }

  function Overlay(m: Slots, w: Changes): Slots {
    map t | t in m.Keys + w.Keys && (t in w ==> w[t].Some?) :: if t in w then w[t].value else m[t]
  }

  /** What the transaction itself sees: committed rows, overlaid with its own changes. */
  function View(db: Db, tx: Tx, p: PlaylistId): Slots
    requires p in db.playlists
  {
    if p in tx.writes then Overlay(Rows(db, p), tx.writes[p]) else Rows(db, p)
  }

  function ChangesOf(tx: Tx, p: PlaylistId): Changes {
    if p in tx.writes then tx.writes[p] else map[]
  }

  // ---- Locks ----

  ghost predicate Free(s: State, o: nat, p: PlaylistId) {
    forall x :: 0 <= x < |s.txs| && x != o ==> p !in s.txs[x].holds
  }

  /** The transaction has changed the membership row and not ended, and so has it locked. */
  predicate Claims(tx: Tx, p: PlaylistId, t: TrackId) {
    p in tx.writes && t in tx.writes[p]
  }

  ghost predicate Unclaimed(s: State, o: nat, p: PlaylistId, t: TrackId) {
    forall x :: 0 <= x < |s.txs| && x != o ==> !Claims(s.txs[x], p, t)
  }

  /** The unique index has an uncommitted entry of the transaction at the position. */
  predicate PendingAt(tx: Tx, p: PlaylistId, q: int) {
    p in tx.writes && exists u :: u in tx.writes[p] && tx.writes[p][u] == Some(q)
  }

  ghost predicate NonePending(s: State, o: nat, p: PlaylistId, q: int) {
    forall x :: 0 <= x < |s.txs| && x != o ==> !PendingAt(s.txs[x], p, q)
  }

  /** A membership row inserted and not committed holds the track row in KEY SHARE mode. */
  predicate Pins(tx: Tx, t: TrackId) {
    tx.cmd.AddTrack? && tx.cmd.track == t && tx.phase.Writing? && tx.writes != map[]
  }

  /** A track row deleted and not committed is locked exclusively. */
  predicate Erases(tx: Tx, t: TrackId) {
    tx.cmd.DeleteTrack? && tx.cmd.track == t && tx.phase.Writing?
  }

  ghost predicate NotErased(s: State, o: nat, t: TrackId) {
    forall x :: 0 <= x < |s.txs| && x != o ==> !Erases(s.txs[x], t)
  }

  ghost predicate NotPinned(s: State, o: nat, t: TrackId) {
    forall x :: 0 <= x < |s.txs| && x != o ==> !Pins(s.txs[x], t)
  }

  ghost predicate Ascending(ps: seq<PlaylistId>) {
    forall i, j :: 0 <= i < j < |ps| ==> ps[i] < ps[j]
  }

  // ---- Steps ----

  /** The rows the renumbering UPDATE has to settle: those it moves, and the one a moved row runs into. */
  predicate Concerns(m: Slots, x: int, u: TrackId) {
    u in m && (m[u] > x || (m[u] == x && exists v :: v in m && m[v] == x + 1))
  }

  ghost predicate CanRenumber(s: State, o: nat, p: PlaylistId, m: Slots, x: int) {
    && (forall u :: Concerns(m, x, u) ==> Unclaimed(s, o, p, u))
    && (forall u :: u in m && m[u] > x ==> NonePending(s, o, p, m[u] - 1))
  }

  /** `lockFirst` is whether DeleteTrack issues its lock statement at all.
      A statement that has to wait is enabled once what it waits for is settled. */
  ghost predicate Enabled(lockFirst: bool, s: State, e: Event) {
    && e.o < |s.txs|
    && var tx := s.txs[e.o];
       match e
       case Touch(o) =>
         && tx.phase.Starting? && (tx.cmd.AddTrack? || tx.cmd.RemoveTrack?)
         && (tx.cmd.id in s.db.playlists ==> Free(s, o, tx.cmd.id))
       case Insert(o) =>
         && tx.phase.Inserting? && tx.cmd.AddTrack? && tx.cmd.id in s.db.playlists
         && var m := Rows(s.db, tx.cmd.id);
         && Distinct(m) && Unclaimed(s, o, tx.cmd.id, tx.cmd.track)
         && (tx.cmd.track !in m ==> NotErased(s, o, tx.cmd.track) && NonePending(s, o, tx.cmd.id, Top(m)))
       case Remove(o) =>
         && tx.phase.Removing? && tx.cmd.RemoveTrack? && tx.cmd.id in s.db.playlists
         && Unclaimed(s, o, tx.cmd.id, tx.cmd.track)
       case LockHolders(o, wanted) =>
         && tx.phase.Starting? && tx.cmd.DeleteTrack? && Ascending(wanted)
         && (lockFirst ==> forall p :: p in wanted <==> p in Holders(s.db, tx.cmd.track))
         && (!lockFirst ==> wanted == [])
       case LockNext(o) =>
         tx.phase.Locking? && tx.phase.wanted != [] && Free(s, o, tx.phase.wanted[0])
       case Read(o, rows) =>
         && tx.phase == Locking([]) && tx.cmd.DeleteTrack?
         && ListsMemberships(rows, s.db.playlists, tx.cmd.track)
       case Erase(o) =>
         && tx.phase.Erasing? && tx.cmd.DeleteTrack?
         && NotErased(s, o, tx.cmd.track) && NotPinned(s, o, tx.cmd.track)
         && forall p :: p in Holders(s.db, tx.cmd.track) ==> Unclaimed(s, o, p, tx.cmd.track)
       case Renumber(o) =>
         && tx.phase.Writing? && tx.phase.rows != [] && tx.phase.rows[0].playlist in s.db.playlists
         && var row := tx.phase.rows[0];
         CanRenumber(s, o, row.playlist, View(s.db, tx, row.playlist), row.position)
       case Commit(o) => tx.phase == Writing([])
       case Abort(o) => !Ended(tx)
  }

  function With(s: State, o: nat, tx: Tx): State
    requires o < |s.txs|
  {
    s.(txs := s.txs[o := tx])
  }

  /** The transaction is over without a proper answer: its locks and its changes are gone. */
  function Dropped(s: State, o: nat, phase: Phase): State
    requires o < |s.txs|
  {
    With(s, o, Tx(s.txs[o].cmd, phase, {}, map[]))
  }

  /** The transaction answers: a commit or a rollback, either way its locks and its changes are gone. */
  function Answer(s: State, o: nat, r: Outcome): State
    requires o < |s.txs|
  {
    State(s.db, s.txs[o := Tx(s.txs[o].cmd, Finished(r), {}, map[])], s.order + [o])
  }

  function Merged(db: Db, tx: Tx): Db {
    Db(db.artists,
       if tx.cmd.DeleteTrack? then db.tracks - {tx.cmd.track} else db.tracks,
       map p | p in db.playlists :: db.playlists[p].(slots := View(db, tx, p)))
  }

  function Touching(s: State, o: nat): State
    requires o < |s.txs| && (s.txs[o].cmd.AddTrack? || s.txs[o].cmd.RemoveTrack?)
  {
    var tx := s.txs[o];
    if tx.cmd.id !in s.db.playlists then Answer(s, o, Missing)
    else With(s, o, tx.(phase := if tx.cmd.AddTrack? then Inserting else Removing, holds := tx.holds + {tx.cmd.id}))
  }

  function InsertingRow(s: State, o: nat): State
    requires o < |s.txs| && s.txs[o].cmd.AddTrack? && s.txs[o].cmd.id in s.db.playlists
    requires Distinct(Rows(s.db, s.txs[o].cmd.id))
  {
    var tx := s.txs[o];
    var m := Rows(s.db, tx.cmd.id);
    if tx.cmd.track in m then With(s, o, tx.(phase := Writing([])))
    else if tx.cmd.track !in s.db.tracks then Answer(s, o, InvalidInput)
    else With(s, o, tx.(phase := Writing([]), writes := map[tx.cmd.id := map[tx.cmd.track := Some(Top(m))]]))
  }

  function RemovingRow(s: State, o: nat): State
    requires o < |s.txs| && s.txs[o].cmd.RemoveTrack? && s.txs[o].cmd.id in s.db.playlists
  {
    var tx := s.txs[o];
    var m := Rows(s.db, tx.cmd.id);
    if tx.cmd.track !in m then Answer(s, o, Missing)
    else With(s, o, tx.(phase := Writing([Membership(tx.cmd.id, m[tx.cmd.track])]),
                        writes := map[tx.cmd.id := map[tx.cmd.track := None]]))
  }

  /** DELETE FROM tracks; its cascade deletes the membership rows the track has now, wherever they are. */
  function ErasingTrack(s: State, o: nat): State
    requires o < |s.txs| && s.txs[o].phase.Erasing? && s.txs[o].cmd.DeleteTrack?
  {
    var tx := s.txs[o];
    var t := tx.cmd.track;
    if t !in s.db.tracks then Answer(s, o, Missing)
    else With(s, o, Tx(tx.cmd, Writing(tx.phase.rows), tx.holds, Cascade(s.db, t)))
  }

  function Cascade(db: Db, t: TrackId): map<PlaylistId, Changes> {
    map p | p in db.playlists && t in db.playlists[p].slots :: map[t := None]
  }

  function Moved(m: Slots, x: int): Changes {
    map u | u in m && m[u] > x :: Some(m[u] - 1)
  }

  /** UPDATE ... SET position = position - 1 WHERE position > x. The unique index is checked at its end:
      a collision fails the statement, and with it the transaction. */
  ghost function Renumbering(s: State, o: nat): State
    requires o < |s.txs| && s.txs[o].phase.Writing? && s.txs[o].phase.rows != []
    requires s.txs[o].phase.rows[0].playlist in s.db.playlists
  {
    var tx := s.txs[o];
    var row := tx.phase.rows[0];
    var m := View(s.db, tx, row.playlist);
    if !Distinct(Shift(m, row.position)) then Dropped(s, o, Failed)
    else With(s, o, Tx(tx.cmd, Writing(tx.phase.rows[1..]), tx.holds,
                       tx.writes[row.playlist := ChangesOf(tx, row.playlist) + Moved(m, row.position)]))
  }

  ghost function Apply(lockFirst: bool, s: State, e: Event): State
    requires Enabled(lockFirst, s, e)
  {
    var tx := s.txs[e.o];
    match e
    case Touch(o) => Touching(s, o)
    case Insert(o) => InsertingRow(s, o)
    case Remove(o) => RemovingRow(s, o)
    case LockHolders(o, wanted) => With(s, o, tx.(phase := Locking(wanted)))
    case LockNext(o) => With(s, o, tx.(phase := Locking(tx.phase.wanted[1..]), holds := tx.holds + {tx.phase.wanted[0]}))
    case Read(o, rows) => With(s, o, tx.(phase := Erasing(rows)))
    case Erase(o) => ErasingTrack(s, o)
    case Renumber(o) => Renumbering(s, o)
    case Commit(o) => Answer(s.(db := Merged(s.db, tx)), o, Done)
    case Abort(o) => Dropped(s, o, Aborted)
  }

  lemma MovedIsShift(m: Slots, w: Changes, x: int)
    ensures Overlay(m, w + Moved(Overlay(m, w), x)) == Shift(Overlay(m, w), x)
  {
  }

  lemma OverlayNothing(m: Slots)
    ensures Overlay(m, map[]) == m
  {
  }

  // ---- The hypothesis on the window ----

  /** Between its lock statement and its DELETE. */
  predicate InWindow(tx: Tx, t: TrackId) {
    tx.cmd.DeleteTrack? && tx.cmd.track == t && (tx.phase.Locking? || tx.phase.Erasing?)
  }

  /** The step is not the commit of an insert of a track that some DeleteTrack is about to delete
      after having looked up which playlists to lock. */
  ghost predicate Clean(s: State, e: Event) {
    e.Commit? && e.o < |s.txs| && Inserted(s.txs[e.o]) ==>
      forall x :: 0 <= x < |s.txs| ==> !InWindow(s.txs[x], s.txs[e.o].cmd.track)
  }

  predicate Inserted(tx: Tx) {
    tx.cmd.AddTrack? && tx.writes != map[]
  }

  // ---- Runs ----

  ghost predicate Legal(lockFirst: bool, s: State, es: seq<Event>)
    decreases |es|
  {
    es == [] || (Enabled(lockFirst, s, es[0]) && Legal(lockFirst, Apply(lockFirst, s, es[0]), es[1..]))
  }

  ghost function Exec(lockFirst: bool, s: State, es: seq<Event>): State
    requires Legal(lockFirst, s, es)
    decreases |es|
  {
    if es == [] then s else Exec(lockFirst, Apply(lockFirst, s, es[0]), es[1..])
  }

  ghost predicate CleanRun(lockFirst: bool, s: State, es: seq<Event>)
    requires Legal(lockFirst, s, es)
    decreases |es|
  {
    es == [] || (Clean(s, es[0]) && CleanRun(lockFirst, Apply(lockFirst, s, es[0]), es[1..]))
  }
}
