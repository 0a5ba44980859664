/** Waiting and ending. In any run a cycle of transactions that wait for each other has a DeleteTrack in it
    that is at work on a playlist it has not locked (`CyclesStray`), and so has a state in which nothing can
    move. In clean runs there is none: some transaction can always move, and `CleanStepIff` says exactly when
    it can do so cleanly. If all that is left is the commit of an
    insert inside a delete's window, the run goes on unclean: it still ends, as every run does (`RunsEnd`),
    and the tables keep their constraints (`TxTables.TablesStayValid`), but transactions may come to wait
    for each other, a delete may fail and a gap may be left, as the runs in `TxRuns` show. */
module TxProgress {
  import opened Storage
  import opened Positions
  import opened PlaylistSpec
  import opened PlaylistRepo
  import opened PlaylistTx
  import opened TxSerial
  import opened TxTables

  // ---- Who waits for whom ----

  /** The next statement of `a` needs a row lock that `b` has. */
  ghost predicate Blocks(db: Db, a: Tx, b: Tx) {
    match a.phase
    case Starting => (a.cmd.AddTrack? || a.cmd.RemoveTrack?) && a.cmd.id in db.playlists && a.cmd.id in b.holds
    case Inserting =>
      && a.cmd.AddTrack? && a.cmd.id in db.playlists && Distinct(Rows(db, a.cmd.id))
      && (Claims(b, a.cmd.id, a.cmd.track)
          || (a.cmd.track !in Rows(db, a.cmd.id)
              && (Erases(b, a.cmd.track) || PendingAt(b, a.cmd.id, Top(Rows(db, a.cmd.id))))))
    case Removing => a.cmd.RemoveTrack? && Claims(b, a.cmd.id, a.cmd.track)
    case Locking(wanted) => wanted != [] && wanted[0] in b.holds
    case Erasing(_) =>
      && a.cmd.DeleteTrack?
      && (Erases(b, a.cmd.track) || Pins(b, a.cmd.track)
          || exists p :: p in Holders(db, a.cmd.track) && Claims(b, p, a.cmd.track))
    case Writing(rows) =>
      && rows != [] && rows[0].playlist in db.playlists
      && Obstructs(b, rows[0].playlist, View(db, a, rows[0].playlist), rows[0].position)
    case _ => false
  }

  /** A renumbering of the rows `m` has to wait for what `b` has done to them. */
  ghost predicate Obstructs(b: Tx, p: PlaylistId, m: Slots, x: int) {
    || (exists u :: Concerns(m, x, u) && Claims(b, p, u))
    || (exists u :: u in m && m[u] > x && PendingAt(b, p, m[u] - 1))
  }

  ghost predicate WaitsFor(s: State, x: nat, y: nat) {
    x < |s.txs| && y < |s.txs| && x != y && Blocks(s.db, s.txs[x], s.txs[y])
  }

  // ---- What is held and changed, in any run ----

  ghost predicate HeldOk(db: Db, tx: Tx) {
    && Modelled(tx.cmd)
    && match tx.phase
       case Inserting => tx.cmd.AddTrack? && tx.cmd.id in db.playlists && tx.holds == {tx.cmd.id} && tx.writes == map[]
       case Removing => tx.cmd.RemoveTrack? && tx.cmd.id in db.playlists && tx.holds == {tx.cmd.id} && tx.writes == map[]
       case Locking(wanted) =>
         && tx.cmd.DeleteTrack? && tx.writes == map[] && Ascending(wanted)
         && forall h, p :: h in tx.holds && p in wanted ==> h < p
       case Erasing(rows) => tx.cmd.DeleteTrack? && tx.writes == map[] && Known(db, rows)
       case Writing(rows) => Known(db, rows) && (tx.cmd.DeleteTrack? || OnlyOwn(tx, rows))
       case _ => tx.holds == {} && tx.writes == map[]
  }

  ghost predicate Known(db: Db, rows: seq<Membership>) {
    forall i :: 0 <= i < |rows| ==> rows[i].playlist in db.playlists
  }

  /** An AddTrack or RemoveTrack is at work on its own playlist, which it has locked. */
  ghost predicate OnlyOwn(tx: Tx, rows: seq<Membership>)
    requires Modelled(tx.cmd) && !tx.cmd.DeleteTrack?
  {
    tx.holds == {tx.cmd.id} && tx.writes.Keys <= {tx.cmd.id} && forall i :: 0 <= i < |rows| ==> rows[i].playlist == tx.cmd.id
  }

  ghost predicate Held(s: State) {
    Apart(s) && forall x :: 0 <= x < |s.txs| ==> HeldOk(s.db, s.txs[x])
  }

  lemma LockedInOrder(tx: Tx, db: Db)
    requires HeldOk(db, tx) && tx.phase.Locking? && tx.phase.wanted != []
    ensures HeldOk(db, tx.(phase := Locking(tx.phase.wanted[1..]), holds := tx.holds + {tx.phase.wanted[0]}))
  {
    HeadIsLeast(tx.phase.wanted);
  }

  lemma MoverStaysHeld(lockFirst: bool, s: State, e: Event)
    requires Held(s) && Enabled(lockFirst, s, e)
    ensures var s' := Apply(lockFirst, s, e);
      && HeldOk(s.db, s'.txs[e.o])
      && forall p :: p in s'.txs[e.o].holds ==> p in s.txs[e.o].holds || Free(s, e.o, p)
  {
    match e {
      case LockNext(o) => LockedInOrder(s.txs[o], s.db);
      case Read(o, rows) => ReadsKnown(rows, s.db, s.txs[o].cmd.track);
      case Renumber(o) => RenumberStaysHeld(s, o);
      case Erase(o) =>
      case LockHolders(_, _) =>
      case Commit(_) =>
      case Abort(_) =>
      case _ => RowStepStaysHeld(lockFirst, s, e);
    }
  }

  lemma RowStepStaysHeld(lockFirst: bool, s: State, e: Event)
    requires Enabled(lockFirst, s, e) && HeldOk(s.db, s.txs[e.o]) && (e.Touch? || e.Insert? || e.Remove?)
    ensures var s' := Apply(lockFirst, s, e);
      && HeldOk(s.db, s'.txs[e.o])
      && forall p :: p in s'.txs[e.o].holds ==> p in s.txs[e.o].holds || Free(s, e.o, p)
  {
  }

  lemma RenumberStaysHeld(s: State, o: nat)
    requires o < |s.txs| && HeldOk(s.db, s.txs[o]) && s.txs[o].phase.Writing? && s.txs[o].phase.rows != []
    requires s.txs[o].phase.rows[0].playlist in s.db.playlists
    ensures HeldOk(s.db, Renumbering(s, o).txs[o]) && Renumbering(s, o).txs[o].holds <= s.txs[o].holds
  {
  }

  lemma ReadsKnown(rows: seq<Membership>, db: Db, t: TrackId)
    requires ListsMemberships(rows, db.playlists, t)
    ensures Known(db, rows)
  {
    forall i | 0 <= i < |rows| ensures rows[i].playlist in db.playlists { assert IsMembership(rows[i], db.playlists, t); }
  }

  lemma StepStaysHeld(lockFirst: bool, s: State, e: Event)
    requires Held(s) && Enabled(lockFirst, s, e)
    ensures Held(Apply(lockFirst, s, e))
  {
    var s' := Apply(lockFirst, s, e);
    OneMoves(lockFirst, s, e);
    MoverStaysHeld(lockFirst, s, e);
    HeldApart(s, e.o, s'.txs[e.o]);
    forall x | 0 <= x < |s'.txs| ensures HeldOk(s'.db, s'.txs[x]) { SameKeysHeld(s.db, s'.db, s'.txs[x]); }
  }

  lemma SameKeysHeld(db: Db, db': Db, tx: Tx)
    requires HeldOk(db, tx) && db'.playlists.Keys == db.playlists.Keys
    ensures HeldOk(db', tx)
  {
  }

  lemma {:induction false} RunStaysHeld(lockFirst: bool, s: State, es: seq<Event>)
    requires Held(s) && Legal(lockFirst, s, es)
    ensures Held(Exec(lockFirst, s, es))
    decreases |es|
  {
    if es != [] {
      StepStaysHeld(lockFirst, s, es[0]);
      RunStaysHeld(lockFirst, Apply(lockFirst, s, es[0]), es[1..]);
    }
  }

  lemma BeginsHeld(db: Db, cmds: seq<Command>)
    requires AllModelled(cmds)
    ensures Held(Begin(db, cmds))
  {
  }

  // ---- Who can move ----

  /** A transaction that has not ended and waits for nobody has a statement it can run. */
  lemma UnblockedMoves(lockFirst: bool, s: State, x: nat) returns (e: Event)
    requires Valid(s.db) && x < |s.txs| && HeldOk(s.db, s.txs[x]) && !Ended(s.txs[x])
    requires forall y :: !WaitsFor(s, x, y)
    ensures e.o == x && Enabled(lockFirst, s, e) && !e.Abort?
  {
    forall y | 0 <= y < |s.txs| && y != x ensures !Blocks(s.db, s.txs[x], s.txs[y]) { assert !WaitsFor(s, x, y); }
    var phase := s.txs[x].phase;
    if phase.Starting? { e := StartMoves(lockFirst, s, x); }
    else if phase.Locking? { e := LockMoves(lockFirst, s, x); }
    else if phase.Inserting? || phase.Removing? { e := RowMoves(lockFirst, s, x); }
    else { e := DeleteMoves(lockFirst, s, x); }
  }

  lemma StartMoves(lockFirst: bool, s: State, x: nat) returns (e: Event)
    requires x < |s.txs| && HeldOk(s.db, s.txs[x]) && s.txs[x].phase.Starting?
    requires forall y :: 0 <= y < |s.txs| && y != x ==> !Blocks(s.db, s.txs[x], s.txs[y])
    ensures e.o == x && Enabled(lockFirst, s, e) && !e.Abort?
  {
    if s.txs[x].cmd.DeleteTrack? {
      var wanted := InAscending(Holders(s.db, s.txs[x].cmd.track));
      e := LockHolders(x, if lockFirst then wanted else []);
    } else {
      e := Touch(x);
    }
  }

  lemma LockMoves(lockFirst: bool, s: State, x: nat) returns (e: Event)
    requires x < |s.txs| && HeldOk(s.db, s.txs[x]) && s.txs[x].phase.Locking?
    requires forall y :: 0 <= y < |s.txs| && y != x ==> !Blocks(s.db, s.txs[x], s.txs[y])
    ensures e.o == x && Enabled(lockFirst, s, e) && !e.Abort?
  {
    if s.txs[x].phase.wanted != [] {
      e := LockNext(x);
    } else {
      var rows := SomeOrder(s.db.playlists, s.txs[x].cmd.track);
      e := Read(x, rows);
    }
  }

  lemma RowMoves(lockFirst: bool, s: State, x: nat) returns (e: Event)
    requires Valid(s.db) && x < |s.txs| && HeldOk(s.db, s.txs[x]) && (s.txs[x].phase.Inserting? || s.txs[x].phase.Removing?)
    requires forall y :: 0 <= y < |s.txs| && y != x ==> !Blocks(s.db, s.txs[x], s.txs[y])
    ensures e.o == x && Enabled(lockFirst, s, e) && !e.Abort?
  {
    assert SlotsOk(Rows(s.db, s.txs[x].cmd.id));
    e := if s.txs[x].phase.Inserting? then Insert(x) else Remove(x);
  }

  lemma DeleteMoves(lockFirst: bool, s: State, x: nat) returns (e: Event)
    requires x < |s.txs| && HeldOk(s.db, s.txs[x]) && (s.txs[x].phase.Erasing? || s.txs[x].phase.Writing?)
    requires forall y :: 0 <= y < |s.txs| && y != x ==> !Blocks(s.db, s.txs[x], s.txs[y])
    ensures e.o == x && Enabled(lockFirst, s, e) && !e.Abort?
  {
    var phase := s.txs[x].phase;
    e := if phase.Erasing? then Erase(x) else if phase.rows == [] then Commit(x) else Renumber(x);
  }

  /** A statement that can run waits for nobody. */
  lemma MoversAreUnblocked(lockFirst: bool, s: State, e: Event)
    requires Enabled(lockFirst, s, e) && !e.Abort?
    ensures forall y :: !WaitsFor(s, e.o, y)
  {
  }

  lemma {:induction false} InAscending(ps: set<PlaylistId>) returns (r: seq<PlaylistId>)
    ensures Ascending(r) && forall p :: p in r <==> p in ps
    decreases ps
  {
    if ps == {} {
      r := [];
    } else {
      var top := Highest(ps);
      var rest := InAscending(ps - {top});
      r := rest + [top];
      forall p ensures p in r <==> p in ps { assert p in r <==> p in rest || p == top; }
      forall i, j | 0 <= i < j < |r| ensures r[i] < r[j] { assert r[i] == rest[i] && r[i] in ps; }
    }
  }

  lemma {:induction false} Highest(ps: set<PlaylistId>) returns (top: PlaylistId)
    requires ps != {}
    ensures top in ps && forall p :: p in ps ==> p <= top
    decreases ps
  {
    top :| top in ps;
    var rest := ps - {top};
    if rest != {} {
      var other := Highest(rest);
      forall p | p in ps ensures p <= other || p == top { assert p == top || p in rest; }
      if top < other { top := other; }
    } else {
      forall p | p in ps ensures p == top { assert p == top || p in rest; }
    }
  }

  lemma SomeOrder(playlists: map<PlaylistId, Playlist>, t: TrackId) returns (rows: seq<Membership>)
    ensures ListsMemberships(rows, playlists, t)
    decreases |playlists|
  {
    if playlists == map[] {
      rows := [];
    } else {
      var p :| p in playlists;
      var rest := playlists - {p};
      assert playlists.Keys == rest.Keys + {p};
      var others := SomeOrder(rest, t);
      rows := others;
      forall i | 0 <= i < |others| ensures IsMembership(others[i], playlists, t) { assert IsMembership(others[i], rest, t); }
      if t in playlists[p].slots {
        rows := others + [Membership(p, playlists[p].slots[t])];
        forall q | q in playlists && t in playlists[q].slots ensures Mentions(rows, q) { MentionsOneMore(others, rows, p, q); }
      }
    }
  }

  // ---- The wait-for graph ----

  /** Waiting for a playlist row, for a track row, or not at all; among the first, which row. */
  datatype Rank = OnPlaylist(id: PlaylistId) | OnTrack | Moving

  function RankOf(tx: Tx): Rank {
    match tx.phase
    case Starting => if tx.cmd.AddTrack? || tx.cmd.RemoveTrack? then OnPlaylist(tx.cmd.id) else Moving
    case Locking(wanted) => if wanted != [] then OnPlaylist(wanted[0]) else Moving
    case Inserting => OnTrack
    case Erasing(_) => OnTrack
    case _ => Moving
  }

  predicate Below(a: Rank, b: Rank) {
    match a
    case OnPlaylist(p) => b.OnPlaylist? ==> p < b.id
    case OnTrack => b.Moving?
    case Moving => false
  }

  /** A DeleteTrack that has changed rows of a playlist it has not locked, or is about to. Its list of
      playlists to lock was made before the track was inserted there. */
  ghost predicate Strays(tx: Tx) {
    && tx.cmd.DeleteTrack? && tx.phase.Writing?
    && ((exists p :: p in tx.writes && p !in tx.holds) || (tx.phase.rows != [] && tx.phase.rows[0].playlist !in tx.holds))
  }

  /** Rows are locked in ascending order, and track rows after all of them: whoever waits stands lower
      than whom it waits for, unless one of the two strays. */
  lemma WaitingClimbsOrStrays(s: State, x: nat, y: nat)
    requires Held(s) && WaitsFor(s, x, y) && !Strays(s.txs[x]) && !Strays(s.txs[y])
    ensures Below(RankOf(s.txs[x]), RankOf(s.txs[y])) && !Ended(s.txs[y])
  {
    var a, b := s.txs[x], s.txs[y];
    assert HeldOk(s.db, a) && HeldOk(s.db, b) && a.holds !! b.holds;
    forall p | p in b.writes ensures p in b.holds && p !in a.holds { WritesAreLocked(s.db, b, p); }
    match a.phase
    case Starting => HolderRank(s.db, b, a.cmd.id);
    case Locking(wanted) => HolderRank(s.db, b, wanted[0]);
    case _ =>
  }

  lemma WritesAreLocked(db: Db, tx: Tx, p: PlaylistId)
    requires HeldOk(db, tx) && !Strays(tx) && p in tx.writes
    ensures p in tx.holds
  {
  }

  lemma HolderRank(db: Db, b: Tx, p: PlaylistId)
    requires HeldOk(db, b) && p in b.holds
    ensures Below(OnPlaylist(p), RankOf(b)) && !Ended(b)
  {
    if b.phase.Locking? && b.phase.wanted != [] { assert b.phase.wanted[0] in b.phase.wanted; }
  }

  /** In a clean run every playlist at work on is locked. */
  lemma CleanIsHeld(s: State)
    requires Inv(s)
    ensures Held(s) && forall x :: 0 <= x < |s.txs| ==> !Strays(s.txs[x])
  {
    forall x | 0 <= x < |s.txs| ensures HeldOk(s.db, s.txs[x]) && !Strays(s.txs[x]) { CleanTxIsHeld(s.db, s.txs[x]); }
  }

  lemma CleanTxIsHeld(db: Db, tx: Tx)
    requires TxOk(db, tx)
    ensures HeldOk(db, tx) && !Strays(tx)
  {
    if tx.cmd.DeleteTrack? && (tx.phase.Erasing? || tx.phase.Writing?) { RowsAreHolders(db, tx); }
  }

  lemma RowsAreHolders(db: Db, tx: Tx)
    requires TxOk(db, tx) && tx.cmd.DeleteTrack? && (tx.phase.Erasing? || tx.phase.Writing?)
    ensures Known(db, tx.phase.rows) && forall i :: 0 <= i < |tx.phase.rows| ==> tx.phase.rows[i].playlist in tx.holds
  {
    var rows := tx.phase.rows;
    forall i | 0 <= i < |rows| ensures rows[i].playlist in db.playlists && rows[i].playlist in tx.holds {
      assert IsMembership(rows[i], db.playlists, tx.cmd.track);
      assert rows[i].playlist in Holders(db, tx.cmd.track);
    }
  }

  lemma NextRowIsHeld(db: Db, a: Tx)
    requires TxOk(db, a) && a.phase.Writing? && a.phase.rows != []
    ensures a.phase.rows[0].playlist in a.holds && a.phase.rows[0].playlist in db.playlists
  {
    if a.cmd.DeleteTrack? { RowsAreHolders(db, a); }
  }

  lemma WaitingClimbs(s: State, x: nat, y: nat)
    requires Inv(s) && WaitsFor(s, x, y)
    ensures Below(RankOf(s.txs[x]), RankOf(s.txs[y])) && !Ended(s.txs[y])
  {
    CleanIsHeld(s);
    WaitingClimbsOrStrays(s, x, y);
  }

  ghost predicate WaitPath(s: State, path: seq<nat>) {
    forall i :: 0 <= i < |path| - 1 ==> WaitsFor(s, path[i], path[i + 1])
  }

  ghost predicate NoneStrays(s: State, path: seq<nat>) {
    forall i :: 0 <= i < |path| && path[i] < |s.txs| ==> !Strays(s.txs[path[i]])
  }

  lemma {:induction false} PathsClimb(s: State, path: seq<nat>)
    requires Held(s) && |path| >= 2 && WaitPath(s, path) && NoneStrays(s, path)
    ensures path[0] < |s.txs| && path[|path| - 1] < |s.txs|
    ensures Below(RankOf(s.txs[path[0]]), RankOf(s.txs[path[|path| - 1]]))
    decreases |path|
  {
    var n := |path| - 2;
    assert WaitsFor(s, path[n], path[n + 1]);
    WaitingClimbsOrStrays(s, path[n], path[n + 1]);
    if n > 0 { PathsClimb(s, path[..n + 1]); }
  }

  /** In any run, clean or not, with the lock statement or without it: every cycle of transactions that wait
      for each other has a DeleteTrack in it at work on a playlist it has not locked. */
  lemma CyclesStray(lockFirst: bool, db: Db, cmds: seq<Command>, es: seq<Event>, s: State, path: seq<nat>)
    requires AllModelled(cmds) && Legal(lockFirst, Begin(db, cmds), es) && Exec(lockFirst, Begin(db, cmds), es) == s
    requires |path| >= 2 && WaitPath(s, path) && path[0] == path[|path| - 1]
    ensures exists i :: 0 <= i < |path| && path[i] < |s.txs| && Strays(s.txs[path[i]])
  {
    BeginsHeld(db, cmds);
    RunStaysHeld(lockFirst, Begin(db, cmds), es);
    if NoneStrays(s, path) { PathsClimb(s, path); }
  }

  /** Deadlock freedom: in no state that a clean run reaches does following who waits for whom ever
      come back to where it began. */
  lemma NoDeadlock(db: Db, cmds: seq<Command>, s: State, path: seq<nat>)
    requires Valid(db) && AllModelled(cmds) && ReachedCleanly(db, cmds, s)
    requires |path| >= 2 && WaitPath(s, path)
    ensures path[0] != path[|path| - 1]
  {
    ReachedIsGood(db, cmds, s, 0);
    CleanIsHeld(s);
    PathsClimb(s, path);
  }

  /** A transaction that waits leads to one that does not. */
  lemma {:induction false} SomeoneIsUnblocked(s: State, x: nat, tried: set<nat>) returns (y: nat)
    requires Held(s) && (forall z :: 0 <= z < |s.txs| ==> !Strays(s.txs[z])) && x < |s.txs| && !Ended(s.txs[x])
    requires forall z :: z in tried ==> z < |s.txs| && Below(RankOf(s.txs[z]), RankOf(s.txs[x]))
    ensures y < |s.txs| && !Ended(s.txs[y]) && forall z :: !WaitsFor(s, y, z)
    decreases |s.txs| - |tried|
  {
    if z :| WaitsFor(s, x, z) {
      WaitingClimbsOrStrays(s, x, z);
      assert x !in tried;
      Bounded(tried + {x}, |s.txs|);
      y := SomeoneIsUnblocked(s, z, tried + {x});
    } else {
      y := x;
    }
  }

  lemma {:induction false} Bounded(xs: set<nat>, n: nat)
    requires forall x :: x in xs ==> x < n
    ensures |xs| <= n
    decreases n
  {
    if n > 0 {
      var rest := xs - {n - 1};
      Bounded(rest, n - 1);
      assert xs <= rest + {n - 1};
      Cardinality(xs, rest + {n - 1});
    }
  }

  lemma {:induction false} Cardinality(a: set<nat>, b: set<nat>)
    requires a <= b
    ensures |a| <= |b|
    decreases a
  {
    if a != {} {
      var x :| x in a;
      Cardinality(a - {x}, b - {x});
    }
  }

  ghost predicate Unfinished(s: State) {
    exists x :: 0 <= x < |s.txs| && !Ended(s.txs[x])
  }

  /** Progress: in every state a clean run reaches, if some transaction has not ended, one can move. The
      move may be the commit that ends the clean part of the run; `CleanStepIff` says when it is not. */
  lemma CleanRunsMove(db: Db, cmds: seq<Command>, s: State) returns (e: Event)
    requires Valid(db) && AllModelled(cmds) && ReachedCleanly(db, cmds, s) && Unfinished(s)
    ensures Enabled(true, s, e) && !e.Abort?
  {
    ReachedIsGood(db, cmds, s, 0);
    CleanIsHeld(s);
    var x: nat :| x < |s.txs| && !Ended(s.txs[x]);
    var y := SomeoneIsUnblocked(s, x, {});
    e := UnblockedMoves(true, s, y);
  }

  /** In any run: where nothing but an abort can move and not all have ended, a DeleteTrack is at work on a
      playlist it has not locked. */
  lemma StuckRunsStray(lockFirst: bool, db: Db, cmds: seq<Command>, es: seq<Event>, s: State)
    requires Valid(db) && AllModelled(cmds) && Legal(lockFirst, Begin(db, cmds), es) && Exec(lockFirst, Begin(db, cmds), es) == s
    requires Unfinished(s) && forall e :: Enabled(lockFirst, s, e) ==> e.Abort?
    ensures exists x :: 0 <= x < |s.txs| && Strays(s.txs[x])
  {
    BeginsHeld(db, cmds);
    RunStaysHeld(lockFirst, Begin(db, cmds), es);
    TablesStayValid(lockFirst, db, cmds, es);
    if forall x :: 0 <= x < |s.txs| ==> !Strays(s.txs[x]) {
      var x: nat :| x < |s.txs| && !Ended(s.txs[x]);
      var y := SomeoneIsUnblocked(s, x, {});
      var e := UnblockedMoves(lockFirst, s, y);
      assert false;
    }
  }

  /** The transaction is about to commit an insert of a track that some DeleteTrack is about to delete
      after having looked up which playlists to lock. */
  ghost predicate AtWindow(s: State, x: nat)
    requires x < |s.txs|
  {
    && s.txs[x].phase == Writing([]) && Inserted(s.txs[x])
    && exists y :: 0 <= y < |s.txs| && InWindow(s.txs[y], s.txs[x].cmd.track)
  }

  /** The hypothesis of clean runs, written out: the only unclean steps are commits of an AddTrack that has
      inserted a track which a DeleteTrack, past the start of its lock statement and short of its DELETE, is
      about to delete. */
  lemma UncleanIff(lockFirst: bool, s: State, e: Event)
    requires Enabled(lockFirst, s, e)
    ensures !Clean(s, e) <==>
              && e.Commit? && s.txs[e.o].cmd.AddTrack? && s.txs[e.o].writes != map[]
              && exists x :: 0 <= x < |s.txs| && s.txs[x].cmd == DeleteTrack(s.txs[e.o].cmd.track)
                             && (s.txs[x].phase.Locking? || s.txs[x].phase.Erasing?)
  {
  }

  ghost predicate CanMoveCleanly(s: State) {
    exists e :: Enabled(true, s, e) && !e.Abort? && Clean(s, e)
  }

  predicate IsUnfinished(s: State, x: nat) {
    x < |s.txs| && !Ended(s.txs[x])
  }

  ghost predicate FreeToMove(s: State, x: nat) {
    IsUnfinished(s, x) && (forall y :: !WaitsFor(s, x, y)) && !AtWindow(s, x)
  }

  lemma CleanMoverIsFree(s: State, e: Event)
    requires Enabled(true, s, e) && !e.Abort? && Clean(s, e)
    ensures FreeToMove(s, e.o)
  {
    MoversAreUnblocked(true, s, e);
  }

  lemma FreeMovesCleanly(s: State, x: nat) returns (e: Event)
    requires Inv(s) && FreeToMove(s, x)
    ensures Enabled(true, s, e) && !e.Abort? && Clean(s, e)
  {
    CleanIsHeld(s);
    e := UnblockedMoves(true, s, x);
  }

  /** Exactly when a clean run can go on with a step that is itself clean: when some unfinished
      transaction waits for nobody and is not at such a commit. A clean run that cannot has only such
      commits, and transactions that wait, left. */
  lemma CleanStepIff(db: Db, cmds: seq<Command>, s: State)
    requires Valid(db) && AllModelled(cmds) && ReachedCleanly(db, cmds, s)
    ensures CanMoveCleanly(s) <==> exists x :: FreeToMove(s, x)
  {
    ReachedIsGood(db, cmds, s, 0);
    if CanMoveCleanly(s) {
      var e :| Enabled(true, s, e) && !e.Abort? && Clean(s, e);
      CleanMoverIsFree(s, e);
    }
    if x :| FreeToMove(s, x) {
      var e := FreeMovesCleanly(s, x);
    }
  }

  // ---- Every run ends ----

  /** How many statements a transaction has left at most, on `n` playlists. */
  function Left(tx: Tx, n: nat): nat {
    match tx.phase
    case Starting => 2 * n + 6
    case Inserting => 2
    case Removing => 3
    case Locking(wanted) => |wanted| + n + 4
    case Erasing(rows) => |rows| + 2
    case Writing(rows) => |rows| + 1
    case _ => 0
  }

  function Total(txs: seq<Tx>, n: nat): nat {
    if txs == [] then 0 else Left(txs[0], n) + Total(txs[1..], n)
  }

  lemma {:induction false} TotalFalls(txs: seq<Tx>, o: nat, tx: Tx, n: nat)
    requires o < |txs| && Left(tx, n) < Left(txs[o], n)
    ensures Total(txs[o := tx], n) < Total(txs, n)
    decreases |txs|
  {
    if o == 0 {
      assert txs[o := tx][1..] == txs[1..];
    } else {
      TotalFalls(txs[1..], o - 1, tx, n);
      assert txs[o := tx][1..] == txs[1..][o - 1 := tx];
    }
  }

  lemma {:induction false} DistinctFit(ps: seq<PlaylistId>, all: set<PlaylistId>)
    requires forall i :: 0 <= i < |ps| ==> ps[i] in all
    requires forall i, j :: 0 <= i < j < |ps| ==> ps[i] != ps[j]
    ensures |ps| <= |all|
    decreases |ps|
  {
    if ps != [] {
      var n := |ps| - 1;
      DistinctFit(ps[..n], all - {ps[n]});
    }
  }

  lemma MembershipsFit(rows: seq<Membership>, playlists: map<PlaylistId, Playlist>, t: TrackId)
    requires ListsMemberships(rows, playlists, t)
    ensures |rows| <= |playlists|
  {
    var ps := seq(|rows|, i requires 0 <= i < |rows| => rows[i].playlist);
    forall i | 0 <= i < |ps| ensures ps[i] in playlists.Keys { assert IsMembership(rows[i], playlists, t); }
    DistinctFit(ps, playlists.Keys);
  }

  lemma HoldersFit(wanted: seq<PlaylistId>, db: Db, t: TrackId)
    requires Ascending(wanted) && forall p :: p in wanted ==> p in Holders(db, t)
    ensures |wanted| <= |db.playlists|
  {
    forall i | 0 <= i < |wanted| ensures wanted[i] in db.playlists.Keys { assert wanted[i] in Holders(db, t); }
    DistinctFit(wanted, db.playlists.Keys);
  }

  lemma OneMoves(lockFirst: bool, s: State, e: Event)
    requires Enabled(lockFirst, s, e)
    ensures var s' := Apply(lockFirst, s, e);
            && |s'.txs| == |s.txs| && s'.txs == s.txs[e.o := s'.txs[e.o]]
            && s'.db.playlists.Keys == s.db.playlists.Keys
  {
    assert s.txs[e.o := s.txs[e.o]] == s.txs;
  }

  lemma MoverHasLess(lockFirst: bool, s: State, e: Event)
    requires Enabled(lockFirst, s, e) && |Apply(lockFirst, s, e).txs| == |s.txs|
    ensures Left(Apply(lockFirst, s, e).txs[e.o], |s.db.playlists|) < Left(s.txs[e.o], |s.db.playlists|)
  {
    match e {
      case LockHolders(o, wanted) => if lockFirst { HoldersFit(wanted, s.db, s.txs[o].cmd.track); }
      case Read(o, rows) => MembershipsFit(rows, s.db.playlists, s.txs[o].cmd.track);
      case _ =>
    }
  }

  /** Every step, clean or not, locks issued or not, leaves less to do. */
  lemma StepsUseUp(lockFirst: bool, s: State, e: Event)
    requires Enabled(lockFirst, s, e)
    ensures |Apply(lockFirst, s, e).db.playlists| == |s.db.playlists|
    ensures Total(Apply(lockFirst, s, e).txs, |s.db.playlists|) < Total(s.txs, |s.db.playlists|)
  {
    var s' := Apply(lockFirst, s, e);
    OneMoves(lockFirst, s, e);
    MoverHasLess(lockFirst, s, e);
    TotalFalls(s.txs, e.o, s'.txs[e.o], |s.db.playlists|);
    SameSize(s.db.playlists, s'.db.playlists);
  }

  lemma SameSize(a: map<PlaylistId, Playlist>, b: map<PlaylistId, Playlist>)
    requires a.Keys == b.Keys
    ensures |a| == |b|
  {
    assert |a| == |a.Keys| && |b| == |b.Keys|;
  }

  /** No run has more steps than there was to do at its start. */
  lemma {:induction false} RunsEnd(lockFirst: bool, s: State, es: seq<Event>)
    requires Legal(lockFirst, s, es)
    ensures |es| <= Total(s.txs, |s.db.playlists|)
    decreases |es|
  {
    if es != [] {
      StepsUseUp(lockFirst, s, es[0]);
      RunsEnd(lockFirst, Apply(lockFirst, s, es[0]), es[1..]);
    }
  }

  // ---- The serial order agrees with the lock order ----

  /** Waiting lasts until the one waited for has ended or the waiter is aborted. */
  lemma WaitLasts(s: State, e: Event, x: nat, y: nat)
    requires Inv(s) && WaitsFor(s, x, y) && Enabled(true, s, e)
    ensures var s' := Apply(true, s, e);
            WaitsFor(s', x, y) || Ended(s'.txs[y]) || s'.txs[x].phase.Aborted?
  {
    if e.o == x {
      if !e.Abort? { MoversAreUnblocked(true, s, e); }
    } else if e.o == y {
      OwnerMoves(s, e, x);
    } else if e.Commit? {
      CommitLeavesBlocked(s, e.o, x, y);
    } else {
      ThirdMoves(s, e, x, y);
    }
  }

  lemma OwnerMoves(s: State, e: Event, x: nat)
    requires Inv(s) && WaitsFor(s, x, e.o) && Enabled(true, s, e)
    ensures WaitsFor(Apply(true, s, e), x, e.o) || Ended(Apply(true, s, e).txs[e.o])
  {
    var a, b, b' := s.txs[x], s.txs[e.o], Apply(true, s, e).txs[e.o];
    if !Ended(b') {
      KeepsBlocking(s, e, x);
      assert a.holds !! b.holds && TxOk(s.db, a) && TxOk(s.db, b);
      StillBlocked(s.db, a, b, b');
    }
  }

  lemma ThirdMoves(s: State, e: Event, x: nat, y: nat)
    requires WaitsFor(s, x, y) && Enabled(true, s, e) && !e.Commit? && e.o != x && e.o != y
    ensures WaitsFor(Apply(true, s, e), x, y)
  {
  }

  /** Where rows are waited for, the order of the locks has it that it is a playlist or a track row. */
  lemma StillBlocked(db: Db, a: Tx, b: Tx, b': Tx)
    requires Blocks(db, a, b) && TxOk(db, a) && TxOk(db, b) && a.holds !! b.holds && b.holds <= b'.holds
    requires forall t :: (Erases(b, t) ==> Erases(b', t)) && (Pins(b, t) ==> Pins(b', t))
    ensures Blocks(db, a, b')
  {
    forall p | p in b.writes ensures p !in a.holds { WritesAreHeld(db, b, p); }
    if a.phase.Writing? && a.phase.rows != [] { NextRowIsHeld(db, a); }
  }

  lemma CommitLeavesBlocked(s: State, o: nat, x: nat, y: nat)
    requires Inv(s) && WaitsFor(s, x, y) && Enabled(true, s, Commit(o)) && o != x && o != y
    ensures WaitsFor(Apply(true, s, Commit(o)), x, y)
  {
    var a, b := s.txs[x], s.txs[y];
    assert TxOk(s.db, a) && TxOk(s.db, b) && TxOk(s.db, s.txs[o]) && a.holds !! b.holds;
    forall p | p in b.writes ensures p !in a.holds { WritesAreHeld(s.db, b, p); }
    if a.phase.Inserting? { HeldRowsStay(s.db, s.txs[o], a, a.cmd.id); }
    if a.phase.Writing? && a.phase.rows != [] { NextRowIsHeld(s.db, a); }
  }

  /** Until it ends, a transaction keeps the rows it holds and the track rows it has locked. */
  lemma KeepsBlocking(s: State, e: Event, x: nat)
    requires Inv(s) && Enabled(true, s, e) && x < |s.txs| && e.o != x
    ensures var b, b' := s.txs[e.o], Apply(true, s, e).txs[e.o];
            !Ended(b') ==> b.holds <= b'.holds && (forall t :: (Erases(b, t) ==> Erases(b', t)) && (Pins(b, t) ==> Pins(b', t)))
  {
    assert TxOk(s.db, s.txs[e.o]);
  }

  ghost predicate Before(order: seq<nat>, y: nat, x: nat) {
    forall j :: 0 <= j < |order| && order[j] == x ==> y in order[..j]
  }

  /** Where a wait leads: it goes on, or the waiter is aborted, or the other ended first. */
  ghost predicate Follows(s: State, x: nat, y: nat)
    requires x < |s.txs| && y < |s.txs|
  {
    || WaitsFor(s, x, y)
    || s.txs[x].phase.Aborted?
    || (Ended(s.txs[y]) && (s.txs[y].phase.Finished? ==> Before(s.order, y, x)))
  }

  lemma StepFollows(cmds: seq<Command>, s: State, e: Event, x: nat, y: nat)
    requires Inv(s) && SameRequests(cmds, s) && OrderIsWho(s) && Enabled(true, s, e)
    requires x < |s.txs| && y < |s.txs| && x != y && Follows(s, x, y)
    ensures |Apply(true, s, e).txs| == |s.txs| && Follows(Apply(true, s, e), x, y)
  {
    var s' := Apply(true, s, e);
    StepKeepsRequests(true, cmds, s, e);
    if WaitsFor(s, x, y) {
      WaiterFollows(s, e, x, y);
    } else if !s.txs[x].phase.Aborted? && s.txs[y].phase.Finished? && s'.order != s.order {
      OneLater(s.order, y, x, e.o);
    }
  }

  lemma WaiterFollows(s: State, e: Event, x: nat, y: nat)
    requires Inv(s) && OrderIsWho(s) && Enabled(true, s, e) && x < |s.txs| && y < |s.txs| && x != y && WaitsFor(s, x, y)
    requires |Apply(true, s, e).txs| == |s.txs|
    ensures Follows(Apply(true, s, e), x, y)
  {
    var s' := Apply(true, s, e);
    WaitLasts(s, e, x, y);
    assert !s.txs[x].phase.Finished? && x !in s.order;
    if Ended(s'.txs[y]) && !s'.txs[x].phase.Aborted? { NotYetAnswered(s, e, x, y); }
  }

  lemma NotYetAnswered(s: State, e: Event, x: nat, y: nat)
    requires Inv(s) && WaitsFor(s, x, y) && Enabled(true, s, e) && x !in s.order
    requires !Apply(true, s, e).txs[x].phase.Aborted?
    ensures Before(Apply(true, s, e).order, y, x)
  {
    if e.o == x { MoversAreUnblocked(true, s, e); }
    assert x !in s.order + [e.o];
  }

  lemma OneLater(order: seq<nat>, y: nat, x: nat, o: nat)
    requires Before(order, y, x) && y in order
    ensures Before(order + [o], y, x)
  {
    var all := order + [o];
    forall j | 0 <= j < |all| && all[j] == x ensures y in all[..j] {
      assert j < |order| ==> all[..j] == order[..j];
      assert all[..|order|] == order;
    }
  }

  lemma {:induction false} RunFollows(db: Db, cmds: seq<Command>, s: State, es: seq<Event>, x: nat, y: nat)
    requires Valid(db) && Good(db, cmds, s, 0) && Legal(true, s, es) && CleanRun(true, s, es)
    requires x < |s.txs| && y < |s.txs| && x != y && Follows(s, x, y)
    ensures |Exec(true, s, es).txs| == |s.txs| && Follows(Exec(true, s, es), x, y)
    decreases |es|
  {
    if es != [] {
      StepStaysGood(db, cmds, s, es[0], 0);
      StepFollows(cmds, s, es[0], x, y);
      RunFollows(db, cmds, Apply(true, s, es[0]), es[1..], x, y);
    }
  }

  /** The serial order is the lock order: whenever one transaction waits for another's row lock in a
      state that a clean run reaches, then however the run goes on, by the time the first has answered
      the other has ended, and if it answered it did so before. */
  lemma SerialOrderFollowsLocks(db: Db, cmds: seq<Command>, s: State, more: seq<Event>, x: nat, y: nat)
    requires Valid(db) && AllModelled(cmds) && ReachedCleanly(db, cmds, s)
    requires WaitsFor(s, x, y) && Legal(true, s, more) && CleanRun(true, s, more)
    ensures x < |Exec(true, s, more).txs| && y < |Exec(true, s, more).txs|
    ensures EndedBefore(Exec(true, s, more), x, y)
  {
    ReachedIsGood(db, cmds, s, 0);
    RunFollows(db, cmds, s, more, x, y);
    FollowsIsBefore(Exec(true, s, more), x, y);
  }

  ghost predicate EndedBefore(s: State, x: nat, y: nat)
    requires x < |s.txs| && y < |s.txs|
  {
    s.txs[x].phase.Finished? ==>
      Ended(s.txs[y]) && (s.txs[y].phase.Finished? ==> Before(s.order, y, x))
  }

  lemma FollowsIsBefore(s: State, x: nat, y: nat)
    requires x < |s.txs| && y < |s.txs| && Follows(s, x, y)
    ensures EndedBefore(s, x, y)
  {
  }
}
