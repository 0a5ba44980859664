/** One playlist's rows of `playlist_tracks`, track by position, and the plain list they stand for.

    The map makes (playlist, track) unique; `Distinct` is the uniqueness of (playlist, position). */
module Positions {
  import opened Storage

  type Slots = map<TrackId, int>

  ghost predicate Distinct(m: Slots) {
    forall t, u :: t in m && u in m && m[t] == m[u] ==> t == u
  }

  ghost predicate NonNegative(m: Slots) {
    forall t :: t in m ==> m[t] >= 0
  }

  ghost predicate SlotsOk(m: Slots) {
    Distinct(m) && NonNegative(m)
  }

  /** `s` is what SELECT track_id ... ORDER BY position returns. */
  ghost predicate ReadsAs(m: Slots, s: seq<TrackId>) {
    && (forall t :: t in m <==> t in s)
    && (forall i :: 0 <= i < |s| ==> s[i] in m)
    && (forall i, j :: 0 <= i < j < |s| ==> m[s[i]] < m[s[j]])
  }

  // ---- The statements ----

  ghost predicate Highest(m: Slots, t: TrackId) {
    t in m && forall u :: u in m ==> m[u] <= m[t]
  }

  lemma {:induction false} LastExists(m: Slots) returns (last: TrackId)
    requires m != map[]
    ensures Highest(m, last)
    decreases |m|
  {
    var t :| t in m;
    var rest := m - {t};
    assert m.Keys == rest.Keys + {t};
    if rest == map[] {
      last := t;
      assert forall u :: u in m ==> u == t || u in rest;
    } else {
      var r := LastExists(rest);
      last := if m[t] <= m[r] then r else t;
      forall u | u in m ensures m[u] <= m[last] {
        if u != t { assert u in rest && rest[u] <= rest[r]; }
      }
    }
  }

  /** The row with the highest position. */
  function Last(m: Slots): (t: TrackId)
    requires m != map[] && Distinct(m)
    ensures t in m && forall u :: u in m && u != t ==> m[u] < m[t]
  {
    assert exists t :: Highest(m, t) by { var t := LastExists(m); }
    var t :| t in m && forall u :: u in m ==> m[u] <= m[t];
    t
  }

  /** COALESCE(MAX(position) + 1, 0): the least position above every row's, for a playlist with rows. */
  function Top(m: Slots): (top: int)
    requires Distinct(m)
    ensures forall t :: t in m ==> m[t] < top
    ensures m == map[] ==> top == 0
    ensures m != map[] ==> exists t :: t in m && m[t] == top - 1
  {
    if m == map[] then 0 else m[Last(m)] + 1
  }

  /** INSERT ... ON CONFLICT (playlist_id, track_id) DO NOTHING. */
  function Append(m: Slots, t: TrackId): Slots
    requires Distinct(m)
  {
    if t in m then m else m[t := Top(m)]
  }

  /** UPDATE ... SET position = position - 1 WHERE position > p. */
  function Shift(m: Slots, p: int): Slots {
    map t | t in m :: if m[t] > p then m[t] - 1 else m[t]
  }

  /** DELETE ... RETURNING position, then the shift. */
  function Drop(m: Slots, t: TrackId): Slots {
    if t in m then Shift(m - {t}, m[t]) else m
  }

  /** What ON DELETE CASCADE takes, with no renumbering. */
  function Without(m: Slots, ts: set<TrackId>): Slots {
    m - ts
  }

  // ---- The list read back ----

  /** The rows in position order. */
  function Ordered(m: Slots): seq<TrackId>
    requires Distinct(m)
    decreases |m|
  {
    if m == map[] then [] else Ordered(Rest(m)) + [Last(m)]
  }

  function Rest(m: Slots): (r: Slots)
    requires m != map[] && Distinct(m)
    ensures |r| < |m| && Distinct(r)
  {
    var r := m - {Last(m)};
    assert m.Keys == r.Keys + {Last(m)};
    r
  }

  lemma {:induction false} OrderedReads(m: Slots)
    requires Distinct(m)
    ensures ReadsAs(m, Ordered(m))
    decreases |m|
  {
    if m != map[] {
      OrderedReads(Rest(m));
      AddLast(Rest(m), Ordered(Rest(m)), m, Last(m));
    }
  }

  /** Adding a row above all others adds it to the end of the list. */
  lemma AddLast(rest: Slots, s: seq<TrackId>, m: Slots, last: TrackId)
    requires ReadsAs(rest, s) && last in m && last !in rest
    requires forall t :: t in m <==> t in rest || t == last
    requires forall t :: t in rest ==> m[t] == rest[t] < m[last]
    ensures ReadsAs(m, s + [last])
  {
    var r := s + [last];
    forall t ensures t in m <==> t in r { assert t in r <==> t in s || t == last; }
  }

  lemma ReadsFront(m: Slots, s: seq<TrackId>)
    requires ReadsAs(m, s) && s != []
    ensures ReadsAs(m - {s[|s| - 1]}, s[..|s| - 1])
  {
    var n := |s| - 1;
    var rest := m - {s[n]};
    forall t ensures t in rest <==> t in s[..n] {
      if t in rest {
        var i :| 0 <= i < |s| && s[i] == t;
        assert s[..n][i] == t;
      }
      if t in s[..n] {
        var i :| 0 <= i < n && s[i] == t;
        assert m[s[i]] < m[s[n]];
      }
    }
  }

  lemma LastIsHighest(m: Slots, s: seq<TrackId>, t: TrackId)
    requires ReadsAs(m, s) && s != [] && t in m
    ensures s[|s| - 1] in m && (t == s[|s| - 1] || m[t] < m[s[|s| - 1]])
  {
    var i :| 0 <= i < |s| && s[i] == t;
  }

  lemma EmptyReads(m: Slots, s: seq<TrackId>)
    requires ReadsAs(m, s)
    ensures s == [] <==> m == map[]
  {
    assert s != [] ==> s[0] in s;
  }

  lemma LastsAgree(m: Slots, a: seq<TrackId>, b: seq<TrackId>)
    requires ReadsAs(m, a) && ReadsAs(m, b) && a != [] && b != []
    ensures a[|a| - 1] == b[|b| - 1]
  {
    LastIsHighest(m, a, b[|b| - 1]);
    LastIsHighest(m, b, a[|a| - 1]);
  }

  lemma FrontsAgree(m: Slots, a: seq<TrackId>, b: seq<TrackId>)
    requires ReadsAs(m, a) && ReadsAs(m, b) && a != [] && b != []
    ensures ReadsAs(m - {a[|a| - 1]}, a[..|a| - 1]) && ReadsAs(m - {a[|a| - 1]}, b[..|b| - 1])
  {
    LastsAgree(m, a, b);
    ReadsFront(m, a);
    ReadsFront(m, b);
  }

  lemma SameFrontAndLast(a: seq<TrackId>, b: seq<TrackId>)
    requires a != [] && b != [] && a[|a| - 1] == b[|b| - 1] && a[..|a| - 1] == b[..|b| - 1]
    ensures a == b
  {
    assert a == a[..|a| - 1] + [a[|a| - 1]] && b == b[..|b| - 1] + [b[|b| - 1]];
  }

  /** There is only one way to read rows in order. */
  lemma {:induction false} OrderIsUnique(m: Slots, a: seq<TrackId>, b: seq<TrackId>)
    requires ReadsAs(m, a) && ReadsAs(m, b)
    ensures a == b
    decreases |a|
  {
    EmptyReads(m, a);
    EmptyReads(m, b);
    if a != [] && b != [] {
      FrontsAgree(m, a, b);
      LastsAgree(m, a, b);
      OrderIsUnique(m - {a[|a| - 1]}, a[..|a| - 1], b[..|b| - 1]);
      SameFrontAndLast(a, b);
    }
  }

  lemma ReadsIsOrdered(m: Slots, s: seq<TrackId>)
    requires Distinct(m) && ReadsAs(m, s)
    ensures Ordered(m) == s
  {
    OrderedReads(m);
    OrderIsUnique(m, Ordered(m), s);
  }

  lemma {:induction false} OrderedLength(m: Slots)
    requires Distinct(m)
    ensures |Ordered(m)| == |m|
    decreases |m|
  {
    if m != map[] {
      OrderedLength(Rest(m));
      assert m.Keys == Rest(m).Keys + {Last(m)};
    }
  }

  // ---- What each statement does to the list ----

  /** The list with every track of `ts` taken out. */
  function Keep(s: seq<TrackId>, ts: set<TrackId>): seq<TrackId> {
    if s == [] then []
    else
      var n := |s| - 1;
      Keep(s[..n], ts) + (if s[n] in ts then [] else [s[n]])
  }

  /** `r` is the list at these indices, ascending: those whose track is not in `ts`. */
  ghost predicate Restricts(s: seq<TrackId>, ts: set<TrackId>, at: seq<nat>, r: seq<TrackId>) {
    && |at| == |r|
    && (forall i :: 0 <= i < |at| ==> at[i] < |s| && r[i] == s[at[i]])
    && (forall i, j :: 0 <= i < j < |at| ==> at[i] < at[j])
    && (forall n: nat :: n < |s| ==> (n in at <==> s[n] !in ts))
  }

  lemma OneMoreIsOut(front: seq<TrackId>, t: TrackId, ts: set<TrackId>, at: seq<nat>, r: seq<TrackId>)
    requires Restricts(front, ts, at, r) && t in ts
    ensures Restricts(front + [t], ts, at, r)
  {
    var s := front + [t];
    assert |front| !in at;
    forall n: nat | n < |s| ensures n in at <==> s[n] !in ts { if n < |front| { assert s[n] == front[n]; } }
  }

  lemma OneMoreStays(front: seq<TrackId>, t: TrackId, ts: set<TrackId>, at: seq<nat>, r: seq<TrackId>)
    requires Restricts(front, ts, at, r) && t !in ts
    ensures Restricts(front + [t], ts, at + [|front|], r + [t])
  {
    var s, more := front + [t], at + [|front|];
    forall n: nat | n < |s| ensures n in more <==> s[n] !in ts {
      assert n in more <==> n in at || n == |front|;
      if n < |front| { assert s[n] == front[n]; }
    }
  }

  /** Taking tracks out of a list leaves all the others, and in the order they were. */
  lemma {:induction false} KeepRestricts(s: seq<TrackId>, ts: set<TrackId>) returns (at: seq<nat>)
    ensures Restricts(s, ts, at, Keep(s, ts))
    decreases |s|
  {
    if s == [] {
      at := [];
    } else {
      var n := |s| - 1;
      at := KeepRestricts(s[..n], ts);
      assert s == s[..n] + [s[n]];
      if s[n] in ts {
        OneMoreIsOut(s[..n], s[n], ts, at, Keep(s[..n], ts));
        assert Keep(s, ts) == Keep(s[..n], ts);
      } else {
        OneMoreStays(s[..n], s[n], ts, at, Keep(s[..n], ts));
        at := at + [n];
      }
    }
  }

  /** Appending puts an absent track at the end and leaves a present one where it is. */
  lemma AppendReads(m: Slots, t: TrackId)
    requires Distinct(m)
    ensures Distinct(Append(m, t))
    ensures Ordered(Append(m, t)) == if t in m then Ordered(m) else Ordered(m) + [t]
  {
    if t !in m {
      OrderedReads(m);
      AddLast(m, Ordered(m), Append(m, t), t);
      ReadsIsOrdered(Append(m, t), Ordered(m) + [t]);
    }
  }

  lemma LastCascades(m: Slots, front: Slots, u: TrackId, ts: set<TrackId>)
    requires u in m && u in ts && front == m - {u}
    ensures Without(m, ts) == Without(front, ts)
  {
  }

  lemma LastRemains(m: Slots, front: Slots, s: seq<TrackId>, u: TrackId, ts: set<TrackId>)
    requires u in m && u !in ts && front == m - {u} && ReadsAs(Without(front, ts), s)
    requires forall t :: t in front ==> m[t] < m[u]
    ensures ReadsAs(Without(m, ts), s + [u])
  {
    AddLast(Without(front, ts), s, Without(m, ts), u);
  }

  lemma OthersAreBelow(m: Slots, s: seq<TrackId>)
    requires ReadsAs(m, s) && s != []
    ensures s[|s| - 1] in m && forall t :: t in m - {s[|s| - 1]} ==> m[t] < m[s[|s| - 1]]
  {
    forall t | t in m ensures t == s[|s| - 1] || m[t] < m[s[|s| - 1]] { LastIsHighest(m, s, t); }
  }

  lemma LastWithout(m: Slots, s: seq<TrackId>, ts: set<TrackId>)
    requires ReadsAs(m, s) && s != [] && ReadsAs(Without(m - {s[|s| - 1]}, ts), Keep(s[..|s| - 1], ts))
    ensures ReadsAs(Without(m, ts), Keep(s, ts))
  {
    var u := s[|s| - 1];
    OthersAreBelow(m, s);
    if u in ts { LastCascades(m, m - {u}, u, ts); } else { LastRemains(m, m - {u}, Keep(s[..|s| - 1], ts), u, ts); }
  }

  lemma {:induction false} WithoutReadsAs(m: Slots, s: seq<TrackId>, ts: set<TrackId>)
    requires ReadsAs(m, s)
    ensures ReadsAs(Without(m, ts), Keep(s, ts))
    decreases |s|
  {
    if s == [] {
      EmptyReads(m, s);
    } else {
      var u, front := s[|s| - 1], s[..|s| - 1];
      ReadsFront(m, s);
      WithoutReadsAs(m - {u}, front, ts);
      LastWithout(m, s, ts);
    }
  }

  /** A cascade without renumbering takes tracks out of the list and keeps the order of the rest. */
  lemma WithoutReads(m: Slots, ts: set<TrackId>)
    requires Distinct(m)
    ensures Distinct(Without(m, ts)) && Ordered(Without(m, ts)) == Keep(Ordered(m), ts)
  {
    OrderedReads(m);
    WithoutReadsAs(m, Ordered(m), ts);
    ReadsIsOrdered(Without(m, ts), Keep(Ordered(m), ts));
  }

  ghost predicate Vacant(m: Slots, p: int) {
    forall t :: t in m ==> m[t] != p
  }

  /** Closing a vacant position moves rows but not the list. */
  lemma ShiftReads(m: Slots, p: int)
    requires Distinct(m) && Vacant(m, p)
    ensures Distinct(Shift(m, p)) && Ordered(Shift(m, p)) == Ordered(m)
  {
    OrderedReads(m);
    assert ReadsAs(Shift(m, p), Ordered(m));
    ReadsIsOrdered(Shift(m, p), Ordered(m));
  }

  /** There is a row at `x` and one right behind it. */
  predicate Collision(m: Slots, x: int) {
    exists u, v :: u in m && v in m && m[u] == x && m[v] == x + 1
  }

  /** Moving rows up past `x` breaks the uniqueness of positions exactly when one runs into a row at `x`. */
  lemma CollisionNeedsTwo(m: Slots, x: int)
    requires Distinct(m)
    ensures !Distinct(Shift(m, x)) <==> Collision(m, x)
  {
    var r := Shift(m, x);
    if !Distinct(r) {
      var u, v :| u in r && v in r && r[u] == r[v] && u != v;
      assert u in m && v in m;
    }
    if u, v :| u in m && v in m && m[u] == x && m[v] == x + 1 {
      assert u in r && v in r && r[u] == r[v];
    }
  }

  /** Removing a member takes exactly it out of the list, gaps or no gaps. */
  lemma DropReads(m: Slots, t: TrackId)
    requires Distinct(m)
    ensures Distinct(Drop(m, t)) && Ordered(Drop(m, t)) == Keep(Ordered(m), {t})
  {
    if t in m {
      WithoutReads(m, {t});
      ShiftReads(m - {t}, m[t]);
    } else {
      OrderedReads(m);
      KeepAll(Ordered(m), {t});
    }
  }

  lemma {:induction false} KeepAll(s: seq<TrackId>, ts: set<TrackId>)
    requires forall t :: t in ts ==> t !in s
    ensures Keep(s, ts) == s
    decreases |s|
  {
    if s != [] {
      var front, last := s[..|s| - 1], s[|s| - 1];
      assert s == front + [last];
      assert last in s && forall t :: t in front ==> t in s;
      KeepAll(front, ts);
      assert Keep(s, ts) == Keep(front, ts) + [last];
    }
  }

  // ---- Density ----

  /** How far the positions are from 0..n-1. */
  function Gap(m: Slots): int
    requires Distinct(m)
  {
    Top(m) - |m|
  }

  ghost predicate Dense(m: Slots) {
    Distinct(m) && forall t :: t in m ==> 0 <= m[t] < |m|
  }

  lemma {:induction false} PositionsClimb(m: Slots, s: seq<TrackId>, i: nat)
    requires ReadsAs(m, s) && NonNegative(m) && i < |s|
    ensures i <= m[s[i]]
  {
    if i > 0 { PositionsClimb(m, s, i - 1); }
  }

  /** The gap is never negative, and it is zero exactly when the positions are 0..n-1. */
  lemma GapMeasuresDensity(m: Slots)
    requires SlotsOk(m)
    ensures Gap(m) >= 0 && (Gap(m) == 0 <==> Dense(m))
  {
    var s := Ordered(m);
    OrderedReads(m);
    OrderedLength(m);
    if m != map[] {
      PositionsClimb(m, s, |s| - 1);
      LastIsHighest(m, s, Last(m));
      if Gap(m) == 0 {
        forall t | t in m ensures 0 <= m[t] < |m| {}
      }
    }
  }

  /** In a dense playlist the position of a track is its index in the list. */
  lemma {:induction false} DenseIsIndex(m: Slots, s: seq<TrackId>, i: nat)
    requires SlotsOk(m) && Dense(m) && ReadsAs(m, s) && |s| == |m| && i < |s|
    ensures m[s[i]] == i
    decreases |s| - i
  {
    PositionsClimb(m, s, i);
    if i + 1 < |s| { DenseIsIndex(m, s, i + 1); }
  }

  /** In a dense playlist every position below its size has a track. */
  lemma TrackAt(m: Slots, x: int) returns (u: TrackId)
    requires SlotsOk(m) && Dense(m) && 0 <= x < |m|
    ensures u in m && m[u] == x
  {
    OrderedReads(m);
    OrderedLength(m);
    DenseIsIndex(m, Ordered(m), x);
    u := Ordered(m)[x];
  }

  lemma AppendKeepsGap(m: Slots, t: TrackId)
    requires SlotsOk(m)
    ensures SlotsOk(Append(m, t)) && Gap(Append(m, t)) == Gap(m)
  {
    if t !in m { AppendedTop(m, t, Append(m, t)); }
  }

  lemma AppendedTop(m: Slots, t: TrackId, r: Slots)
    requires SlotsOk(m) && t !in m && r == m[t := Top(m)]
    ensures SlotsOk(r) && Top(r) == Top(m) + 1 && |r| == |m| + 1
  {
    TopIsNotNegative(m);
    assert r.Keys == m.Keys + {t};
    assert r[Last(r)] == r[t];
  }

  lemma TopIsNotNegative(m: Slots)
    requires SlotsOk(m)
    ensures Top(m) >= 0
  {
  }

  lemma DropLowersTop(m: Slots, t: TrackId)
    requires Distinct(m) && t in m && Distinct(Drop(m, t)) && Drop(m, t) != map[]
    ensures Top(Drop(m, t)) < Top(m)
  {
    var u := Last(Drop(m, t));
    assert u in m && m[u] != m[t];
  }

  lemma DropSize(m: Slots, t: TrackId)
    requires t in m
    ensures |Drop(m, t)| == |m| - 1
  {
    assert Drop(m, t).Keys == m.Keys - {t};
  }

  lemma DropNeverWidensGap(m: Slots, t: TrackId)
    requires SlotsOk(m)
    ensures SlotsOk(Drop(m, t)) && Gap(Drop(m, t)) <= Gap(m)
  {
    if t in m {
      DropReads(m, t);
      DropSize(m, t);
      assert NonNegative(Drop(m, t));
      if Drop(m, t) == map[] { GapMeasuresDensity(m); } else { DropLowersTop(m, t); }
    }
  }

  /** What a cascade does to a dense playlist: it stays dense exactly when nothing that remains came
      after anything that went. */
  lemma CascadeKeepsDenseIff(m: Slots, ts: set<TrackId>)
    requires Dense(m)
    ensures Dense(Without(m, ts)) <==> forall t, u :: t in m && t in ts && u in m && u !in ts ==> m[u] < m[t]
  {
    var r := Without(m, ts);
    if Dense(r) {
      forall t, u | t in m && t in ts && u in m && u !in ts ensures m[u] < m[t] {
        assert u in r;
        BelowAreKept(m, r, t);
      }
    } else if forall t, u :: t in m && t in ts && u in m && u !in ts ==> m[u] < m[t] {
      var u :| u in r && !(0 <= m[u] < |r|);
      SuffixGone(m, ts, u);
    }
  }

  lemma BelowAreKept(m: Slots, r: Slots, t: TrackId)
    requires Dense(m) && Dense(r) && r.Keys <= m.Keys && t in m && t !in r
    requires forall u :: u in r ==> r[u] == m[u]
    ensures |r| <= m[t]
  {
    OrderedReads(r);
    OrderedLength(r);
    if m[t] < |r| { DenseIsIndex(r, Ordered(r), m[t]); }
  }

  /** The first index of the list whose track is in `ts`, or its length. */
  function FirstIn(s: seq<TrackId>, ts: set<TrackId>): (q: nat)
    ensures q <= |s| && (forall i :: 0 <= i < q ==> s[i] !in ts) && (q < |s| ==> s[q] in ts)
  {
    if s == [] then 0
    else
      var q := FirstIn(s[..|s| - 1], ts);
      if q < |s| - 1 || s[|s| - 1] in ts then q else |s|
  }

  lemma SuffixGone(m: Slots, ts: set<TrackId>, u: TrackId)
    requires Dense(m) && u in Without(m, ts)
    requires forall t, v :: t in m && t in ts && v in m && v !in ts ==> m[v] < m[t]
    ensures 0 <= m[u] < |Without(m, ts)|
  {
    var s := Ordered(m);
    OrderedReads(m);
    OrderedLength(m);
    PrefixRemains(m, ts, s, FirstIn(s, ts));
    InPrefix(m, Without(m, ts), s, FirstIn(s, ts), u);
  }

  /** What is left of a dense playlist after a cut at `q` has `q` rows, all at positions below. */
  lemma InPrefix(m: Slots, r: Slots, s: seq<TrackId>, q: nat, u: TrackId)
    requires SlotsOk(m) && Dense(m) && ReadsAs(m, s) && |s| == |m| && q <= |s|
    requires ReadsAs(r, s[..q]) && Distinct(r) && u in r
    ensures u in m && 0 <= m[u] < |r|
  {
    ReadLength(r, s[..q]);
    var i :| 0 <= i < q && s[..q][i] == u;
    assert s[i] == u && s[i] in s;
    DenseIsIndex(m, s, i);
  }

  lemma ReadLength(m: Slots, s: seq<TrackId>)
    requires Distinct(m) && ReadsAs(m, s)
    ensures |s| == |m|
  {
    OrderedLength(m);
    ReadsIsOrdered(m, s);
  }

  lemma IndexBelow(m: Slots, s: seq<TrackId>, i: nat, j: nat)
    requires ReadsAs(m, s) && i < |s| && j < |s| && m[s[i]] < m[s[j]]
    ensures i < j
  {
  }

  lemma PrefixRemains(m: Slots, ts: set<TrackId>, s: seq<TrackId>, q: nat)
    requires ReadsAs(m, s) && q == FirstIn(s, ts)
    requires forall t, v :: t in m && t in ts && v in m && v !in ts ==> m[v] < m[t]
    ensures ReadsAs(Without(m, ts), s[..q])
  {
    var r := Without(m, ts);
    forall t | t in r ensures t in s[..q] {
      var i :| 0 <= i < |s| && s[i] == t;
      if q < |s| { IndexBelow(m, s, i, q); }
      assert s[..q][i] == t;
    }
  }

  // ---- A playlist made from a list ----

  /** INSERT at position i for the i-th of the list. */
  function FromList(ids: seq<TrackId>): Slots
    decreases |ids|
  {
    if ids == [] then map[] else FromList(ids[..|ids| - 1])[ids[|ids| - 1] := |ids| - 1]
  }

  ghost predicate NoRepeats(ids: seq<TrackId>) {
    forall i, j :: 0 <= i < j < |ids| ==> ids[i] != ids[j]
  }

  ghost predicate ListsAt(m: Slots, ids: seq<TrackId>) {
    && |m| == |ids|
    && (forall t :: t in m ==> t in ids)
    && (forall i :: 0 <= i < |ids| ==> ids[i] in m && m[ids[i]] == i)
  }

  lemma ListsOneMore(m: Slots, front: seq<TrackId>, t: TrackId)
    requires ListsAt(m, front) && t !in front
    ensures ListsAt(m[t := |front|], front + [t])
  {
    assert m[t := |front|].Keys == m.Keys + {t};
    assert forall u :: u in front + [t] <==> u in front || u == t;
  }

  lemma {:induction false} FromListAt(ids: seq<TrackId>)
    requires NoRepeats(ids)
    ensures ListsAt(FromList(ids), ids)
    decreases |ids|
  {
    if ids != [] {
      var front, last := ids[..|ids| - 1], ids[|ids| - 1];
      assert forall i :: 0 <= i < |front| ==> front[i] == ids[i];
      FromListAt(front);
      ListsOneMore(FromList(front), front, last);
      assert ids == front + [last];
    }
  }

  lemma FromListReads(ids: seq<TrackId>)
    requires NoRepeats(ids)
    ensures ReadsAs(FromList(ids), ids) && Dense(FromList(ids))
  {
    FromListAt(ids);
  }

  /** Making a playlist from a list and reading it back gives the list. */
  lemma FromListRoundTrips(ids: seq<TrackId>)
    requires NoRepeats(ids)
    ensures Distinct(FromList(ids)) && Ordered(FromList(ids)) == ids && SlotsOk(FromList(ids)) && Gap(FromList(ids)) == 0
  {
    FromListReads(ids);
    ReadsIsOrdered(FromList(ids), ids);
    GapMeasuresDensity(FromList(ids));
  }
}
