/** The catalogue (Postgres rows) and the bucket (stored objects) as one transition system.

    Every request and every sweep is an in-flight operation with its own program counter; an
    `Event` is one atomic effect on either store. Everything the environment decides (which
    operation moves, an object's time stamp, whether a delete fails) is carried by the event, so
    `Apply` is a function and a run is a sequence of events. */
module Protocol {
  import opened Storage
  import opened UploadBody
  import SweepSpec

  type OpId = nat

  /** `commitWithin`: a row is committed at most this long after its object was written, or never.
      `readToCutoff`: longest delay between a sweep's catalogue read and its clock read.
      `skew`: how far the store's time stamps may stray from the sweeping host's clock. */
  datatype Params = Params(
    cap: nat, hash: Bytes -> string, grace: Time,
    commitWithin: nat, readToCutoff: nat, skew: nat, covers: seq<Key>)

  datatype Object = Object(bytes: Bytes, stamp: Time)

  datatype Row = Row(artist: ArtistId, key: Option<Key>, hash: Option<string>, format: string, size: int)

  /** The history of an object: who wrote it, when, and what was written. */
  datatype Birth = Birth(owner: OpId, putAt: Time, obj: Object)

  /** Written -> Named -> Displaced or Dropped; nothing ever moves backwards. */
  datatype Life = Written | Named | Displaced | Dropped

  datatype Refusal = RowMissing | DuplicateAudio | OtherError

  datatype Op =
    // PUT /tracks/{id}/file: row read, then object written, then row updated.
    | Reading(track: TrackId, previous: Option<Key>)
    | Storing(track: TrackId, previous: Option<Key>, key: Key, contentHash: string, format: string, fileSize: nat)
    // Objects a request still has to remove, in order; the row work is done.
    | Cleaning(keys: seq<Key>)
    // DELETE /artists/{id}, inside its transaction.
    | Deleting(artist: ArtistId, selected: set<TrackId>, todo: set<TrackId>, locked: set<TrackId>, keys: seq<Key>)
    // GET /tracks/{id}/stream: row read, then body opened.
    | Opening(key: Key, etag: Option<string>)
    | Streamed(key: Key, etag: Option<string>, body: Bytes)
    // The orphan sweep.
    | Sweep(sweep: SweepState)

  datatype SweepState =
    | Listing(expected: set<Key>, seen: seq<ObjectInfo>)
    | Listed(listing: seq<ObjectInfo>)
    | Read(listing: seq<ObjectInfo>, keys: seq<Key>, readAt: Time)
    | Removing(listing: seq<ObjectInfo>, keys: seq<Key>, cutoff: Time, left: seq<Key>, deletions: SweepSpec.Deletions)
    | Statting(listing: seq<ObjectInfo>, keys: seq<Key>, cutoff: Time, answers: seq<StatAnswer>, deletions: SweepSpec.Deletions)
    | Swept(listing: seq<ObjectInfo>, keys: seq<Key>, cutoff: Time, report: SweepSpec.Report,
            answers: seq<StatAnswer>, deletions: SweepSpec.Deletions)

  /** `locks` are row locks on tracks. `ids`, `births` and `life` are history: every track id ever
      created and every object ever written, whatever became of them since. */
  datatype State = State(
    now: Time, artists: set<ArtistId>, rows: map<TrackId, Row>, bucket: map<Key, Object>,
    ops: map<OpId, Op>, locks: map<TrackId, OpId>,
    ids: set<TrackId>, births: map<Key, Birth>, life: map<Key, Life>)

  datatype Event =
    | Tick(span: nat)
    | CreateArtist(artist: ArtistId)
    | CreateTrack(track: TrackId, artist: ArtistId, format: string, size: int)
    | BeginUpload(op: OpId, track: TrackId)
    | StoreObject(op: OpId, suffix: nat, declared: int, body: Bytes, stamp: Time)
    | RecordFile(op: OpId)
    | RefuseFile(op: OpId, why: Refusal)
    | RemoveObject(op: OpId)
    | FailRemove(op: OpId)
    | EndRequest(op: OpId)
    | DeleteTrack(op: OpId, track: TrackId)
    | SelectTracks(op: OpId, artist: ArtistId)
    | LockTrack(op: OpId, track: TrackId)
    | CascadeArtist(op: OpId)
    | RollBack(op: OpId)
    | OpenStream(op: OpId, track: TrackId)
    | FetchStream(op: OpId)
    | Crash(op: OpId)
    | BeginSweep(op: OpId)
    | SweepMoves(op: OpId, step: SweepStep)

  datatype SweepStep =
    | ListObject(key: Key)
    | EndListing
    | ReadCatalogue(keys: seq<Key>)
    | TakeCutoff(dry: bool)
    | Remove(deleted: bool)
    | EndRemoving
    | Stat(answer: StatAnswer)
    | Finish

  predicate Init(p: Params, s: State) {
    && s.artists == {} && s.rows == map[] && s.ops == map[] && s.locks == map[]
    && s.ids == {} && s.births == map[] && s.life == map[]
    && (forall k :: k in s.bucket ==> k in p.covers)
  }

  /** The only keys the catalogue holds besides those uploads record are album covers. */
  predicate Proper(p: Params) {
    forall k :: k in p.covers ==> k.Cover?
  }

  predicate NamedBy(s: State, t: TrackId, k: Key) {
    t in s.rows && s.rows[t].key == Some(k)
  }

  function NamedKeys(s: State): set<Key> {
    set t | t in s.rows && s.rows[t].key.Some? :: s.rows[t].key.value
  }

  function TracksOf(s: State, a: ArtistId): set<TrackId> {
    set t | t in s.rows && s.rows[t].artist == a
  }

  predicate HashTakenByAnother(rows: map<TrackId, Row>, t: TrackId, h: string) {
    exists u :: u in rows && u != t && rows[u].hash == Some(h)
  }

  predicate Enabled(p: Params, s: State, e: Event) {
    match e
    case Tick(_) => true
    case CreateArtist(a) => a !in s.artists
    case CreateTrack(t, a, _, _) => t !in s.ids && a in s.artists
    case BeginUpload(o, t) => o !in s.ops && t in s.rows
    case StoreObject(o, suffix, declared, body, stamp) =>
      && o in s.ops && s.ops[o].Reading?
      && s.now - p.skew <= stamp <= s.now + p.skew
      && var r := Ingest(declared, p.cap, body, Complete, p.hash);
      r.Stored? && Audio(s.ops[o].track, suffix, r.format.ext) !in s.births
    case RecordFile(o) =>
      && o in s.ops && s.ops[o].Storing? && s.ops[o].key in s.births
      && var u := s.ops[o];
      && u.track in s.rows && u.track !in s.locks
      && !HashTakenByAnother(s.rows, u.track, u.contentHash)
      && s.now <= s.births[u.key].putAt + p.commitWithin
    case RefuseFile(o, why) =>
      && o in s.ops && s.ops[o].Storing?
      && var u := s.ops[o];
      && (why.RowMissing? ==> u.track !in s.rows)
      && (why.DuplicateAudio? ==> u.track in s.rows && HashTakenByAnother(s.rows, u.track, u.contentHash))
    case RemoveObject(o) => o in s.ops && s.ops[o].Cleaning? && s.ops[o].keys != []
    case FailRemove(o) => o in s.ops && s.ops[o].Cleaning? && s.ops[o].keys != []
    case EndRequest(o) =>
      && o in s.ops
      && (s.ops[o].Reading? || s.ops[o] == Cleaning([]) || s.ops[o].Opening? || s.ops[o].Streamed?
          || (s.ops[o].Sweep? && s.ops[o].sweep.Swept?))
    case DeleteTrack(o, t) => o !in s.ops && t in s.rows && t !in s.locks
    case SelectTracks(o, _) => o !in s.ops
    case LockTrack(o, t) => o in s.ops && s.ops[o].Deleting? && t in s.ops[o].todo && t !in s.locks
    case CascadeArtist(o) =>
      && o in s.ops && s.ops[o].Deleting? && s.ops[o].todo == {} && s.ops[o].artist in s.artists
      && (forall t :: t in s.rows && s.rows[t].artist == s.ops[o].artist && t in s.locks ==> s.locks[t] == o)
    case RollBack(o) => o in s.ops && s.ops[o].Deleting?
    case OpenStream(o, t) => o !in s.ops && t in s.rows && s.rows[t].key.Some?
    case FetchStream(o) => o in s.ops && s.ops[o].Opening? && s.ops[o].key in s.bucket
    case Crash(o) => o in s.ops
    case BeginSweep(o) => o !in s.ops
    case SweepMoves(o, step) => o in s.ops && s.ops[o].Sweep? && SweepEnabled(p, s, s.ops[o].sweep, step)
  }

  predicate SweepEnabled(p: Params, s: State, w: SweepState, step: SweepStep) {
    match step
    case ListObject(k) => w.Listing? && k in s.bucket && !SweepSpec.IsListed(w.seen, k)
    case EndListing => w.Listing? && (forall k :: k in w.expected ==> k !in s.bucket)
    case ReadCatalogue(keys) => w.Listed? && multiset(keys) == multiset(NamedKeys(s))
    case TakeCutoff(_) => w.Read? && s.now - w.readAt <= p.readToCutoff
    case Remove(_) => w.Removing? && w.left != []
    case EndRemoving => w.Removing? && w.left == []
    case Stat(answer) =>
      && w.Statting?
      && var asked := SweepSpec.Unlisted(w.listing, w.keys);
      && |w.answers| < |asked|
      && (answer.Found? ==> asked[|w.answers|] in s.bucket)
      && (answer.NotFound? ==> asked[|w.answers|] !in s.bucket)
    case Finish => w.Statting? && |w.answers| == |SweepSpec.Unlisted(w.listing, w.keys)|
  }

  function WithOp(s: State, o: OpId, op: Op): State {
    s.(ops := s.ops[o := op])
  }

  /** An operation that goes away gives up the row locks it holds. */
  function WithoutOp(s: State, o: OpId): State {
    s.(ops := s.ops - {o}, locks := Released(s.locks, o))
  }

  function Released(locks: map<TrackId, OpId>, o: OpId): map<TrackId, OpId> {
    map t | t in locks && locks[t] != o :: locks[t]
  }

  function ToRemove(k: Option<Key>): seq<Key> {
    if k.Some? then [k.value] else []
  }

  function Apply(p: Params, s: State, e: Event): State
    requires Enabled(p, s, e)
  {
    match e
    case Tick(span) => s.(now := s.now + span)
    case CreateArtist(a) => s.(artists := s.artists + {a})
    case CreateTrack(t, a, format, size) =>
      s.(rows := s.rows[t := Row(a, None, None, format, size)], ids := s.ids + {t})
    case BeginUpload(o, t) => WithOp(s, o, Reading(t, s.rows[t].key))
    case StoreObject(o, suffix, declared, body, stamp) => Store(p, s, o, suffix, declared, body, stamp)
    case RecordFile(o) => Record(s, o)
    case RefuseFile(o, _) => WithOp(s, o, Cleaning([s.ops[o].key]))
    case RemoveObject(o) =>
      WithOp(s.(bucket := s.bucket - {s.ops[o].keys[0]}), o, Cleaning(s.ops[o].keys[1..]))
    case FailRemove(o) => WithOp(s, o, Cleaning(s.ops[o].keys[1..]))
    case EndRequest(o) => WithoutOp(s, o)
    case DeleteTrack(o, t) =>
      WithOp(DropRows(s, {t}), o, Cleaning(ToRemove(s.rows[t].key)))
    case SelectTracks(o, a) =>
      WithOp(s, o, Deleting(a, TracksOf(s, a), TracksOf(s, a), {}, []))
    case LockTrack(o, t) => Lock(s, o, t)
    case CascadeArtist(o) => Cascade(s, o)
    case RollBack(o) => WithoutOp(s, o)
    case OpenStream(o, t) => WithOp(s, o, Opening(s.rows[t].key.value, s.rows[t].hash))
    case FetchStream(o) =>
      WithOp(s, o, Streamed(s.ops[o].key, s.ops[o].etag, s.bucket[s.ops[o].key].bytes))
    case Crash(o) => WithoutOp(s, o)
    case BeginSweep(o) => WithOp(s, o, Sweep(Listing(s.bucket.Keys, [])))
    case SweepMoves(o, step) =>
      var w := s.ops[o].sweep;
      WithOp(SweepEffect(s, w, step), o, Sweep(SweepNext(p, s, w, step)))
  }

  /** A sweep changes nothing but the bucket, and only when a delete call succeeds. */
  function SweepEffect(s: State, w: SweepState, step: SweepStep): State {
    if step == Remove(true) && w.Removing? && w.left != [] then s.(bucket := s.bucket - {w.left[0]}) else s
  }

  function SweepNext(p: Params, s: State, w: SweepState, step: SweepStep): SweepState
    requires SweepEnabled(p, s, w, step)
  {
    match step
    case ListObject(k) => Listing(w.expected - {k}, w.seen + [ObjectInfo(k, s.bucket[k].stamp)])
    case EndListing => Listed(w.seen)
    case ReadCatalogue(keys) => Read(w.listing, keys + p.covers, s.now)
    case TakeCutoff(dry) =>
      var cutoff := s.now - p.grace;
      Removing(w.listing, w.keys, cutoff, SweepSpec.Deletes(dry, w.listing, w.keys, cutoff), SweepSpec.Deletions(dry, []))
    case Remove(deleted) =>
      w.(left := w.left[1..],
         deletions := w.deletions.(made := w.deletions.made + [SweepSpec.Removal(w.left[0], deleted)]))
    case EndRemoving => Statting(w.listing, w.keys, w.cutoff, [], w.deletions)
    case Stat(answer) => Statting(w.listing, w.keys, w.cutoff, w.answers + [answer], w.deletions)
    case Finish =>
      Swept(w.listing, w.keys, w.cutoff, SweepSpec.ReportOf(w.listing, w.keys, w.cutoff, w.answers), w.answers, w.deletions)
  }

  /** The object is written under a key drawn for this request, and nothing names it yet. */
  function Store(p: Params, s: State, o: OpId, suffix: nat, declared: int, body: Bytes, stamp: Time): State
    requires Enabled(p, s, StoreObject(o, suffix, declared, body, stamp))
  {
    var r := Ingest(declared, p.cap, body, Complete, p.hash);
    var t := s.ops[o].track;
    var k := Audio(t, suffix, r.format.ext);
    s.(bucket := s.bucket[k := Object(body, stamp)],
       births := s.births[k := Birth(o, s.now, Object(body, stamp))],
       life := s.life[k := Written],
       ops := s.ops[o := Storing(t, s.ops[o].previous, k, r.contentHash, r.format.ext[1..], r.fileSize)])
  }

  /** SetTrackFile commits: one UPDATE sets key, hash, format and size together. What is to be
      removed afterwards is the key read at the start of the request, not the one displaced here. */
  function Record(s: State, o: OpId): State
    requires o in s.ops && s.ops[o].Storing? && s.ops[o].track in s.rows
  {
    var u := s.ops[o];
    var row := s.rows[u.track];
    var displaced := if row.key.Some? then s.life[row.key.value := Displaced] else s.life;
    s.(rows := s.rows[u.track := Row(row.artist, Some(u.key), Some(u.contentHash), u.format, u.fileSize)],
       life := displaced[u.key := Named],
       ops := s.ops[o := Cleaning(if u.previous == Some(u.key) then [] else ToRemove(u.previous))])
  }

  function DropRows(s: State, ts: set<TrackId>): State {
    var gone := set t | t in ts && t in s.rows && s.rows[t].key.Some? :: s.rows[t].key.value;
    s.(rows := s.rows - ts,
       life := map k | k in s.life :: if k in gone then Dropped else s.life[k])
  }

  /** One row of SELECT ... FOR UPDATE: a row deleted since the snapshot is skipped. */
  function Lock(s: State, o: OpId, t: TrackId): State
    requires o in s.ops && s.ops[o].Deleting?
  {
    var d := s.ops[o];
    if t !in s.rows then WithOp(s, o, d.(todo := d.todo - {t}))
    else s.(locks := s.locks[t := o],
            ops := s.ops[o := d.(todo := d.todo - {t}, locked := d.locked + {t},
                                 keys := d.keys + ToRemove(s.rows[t].key))])
  }

  /** DELETE FROM artists and its cascade: every row of the artist goes, locked earlier or not. */
  function Cascade(s: State, o: OpId): State
    requires o in s.ops && s.ops[o].Deleting?
  {
    var d := s.ops[o];
    var s' := DropRows(s, TracksOf(s, d.artist));
    s'.(artists := s.artists - {d.artist},
        locks := Released(s.locks, o),
        ops := s.ops[o := Cleaning(d.keys)])
  }

  // ---- Runs ----

  predicate Legal(p: Params, s: State, es: seq<Event>)
    decreases |es|
  {
    es == [] || (Enabled(p, s, es[0]) && Legal(p, Apply(p, s, es[0]), es[1..]))
  }

  function Exec(p: Params, s: State, es: seq<Event>): State
    requires Legal(p, s, es)
    decreases |es|
  {
    if es == [] then s else Exec(p, Apply(p, s, es[0]), es[1..])
  }

  ghost predicate Reachable(p: Params, s: State) {
    exists s0, es :: Init(p, s0) && Legal(p, s0, es) && Exec(p, s0, es) == s
  }
}
