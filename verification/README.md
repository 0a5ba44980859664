# Mydal: verified model

Mydal is a music server that keeps its catalogue in Postgres and its audio in a MinIO bucket, with no
transaction across the two. This project models the three places where it relies on an argument rather
than on a library, and proves those arguments in Dafny 4.11 (`dafny verify dfyconfig.toml`).

**The catalogue and the bucket.** Uploads, re-uploads, track deletes, artist deletes, readers and the
orphan sweep are in-flight operations of one transition system (`Protocol`). An event is one atomic
effect on one store, a clock tick, a crash or a failed delete; a run is any legal sequence of events, so
every theorem about reachable states speaks about every interleaving of any number of operations. Keys
are fresh for each upload, so an object has a one-way life (written, named by a row, displaced or
dropped) on which the inductive invariant (`ProtocolInvariant.Core`) rests. On it stand: no row ever
dangles, with the timing bound shown exact; an exact law of which events leak an object; the metadata,
ETag and duplicate guarantees; that a refused upload can be erased from any run (`RefusedUploads`); the
artist delete against late uploads; recovery by one quiet sweep. The
programs themselves (`OrphanSweep`, `SweepCommand`, `UploadReader`, `Server`) are methods with the loops
and in-place state of the source, and `SweepCommand` and `ServerRuns` tie them to the transition system,
call by call for the sweep.

**Playlist positions.** A playlist is a table of positions (`Positions`) and, read back, a plain list. The
repository methods (`PlaylistRepo`) are transactions over the tables, proved against `PlaylistSpec.Run`,
which refines the same requests on plain lists whatever gaps the positions have. Then AddTrack,
RemoveTrack and DeleteTrack interleave one statement at a time under READ COMMITTED, with locks on
playlist rows, membership rows and index entries (`PlaylistTx`). In every run the tables keep their
constraints (`TxTables`) and the run ends. In runs where no insert of a track commits between a
DeleteTrack's lock statement and its DELETE ("clean" runs), answers are serial, positions stay dense, no
statement is refused and the wait-for graph has no cycle (`TxSerial`, `TxProgress`);
`TxProgress.CleanStepIff` says exactly when a clean run can go on cleanly. After an insert in the window
none of these four is promised, and `TxRuns` has a run against each. What does hold in every run:
`TxDensity` says exactly which commits keep the playlists dense and which do what their request does alone,
`TxTables.FailsIffCollides` exactly which statements are refused, and every wait-for cycle has a DeleteTrack
in it at work on a playlist it has not locked (`TxProgress.CyclesStray`). `TxWindow` traces one delete back
to the positions it read.

**The response writers.** The status recorder, the panic guard and the mux-error rewriter wrap one
connection (`ResponseStack`); `ResponseSpec` proves what they do for any sequence of handler calls
against what the handler alone would have sent.

## Results that differ from the comments in the source

- The grace comments (`internal/gc/gc.go:65-68`, `cmd/server/main.go:54-60`) ask the grace window to exceed
  the upload's read timeout. What matters is the delay from the object's time stamp to the row's commit,
  plus the sweep's own delay between catalogue read and clock read, plus the clocks' disagreement:
  `SweepBound.BoundIsExact` says no row ever dangles exactly when their sum is below the window. The
  listing's duration does not enter. The code does not bound the commit delay once the body has arrived.
- `internal/repository/artistrepo.go:54-55` says no upload's key can be missed. That holds for tracks that
  exist at the SELECT (`Coherence.CascadeCollectsEveryKey`); a track created and uploaded to after it goes
  with the cascade and its object is stranded (`LeakRuns.UnseenTrackStrandsAnObject`).
- `internal/api/handlers/trackhandler.go:213-216` says a re-upload can only orphan an object; two that
  overlap do so with no failure at all (`LeakRuns.ConcurrentUploadsStrandAnObject`).
- `internal/repository/playlistrepo.go:104-105` and `internal/repository/trackrepo.go:85-102` promise dense
  positions. An artist delete loses density exactly when it takes a track from before a remaining one
  (`PlaylistSpec.DenseIffNoGapOpened`). A track delete can do so when an insert of the track commits after
  its lock statement: the playlist is then not listed (`TxRuns.InsertInTheWindowLeavesAGap`), or listed but
  not locked, with a position that goes stale (`TxRuns.StaleReadLeavesAGap`), or the track is last at the
  DELETE and an AddTrack commits a row behind it before the delete does
  (`TxRuns.AddBehindTheDeleteLeavesAGap`). Or the delete commits first and that AddTrack's commit opens the
  gap (`TxRuns.DeleteBeforeTheAddLeavesAGap`). In every run, a commit keeps dense tables dense if and only if
  it inserts at the number of rows there are, or has moved every row behind the track it takes out
  (`TxDensity.CommitsStayDenseIff`).
- `internal/repository/trackrepo.go:98-99` says the unique constraint on positions would not complain. It
  would: a stale renumbering that moves one row onto another is refused, and the delete answers an internal
  error (`TxRuns.TrackDeleteCanFail`, exactly when: `TxTables.FailsIffCollides`, `TxWindow.BumpsIff`).
- `internal/repository/trackrepo.go:99-100` says locking in id order rules out a deadlock of two deletes.
  After inserts in their windows, each can wait in its renumbering for a row the other has deleted
  (`TxRuns.InsertsInTheWindowDeadlock`).
- `internal/repository/playlistrepo.go:19-36` reads a playlist and its tracks in two statements with no
  transaction: a playlist deleted in between is answered as an empty one, not as missing
  (`PlaylistRepo.Repository.GetPlaylistById`).
- `internal/api/handlers/trackhandler.go:144` lets an unexpected end of a short body pass as an end, so an
  upload cut off before 512 bytes that is empty or not audio is answered 400, not 500
  (`UploadReader.ReadHead`).
- `internal/repository/trackrepo.go:100-102` wants a client that uses `updated_at` as a change marker to see
  catalogue deletes; an artist delete changes playlists without stamping them
  (`PlaylistSpec.ArtistDeleteChangesUnstamped`).
- `internal/api/router.go:104-112` promises one JSON body in place of the mux's plain text. The client gets
  that if and only if nothing else was sent before and no later status meets the test on the header fields
  then live (`ResponseSpec.ReplacedExactlyWhen`). If a body was begun before, the JSON is appended to a
  response that stays a 200, and every further mux error appends its JSON body again
  (`ResponseSpec.FromTheFirstMuxError`).
- `PLAN.md:54` gives the object key as track and extension only; the code puts a random component between
  (`internal/api/handlers/trackhandler.go:180`), and the model follows the code.

## Hypotheses

They are parameters or `requires` clauses, never hidden: a row commits within `commitWithin` of its
object's write or never; an error from SetTrackFile means it did not commit, and a failed put leaves no
object; random key components do not repeat; the hash is an uninterpreted function, injective only where
a lemma says so; the store fails a put whose body ends short or with an error (`internal/storage/minio.go:57-71`
and the client library behind it); album cover keys are a fixed part of what is referenced; the ids the database hands out
are new.

## Model

| member | source | states |
|---|---|---|
| AudioSniff.SniffDependsOnTwelveBytes | internal/api/handlers/audiosniff.go:25-53 | contents that agree on their first twelve bytes are identified alike |
| AudioSniff.SniffIsExact | internal/api/handlers/audiosniff.go:25-53 | for every content, each format is the answer if and only if its bytes are there, written out, and none that is looked for earlier; none if and only if no signature is there |
| AudioSniff.TagsAreEnough | internal/api/handlers/audiosniff.go:27-37 | fLaC, ID3, OggS and RIFF....WAVE with anything behind them are FLAC, MP3, Ogg and WAV |
| AudioSniff.StartsExclude | internal/api/handlers/audiosniff.go:26-50 | no content starts with two of the signatures |
| AudioSniff.FtypCanStandBehindATag | internal/api/handlers/audiosniff.go:39-41 | an ftyp box can stand behind any of them: a tag wins over it, it wins over a frame |
| AudioSniff.SniffHeadIsSniffAll | internal/api/handlers/trackhandler.go:141-157 | sniffing the 512-byte head answers what sniffing the whole content would |
| UploadBody.StoredMetadataDescribesContent | internal/api/handlers/trackhandler.go:164-201 | a stored upload's hash and size are those of everything sent, the size is within the cap, the format is the sniff of all of it |
| UploadBody.StoredIff | internal/api/handlers/trackhandler.go:135-201 | an upload is accepted if and only if it claims no more than the cap, fits it, is not empty, arrives whole and is audio |
| UploadBody.RefusedIff | internal/api/handlers/trackhandler.go:135-201 | each refusal exactly, in the order of the handler's tests and with its 512-byte window |
| UploadBody.EarlyIff | internal/api/handlers/trackhandler.go:135-162 | what is refused before anything goes to the store |
| UploadReader.Body.Read | internal/api/handlers/trackhandler.go:139 | the capped body hands on the next bytes in order, never past the cap, and ends as end, overrun or failure only where it may |
| UploadReader.ReadFull | internal/api/handlers/trackhandler.go:141-156 | the head buffer holds the body's first bytes, filled or ended, for every chunking |
| UploadReader.CountingWriter.Write | internal/api/handlers/trackhandler.go:227-234 | the counter grows by exactly what is written |
| UploadReader.CopyAll | internal/api/handlers/trackhandler.go:164-169 | head plus rest, as stored, hashed and counted, is the body delivered, for every chunking and copy buffer |
| UploadReader.ReadUpload | internal/api/handlers/trackhandler.go:132-201 | the upload's outcome is a function of its content, how it ends, its length claim and the cap alone, and what is stored is the content |
| UploadReader.ReadHead | internal/api/handlers/trackhandler.go:132-162 | which uploads the length claim and the head settle, and how: an unexpected end is let through to the tests for empty and for audio, another failure is not |
| UploadReader.PutContent | internal/api/handlers/trackhandler.go:164-201 | what goes to the store is the whole body with its hash and length, or the upload is too large or failed |
| ProtocolInvariant.StepKeepsCore | internal/api/handlers/trackhandler.go:110-225 | every event of every operation keeps the whole-system invariant |
| ProtocolInvariant.ReachableIsCore | internal/service/trackservice.go:76-96 | the invariant holds in every reachable state |
| SweepSafety.NoRowDangles | internal/gc/gc.go:60-107 | within the timing bound every committed key names an object in the bucket, in every reachable state |
| SweepSafety.SweptIsNeverNamed | internal/gc/gc.go:70-107 | what a live sweep deletes is named by no row then or after any further run |
| SweepSafety.MissingIsSound | internal/gc/gc.go:109-124 | when the store denies a track key, the key was in the catalogue read and its row has by then let go of it |
| SweepSafety.MissingWasDenied | internal/gc/gc.go:109-124 | in every reachable state a finished sweep reports a key missing if and only if the store denied it |
| SweepBound.DanglingRun | internal/gc/gc.go:65-106 | wherever the bound fails, a run leaves a row without its object |
| SweepBound.TinyCapStoresNothing | internal/api/handlers/trackhandler.go:157-162 | with a cap under two bytes nothing is ever stored |
| SweepBound.BoundIsExact | cmd/server/main.go:54-60 | no reachable state dangles if and only if the delays fit the grace window or uploads are impossible |
| ObjectAccounting.BucketIsPartitioned | internal/api/handlers/trackhandler.go:196-222 | every stored audio object is exactly one of named, owned by an upload, pending deletion, leaked |
| ObjectAccounting.LeakLaw | internal/api/handlers/trackhandler.go:201-222 | after any event an object is leaked if and only if it was leaked or the event is one of four stranding kinds, and it is still there with no delete pending |
| ObjectAccounting.NoStrandingNoLeak | internal/service/artistservice.go:40-56 | from any reachable state with no leak, a run without stranding events leaks nothing |
| ObjectAccounting.QuiescentBucketIsTheCatalogue | internal/service/trackservice.go:76-96 | with none of those events, once uploads and deletes are done the audio in the bucket is exactly what the rows name |
| LeakRuns.ConcurrentUploadsStrandAnObject | internal/api/handlers/trackhandler.go:117-222 | two overlapping uploads to one track strand an object with no failure |
| LeakRuns.UnseenTrackStrandsAnObject | internal/repository/artistrepo.go:63-84 | a track created and uploaded to after the SELECT loses its object to the cascade |
| Coherence.RowsDescribeTheirObjects | internal/repository/trackrepo.go:190-213 | in every reachable state a row's hash, size and format are those of the bytes under its key |
| Coherence.StreamsMatchTheirETag | internal/api/handlers/streamhandler.go:45-75 | a body opened any number of events after the row was read still hashes to the ETag sent |
| Coherence.ETagsAreStrongValidators | internal/api/handlers/streamhandler.go:71-73 | across all runs two responses have equal ETags if and only if they have equal bodies (sections 8.8.1 and 8.8.3 of RFC 9110) |
| Coherence.NoAudioStoredTwice | migrations/000005_add_track_content_hash.up.sql:8-10 | no two rows share a hash, so no two tracks' objects hold equal bytes |
| Coherence.DuplicateMeansSameBytes | internal/repository/trackrepo.go:195-204 | a duplicate refusal means another track's row names an object with the same bytes |
| Coherence.RowMissingMeansDeleted | internal/repository/trackrepo.go:205-213 | a row-missing refusal means that the track existed and its row is gone for good |
| Coherence.CascadeCollectsEveryKey | internal/repository/artistrepo.go:47-84 | every key recorded for a track the SELECT saw is collected or had been let go of before |
| Coherence.GoneForever | internal/repository/trackrepo.go:209-211 | a deleted track's row never comes back in any run |
| Coherence.LateUploadsAreRefused | internal/repository/artistrepo.go:50-55 | after the cascade, in every further run, an upload to one of those tracks cannot be recorded and may be answered row missing |
| RefusedUploads.RefusedUploadsLeaveNoTrace | internal/api/handlers/trackhandler.go:201-211 | taking every event of a request whose uploads are refused out of any sweep-free run gives a run with the same rows, locks and other requests and the same objects but the refused; with no failed delete or crash the same bucket |
| RefusedUploads.RefusedKeyIsNeverNamed | internal/api/handlers/trackhandler.go:201-208 | after a refusal no row names the object in any further run, sweeps included, and once out of the bucket it stays out |
| Recovery.UndisturbedSweep | internal/gc/gc.go:69-126 | a quiet sweep reports exactly the unreferenced objects by age and the referenced keys not stored, and removes exactly the orphans |
| Recovery.SweepRecovers | internal/gc/gc.go:60-126 | after any history, a quiet sweep past the grace window leaves exactly the referenced objects and reports nothing missing |
| Recovery.SecondSweepFindsNothing | internal/gc/gc.go:60-126 | a further sweep removes and skips nothing, and reports missing exactly the referenced keys not stored, within the timing bound only absent album covers |
| Recovery.SweepCanAlwaysFinish | internal/gc/gc.go:69-126 | from every reachable state a quiet sweep can run to its report |
| OrphanSweep.Sweep | internal/gc/gc.go:69-127 | calls, deletes, questions, report and errors of one sweep as functions of what it observed, early exits included |
| OrphanSweep.Compare | internal/gc/gc.go:81-126 | the part after the reads, set and both loops |
| OrphanSweep.RemoveOrphans | internal/gc/gc.go:88-107 | the first loop deletes and reports the old unreferenced objects in listing order and nothing else |
| OrphanSweep.AskForMissing | internal/gc/gc.go:109-124 | the second loop asks about exactly the unlisted keys, in catalogue order and with multiplicity, and reports the definite absences |
| OrphanSweep.DeletesWhatItReports | internal/gc/gc.go:100-106 | delete calls are exactly the reported orphans, none when dry |
| OrphanSweep.ReportIgnoresDeletes | internal/gc/gc.go:60-63 | dry or not, failing deletes or not, the same observations give the same report |
| OrphanSweep.ErrorsAreFailures | internal/gc/gc.go:104-126 | no error if and only if the reads, every delete and every stat other than not-found went through |
| OrphanSweep.ErrorsNameTheFailures | internal/gc/gc.go:69-121 | which failed delete, unclear answer or failed read is among the errors |
| OrphanSweep.PickKeepsOrder | internal/gc/gc.go:91-103 | each report list is the listing restricted to one verdict, order and multiplicity kept |
| OrphanSweep.VerdictsAddUp | internal/gc/gc.go:91-103 | the three verdicts partition the listing |
| SweepCommand.LogEach | cmd/server/main.go:227-235 | one line per key, in order |
| SweepCommand.LogSaysWhatHappened | cmd/server/main.go:220-239 | which keys the log says were removed, would be, are missing or too recent, whether it reports a failure, and its last line |
| SweepCommand.RunOrphanSweep | cmd/server/main.go:206-240 | the command sweeps with the hour's grace and logs the whole report even after errors |
| SweepCommand.HourOfGraceIsEnough | cmd/server/main.go:54-60 | with the configured grace, commits within 900 s and other delays under 2700 s no row dangles |
| SweepCommand.HourOfGraceIsExact | cmd/server/main.go:54-60 | with commits up to 900 s, no reachable state dangles if and only if those delays are under 2700 s |
| SweepCommand.HourDecides | internal/gc/gc.go:88-107 | the command reports an unreferenced object as orphaned, and unless dry deletes it, if and only if it is 3600 s old, else as too recent |
| SweepCommand.SweepRecordsItsCalls | internal/gc/gc.go:88-124 | over any run, a sweep's recorded deletions and answers are those of the delete and stat events it made, in order |
| SweepCommand.ProtocolSweepIsTheProgram | internal/gc/gc.go:69-127 | a sweep interleaved with anything has asked, deleted, reported and failed as the program does when its calls are answered so |
| Server.Stores.SetTrackFile | internal/repository/trackrepo.go:198-213 | one update of all four columns, refused as missing, duplicate or failed and then without effect |
| Server.Stores.UploadTrackFile | internal/api/handlers/trackhandler.go:110-225 | status, rows and bucket after an upload, for every content, way of ending, chunking and failing call, in the handler's order of tests |
| Server.GoodUploadsAreStored | internal/api/handlers/trackhandler.go:187-225 | audio that fits and is new, to a known track, with nothing failing: answered 204, the row describes the new object, the object holds the bytes, the old one is gone and nothing else changed |
| Server.DoneIff | internal/api/handlers/trackhandler.go:110-225 | an upload is answered as done if and only if no call fails, the track is known, the content acceptable and new |
| Server.RefusalsAre | internal/api/handlers/trackhandler.go:110-211 | with nothing failing, each error status exactly; none of them changes a row or leaves an object |
| Server.FaultsAreErrors | internal/api/handlers/trackhandler.go:117-211 | what an upload is answered when a call fails, which tests come before the failure, and that no row changes |
| Server.Stores.StreamTrack | internal/api/handlers/streamhandler.go:38-76 | found if and only if the row has a key and the bucket its object and neither read fails, with body and ETag of that row; a failing read is a server error, not a missing track |
| Server.Stores.DeleteTrack | internal/service/trackservice.go:81-96 | row first, then the object, whose failed delete is not reported |
| Server.Stores.CollectAndDelete | internal/repository/artistrepo.go:56-100 | the keys of the artist's rows in row order, and exactly those rows gone |
| Server.Stores.RemoveAll | internal/service/artistservice.go:48-54 | the objects go one by one, a failed one not stopping the rest |
| Server.Stores.DeleteArtist | internal/service/artistservice.go:43-56 | artist, rows and objects after an artist delete, for every pattern of failed object deletes |
| ServerRuns.UploadIsARun | internal/api/handlers/trackhandler.go:110-225 | the upload program alone is a run of the protocol with the same effect on both stores |
| ServerRuns.DeleteTrackIsARun | internal/service/trackservice.go:81-96 | so is the track delete |
| ServerRuns.StreamIsARun | internal/api/handlers/streamhandler.go:45-76 | and the stream: the body and ETag the protocol's reader ends with are the program's |
| ServerRuns.DeleteArtistIsARun | internal/service/artistservice.go:43-56 | so is the artist delete, keys in lock order |
| Positions.Last | internal/repository/playlistrepo.go:94 | the row with the highest position |
| Positions.Top | internal/repository/playlistrepo.go:94 | the least position above every row's, zero for none |
| Positions.OrderIsUnique | internal/repository/playlistrepo.go:159-163 | rows can be read in position order in one way only |
| Positions.AppendReads | internal/repository/playlistrepo.go:92-95 | appending adds an absent track at the end and leaves a present one alone |
| Positions.WithoutReads | migrations/000004_create_playlists.up.sql:11-17 | a cascade takes tracks out of the list and keeps the order of the rest |
| Positions.KeepRestricts | internal/repository/playlistrepo.go:159-163 | the list with tracks taken out is the old list at the ascending indices of the others |
| Positions.ShiftReads | internal/repository/playlistrepo.go:131-134 | closing a vacant position leaves the list as it is |
| Positions.DropReads | internal/repository/playlistrepo.go:119-136 | delete and shift take exactly one track out of the list, gaps or no gaps |
| Positions.GapMeasuresDensity | internal/repository/playlistrepo.go:104-107 | the gap is never negative and is zero if and only if positions are 0..n-1 |
| Positions.DenseIsIndex | internal/repository/playlistrepo.go:104-107 | in a dense playlist a track's position is its index in the list |
| Positions.AppendKeepsGap | internal/repository/playlistrepo.go:92-95 | appending keeps the gap and the constraints |
| Positions.DropNeverWidensGap | internal/repository/playlistrepo.go:119-136 | delete and shift never widen the gap |
| Positions.CascadeKeepsDenseIff | internal/repository/artistrepo.go:84 | a cascade keeps a dense playlist dense if and only if nothing that remains came after anything that went |
| Positions.CollisionNeedsTwo | migrations/000004_create_playlists.up.sql:11-17 | moving rows down past a position breaks uniqueness if and only if a row stands there and one right behind it |
| Positions.FromListRoundTrips | internal/repository/playlistrepo.go:52-59 | a list without repeats, inserted by index, reads back as itself with gap zero |
| PlaylistSpec.RefusalIsExact | internal/repository/playlistrepo.go:52-59 | making a playlist succeeds if and only if every track is known and none repeats |
| PlaylistSpec.RefusalIsTheFirst | internal/repository/playlistrepo.go:52-59 | the refusal is that of the first entry that is repeated or unknown, a conflict if repeated |
| PlaylistSpec.RunRefinesLists | internal/repository/playlistrepo.go:38-139 | every request keeps the constraints and does to the tables what it does to plain lists, answers included |
| PlaylistSpec.ChangesAreStamped | internal/repository/trackrepo.go:100-102 | a change a request other than an artist delete makes to a list carries its stamp, which differs from the old one if and only if the old one was not of the same time |
| PlaylistSpec.OthersAreNotStamped | internal/repository/playlistrepo.go:144-157 | a request stamps only the playlist it is about, or those that held the track it deletes |
| PlaylistSpec.StampsShowEveryChange | internal/repository/trackrepo.go:100-102 | over any run of requests at increasing times, none an artist delete, a playlist whose list differs has a later stamp |
| PlaylistSpec.ArtistDeleteChangesUnstamped | internal/repository/artistrepo.go:84 | an artist delete stamps nothing, and changes a list if and only if it held one of the artist's tracks |
| PlaylistSpec.ArtistDeleteTakesOwnTracks | migrations/000003_create_tracks.up.sql:1-10 | after an artist delete exactly the tracks by others are left, and every list is the old one without the artist's own |
| PlaylistSpec.DenseIffNoGapOpened | internal/repository/artistrepo.go:84 | a request keeps dense playlists dense if and only if it is not an artist delete that takes a track from before a remaining one |
| PlaylistSpec.RunsStayDense | internal/repository/trackrepo.go:85-102 | in every run without an artist delete all playlists stay 0..n-1 |
| PlaylistSpec.GapsNeverWiden | internal/repository/trackrepo.go:85-102 | over any run without an artist delete no gap grows and new playlists have none, from whatever gaps there were |
| PlaylistRepo.Transaction.InsertMembership | migrations/000004_create_playlists.up.sql:11-17 | an insert is refused by either unique constraint or the foreign key, and then changes nothing |
| PlaylistRepo.Transaction.MembershipsOf | internal/repository/trackrepo.go:122-143 | every playlist that holds the track, once, with its position, in no particular order |
| PlaylistRepo.Transaction.InsertMemberships | internal/repository/playlistrepo.go:52-59 | the insert loop with its running index, and which refusal stops it |
| PlaylistRepo.Repository.CreatePlaylist | internal/repository/playlistrepo.go:38-62 | all or nothing: the specified tables on success, the old ones on refusal |
| PlaylistRepo.Repository.TrackIds | internal/repository/playlistrepo.go:159-178 | the append loop returns the rows in position order |
| PlaylistRepo.Repository.GetPlaylistById | internal/repository/playlistrepo.go:19-36 | the list as it is at the second read, an empty one if the playlist went in between, or that there was no such playlist |
| PlaylistRepo.Repository.DeletePlaylist | internal/repository/playlistrepo.go:64-77 | the playlist gone, or not found |
| PlaylistRepo.Repository.AddTrack | internal/repository/playlistrepo.go:81-102 | touch and append commit together or not at all, as specified |
| PlaylistRepo.Repository.RemoveTrack | internal/repository/playlistrepo.go:108-139 | touch, delete and shift commit together or not at all, as specified |
| PlaylistRepo.Repository.DeleteTrack | internal/repository/trackrepo.go:103-169 | the renumber loop reaches the specified tables whatever order memberships come in |
| PlaylistRepo.Transaction.RenumberAll | internal/repository/trackrepo.go:156-163 | the renumber loop closes the gap in each listed playlist, in whatever order they come |
| PlaylistRepo.Repository.DeleteArtist | internal/repository/artistrepo.go:84-99 | the cascade over tracks and memberships, without renumbering |
| PlaylistRepo.CreateThenGet | internal/repository/playlistrepo.go:19-62 | create then get returns the same list, or fails with nothing changed, and exactly when |
| PlaylistRepo.AllRenumbered | internal/repository/trackrepo.go:145-163 | once every membership is renumbered, in any order, each holder has closed its gap |
| TxSerial.StepKeepsInv | internal/repository/trackrepo.go:85-102 | every clean statement of every transaction keeps the interleaving invariant |
| TxSerial.AnswersAsAlone | internal/repository/playlistrepo.go:81-139 | a step that answers does to the committed rows, and answers, what the request run alone would |
| TxSerial.CleanRunsAreSerial | internal/repository/trackrepo.go:92-169 | every clean interleaving is equal, rows and answers, to running the answered requests one at a time in answer order |
| TxSerial.CleanRunsStayDense | internal/repository/trackrepo.go:85-102 | positions stay 0..n-1 through every clean interleaving |
| TxSerial.CleanRunsNeverFail | internal/repository/trackrepo.go:156-163 | in no clean interleaving is a renumbering refused by the unique constraint |
| TxProgress.WaitingClimbs | internal/repository/trackrepo.go:98-120 | whoever waits for a row lock stands lower in the lock order than whom it waits for |
| TxProgress.NoDeadlock | internal/repository/trackrepo.go:98-100 | the wait-for graph has no cycle in any state a clean run reaches, whatever kinds of lock are waited for |
| TxProgress.CyclesStray | internal/repository/trackrepo.go:98-100 | in every run, a cycle of waiting transactions contains a DeleteTrack that has changed, or is about to renumber, a playlist it has not locked |
| TxProgress.StuckRunsStray | internal/repository/trackrepo.go:98-100 | in every run, an unfinished state in which only an abort can move contains such a DeleteTrack |
| TxProgress.CleanRunsMove | internal/repository/trackrepo.go:98-100 | in such a state, if some transaction is unfinished, one can run its next statement, if only the commit that ends cleanness |
| TxProgress.CleanStepIff | internal/repository/trackrepo.go:98-120 | a clean run can go on cleanly without an abort if and only if some unblocked transaction is not an insert about to commit in a delete's window |
| TxProgress.UncleanIff | internal/repository/trackrepo.go:110-146 | the hypothesis written out: which commits a clean run does not have |
| TxProgress.RunsEnd | internal/repository/trackrepo.go:103-169 | no run, clean or not, is longer than a measure of its start |
| TxProgress.WaitLasts | internal/repository/playlistrepo.go:144-157 | a wait lasts until the lock's owner ends or the waiter is aborted |
| TxProgress.SerialOrderFollowsLocks | internal/repository/playlistrepo.go:141-157 | a transaction that waited for another answers after it, however the run goes on |
| TxRuns.UnlockedDeleteLeavesAGap | internal/repository/trackrepo.go:92-98 | without the lock statement a dense playlist can be left with a gap |
| TxRuns.InsertInTheWindowLeavesAGap | internal/repository/trackrepo.go:110-146 | with it, an insert of the track in the window can leave a gap too |
| TxRuns.InsertInTheWindowIsNotSerial | internal/repository/trackrepo.go:92-98 | what that run leaves is not what any requests without an artist delete leave when run one at a time |
| TxRuns.StaleReadLeavesAGap | internal/repository/trackrepo.go:110-163 | so can one between the lock statement and the read, whose playlist is listed with a position that goes stale |
| TxRuns.AddBehindTheDeleteLeavesAGap | internal/repository/trackrepo.go:145-165 | so can an AddTrack that commits between the DELETE and the commit, though the track was last at the DELETE |
| TxRuns.DeleteBeforeTheAddLeavesAGap | internal/repository/playlistrepo.go:81-102 | and one that inserts before the delete commits and commits after it: its own commit makes the gap |
| TxRuns.TrackDeleteCanFail | internal/repository/trackrepo.go:98-99 | a stale renumbering can collide, and the delete then fails as a whole |
| TxRuns.InsertsInTheWindowDeadlock | internal/repository/trackrepo.go:98-100 | with such inserts two deletes can wait in their renumberings for rows the other has deleted, and only an abort helps |
| TxWindow.LateDeleteIff | internal/repository/trackrepo.go:122-163 | a delete run from any memberships in hand to its end fails if and only if some listed position collides, else leaves all playlists dense if and only if in each holder the track is last or was read at its position or one less |
| TxWindow.BumpsIff | internal/repository/trackrepo.go:156-163 | in a dense playlist the renumbering collides if and only if the read position and the next are in range and held by other tracks |
| TxWindow.ClosesIff | internal/repository/trackrepo.go:156-163 | what the delete leaves of one playlist is dense if and only if the gap closes, from the read and the true position and the size |
| TxTables.TablesStayValid | migrations/000004_create_playlists.up.sql:11-17 | in every run, clean or not and locked or not, the committed tables keep both unique constraints and both foreign keys |
| TxTables.FailsIffCollides | internal/repository/trackrepo.go:98-99 | in every run a statement fails if and only if it is a renumbering that moves a row onto one that stays |
| TxTables.RenumberIsReadyIff | internal/repository/trackrepo.go:156-163 | a renumbering can run if and only if no other transaction has changed a row it moves or would run into, or has a row at a position it moves one to |
| TxDensity.CommitsStayDenseIff | internal/repository/trackrepo.go:85-102 | in every run, a commit keeps dense playlists dense if and only if it inserts at the number of rows or has moved every row behind the track in every playlist that has it; a playlist that has lost the track is left alone |
| TxDensity.CommitsRunAloneIff | internal/repository/trackrepo.go:92-98 | in every run, a commit from dense tables does and answers what its request does alone under the same condition, if a track AddTrack found there is still there |
| TxDensity.RunsAreDenseIff | internal/repository/trackrepo.go:85-102 | a run that starts dense is dense throughout if and only if every commit in it meets the condition |
| TxDensity.FittingRunsAreSerial | internal/repository/trackrepo.go:92-98 | a run whose commits all do is serial, clean or not, in the order of its answers |
| TxDensity.CutIsDenseIff | internal/repository/trackrepo.go:156-163 | from a dense playlist, with changes that collide with nothing, what is left is dense if and only if every row behind the track has moved, and is then what dropping the track leaves |
| ResponseSpec.LogTellsTheTruth | internal/api/middleware.go:21-37 | at most one status reaches the connection, and the log line has the client's status and the bytes taken, unless the handler aborts |
| ResponseSpec.OtherwiseTransparent | internal/api/router.go:124-145 | with no mux error the client gets exactly what the handler alone would have sent |
| ResponseSpec.FirstMuxError | internal/api/router.go:124-129 | every sequence of calls has no mux error or a first one |
| ResponseSpec.FromTheFirstMuxError | internal/api/router.go:124-145 | the whole response from the first mux error on, for any handler: its head if none was sent, one JSON body for it and for each later one, none of the handler's |
| ResponseSpec.ReplacedExactlyWhen | internal/api/router.go:108-145 | the client gets the JSON error and nothing else if and only if nothing else was sent before and no later status is a mux error on the fields then live |
| ResponseSpec.OneStatusReplacedWhen | internal/api/router.go:124-145 | for a handler that writes one status: if and only if no body came before; else the JSON is appended to a 200 |
| ResponseSpec.OtherStatusesPass | internal/api/router.go:108-129 | any other status passes with its own head and body |
| ResponseSpec.OwnErrorsPass | internal/api/router.go:108-118 | a handler that writes neither 404 nor 405, or never sets the mux's content type, is never rewritten |
| ResponseSpec.MethodNotAllowedKeepsAllow | internal/api/router.go:99-145 | a wrong method is answered 405 with the mux's Allow field and its JSON body, header fields and text written out (section 15.5.6 of RFC 9110) |
| ResponseSpec.UnknownPathIsNotFound | internal/api/router.go:99-145 | an unknown path is answered 404 with its JSON body, header fields and text written out |
| ResponseSpec.PanicsBecomeOne500 | internal/api/middleware.go:83-114 | a panic before the head is one JSON 500, its text written out; after it the response stands |
| ResponseSpec.TwoMuxErrorsAnswerTwice | internal/api/router.go:124-136 | two mux errors in one request write the JSON body twice |
| ResponseStack.ResponseRecorder.WriteHeader | internal/api/middleware.go:21-28 | the first status is kept and passed on, later ones are dropped |
| ResponseStack.ResponseRecorder.Write | internal/api/middleware.go:30-37 | the first body sends a 200, and what the connection takes is counted |
| ResponseStack.MuxErrorRewriter.WriteHeader | internal/api/router.go:124-136 | the header edits, the JSON body and the rewriting flag, exactly when the test is met |
| ResponseStack.MuxErrorRewriter.Write | internal/api/router.go:138-145 | bodies are swallowed after a rewrite and passed on otherwise |
| ResponseStack.Recover | internal/api/middleware.go:87-112 | a recovered panic writes the JSON 500 unless a head has gone out |
| ResponseStack.ServeHTTP | internal/api/router.go:39-46 | id, log, guard and rewriter composed in the source's order do what the specification says of the whole request |

## Left out

- SQL text, drivers, migrations running, connection pools, config, health probes, Swagger: tables and bucket are maps with the constraints, cascades and locks the schema gives.
- `http.ServeContent`, JSON decoding and encoding, UUID parsing, SHA-256 and the random generator: library code; the hash is a function and key components are fresh.
- Album cover objects: nothing uploads them; their keys are a fixed part of the referenced set.
- Incomplete multipart uploads and part sizes (`internal/storage/minio.go:39-45`): invisible to the listing, and easy arithmetic.
- Duration and range checks, error classification and status tables, simple create and get handlers: easy once stated; the duration product can wrap before its range check, so "accepted implies stored as sent" is not claimed.
- Informational (1xx) and invalid statuses, 204 and HEAD body rules, repeated header fields: `ResponseSpec` has final statuses and one value per field.
- `updated_at` under concurrency: it is the transaction's start time and `PlaylistTx` leaves it out; the one-at-a-time model (`PlaylistSpec`) has it.
- `CreatePlaylist`, `DeletePlaylist` and `DeleteArtist` interleaved with the other playlist transactions: the set of playlists is fixed in `PlaylistTx`, and the artist cascade is treated one at a time.
- TxSerial.CleanRunsAreSerial: does not cover runs in which an insert of the track commits inside DeleteTrack's window; there the claim is false, as the runs in `TxRuns` show.
- TxProgress.NoDeadlock: the source promises it outright, which is false: `TxRuns.InsertsInTheWindowDeadlock`. It holds for clean runs; for all runs `TxProgress.CyclesStray` says what a cycle must contain, not that such a DeleteTrack always makes one.
- RefusedUploads.RefusedUploadsLeaveNoTrace: not for runs with a sweep in them, whose listing and report may show the refused object while it is there; `RefusedUploads.RefusedKeyIsNeverNamed` covers those.
- PlaylistTx: a statement that had to wait sees the tables as of its turn, and what it waits for is read off that view; Postgres keeps the starting snapshot for rows it did not wait for, so outside clean runs a statement that waited may act on older rows than here.
- TxWindow.LateDeleteIff: from its DELETE on, the delete is run to its end and others take no step meanwhile; `TxDensity.CommitsStayDenseIff` is the statement without that restriction, on the rows at the commit.
- OrphanSweep.Sweep: stores answer from a script; that the answers come from a store which changes meanwhile, by the sweep's own deletes too, is `Protocol`, and `SweepCommand.ProtocolSweepIsTheProgram` joins the two.
