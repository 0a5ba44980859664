/** What an orphan sweep decides, as functions of what it observed. */
module SweepSpec {
  import opened Storage

  datatype Report = Report(orphaned: seq<Key>, missing: seq<Key>, skipped: seq<Key>)

  /** One delete call and how it went. */
  datatype Removal = Removal(key: Key, deleted: bool)

  /** Whether the sweep is dry, and the delete calls it has made so far. */
  datatype Deletions = Deletions(dry: bool, made: seq<Removal>)

  /** The keys of the calls, in the order they were made. */
  function Tried(made: seq<Removal>): seq<Key> {
    seq(|made|, i requires 0 <= i < |made| => made[i].key)
  }

  datatype Verdict = Referenced | Recent | Orphan

  function Judge(x: ObjectInfo, refs: seq<Key>, cutoff: Time): Verdict {
    if x.key in refs then Referenced
    else if x.lastModified > cutoff then Recent
    else Orphan
  }

  /** The listed keys with verdict `v`, in listing order. */
  function Pick(listing: seq<ObjectInfo>, refs: seq<Key>, cutoff: Time, v: Verdict): seq<Key> {
    if listing == [] then []
    else
      var x := listing[|listing| - 1];
      Pick(listing[..|listing| - 1], refs, cutoff, v) + (if Judge(x, refs, cutoff) == v then [x.key] else [])
  }

  function Deletes(dry: bool, listing: seq<ObjectInfo>, refs: seq<Key>, cutoff: Time): seq<Key> {
    if dry then [] else Pick(listing, refs, cutoff, Orphan)
  }

  predicate IsListed(listing: seq<ObjectInfo>, k: Key) {
    exists i :: 0 <= i < |listing| && listing[i].key == k
  }

  /** The referenced keys the listing does not show, in catalogue order: the ones to ask about. */
  function Unlisted(listing: seq<ObjectInfo>, keys: seq<Key>): seq<Key> {
    if keys == [] then []
    else
      var k := keys[|keys| - 1];
      Unlisted(listing, keys[..|keys| - 1]) + (if IsListed(listing, k) then [] else [k])
  }

  /** Of the keys asked about, those answered with a definite "no such object". */
  function Absent(asked: seq<Key>, answers: seq<StatAnswer>): seq<Key>
    requires |answers| == |asked|
  {
    if asked == [] then []
    else
      var n := |asked| - 1;
      Absent(asked[..n], answers[..n]) + (if answers[n].NotFound? then [asked[n]] else [])
  }

  function ReportOf(listing: seq<ObjectInfo>, keys: seq<Key>, cutoff: Time, answers: seq<StatAnswer>): Report
    requires |answers| == |Unlisted(listing, keys)|
  {
    Report(Pick(listing, keys, cutoff, Orphan),
           Absent(Unlisted(listing, keys), answers),
           Pick(listing, keys, cutoff, Recent))
  }
}
