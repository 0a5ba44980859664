/** What reading an upload's body to its end amounts to. */
module UploadBody {
  import opened Storage
  import opened AudioSniff

  datatype Outcome =
    | Stored(format: AudioFormat, contentHash: string, fileSize: nat)
    | TooLarge
    | Empty
    | NotAudio
    | ReadFailed

  /** How a body ends: as announced, short of what was announced, or with some other failure. */
  datatype Ending = Complete | Truncated | Failing

  /** What the head of the body decides before anything is stored, or None when it decides nothing. An
      end short of the announced length is taken for the end; any other failure is not. */
  function HeadOutcome(declared: int, cap: nat, data: Bytes, ending: Ending): Option<Outcome> {
    if declared > cap then Some(TooLarge)
    else if |data| > cap && cap < SNIFF_LEN then Some(TooLarge)
    else if |data| <= cap && |data| < SNIFF_LEN && ending.Failing? then Some(ReadFailed)
    else if |data| == 0 then Some(Empty)
    else if SniffAudio(Head(data)).None? then Some(NotAudio)
    else None
  }

  /** The outcome of an upload as a function of its content alone: `data` is everything the client
      sends, `declared` its Content-Length (negative when it sends none). */
  function Ingest(declared: int, cap: nat, data: Bytes, ending: Ending, hash: Bytes -> string): Outcome {
    var early := HeadOutcome(declared, cap, data, ending);
    if early.Some? then early.value
    else if |data| > cap then TooLarge
    else if !ending.Complete? then ReadFailed
    else Stored(SniffAudio(Head(data)).value, hash(data), |data|)
  }

  /** An upload that is stored is described by its own bytes: the hash and the size are those of
      everything the client sent, the size is within the cap, and the format is what sniffing the
      whole content says although only its head was looked at. */
  lemma StoredMetadataDescribesContent(declared: int, cap: nat, data: Bytes, ending: Ending, hash: Bytes -> string)
    ensures var r := Ingest(declared, cap, data, ending, hash);
            r.Stored? ==> r.contentHash == hash(data) && r.fileSize == |data| <= cap && ending.Complete?
                          && Some(r.format) == SniffAudio(data)
  {
    SniffHeadIsSniffAll(data);
  }

  // ---- Which uploads are accepted, and which refusal the others get ----

  predicate IsAudio(data: Bytes) {
    SniffAudio(data).Some?
  }

  /** Accepted is exactly what fits, arrives whole and is audio. */
  lemma StoredIff(declared: int, cap: nat, data: Bytes, ending: Ending, hash: Bytes -> string)
    ensures Ingest(declared, cap, data, ending, hash).Stored? <==>
              declared <= cap && 0 < |data| <= cap && ending.Complete? && IsAudio(data)
  {
    SniffHeadIsSniffAll(data);
  }

  /** Each refusal. The length claim is looked at first. Then 512 bytes are read: an overrun within them is
      too large whatever they are, a failure within them is a failure, and what they are decides before the
      rest is read. */
  lemma RefusedIff(declared: int, cap: nat, data: Bytes, ending: Ending, hash: Bytes -> string)
    ensures var r := Ingest(declared, cap, data, ending, hash);
      && (r == TooLarge <==> declared > cap || (|data| > cap && (cap < 512 || IsAudio(data))))
      && (r == Empty <==> declared <= cap && |data| == 0 && !ending.Failing?)
      && (r == NotAudio <==>
            declared <= cap && 0 < |data| && !IsAudio(data)
            && if |data| <= cap then |data| >= 512 || !ending.Failing? else cap >= 512)
      && (r == ReadFailed <==>
            declared <= cap && |data| <= cap
            && if |data| < 512 && ending.Failing? then true else !ending.Complete? && IsAudio(data))
  {
    SniffHeadIsSniffAll(data);
  }

  /** What is decided before anything goes to the store: all refusals but an overrun or a bad ending behind a
      head that is audio. */
  lemma EarlyIff(declared: int, cap: nat, data: Bytes, ending: Ending)
    ensures HeadOutcome(declared, cap, data, ending).None? <==>
              declared <= cap && IsAudio(data)
              && (|data| > cap ==> cap >= 512) && (|data| <= cap && |data| < 512 ==> !ending.Failing?)
  {
    SniffHeadIsSniffAll(data);
  }
}
