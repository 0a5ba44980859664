/** Reading an upload's body as a program: the capped reader, the head buffer, and the tee that
    hashes and counts while the store copies. */
module UploadReader {
  import opened Storage
  import opened AudioSniff
  import opened UploadBody

  /** More: bytes were read and there may be others. The others end the body for good. */
  datatype ReadStatus = More | Eof | UnexpectedEof | OverCap | Failed

  /** The request body behind its size cap. `data` is all the client sends and `ending` what comes after
      it. `burst(i)` is how much the network has ready at the `i`th read and
      `together(i)` whether that read reports the end along with its last bytes, so quantifying over
      them is quantifying over every chunking. */
  class Body {
    const data: Bytes
    const cap: nat
    const ending: Ending
    const burst: nat -> nat
    const together: nat -> bool
    var delivered: nat
    var turn: nat
    var ended: ReadStatus

    ghost predicate Valid() reads this {
      && delivered <= |data| && delivered <= cap
      && Ends(ended)
    }

    /** What a body that has ended this way must have delivered. */
    ghost predicate Ends(status: ReadStatus) reads this {
      && (status.Eof? ==> delivered == |data| && ending.Complete?)
      && (status.UnexpectedEof? ==> delivered == |data| && ending.Truncated?)
      && (status.Failed? ==> delivered == |data| && ending.Failing?)
      && (status.OverCap? ==> delivered == cap < |data|)
    }

    constructor (data: Bytes, cap: nat, ending: Ending, burst: nat -> nat, together: nat -> bool)
      ensures Valid() && delivered == 0 && ended.More?
      ensures this.data == data && this.cap == cap && this.ending == ending
    {
      this.data, this.cap, this.ending, this.burst, this.together := data, cap, ending, burst, together;
      delivered, turn, ended := 0, 0, More;
    }

    /** One read of at most `max` bytes. To notice an oversized body the cap is overrun by one byte,
        which is not handed on. */
    method Read(max: nat) returns (part: Bytes, status: ReadStatus)
      requires Valid() && max > 0
      modifies this
      ensures Valid() && |part| <= max && status == ended
      ensures delivered == old(delivered) + |part| && part == data[old(delivered)..delivered]
      ensures status.More? ==> |part| > 0
    {
      if !ended.More? { return [], ended; }
      var want := if max <= cap - delivered then max else cap - delivered + 1;
      var ready := if burst(turn) == 0 then 1 else burst(turn);
      var n := Min(Min(want, ready), |data| - delivered);
      var atEnd := delivered + n == |data| && (n == 0 || together(turn));
      turn := turn + 1;
      if n <= cap - delivered {
        part := data[delivered..delivered + n];
        delivered := delivered + n;
        if atEnd { ended := EndOf(ending); }
      } else {
        part := data[delivered..cap];
        delivered := cap;
        ended := OverCap;
      }
      status := ended;
    }
  }

  function EndOf(ending: Ending): ReadStatus {
    match ending
    case Complete => Eof
    case Truncated => UnexpectedEof
    case Failing => Failed
  }

  /** Fills `head` from its start; `More` means it was filled. */
  method ReadFull(body: Body, head: array<bv8>) returns (n: nat, status: ReadStatus)
    requires body.Valid() && body.delivered == 0 && body.ended.More? && head.Length > 0
    modifies body, head
    ensures body.Valid() && n == body.delivered <= head.Length
    ensures head[..n] == body.data[..n]
    ensures if n == head.Length then status.More? else !status.More? && status == body.ended
  {
    n, status := 0, More;
    while n < head.Length && status.More?
      invariant body.Valid() && n == body.delivered <= head.Length && status == body.ended
      invariant head[..n] == body.data[..n]
      decreases head.Length - n, if status.More? then 1 else 0
    {
      var part;
      part, status := body.Read(head.Length - n);
      for i := 0 to |part|
        invariant body.Valid() && n + |part| == body.delivered <= head.Length
        invariant part == body.data[n..n + |part|]
        invariant status == body.ended && (status.More? ==> |part| > 0)
        invariant head[..n + i] == body.data[..n + i]
      {
        head[n + i] := part[i];
        assert head[..n + i + 1] == head[..n + i] + [part[i]];
        assert body.data[..n + i + 1] == body.data[..n + i] + [part[i]];
      }
      n := n + |part|;
    }
    if n == head.Length { status := More; }
  }

  /** Counts the bytes that stream past. */
  class CountingWriter {
    var n: nat

    constructor ()
      ensures n == 0
    {
      n := 0;
    }

    method Write(part: Bytes) returns (written: nat)
      modifies this
      ensures n == old(n) + |part| && written == |part|
    {
      n := n + |part|;
      written := |part|;
    }
  }

  /** A streaming hash: its sum is the hash of everything written so far, however it was cut up. */
  class Hasher {
    const hash: Bytes -> string
    var absorbed: Bytes

    constructor (hash: Bytes -> string)
      ensures this.hash == hash && absorbed == []
    {
      this.hash := hash;
      absorbed := [];
    }

    method Write(part: Bytes)
      modifies this
      ensures absorbed == old(absorbed) + part
    {
      absorbed := absorbed + part;
    }

    method Sum() returns (sum: string)
      ensures sum == hash(absorbed)
    {
      sum := hash(absorbed);
    }
  }

  /** Looks at the head of the body: either it settles the upload, or `front` is the head and `format`
      what it was recognised as. */
  method ReadHead(body: Body, declared: int) returns (early: Option<Outcome>, front: Bytes, format: Option<AudioFormat>)
    requires body.Valid() && body.delivered == 0 && body.ended.More?
    modifies body
    ensures body.Valid() && early == HeadOutcome(declared, body.cap, body.data, body.ending)
    ensures early.None? ==> format == SniffAudio(Head(body.data)) && format.Some? && front == body.data[..body.delivered]
  {
    front, format := [], None;
    if declared > body.cap { return Some(TooLarge), front, format; }
    var head := new bv8[SNIFF_LEN];
    var n, status := ReadFull(body, head);
    if status.OverCap? { return Some(TooLarge), front, format; }
    if status.Failed? { return Some(ReadFailed), front, format; }
    if n == 0 { return Some(Empty), front, format; }
    front := head[..n];
    assert front == Head(body.data);
    format := SniffAudio(front);
    early := if format.None? then Some(NotAudio) else None;
  }

  /** Hands the body to the store, hashing and counting on the way. */
  method PutContent(body: Body, front: Bytes, format: AudioFormat, hash: Bytes -> string, buffer: nat)
    returns (outcome: Outcome, stored: Bytes)
    requires body.Valid() && front == body.data[..body.delivered] && buffer > 0
    modifies body
    ensures outcome == if |body.data| > body.cap then TooLarge
                       else if !body.ending.Complete? then ReadFailed
                       else Stored(format, hash(body.data), |body.data|)
    ensures outcome.Stored? ==> stored == body.data
  {
    var hasher := new Hasher(hash);
    var counter := new CountingWriter();
    var status;
    stored, status := CopyAll(body, front, hasher, counter, buffer);
    if status.OverCap? { return TooLarge, []; }
    if status.Failed? || status.UnexpectedEof? { return ReadFailed, []; }
    var sum := hasher.Sum();
    assert body.data[..|body.data|] == body.data;
    outcome := Stored(format, sum, counter.n);
  }

  /** Reads the whole body the way an upload does. The outcome is the one the content alone
      determines, for every chunking and every size of copy buffer, and what was stored is the body. */
  method ReadUpload(body: Body, declared: int, hash: Bytes -> string, buffer: nat)
    returns (outcome: Outcome, stored: Bytes)
    requires body.Valid() && body.delivered == 0 && body.ended.More? && buffer > 0
    modifies body
    ensures outcome == Ingest(declared, body.cap, body.data, body.ending, hash)
    ensures outcome.Stored? ==> stored == body.data
  {
    var early, front, format := ReadHead(body, declared);
    if early.Some? { return early.value, []; }
    outcome, stored := PutContent(body, front, format.value, hash, buffer);
  }

  /** The store's copy loop: first the bytes already read, then the rest of the body, all of it teed
      through the hash and the counter. */
  method CopyAll(body: Body, front: Bytes, hasher: Hasher, counter: CountingWriter, buffer: nat)
    returns (stored: Bytes, status: ReadStatus)
    requires body.Valid() && front == body.data[..body.delivered] && buffer > 0
    requires hasher.absorbed == [] && counter.n == 0
    modifies body, hasher, counter
    ensures body.Valid() && !status.More? && status == body.ended
    ensures stored == body.data[..body.delivered] == hasher.absorbed && counter.n == |stored|
  {
    stored, status := front, More;
    hasher.Write(front);
    var _ := counter.Write(front);
    while status.More?
      invariant body.Valid() && (status.More? || status == body.ended)
      invariant stored == body.data[..body.delivered] == hasher.absorbed && counter.n == |stored|
      decreases |body.data| - body.delivered, if status.More? then 1 else 0
    {
      var part;
      part, status := body.Read(buffer);
      hasher.Write(part);
      var _ := counter.Write(part);
      stored := stored + part;
    }
  }
}
