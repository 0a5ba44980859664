/** Identifying an audio container from its leading bytes. */
module AudioSniff {
  import opened Storage

  const SNIFF_LEN: nat := 512

  datatype AudioFormat = AudioFormat(contentType: string, ext: string)

  const FLAC: Bytes := [0x66, 0x4C, 0x61, 0x43]  // fLaC
  const ID3: Bytes := [0x49, 0x44, 0x33]         // ID3
  const OGGS: Bytes := [0x4F, 0x67, 0x67, 0x53]  // OggS
  const RIFF: Bytes := [0x52, 0x49, 0x46, 0x46]  // RIFF
  const WAVE: Bytes := [0x57, 0x41, 0x56, 0x45]  // WAVE
  const FTYP: Bytes := [0x66, 0x74, 0x79, 0x70]  // ftyp

  function SniffAudio(head: Bytes): (r: Option<AudioFormat>)
    ensures r.Some? ==> |head| >= 2 && |r.value.ext| >= 2 && r.value.ext[0] == '.'
  {
    if FLAC <= head then Some(AudioFormat("audio/flac", ".flac"))
    else if ID3 <= head then Some(AudioFormat("audio/mpeg", ".mp3"))
    else if OGGS <= head then Some(AudioFormat("audio/ogg", ".ogg"))
    else if |head| >= 12 && RIFF <= head && head[8..12] == WAVE then Some(AudioFormat("audio/wav", ".wav"))
    else if |head| >= 12 && head[4..8] == FTYP then Some(AudioFormat("audio/mp4", ".m4a"))
    else if |head| >= 2 && head[0] == 0xFF && head[1] & 0xE0 == 0xE0 then
      // Eleven set sync bits; a zero layer field is an ADTS-framed AAC stream.
      if (head[1] >> 1) & 0x03 == 0 then Some(AudioFormat("audio/aac", ".aac"))
      else Some(AudioFormat("audio/mpeg", ".mp3"))
    else None
  }

  function Head(content: Bytes): Bytes {
    if |content| <= SNIFF_LEN then content else content[..SNIFF_LEN]
  }

  /** Two contents that agree on their first twelve bytes are the same kind of file, so what
      follows the window an upload looks at can never change the answer. */
  lemma SniffDependsOnTwelveBytes(a: Bytes, b: Bytes)
    requires a == b || (|a| >= 12 && |b| >= 12 && a[..12] == b[..12])
    ensures SniffAudio(a) == SniffAudio(b)
  {
    if a != b {
      forall k: nat | k < 12 ensures a[k] == b[k] { assert a[..12][k] == b[..12][k]; }
      assert a[4..8] == b[4..8] && a[8..12] == b[8..12];
      SamePrefix(FLAC, a, b);
      SamePrefix(ID3, a, b);
      SamePrefix(OGGS, a, b);
      SamePrefix(RIFF, a, b);
    }
  }

  lemma SamePrefix(magic: Bytes, a: Bytes, b: Bytes)
    requires |magic| <= 12 <= |a| && 12 <= |b| && forall k: nat :: k < 12 ==> a[k] == b[k]
    ensures magic <= a <==> magic <= b
  {
  }

  /** Sniffing the head of an upload gives the answer sniffing all of it would give. */
  lemma SniffHeadIsSniffAll(content: Bytes)
    ensures SniffAudio(Head(content)) == SniffAudio(content)
  {
    assert |content| > SNIFF_LEN ==> Head(content)[..12] == content[..12];
    SniffDependsOnTwelveBytes(Head(content), content);
  }

  // ---- The signatures, byte by byte ----

  /** The bytes stand at this place in the content. */
  predicate At(c: Bytes, i: nat, bytes: Bytes) {
    i + |bytes| <= |c| && c[i..i + |bytes|] == bytes
  }

  predicate LooksFlac(c: Bytes) { At(c, 0, [0x66, 0x4C, 0x61, 0x43]) }
  predicate LooksTagged(c: Bytes) { At(c, 0, [0x49, 0x44, 0x33]) }
  predicate LooksOgg(c: Bytes) { At(c, 0, [0x4F, 0x67, 0x67, 0x53]) }
  predicate LooksWav(c: Bytes) { At(c, 0, [0x52, 0x49, 0x46, 0x46]) && At(c, 8, [0x57, 0x41, 0x56, 0x45]) }
  predicate LooksMp4(c: Bytes) { |c| >= 12 && At(c, 4, [0x66, 0x74, 0x79, 0x70]) }
  predicate LooksFramed(c: Bytes) { |c| >= 2 && c[0] == 0xFF && c[1] >= 0xE0 }

  /** The second bytes of a frame whose layer field is zero. */
  predicate NoLayer(c: Bytes)
    requires |c| >= 2
  {
    c[1] in [0xE0, 0xE1, 0xE8, 0xE9, 0xF0, 0xF1, 0xF8, 0xF9]
  }

  lemma PrefixIsAt(magic: Bytes, c: Bytes)
    ensures magic <= c <==> At(c, 0, magic)
  {
    if At(c, 0, magic) { assert c[..|magic|] == magic; }
  }

  lemma FrameBits(b: bv8)
    ensures b & 0xE0 == 0xE0 <==> b >= 0xE0
    ensures b >= 0xE0 ==> ((b >> 1) & 0x03 == 0 <==> b in [0xE0, 0xE1, 0xE8, 0xE9, 0xF0, 0xF1, 0xF8, 0xF9])
  {
  }

  /** Which format any content at all is stored as, with the bytes and the names written out. An ftyp box
      is only looked for when none of the four tags at the start is there, a frame only after that. */
  lemma SniffIsExact(c: Bytes)
    ensures SniffAudio(c) == Some(AudioFormat("audio/flac", ".flac")) <==> LooksFlac(c)
    ensures SniffAudio(c) == Some(AudioFormat("audio/ogg", ".ogg")) <==> LooksOgg(c)
    ensures SniffAudio(c) == Some(AudioFormat("audio/wav", ".wav")) <==> LooksWav(c)
    ensures SniffAudio(c) == Some(AudioFormat("audio/mp4", ".m4a")) <==>
              LooksMp4(c) && !LooksFlac(c) && !LooksTagged(c) && !LooksOgg(c) && !LooksWav(c)
    ensures SniffAudio(c) == Some(AudioFormat("audio/aac", ".aac")) <==> LooksFramed(c) && NoLayer(c) && !LooksMp4(c)
    ensures SniffAudio(c) == Some(AudioFormat("audio/mpeg", ".mp3")) <==>
              LooksTagged(c) || (LooksFramed(c) && !NoLayer(c) && !LooksMp4(c))
    ensures SniffAudio(c) == None <==>
              !LooksFlac(c) && !LooksTagged(c) && !LooksOgg(c) && !LooksWav(c) && !LooksMp4(c) && !LooksFramed(c)
  {
    PrefixIsAt(FLAC, c);
    PrefixIsAt(ID3, c);
    PrefixIsAt(OGGS, c);
    PrefixIsAt(RIFF, c);
    if |c| >= 2 { FrameBits(c[1]); }
  }

  /** The forms the formats are usually given in: a tag and anything behind it, a RIFF chunk of any size. */
  lemma TagsAreEnough(size: Bytes, rest: Bytes)
    requires |size| == 4
    ensures SniffAudio([0x66, 0x4C, 0x61, 0x43] + rest) == Some(AudioFormat("audio/flac", ".flac"))
    ensures SniffAudio([0x49, 0x44, 0x33] + rest) == Some(AudioFormat("audio/mpeg", ".mp3"))
    ensures SniffAudio([0x4F, 0x67, 0x67, 0x53] + rest) == Some(AudioFormat("audio/ogg", ".ogg"))
    ensures SniffAudio([0x52, 0x49, 0x46, 0x46] + size + [0x57, 0x41, 0x56, 0x45] + rest) == Some(AudioFormat("audio/wav", ".wav"))
  {
    StartsWith([0x66, 0x4C, 0x61, 0x43], rest);
    StartsWith([0x49, 0x44, 0x33], rest);
    StartsWith([0x4F, 0x67, 0x67, 0x53], rest);
    var wav := [0x52, 0x49, 0x46, 0x46] + size + [0x57, 0x41, 0x56, 0x45] + rest;
    assert wav[0..4] == [0x52, 0x49, 0x46, 0x46] && wav[8..12] == [0x57, 0x41, 0x56, 0x45];
    SniffIsExact(wav);
  }

  lemma StartsWith(tag: Bytes, rest: Bytes)
    ensures At(tag + rest, 0, tag)
    ensures LooksFlac(tag + rest) ==> SniffAudio(tag + rest) == Some(AudioFormat("audio/flac", ".flac"))
    ensures LooksTagged(tag + rest) ==> SniffAudio(tag + rest) == Some(AudioFormat("audio/mpeg", ".mp3"))
    ensures LooksOgg(tag + rest) ==> SniffAudio(tag + rest) == Some(AudioFormat("audio/ogg", ".ogg"))
  {
    assert (tag + rest)[0..|tag|] == tag;
    SniffIsExact(tag + rest);
  }

  /** No content carries two of the signatures at its start. */
  lemma StartsExclude(c: Bytes)
    ensures LooksFlac(c) ==> !LooksTagged(c) && !LooksOgg(c) && !LooksWav(c) && !LooksFramed(c)
    ensures LooksTagged(c) ==> !LooksOgg(c) && !LooksWav(c) && !LooksFramed(c)
    ensures LooksOgg(c) ==> !LooksWav(c) && !LooksFramed(c)
    ensures LooksWav(c) ==> !LooksFramed(c)
  {
    FirstByte(c, [0x66, 0x4C, 0x61, 0x43]);
    FirstByte(c, [0x49, 0x44, 0x33]);
    FirstByte(c, [0x4F, 0x67, 0x67, 0x53]);
    FirstByte(c, [0x52, 0x49, 0x46, 0x46]);
  }

  lemma FirstByte(c: Bytes, bytes: Bytes)
    requires bytes != []
    ensures At(c, 0, bytes) ==> c[0] == bytes[0]
  {
    if At(c, 0, bytes) { assert c[0..|bytes|][0] == bytes[0]; }
  }

  /** An ftyp box stands further in, and so can stand behind any of them: the tag decides, the frame does not. */
  lemma FtypCanStandBehindATag()
    ensures var c: Bytes := [0x66, 0x4C, 0x61, 0x43, 0x66, 0x74, 0x79, 0x70, 0, 0, 0, 0];
            LooksFlac(c) && LooksMp4(c) && SniffAudio(c) == Some(AudioFormat("audio/flac", ".flac"))
    ensures var c: Bytes := [0xFF, 0xFB, 0, 0, 0x66, 0x74, 0x79, 0x70, 0, 0, 0, 0];
            LooksFramed(c) && LooksMp4(c) && SniffAudio(c) == Some(AudioFormat("audio/mp4", ".m4a"))
  {
    var tagged: Bytes := [0x66, 0x4C, 0x61, 0x43, 0x66, 0x74, 0x79, 0x70, 0, 0, 0, 0];
    assert tagged[0..4] == [0x66, 0x4C, 0x61, 0x43] && tagged[4..8] == [0x66, 0x74, 0x79, 0x70];
    SniffIsExact(tagged);
    var framed: Bytes := [0xFF, 0xFB, 0, 0, 0x66, 0x74, 0x79, 0x70, 0, 0, 0, 0];
    assert framed[4..8] == [0x66, 0x74, 0x79, 0x70];
    FirstByte(framed, [0x66, 0x4C, 0x61, 0x43]);
    FirstByte(framed, [0x49, 0x44, 0x33]);
    FirstByte(framed, [0x4F, 0x67, 0x67, 0x53]);
    FirstByte(framed, [0x52, 0x49, 0x46, 0x46]);
    SniffIsExact(framed);
  }
}
