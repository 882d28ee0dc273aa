/** The EFUSE content decoder (efuse.c): a log of blocks, each with a one- or two-byte header
    and up to four two-byte words, replayed over a logical map in which later blocks win. */
module Efuse {

  type Byte = b: int | 0 <= b < 256

  // ----- Header fields (the macros of efuse.c) -----

  predicate TwoByteForm(hdr1: Byte) {
    hdr1 % 32 == 15
  }

  predicate InvalidHeader(hdr1: Byte, hdr2: Byte) {
    hdr1 == 0xff || (TwoByteForm(hdr1) && hdr2 == 0xff)
  }

  function BlockIndex(hdr1: Byte, hdr2: Byte): nat {
    if TwoByteForm(hdr1) then hdr2 / 16 * 8 + hdr1 / 32 else hdr1 / 16
  }

  function WordEnable(hdr1: Byte, hdr2: Byte): (wordEn: nat)
    ensures wordEn < 16
  {
    if TwoByteForm(hdr1) then hdr2 % 16 else hdr1 % 16
  }

  function HeaderSize(hdr1: Byte): nat {
    if TwoByteForm(hdr1) then 2 else 1
  }

  // ----- The decoder, as a function of the bytes still to be read -----

  /** Where the word loop stands: whether it is still going, the bytes left, and the map. */
  datatype Scan = Scan(ok: bool, rest: seq<Byte>, log: seq<Byte>)

  predicate Sized(guard: nat, log: seq<Byte>) {
    guard >= 1 && |log| % 2 == 0
  }

  function Store(log: seq<Byte>, at: nat, lo: Byte, hi: Byte): (r: seq<Byte>)
    requires at + 1 < |log|
    ensures |r| == |log|
  {
    log[at := lo][at + 1 := hi]
  }

  /** The bits of word_en, lowest first: a set bit means that the word is absent. */
  function Bits(wordEn: nat): (absent: seq<bool>)
    ensures |absent| == 4
  {
    [wordEn % 2 == 1, wordEn / 2 % 2 == 1, wordEn / 4 % 2 == 1, wordEn / 8 % 2 == 1]
  }

  /** The check on the logical offset of word w. */
  predicate PastMap(w: nat, size: nat) {
    2 * w + 1 > size
  }

  /** The words of a block from word offset w of the map on, one for each flag. `bytes` ends in
      `guard` protected bytes: a word is refused when no more than those are left, or when its
      offset is past the map. */
  function DecodeWords(bytes: seq<Byte>, guard: nat, w: nat, absent: seq<bool>, log: seq<Byte>): (s: Scan)
    requires Sized(guard, log)
    ensures |s.log| == |log| && |s.rest| <= |bytes|
    decreases |absent|
  {
    if absent == [] then Scan(true, bytes, log)
    else if absent[0] then DecodeWords(bytes, guard, w + 1, absent[1..], log)
    else if |bytes| <= guard || PastMap(w, |log|) then Scan(false, bytes, log)
    else DecodeWords(bytes[2..], guard, w + 1, absent[1..], Store(log, 2 * w, bytes[0], bytes[1]))
  }

  /** One iteration of the outer loop, on a valid header. */
  function DecodeBlock(bytes: seq<Byte>, guard: nat, log: seq<Byte>): (s: Scan)
    requires Sized(guard, log) && |bytes| > guard
    ensures |s.log| == |log| && |s.rest| < |bytes|
  {
    var hdr1, hdr2 := bytes[0], bytes[1];
    DecodeWords(bytes[HeaderSize(hdr1)..], guard, 4 * BlockIndex(hdr1, hdr2), Bits(WordEnable(hdr1, hdr2)), log)
  }

  /** The outer loop. A false result is the -EINVAL return. */
  function Decode(bytes: seq<Byte>, guard: nat, log: seq<Byte>): (r: (bool, seq<Byte>))
    requires Sized(guard, log)
    ensures |r.1| == |log|
    decreases |bytes|
  {
    if |bytes| <= guard || InvalidHeader(bytes[0], bytes[1]) then (true, log)
    else
      var s := DecodeBlock(bytes, guard, log);
      if s.ok then Decode(s.rest, guard, s.log) else (false, s.log)
  }

  method StoreWord(logMap: array<Byte>, at: nat, lo: Byte, hi: Byte)
    requires at + 1 < logMap.Length
    modifies logMap
    ensures logMap[..] == Store(old(logMap[..]), at, lo, hi)
  {
    logMap[at] := lo;
    logMap[at + 1] := hi;
  }

  /** The word loop of one block, in place. */
  method DumpWords(phyMap: array<Byte>, logMap: array<Byte>, limit: nat, blkIdx: nat, absent: seq<bool>, start: nat)
    returns (ok: bool, pos: nat)
    requires phyMap != logMap && start <= phyMap.Length && limit < phyMap.Length
    requires logMap.Length % 2 == 0 && |absent| == 4
    modifies logMap
    ensures start <= pos <= phyMap.Length
    ensures DecodeWords(phyMap[start..], phyMap.Length - limit, 4 * blkIdx, absent, old(logMap[..]))
         == Scan(ok, phyMap[pos..], logMap[..])
  {
    ghost var guard := phyMap.Length - limit;
    ghost var s := DecodeWords(phyMap[start..], guard, 4 * blkIdx, absent, logMap[..]);
    pos := start;
    assert absent[0..] == absent;
    for i := 0 to 4
      invariant start <= pos <= phyMap.Length
      invariant DecodeWords(phyMap[pos..], guard, 4 * blkIdx + i, absent[i..], logMap[..]) == s
    {
      assert absent[i..][1..] == absent[i + 1..];
      if absent[i] {
        continue;
      }
      var logIdx := 8 * blkIdx + 2 * i;
      if pos + 1 > limit || logIdx + 1 > logMap.Length {
        return false, pos;
      }
      StoreWord(logMap, logIdx, phyMap[pos], phyMap[pos + 1]);
      assert phyMap[pos..][2..] == phyMap[pos + 2..];
      pos := pos + 2;
    }
    return true, pos;
  }

  /** rtw_dump_logical_efuse_map: in place, over buffers. Termination, and every index being in
      bounds for arbitrary bytes, are part of what is verified here. */
  method DumpLogicalMap(phyMap: array<Byte>, logMap: array<Byte>, protectSize: nat) returns (ok: bool)
    requires phyMap != logMap
    requires 1 <= protectSize <= phyMap.Length && logMap.Length % 2 == 0
    modifies logMap
    ensures (ok, logMap[..]) == Decode(phyMap[..], protectSize, old(logMap[..]))
  {
    var limit := phyMap.Length - protectSize;
    var pos: nat := 0;
    assert phyMap[0..] == phyMap[..];
    while pos < limit
      invariant pos <= phyMap.Length
      invariant Decode(phyMap[pos..], protectSize, logMap[..]) == Decode(phyMap[..], protectSize, old(logMap[..]))
      decreases phyMap.Length - pos
    {
      var hdr1, hdr2 := phyMap[pos], phyMap[pos + 1];
      if InvalidHeader(hdr1, hdr2) {
        return true;
      }
      assert phyMap[pos..][HeaderSize(hdr1)..] == phyMap[pos + HeaderSize(hdr1)..];
      pos := pos + HeaderSize(hdr1);
      ok, pos := DumpWords(phyMap, logMap, limit, BlockIndex(hdr1, hdr2), Bits(WordEnable(hdr1, hdr2)), pos);
      if !ok {
        return false;
      }
    }
    return true;
  }

  // ----- Blocks, their meaning, and the encoder of the format comment -----

  datatype Word = Skip | Write(lo: Byte, hi: Byte)

  /** One logged block; `long` chooses the two-byte header. */
  datatype Block = Block(long: bool, idx: nat, words: seq<Word>)

  function Skips(words: seq<Word>): (absent: seq<bool>)
    ensures |absent| == |words|
  {
    seq(|words|, i requires 0 <= i < |words| => words[i].Skip?)
  }

  /** word_en: bit i is set when word i is skipped. */
  function WordEn(words: seq<Word>): (wordEn: nat)
    requires |words| == 4
    ensures wordEn < 16
  {
    (if words[0].Skip? then 1 else 0) + (if words[1].Skip? then 2 else 0)
    + (if words[2].Skip? then 4 else 0) + (if words[3].Skip? then 8 else 0)
  }

  /** word_en and the flags say the same, in both directions. */
  lemma BitsOfWordEn(words: seq<Word>, wordEn: nat)
    requires |words| == 4 && wordEn < 16
    ensures Bits(wordEn) == Skips(words) <==> wordEn == WordEn(words)
  {
    assert wordEn == wordEn % 2 + 2 * (wordEn / 2 % 2) + 4 * (wordEn / 4 % 2) + 8 * (wordEn / 8 % 2);
    forall i | 0 <= i < 4
      ensures Bits(WordEn(words))[i] == Skips(words)[i]
    {
    }
    assert Bits(WordEn(words)) == Skips(words);
    if Bits(wordEn) == Skips(words) {
      assert Bits(wordEn)[0] == words[0].Skip? && Bits(wordEn)[1] == words[1].Skip?;
      assert Bits(wordEn)[2] == words[2].Skip? && Bits(wordEn)[3] == words[3].Skip?;
    }
  }

  /** The blocks that have an encoding: an index in range for the header form, and a header that
      reads neither as the other form nor as the end of the log. */
  predicate Encodable(b: Block) {
    && |b.words| == 4
    && if b.long then
         b.idx < 128 && !(b.idx >= 120 && WordEn(b.words) == 15)
       else
         b.idx < 16 && !(WordEn(b.words) == 15 && (b.idx % 2 == 0 || b.idx == 15))
  }

  predicate AllEncodable(blocks: seq<Block>) {
    forall k :: 0 <= k < |blocks| ==> Encodable(blocks[k])
  }

  /** A block that writes at least one word has an encoding exactly when its index fits the form. */
  lemma SomeWordMakesEncodable(b: Block)
    requires |b.words| == 4 && exists i :: 0 <= i < 4 && b.words[i].Write?
    ensures Encodable(b) <==> b.idx < if b.long then 128 else 16
  {
    assert WordEn(b.words) != 15;
  }

  function Header(b: Block): (h: seq<Byte>)
    requires Encodable(b)
    ensures |h| == if b.long then 2 else 1
  {
    if b.long then [b.idx % 8 * 32 + 15, b.idx / 8 * 16 + WordEn(b.words)]
    else [b.idx * 16 + WordEn(b.words)]
  }

  function Payload(words: seq<Word>): (p: seq<Byte>) {
    if words == [] then []
    else (if words[0].Skip? then [] else [words[0].lo, words[0].hi]) + Payload(words[1..])
  }

  function Encode(blocks: seq<Block>): (e: seq<Byte>)
    requires AllEncodable(blocks)
  {
    if blocks == [] then [] else Header(blocks[0]) + Payload(blocks[0].words) + Encode(blocks[1..])
  }

  /** Writing the words of a block from word offset w on; false when one is past the map. */
  function ApplyWords(words: seq<Word>, w: nat, log: seq<Byte>): (r: (bool, seq<Byte>))
    requires |log| % 2 == 0
    ensures |r.1| == |log|
  {
    if words == [] then (true, log)
    else if words[0].Skip? then ApplyWords(words[1..], w + 1, log)
    else if 2 * w >= |log| then (false, log)
    else ApplyWords(words[1..], w + 1, Store(log, 2 * w, words[0].lo, words[0].hi))
  }

  /** The meaning of a list of blocks: write them one after the other. */
  function Apply(blocks: seq<Block>, log: seq<Byte>): (r: (bool, seq<Byte>))
    requires |log| % 2 == 0
    ensures |r.1| == |log|
  {
    if blocks == [] then (true, log)
    else
      var r := ApplyWords(blocks[0].words, 4 * blocks[0].idx, log);
      if r.0 then Apply(blocks[1..], r.1) else r
  }

  // ----- Round trip: decoding an encoding -----

  lemma Assoc<T>(a: seq<T>, b: seq<T>, c: seq<T>)
    ensures (a + b) + c == a + (b + c)
  {
  }

  lemma HeaderReadsBack(b: Block, hdr1: Byte, hdr2: Byte)
    requires Encodable(b) && Header(b) == if b.long then [hdr1, hdr2] else [hdr1]
    ensures !InvalidHeader(hdr1, hdr2) && HeaderSize(hdr1) == |Header(b)|
    ensures BlockIndex(hdr1, hdr2) == b.idx && WordEnable(hdr1, hdr2) == WordEn(b.words)
  {
    hide WordEn;
    if b.long {
      LongHeaderFields(b.idx, WordEn(b.words));
    } else {
      ShortHeaderFields(b.idx, WordEn(b.words));
    }
  }

  lemma LongHeaderFields(idx: nat, wordEn: nat)
    requires idx < 128 && wordEn < 16
    ensures var hdr1, hdr2 := idx % 8 * 32 + 15, idx / 8 * 16 + wordEn;
            hdr1 % 32 == 15 && hdr2 / 16 * 8 + hdr1 / 32 == idx && hdr2 % 16 == wordEn
  {
  }

  lemma ShortHeaderFields(idx: nat, wordEn: nat)
    requires idx < 16 && wordEn < 16
    ensures var hdr1 := idx * 16 + wordEn;
            hdr1 % 32 == idx % 2 * 16 + wordEn && hdr1 / 16 == idx && hdr1 % 16 == wordEn
  {
  }

  lemma {:induction false} WordsRoundTrip(words: seq<Word>, tail: seq<Byte>, guard: nat, w: nat, log: seq<Byte>)
    requires Sized(guard, log) && guard <= |tail|
    ensures var s := DecodeWords(Payload(words) + tail, guard, w, Skips(words), log);
            (s.ok, s.log) == ApplyWords(words, w, log) && (s.ok ==> s.rest == tail)
    decreases |words|
  {
    var bytes := Payload(words) + tail;
    if words == [] {
      assert bytes == tail;
    } else {
      var more := Payload(words[1..]) + tail;
      assert Skips(words)[1..] == Skips(words[1..]);
      if words[0].Skip? {
        assert bytes == more;
        WordsRoundTrip(words[1..], tail, guard, w + 1, log);
      } else {
        assert bytes == [words[0].lo, words[0].hi] + more;
        assert bytes[2..] == more;
        if 2 * w < |log| {
          WordsRoundTrip(words[1..], tail, guard, w + 1, Store(log, 2 * w, words[0].lo, words[0].hi));
        }
      }
    }
  }

  lemma BlockRoundTrip(b: Block, tail: seq<Byte>, guard: nat, log: seq<Byte>)
    requires Encodable(b) && Sized(guard, log) && guard <= |tail|
    ensures var bytes := Header(b) + Payload(b.words) + tail;
            && |bytes| > guard && !InvalidHeader(bytes[0], bytes[1])
            && var s := DecodeBlock(bytes, guard, log);
               (s.ok, s.log) == ApplyWords(b.words, 4 * b.idx, log) && (s.ok ==> s.rest == tail)
  {
    var body := Payload(b.words) + tail;
    var bytes := Header(b) + Payload(b.words) + tail;
    Assoc(Header(b), Payload(b.words), tail);
    assert bytes[..|Header(b)|] == Header(b) && bytes[|Header(b)|..] == body;
    HeaderReadsBack(b, bytes[0], bytes[1]);
    BitsOfWordEn(b.words, WordEn(b.words));
    hide InvalidHeader, BlockIndex, WordEnable, HeaderSize, Encodable, Header, Bits, WordEn;
    WordsRoundTrip(b.words, tail, guard, 4 * b.idx, log);
  }

  /** Decoding any encoded log, ended by the protected bytes or by a blank one, gives its meaning:
      the same map when every word fits, and -EINVAL at the same word when one does not. */
  lemma {:induction false} RoundTrip(blocks: seq<Block>, tail: seq<Byte>, guard: nat, log: seq<Byte>)
    requires AllEncodable(blocks) && Sized(guard, log)
    requires guard <= |tail| && (|tail| == guard || tail[0] == 0xff)
    ensures Decode(Encode(blocks) + tail, guard, log) == Apply(blocks, log)
    decreases |blocks|
  {
    if blocks == [] {
      assert Encode(blocks) + tail == tail;
    } else {
      hide DecodeBlock, InvalidHeader, Header, Payload, ApplyWords, Encodable;
      var b, more := blocks[0], Encode(blocks[1..]) + tail;
      Assoc(Header(b) + Payload(b.words), Encode(blocks[1..]), tail);
      BlockRoundTrip(b, more, guard, log);
      var r := ApplyWords(b.words, 4 * b.idx, log);
      if r.0 {
        RoundTrip(blocks[1..], tail, guard, r.1);
      }
    }
  }

  // ----- The other direction: whatever the decoder accepts is an encoding -----

  /** The words that the flags announce, taken from the front of the bytes. */
  function AnnouncedWords(bytes: seq<Byte>, absent: seq<bool>): (words: seq<Word>)
    ensures |words| == |absent|
    decreases |absent|
  {
    if absent == [] then []
    else if absent[0] || |bytes| < 2 then [Skip] + AnnouncedWords(bytes, absent[1..])
    else [Write(bytes[0], bytes[1])] + AnnouncedWords(bytes[2..], absent[1..])
  }

  lemma {:induction false} WordsAccepted(bytes: seq<Byte>, guard: nat, w: nat, absent: seq<bool>, log: seq<Byte>)
    requires Sized(guard, log) && DecodeWords(bytes, guard, w, absent, log).ok
    ensures var s := DecodeWords(bytes, guard, w, absent, log);
            var words := AnnouncedWords(bytes, absent);
            bytes == Payload(words) + s.rest && ApplyWords(words, w, log) == (true, s.log)
    decreases |absent|
  {
    if absent != [] {
      var words := AnnouncedWords(bytes, absent);
      if absent[0] {
        assert words[1..] == AnnouncedWords(bytes, absent[1..]);
        WordsAccepted(bytes, guard, w + 1, absent[1..], log);
      } else {
        assert words[1..] == AnnouncedWords(bytes[2..], absent[1..]);
        assert bytes == [bytes[0], bytes[1]] + bytes[2..];
        WordsAccepted(bytes[2..], guard, w + 1, absent[1..], Store(log, 2 * w, bytes[0], bytes[1]));
      }
    }
  }

  lemma {:induction false} AnnouncedSkips(bytes: seq<Byte>, guard: nat, w: nat, absent: seq<bool>, log: seq<Byte>)
    requires Sized(guard, log) && DecodeWords(bytes, guard, w, absent, log).ok
    ensures Skips(AnnouncedWords(bytes, absent)) == absent
    decreases |absent|
  {
    if absent != [] {
      var words := AnnouncedWords(bytes, absent);
      if absent[0] {
        AnnouncedSkips(bytes, guard, w + 1, absent[1..], log);
      } else {
        AnnouncedSkips(bytes[2..], guard, w + 1, absent[1..], Store(log, 2 * w, bytes[0], bytes[1]));
      }
      assert Skips(words) == [words[0].Skip?] + Skips(words[1..]);
    }
  }

  lemma HeaderRebuilt(b: Block, hdr1: Byte, hdr2: Byte)
    requires |b.words| == 4 && !InvalidHeader(hdr1, hdr2)
    requires b.long == TwoByteForm(hdr1) && b.idx == BlockIndex(hdr1, hdr2) && WordEn(b.words) == WordEnable(hdr1, hdr2)
    ensures Encodable(b) && Header(b) == if b.long then [hdr1, hdr2] else [hdr1]
  {
    hide WordEn;
    if b.long {
      assert hdr1 == hdr1 / 32 * 32 + 15 && hdr2 == hdr2 / 16 * 16 + hdr2 % 16;
    }
  }

  lemma AcceptedBlock(bytes: seq<Byte>, guard: nat, log: seq<Byte>) returns (b: Block)
    requires Sized(guard, log) && |bytes| > guard && !InvalidHeader(bytes[0], bytes[1])
    requires DecodeBlock(bytes, guard, log).ok
    ensures Encodable(b)
    ensures var s := DecodeBlock(bytes, guard, log);
            bytes == Header(b) + Payload(b.words) + s.rest && ApplyWords(b.words, 4 * b.idx, log) == (true, s.log)
  {
    var hdr1, hdr2 := bytes[0], bytes[1];
    var idx, wordEn, body := BlockIndex(hdr1, hdr2), WordEnable(hdr1, hdr2), bytes[HeaderSize(hdr1)..];
    WordsAccepted(body, guard, 4 * idx, Bits(wordEn), log);
    AnnouncedSkips(body, guard, 4 * idx, Bits(wordEn), log);
    b := Block(TwoByteForm(hdr1), idx, AnnouncedWords(body, Bits(wordEn)));
    BitsOfWordEn(b.words, wordEn);
    HeaderRebuilt(b, hdr1, hdr2);
    hide BlockIndex, WordEnable, AnnouncedWords, WordEn, Payload, ApplyWords, Bits, Skips;
    assert bytes == Header(b) + body;
  }

  /** For arbitrary bytes: a log that decodes is the encoding of some blocks followed by the end
      of the log, and the decoded map is what those blocks mean. */
  lemma {:induction false} AcceptedIsEncoding(bytes: seq<Byte>, guard: nat, log: seq<Byte>)
    returns (blocks: seq<Block>, rest: seq<Byte>)
    requires Sized(guard, log) && Decode(bytes, guard, log).0
    ensures AllEncodable(blocks) && bytes == Encode(blocks) + rest
    ensures |rest| <= guard || InvalidHeader(rest[0], rest[1])
    ensures Decode(bytes, guard, log) == Apply(blocks, log)
    decreases |bytes|
  {
    if |bytes| <= guard || InvalidHeader(bytes[0], bytes[1]) {
      blocks, rest := [], bytes;
      assert bytes == [] + bytes;
    } else {
      var s := DecodeBlock(bytes, guard, log);
      var b := AcceptedBlock(bytes, guard, log);
      hide DecodeBlock, Encodable, Header, Payload;
      var more;
      more, rest := AcceptedIsEncoding(s.rest, guard, s.log);
      blocks := [b] + more;
      assert blocks[1..] == more;
      assert bytes == Header(b) + Payload(b.words) + Encode(more) + rest;
    }
  }

  // ----- What the meaning is: the last writer wins, everything else keeps its byte -----

  predicate Writes(b: Block, at: nat) {
    8 * b.idx <= at < 8 * b.idx + 2 * |b.words| && b.words[(at - 8 * b.idx) / 2].Write?
  }

  function Written(b: Block, at: nat): Byte
    requires Writes(b, at)
  {
    var w := b.words[(at - 8 * b.idx) / 2];
    if at % 2 == 0 then w.lo else w.hi
  }

  /** The byte at `at` after the blocks, looking at them from the last one back. */
  function LastWriter(blocks: seq<Block>, at: nat, blank: Byte): Byte {
    if blocks == [] then blank
    else if Writes(blocks[|blocks| - 1], at) then Written(blocks[|blocks| - 1], at)
    else LastWriter(blocks[..|blocks| - 1], at, blank)
  }

  /** Every word the block writes, from word i on, starts inside a map of this size. */
  predicate FitsFrom(b: Block, i: nat, size: nat) {
    forall k :: i <= k < |b.words| && b.words[k].Write? ==> 8 * b.idx + 2 * k < size
  }

  predicate Fits(b: Block, size: nat) {
    FitsFrom(b, 0, size)
  }

  lemma {:induction false} ApplyWordsFits(b: Block, i: nat, log: seq<Byte>)
    requires i <= |b.words| && |log| % 2 == 0
    ensures ApplyWords(b.words[i..], 4 * b.idx + i, log).0 <==> FitsFrom(b, i, |log|)
    decreases |b.words| - i
  {
    if i < |b.words| {
      assert b.words[i..][1..] == b.words[i + 1..];
      var at := 8 * b.idx + 2 * i;
      ApplyWordsFits(b, i + 1,
                     if b.words[i].Write? && at < |log| then Store(log, at, b.words[i].lo, b.words[i].hi) else log);
    }
  }

  lemma {:induction false} ApplyWordsAt(b: Block, i: nat, log: seq<Byte>, at: nat)
    requires i <= |b.words| && |log| % 2 == 0 && at < |log|
    ensures var r := ApplyWords(b.words[i..], 4 * b.idx + i, log);
            r.0 ==> r.1[at] == if at >= 8 * b.idx + 2 * i && Writes(b, at) then Written(b, at) else log[at]
    decreases |b.words| - i
  {
    if i < |b.words| {
      assert b.words[i..][1..] == b.words[i + 1..];
      var here := 8 * b.idx + 2 * i;
      if b.words[i].Skip? {
        ApplyWordsAt(b, i + 1, log, at);
      } else if here < |log| {
        ApplyWordsAt(b, i + 1, Store(log, here, b.words[i].lo, b.words[i].hi), at);
      }
    }
  }

  lemma {:induction false} LastWriterCons(blocks: seq<Block>, at: nat, blank: Byte)
    requires blocks != []
    ensures LastWriter(blocks, at, blank)
         == LastWriter(blocks[1..], at, if Writes(blocks[0], at) then Written(blocks[0], at) else blank)
    decreases |blocks|
  {
    if |blocks| > 1 {
      var n := |blocks| - 1;
      assert blocks[1..][..n - 1] == blocks[..n][1..];
      LastWriterCons(blocks[..n], at, blank);
    }
  }

  /** The decoded map, byte by byte; it exists exactly when no block writes past the map. */
  lemma {:induction false} LastWriterWins(blocks: seq<Block>, log: seq<Byte>)
    requires |log| % 2 == 0
    ensures Apply(blocks, log).0 <==> forall k :: 0 <= k < |blocks| ==> Fits(blocks[k], |log|)
    ensures Apply(blocks, log).0 ==>
              forall at :: 0 <= at < |log| ==> Apply(blocks, log).1[at] == LastWriter(blocks, at, log[at])
    decreases |blocks|
  {
    if blocks != [] {
      var b := blocks[0];
      assert b.words[0..] == b.words;
      ApplyWordsFits(b, 0, log);
      var r := ApplyWords(b.words, 4 * b.idx, log);
      assert r.0 <==> Fits(b, |log|);
      hide ApplyWords, FitsFrom, Fits;
      if r.0 {
        LastWriterWins(blocks[1..], r.1);
        forall at | 0 <= at < |log|
          ensures LastWriter(blocks, at, log[at]) == LastWriter(blocks[1..], at, r.1[at])
        {
          ApplyWordsAt(b, 0, log, at);
          LastWriterCons(blocks, at, log[at]);
        }
      }
    }
  }

  /** The blank map that rtw_parse_efuse_map hands to the decoder. */
  function BlankMap(size: nat): seq<Byte> {
    seq(size, _ => 0xff)
  }

  /** The two together: what parsing an encoded EFUSE image yields, byte by byte. */
  lemma ParsedImage(blocks: seq<Block>, tail: seq<Byte>, guard: nat, size: nat)
    requires AllEncodable(blocks) && guard >= 1 && size % 2 == 0
    requires guard <= |tail| && (|tail| == guard || tail[0] == 0xff)
    ensures var r := Decode(Encode(blocks) + tail, guard, BlankMap(size));
            && (r.0 <==> forall k :: 0 <= k < |blocks| ==> Fits(blocks[k], size))
            && (r.0 ==> forall at :: 0 <= at < size ==> r.1[at] == LastWriter(blocks, at, 0xff))
  {
    RoundTrip(blocks, tail, guard, BlankMap(size));
    LastWriterWins(blocks, BlankMap(size));
  }

  /** A header that a log may hold addresses word w of the map with one of its present words. */
  predicate Addresses(hdr1: Byte, hdr2: Byte, i: nat, w: nat) {
    && i < 4 && !InvalidHeader(hdr1, hdr2) && w == 4 * BlockIndex(hdr1, hdr2) + i
    && !Bits(WordEnable(hdr1, hdr2))[i]
  }

  /** The decoder's one check on the logical offset keeps both byte writes inside the map, for every
      word that a log can address, exactly when the map's size is even or no block reaches its end. */
  lemma LogicalGuardIsExact(size: nat)
    ensures (forall hdr1, hdr2, i: nat, w: nat :: Addresses(hdr1, hdr2, i, w) && !PastMap(w, size) ==> 2 * w + 1 < size)
       <==> size % 2 == 0 || size > 1023
  {
    forall hdr1, hdr2, i: nat, w: nat | Addresses(hdr1, hdr2, i, w)
      ensures w < 512
    {
      BlocksAreFew(hdr1, hdr2);
    }
    if size % 2 == 1 && size <= 1023 {
      LastWordIsAddressed(size / 2);
    }
  }

  lemma BlocksAreFew(hdr1: Byte, hdr2: Byte)
    ensures BlockIndex(hdr1, hdr2) < 128
  {
  }

  lemma LastWordIsAddressed(w: nat)
    requires w < 512
    ensures exists hdr1, hdr2, i: nat :: Addresses(hdr1, hdr2, i, w)
  {
    var idx := w / 4;
    LongHeaderFields(idx, 0);
    var hdr1: Byte, hdr2: Byte := idx % 8 * 32 + 15, idx / 8 * 16;
    assert Addresses(hdr1, hdr2, w % 4, w);
  }
}
