/** `weatherservicesradar.py`: the reader for the DWD radar composites HG, WN
    and RV. A product is an ASCII header ended by the byte 0x03, followed by
    the readings as little-endian words; the reader maps a position to the
    reading of its 1 km grid cell and the reading to a wawa code, and the
    radar thread keeps the records of the last hour. */
module Radar {
  import opened Builtins

  type Byte = b: int | 0 <= b < 256

  // ------------------------------------------------------------ tables

  /** `WAWA[reading]`: None where the reading is no key of the table (a
      KeyError); Some(None) for "no echo" and "no data". */
  function Wawa(reading: int): (r: Option<Option<int>>)
    ensures r.Some? <==> reading in {0, 2147483648, 1, 16777216, 8192, 4096, 64, 80, 20, 16, 12, 8}
    ensures r.Some? && r.value.Some? ==> r.value.value in {0, 40, 50, 54, 60, 64, 67, 70, 74, 89}
  {
    if reading == 0 || reading == 2147483648 then Some(None)
    else if reading == 1 then Some(Some(40))
    else if reading == 16777216 then Some(Some(0))
    else if reading == 8192 then Some(Some(89))
    else if reading == 4096 then Some(Some(74))
    else if reading == 64 then Some(Some(70))
    else if reading == 80 then Some(Some(67))
    else if reading == 20 then Some(Some(64))
    else if reading == 16 then Some(Some(60))
    else if reading == 12 then Some(Some(54))
    else if reading == 8 then Some(Some(50))
    else None
  }

  /** `HEADER_FMT[key]`: the kind ('I' number, 'A' text) and the width of
      each field of the variable header. */
  function HeaderFmt(key: string): (r: Option<(char, nat)>)
    ensures r.Some? ==> (r.value.0 == 'I' || r.value.0 == 'A') && r.value.1 > 0
  {
    if key == "BY" then Some(('I', 10))
    else if key == "VS" then Some(('I', 2))
    else if key == "SW" then Some(('A', 9))
    else if key == "PR" then Some(('A', 5))
    else if key == "INT" then Some(('I', 4))
    else if key == "GP" then Some(('A', 9))
    else if key == "VV" then Some(('I', 4))
    else if key == "MF" then Some(('I', 9))
    else if key == "MS" then Some(('A', 3))
    else None
  }

  lemma HeaderFmtLength()
    ensures HeaderFmt("MS") == Some(('A', 3))
  {
  }

  /** No key of `HEADER_FMT` is a proper prefix of another, so a key is
      recognised exactly when its last character has been read. */
  lemma HeaderKeysPrefixFree(key: string, j: nat)
    requires HeaderFmt(key).Some? && 0 < j < |key|
    ensures HeaderFmt(key[..j]).None?
  {
    assert |key[..j]| == j;
    if key == "INT" {
      assert key[..j] == "I" || key[..j] == "IN";
    }
  }

  /** `DATA_SIZE[product]`, 256 for a product the table lacks: the weight of
      the last byte of a word. */
  function DataSize(product: string): (r: int)
    ensures r == 256 || r == 16777216
  {
    if product == "HG" then 16777216
    else if product == "WN" || product == "RV" then 256
    else 256
  }

  /** 256 to the power `k`. */
  function Pow256(k: nat): (r: nat)
    ensures r > 0
  {
    if k == 0 then 1 else 256 * Pow256(k - 1)
  }

  /** The number of bytes in a word: the data size is the weight of the
      last byte, so HG words have 4 bytes and all others 2. */
  function WordBytes(product: string): (n: nat)
    ensures (n == 2 || n == 4) && Pow256(n - 1) == DataSize(product)
  {
    assert Pow256(1) == 256 && Pow256(3) == 16777216;
    if DataSize(product) == 16777216 then 4 else 2
  }

  // ------------------------------------------------------- header bytes

  /** `bytes.decode('ascii', errors='replace')` of one byte. */
  function AsciiChar(b: Byte): char {
    if b < 128 then b as char else '\U{FFFD}'
  }

  function Decode(s: seq<Byte>): (t: string)
    ensures |t| == |s|
  {
    seq(|s|, i requires 0 <= i < |s| => AsciiChar(s[i]))
  }

  /** Decoding byte by byte, the text of two pieces is the two texts. */
  lemma DecodeAppend(a: seq<Byte>, b: seq<Byte>)
    ensures Decode(a + b) == Decode(a) + Decode(b)
  {
    assert forall i :: 0 <= i < |a + b| ==> Decode(a + b)[i] == (Decode(a) + Decode(b))[i];
  }

  /** The chunks of the input, one after the other. */
  function Flatten(chunks: seq<seq<Byte>>): seq<Byte> {
    if chunks == [] then [] else Flatten(chunks[..|chunks| - 1]) + chunks[|chunks| - 1]
  }

  /** `s.find(b)`: the first position holding `b`, or -1. */
  function Find(s: seq<Byte>, b: Byte): (i: int)
    ensures -1 <= i < |s|
    ensures i == -1 <==> b !in s
    ensures i >= 0 ==> s[i] == b && b !in s[..i]
  {
    if s == [] then -1
    else if s[0] == b then 0
    else
      var j := Find(s[1..], b);
      if j == -1 then -1
      else
        assert s[..j + 1] == [s[0]] + s[1..][..j];
        j + 1
  }

  /** The header: everything before the first 0x03. */
  function HeaderBytes(s: seq<Byte>): seq<Byte> {
    if 3 in s then s[..Find(s, 3)] else s
  }

  /** The payload: everything after the first 0x03, nothing without one. */
  function Payload(s: seq<Byte>): seq<Byte> {
    if 3 in s then s[Find(s, 3) + 1..] else []
  }

  /** Header and payload are the two sides of the first 0x03 and give the
      input back. */
  lemma HeaderPayloadSplit(s: seq<Byte>)
    ensures 3 !in HeaderBytes(s)
    ensures 3 in s ==> s == HeaderBytes(s) + [3] + Payload(s)
    ensures 3 !in s ==> HeaderBytes(s) == s && Payload(s) == []
  {
    if 3 in s {
      assert s == s[..Find(s, 3)] + [3] + s[Find(s, 3) + 1..];
    }
  }

  /** The first 0x03 after a stretch without one is found right there. */
  lemma {:induction false} FindAfter(h: seq<Byte>, rest: seq<Byte>)
    requires 3 !in h && |rest| > 0 && rest[0] == 3
    ensures Find(h + rest, 3) == |h|
  {
    if h != [] {
      assert (h + rest)[1..] == h[1..] + rest;
      assert (h + rest)[0] == h[0];
      FindAfter(h[1..], rest);
    }
  }

  /** Any cut of the input at a 0x03 with none before it is the cut
      `HeaderBytes`/`Payload` make. */
  lemma HeaderPayloadUnique(s: seq<Byte>, h: seq<Byte>, p: seq<Byte>)
    requires s == h + [3] + p && 3 !in h
    ensures HeaderBytes(s) == h && Payload(s) == p
  {
    assert s == h + ([3] + p);
    FindAfter(h, [3] + p);
    assert s[|h|] == 3;
  }

  // -------------------------------------------------------------- words

  /** The value of bytes read least significant first. */
  function LittleEndian(s: seq<Byte>): nat {
    if s == [] then 0 else s[0] + 256 * LittleEndian(s[1..])
  }

  /** One more byte at the top adds its weight. */
  lemma {:induction false} LittleEndianAppend(s: seq<Byte>, b: Byte)
    ensures LittleEndian(s + [b]) == LittleEndian(s) + b * Pow256(|s|)
  {
    if s != [] {
      assert (s + [b])[1..] == s[1..] + [b];
      LittleEndianAppend(s[1..], b);
      var x, p := LittleEndian(s[1..]), Pow256(|s| - 1);
      assert LittleEndian(s + [b]) == s[0] + 256 * (x + b * p);
      ShiftByte(x, b, p);
      assert Pow256(|s|) == 256 * p;
    }
  }

  lemma ShiftByte(x: int, b: int, p: int)
    ensures 256 * (x + b * p) == 256 * x + b * (256 * p)
  {
  }

  /** Division by a word length, spelled out. */
  lemma DivWord(q: nat, m: nat, n: nat)
    requires n == 2 || n == 4
    ensures (q * n + m) / n == q + m / n && (q * n + m) % n == m % n
  {
    if n == 2 {
      assert q * n + m == 2 * q + m;
    } else {
      assert q * n + m == 4 * q + m;
    }
  }

  lemma WordFits(len: nat, n: nat, i: nat)
    requires n == 2 || n == 4
    requires i < len / n
    ensures i * n + n <= len
  {
    if n == 2 {
      assert i * n + n == 2 * i + 2;
    } else {
      assert i * n + n == 4 * i + 4;
    }
  }

  /** The readings: the payload cut into words of `n` bytes; a trailing
      partial word is no reading. */
  function Words(p: seq<Byte>, n: nat): (w: seq<nat>)
    requires n == 2 || n == 4
    ensures |w| == |p| / n
  {
    seq(|p| / n, i requires 0 <= i < |p| / n =>
      WordFits(|p|, n, i);
      LittleEndian(p[i * n..i * n + n]))
  }

  /** Bytes added at the end leave the complete words before them alone. */
  lemma WordsExtend(p: seq<Byte>, extra: seq<Byte>, n: nat)
    requires n == 2 || n == 4
    ensures |(p + extra)| / n >= |p| / n
    ensures Words(p + extra, n)[..|p| / n] == Words(p, n)
  {
    var q := |p| / n;
    DivWord(q, |p| % n, n);
    DivWord(q, |p| % n + |extra|, n);
    assert |p + extra| == q * n + (|p| % n + |extra|);
    forall i | 0 <= i < q
      ensures Words(p + extra, n)[i] == Words(p, n)[i]
    {
      WordFits(|p|, n, i);
      assert (p + extra)[i * n..i * n + n] == p[i * n..i * n + n];
    }
  }

  /** The state of the byte loop after the payload `p`: the complete words
      are stored, `acc` (the source's `by`) holds the value of the started
      word and `ct` the weight of its next byte. */
  predicate Assembled(p: seq<Byte>, n: nat, data: seq<int>, acc: int, ct: int)
    requires n == 2 || n == 4
  {
    data == Words(p, n) && acc == LittleEndian(p[|p| - |p| % n..]) && ct == Pow256(|p| % n)
  }

  /** One more byte: a word is complete exactly when the started one had
      `n - 1` bytes. */
  lemma DivStep(len: nat, n: nat)
    requires n == 2 || n == 4
    ensures len % n == n - 1 ==> (len + 1) / n == len / n + 1 && (len + 1) % n == 0
    ensures len % n != n - 1 ==> (len + 1) / n == len / n && (len + 1) % n == len % n + 1
  {
    DivWord(len / n, len % n, n);
    if len % n == n - 1 {
      DivWord(len / n + 1, 0, n);
      assert (len / n + 1) * n + 0 == len + 1;
    } else {
      DivWord(len / n, len % n + 1, n);
    }
  }

  /** The weight of the next byte reaches the data size only at the last
      byte of a word. */
  lemma LastByteWeight(r: nat, n: nat, dataSize: int)
    requires (n == 2 && dataSize == 256) || (n == 4 && dataSize == 16777216)
    requires r < n
    ensures Pow256(r) == dataSize <==> r == n - 1
  {
    assert Pow256(0) == 1 && Pow256(1) == 256 && Pow256(2) == 65536 && Pow256(3) == 16777216;
  }

  /** The words of a payload of `q + 1` words are its first `q` words and
      the value of its last `n` bytes. */
  lemma LastWord(p: seq<Byte>, n: nat, q: nat)
    requires n == 2 || n == 4
    requires |p| == q * n + n
    ensures Words(p, n) == Words(p, n)[..q] + [LittleEndian(p[q * n..])]
  {
    DivWord(q + 1, 0, n);
    assert (q + 1) * n == |p|;
    var w := Words(p, n);
    assert |w| == q + 1;
    assert w[q] == LittleEndian(p[q * n..q * n + n]);
    assert p[q * n..q * n + n] == p[q * n..];
  }

  /** The last byte of a word completes it. */
  lemma CompleteWord(p: seq<Byte>, n: nat, b: Byte)
    requires n == 2 || n == 4
    requires |p| % n == n - 1
    ensures Assembled(p + [b], n, Words(p, n) + [LittleEndian(p[|p| - |p| % n..]) + b * Pow256(|p| % n)], 0, 1)
  {
    CompleteWords(p, n, b);
    var p' := p + [b];
    assert |p'| % n == 0 by {
      DivStep(|p|, n);
    }
    assert p'[|p'| - |p'| % n..] == [];
  }

  lemma CompleteWords(p: seq<Byte>, n: nat, b: Byte)
    requires n == 2 || n == 4
    requires |p| % n == n - 1
    ensures Words(p + [b], n) == Words(p, n) + [LittleEndian(p[|p| - |p| % n..]) + b * Pow256(|p| % n)]
  {
    var r := |p| % n;
    var q := |p| / n;
    var k := |p| - r;
    var p' := p + [b];
    assert |p| == q * n + r && k == q * n by {
      DivWord(q, r, n);
    }
    assert Words(p', n) == Words(p, n) + [LittleEndian(p'[q * n..])] by {
      DivStep(|p|, n);
      WordsExtend(p, [b], n);
      LastWord(p', n, q);
    }
    SliceSnoc(p, b, k);
    LittleEndianAppend(p[k..], b);
  }

  /** Any other byte only adds its weight to the started word. */
  lemma ContinueWord(p: seq<Byte>, n: nat, b: Byte)
    requires n == 2 || n == 4
    requires |p| % n != n - 1
    ensures Assembled(p + [b], n, Words(p, n), LittleEndian(p[|p| - |p| % n..]) + b * Pow256(|p| % n), Pow256(|p| % n) * 256)
  {
    DivStep(|p|, n);
    ContinueWords(p, n, b);
    ContinueAcc(p, n, b);
    ContinueWeight(|p| % n);
  }

  lemma ContinueWords(p: seq<Byte>, n: nat, b: Byte)
    requires n == 2 || n == 4
    requires |p| % n != n - 1
    ensures Words(p + [b], n) == Words(p, n)
  {
    DivStep(|p|, n);
    WordsExtend(p, [b], n);
  }

  lemma ContinueAcc(p: seq<Byte>, n: nat, b: Byte)
    requires n == 2 || n == 4
    requires |p| % n != n - 1
    ensures var p' := p + [b];
      LittleEndian(p'[|p'| - |p'| % n..]) == LittleEndian(p[|p| - |p| % n..]) + b * Pow256(|p| % n)
  {
    var k := |p| - |p| % n;
    assert |p + [b]| - |p + [b]| % n == k by {
      DivStep(|p|, n);
    }
    SliceSnoc(p, b, k);
    LittleEndianAppend(p[k..], b);
  }

  lemma SliceSnoc(p: seq<Byte>, b: Byte, k: nat)
    requires k <= |p|
    ensures (p + [b])[k..] == p[k..] + [b]
  {
  }

  lemma ContinueWeight(r: nat)
    ensures Pow256(r + 1) == Pow256(r) * 256
  {
  }

  /** One byte of the loop of `read_data` keeps `Assembled`. */
  lemma AssembleStep(p: seq<Byte>, n: nat, dataSize: int, data: seq<int>, acc: int, ct: int, b: Byte)
    requires (n == 2 && dataSize == 256) || (n == 4 && dataSize == 16777216)
    requires Assembled(p, n, data, acc, ct)
    ensures ct == dataSize ==> Assembled(p + [b], n, data + [acc + b * ct], 0, 1)
    ensures ct != dataSize ==> Assembled(p + [b], n, data, acc + b * ct, ct * 256)
  {
    LastByteWeight(|p| % n, n, dataSize);
    if ct == dataSize {
      CompleteWord(p, n, b);
    } else {
      ContinueWord(p, n, b);
    }
  }

  /** The inner loop of `read_data`: the bytes `rest` of one chunk of the
      payload, added to the words read so far. */
  method AssembleWords(rest: seq<Byte>, dataSize: int, data0: seq<int>, acc0: int, ct0: int, ghost p0: seq<Byte>, ghost n: nat)
    returns (data: seq<int>, acc: int, ct: int)
    requires (n == 2 && dataSize == 256) || (n == 4 && dataSize == 16777216)
    requires Assembled(p0, n, data0, acc0, ct0)
    ensures Assembled(p0 + rest, n, data, acc, ct)
  {
    data, acc, ct := data0, acc0, ct0;
    var k := 0;
    assert p0 + rest[..0] == p0;
    while k < |rest|
      invariant 0 <= k <= |rest|
      invariant Assembled(p0 + rest[..k], n, data, acc, ct)
    {
      var b := rest[k];
      AssembleStep(p0 + rest[..k], n, dataSize, data, acc, ct, b);
      assert p0 + rest[..k + 1] == p0 + rest[..k] + [b];
      acc := acc + b * ct;
      if ct == dataSize {
        data := data + [acc];
        acc := 0;
        ct := 1;
      } else {
        ct := ct * 256;
      }
      k := k + 1;
    }
    assert rest[..k] == rest;
  }

  /** `header[0:2]`, the product code. */
  function Product(header: string): string {
    PySlice(header, 0, 2)
  }

  /** The state of the chunk loop of `read_data` after the input `f`. */
  predicate ChunksRead(f: seq<Byte>, isheader: bool, header: string, data: seq<int>, acc: int, ct: int) {
    (isheader ==> 3 !in f && header == Decode(f) && data == [] && acc == 0 && ct == 1) &&
    (!isheader ==>
      3 in f && header == Decode(HeaderBytes(f)) &&
      Assembled(Payload(f), WordBytes(Product(header)), data, acc, ct))
  }

  lemma FlattenStep(chunks: seq<seq<Byte>>, k: nat)
    requires k < |chunks|
    ensures Flatten(chunks[..k + 1]) == Flatten(chunks[..k]) + chunks[k]
  {
    assert chunks[..k + 1][..k] == chunks[..k];
  }

  /** A chunk with no 0x03, read while in the header, is all header. */
  lemma ChunkInHeader(f: seq<Byte>, reply: seq<Byte>)
    requires 3 !in f && 3 !in reply
    ensures 3 !in f + reply
    ensures Decode(f + reply) == Decode(f) + Decode(reply[..|reply|])
  {
    assert reply[..|reply|] == reply;
    DecodeAppend(f, reply);
  }

  /** A chunk whose first 0x03 is at `i` ends the header there. */
  lemma ChunkEndsHeader(f: seq<Byte>, reply: seq<Byte>, i: nat)
    requires 3 !in f && i < |reply| && reply[i] == 3 && 3 !in reply[..i]
    ensures 3 in f + reply
    ensures HeaderBytes(f + reply) == f + reply[..i] && Payload(f + reply) == reply[i + 1..]
    ensures Decode(HeaderBytes(f + reply)) == Decode(f) + Decode(reply[..i])
  {
    assert reply == reply[..i] + [3] + reply[i + 1..];
    assert f + reply == (f + reply[..i]) + [3] + reply[i + 1..];
    HeaderPayloadUnique(f + reply, f + reply[..i], reply[i + 1..]);
    DecodeAppend(f, reply[..i]);
  }

  /** After the header every chunk is payload. */
  lemma ChunkInPayload(f: seq<Byte>, reply: seq<Byte>)
    requires 3 in f
    ensures 3 in f + reply
    ensures HeaderBytes(f + reply) == HeaderBytes(f) && Payload(f + reply) == Payload(f) + reply
  {
    HeaderPayloadSplit(f);
    assert f + reply == HeaderBytes(f) + [3] + (Payload(f) + reply);
    HeaderPayloadUnique(f + reply, HeaderBytes(f), Payload(f) + reply);
  }

  /** Before the first byte of the payload no word is started. */
  lemma AssembledStart(n: nat)
    requires n == 2 || n == 4
    ensures Assembled([], n, [], 0, 1)
  {
    assert Words([], n) == [];
  }

  /** The two sizes of a value: one byte below 256, three below 2^24. */
  lemma WordBytesSize(product: string)
    ensures (WordBytes(product) == 2 && DataSize(product) == 256) || (WordBytes(product) == 4 && DataSize(product) == 16777216)
  {
  }

  /** The body of the chunk loop of `read_data`: one chunk more. */
  method ReadChunk(reply0: seq<Byte>, isheader0: bool, header0: string, data0: seq<int>, acc0: int, ct0: int, ghost f: seq<Byte>)
    returns (isheader: bool, header: string, data: seq<int>, acc: int, ct: int)
    requires ChunksRead(f, isheader0, header0, data0, acc0, ct0)
    ensures ChunksRead(f + reply0, isheader, header, data, acc, ct)
  {
    var reply := reply0;
    isheader, header, data, acc, ct := isheader0, header0, data0, acc0, ct0;
    ghost var p0: seq<Byte> := [];
    if isheader {
      var i := Find(reply, 3);
      if i == -1 {
        i := |reply|;
        ChunkInHeader(f, reply);
      } else {
        isheader := false;
        ChunkEndsHeader(f, reply, i);
      }
      header := header + Decode(reply[..i]);
      reply := if i + 1 <= |reply| then reply[i + 1..] else [];
      if !isheader {
        AssembledStart(WordBytes(Product(header)));
        assert p0 + reply == Payload(f + reply0);
      }
    } else {
      ChunkInPayload(f, reply);
      p0 := Payload(f);
    }
    if !isheader {
      var dataSize := DataSize(Product(header));
      WordBytesSize(Product(header));
      data, acc, ct := AssembleWords(reply, dataSize, data, acc, ct, p0, WordBytes(Product(header)));
    }
  }

  /** The byte loops of `read_data`: the header text and the words,
      whatever the chunks the input arrives in. */
  method ReadChunks(inData: seq<seq<Byte>>) returns (header: string, data: seq<int>)
    ensures header == Decode(HeaderBytes(Flatten(inData)))
    ensures data == Words(Payload(Flatten(inData)), WordBytes(Product(header)))
  {
    header := "";
    data := [];
    var isheader := true;
    var acc, ct := 0, 1;
    var k := 0;
    while k < |inData|
      invariant 0 <= k <= |inData|
      invariant ChunksRead(Flatten(inData[..k]), isheader, header, data, acc, ct)
    {
      FlattenStep(inData, k);
      isheader, header, data, acc, ct := ReadChunk(inData[k], isheader, header, data, acc, ct, Flatten(inData[..k]));
      k := k + 1;
    }
    assert inData[..k] == inData;
    HeaderPayloadSplit(Flatten(inData));
  }

  /** The words read back: bytes written least significant first, `n` per
      value, give the values again. */
  function ToLittleEndian(v: nat, n: nat): (s: seq<Byte>)
    ensures |s| == n
  {
    if n == 0 then [] else [v % 256] + ToLittleEndian(v / 256, n - 1)
  }

  lemma {:induction false} LittleEndianRoundTrip(v: nat, n: nat)
    requires v < Pow256(n)
    ensures LittleEndian(ToLittleEndian(v, n)) == v
  {
    if n > 0 {
      LittleEndianRoundTrip(v / 256, n - 1);
      assert ToLittleEndian(v, n)[1..] == ToLittleEndian(v / 256, n - 1);
    }
  }

  function Serialize(values: seq<nat>, n: nat): (s: seq<Byte>)
    ensures |s| == |values| * n
  {
    if values == [] then [] else Serialize(values[..|values| - 1], n) + ToLittleEndian(values[|values| - 1], n)
  }

  /** Cutting serialized words gives the words back; bytes past the last
      complete word are ignored. */
  lemma {:induction false} WordsRoundTrip(values: seq<nat>, n: nat, extra: seq<Byte>)
    requires n == 2 || n == 4
    requires forall i :: 0 <= i < |values| ==> values[i] < Pow256(n)
    requires |extra| < n
    ensures Words(Serialize(values, n) + extra, n) == values
  {
    var s := Serialize(values, n) + extra;
    assert |Words(s, n)| == |values| by {
      DivWord(|values|, |extra|, n);
      assert |s| == |values| * n + |extra|;
    }
    forall i | 0 <= i < |values|
      ensures Words(s, n)[i] == values[i]
    {
      SerializedWord(values, n, extra, i);
      LittleEndianRoundTrip(values[i], n);
    }
  }

  /** The `i`-th word of serialized values followed by extra bytes. */
  lemma SerializedWord(values: seq<nat>, n: nat, extra: seq<Byte>, i: nat)
    requires n == 2 || n == 4
    requires i < |values| && |extra| < n
    ensures i < |Serialize(values, n) + extra| / n
    ensures Words(Serialize(values, n) + extra, n)[i] == LittleEndian(ToLittleEndian(values[i], n))
  {
    var a := Serialize(values, n);
    assert |a + extra| / n == |values| by {
      DivWord(|values|, |extra|, n);
    }
    WordAt(a + extra, n, i);
    SerializeAt(values, n, i);
    SlicePrefix(a, extra, i * n, i * n + n);
  }

  lemma WordAt(p: seq<Byte>, n: nat, i: nat)
    requires n == 2 || n == 4
    requires i < |p| / n
    ensures i * n + n <= |p| && Words(p, n)[i] == LittleEndian(p[i * n..i * n + n])
  {
    WordFits(|p|, n, i);
  }

  lemma SlicePrefix(a: seq<Byte>, e: seq<Byte>, x: nat, y: nat)
    requires x <= y <= |a|
    ensures (a + e)[x..y] == a[x..y]
  {
  }

  lemma {:induction false} SerializeAt(values: seq<nat>, n: nat, i: nat)
    requires n == 2 || n == 4
    requires i < |values|
    ensures i * n + n <= |Serialize(values, n)|
    ensures Serialize(values, n)[i * n..i * n + n] == ToLittleEndian(values[i], n)
  {
    var m := |values| - 1;
    var front := Serialize(values[..m], n);
    var last := ToLittleEndian(values[m], n);
    assert Serialize(values, n) == front + last;
    if i < m {
      SerializeAt(values[..m], n, i);
      assert values[..m][i] == values[i];
      SlicePrefix(front, last, i * n, i * n + n);
    } else {
      assert i * n == |front|;
      SliceSuffix(front, last);
    }
  }

  lemma SliceSuffix(a: seq<Byte>, e: seq<Byte>)
    ensures (a + e)[|a|..|a| + |e|] == e
  {
  }

  // ---------------------------------------------------- variable header

  datatype HeaderValue = IntVal(i: int) | Text(s: string)

  /** The variables of the loop over the variable header: the key read so
      far, the value read so far, the number of characters still to read
      for it, the kind of the current key and the values stored. */
  datatype ParseState = ParseState(idx: string, val: string, ct: int, tp: char, vals: map<string, HeaderValue>)

  /** Before the first key; `tp` is not bound yet and no step reads it
      before a key sets it. */
  const Start := ParseState("", "", 0, ' ', map[])

  /** One character of the loop at weatherservicesradar.py:376-395. A
      complete `MS` value of digits is the length of the text that
      follows; an 'I' value that `int` refuses is a ValueError. */
  function Step(st: ParseState, c: char): (r: Result<ParseState>)
    ensures r.Err? ==> r.error == ValueError
  {
    if st.ct != 0 then
      var val := st.val + [c];
      var ct := st.ct - 1;
      if ct == 0 then
        if st.idx == "MS" && IsDigits(val) then Ok(st.(val := "", ct := DigitsValue(val)))
        else if st.tp == 'I' then
          match ParseInt(val)
          case Ok(v) => Ok(ParseState("", "", 0, st.tp, st.vals[st.idx := IntVal(v)]))
          case Err(e) => Err(e)
        else Ok(ParseState("", "", 0, st.tp, st.vals[st.idx := Text(val)]))
      else Ok(st.(val := val, ct := ct))
    else
      var idx := st.idx + [c];
      match HeaderFmt(idx)
      case Some(f) => Ok(st.(idx := idx, ct := f.1, tp := f.0))
      case None => Ok(st.(idx := idx))
  }

  /** The loop run over `s` from the state `st`. */
  function RunFrom(st: ParseState, s: string): Result<ParseState>
    decreases |s|
  {
    if s == [] then Ok(st)
    else
      match RunFrom(st, s[..|s| - 1])
      case Err(e) => Err(e)
      case Ok(t) => Step(t, s[|s| - 1])
  }

  /** `header_vals` after the loop over the variable header `s`. */
  function VarHeader(s: string): Result<map<string, HeaderValue>> {
    match RunFrom(Start, s)
    case Ok(st) => Ok(st.vals)
    case Err(e) => Err(e)
  }

  /** The loop over the variable header, at weatherservicesradar.py:372-396. */
  method ParseVarHeader(s: string) returns (r: Result<map<string, HeaderValue>>)
    ensures r == VarHeader(s)
  {
    var vals: map<string, HeaderValue> := map[];
    var idx, val := "", "";
    var ct := 0;
    var tp := ' ';
    var i := 0;
    while i < |s|
      invariant 0 <= i <= |s|
      invariant RunFrom(Start, s[..i]) == Ok(ParseState(idx, val, ct, tp, vals))
    {
      RunNext(s, i, ParseState(idx, val, ct, tp, vals));
      var next := ReadChar(idx, val, ct, tp, vals, s[i]);
      if next.Err? {
        RunErrStays(Start, s[..i + 1], s[i + 1..]);
        assert s[..i + 1] + s[i + 1..] == s;
        return Err(next.error);
      }
      idx, val, ct, tp, vals := next.value.idx, next.value.val, next.value.ct, next.value.tp, next.value.vals;
      i := i + 1;
    }
    assert s[..i] == s;
    r := Ok(vals);
  }

  /** The body of the loop over the variable header for the character `c`,
      on the loop's variables. */
  method ReadChar(idx: string, val: string, ct: int, tp: char, vals: map<string, HeaderValue>, c: char)
    returns (r: Result<ParseState>)
    ensures r == Step(ParseState(idx, val, ct, tp, vals), c)
  {
    if ct != 0 {
      var val := val + [c];
      var ct := ct - 1;
      if ct == 0 {
        if idx == "MS" && IsDigits(val) {
          return Ok(ParseState(idx, "", DigitsValue(val), tp, vals));
        } else if tp == 'I' {
          var v := ParseInt(val);
          if v.Err? {
            return Err(v.error);
          }
          return Ok(ParseState("", "", 0, tp, vals[idx := IntVal(v.value)]));
        } else {
          return Ok(ParseState("", "", 0, tp, vals[idx := Text(val)]));
        }
      }
      return Ok(ParseState(idx, val, ct, tp, vals));
    } else {
      var idx := idx + [c];
      var f := HeaderFmt(idx);
      if f.Some? {
        return Ok(ParseState(idx, val, f.value.1, f.value.0, vals));
      }
      return Ok(ParseState(idx, val, ct, tp, vals));
    }
  }

  /** One more character of `s` is one more step of the loop. */
  lemma RunNext(s: string, i: int, st: ParseState)
    requires 0 <= i < |s| && RunFrom(Start, s[..i]) == Ok(st)
    ensures RunFrom(Start, s[..i + 1]) == Step(st, s[i])
  {
    assert s[..i + 1][..i] == s[..i];
  }

  /** Running over `a + b` is running over `a`, then over `b`. */
  lemma {:induction false} RunFromAppend(st: ParseState, a: string, b: string)
    ensures RunFrom(st, a + b) == match RunFrom(st, a) case Ok(t) => RunFrom(t, b) case Err(e) => Err(e)
    decreases |b|
  {
    if b == [] {
      assert a + b == a;
    } else {
      var b' := b[..|b| - 1];
      assert (a + b)[..|a + b| - 1] == a + b';
      RunFromAppend(st, a, b');
    }
  }

  /** A failure ends the loop: no later character undoes it. */
  lemma RunErrStays(st: ParseState, a: string, b: string)
    requires RunFrom(st, a).Err?
    ensures RunFrom(st, a + b) == RunFrom(st, a)
  {
    RunFromAppend(st, a, b);
  }

  // The values the loop stores have the kind `HEADER_FMT` gives their key.

  predicate Typed(vals: map<string, HeaderValue>) {
    forall k :: k in vals ==> HeaderFmt(k).Some? && (vals[k].IntVal? <==> HeaderFmt(k).value.0 == 'I')
  }

  predicate Consistent(st: ParseState) {
    st.ct >= 0 &&
    (st.ct != 0 ==> HeaderFmt(st.idx).Some? && HeaderFmt(st.idx).value.0 == st.tp) &&
    Typed(st.vals)
  }

  lemma StepConsistent(st: ParseState, c: char)
    requires Consistent(st)
    ensures Step(st, c).Ok? ==> Consistent(Step(st, c).value)
  {
  }

  /** Every key stored is a key of `HEADER_FMT`, 'I' keys hold numbers and
      'A' keys text. */
  lemma {:induction false} RunTyped(s: string)
    ensures RunFrom(Start, s).Ok? ==> Consistent(RunFrom(Start, s).value) && Typed(RunFrom(Start, s).value.vals)
    decreases |s|
  {
    if s != [] {
      RunTyped(s[..|s| - 1]);
      if RunFrom(Start, s[..|s| - 1]).Ok? {
        StepConsistent(RunFrom(Start, s[..|s| - 1]).value, s[|s| - 1]);
      }
    }
  }

  /** The only failure of the loop is a ValueError. */
  lemma {:induction false} RunTypedErr(s: string)
    ensures VarHeader(s).Err? ==> VarHeader(s).error == ValueError
    decreases |s|
  {
    if s != [] {
      RunTypedErr(s[..|s| - 1]);
    }
  }

  // The header read back: fields written the way the parser expects them
  // are the values it stores.

  /** A field of the variable header: a key of `HEADER_FMT` with a value of
      its width, or an `MS` text preceded by its length in three digits. */
  datatype Field = Plain(key: string, text: string) | Prefixed(text: string)

  function Digits3(n: nat): (s: string)
    requires n < 1000
    ensures |s| == 3
  {
    [DigitChar(n / 100), DigitChar(n / 10 % 10), DigitChar(n % 10)]
  }

  lemma Digits3Value(n: nat)
    requires n < 1000
    ensures IsDigits(Digits3(n)) && DigitsValue(Digits3(n)) == n
  {
    var s := Digits3(n);
    assert s[..2][..1] == s[..1] && s[..1][..0] == [];
    assert DigitsValue(s[..1]) == n / 100;
    assert DigitsValue(s[..2]) == (n / 100) * 10 + n / 10 % 10;
    assert DigitsValue(s) == ((n / 100) * 10 + n / 10 % 10) * 10 + n % 10;
  }

  predicate WellFormed(f: Field) {
    match f
    case Plain(k, t) =>
      HeaderFmt(k).Some? && |t| == HeaderFmt(k).value.1 &&
      (HeaderFmt(k).value.0 == 'I' ==> ParseInt(t).Ok?) &&
      (k == "MS" ==> !IsDigits(t))
    case Prefixed(t) => 0 < |t| < 1000 && !IsDigits(t)
  }

  function FieldKey(f: Field): string {
    match f
    case Plain(k, _) => k
    case Prefixed(_) => "MS"
  }

  function FieldText(f: Field): string
    requires WellFormed(f)
  {
    match f
    case Plain(k, t) => k + t
    case Prefixed(t) => "MS" + Digits3(|t|) + t
  }

  function FieldValue(f: Field): HeaderValue
    requires WellFormed(f)
  {
    match f
    case Plain(k, t) => if HeaderFmt(k).value.0 == 'I' then IntVal(ParseInt(t).value) else Text(t)
    case Prefixed(t) => Text(t)
  }

  function HeaderText(fields: seq<Field>): string
    requires forall i :: 0 <= i < |fields| ==> WellFormed(fields[i])
  {
    if fields == [] then ""
    else HeaderText(fields[..|fields| - 1]) + FieldText(fields[|fields| - 1])
  }

  /** The values of the fields, a later field of the same key winning. */
  function FieldValues(fields: seq<Field>): map<string, HeaderValue>
    requires forall i :: 0 <= i < |fields| ==> WellFormed(fields[i])
  {
    if fields == [] then map[]
    else
      var f := fields[|fields| - 1];
      FieldValues(fields[..|fields| - 1])[FieldKey(f) := FieldValue(f)]
  }

  predicate Idle(st: ParseState) {
    st.idx == "" && st.val == "" && st.ct == 0
  }

  /** A character completing a key: its width and kind are set. */
  lemma StepKey(st: ParseState, c: char)
    requires st.ct == 0 && HeaderFmt(st.idx + [c]).Some?
    ensures Step(st, c) == Ok(st.(idx := st.idx + [c], ct := HeaderFmt(st.idx + [c]).value.1, tp := HeaderFmt(st.idx + [c]).value.0))
  {
  }

  /** A character that does not complete a key is only collected. */
  lemma StepKeyPart(st: ParseState, c: char)
    requires st.ct == 0 && HeaderFmt(st.idx + [c]).None?
    ensures Step(st, c) == Ok(st.(idx := st.idx + [c]))
  {
  }

  /** A character inside a value is only collected. */
  lemma StepValuePart(st: ParseState, c: char)
    requires st.ct > 1
    ensures Step(st, c) == Ok(st.(val := st.val + [c], ct := st.ct - 1))
  {
  }

  /** The last character of an `MS` length: the text of that length follows. */
  lemma StepLength(st: ParseState, c: char)
    requires st.ct == 1 && st.idx == "MS" && IsDigits(st.val + [c])
    ensures Step(st, c) == Ok(st.(val := "", ct := DigitsValue(st.val + [c])))
  {
  }

  /** The last character of any other value: the value is stored. */
  lemma StepStore(st: ParseState, c: char)
    requires st.ct == 1 && !(st.idx == "MS" && IsDigits(st.val + [c]))
    requires st.tp == 'I' ==> ParseInt(st.val + [c]).Ok?
    ensures Step(st, c) == Ok(ParseState("", "", 0, st.tp, st.vals[st.idx :=
      if st.tp == 'I' then IntVal(ParseInt(st.val + [c]).value) else Text(st.val + [c])]))
  {
  }

  /** Reading a key character by character: nothing is recognised before
      its last character. */
  lemma {:induction false} KeyPrefix(st: ParseState, k: string, j: nat)
    requires Idle(st) && HeaderFmt(k).Some? && j < |k|
    ensures RunFrom(st, k[..j]) == Ok(st.(idx := k[..j]))
  {
    if j == 0 {
      assert k[..j] == [];
    } else {
      KeyPrefix(st, k, j - 1);
      assert k[..j][..j - 1] == k[..j - 1];
      assert k[..j - 1] + [k[j - 1]] == k[..j];
      HeaderKeysPrefixFree(k, j);
      StepKeyPart(st.(idx := k[..j - 1]), k[j - 1]);
    }
  }

  lemma KeyRun(st: ParseState, k: string)
    requires Idle(st) && HeaderFmt(k).Some?
    ensures RunFrom(st, k) == Ok(st.(idx := k, ct := HeaderFmt(k).value.1, tp := HeaderFmt(k).value.0))
  {
    var p := k[..|k| - 1];
    KeyPrefix(st, k, |k| - 1);
    assert p + [k[|k| - 1]] == k;
    StepKey(st.(idx := p), k[|k| - 1]);
  }

  /** Reading a value: the characters collect until the last one. */
  lemma {:induction false} ValuePrefix(st: ParseState, t: string, j: nat)
    requires st.ct == |t| && st.val == "" && j < |t|
    ensures RunFrom(st, t[..j]) == Ok(st.(val := t[..j], ct := |t| - j))
  {
    if j == 0 {
      assert t[..j] == [];
    } else {
      ValuePrefix(st, t, j - 1);
      assert t[..j][..j - 1] == t[..j - 1];
      assert t[..j - 1] + [t[j - 1]] == t[..j];
      StepValuePart(st.(val := t[..j - 1], ct := |t| - j + 1), t[j - 1]);
    }
  }

  lemma ValueRun(st: ParseState, t: string)
    requires st.ct == |t| > 0 && st.val == ""
    ensures RunFrom(st, t) == Step(st.(val := t[..|t| - 1], ct := 1), t[|t| - 1])
  {
    ValuePrefix(st, t, |t| - 1);
  }

  /** One well-formed field read from between two fields stores its value. */
  lemma FieldRun(st: ParseState, f: Field)
    requires Idle(st) && WellFormed(f)
    ensures RunFrom(st, FieldText(f)).Ok?
    ensures Idle(RunFrom(st, FieldText(f)).value)
    ensures RunFrom(st, FieldText(f)).value.vals == st.vals[FieldKey(f) := FieldValue(f)]
  {
    match f
    case Plain(k, t) => PlainRun(st, f);
    case Prefixed(t) => PrefixedRun(st, f);
  }

  lemma PlainRun(st: ParseState, f: Field)
    requires Idle(st) && WellFormed(f) && f.Plain?
    ensures RunFrom(st, FieldText(f)) ==
      Ok(ParseState("", "", 0, HeaderFmt(f.key).value.0, st.vals[FieldKey(f) := FieldValue(f)]))
  {
    var k, t := f.key, f.text;
    RunFromAppend(st, k, t);
    KeyRun(st, k);
    var st1 := st.(idx := k, ct := HeaderFmt(k).value.1, tp := HeaderFmt(k).value.0);
    ValueRun(st1, t);
    assert t[..|t| - 1] + [t[|t| - 1]] == t;
    StepStore(st1.(val := t[..|t| - 1], ct := 1), t[|t| - 1]);
  }

  /** The `MS` key and three digits: the text of that length follows. */
  lemma LengthRun(st: ParseState, n: nat)
    requires Idle(st) && n < 1000
    ensures RunFrom(st, "MS" + Digits3(n)) == Ok(st.(idx := "MS", ct := n, tp := 'A'))
  {
    var d := Digits3(n);
    var st1 := st.(idx := "MS", ct := 3, tp := 'A');
    HeaderFmtLength();
    Digits3Value(n);
    RunFromAppend(st, "MS", d);
    KeyRun(st, "MS");
    ValueRun(st1, d);
    assert d[..2] + [d[2]] == d;
    StepLength(st1.(val := d[..2], ct := 1), d[2]);
  }

  /** The `MS` field: three digits giving the length of the text. */
  lemma PrefixedRun(st: ParseState, f: Field)
    requires Idle(st) && WellFormed(f) && f.Prefixed?
    ensures RunFrom(st, FieldText(f)) == Ok(ParseState("", "", 0, 'A', st.vals["MS" := Text(f.text)]))
  {
    var t := f.text;
    var d := Digits3(|t|);
    assert FieldText(f) == ("MS" + d) + t;
    var st2 := st.(idx := "MS", ct := |t|, tp := 'A');
    LengthRun(st, |t|);
    RunFromAppend(st, "MS" + d, t);
    ValueRun(st2, t);
    FrontLast(t);
    StepStore(st2.(val := t[..|t| - 1], ct := 1), t[|t| - 1]);
  }

  lemma FrontLast(t: string)
    requires |t| > 0
    ensures t[..|t| - 1] + [t[|t| - 1]] == t
  {
  }

  /** Parsing a header written from well-formed fields gives exactly their
      values. */
  lemma {:induction false} HeaderRoundTrip(fields: seq<Field>)
    requires forall i :: 0 <= i < |fields| ==> WellFormed(fields[i])
    ensures RunFrom(Start, HeaderText(fields)).Ok?
    ensures Idle(RunFrom(Start, HeaderText(fields)).value)
    ensures VarHeader(HeaderText(fields)) == Ok(FieldValues(fields))
  {
    if fields != [] {
      var front := fields[..|fields| - 1];
      var f := fields[|fields| - 1];
      HeaderRoundTrip(front);
      RunFromAppend(Start, HeaderText(front), FieldText(f));
      FieldRun(RunFrom(Start, HeaderText(front)).value, f);
    }
  }

  // ------------------------------------------------------- fixed header

  predicate IsLeap(y: int) {
    y % 4 == 0 && (y % 100 != 0 || y % 400 == 0)
  }

  function DaysInMonth(y: int, m: int): int
    requires 1 <= m <= 12
  {
    if m == 2 then (if IsLeap(y) then 29 else 28)
    else if m == 4 || m == 6 || m == 9 || m == 11 then 30
    else 31
  }

  function DaysBeforeMonth(y: int, m: int): int
    requires 1 <= m <= 12
  {
    [0, 31, 59, 90, 120, 151, 181, 212, 243, 273, 304, 334][m - 1] + (if m > 2 && IsLeap(y) then 1 else 0)
  }

  function DaysBeforeYear(y: int): int
    requires y >= 1
  {
    365 * (y - 1) + (y - 1) / 4 - (y - 1) / 100 + (y - 1) / 400
  }

  /** The arguments `datetime` accepts. */
  predicate ValidTime(y: int, m: int, d: int, h: int, mi: int) {
    1 <= y <= 9999 && 1 <= m <= 12 && 1 <= d <= DaysInMonth(y, m) && 0 <= h < 24 && 0 <= mi < 60
  }

  /** `datetime(y, m, d, h, mi, tzinfo=timezone.utc).timestamp()`: seconds
      since 1970-01-01 00:00 UTC (day 719163 of the proleptic calendar). */
  function Epoch(y: int, m: int, d: int, h: int, mi: int): int
    requires ValidTime(y, m, d, h, mi)
  {
    (DaysBeforeYear(y) + DaysBeforeMonth(y, m) + d - 719163) * 86400 + h * 3600 + mi * 60
  }

  /** The issue time of the product from the fixed header: day [2:4], hour
      [4:6], minute [6:8], month [13:15] and year 2000 + [15:17], in UTC;
      a field `int` refuses or a date `datetime` refuses is a ValueError. */
  function Issued(header: string): (r: Result<int>)
    ensures r.Err? ==> r.error == ValueError
  {
    var year := ParseInt("20" + PySlice(header, 15, 17));
    var month := ParseInt(PySlice(header, 13, 15));
    var day := ParseInt(PySlice(header, 2, 4));
    var hour := ParseInt(PySlice(header, 4, 6));
    var minute := ParseInt(PySlice(header, 6, 8));
    if year.Err? || month.Err? || day.Err? || hour.Err? || minute.Err? then Err(ValueError)
    else if !ValidTime(year.value, month.value, day.value, hour.value, minute.value) then Err(ValueError)
    else Ok(Epoch(year.value, month.value, day.value, hour.value, minute.value))
  }

  /** The first day of 1970 is second 0, and 4 June 2024, 12:35 UTC is
      second 1717504500. */
  lemma EpochExamples()
    ensures ValidTime(1970, 1, 1, 0, 0) && Epoch(1970, 1, 1, 0, 0) == 0
    ensures ValidTime(2024, 6, 4, 12, 35) && Epoch(2024, 6, 4, 12, 35) == 1717504500
  {
    assert DaysBeforeYear(1970) == 719162 by {
      assert 1969 / 4 == 492 && 1969 / 100 == 19 && 1969 / 400 == 4;
    }
    assert DaysBeforeYear(2024) == 738885 by {
      assert 2023 / 4 == 505 && 2023 / 100 == 20 && 2023 / 400 == 5;
    }
    assert IsLeap(2024) by {
      assert 2024 % 4 == 0 && 2024 % 100 == 24;
    }
    assert DaysBeforeMonth(2024, 6) == 152;
    assert DaysInMonth(2024, 6) == 30;
    assert (738885 + 152 + 4 - 719163) * 86400 == 1717459200;
  }

  lemma FieldTexts()
    ensures Format02d(4) == "04" && Format02d(6) == "06" && Format02d(24) == "24"
    ensures Format02d(12) == "12" && Format02d(35) == "35"
  {
    assert NatToString(2) == "2";
    assert NatToString(1) == "1";
    assert NatToString(3) == "3";
  }

  /** A WN product of 4 June 2024, 12:35 UTC from the composite (station
      number 10000). */
  lemma IssuedExample()
    ensures Issued("WN041235100000624") == Ok(1717504500)
  {
    var h := FixedHeader("WN", 4, 12, 35, "10000", 6, 2024, "");
    IssuedOfExample();
    ExampleText();
    EpochExamples();
    assert h == "WN041235100000624";
  }

  lemma ExampleText()
    ensures FixedHeader("WN", 4, 12, 35, "10000", 6, 2024, "") == "WN041235100000624"
  {
    FieldTexts();
  }

  lemma IssuedOfExample()
    ensures Issued(FixedHeader("WN", 4, 12, 35, "10000", 6, 2024, "")) == Ok(Epoch(2024, 6, 4, 12, 35))
  {
    assert ValidTime(2024, 6, 4, 12, 35) by {
      EpochExamples();
    }
    FixedHeaderRoundTrip("WN", 4, 12, 35, "10000", 6, 2024, "");
  }

  /** A digit string reads back as its value. */
  lemma ParseDigits(s: string)
    requires IsDigits(s)
    ensures ParseInt(s) == Ok(DigitsValue(s))
  {
    assert Strip(s) == s;
    assert s[0] != '-' && s[0] != '+';
  }

  /** `'%02d'` of a number below 100 has two characters. */
  lemma TwoDigits(v: nat)
    requires v < 100
    ensures |Format02d(v)| == 2
  {
    if v >= 10 {
      assert NatToString(v) == NatToString(v / 10) + [DigitChar(v % 10)];
    }
  }

  /** Two more digits after a digit string multiply its value by 100. */
  lemma DigitsValueTwoMore(a: string, u: string)
    requires IsDigits(a) && IsDigits(u) && |u| == 2
    ensures IsDigits(a + u) && DigitsValue(a + u) == DigitsValue(a) * 100 + DigitsValue(u)
  {
    var s := a + u;
    assert IsDigits(s) by {
      forall i | 0 <= i < |s| ensures IsDigit(s[i]) {
        if i >= |a| { assert s[i] == u[i - |a|]; }
      }
    }
    var a1 := a + [u[0]];
    assert s[..|s| - 1] == a1 && s[|s| - 1] == u[1];
    assert a1[..|a|] == a && a1[|a1| - 1] == u[0];
    assert DigitsValue(s) == DigitsValue(a1) * 10 + (u[1] as int - '0' as int);
    assert DigitsValue(a1) == DigitsValue(a) * 10 + (u[0] as int - '0' as int);
    assert u[..1] == [u[0]] && u[..1][..0] == [];
    assert DigitsValue(u) == DigitsValue(u[..1]) * 10 + (u[1] as int - '0' as int);
  }

  /** The fixed header as the reader expects it. */
  function FixedHeader(product: string, day: nat, hour: nat, minute: nat, wmo: string, month: nat, year: nat, rest: string): string {
    product + (Format02d(day) + (Format02d(hour) + (Format02d(minute) + (wmo + (Format02d(month) + (Format02d(year - 2000) + rest))))))
  }

  /** A slice of a concatenation that lies in its second part. */
  lemma SliceAfter(a: string, b: string, i: nat, j: nat)
    requires |a| <= i <= j <= |a| + |b|
    ensures (a + b)[i..j] == b[i - |a|..j - |a|]
  {
  }

  lemma SliceHead(a: string, b: string)
    ensures (a + b)[0..|a|] == a
  {
  }

  lemma FixedHeaderSlices(product: string, day: nat, hour: nat, minute: nat, wmo: string, month: nat, year: nat, rest: string)
    requires |product| == 2 && |wmo| == 5
    requires day < 100 && hour < 100 && minute < 100 && month < 100 && 2000 <= year < 2100
    ensures var h := FixedHeader(product, day, hour, minute, wmo, month, year, rest);
      PySlice(h, 0, 2) == product && PySlice(h, 2, 4) == Format02d(day) && PySlice(h, 4, 6) == Format02d(hour) &&
      PySlice(h, 6, 8) == Format02d(minute) && PySlice(h, 8, 13) == wmo && PySlice(h, 13, 15) == Format02d(month) &&
      PySlice(h, 15, 17) == Format02d(year - 2000)
  {
    FixedHeaderFront(product, day, hour, minute, wmo, month, year, rest);
    FixedHeaderBack(product, day, hour, minute, wmo, month, year, rest);
  }

  lemma FixedHeaderFront(product: string, day: nat, hour: nat, minute: nat, wmo: string, month: nat, year: nat, rest: string)
    requires |product| == 2 && |wmo| == 5
    requires day < 100 && hour < 100 && minute < 100 && month < 100 && 2000 <= year < 2100
    ensures var h := FixedHeader(product, day, hour, minute, wmo, month, year, rest);
      |h| >= 17 && h[0..2] == product && h[2..4] == Format02d(day) && h[4..6] == Format02d(hour) && h[6..8] == Format02d(minute)
  {
    TwoDigits(day); TwoDigits(hour); TwoDigits(minute); TwoDigits(month); TwoDigits(year - 2000);
    var t5 := Format02d(year - 2000) + rest;
    var t4 := Format02d(month) + t5;
    var t3 := wmo + t4;
    var t2 := Format02d(minute) + t3;
    var t1 := Format02d(hour) + t2;
    var t0 := Format02d(day) + t1;
    SliceHead(product, t0);
    SliceAfter(product, t0, 2, 4); SliceHead(Format02d(day), t1);
    SliceAfter(product, t0, 4, 6); SliceAfter(Format02d(day), t1, 2, 4); SliceHead(Format02d(hour), t2);
    SliceAfter(product, t0, 6, 8); SliceAfter(Format02d(day), t1, 4, 6); SliceAfter(Format02d(hour), t2, 2, 4);
    SliceHead(Format02d(minute), t3);
  }

  lemma FixedHeaderBack(product: string, day: nat, hour: nat, minute: nat, wmo: string, month: nat, year: nat, rest: string)
    requires |product| == 2 && |wmo| == 5
    requires day < 100 && hour < 100 && minute < 100 && month < 100 && 2000 <= year < 2100
    ensures var h := FixedHeader(product, day, hour, minute, wmo, month, year, rest);
      |h| >= 17 && h[8..13] == wmo && h[13..15] == Format02d(month) && h[15..17] == Format02d(year - 2000)
  {
    TwoDigits(day); TwoDigits(hour); TwoDigits(minute); TwoDigits(month); TwoDigits(year - 2000);
    var t5 := Format02d(year - 2000) + rest;
    var t4 := Format02d(month) + t5;
    var t3 := wmo + t4;
    var t2 := Format02d(minute) + t3;
    var t1 := Format02d(hour) + t2;
    var t0 := Format02d(day) + t1;
    SliceAfter(product, t0, 8, 13); SliceAfter(Format02d(day), t1, 6, 11);
    SliceAfter(Format02d(hour), t2, 4, 9); SliceAfter(Format02d(minute), t3, 2, 7);
    SliceHead(wmo, t4);
    SliceAfter(product, t0, 13, 15); SliceAfter(Format02d(day), t1, 11, 13);
    SliceAfter(Format02d(hour), t2, 9, 11); SliceAfter(Format02d(minute), t3, 7, 9);
    SliceAfter(wmo, t4, 5, 7); SliceHead(Format02d(month), t5);
    SliceAfter(product, t0, 15, 17); SliceAfter(Format02d(day), t1, 13, 15);
    SliceAfter(Format02d(hour), t2, 11, 13); SliceAfter(Format02d(minute), t3, 9, 11);
    SliceAfter(wmo, t4, 7, 9); SliceAfter(Format02d(month), t5, 2, 4); SliceHead(Format02d(year - 2000), rest);
  }

  /** `'%02d'` below 100 reads back with `int`. */
  lemma ParseTwoDigits(v: nat)
    requires v < 100
    ensures ParseInt(Format02d(v)) == Ok(v)
  {
    Format02dRoundTrip(v);
    ParseDigits(Format02d(v));
  }

  /** The year field reads back as the year. */
  lemma ParseYear(year: nat)
    requires 2000 <= year < 2100
    ensures ParseInt("20" + Format02d(year - 2000)) == Ok(year)
  {
    var yy := Format02d(year - 2000);
    TwoDigits(year - 2000);
    Format02dRoundTrip(year - 2000);
    assert DigitsValue("20") == 20 by {
      assert "20"[..1] == "2" && "2"[..0] == "";
    }
    DigitsValueTwoMore("20", yy);
    ParseDigits("20" + yy);
  }

  /** The fixed header read back: the fields written where the reader
      looks for them give the product code, the station number and the
      issue time. */
  lemma FixedHeaderRoundTrip(product: string, day: nat, hour: nat, minute: nat, wmo: string, month: nat, year: nat, rest: string)
    requires |product| == 2 && |wmo| == 5
    requires 2000 <= year < 2100 && ValidTime(year, month, day, hour, minute)
    ensures var h := FixedHeader(product, day, hour, minute, wmo, month, year, rest);
      Product(h) == product && PySlice(h, 8, 13) == wmo && Issued(h) == Ok(Epoch(year, month, day, hour, minute))
  {
    FixedHeaderSlices(product, day, hour, minute, wmo, month, year, rest);
    ParseYear(year);
    ParseTwoDigits(month);
    ParseTwoDigits(day);
    ParseTwoDigits(hour);
    ParseTwoDigits(minute);
  }

  /** `GP`, 'AxB': the height is A ... */
  function GpHeight(t: string): Result<int> {
    ParseInt(Split(t, 'x')[0])
  }

  /** ... and the width is B; without an 'x' there is no B (an IndexError). */
  function GpWidth(t: string): (r: Result<int>)
    ensures r.Err? ==> r.error == IndexError || r.error == ValueError
  {
    var x := Split(t, 'x');
    if |x| < 2 then Err(IndexError) else ParseInt(x[1])
  }

  /** The grid size read back: 'AxB' gives height A and width B. */
  lemma GpRoundTrip(height: nat, width: nat)
    ensures GpHeight(NatToString(height) + "x" + NatToString(width)) == Ok(height)
    ensures GpWidth(NatToString(height) + "x" + NatToString(width)) == Ok(width)
  {
    var a, b := NatToString(height), NatToString(width);
    assert 'x' !in a by {
      forall i | 0 <= i < |a| ensures a[i] != 'x' {
        assert IsDigit(a[i]);
      }
    }
    assert 'x' !in b by {
      forall i | 0 <= i < |b| ensures b[i] != 'x' {
        assert IsDigit(b[i]);
      }
    }
    SplitTwo(a, b, 'x');
    IntToStringRoundTrip(height);
    IntToStringRoundTrip(width);
  }

  /** The grid corner the readings are counted from, in metres of the
      stereographic DE1200 projection (`BORDER_DE1200_WGS84['SW']`). */
  const SouthWest: (real, real) := (-500.0, -1199500.0)

  /** The column (or row) of the grid cell an offset of `c` km falls in; the
      far edge belongs to the last cell. */
  function Cell(c: real, size: int): (k: int)
    requires c >= 0.0
    ensures k >= 0
  {
    Trunc(if c == size as real then c - 0.1 else c)
  }

  /** Within the grid: the offsets lie in [0, width] x [0, height]. */
  predicate InGrid(cx: real, cy: real, width: int, height: int) {
    0.0 <= cx <= width as real && 0.0 <= cy <= height as real
  }

  /** The index in the data of the cell holding a point of the grid: row
      after row of `width` cells. */
  function CellIndex(cx: real, cy: real, width: int, height: int): (i: int)
    requires InGrid(cx, cy, width, height)
    ensures i >= 0
  {
    var row, col := Cell(cy, height), Cell(cx, width);
    assert row * width >= 0 by {
      assert width >= 0;
      NonNegProduct(row, width);
    }
    row * width + col
  }

  lemma NonNegProduct(a: int, b: int)
    requires a >= 0 && b >= 0
    ensures a * b >= 0
  {
  }

  /** Every point of the grid, far edges included, falls in one of its
      `width` x `height` cells. */
  lemma CellInGrid(cx: real, cy: real, width: int, height: int)
    requires InGrid(cx, cy, width, height) && width >= 1 && height >= 1
    ensures Cell(cx, width) < width && Cell(cy, height) < height
    ensures Cell(cy, height) * width + Cell(cx, width) < width * height
    ensures cx == width as real ==> Cell(cx, width) == width - 1
  {
    var i, j := Cell(cx, width), Cell(cy, height);
    assert j <= height - 1;
    assert j * width <= (height - 1) * width;
  }

  /** The `PR` field (the accuracy of the data) as `read_data` inspects it:
      the first and then the second character of the stripped text are
      read, so a text too short for the test raises IndexError, and the
      exponent of an `E-k` other than `E-00` is read with `int`. */
  function AccuracyError(t: string): (r: Option<PyError>)
    ensures r.Some? ==> r.value == IndexError || r.value == ValueError
  {
    var x := Strip(t);
    if |x| == 0 then Some(IndexError)
    else if x[0] != 'E' then None
    else if |x| < 2 then Some(IndexError)
    else if x[1] != '-' || x == "E-00" then None
    else match ParseInt(x[1..])
      case Err(e) => Some(e)
      case Ok(_) => None
  }

  /** An accuracy `E-` followed by digits is read without failure; an empty
      or blank field and a lone `E` raise IndexError, a non-numeric exponent
      ValueError. */
  lemma AccuracyCases(d: string)
    requires |d| > 0 && IsDigits(d)
    ensures AccuracyError("E-" + d) == None
    ensures AccuracyError("") == Some(IndexError) && AccuracyError("  ") == Some(IndexError)
    ensures AccuracyError("E") == Some(IndexError) && AccuracyError("E-x") == Some(ValueError)
  {
    var x := "E-" + d;
    assert !IsSpace(x[0]) && x[|x| - 1] == d[|d| - 1];
    assert Strip(x) == x;
    assert x[1..] == "-" + d;
    var y := "-" + d;
    assert y[|y| - 1] == d[|d| - 1] && Strip(y) == y;
    assert y[1..] == d;
    assert Strip("-x") == "-x";
    assert "x"[0] == 'x' && !IsDigits("x");
  }

  /** `DwdRadar`: one radar product. `timestamp` and `wmoNr` are None until
      `read_data` sets them, `version` until a `VS` field is read. The grid
      corner is the constant `SouthWest`: `init_coords` installs the DE1200
      borders when the version is None (as it is when the constructor calls
      it) and for HG, WN and RV from version 5, and those borders are the
      only ones there are. */
  class DwdRadar {
    var data: seq<int>
    var header: map<string, HeaderValue>
    var product: Option<string>
    var timestamp: Option<int>
    var wmoNr: Option<string>
    var dataWidth: int
    var dataHeight: int
    var version: Option<int>

    constructor ()
      ensures data == [] && header == map[] && product == None && timestamp == None && wmoNr == None
      ensures dataWidth == 1100 && dataHeight == 1200 && version == None
    {
      data := [];
      header := map[];
      product := None;
      timestamp := None;
      wmoNr := None;
      dataWidth := 1100;
      dataHeight := 1200;
      version := None;
    }

    /** `GP`: the grid size, the height assigned before the width is read. */
    method ApplyGp(t: string) returns (err: Option<PyError>)
      modifies this
      ensures GpHeight(t).Err? ==> err == Some(ValueError) && dataHeight == old(dataHeight) && dataWidth == old(dataWidth)
      ensures GpHeight(t).Ok? ==> dataHeight == GpHeight(t).value
      ensures GpHeight(t).Ok? && GpWidth(t).Err? ==> err == Some(GpWidth(t).error) && dataWidth == old(dataWidth)
      ensures GpHeight(t).Ok? && GpWidth(t).Ok? ==> err.None? && dataWidth == GpWidth(t).value
      ensures data == old(data) && header == old(header) && product == old(product) && timestamp == old(timestamp)
      ensures wmoNr == old(wmoNr) && version == old(version)
    {
      var x := Split(t, 'x');
      var h := ParseInt(x[0]);
      if h.Err? {
        return Some(h.error);
      }
      dataHeight := h.value;
      if |x| < 2 {
        return Some(IndexError);
      }
      var w := ParseInt(x[1]);
      if w.Err? {
        return Some(w.error);
      }
      dataWidth := w.value;
      err := None;
    }

    /** `read_data`: the chunks of a product. The data are stored first and
        the product code next; the rest of the header follows as
        `ApplyHeader` states. */
    method ReadData(inData: seq<seq<Byte>>) returns (err: Option<PyError>)
      modifies this
      ensures var h := Decode(HeaderBytes(Flatten(inData)));
        data == Words(Payload(Flatten(inData)), WordBytes(Product(h))) && product == Some(Product(h))
      ensures var h := Decode(HeaderBytes(Flatten(inData)));
        Issued(h).Err? ==>
          err == Some(ValueError) && timestamp == old(timestamp) && wmoNr == old(wmoNr) && header == old(header) &&
          version == old(version) && dataWidth == old(dataWidth) && dataHeight == old(dataHeight)
      ensures var h := Decode(HeaderBytes(Flatten(inData)));
        Issued(h).Ok? ==> timestamp == Some(Issued(h).value) && wmoNr == Some(PySlice(h, 8, 13))
      ensures var h := Decode(HeaderBytes(Flatten(inData)));
        Issued(h).Ok? && VarHeader(PySlice(h, 17, |h|)).Err? ==>
          err == Some(ValueError) && header == old(header) && version == old(version) &&
          dataWidth == old(dataWidth) && dataHeight == old(dataHeight)
      ensures var h := Decode(HeaderBytes(Flatten(inData)));
        Issued(h).Ok? && VarHeader(PySlice(h, 17, |h|)).Ok? ==>
          header == VarHeader(PySlice(h, 17, |h|)).value && Typed(header) &&
          (GridRead(header) ==> err == AccuracyOf(header))
    {
      var hdr, words := ReadChunks(inData);
      data := words;
      product := Some(Product(hdr));
      err := ApplyHeader(hdr);
    }

    /** The part of `read_data` after the product code: the issue time and
        the station number from the fixed header, then the variable header
        and what `VS`, `GP` and `PR` do. */
    method ApplyHeader(h: string) returns (err: Option<PyError>)
      modifies this
      ensures data == old(data) && product == old(product)
      ensures Issued(h).Err? ==>
        err == Some(ValueError) && timestamp == old(timestamp) && wmoNr == old(wmoNr) && header == old(header) &&
        version == old(version) && dataWidth == old(dataWidth) && dataHeight == old(dataHeight)
      ensures Issued(h).Ok? ==> timestamp == Some(Issued(h).value) && wmoNr == Some(PySlice(h, 8, 13))
      ensures Issued(h).Ok? && VarHeader(PySlice(h, 17, |h|)).Err? ==>
        err == Some(ValueError) && header == old(header) && version == old(version) &&
        dataWidth == old(dataWidth) && dataHeight == old(dataHeight)
      ensures Issued(h).Ok? && VarHeader(PySlice(h, 17, |h|)).Ok? ==>
        header == VarHeader(PySlice(h, 17, |h|)).value && Typed(header) &&
        (GridRead(header) ==> err == AccuracyOf(header))
    {
      var issued := Issued(h);
      if issued.Err? {
        return Some(issued.error);
      }
      timestamp := Some(issued.value);
      wmoNr := Some(PySlice(h, 8, 13));
      var vals := ParseVarHeader(PySlice(h, 17, |h|));
      if vals.Err? {
        assert vals.error == ValueError by {
          RunTypedErr(PySlice(h, 17, |h|));
        }
        return Some(vals.error);
      }
      RunTyped(PySlice(h, 17, |h|));
      err := ApplyVars(vals.value);
    }

    /** `header_vals` stored, then `VS`, `GP` and `PR` read in that order. */
    method ApplyVars(vals: map<string, HeaderValue>) returns (err: Option<PyError>)
      requires Typed(vals)
      modifies this
      ensures header == vals
      ensures data == old(data) && product == old(product) && timestamp == old(timestamp) && wmoNr == old(wmoNr)
      ensures "VS" in vals ==> version == Some(vals["VS"].i)
      ensures "VS" !in vals ==> version == old(version)
      ensures "GP" !in vals ==> dataWidth == old(dataWidth) && dataHeight == old(dataHeight)
      ensures "GP" in vals ==>
        (GpHeight(vals["GP"].s).Err? ==> err == Some(ValueError) && dataHeight == old(dataHeight) && dataWidth == old(dataWidth)) &&
        (GpHeight(vals["GP"].s).Ok? ==> dataHeight == GpHeight(vals["GP"].s).value) &&
        (GpHeight(vals["GP"].s).Ok? && GpWidth(vals["GP"].s).Err? ==> err == Some(GpWidth(vals["GP"].s).error) && dataWidth == old(dataWidth)) &&
        (GpHeight(vals["GP"].s).Ok? && GpWidth(vals["GP"].s).Ok? ==> dataWidth == GpWidth(vals["GP"].s).value)
      ensures GridRead(vals) ==> err == AccuracyOf(vals)
      ensures !GridRead(vals) ==> err.Some?
    {
      header := vals;
      if "VS" in vals {
        version := Some(vals["VS"].i);
      }
      if "GP" in vals {
        err := ApplyGp(vals["GP"].s);
        if err.Some? {
          return;
        }
      }
      err := AccuracyOf(vals);
    }

    /** `get_value`: the reading of the grid cell of a point, in metres of the
        projection; None off the grid or past the data (the LookupError the
        source catches). */
    function GetValue(x: real, y: real): (r: Option<int>)
      reads this
      ensures var cx, cy := (x - SouthWest.0) / 1000.0, (y - SouthWest.1) / 1000.0;
        (r.Some? <==> InGrid(cx, cy, dataWidth, dataHeight) && CellIndex(cx, cy, dataWidth, dataHeight) < |data|) &&
        (r.Some? ==> r.value == data[CellIndex(cx, cy, dataWidth, dataHeight)])
    {
      var cx := (x - SouthWest.0) / 1000.0;
      var cy := (y - SouthWest.1) / 1000.0;
      if !InGrid(cx, cy, dataWidth, dataHeight) then None
      else
        var i := CellIndex(cx, cy, dataWidth, dataHeight);
        if i < |data| then Some(data[i]) else None
    }

    /** `get_wawa`: the wawa code of the reading of a point, None where
        there is no reading or `WAWA` has no entry for it (the KeyError the
        source catches). */
    function GetWawa(x: real, y: real): (r: Option<int>)
      reads this
      ensures r.Some? ==> r.value in {0, 40, 50, 54, 60, 64, 67, 70, 74, 89}
      ensures r.Some? ==> GetValue(x, y).Some? && Wawa(GetValue(x, y).value) == Some(r)
      ensures GetValue(x, y).Some? && Wawa(GetValue(x, y).value).Some? ==> Some(r) == Wawa(GetValue(x, y).value)
    {
      match GetValue(x, y)
      case None => None
      case Some(v) =>
        match Wawa(v)
        case None => None
        case Some(w) => w
    }
  }

  /** The grid size is read without failure: no `GP`, or one with height
      and width. */
  predicate GridRead(vals: map<string, HeaderValue>) {
    "GP" !in vals || (vals["GP"].Text? && GpHeight(vals["GP"].s).Ok? && GpWidth(vals["GP"].s).Ok?)
  }

  /** What the `PR` field of a header raises, if anything. */
  function AccuracyOf(vals: map<string, HeaderValue>): Option<PyError>
    requires Typed(vals)
  {
    if "PR" in vals then AccuracyError(vals["PR"].s) else None
  }

  /** A product whose data fill its grid answers every point of the grid. */
  lemma GridCovered(r: DwdRadar, x: real, y: real)
    requires r.dataWidth >= 1 && r.dataHeight >= 1
    requires |r.data| == r.dataWidth * r.dataHeight
    requires InGrid((x - SouthWest.0) / 1000.0, (y - SouthWest.1) / 1000.0, r.dataWidth, r.dataHeight)
    ensures r.GetValue(x, y).Some?
  {
    CellInGrid((x - SouthWest.0) / 1000.0, (y - SouthWest.1) / 1000.0, r.dataWidth, r.dataHeight);
  }

  // ------------------------------------------------------ radar thread

  /** An observation of a record: value, unit and unit group. */
  datatype Reading = Reading(value: Option<int>, unit: Option<string>, group: Option<string>)

  /** A configured location: its `xy` (None where the section has none, a
      KeyError the thread catches) and its `prefix` ("" where there is none). */
  datatype Location = Location(xy: Option<(real, real)>, prefix: string)

  /** The start of the observation names of a location. */
  function LocationPrefix(l: Location, product: string): string {
    if l.prefix != "" then l.prefix + "Radar" + product else "radar" + product
  }

  /** The record `getRecord` builds from one product, location after
      location; a location without `xy` is skipped. */
  function RecordOf(dwd: DwdRadar, locations: seq<Location>): (r: map<string, Reading>)
    requires dwd.product.Some? && dwd.timestamp.Some?
    reads dwd
    ensures forall k :: k in r ==> IsObservation(r[k])
  {
    if locations == [] then map[]
    else
      var rec := RecordOf(dwd, locations[..|locations| - 1]);
      var l := locations[|locations| - 1];
      if l.xy.None? then rec
      else
        var (x, y) := l.xy.value;
        var p := LocationPrefix(l, dwd.product.value);
        rec[p + "Value" := Reading(dwd.GetValue(x, y), None, None)]
           [p + "Wawa" := Reading(dwd.GetWawa(x, y), Some("byte"), Some("group_wmo_wawa"))]
           [p + "DateTime" := Reading(Some(dwd.timestamp.value), Some("unix_epoch"), Some("group_time"))]
  }

  /** The three kinds of reading a record holds: the radar value, a
      `WAWA` code and the issue time. */
  predicate IsObservation(e: Reading) {
    (e.unit == None && e.group == None) ||
    (e.unit == Some("byte") && e.group == Some("group_wmo_wawa")) ||
    (e.unit == Some("unix_epoch") && e.group == Some("group_time"))
  }

  /** What a record holds: the three observations of every location with
      a position, the issue time as every `unix_epoch` value and a code of
      `WAWA` or nothing as every `byte` value. */
  lemma RecordEntries(dwd: DwdRadar, locations: seq<Location>)
    requires dwd.product.Some? && dwd.timestamp.Some?
    ensures var rec := RecordOf(dwd, locations);
      (forall i :: 0 <= i < |locations| && locations[i].xy.Some? ==>
        LocationPrefix(locations[i], dwd.product.value) + "Value" in rec &&
        LocationPrefix(locations[i], dwd.product.value) + "Wawa" in rec &&
        LocationPrefix(locations[i], dwd.product.value) + "DateTime" in rec) &&
      (forall k :: k in rec && rec[k].unit == Some("unix_epoch") ==> rec[k].value == dwd.timestamp) &&
      (forall k :: k in rec && rec[k].unit == Some("byte") && rec[k].value.Some? ==>
        rec[k].value.value in {0, 40, 50, 54, 60, 64, 67, 70, 74, 89})
  {
    RecordKeys(dwd, locations);
    RecordTimes(dwd, locations);
    RecordCodes(dwd, locations);
  }

  lemma {:induction false} RecordKeys(dwd: DwdRadar, locations: seq<Location>)
    requires dwd.product.Some? && dwd.timestamp.Some?
    ensures forall i :: 0 <= i < |locations| && locations[i].xy.Some? ==>
      LocationPrefix(locations[i], dwd.product.value) + "Value" in RecordOf(dwd, locations) &&
      LocationPrefix(locations[i], dwd.product.value) + "Wawa" in RecordOf(dwd, locations) &&
      LocationPrefix(locations[i], dwd.product.value) + "DateTime" in RecordOf(dwd, locations)
  {
    if locations != [] {
      var front := locations[..|locations| - 1];
      RecordKeys(dwd, front);
      assert forall i :: 0 <= i < |front| ==> front[i] == locations[i];
      assert RecordOf(dwd, front).Keys <= RecordOf(dwd, locations).Keys;
    }
  }

  /** Every `unix_epoch` value of the record is the issue time. */
  predicate TimesAre(rec: map<string, Reading>, ts: Option<int>) {
    forall k :: k in rec && rec[k].unit == Some("unix_epoch") ==> rec[k].value == ts
  }

  /** Every `byte` value of the record is a code of `WAWA` or nothing. */
  predicate CodesIn(rec: map<string, Reading>) {
    forall k :: k in rec && rec[k].unit == Some("byte") && rec[k].value.Some? ==>
      rec[k].value.value in {0, 40, 50, 54, 60, 64, 67, 70, 74, 89}
  }

  lemma {:induction false} RecordTimes(dwd: DwdRadar, locations: seq<Location>)
    requires dwd.product.Some? && dwd.timestamp.Some?
    ensures TimesAre(RecordOf(dwd, locations), dwd.timestamp)
  {
    if locations != [] {
      var front := locations[..|locations| - 1];
      RecordTimes(dwd, front);
      var rec0 := RecordOf(dwd, front);
      var last := locations[|locations| - 1];
      if last.xy.Some? {
        var (x, y) := last.xy.value;
        var p := LocationPrefix(last, dwd.product.value);
        var rec := RecordOf(dwd, locations);
        assert rec == rec0[p + "Value" := Reading(dwd.GetValue(x, y), None, None)]
          [p + "Wawa" := Reading(dwd.GetWawa(x, y), Some("byte"), Some("group_wmo_wawa"))]
          [p + "DateTime" := Reading(Some(dwd.timestamp.value), Some("unix_epoch"), Some("group_time"))];
        forall k | k in rec && rec[k].unit == Some("unix_epoch")
          ensures rec[k].value == dwd.timestamp
        {
          if k != p + "DateTime" {
            assert "byte" != "unix_epoch";
            assert k != p + "Wawa" && k != p + "Value";
            assert rec[k] == rec0[k];
          }
        }
      }
    }
  }

  lemma {:induction false} RecordCodes(dwd: DwdRadar, locations: seq<Location>)
    requires dwd.product.Some? && dwd.timestamp.Some?
    ensures CodesIn(RecordOf(dwd, locations))
  {
    if locations != [] {
      var front := locations[..|locations| - 1];
      RecordCodes(dwd, front);
      var rec0 := RecordOf(dwd, front);
      var last := locations[|locations| - 1];
      if last.xy.Some? {
        var (x, y) := last.xy.value;
        var p := LocationPrefix(last, dwd.product.value);
        var w := dwd.GetWawa(x, y);
        var rec := RecordOf(dwd, locations);
        assert rec == rec0[p + "Value" := Reading(dwd.GetValue(x, y), None, None)]
          [p + "Wawa" := Reading(w, Some("byte"), Some("group_wmo_wawa"))]
          [p + "DateTime" := Reading(Some(dwd.timestamp.value), Some("unix_epoch"), Some("group_time"))];
        forall k | k in rec && rec[k].unit == Some("byte") && rec[k].value.Some?
          ensures rec[k].value.value in {0, 40, 50, 54, 60, 64, 67, 70, 74, 89}
        {
          assert "unix_epoch" != "byte";
          if k == p + "Wawa" {
            assert rec[k].value == w;
          } else {
            assert k != p + "DateTime" && k != p + "Value";
            assert rec[k] == rec0[k];
          }
        }
      }
    }
  }

  /** The entries left after deleting, from the front, every entry older
      than `cutoff`; the first entry that is recent enough stops it. */
  function DropStale(s: seq<(int, map<string, Reading>)>, cutoff: real): (r: seq<(int, map<string, Reading>)>)
    ensures |r| <= |s|
    ensures r != [] ==> (r[0].0 as real) >= cutoff
  {
    if s != [] && (s[0].0 as real) < cutoff then DropStale(s[1..], cutoff) else s
  }

  /** The trim keeps a tail of the buffer: what it deletes is older than
      the cutoff, and what it keeps starts with an entry that is not. */
  lemma {:induction false} DropStaleTail(s: seq<(int, map<string, Reading>)>, cutoff: real) returns (k: nat)
    ensures k <= |s| && DropStale(s, cutoff) == s[k..]
    ensures forall j :: 0 <= j < k ==> (s[j].0 as real) < cutoff
    ensures k < |s| ==> (s[k].0 as real) >= cutoff
  {
    if s != [] && (s[0].0 as real) < cutoff {
      var k' := DropStaleTail(s[1..], cutoff);
      k := k' + 1;
      assert s[1..][k'..] == s[k..];
      forall j | 0 <= j < k ensures (s[j].0 as real) < cutoff {
        if j > 0 {
          assert s[j] == s[1..][j - 1];
        }
      }
    } else {
      k := 0;
    }
  }

  /** The position of the first entry stamped `ts` or later. */
  function FirstAtOrAfter(s: seq<(int, map<string, Reading>)>, ts: int): (k: nat)
    ensures k <= |s|
    ensures forall j :: 0 <= j < k ==> s[j].0 < ts
    ensures k < |s| ==> s[k].0 >= ts
  {
    if s == [] || s[0].0 >= ts then 0
    else
      var k := FirstAtOrAfter(s[1..], ts);
      assert forall j :: 1 <= j <= k ==> s[j] == s[1..][j - 1];
      k + 1
  }

  /** `DwdRadarThread`: the records of the products fetched in the last hour. */
  class DwdRadarThread {
    var data: seq<(int, map<string, Reading>)>

    constructor ()
      ensures data == []
    {
      data := [];
    }

    /** The loop over the locations in `getRecord`. */
    method Readings(dwd: DwdRadar, locations: seq<Location>) returns (rec: map<string, Reading>)
      requires dwd.product.Some? && dwd.timestamp.Some?
      ensures rec == RecordOf(dwd, locations)
    {
      rec := map[];
      var i := 0;
      while i < |locations|
        invariant 0 <= i <= |locations|
        invariant RecordOf(dwd, locations[..i]) == rec
      {
        assert locations[..i + 1][..i] == locations[..i];
        var l := locations[i];
        if l.xy.Some? {
          var (x, y) := l.xy.value;
          var p := if l.prefix != "" then l.prefix + "Radar" + dwd.product.value else "radar" + dwd.product.value;
          rec := rec[p + "Value" := Reading(dwd.GetValue(x, y), None, None)];
          rec := rec[p + "Wawa" := Reading(dwd.GetWawa(x, y), Some("byte"), Some("group_wmo_wawa"))];
          rec := rec[p + "DateTime" := Reading(Some(dwd.timestamp.value), Some("unix_epoch"), Some("group_time"))];
        }
        i := i + 1;
      }
      assert locations[..i] == locations;
    }

    /** `getRecord`, after the download (`dwd`, null when it failed) and the
        maps. A failed download reaches `log.failure`, an attribute the
        module's logger does not have: AttributeError, and the data stays as
        it was. Otherwise the record of the product is appended and the
        entries older than an hour before `now` are deleted from the front. */
    method GetRecord(dwd: DwdRadar?, locations: seq<Location>, now: real) returns (err: Option<PyError>)
      requires dwd != null ==> dwd.product.Some? && dwd.timestamp.Some?
      modifies this
      ensures dwd == null ==> err == Some(AttributeError) && data == old(data)
      ensures dwd != null ==> err.None?
      ensures dwd != null ==>
        data == DropStale(old(data) + [(dwd.timestamp.value, RecordOf(dwd, locations))], now - 3600.0)
    {
      if dwd == null {
        return Some(AttributeError);
      }
      var rec := Readings(dwd, locations);
      data := Trim(data + [(dwd.timestamp.value, rec)], now - 3600.0);
      err := None;
    }

    /** The loop of `getRecord` that deletes stale entries from the front. */
    static method Trim(s: seq<(int, map<string, Reading>)>, cutoff: real) returns (t: seq<(int, map<string, Reading>)>)
      ensures t == DropStale(s, cutoff)
      ensures t != [] ==> (t[0].0 as real) >= cutoff
    {
      t := s;
      while |t| > 0 && (t[0].0 as real) < cutoff
        invariant DropStale(t, cutoff) == DropStale(s, cutoff)
        decreases |t|
      {
        t := t[1..];
      }
    }

    /** `get_data(ts)`: the record of the last entry before the first one
        stamped `ts` or later, empty when there is none; the interval is 1. */
    method GetData(ts: int) returns (r: map<string, Reading>, interval: int)
      ensures interval == 1
      ensures var k := FirstAtOrAfter(data, ts); r == (if k == 0 then map[] else data[k - 1].1)
    {
      r := map[];
      var i := 0;
      while i < |data|
        invariant 0 <= i <= |data|
        invariant forall j :: 0 <= j < i ==> data[j].0 < ts
        invariant r == (if i == 0 then map[] else data[i - 1].1)
      {
        if data[i].0 >= ts {
          break;
        }
        r := data[i].1;
        i := i + 1;
      }
      FirstAtOrAfterUnique(data, ts, i);
      interval := 1;
    }
  }

  /** The first entry stamped `ts` or later is where the scan stops. */
  lemma {:induction false} FirstAtOrAfterUnique(s: seq<(int, map<string, Reading>)>, ts: int, i: nat)
    requires i <= |s|
    requires forall j :: 0 <= j < i ==> s[j].0 < ts
    requires i < |s| ==> s[i].0 >= ts
    ensures FirstAtOrAfter(s, ts) == i
  {
    if i > 0 {
      assert s[0].0 < ts;
      assert forall j :: 0 <= j < i - 1 ==> s[1..][j] == s[j + 1];
      FirstAtOrAfterUnique(s[1..], ts, i - 1);
    }
  }
}
