/**
 The hand-written CBOR codec for `zcash-pczt` payloads: heads in their five
 definite forms (section 3 of RFC 8949), the definite encoder, and the decoder
 that also accepts indefinite-length byte strings (section 3.2.3).

 Shifts and ors on disjoint bits are written as the equal arithmetic.
 A machine word has 64 bits. Where the decoder adds a declared length to an
 offset without a check, a sum that leaves the word is its own outcome.
*/
module Cbor {
  import opened Wrappers

  type Byte = b: int | 0 <= b < 256
  type Bytes = seq<Byte>

  const WORD: nat := 0x1_0000_0000_0000_0000

  datatype CborError =
    | UnexpectedEnd
    | UnsupportedAdditionalInfo
    | Invalid(reason: string)

  datatype Head = Head(major: nat, value: nat, offset: nat, indefinite: bool)

  /** `Overflowed`: an unchecked `offset + len` left the machine word. */
  datatype Decoded = Decoded(bytes: Bytes) | Rejected(error: CborError) | Overflowed

  // ---------------------------------------------------------------------------
  // Big-endian numbers
  // ---------------------------------------------------------------------------

  function BigEndian(bs: Bytes): nat {
    if bs == [] then 0 else BigEndian(bs[..|bs| - 1]) * 256 + bs[|bs| - 1]
  }

  function ToBigEndian(n: nat, width: nat): (r: Bytes)
    ensures |r| == width
  {
    if width == 0 then [] else ToBigEndian(n / 256, width - 1) + [n % 256]
  }

  function Pow256(k: nat): (r: nat)
    ensures r > 0
  {
    if k == 0 then 1 else 256 * Pow256(k - 1)
  }

  lemma {:induction false} BigEndianRoundTrip(n: nat, width: nat)
    requires n < Pow256(width)
    ensures BigEndian(ToBigEndian(n, width)) == n
  {
    if width > 0 {
      BigEndianRoundTrip(n / 256, width - 1);
      var r := ToBigEndian(n, width);
      assert r[..|r| - 1] == ToBigEndian(n / 256, width - 1);
    }
  }

  lemma {:induction false} BigEndianInjective(bs: Bytes)
    ensures BigEndian(bs) < Pow256(|bs|)
    ensures ToBigEndian(BigEndian(bs), |bs|) == bs
  {
    if bs != [] {
      BigEndianInjective(bs[..|bs| - 1]);
      var n := BigEndian(bs[..|bs| - 1]);
      assert BigEndian(bs) / 256 == n && BigEndian(bs) % 256 == bs[|bs| - 1];
    }
  }

  lemma Pow256Values()
    ensures Pow256(0) == 1 && Pow256(1) == 0x100 && Pow256(2) == 0x1_0000
    ensures Pow256(4) == 0x1_0000_0000 && Pow256(8) == WORD
  {
    assert Pow256(3) == 0x100_0000;
    assert Pow256(5) == 0x100_0000_0000;
    assert Pow256(6) == 0x1_0000_0000_0000;
    assert Pow256(7) == 0x100_0000_0000_0000;
  }

  // ---------------------------------------------------------------------------
  // Heads: the five definite forms of section 3 of RFC 8949
  // ---------------------------------------------------------------------------

  datatype Form = Tiny | One | Two | Four | Eight

  function Width(form: Form): nat {
    match form
    case Tiny => 0
    case One => 1
    case Two => 2
    case Four => 4
    case Eight => 8
  }

  /** The additional-information value that announces a form. */
  function Info(form: Form, value: nat): nat {
    match form
    case Tiny => value
    case One => 24
    case Two => 25
    case Four => 26
    case Eight => 27
  }

  /** The values a form can hold. */
  function Capacity(form: Form): nat {
    match form
    case Tiny => 24
    case One => 0x100
    case Two => 0x1_0000
    case Four => 0x1_0000_0000
    case Eight => WORD
  }

  predicate Fits(value: nat, form: Form) {
    value < Capacity(form)
  }

  /** The bytes of a definite head in a chosen, possibly wasteful, form. */
  function HeadBytes(major: nat, value: nat, form: Form): (r: Bytes)
    requires major < 8 && Fits(value, form)
    ensures |r| == 1 + Width(form)
  {
    [major * 32 + Info(form, value)] + ToBigEndian(value, Width(form))
  }

  function FormOf(info: nat): Option<Form> {
    if info < 24 then Some(Tiny)
    else if info == 24 then Some(One)
    else if info == 25 then Some(Two)
    else if info == 26 then Some(Four)
    else if info == 27 then Some(Eight)
    else None
  }

  /** What a head at `offset` says; `ReadHead` below computes it byte by byte. */
  function HeadAt(bytes: Bytes, offset: nat): (r: Result<Head, CborError>)
    ensures r.Ok? ==> offset < r.value.offset <= |bytes| && r.value.major < 8
    ensures r.Ok? ==> r.value.value < WORD
  {
    if offset >= |bytes| then Err(UnexpectedEnd)
    else
      var major, info, next := bytes[offset] / 32, bytes[offset] % 32, offset + 1;
      if info == 31 then Ok(Head(major, 0, next, true))
      else
        match FormOf(info)
        case None => Err(UnsupportedAdditionalInfo)
        case Some(Tiny) => Ok(Head(major, info, next, false))
        case Some(form) =>
          if next + Width(form) > |bytes| then Err(UnexpectedEnd)
          else
            var value := BigEndian(bytes[next..next + Width(form)]);
            BigEndianInjective(bytes[next..next + Width(form)]);
            Pow256Values();
            Ok(Head(major, value, next + Width(form), false))
  }

  method ByteAt(bytes: Bytes, i: nat) returns (r: Result<Byte, CborError>)
    ensures r == if i < |bytes| then Ok(bytes[i]) else Err(UnexpectedEnd)
  {
    if i < |bytes| {
      r := Ok(bytes[i]);
    } else {
      r := Err(UnexpectedEnd);
    }
  }

  /** `read_head`: the eight-byte form accumulates in a loop. */
  method ReadHead(bytes: Bytes, offset: nat) returns (r: Result<Head, CborError>)
    ensures r == HeadAt(bytes, offset)
  {
    var initial := ByteAt(bytes, offset);
    if initial.Err? {
      return Err(initial.error);
    }
    var major := initial.value / 32;
    var info := initial.value % 32;
    var next := offset + 1;
    if info < 24 {
      return Ok(Head(major, info, next, false));
    }
    var width := 0;
    match info {
      case 24 => width := 1;
      case 25 => width := 2;
      case 26 => width := 4;
      case 27 => width := 8;
      case 31 => return Ok(Head(major, 0, next, true));
      case _ => return Err(UnsupportedAdditionalInfo);
    }
    var n: nat := 0;
    for i := 0 to width
      invariant next + i <= |bytes|
      invariant n == BigEndian(bytes[next..next + i])
    {
      var b := ByteAt(bytes, next + i);
      if b.Err? {
        return Err(b.error);
      }
      assert bytes[next..next + i + 1][..i] == bytes[next..next + i];
      n := n * 256 + b.value;
    }
    return Ok(Head(major, n, next + width, false));
  }

  lemma HeadByte(major: nat, info: nat)
    requires major < 8 && info < 32
    ensures (major * 32 + info) / 32 == major && (major * 32 + info) % 32 == info
  {
  }

  lemma HeadFromParts(c: Bytes, offset: nat, major: nat, value: nat, form: Form)
    requires major < 8 && Fits(value, form) && offset + 1 + Width(form) <= |c|
    requires c[offset] == major * 32 + Info(form, value)
    requires c[offset + 1..offset + 1 + Width(form)] == ToBigEndian(value, Width(form))
    ensures HeadAt(c, offset) == Ok(Head(major, value, offset + 1 + Width(form), false))
  {
    hide BigEndian, ToBigEndian;
    HeadByte(major, Info(form, value));
    if form != Tiny {
      Pow256Values();
      BigEndianRoundTrip(value, Width(form));
      hide Pow256;
    }
  }

  /** Every form of a head reads back at any offset, whatever follows it. */
  lemma HeadReadsBack(prefix: Bytes, major: nat, value: nat, form: Form, suffix: Bytes)
    requires major < 8 && Fits(value, form)
    ensures HeadAt(prefix + HeadBytes(major, value, form) + suffix, |prefix|)
         == Ok(Head(major, value, |prefix| + 1 + Width(form), false))
  {
    hide HeadAt, HeadBytes, ToBigEndian, Info, Width;
    var head := HeadBytes(major, value, form);
    PartsOfHead(major, value, form);
    MiddleOf(prefix, head, suffix);
    HeadFromParts(prefix + head + suffix, |prefix|, major, value, form);
  }

  lemma PartsOfHead(major: nat, value: nat, form: Form)
    requires major < 8 && Fits(value, form)
    ensures var head := HeadBytes(major, value, form);
            && head != [] && head[0] == major * 32 + Info(form, value)
            && head[1..] == ToBigEndian(value, Width(form))
  {
    hide ToBigEndian;
  }

  lemma MiddleOf(prefix: Bytes, head: Bytes, suffix: Bytes)
    requires head != []
    ensures var all := prefix + head + suffix;
            && |prefix| + |head| <= |all| && all[|prefix|] == head[0]
            && all[|prefix| + 1..|prefix| + |head|] == head[1..]
  {
  }

  /** Conversely, a definite head was written in one of the five forms. */
  lemma HeadHasForm(bytes: Bytes, offset: nat) returns (form: Form)
    requires HeadAt(bytes, offset).Ok? && !HeadAt(bytes, offset).value.indefinite
    ensures var h := HeadAt(bytes, offset).value;
            && Fits(h.value, form)
            && h.offset == offset + 1 + Width(form)
            && bytes[offset..h.offset] == HeadBytes(h.major, h.value, form)
  {
    var h := HeadAt(bytes, offset).value;
    form := FormOf(bytes[offset] % 32).value;
    if form != Tiny {
      Pow256Values();
      BigEndianInjective(bytes[offset + 1..h.offset]);
    }
    assert bytes[offset..h.offset] == [bytes[offset]] + bytes[offset + 1..h.offset];
  }

  /** When a head does not read: it uses a reserved form, or the input ends too soon. */
  lemma HeadRefusedExactly(bytes: Bytes, offset: nat)
    ensures HeadAt(bytes, offset) == Err(UnsupportedAdditionalInfo) <==>
              offset < |bytes| && 28 <= bytes[offset] % 32 <= 30
    ensures HeadAt(bytes, offset) == Err(UnexpectedEnd) <==>
              || offset >= |bytes|
              || (bytes[offset] % 32 == 24 && offset + 2 > |bytes|)
              || (bytes[offset] % 32 == 25 && offset + 3 > |bytes|)
              || (bytes[offset] % 32 == 26 && offset + 5 > |bytes|)
              || (bytes[offset] % 32 == 27 && offset + 9 > |bytes|)
    ensures HeadAt(bytes, offset).Ok? ==>
              (HeadAt(bytes, offset).value.indefinite <==> bytes[offset] % 32 == 31)
  {
  }

  // ---------------------------------------------------------------------------
  // encode_cbor_major_len
  // ---------------------------------------------------------------------------

  function ShortestForm(len: nat): Form {
    if len < 24 then Tiny
    else if len < 0x100 then One
    else if len < 0x1_0000 then Two
    else if len < 0x1_0000_0000 then Four
    else Eight
  }

  /** The four low-order bytes, most significant first. */
  function FourBytes(n: nat): Bytes {
    [n / 0x100_0000 % 256, n / 0x1_0000 % 256, n / 0x100 % 256, n % 256]
  }

  function EncodeMajorLen(major: Byte, len: nat): Bytes
    requires len < WORD
  {
    var m := major * 32 % 256;
    if len < 24 then [m + len]
    else if len < 0x100 then [m + 24, len % 256]
    else if len < 0x1_0000 then [m + 25, len / 0x100, len % 256]
    else if len < 0x1_0000_0000 then [m + 26] + FourBytes(len)
    else [m + 27] + (FourBytes(len / 0x1_0000_0000) + FourBytes(len))
  }

  lemma SplitLow(n: nat, width: nat)
    requires width > 0
    ensures ToBigEndian(n, width) == ToBigEndian(n / 256, width - 1) + [n % 256]
  {
  }

  lemma SplitLowTwo(n: nat, width: nat)
    requires width > 1
    ensures ToBigEndian(n, width)
         == ToBigEndian(n / 0x1_0000, width - 2) + [n / 0x100 % 256, n % 256]
  {
    SplitLow(n, width);
    SplitLow(n / 0x100, width - 1);
  }

  lemma SplitLowFour(n: nat, width: nat)
    requires width > 3
    ensures ToBigEndian(n, width) == ToBigEndian(n / 0x1_0000_0000, width - 4) + FourBytes(n)
  {
    hide ToBigEndian;
    SplitLowTwo(n, width);
    SplitLowTwo(n / 0x1_0000, width - 2);
    DivideTwice(n);
    var high, low := ToBigEndian(n / 0x1_0000_0000, width - 4), n / 0x1_0000;
    JoinPairs(high, low / 0x100 % 256, low % 256, n / 0x100 % 256, n % 256);
  }

  lemma DivideTwice(n: nat)
    ensures n / 0x1_0000 / 0x1_0000 == n / 0x1_0000_0000
    ensures n / 0x1_0000 / 0x100 == n / 0x100_0000
  {
  }

  lemma JoinPairs(high: Bytes, a: Byte, b: Byte, c: Byte, d: Byte)
    ensures high + [a, b] + [c, d] == high + [a, b, c, d]
  {
  }

  lemma BytesOfFour(n: nat)
    ensures ToBigEndian(n, 4) == FourBytes(n)
  {
    SplitLowFour(n, 4);
    assert ToBigEndian(n / 0x1_0000_0000, 0) == [];
    hide FourBytes, ToBigEndian;
  }

  lemma BytesOfEight(n: nat)
    ensures ToBigEndian(n, 8) == FourBytes(n / 0x1_0000_0000) + FourBytes(n)
  {
    hide FourBytes, ToBigEndian;
    SplitLowFour(n, 8);
    BytesOfFour(n / 0x1_0000_0000);
  }

  lemma EncodesUpToTwo(major: nat, len: nat)
    requires major < 8 && len < 0x1_0000
    ensures EncodeMajorLen(major, len) == HeadBytes(major, len, ShortestForm(len))
  {
    if len >= 0x100 {
      SplitLowTwo(len, 2);
    } else if len >= 24 {
      SplitLow(len, 1);
    }
  }

  lemma EncodesFour(major: nat, len: nat)
    requires major < 8 && 0x1_0000 <= len < 0x1_0000_0000
    ensures EncodeMajorLen(major, len) == HeadBytes(major, len, Four)
  {
    BytesOfFour(len);
    hide FourBytes, ToBigEndian;
  }

  lemma EncodesEight(major: nat, len: nat)
    requires major < 8 && 0x1_0000_0000 <= len < WORD
    ensures EncodeMajorLen(major, len) == HeadBytes(major, len, Eight)
  {
    BytesOfEight(len);
    hide FourBytes, ToBigEndian;
  }

  /** The encoder writes the bytes of the shortest form. */
  lemma EncodesShortestForm(major: nat, len: nat)
    requires major < 8 && len < WORD
    ensures EncodeMajorLen(major, len) == HeadBytes(major, len, ShortestForm(len))
  {
    if len < 0x1_0000 {
      EncodesUpToTwo(major, len);
    } else if len < 0x1_0000_0000 {
      EncodesFour(major, len);
    } else {
      EncodesEight(major, len);
    }
  }

  /** `read_head` inverts `encode_cbor_major_len` at any offset with any suffix. */
  lemma EncodedHeadReadsBack(prefix: Bytes, major: nat, len: nat, suffix: Bytes)
    requires major < 8 && len < WORD
    ensures HeadAt(prefix + EncodeMajorLen(major, len) + suffix, |prefix|)
         == Ok(Head(major, len, |prefix| + |EncodeMajorLen(major, len)|, false))
  {
    EncodesShortestForm(major, len);
    HeadReadsBack(prefix, major, len, ShortestForm(len), suffix);
  }

  /** No head that reads back to the same value is shorter (section 4.1 of RFC 8949). */
  lemma EncodedHeadIsShortest(bytes: Bytes, offset: nat)
    requires HeadAt(bytes, offset).Ok? && !HeadAt(bytes, offset).value.indefinite
    ensures var h := HeadAt(bytes, offset).value;
            offset + |EncodeMajorLen(h.major, h.value)| <= h.offset
  {
    var h := HeadAt(bytes, offset).value;
    var form := HeadHasForm(bytes, offset);
    EncodesShortestForm(h.major, h.value);
  }

  // ---------------------------------------------------------------------------
  // encode_zcash_pczt_ur_cbor and decode_zcash_pczt_ur_cbor
  // ---------------------------------------------------------------------------

  /** The encoder appends map(1), key 1, the byte-string head and the payload. */
  method EncodeZcashPczt(pczt: Bytes) returns (out: Bytes)
    requires |pczt| < WORD
    ensures out == Serialize(Document(Tiny, Tiny, Definite(ShortestForm(|pczt|), pczt)))
  {
    hide EncodeMajorLen, Serialize;
    EncodingIsDocument(pczt);
    out := [];
    out := out + EncodeMajorLen(5, 1);
    out := out + EncodeMajorLen(0, 1);
    out := out + EncodeMajorLen(2, |pczt|);
    out := out + pczt;
  }

  lemma EncodingIsDocument(pczt: Bytes)
    requires |pczt| < WORD
    ensures EncodeMajorLen(5, 1) + EncodeMajorLen(0, 1) + EncodeMajorLen(2, |pczt|) + pczt
         == Serialize(Document(Tiny, Tiny, Definite(ShortestForm(|pczt|), pczt)))
  {
    var a, b, len := EncodeMajorLen(5, 1), EncodeMajorLen(0, 1), EncodeMajorLen(2, |pczt|);
    EncodesUpToTwo(5, 1);
    EncodesUpToTwo(0, 1);
    EncodesShortestForm(2, |pczt|);
    assert a + b + len + pczt == a + b + (len + pczt);
  }

  /** The chunks of an indefinite string from `offset` to the end of input. */
  function ChunksAt(c: Bytes, offset: nat): Decoded
    requires offset <= |c|
    decreases |c| - offset
  {
    if offset == |c| then Decoded([])
    else if c[offset] == 0xff then
      if offset + 1 == |c| then Decoded([]) else Rejected(Invalid("trailing bytes"))
    else
      match HeadAt(c, offset)
      case Err(e) => Rejected(e)
      case Ok(h) =>
        if h.major != 2 || h.indefinite then Rejected(Invalid("invalid chunk"))
        else if h.offset + h.value >= WORD then Overflowed
        else if h.offset + h.value > |c| then Rejected(Invalid("truncated chunk"))
        else Prepend(c[h.offset..h.offset + h.value], ChunksAt(c, h.offset + h.value))
  }

  function Prepend(chunk: Bytes, rest: Decoded): Decoded {
    if rest.Decoded? then Decoded(chunk + rest.bytes) else rest
  }

  function DecodeValue(c: Bytes, h: Head): Decoded
    requires h.offset <= |c|
  {
    if h.major != 2 then Rejected(Invalid("expected byte string"))
    else if h.indefinite then ChunksAt(c, h.offset)
    else if h.offset + h.value >= WORD then Overflowed
    else if h.offset + h.value > |c| then Rejected(Invalid("truncated data"))
    else if h.offset + h.value != |c| then Rejected(Invalid("trailing bytes"))
    else Decoded(c[h.offset..])
  }

  predicate IsOne(h: Head, major: nat) {
    h.major == major && !h.indefinite && h.value == 1
  }

  function Decode(c: Bytes): Decoded {
    match HeadAt(c, 0)
    case Err(e) => Rejected(e)
    case Ok(m) =>
      if !IsOne(m, 5) then Rejected(Invalid("expected map(1)"))
      else
        match HeadAt(c, m.offset)
        case Err(e) => Rejected(e)
        case Ok(k) =>
          if !IsOne(k, 0) then Rejected(Invalid("expected key 1"))
          else
            match HeadAt(c, k.offset)
            case Err(e) => Rejected(e)
            case Ok(v) => DecodeValue(c, v)
  }

  /** The decoder as written: a moving offset, a list of chunks, a final join. */
  method DecodeZcashPczt(c: Bytes) returns (r: Decoded)
    ensures r == Decode(c)
  {
    var map_ := ReadHead(c, 0);
    if map_.Err? {
      return Rejected(map_.error);
    }
    if !IsOne(map_.value, 5) {
      return Rejected(Invalid("expected map(1)"));
    }
    var key := ReadHead(c, map_.value.offset);
    if key.Err? {
      return Rejected(key.error);
    }
    if !IsOne(key.value, 0) {
      return Rejected(Invalid("expected key 1"));
    }
    var value := ReadHead(c, key.value.offset);
    if value.Err? {
      return Rejected(value.error);
    }
    var offset := value.value.offset;
    if value.value.major != 2 {
      return Rejected(Invalid("expected byte string"));
    }
    if !value.value.indefinite {
      var len := value.value.value;
      if offset + len >= WORD {
        return Overflowed;
      }
      if offset + len > |c| {
        return Rejected(Invalid("truncated data"));
      }
      var bytes := c[offset..offset + len];
      offset := offset + len;
      if offset != |c| {
        return Rejected(Invalid("trailing bytes"));
      }
      return Decoded(bytes);
    }
    r := DecodeChunks(c, offset);
  }

  method DecodeChunks(c: Bytes, start: nat) returns (r: Decoded)
    requires start <= |c|
    ensures r == ChunksAt(c, start)
  {
    hide HeadAt;
    var offset := start;
    var chunks: seq<Bytes> := [];
    while offset < |c|
      invariant offset <= |c|
      invariant ChunksAt(c, start) == Prepend(Join(chunks), ChunksAt(c, offset))
    {
      if c[offset] == 0xff {
        offset := offset + 1;
        break;
      }
      var chunk := ReadHead(c, offset);
      if chunk.Err? {
        return Rejected(chunk.error);
      }
      if chunk.value.major != 2 || chunk.value.indefinite {
        return Rejected(Invalid("invalid chunk"));
      }
      offset := chunk.value.offset;
      var len := chunk.value.value;
      if offset + len >= WORD {
        return Overflowed;
      }
      if offset + len > |c| {
        return Rejected(Invalid("truncated chunk"));
      }
      var data := c[offset..offset + len];
      JoinSnoc(chunks, data);
      PrependTwice(Join(chunks), data, ChunksAt(c, offset + len));
      chunks := chunks + [data];
      offset := offset + len;
    }
    if offset != |c| {
      return Rejected(Invalid("trailing bytes"));
    }
    var out := Concatenate(chunks);
    return Decoded(out);
  }

  method Concatenate(chunks: seq<Bytes>) returns (out: Bytes)
    ensures out == Join(chunks)
  {
    out := [];
    for i := 0 to |chunks|
      invariant out == Join(chunks[..i])
    {
      JoinSnoc(chunks[..i], chunks[i]);
      assert chunks[..i + 1] == chunks[..i] + [chunks[i]];
      out := out + chunks[i];
    }
    assert chunks[..|chunks|] == chunks;
  }

  function Join(chunks: seq<Bytes>): Bytes {
    if chunks == [] then [] else chunks[0] + Join(chunks[1..])
  }

  lemma {:induction false} JoinSnoc(chunks: seq<Bytes>, last: Bytes)
    ensures Join(chunks + [last]) == Join(chunks) + last
  {
    if chunks != [] {
      JoinSnoc(chunks[1..], last);
      assert (chunks + [last])[1..] == chunks[1..] + [last];
    } else {
      assert (chunks + [last])[1..] == [];
    }
  }

  lemma PrependTwice(a: Bytes, b: Bytes, rest: Decoded)
    ensures Prepend(a + b, rest) == Prepend(a, Prepend(b, rest))
  {
    if rest.Decoded? {
      assert (a + b) + rest.bytes == a + (b + rest.bytes);
    }
  }

  // ---------------------------------------------------------------------------
  // The accepted language
  // ---------------------------------------------------------------------------

  datatype Chunk = Chunk(form: Form, data: Bytes)

  /** `terminated`: whether the break byte is there. The decoder also accepts
      an indefinite string that simply stops at the end of input. */
  datatype Body =
    | Definite(form: Form, data: Bytes)
    | Indefinite(chunks: seq<Chunk>, terminated: bool)

  datatype Document = Document(mapForm: Form, keyForm: Form, body: Body)

  predicate FormsFit(d: Document) {
    match d.body
    case Definite(form, data) => Fits(|data|, form)
    case Indefinite(chunks, _) => ChunksFit(chunks)
  }

  predicate ChunksFit(chunks: seq<Chunk>) {
    forall ch | ch in chunks :: Fits(|ch.data|, ch.form)
  }

  function ChunkBytes(chunks: seq<Chunk>): Bytes
    requires ChunksFit(chunks)
  {
    if chunks == [] then []
    else HeadBytes(2, |chunks[0].data|, chunks[0].form) + chunks[0].data + ChunkBytes(chunks[1..])
  }

  function BodyBytes(d: Document): Bytes
    requires FormsFit(d)
  {
    match d.body
    case Definite(form, data) => HeadBytes(2, |data|, form) + data
    case Indefinite(chunks, terminated) =>
      [0x5f] + (ChunkBytes(chunks) + if terminated then [0xff] else [])
  }

  function Prelude(mapForm: Form, keyForm: Form): Bytes {
    HeadBytes(5, 1, mapForm) + HeadBytes(0, 1, keyForm)
  }

  function Serialize(d: Document): Bytes
    requires FormsFit(d)
  {
    Prelude(d.mapForm, d.keyForm) + BodyBytes(d)
  }

  function Datas(chunks: seq<Chunk>): seq<Bytes> {
    seq(|chunks|, i requires 0 <= i < |chunks| => chunks[i].data)
  }

  function Payload(d: Document): Bytes {
    match d.body
    case Definite(_, data) => data
    case Indefinite(chunks, _) => Join(Datas(chunks))
  }

  lemma DecodesDefinite(pre: Bytes, form: Form, data: Bytes)
    requires Fits(|data|, form) && |pre + (HeadBytes(2, |data|, form) + data)| < WORD
    ensures var c := pre + (HeadBytes(2, |data|, form) + data);
            var v := HeadAt(c, |pre|);
            v.Ok? && DecodeValue(c, v.value) == Decoded(data)
  {
    var head := HeadBytes(2, |data|, form);
    HeadReadsBack(pre, 2, |data|, form, data);
    assert pre + head + data == pre + (head + data);
  }

  lemma DecodesIndefinite(pre: Bytes, chunks: seq<Chunk>, stop: Bytes)
    requires ChunksFit(chunks) && (stop == [] || stop == [0xff])
    requires |pre + ([0x5f] + (ChunkBytes(chunks) + stop))| < WORD
    ensures var c := pre + ([0x5f] + (ChunkBytes(chunks) + stop));
            var v := HeadAt(c, |pre|);
            v.Ok? && DecodeValue(c, v.value) == Decoded(Join(Datas(chunks)))
  {
    hide HeadAt, ChunksAt, ChunkBytes, Datas, Join;
    var rest := ChunkBytes(chunks) + stop;
    IndefiniteHead(pre, rest);
    ChunksRead(pre + ([0x5f] + rest), |pre| + 1, chunks, stop);
  }

  /** Completeness: everything in the language decodes to its payload. */
  lemma DecodesDocument(d: Document)
    requires FormsFit(d) && |Serialize(d)| < WORD
    ensures Decode(Serialize(d)) == Decoded(Payload(d))
  {
    PreludeReads(d.mapForm, d.keyForm, BodyBytes(d));
    var pre := Prelude(d.mapForm, d.keyForm);
    match d.body {
      case Definite(form, data) =>
        DecodesDefinite(pre, form, data);
      case Indefinite(chunks, terminated) =>
        DecodesIndefinite(pre, chunks, if terminated then [0xff] else []);
    }
  }

  lemma PreludeReads(mapForm: Form, keyForm: Form, rest: Bytes)
    ensures var c := Prelude(mapForm, keyForm) + rest;
            var m := HeadAt(c, 0);
            && m.Ok? && IsOne(m.value, 5)
            && HeadAt(c, m.value.offset)
               == Ok(Head(0, 1, |Prelude(mapForm, keyForm)|, false))
  {
    hide HeadAt, HeadBytes;
    var a, b := HeadBytes(5, 1, mapForm), HeadBytes(0, 1, keyForm);
    var c := Prelude(mapForm, keyForm) + rest;
    assert c[0..|a|] == a && c[|a|..|a| + |b|] == b;
    HeadAtSlice(c, 0, 5, 1, mapForm);
    HeadAtSlice(c, |a|, 0, 1, keyForm);
  }

  lemma HeadAtSlice(c: Bytes, offset: nat, major: nat, value: nat, form: Form)
    requires major < 8 && Fits(value, form) && offset + 1 + Width(form) <= |c|
    requires c[offset..offset + 1 + Width(form)] == HeadBytes(major, value, form)
    ensures HeadAt(c, offset) == Ok(Head(major, value, offset + 1 + Width(form), false))
  {
    hide HeadAt, HeadBytes;
    var end := offset + 1 + Width(form);
    SplitThrice(c, offset, end);
    HeadReadsBack(c[..offset], major, value, form, c[end..]);
  }

  lemma SplitThrice(c: Bytes, i: nat, j: nat)
    requires i <= j <= |c|
    ensures c == c[..i] + c[i..j] + c[j..]
  {
  }

  lemma OneChunkReads(c: Bytes, offset: nat, form: Form, data: Bytes)
    requires Fits(|data|, form) && |c| < WORD
    requires offset + |HeadBytes(2, |data|, form) + data| <= |c|
    requires c[offset..offset + |HeadBytes(2, |data|, form) + data|]
          == HeadBytes(2, |data|, form) + data
    ensures ChunksAt(c, offset)
         == Prepend(data, ChunksAt(c, offset + 1 + Width(form) + |data|))
  {
    hide HeadAt;
    var head := HeadBytes(2, |data|, form);
    assert head[0] == 64 + Info(form, |data|) && |head| == 1 + Width(form);
    assert head[0] != 0xff;
    hide HeadBytes, Info, Width;
    SliceSplit(c, offset, head, data);
    HeadAtSlice(c, offset, 2, |data|, form);
  }

  lemma SliceSplit(c: Bytes, offset: nat, a: Bytes, b: Bytes)
    requires offset + |a + b| <= |c| && c[offset..offset + |a + b|] == a + b && a != []
    ensures c[offset..offset + |a|] == a && c[offset] == a[0]
    ensures c[offset + |a|..offset + |a| + |b|] == b
  {
    var whole := c[offset..offset + |a + b|];
    assert c[offset..offset + |a|] == whole[..|a|];
    assert c[offset + |a|..offset + |a| + |b|] == whole[|a|..];
    assert c[offset] == whole[0];
  }

  lemma DatasCons(chunks: seq<Chunk>)
    requires chunks != []
    ensures Join(Datas(chunks)) == chunks[0].data + Join(Datas(chunks[1..]))
  {
    assert Datas(chunks)[1..] == Datas(chunks[1..]);
  }

  lemma ChunkBytesCons(chunks: seq<Chunk>, stop: Bytes)
    requires chunks != [] && ChunksFit(chunks)
    ensures ChunksFit(chunks[1..])
    ensures ChunkBytes(chunks) + stop
         == (HeadBytes(2, |chunks[0].data|, chunks[0].form) + chunks[0].data)
            + (ChunkBytes(chunks[1..]) + stop)
  {
  }

  lemma TailSplit(c: Bytes, offset: nat, first: Bytes, rest: Bytes)
    requires offset <= |c| && c[offset..] == first + rest
    ensures c[offset..offset + |first|] == first && c[offset + |first|..] == rest
  {
    var tail := c[offset..];
    assert c[offset..offset + |first|] == tail[..|first|];
    assert c[offset + |first|..] == tail[|first|..];
  }

  lemma NoChunksRead(c: Bytes, offset: nat, stop: Bytes)
    requires stop == [] || stop == [0xff]
    requires offset <= |c| && c[offset..] == stop
    ensures ChunksAt(c, offset) == Decoded([])
  {
    hide HeadAt;
    assert stop != [] ==> c[offset] == stop[0];
  }

  /** Chunks read off one after the other, whatever follows them. */
  lemma {:induction false} ChunksReadOff(c: Bytes, offset: nat, chunks: seq<Chunk>, rest: Bytes)
    requires ChunksFit(chunks)
    requires offset <= |c| < WORD && c[offset..] == ChunkBytes(chunks) + rest
    ensures ChunksAt(c, offset)
         == Prepend(Join(Datas(chunks)), ChunksAt(c, offset + |ChunkBytes(chunks)|))
    decreases |chunks|
  {
    hide HeadBytes, HeadAt, ChunksAt;
    if chunks == [] {
      PrependNothing(ChunksAt(c, offset));
    } else {
      var ch, tail := chunks[0], chunks[1..];
      var first := HeadBytes(2, |ch.data|, ch.form) + ch.data;
      assert |ChunkBytes(chunks)| == |first| + |ChunkBytes(tail)|;
      hide ChunkBytes, Datas, Join, Prepend;
      ChunkBytesCons(chunks, rest);
      TailSplit(c, offset, first, ChunkBytes(tail) + rest);
      OneChunkReads(c, offset, ch.form, ch.data);
      ChunksReadOff(c, offset + |first|, tail, rest);
      DatasCons(chunks);
      PrependTwice(ch.data, Join(Datas(tail)), ChunksAt(c, offset + |ChunkBytes(chunks)|));
    }
  }

  lemma PrependNothing(d: Decoded)
    ensures Prepend([], d) == d && Prepend(Join(Datas([])), d) == d
  {
    assert Datas([]) == [];
    assert d.Decoded? ==> [] + d.bytes == d.bytes;
  }

  lemma ChunksRead(c: Bytes, offset: nat, chunks: seq<Chunk>, stop: Bytes)
    requires ChunksFit(chunks) && (stop == [] || stop == [0xff])
    requires offset <= |c| < WORD && c[offset..] == ChunkBytes(chunks) + stop
    ensures ChunksAt(c, offset) == Decoded(Join(Datas(chunks)))
  {
    hide HeadAt, ChunksAt, ChunkBytes, Datas, Join;
    ChunksReadOff(c, offset, chunks, stop);
    TailSplit(c, offset, ChunkBytes(chunks), stop);
    NoChunksRead(c, offset + |ChunkBytes(chunks)|, stop);
  }

  lemma PreludeHasForms(c: Bytes) returns (mapForm: Form, keyForm: Form)
    requires HeadAt(c, 0).Ok? && IsOne(HeadAt(c, 0).value, 5)
    requires HeadAt(c, HeadAt(c, 0).value.offset).Ok?
    requires IsOne(HeadAt(c, HeadAt(c, 0).value.offset).value, 0)
    ensures c[..HeadAt(c, HeadAt(c, 0).value.offset).value.offset] == Prelude(mapForm, keyForm)
  {
    hide HeadAt, HeadBytes;
    var m := HeadAt(c, 0).value;
    var k := HeadAt(c, m.offset).value;
    mapForm := HeadHasForm(c, 0);
    keyForm := HeadHasForm(c, m.offset);
    assert c[..k.offset] == c[0..m.offset] + c[m.offset..k.offset];
  }

  lemma DefiniteHasForm(c: Bytes, offset: nat, d: Document) returns (body: Body)
    requires HeadAt(c, offset).Ok? && !HeadAt(c, offset).value.indefinite
    requires DecodeValue(c, HeadAt(c, offset).value).Decoded?
    ensures var d' := d.(body := body);
            && FormsFit(d') && BodyBytes(d') == c[offset..]
            && Payload(d') == DecodeValue(c, HeadAt(c, offset).value).bytes
  {
    var v := HeadAt(c, offset).value;
    hide HeadBytes, HeadAt, ChunksAt;
    assert c[offset..] == c[offset..v.offset] + c[v.offset..];
    var form := HeadHasForm(c, offset);
    body := Definite(form, c[v.offset..]);
  }

  lemma IndefiniteHasForm(c: Bytes, offset: nat, d: Document) returns (body: Body)
    requires HeadAt(c, offset).Ok? && HeadAt(c, offset).value.indefinite
    requires DecodeValue(c, HeadAt(c, offset).value).Decoded?
    ensures var d' := d.(body := body);
            && FormsFit(d') && BodyBytes(d') == c[offset..]
            && Payload(d') == DecodeValue(c, HeadAt(c, offset).value).bytes
  {
    var v := HeadAt(c, offset).value;
    assert c[offset] == 0x5f && v.offset == offset + 1;
    hide HeadBytes, HeadAt, ChunksAt, ChunkBytes, Datas, Join;
    assert c[offset..] == [0x5f] + c[v.offset..];
    var chunks, stop := DecodedAreChunks(c, v.offset);
    body := Indefinite(chunks, stop == [0xff]);
  }

  lemma BodyHasForm(c: Bytes, offset: nat, d: Document) returns (body: Body)
    requires HeadAt(c, offset).Ok? && DecodeValue(c, HeadAt(c, offset).value).Decoded?
    ensures var d' := d.(body := body);
            && FormsFit(d') && BodyBytes(d') == c[offset..]
            && Payload(d') == DecodeValue(c, HeadAt(c, offset).value).bytes
  {
    hide HeadAt, DecodeValue, FormsFit, BodyBytes, Payload;
    if HeadAt(c, offset).value.indefinite {
      body := IndefiniteHasForm(c, offset, d);
    } else {
      body := DefiniteHasForm(c, offset, d);
    }
  }

  /** Soundness: a successful decode consumed the whole input as one document
      of the language, whose payload is the result. */
  lemma DecodedIsDocument(c: Bytes) returns (d: Document)
    requires Decode(c).Decoded?
    ensures FormsFit(d) && Serialize(d) == c && Payload(d) == Decode(c).bytes
  {
    hide HeadAt, Prelude, BodyBytes, Payload, DecodeValue;
    var m := HeadAt(c, 0).value;
    var k := HeadAt(c, m.offset).value;
    var mapForm, keyForm := PreludeHasForms(c);
    d := Document(mapForm, keyForm, Indefinite([], true));
    var body := BodyHasForm(c, k.offset, d);
    d := d.(body := body);
    assert c == c[..k.offset] + c[k.offset..];
  }

  lemma SplitTwice(c: Bytes, i: nat, j: nat, k: nat)
    requires i <= j <= k <= |c|
    ensures c[i..] == c[i..j] + c[j..k] + c[k..]
  {
  }

  lemma FirstDecodedChunk(c: Bytes, offset: nat) returns (ch: Chunk, end: nat)
    requires offset < |c| && c[offset] != 0xff && ChunksAt(c, offset).Decoded?
    ensures Fits(|ch.data|, ch.form) && offset < end <= |c|
    ensures c[offset..end] == HeadBytes(2, |ch.data|, ch.form) + ch.data
    ensures ChunksAt(c, end).Decoded?
    ensures ChunksAt(c, offset).bytes == ch.data + ChunksAt(c, end).bytes
  {
    hide HeadAt, HeadBytes;
    var h := HeadAt(c, offset).value;
    end := h.offset + h.value;
    assert ChunksAt(c, offset) == Prepend(c[h.offset..end], ChunksAt(c, end));
    hide ChunksAt;
    var form := HeadHasForm(c, offset);
    ch := Chunk(form, c[h.offset..end]);
    assert c[offset..end] == c[offset..h.offset] + c[h.offset..end];
  }

  lemma {:induction false} DecodedAreChunks(c: Bytes, offset: nat)
    returns (chunks: seq<Chunk>, stop: Bytes)
    requires offset <= |c| && ChunksAt(c, offset).Decoded?
    ensures ChunksFit(chunks) && (stop == [] || stop == [0xff])
    ensures c[offset..] == ChunkBytes(chunks) + stop
    ensures ChunksAt(c, offset).bytes == Join(Datas(chunks))
    decreases |c| - offset
  {
    hide HeadAt, HeadBytes;
    if offset == |c| || c[offset] == 0xff {
      chunks, stop := [], c[offset..];
      assert Datas(chunks) == [];
    } else {
      hide ChunksAt;
      var ch, end := FirstDecodedChunk(c, offset);
      var tail;
      tail, stop := DecodedAreChunks(c, end);
      chunks := [ch] + tail;
      assert chunks[1..] == tail;
      DatasCons(chunks);
      ChunkBytesCons(chunks, stop);
      assert c[offset..] == c[offset..end] + c[end..];
      hide ChunkBytes, Datas, Join;
    }
  }

  /** The decoder accepts exactly the language, and returns the payload. */
  lemma DecoderAcceptsExactlyTheLanguage(c: Bytes, b: Bytes)
    requires |c| < WORD
    ensures Decode(c) == Decoded(b)
       <==> exists d :: FormsFit(d) && Serialize(d) == c && Payload(d) == b
  {
    if Decode(c) == Decoded(b) {
      var d := DecodedIsDocument(c);
    }
    if d :| FormsFit(d) && Serialize(d) == c && Payload(d) == b {
      DecodesDocument(d);
    }
  }

  // ---------------------------------------------------------------------------
  // Refusals
  // ---------------------------------------------------------------------------

  lemma DecodesAfterPrelude(mapForm: Form, keyForm: Form, rest: Bytes)
    ensures var c := Prelude(mapForm, keyForm) + rest;
            Decode(c) == match HeadAt(c, |Prelude(mapForm, keyForm)|)
                         case Err(e) => Rejected(e)
                         case Ok(v) => DecodeValue(c, v)
  {
    PreludeReads(mapForm, keyForm, rest);
    hide HeadAt, Prelude, DecodeValue;
  }

  /** Bytes after a definite document, or after the break of an indefinite one, are
      refused as trailing. */
  lemma TrailingBytesRefused(d: Document, extra: Bytes)
    requires FormsFit(d) && extra != [] && |Serialize(d) + extra| < WORD
    requires d.body.Indefinite? ==> d.body.terminated
    ensures Decode(Serialize(d) + extra) == Rejected(Invalid("trailing bytes"))
  {
    hide Decode, DecodeValue, HeadAt, HeadBytes, Prelude, ChunkBytes;
    var pre := Prelude(d.mapForm, d.keyForm);
    assert Serialize(d) + extra == pre + (BodyBytes(d) + extra);
    DecodesAfterPrelude(d.mapForm, d.keyForm, BodyBytes(d) + extra);
    match d.body {
      case Definite(form, data) => TrailingAfterDefinite(pre, form, data, extra);
      case Indefinite(chunks, _) =>
        assert BodyBytes(d) + extra == [0x5f] + (ChunkBytes(chunks) + ([0xff] + extra));
        TrailingAfterBreak(pre, chunks, extra);
    }
  }

  lemma TrailingAfterDefinite(pre: Bytes, form: Form, data: Bytes, extra: Bytes)
    requires Fits(|data|, form) && extra != []
    requires |pre + (HeadBytes(2, |data|, form) + data + extra)| < WORD
    ensures var c := pre + (HeadBytes(2, |data|, form) + data + extra);
            var v := HeadAt(c, |pre|);
            v.Ok? && DecodeValue(c, v.value) == Rejected(Invalid("trailing bytes"))
  {
    var head := HeadBytes(2, |data|, form);
    HeadReadsBack(pre, 2, |data|, form, data + extra);
    assert pre + head + (data + extra) == pre + (head + data + extra);
    hide HeadAt, HeadBytes, ChunksAt;
  }

  lemma TrailingAfterBreak(pre: Bytes, chunks: seq<Chunk>, extra: Bytes)
    requires ChunksFit(chunks) && extra != []
    requires |pre + ([0x5f] + (ChunkBytes(chunks) + ([0xff] + extra)))| < WORD
    ensures var c := pre + ([0x5f] + (ChunkBytes(chunks) + ([0xff] + extra)));
            var v := HeadAt(c, |pre|);
            v.Ok? && DecodeValue(c, v.value) == Rejected(Invalid("trailing bytes"))
  {
    hide HeadAt, ChunksAt, ChunkBytes;
    var rest := ChunkBytes(chunks) + ([0xff] + extra);
    IndefiniteHead(pre, rest);
    MoreAfterBreak(pre + ([0x5f] + rest), |pre| + 1, chunks, extra);
  }

  lemma MoreAfterBreak(c: Bytes, offset: nat, chunks: seq<Chunk>, extra: Bytes)
    requires ChunksFit(chunks) && extra != []
    requires offset <= |c| < WORD && c[offset..] == ChunkBytes(chunks) + ([0xff] + extra)
    ensures ChunksAt(c, offset) == Rejected(Invalid("trailing bytes"))
  {
    hide HeadAt, ChunksAt, ChunkBytes, Datas, Join;
    ChunksReadOff(c, offset, chunks, [0xff] + extra);
    TailSplit(c, offset, ChunkBytes(chunks), [0xff] + extra);
    BreakAndMore(c, offset + |ChunkBytes(chunks)|, extra);
  }

  lemma IndefiniteHead(pre: Bytes, rest: Bytes)
    ensures var c := pre + ([0x5f] + rest);
            HeadAt(c, |pre|) == Ok(Head(2, 0, |pre| + 1, true)) && c[|pre| + 1..] == rest
  {
    assert (pre + ([0x5f] + rest))[|pre|] == 0x5f;
  }

  lemma BreakAndMore(c: Bytes, at: nat, extra: Bytes)
    requires at <= |c| && c[at..] == [0xff] + extra && extra != []
    ensures ChunksAt(c, at) == Rejected(Invalid("trailing bytes"))
  {
    assert c[at] == c[at..][0] == 0xff;
  }

  /** A definite string that ends before its declared length is refused as truncated,
      unless that length leaves the machine word. */
  lemma TruncatedStringRefused(
    mapForm: Form, keyForm: Form, len: nat, form: Form, data: Bytes)
    requires Fits(len, form) && |data| < len
    requires |Prelude(mapForm, keyForm)| + 1 + Width(form) + len < WORD
    ensures Decode(Prelude(mapForm, keyForm) + (HeadBytes(2, len, form) + data))
         == Rejected(Invalid("truncated data"))
  {
    hide HeadAt, HeadBytes, ChunksAt, Prelude, Decode;
    var pre := Prelude(mapForm, keyForm);
    var head := HeadBytes(2, len, form);
    DecodesAfterPrelude(mapForm, keyForm, head + data);
    HeadReadsBack(pre, 2, len, form, data);
    assert pre + head + data == pre + (head + data);
  }

  /** What is no map of one entry is refused as such. */
  lemma OtherMapRefused(major: nat, value: nat, form: Form, rest: Bytes)
    requires major < 8 && Fits(value, form) && !(major == 5 && value == 1)
    ensures Decode(HeadBytes(major, value, form) + rest) == Rejected(Invalid("expected map(1)"))
  {
    hide HeadAt, HeadBytes;
    HeadReadsBack([], major, value, form, rest);
    assert [] + HeadBytes(major, value, form) + rest == HeadBytes(major, value, form) + rest;
  }

  /** So is a map with another key. */
  lemma OtherKeyRefused(mapForm: Form, major: nat, value: nat, form: Form, rest: Bytes)
    requires major < 8 && Fits(value, form) && !(major == 0 && value == 1)
    ensures Decode(HeadBytes(5, 1, mapForm) + (HeadBytes(major, value, form) + rest))
         == Rejected(Invalid("expected key 1"))
  {
    hide HeadAt, HeadBytes;
    var a, b := HeadBytes(5, 1, mapForm), HeadBytes(major, value, form);
    var c := a + (b + rest);
    HeadReadsBack([], 5, 1, mapForm, b + rest);
    assert [] + a + (b + rest) == c;
    HeadReadsBack(a, major, value, form, rest);
    assert a + b + rest == c;
  }

  /** And so is a value that is no byte string. */
  lemma OtherValueRefused(
    mapForm: Form, keyForm: Form, major: nat, value: nat, form: Form, rest: Bytes)
    requires major < 8 && Fits(value, form) && major != 2
    ensures Decode(Prelude(mapForm, keyForm) + (HeadBytes(major, value, form) + rest))
         == Rejected(Invalid("expected byte string"))
  {
    hide HeadAt, HeadBytes, ChunksAt, Prelude, Decode;
    var pre, head := Prelude(mapForm, keyForm), HeadBytes(major, value, form);
    DecodesAfterPrelude(mapForm, keyForm, head + rest);
    HeadReadsBack(pre, major, value, form, rest);
    assert pre + head + rest == pre + (head + rest);
  }

  // ---------------------------------------------------------------------------
  // The unchecked additions
  // ---------------------------------------------------------------------------

  /** A byte-string head at `at` that declares a length past the machine word. */
  predicate TooLong(c: Bytes, at: nat) {
    var h := HeadAt(c, at);
    h.Ok? && h.value.major == 2 && !h.value.indefinite && h.value.offset + h.value.value >= WORD
  }

  predicate StartsAt(c: Bytes, offset: nat, part: Bytes) {
    offset + |part| <= |c| && c[offset..offset + |part|] == part
  }

  /** The same for a head that follows whole chunks of an indefinite string. */
  ghost predicate TooLongAfter(c: Bytes, offset: nat, chunks: seq<Chunk>) {
    ChunksFit(chunks) && StartsAt(c, offset, ChunkBytes(chunks))
    && TooLong(c, offset + |ChunkBytes(chunks)|)
  }

  lemma TooLongOverflows(c: Bytes, offset: nat, chunks: seq<Chunk>)
    requires offset <= |c| < WORD && TooLongAfter(c, offset, chunks)
    ensures ChunksAt(c, offset) == Overflowed
  {
    hide ChunkBytes, Datas, Join;
    var at := offset + |ChunkBytes(chunks)|;
    assert c[offset..] == ChunkBytes(chunks) + c[at..] by {
      SplitTwice(c, offset, at, at);
    }
    ChunksReadOff(c, offset, chunks, c[at..]);
  }

  lemma OneMoreChunk(c: Bytes, offset: nat, ch: Chunk, tail: seq<Chunk>)
    requires Fits(|ch.data|, ch.form)
    requires StartsAt(c, offset, HeadBytes(2, |ch.data|, ch.form) + ch.data)
    requires TooLongAfter(c, offset + |HeadBytes(2, |ch.data|, ch.form) + ch.data|, tail)
    ensures TooLongAfter(c, offset, [ch] + tail)
  {
    hide HeadAt, HeadBytes, TooLong;
    var chunks := [ch] + tail;
    assert chunks[1..] == tail;
    var first := HeadBytes(2, |ch.data|, ch.form) + ch.data;
    var mid, end := offset + |first|, offset + |first| + |ChunkBytes(tail)|;
    assert ChunkBytes(chunks) == first + ChunkBytes(tail);
    assert c[offset..end] == c[offset..mid] + c[mid..end];
  }

  /** The first chunk of a string whose reading overflows is too long or is whole. */
  lemma FirstChunk(c: Bytes, offset: nat) returns (ch: Chunk)
    requires offset <= |c| && ChunksAt(c, offset) == Overflowed && !TooLong(c, offset)
    ensures Fits(|ch.data|, ch.form)
    ensures StartsAt(c, offset, HeadBytes(2, |ch.data|, ch.form) + ch.data)
    ensures ChunksAt(c, offset + |HeadBytes(2, |ch.data|, ch.form) + ch.data|) == Overflowed
  {
    hide HeadAt, HeadBytes;
    var h := HeadAt(c, offset).value;
    var end := h.offset + h.value;
    assert ChunksAt(c, end) == Overflowed;
    hide ChunksAt;
    var form := HeadHasForm(c, offset);
    ch := Chunk(form, c[h.offset..end]);
    assert c[offset..end] == c[offset..h.offset] + c[h.offset..end];
  }

  lemma {:induction false} OverflowIsTooLong(c: Bytes, offset: nat) returns (chunks: seq<Chunk>)
    requires offset <= |c| && ChunksAt(c, offset) == Overflowed
    ensures TooLongAfter(c, offset, chunks)
    decreases |c| - offset
  {
    hide HeadAt, HeadBytes, ChunksAt, TooLong;
    if TooLong(c, offset) {
      chunks := [];
    } else {
      hide TooLongAfter;
      var ch := FirstChunk(c, offset);
      var tail := OverflowIsTooLong(c, offset + |HeadBytes(2, |ch.data|, ch.form) + ch.data|);
      OneMoreChunk(c, offset, ch, tail);
      chunks := [ch] + tail;
    }
  }

  ghost predicate SomeChunkTooLong(c: Bytes, offset: nat) {
    exists chunks :: TooLongAfter(c, offset, chunks)
  }

  /** After this map head and key, the string or one of its chunks is too long. */
  ghost predicate BodyTooLong(c: Bytes, mapForm: Form, keyForm: Form) {
    var at := |Prelude(mapForm, keyForm)|;
    && StartsAt(c, 0, Prelude(mapForm, keyForm))
    && (TooLong(c, at) || (StartsAt(c, at, [0x5f]) && SomeChunkTooLong(c, at + 1)))
  }

  lemma ValueOverflows(c: Bytes, at: nat)
    requires |c| < WORD && (TooLong(c, at) || (StartsAt(c, at, [0x5f]) && SomeChunkTooLong(c, at + 1)))
    ensures HeadAt(c, at).Ok? && DecodeValue(c, HeadAt(c, at).value) == Overflowed
  {
    if !TooLong(c, at) {
      assert c[at..at + 1][0] == 0x5f;
      var chunks :| TooLongAfter(c, at + 1, chunks);
      hide TooLongAfter, ChunksAt;
      TooLongOverflows(c, at + 1, chunks);
    }
  }

  lemma OverflowingValue(c: Bytes, at: nat)
    requires HeadAt(c, at).Ok? && DecodeValue(c, HeadAt(c, at).value) == Overflowed
    ensures TooLong(c, at) || (StartsAt(c, at, [0x5f]) && SomeChunkTooLong(c, at + 1))
  {
    if !TooLong(c, at) {
      assert c[at..at + 1] == [0x5f];
      hide TooLongAfter, ChunksAt;
      var chunks := OverflowIsTooLong(c, at + 1);
    }
  }

  /** An addition leaves the machine word exactly when, after the map and the key,
      the string head or the head of one of its chunks declares such a length. */
  lemma OverflowsExactlyOnTooLong(c: Bytes)
    requires |c| < WORD
    ensures Decode(c) == Overflowed <==> exists m, k :: BodyTooLong(c, m, k)
  {
    hide HeadAt, Prelude, DecodeValue, TooLong, SomeChunkTooLong;
    if Decode(c) == Overflowed {
      var key := HeadAt(c, HeadAt(c, 0).value.offset).value;
      var m, k := PreludeHasForms(c);
      assert c[0..key.offset] == c[..key.offset];
      OverflowingValue(c, key.offset);
      assert BodyTooLong(c, m, k);
    }
    if m, k :| BodyTooLong(c, m, k) {
      var pre := Prelude(m, k);
      assert c == pre + c[|pre|..];
      PreludeReads(m, k, c[|pre|..]);
      ValueOverflows(c, |pre|);
    }
  }

  /** The largest length an eight-byte head can declare does it. */
  lemma LargestLengthOverflows()
    ensures Decode([0xa1, 0x01, 0x5b, 0xff, 0xff, 0xff, 0xff, 0xff, 0xff, 0xff, 0xff]) == Overflowed
  {
    var head := HeadBytes(2, WORD - 1, Eight);
    var c := Prelude(Tiny, Tiny) + head;
    LargestHead();
    assert Prelude(Tiny, Tiny) == [0xa1, 0x01];
    assert c == [0xa1, 0x01, 0x5b, 0xff, 0xff, 0xff, 0xff, 0xff, 0xff, 0xff, 0xff];
    hide HeadBytes, Prelude, HeadAt;
    PreludeReads(Tiny, Tiny, head);
    assert c == Prelude(Tiny, Tiny) + head + [];
    HeadReadsBack(Prelude(Tiny, Tiny), 2, WORD - 1, Eight, []);
  }

  lemma LargestHead()
    ensures HeadBytes(2, WORD - 1, Eight) == [0x5b, 0xff, 0xff, 0xff, 0xff, 0xff, 0xff, 0xff, 0xff]
  {
    BytesOfEight(WORD - 1);
    assert FourBytes(0xffff_ffff) == [0xff, 0xff, 0xff, 0xff];
    assert FourBytes(WORD - 1) == [0xff, 0xff, 0xff, 0xff];
    assert (WORD - 1) / 0x1_0000_0000 == 0xffff_ffff;
    hide FourBytes, ToBigEndian;
  }

  /** Decoding the encoding of any byte string returns it. */
  method RoundTrip(b: Bytes) returns (r: Decoded)
    requires |b| + 11 < WORD
    ensures r == Decoded(b)
  {
    var c := EncodeZcashPczt(b);
    DecodesDocument(Document(Tiny, Tiny, Definite(ShortestForm(|b|), b)));
    r := DecodeZcashPczt(c);
  }
}
