/** The Alpaca ImageBytes reply (`image_bytes_t<T>`): eleven four-byte
    header fields followed by the pixels, every value written as the
    little-endian bytes it occupies in memory. */
module ImageBytes {
  import opened Devices
  import opened Bytes

  /** The element type codes of `image_array_element_types` the hub sends. */
  const ByteElement: int := 6
  const UInt16Element: int := 8

  /** The header length, and so the default offset of the pixels. */
  const HeaderLength: nat := 44

  /** The pixels of an `image_bytes_t<uint8_t>` or an
      `image_bytes_t<uint16_t>`. */
  datatype Pixels = Pixels8(bytes: seq<uint8>) | Pixels16(words: seq<uint16>)

  /** The size in bytes of one pixel, `sizeof(T)`. */
  function ElementSize(p: Pixels): (n: nat)
  {
    if p.Pixels8? then 1 else 2
  }

  function Count(p: Pixels): nat
  {
    if p.Pixels8? then |p.bytes| else |p.words|
  }

  /** The bytes of the pixel buffer as it sits in memory. */
  function PixelBytes(p: Pixels): (b: seq<uint8>)
    ensures |b| == Count(p) * ElementSize(p)
  {
    if p.Pixels8? then p.bytes else LeWords(p.words)
  }

  /** `image_bytes_t<T>`: the `int` fields hold C `int` values. */
  datatype Image = Image(
    metadataVersion: int,
    errorNumber: int,
    clientTransaction: uint32,
    serverTransaction: uint32,
    dataStart: int,
    imageElementType: int,
    transmissionElementType: int,
    rank: int,
    dimension1: int,
    dimension2: int,
    dimension3: int,
    pixels: Pixels)

  /** An `image_bytes_t<T>` with the default member initialisers and the
      fields the server sets. */
  function WithDefaults(client: uint32, server: uint32, elementType: int,
                        dimension1: int, dimension2: int, pixels: Pixels): (ib: Image)
    ensures ib.metadataVersion == 1 && ib.errorNumber == 0 && ib.rank == 2 && ib.dimension3 == 0
    ensures ib.dataStart == HeaderLength
  {
    Image(1, 0, client, server, 44, elementType, elementType, 2, dimension1, dimension2, 0, pixels)
  }

  /** Header field `j` in the order `serialize` writes them, as bytes. */
  function FieldBytes(ib: Image, j: nat): (b: seq<uint8>)
    requires j < 11
    ensures |b| == 4
  {
    match j
    case 0 => LeInt(ib.metadataVersion)
    case 1 => LeInt(ib.errorNumber)
    case 2 => Le32(ib.clientTransaction)
    case 3 => Le32(ib.serverTransaction)
    case 4 => LeInt(ib.dataStart)
    case 5 => LeInt(ib.imageElementType)
    case 6 => LeInt(ib.transmissionElementType)
    case 7 => LeInt(ib.rank)
    case 8 => LeInt(ib.dimension1)
    case 9 => LeInt(ib.dimension2)
    case 10 => LeInt(ib.dimension3)
  }

  /** The first `k` header fields, one after the other. */
  function HeaderUpTo(ib: Image, k: nat): (h: seq<uint8>)
    requires k <= 11
    ensures |h| == 4 * k
  {
    if k == 0 then [] else HeaderUpTo(ib, k - 1) + FieldBytes(ib, k - 1)
  }

  /** The eleven header fields. */
  function Header(ib: Image): (h: seq<uint8>)
    ensures |h| == HeaderLength
  {
    HeaderUpTo(ib, 11)
  }

  /** Field `j` occupies bytes 4·j to 4·j + 4 of every longer prefix. */
  lemma {:induction false} HeaderUpToAt(ib: Image, j: nat, k: nat)
    requires j < k <= 11
    ensures HeaderUpTo(ib, k)[4 * j..4 * j + 4] == FieldBytes(ib, j)
    decreases k
  {
    if j < k - 1 {
      HeaderUpToAt(ib, j, k - 1);
      assert HeaderUpTo(ib, k)[..4 * (k - 1)] == HeaderUpTo(ib, k - 1);
    }
  }

  /** Everything `serialize` writes. */
  function Encoding(ib: Image): seq<uint8>
  {
    Header(ib) + PixelBytes(ib.pixels)
  }

  /** The length of the reply: the header and then n·sizeof(T) bytes. */
  lemma EncodingLength(ib: Image)
    ensures |Encoding(ib)| == HeaderLength + Count(ib.pixels) * ElementSize(ib.pixels)
  {
  }

  /** The header fields at their offsets, 4·k for field k. */
  function Field(b: seq<uint8>, k: nat): int
    requires 4 * k + 4 <= |b|
  {
    Signed32(U32At(b, 4 * k))
  }

  predicate IsInt(v: int)
  {
    -0x8000_0000 <= v < 0x8000_0000
  }

  /** A reader of the reply finds every header field where it was written,
      and the pixels start at the offset the header names. */
  lemma HeaderReadBack(ib: Image)
    requires IsInt(ib.metadataVersion) && IsInt(ib.errorNumber) && IsInt(ib.dataStart)
    requires IsInt(ib.imageElementType) && IsInt(ib.transmissionElementType) && IsInt(ib.rank)
    requires IsInt(ib.dimension1) && IsInt(ib.dimension2) && IsInt(ib.dimension3)
    ensures |Encoding(ib)| >= HeaderLength
    ensures Field(Encoding(ib), 0) == ib.metadataVersion
    ensures Field(Encoding(ib), 1) == ib.errorNumber
    ensures U32At(Encoding(ib), 8) == ib.clientTransaction
    ensures U32At(Encoding(ib), 12) == ib.serverTransaction
    ensures Field(Encoding(ib), 4) == ib.dataStart
    ensures Field(Encoding(ib), 5) == ib.imageElementType
    ensures Field(Encoding(ib), 6) == ib.transmissionElementType
    ensures Field(Encoding(ib), 7) == ib.rank
    ensures Field(Encoding(ib), 8) == ib.dimension1
    ensures Field(Encoding(ib), 9) == ib.dimension2
    ensures Field(Encoding(ib), 10) == ib.dimension3
    ensures Encoding(ib)[HeaderLength..] == PixelBytes(ib.pixels)
  {
    FieldRead(ib, 0);
    FieldRead(ib, 1);
    FieldRead(ib, 2);
    U32AtLe32(ib.clientTransaction);
    FieldRead(ib, 3);
    U32AtLe32(ib.serverTransaction);
    FieldRead(ib, 4);
    FieldRead(ib, 5);
    FieldRead(ib, 6);
    FieldRead(ib, 7);
    FieldRead(ib, 8);
    FieldRead(ib, 9);
    FieldRead(ib, 10);
  }

  /** The value read at offset 4·j of the reply is the one written as field
      `j`. */
  lemma FieldRead(ib: Image, j: nat)
    requires j < 11
    ensures 4 * j + 4 <= |Encoding(ib)|
    ensures U32At(Encoding(ib), 4 * j) == U32At(FieldBytes(ib, j), 0)
  {
    var e := Encoding(ib);
    HeaderUpToAt(ib, j, 11);
    assert e[4 * j..4 * j + 4] == Header(ib)[4 * j..4 * j + 4];
    FieldAt(e, 4 * j, FieldBytes(ib, j));
  }

  /** The four bytes at `i` are `b`: the value read there is the one read
      from `b`. */
  lemma FieldAt(e: seq<uint8>, i: nat, b: seq<uint8>)
    requires |b| == 4 && i + 4 <= |e| && e[i..i + 4] == b
    ensures U32At(e, i) == U32At(b, 0)
  {
    assert e[i] == b[0] && e[i + 1] == b[1] && e[i + 2] == b[2] && e[i + 3] == b[3];
  }

  /** A reply with the default header: its pixels start at the offset it
      names, and the 16-bit pixels are read back from there as written. */
  lemma DefaultDataStart(client: uint32, server: uint32, elementType: int,
                         dimension1: int, dimension2: int, pixels: Pixels)
    ensures var ib := WithDefaults(client, server, elementType, dimension1, dimension2, pixels);
      Encoding(ib)[ib.dataStart..] == PixelBytes(pixels)
    ensures pixels.Pixels16? ==>
      Words16(Encoding(WithDefaults(client, server, elementType, dimension1, dimension2, pixels))[HeaderLength..])
        == pixels.words
  {
    var ib := WithDefaults(client, server, elementType, dimension1, dimension2, pixels);
    assert Encoding(ib)[HeaderLength..] == PixelBytes(pixels);
    if pixels.Pixels16? {
      WordsOfLeWords(pixels.words);
    }
  }

  /** The `std::ostream` the reply is written to: the bytes written so far. */
  class OutStream {
    var written: seq<uint8>

    constructor ()
      ensures written == []
    {
      written := [];
    }

    /** `os.write`. */
    method Write(b: seq<uint8>)
      modifies this
      ensures written == old(written) + b
    {
      written := written + b;
    }
  }

  /** `serialize`: each header field in turn, then the pixel buffer. */
  method Serialize(ib: Image, os: OutStream)
    modifies os
    ensures os.written == old(os.written) + Encoding(ib)
  {
    ghost var start := os.written;
    WriteAfter(os, LeInt(ib.metadataVersion), start, HeaderUpTo(ib, 0));
    WriteAfter(os, LeInt(ib.errorNumber), start, HeaderUpTo(ib, 1));
    WriteAfter(os, Le32(ib.clientTransaction), start, HeaderUpTo(ib, 2));
    WriteAfter(os, Le32(ib.serverTransaction), start, HeaderUpTo(ib, 3));
    WriteAfter(os, LeInt(ib.dataStart), start, HeaderUpTo(ib, 4));
    WriteAfter(os, LeInt(ib.imageElementType), start, HeaderUpTo(ib, 5));
    WriteAfter(os, LeInt(ib.transmissionElementType), start, HeaderUpTo(ib, 6));
    WriteAfter(os, LeInt(ib.rank), start, HeaderUpTo(ib, 7));
    WriteAfter(os, LeInt(ib.dimension1), start, HeaderUpTo(ib, 8));
    WriteAfter(os, LeInt(ib.dimension2), start, HeaderUpTo(ib, 9));
    WriteAfter(os, LeInt(ib.dimension3), start, HeaderUpTo(ib, 10));
    WriteAfter(os, PixelBytes(ib.pixels), start, HeaderUpTo(ib, 11));
  }

  /** One `os.write`, after `done` has been written since `start`. */
  method WriteAfter(os: OutStream, b: seq<uint8>, ghost start: seq<uint8>, ghost done: seq<uint8>)
    requires os.written == start + done
    modifies os
    ensures os.written == start + (done + b)
  {
    os.Write(b);
  }
}
