/** Global tile identifiers (GIDs) of the Tiled map format: a 32-bit word whose
    bits 31, 30 and 29 flip the tile horizontally, vertically and diagonally,
    whose bit 28 is a hexagonal-rotation flag that this engine discards, and
    whose low 28 bits are the tile id. Layer data reaches the decoder as bytes
    and is reassembled little-endian. */
module TileGid {

  type Byte = bv8
  type Word = bv32

  const FlippedHorizontallyFlag: Word := 0x8000_0000
  const FlippedVerticallyFlag: Word := 0x4000_0000
  const FlippedDiagonallyFlag: Word := 0x2000_0000
  const RotatedHexagonal120Flag: Word := 0x1000_0000

  /** `~(H | V | D | HEX)`: the bits that survive flag clearing. */
  const IdMask: Word := !(FlippedHorizontallyFlag | FlippedVerticallyFlag | FlippedDiagonallyFlag | RotatedHexagonal120Flag)

  /** Every bare tile id is below this bound (2^28). */
  const IdLimit: Word := 0x1000_0000

  /** A decoded cell: the three flip flags and the bare tile id. */
  datatype Gid = Gid(flipH: bool, flipV: bool, flipD: bool, id: Word)

  /** `b0 | b1 << 8 | b2 << 16 | b3 << 24` over the four bytes at `offset`. */
  function ReadLittleEndian(bytes: seq<Byte>, offset: nat): Word
    requires offset + 4 <= |bytes|
  {
    (bytes[offset] as Word)
    | ((bytes[offset + 1] as Word) << 8)
    | ((bytes[offset + 2] as Word) << 16)
    | ((bytes[offset + 3] as Word) << 24)
  }

  /** The four bytes of a word, least significant first: how a little-endian
      host lays out one `uint32_t` in memory. */
  function WordBytes(w: Word): (b: seq<Byte>)
    ensures |b| == 4 && ReadLittleEndian(b, 0) == w
  {
    [(w & 0xFF) as Byte, ((w >> 8) & 0xFF) as Byte, ((w >> 16) & 0xFF) as Byte, ((w >> 24) & 0xFF) as Byte]
  }

  /** The `unsigned char` view that `reinterpret_cast` gives of a vector of
      words on a little-endian host. */
  function HostBytes(entries: seq<Word>): (b: seq<Byte>)
    ensures |b| == 4 * |entries|
  {
    if entries == [] then [] else WordBytes(entries[0]) + HostBytes(entries[1..])
  }

  /** Reading cell c back from the byte view gives the c-th entry: the
      little-endian reassembly inverts the host layout. */
  lemma {:induction false} HostBytesReadBack(entries: seq<Word>, c: nat)
    requires c < |entries|
    ensures 4 * c + 4 <= |HostBytes(entries)|
    ensures ReadLittleEndian(HostBytes(entries), 4 * c) == entries[c]
  {
    var head := WordBytes(entries[0]);
    var tail := HostBytes(entries[1..]);
    assert HostBytes(entries) == head + tail;
    if c == 0 {
      assert (head + tail)[..4] == head;
      assert ReadLittleEndian(head + tail, 0) == ReadLittleEndian(head, 0);
    } else {
      HostBytesReadBack(entries[1..], c - 1);
      var k := 4 * (c - 1);
      assert (head + tail)[4 + k] == tail[k];
      assert (head + tail)[4 + k + 1] == tail[k + 1];
      assert (head + tail)[4 + k + 2] == tail[k + 2];
      assert (head + tail)[4 + k + 3] == tail[k + 3];
      assert ReadLittleEndian(head + tail, 4 * c) == ReadLittleEndian(tail, k);
    }
  }

  /** Flag extraction and clearing, as the loader does it. The bare id always
      fits in 28 bits. */
  function Decode(w: Word): (g: Gid)
    ensures g.id < IdLimit
  {
    Gid(w & FlippedHorizontallyFlag != 0,
        w & FlippedVerticallyFlag != 0,
        w & FlippedDiagonallyFlag != 0,
        w & IdMask)
  }

  /** The bare tile id as the signed integer the loader compares. */
  function BareId(w: Word): (id: nat)
    ensures id < 0x1000_0000
    ensures id == Decode(w).id as nat
  {
    (w & IdMask) as nat
  }

  function FlagBits(h: bool, v: bool, d: bool): Word
  {
    (if h then FlippedHorizontallyFlag else 0)
    | (if v then FlippedVerticallyFlag else 0)
    | (if d then FlippedDiagonallyFlag else 0)
  }

  /** The inverse of Decode: how an editor packs flags and an id into a GID. */
  function Encode(g: Gid): Word
  {
    FlagBits(g.flipH, g.flipV, g.flipD) | g.id
  }

  lemma FlagBitsOutsideId(h: bool, v: bool, d: bool)
    ensures FlagBits(h, v, d) & IdMask == 0
  {
  }

  lemma IdSurvivesMask(f: Word, id: Word)
    requires f & IdMask == 0 && id < IdLimit
    ensures (f | id) & IdMask == id
  {
  }

  lemma FlagTests(h: bool, v: bool, d: bool, id: Word)
    requires id < IdLimit
    ensures ((FlagBits(h, v, d) | id) & FlippedHorizontallyFlag != 0) == h
    ensures ((FlagBits(h, v, d) | id) & FlippedVerticallyFlag != 0) == v
    ensures ((FlagBits(h, v, d) | id) & FlippedDiagonallyFlag != 0) == d
  {
  }

  /** Packing three flags and an id below 2^28, then decoding, gives back the
      same flags and the same id. */
  lemma DecodeEncode(g: Gid)
    requires g.id < IdLimit
    ensures Decode(Encode(g)) == g
  {
    FlagBitsOutsideId(g.flipH, g.flipV, g.flipD);
    IdSurvivesMask(FlagBits(g.flipH, g.flipV, g.flipD), g.id);
    FlagTests(g.flipH, g.flipV, g.flipD, g.id);
  }

  lemma SplitWord(w: Word)
    ensures w & !RotatedHexagonal120Flag
      == FlagBits(w & FlippedHorizontallyFlag != 0, w & FlippedVerticallyFlag != 0, w & FlippedDiagonallyFlag != 0) | (w & IdMask)
  {
  }

  /** Decoding loses exactly the hexagonal-rotation bit: re-encoding a decoded
      word gives the word with bit 28 cleared. */
  lemma EncodeDecode(w: Word)
    ensures Encode(Decode(w)) == w & !RotatedHexagonal120Flag
  {
    SplitWord(w);
  }
}
