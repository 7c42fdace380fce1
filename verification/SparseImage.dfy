/**
 The sparse image expander (cmds/simg2img_simple.cpp): a stream decoder with four chunk kinds
 and a copy loop that tolerates short transfers.

 Every system call consults a schedule that settles how much it transfers, from an error up to
 everything it asked for. A run that ends in `exit(n)` reports `n`; 0 is acceptance.
 */
module SparseImage {

  type Byte = b: int | 0 <= b < 256

  const MAGIC := 0xed26ff3a
  const RAW := 0xCAC1
  const FILL := 0xCAC2
  const DONT_CARE := 0xCAC3
  const CRC32 := 0xCAC4
  const BLOCK := 4096
  const FILE_HEADER := 28
  const CHUNK_HEADER := 12
  const WORD := 0x1_0000_0000

  // ------------------------------------------------------------ the format

  function U16(b: seq<Byte>, at: nat): nat
    requires at + 2 <= |b|
  {
    var lo: int, hi: int := b[at], b[at + 1];
    lo + 0x100 * hi
  }

  function U32(b: seq<Byte>, at: nat): nat
    requires at + 4 <= |b|
  {
    U16(b, at) + 0x1_0000 * U16(b, at + 2)
  }

  function Zeros(n: nat): seq<Byte> { seq(n, _ => 0) }

  /** The exit code of the file header checks, or 0. */
  function HeaderCode(h: seq<Byte>): nat
    requires |h| == FILE_HEADER
  {
    if U32(h, 0) != MAGIC then 2
    else if U32(h, 12) != BLOCK then 6
    else if U16(h, 4) != 1 then 11
    else if U16(h, 6) != 0 then 12
    else if U16(h, 8) != FILE_HEADER then 13
    else if U16(h, 10) != CHUNK_HEADER then 14
    else 0
  }

  datatype Chunk = Chunk(kind: nat, blocks: nat, total: nat)

  function ChunkAt(b: seq<Byte>, at: nat): Chunk
    requires at + CHUNK_HEADER <= |b|
  {
    Chunk(U16(b, at), U32(b, at + 4), U32(b, at + 8))
  }

  /** `hdr.blk_sz * chunk.chunk_sz`, a 32-bit product. */
  function RawSize(blocks: nat): nat { BLOCK * blocks % WORD }

  /** The bytes that follow a chunk header. */
  function BodySize(c: Chunk): nat {
    if c.kind == RAW then RawSize(c.blocks)
    else if c.kind == FILL || c.kind == CRC32 then 4
    else 0
  }

  predicate KnownKind(kind: nat) {
    kind == RAW || kind == FILL || kind == DONT_CARE || kind == CRC32
  }

  /** The chunk at `at` is complete and passes every check. */
  predicate Accepted(b: seq<Byte>, at: nat) {
    at + CHUNK_HEADER <= |b|
    && var c := ChunkAt(b, at);
       KnownKind(c.kind)
       && c.total == CHUNK_HEADER + BodySize(c)
       && at + CHUNK_HEADER + BodySize(c) <= |b|
       && (c.kind == FILL ==> U32(b, at + CHUNK_HEADER) == 0)
  }

  /** What the chunk at `at` adds to the output. */
  function Piece(b: seq<Byte>, at: nat): seq<Byte>
    requires Accepted(b, at)
  {
    var c := ChunkAt(b, at);
    if c.kind == RAW then b[at + CHUNK_HEADER..at + CHUNK_HEADER + BodySize(c)]
    else if c.kind == CRC32 then []
    else Zeros(BLOCK * c.blocks)
  }

  /** Where the chunk at `at` ends. */
  function NextAt(b: seq<Byte>, at: nat): nat
    requires at + CHUNK_HEADER <= |b|
  {
    at + CHUNK_HEADER + BodySize(ChunkAt(b, at))
  }

  datatype Turn = Stop | Go(piece: seq<Byte>, next: nat)

  function Take(b: seq<Byte>, at: nat): Turn {
    if Accepted(b, at) then Go(Piece(b, at), NextAt(b, at)) else Stop
  }

  function Taker(b: seq<Byte>): nat -> Turn { (at: nat) => Take(b, at) }

  datatype Outcome = Rejected | Expanded(output: seq<Byte>, end: nat)

  function Prepend(piece: seq<Byte>, d: Outcome): Outcome {
    if d.Rejected? then Rejected else Expanded(piece + d.output, d.end)
  }

  /** `n` turns from `at` on: the output they give and where they end. */
  function Walk(f: nat -> Turn, at: nat, n: nat): Outcome
    decreases n
  {
    if n == 0 then Expanded([], at)
    else
      match f(at)
      case Stop => Rejected
      case Go(piece, next) => Prepend(piece, Walk(f, next, n - 1))
  }

  function Append(f: nat -> Turn, d: Outcome): Outcome {
    match d
    case Rejected => Rejected
    case Expanded(output, end) =>
      match f(end)
      case Stop => Rejected
      case Go(piece, next) => Expanded(output + piece, next)
  }

  /** One turn more at the end. */
  lemma {:induction false} WalkSnoc(f: nat -> Turn, at: nat, n: nat)
    ensures Walk(f, at, n + 1) == Append(f, Walk(f, at, n))
    decreases n
  {
    match f(at)
    case Stop =>
    case Go(piece, next) =>
      if n == 0 {
        assert Walk(f, next, 0) == Expanded([], next);
        assert piece + [] == [] + piece;
      } else {
        WalkSnoc(f, next, n - 1);
        var d := Walk(f, next, n - 1);
        if d.Expanded? && f(d.end).Go? {
          assert piece + (d.output + f(d.end).piece) == piece + d.output + f(d.end).piece;
        }
      }
  }

  /** A walk whose first turns are rejected is rejected. */
  lemma {:induction false} RejectedStays(f: nat -> Turn, at: nat, m: nat, n: nat)
    requires m <= n && Walk(f, at, m).Rejected?
    ensures Walk(f, at, n).Rejected?
    decreases n
  {
    if m < n {
      RejectedStays(f, at, m, n - 1);
      WalkSnoc(f, at, n - 1);
    }
  }

  /** What `n` chunks from `at` on expand to. */
  function Decode(b: seq<Byte>, at: nat, n: nat): Outcome {
    Walk(Taker(b), at, n)
  }

  /** The chunk where `n` chunks end either adds its piece, or spoils every longer image. */
  lemma DecodeNext(b: seq<Byte>, at: nat, n: nat, m: nat)
    requires Decode(b, at, n).Expanded? && n < m
    ensures var d := Decode(b, at, n);
      match Take(b, d.end)
      case Go(piece, next) => Decode(b, at, n + 1) == Expanded(d.output + piece, next)
      case Stop => Decode(b, at, m).Rejected?
  {
    var f, d := Taker(b), Decode(b, at, n);
    WalkSnoc(f, at, n);
    assert f(d.end) == Take(b, d.end);
    if Take(b, d.end).Stop? {
      RejectedStays(f, at, n + 1, m);
    }
  }

  function DecodeImage(b: seq<Byte>): Outcome {
    if |b| < FILE_HEADER || HeaderCode(b[..FILE_HEADER]) != 0 then Rejected
    else Decode(b, FILE_HEADER, U32(b, 20))
  }

  /** The file headers that pass, byte by byte: magic, version 1.0, header sizes 28 and 12, block
      size 4096. */
  lemma HeaderBytes(h: seq<Byte>)
    requires |h| == FILE_HEADER
    ensures HeaderCode(h) == 0 <==>
      h[0] == 0x3a && h[1] == 0xff && h[2] == 0x26 && h[3] == 0xed
      && h[4] == 1 && h[5] == 0 && h[6] == 0 && h[7] == 0
      && h[8] == 28 && h[9] == 0 && h[10] == 12 && h[11] == 0
      && h[12] == 0 && h[13] == 0x10 && h[14] == 0 && h[15] == 0
  {
    WordIs(h, 0, 0x3a, 0xff, 0x26, 0xed);
    WordIs(h, 12, 0, 0x10, 0, 0);
  }

  lemma HalfIs(b: seq<Byte>, at: nat, lo: Byte, hi: Byte)
    requires at + 2 <= |b|
    ensures U16(b, at) < 0x1_0000
    ensures U16(b, at) == lo + 0x100 * hi <==> b[at] == lo && b[at + 1] == hi
  {
  }

  lemma WordIs(b: seq<Byte>, at: nat, b0: Byte, b1: Byte, b2: Byte, b3: Byte)
    requires at + 4 <= |b|
    ensures U32(b, at) == (b0 + 0x100 * b1) + 0x1_0000 * (b2 + 0x100 * b3) <==>
      b[at] == b0 && b[at + 1] == b1 && b[at + 2] == b2 && b[at + 3] == b3
  {
    HalfIs(b, at, b0, b1);
    HalfIs(b, at + 2, b2, b3);
    var lo, hi := U16(b, at), U16(b, at + 2);
    var x, y := b0 + 0x100 * b1, b2 + 0x100 * b3;
    assert U32(b, at) == x + 0x1_0000 * y <==> lo == x && hi == y;
  }

  /** The four kinds of chunk by their first two bytes, and what each needs to pass and gives: raw
      data of its size, a fill of zero, nothing, and a checksum that is skipped. */
  lemma ChunkBytes(b: seq<Byte>, at: nat)
    requires at + CHUNK_HEADER <= |b|
    ensures Accepted(b, at) ==> b[at + 1] == 0xca && 0xc1 <= b[at] <= 0xc4
    ensures b[at] == 0xc1 && b[at + 1] == 0xca ==>
      var size := 4096 * U32(b, at + 4) % 0x1_0000_0000;
      (Accepted(b, at) <==> U32(b, at + 8) == 12 + size && at + 12 + size <= |b|)
      && (Accepted(b, at) ==> Piece(b, at) == b[at + 12..at + 12 + size])
    ensures b[at] == 0xc2 && b[at + 1] == 0xca ==>
      (Accepted(b, at) <==> U32(b, at + 8) == 16 && at + 16 <= |b| && b[at + 12..at + 16] == [0, 0, 0, 0])
      && (Accepted(b, at) ==> Piece(b, at) == Zeros(4096 * U32(b, at + 4)))
    ensures b[at] == 0xc3 && b[at + 1] == 0xca ==>
      (Accepted(b, at) <==> U32(b, at + 8) == 12)
      && (Accepted(b, at) ==> Piece(b, at) == Zeros(4096 * U32(b, at + 4)))
    ensures b[at] == 0xc4 && b[at + 1] == 0xca ==>
      (Accepted(b, at) <==> U32(b, at + 8) == 16 && at + 16 <= |b|)
      && (Accepted(b, at) ==> Piece(b, at) == [])
  {
    if at + 16 <= |b| {
      WordIs(b, at + 12, 0, 0, 0, 0);
      assert b[at + 12..at + 16] == [b[at + 12], b[at + 13], b[at + 14], b[at + 15]];
    }
  }

  // ------------------------------------------------------------ consumption and size

  /** The chunk headers of an accepted image. */
  function Chunks(b: seq<Byte>, at: nat, n: nat): (cs: seq<Chunk>)
    requires Decode(b, at, n).Expanded?
    ensures |cs| == n
    decreases n
  {
    if n == 0 then [] else [ChunkAt(b, at)] + Chunks(b, NextAt(b, at), n - 1)
  }

  /** The sum of the sizes the headers declare. */
  function TotalSizes(cs: seq<Chunk>): nat {
    if cs == [] then 0 else cs[0].total + TotalSizes(cs[1..])
  }

  /** The blocks of every chunk but the checksums. */
  function OutputBlocks(cs: seq<Chunk>): nat {
    if cs == [] then 0
    else (if cs[0].kind == CRC32 then 0 else cs[0].blocks) + OutputBlocks(cs[1..])
  }

  /** A raw chunk of fewer than 2^20 blocks, or another kind. */
  predicate SmallRaw(c: Chunk) {
    c.kind == RAW ==> c.blocks < 0x10_0000
  }

  predicate AllSmall(cs: seq<Chunk>) {
    forall i :: 0 <= i < |cs| ==> SmallRaw(cs[i])
  }

  function PieceSize(c: Chunk): nat {
    if c.kind == CRC32 then 0 else if c.kind == RAW then RawSize(c.blocks) else BLOCK * c.blocks
  }

  function PieceSizes(cs: seq<Chunk>): nat {
    if cs == [] then 0 else PieceSize(cs[0]) + PieceSizes(cs[1..])
  }

  lemma ChunkSizes(b: seq<Byte>, at: nat)
    requires Accepted(b, at)
    ensures |Piece(b, at)| == PieceSize(ChunkAt(b, at))
    ensures NextAt(b, at) == at + ChunkAt(b, at).total
  {
  }

  /** The size of the output and the end of the input, from the headers alone. */
  lemma {:induction false} DecodeSizes(b: seq<Byte>, at: nat, n: nat)
    requires Decode(b, at, n).Expanded?
    ensures |Decode(b, at, n).output| == PieceSizes(Chunks(b, at, n))
    ensures Decode(b, at, n).end == at + TotalSizes(Chunks(b, at, n))
    decreases n
  {
    if n > 0 {
      ChunkSizes(b, at);
      DecodeSizes(b, NextAt(b, at), n - 1);
      var c, rest := ChunkAt(b, at), Chunks(b, NextAt(b, at), n - 1);
      assert Chunks(b, at, n)[0] == c && Chunks(b, at, n)[1..] == rest;
    }
  }

  lemma PieceSizeIsWhole(c: Chunk)
    ensures var declared := if c.kind == CRC32 then 0 else BLOCK * c.blocks;
      PieceSize(c) <= declared && (PieceSize(c) == declared <==> SmallRaw(c))
  {
  }

  lemma {:induction false} PieceSizesAreWhole(cs: seq<Chunk>)
    ensures PieceSizes(cs) <= BLOCK * OutputBlocks(cs)
    ensures PieceSizes(cs) == BLOCK * OutputBlocks(cs) <==> AllSmall(cs)
  {
    if cs != [] {
      PieceSizeIsWhole(cs[0]);
      PieceSizesAreWhole(cs[1..]);
      assert forall i :: 1 <= i < |cs| ==> cs[i] == cs[1..][i - 1];
    }
  }

  /** For every accepted image, the input consumed is the file header and the declared chunk
      sizes; the output never exceeds the declared blocks, and reaches them exactly when every raw
      chunk has fewer than 2^20 blocks: the 32-bit product cuts larger ones short. */
  lemma AcceptedImageSizes(b: seq<Byte>)
    requires DecodeImage(b).Expanded?
    ensures var cs, d := Chunks(b, FILE_HEADER, U32(b, 20)), DecodeImage(b);
      d.end == FILE_HEADER + TotalSizes(cs)
      && |d.output| <= BLOCK * OutputBlocks(cs)
      && (|d.output| == BLOCK * OutputBlocks(cs) <==> AllSmall(cs))
  {
    DecodeSizes(b, FILE_HEADER, U32(b, 20));
    PieceSizesAreWhole(Chunks(b, FILE_HEADER, U32(b, 20)));
  }

  // ------------------------------------------------------------ round trip

  /** An image as its author sees it. */
  datatype Part =
    | RawPart(blocks: nat, data: seq<Byte>)
    | FillPart(blocks: nat)
    | SkipPart(blocks: nat)
    | CrcPart(blocks: nat, crc: nat)

  predicate WellFormed(p: Part) {
    match p
    case RawPart(blocks, data) => |data| == BLOCK * blocks && blocks < 0x10_0000
    case FillPart(blocks) => blocks < WORD
    case SkipPart(blocks) => blocks < WORD
    case CrcPart(blocks, crc) => blocks < WORD && crc < WORD
  }

  predicate AllWellFormed(ps: seq<Part>) {
    forall i :: 0 <= i < |ps| ==> WellFormed(ps[i])
  }

  function Meaning(p: Part): seq<Byte> {
    match p
    case RawPart(_, data) => data
    case FillPart(blocks) => Zeros(BLOCK * blocks)
    case SkipPart(blocks) => Zeros(BLOCK * blocks)
    case CrcPart(_, _) => []
  }

  function Meanings(ps: seq<Part>): seq<Byte> {
    if ps == [] then [] else Meaning(ps[0]) + Meanings(ps[1..])
  }

  /** The header of a part. */
  function HeaderOf(p: Part): Chunk
    requires WellFormed(p)
  {
    match p
    case RawPart(blocks, data) => Chunk(RAW, blocks, CHUNK_HEADER + |data|)
    case FillPart(blocks) => Chunk(FILL, blocks, CHUNK_HEADER + 4)
    case SkipPart(blocks) => Chunk(DONT_CARE, blocks, CHUNK_HEADER)
    case CrcPart(blocks, _) => Chunk(CRC32, blocks, CHUNK_HEADER + 4)
  }

  /** The bytes at `at` are the part in the sparse format: header, then data. */
  predicate EncodedAt(b: seq<Byte>, at: nat, p: Part)
    requires WellFormed(p)
  {
    at + HeaderOf(p).total <= |b|
    && ChunkAt(b, at) == HeaderOf(p)
    && var body := at + CHUNK_HEADER;
       match p
       case RawPart(_, data) => b[body..body + |data|] == data
       case FillPart(_) => U32(b, body) == 0
       case SkipPart(_) => true
       case CrcPart(_, crc) => U32(b, body) == crc
  }

  function Length(ps: seq<Part>): nat
    requires AllWellFormed(ps)
  {
    if ps == [] then 0 else HeaderOf(ps[0]).total + Length(ps[1..])
  }

  /** The parts stand one after the other from `at` on. */
  predicate EncodedAll(b: seq<Byte>, at: nat, ps: seq<Part>)
    requires AllWellFormed(ps)
    decreases |ps|
  {
    ps != [] ==>
      EncodedAt(b, at, ps[0]) && EncodedAll(b, at + HeaderOf(ps[0]).total, ps[1..])
  }

  /** One encoded part decodes to its meaning. */
  lemma PartDecodes(b: seq<Byte>, at: nat, p: Part)
    requires WellFormed(p) && EncodedAt(b, at, p)
    ensures Accepted(b, at) && Piece(b, at) == Meaning(p)
    ensures NextAt(b, at) == at + HeaderOf(p).total
  {
    var c := ChunkAt(b, at);
    if p.RawPart? {
      RawSizeSmall(p.blocks);
    }
    assert BodySize(c) == c.total - CHUNK_HEADER;
  }

  lemma RawSizeSmall(blocks: nat)
    requires blocks < 0x10_0000
    ensures RawSize(blocks) == BLOCK * blocks
  {
  }

  lemma {:induction false} PartsDecode(b: seq<Byte>, at: nat, ps: seq<Part>)
    requires AllWellFormed(ps) && EncodedAll(b, at, ps)
    ensures Decode(b, at, |ps|) == Expanded(Meanings(ps), at + Length(ps))
    decreases |ps|
  {
    if ps != [] {
      PartDecodes(b, at, ps[0]);
      PartsDecode(b, NextAt(b, at), ps[1..]);
    }
  }

  /** Expanding an image that encodes the parts gives their meaning: raw bytes verbatim, fills and
      holes as zero blocks, checksums as nothing. */
  lemma ImageRoundTrip(b: seq<Byte>, ps: seq<Part>)
    requires |b| >= FILE_HEADER && HeaderCode(b[..FILE_HEADER]) == 0 && U32(b, 20) == |ps|
    requires AllWellFormed(ps) && EncodedAll(b, FILE_HEADER, ps)
    ensures DecodeImage(b) == Expanded(Meanings(ps), FILE_HEADER + Length(ps))
  {
    PartsDecode(b, FILE_HEADER, ps);
  }

  /** The part that an accepted chunk encodes. */
  function PartAt(b: seq<Byte>, at: nat): Part
    requires Accepted(b, at)
  {
    var c, body := ChunkAt(b, at), at + CHUNK_HEADER;
    if c.kind == RAW then RawPart(c.blocks, b[body..body + BodySize(c)])
    else if c.kind == FILL then FillPart(c.blocks)
    else if c.kind == DONT_CARE then SkipPart(c.blocks)
    else CrcPart(c.blocks, U32(b, body))
  }

  lemma PartAtEncoded(b: seq<Byte>, at: nat)
    requires Accepted(b, at) && SmallRaw(ChunkAt(b, at))
    ensures WellFormed(PartAt(b, at)) && EncodedAt(b, at, PartAt(b, at))
    ensures NextAt(b, at) == at + HeaderOf(PartAt(b, at)).total
  {
    var c := ChunkAt(b, at);
    if c.kind == RAW {
      RawSizeSmall(c.blocks);
    }
  }

  lemma {:induction false} ChunksEncoded(b: seq<Byte>, at: nat, n: nat) returns (ps: seq<Part>)
    requires Decode(b, at, n).Expanded?
    requires AllSmall(Chunks(b, at, n))
    ensures |ps| == n && AllWellFormed(ps) && EncodedAll(b, at, ps)
    decreases n
  {
    ps := [];
    if n > 0 {
      ChunksSmall(b, at, n);
      var rest := ChunksEncoded(b, NextAt(b, at), n - 1);
      PartAtEncoded(b, at);
      ps := [PartAt(b, at)] + rest;
      EncodedFirst(b, at, PartAt(b, at), rest);
    }
  }

  /** Small raw chunks are small one by one. */
  lemma ChunksSmall(b: seq<Byte>, at: nat, n: nat)
    requires n > 0 && Decode(b, at, n).Expanded?
    requires AllSmall(Chunks(b, at, n))
    ensures Accepted(b, at) && SmallRaw(ChunkAt(b, at)) && Decode(b, NextAt(b, at), n - 1).Expanded?
    ensures AllSmall(Chunks(b, NextAt(b, at), n - 1))
  {
    var cs, rest := Chunks(b, at, n), Chunks(b, NextAt(b, at), n - 1);
    assert cs[0] == ChunkAt(b, at);
    assert forall i :: 0 <= i < n - 1 ==> rest[i] == cs[i + 1];
  }

  lemma EncodedFirst(b: seq<Byte>, at: nat, p: Part, rest: seq<Part>)
    requires WellFormed(p) && AllWellFormed(rest)
    requires EncodedAt(b, at, p) && EncodedAll(b, at + HeaderOf(p).total, rest)
    ensures AllWellFormed([p] + rest) && EncodedAll(b, at, [p] + rest)
  {
    assert ([p] + rest)[1..] == rest;
  }

  /** Every accepted image whose raw chunks have fewer than 2^20 blocks encodes some parts, and
      their meaning is its output. */
  lemma AcceptedIsEncoded(b: seq<Byte>) returns (ps: seq<Part>)
    requires DecodeImage(b).Expanded?
    requires AllSmall(Chunks(b, FILE_HEADER, U32(b, 20)))
    ensures |ps| == U32(b, 20) && AllWellFormed(ps) && EncodedAll(b, FILE_HEADER, ps)
    ensures DecodeImage(b) == Expanded(Meanings(ps), FILE_HEADER + Length(ps))
  {
    ps := ChunksEncoded(b, FILE_HEADER, U32(b, 20));
    ImageRoundTrip(b, ps);
  }

  /** A file header that announces one chunk. */
  const HEADER: seq<Byte> := [
    0x3a, 0xff, 0x26, 0xed, 0x01, 0x00, 0x00, 0x00, 0x1c, 0x00, 0x0c, 0x00, 0x00, 0x10,
    0x00, 0x00, 0x00, 0x00, 0x10, 0x00, 0x01, 0x00, 0x00, 0x00, 0x00, 0x00, 0x00, 0x00]

  lemma HeaderPasses()
    ensures HeaderCode(HEADER) == 0 && U32(HEADER, 20) == 1
  {
    assert U16(HEADER, 0) == 0xff3a && U16(HEADER, 2) == 0xed26;
    assert U16(HEADER, 4) == 1 && U16(HEADER, 6) == 0 && U16(HEADER, 8) == 28 && U16(HEADER, 10) == 12;
    assert U16(HEADER, 12) == 4096 && U16(HEADER, 14) == 0;
    assert U16(HEADER, 20) == 1 && U16(HEADER, 22) == 0;
  }

  /** A raw chunk of 2^20 blocks without data. */
  const EMPTY_RAW: seq<Byte> := [0xc1, 0xca, 0x00, 0x00, 0x00, 0x00, 0x10, 0x00, 0x0c, 0x00, 0x00, 0x00]

  lemma EmptyRawPasses()
    ensures ChunkAt(EMPTY_RAW, 0) == Chunk(RAW, 0x10_0000, CHUNK_HEADER)
  {
    assert U16(EMPTY_RAW, 0) == 0xcac1;
    assert U16(EMPTY_RAW, 4) == 0 && U16(EMPTY_RAW, 6) == 0x10;
    assert U16(EMPTY_RAW, 8) == 12 && U16(EMPTY_RAW, 10) == 0;
  }

  /** The image is accepted although its 2^20 blocks are missing, and nothing is put out. */
  lemma RawChunkCutShort(b: seq<Byte>)
    requires b == HEADER + EMPTY_RAW
    ensures DecodeImage(b) == Expanded([], 40)
    ensures !SmallRaw(ChunkAt(b, FILE_HEADER))
  {
    HeaderPasses();
    EmptyRawPasses();
    assert b[..FILE_HEADER] == HEADER && b[FILE_HEADER..40] == EMPTY_RAW;
    ChunkCountOf(b, HEADER);
    SliceOf(b, FILE_HEADER, EMPTY_RAW);
    OneEmptyChunk(b, FILE_HEADER);
  }

  lemma OneEmptyChunk(b: seq<Byte>, at: nat)
    requires |b| == at + CHUNK_HEADER && ChunkAt(b, at) == Chunk(RAW, 0x10_0000, CHUNK_HEADER)
    ensures Decode(b, at, 1) == Expanded([], |b|)
  {
    assert RawSize(0x10_0000) == 0;
    assert Accepted(b, at) && Piece(b, at) == [] && NextAt(b, at) == |b|;
    assert Walk(Taker(b), |b|, 0) == Expanded([], |b|);
  }

  lemma SliceOf(b: seq<Byte>, at: nat, e: seq<Byte>)
    requires at + |e| <= |b| && b[at..at + |e|] == e && |e| >= CHUNK_HEADER
    ensures ChunkAt(b, at) == ChunkAt(e, 0)
  {
    assert forall i :: 0 <= i < |e| ==> b[at + i] == e[i];
  }

  lemma SliceReads(b: seq<Byte>, lo: nat, hi: nat)
    requires lo + 4 <= hi <= |b|
    ensures U32(b[lo..hi], 0) == U32(b, lo)
  {
  }

  lemma ChunkCountOf(b: seq<Byte>, h: seq<Byte>)
    requires |b| >= FILE_HEADER && h == b[..FILE_HEADER]
    ensures U32(b, 20) == U32(h, 20)
  {
  }

  lemma JoinSlices(b: seq<Byte>, i: nat, j: nat, k: nat)
    requires i <= j <= k <= |b|
    ensures b[i..j] + b[j..k] == b[i..k]
  {
  }

  // ------------------------------------------------------------ the program

  /** Standard input and output, and the schedule of how much each call transfers: a negative
      grant is an error, any other grant an upper bound. */
  class Process {
    const input: seq<Byte>
    const schedule: nat -> int
    var turn: nat
    var pos: nat
    var output: seq<Byte>
    var disableSplice: bool

    constructor (input: seq<Byte>, schedule: nat -> int)
      ensures this.input == input && this.schedule == schedule
      ensures pos == 0 && output == [] && !disableSplice
    {
      this.input, this.schedule := input, schedule;
      turn, pos, output, disableSplice := 0, 0, [], false;
    }

    /** No call fails and none transfers less than it could. */
    ghost predicate Generous() {
      forall k :: schedule(k) >= WORD
    }

    /** How much of a request is granted; -1 for an error. */
    method Grant(request: nat) returns (n: int)
      modifies this`turn
      ensures -1 <= n <= request
      ensures Generous() && request <= WORD ==> n == request
    {
      var g := schedule(turn);
      turn := turn + 1;
      n := if g < 0 then -1 else if g < request then g else request;
    }

    method Read(count: nat) returns (res: int, data: seq<Byte>)
      requires pos <= |input|
      modifies this`turn, this`pos
      ensures pos <= |input| && res <= count
      ensures res < 0 ==> res == -1 && pos == old(pos) && data == []
      ensures res >= 0 ==> pos == old(pos) + res && data == input[old(pos)..pos]
      ensures Generous() && count <= WORD && old(pos) + count <= |input| ==> res == count
    {
      var left := |input| - pos;
      res := Grant(if count <= left then count else left);
      data := [];
      if res >= 0 {
        data := input[pos..pos + res];
        pos := pos + res;
      }
    }

    method Write(data: seq<Byte>) returns (res: int)
      modifies this`turn, this`output
      ensures -1 <= res <= |data|
      ensures res == |data| ==> output == old(output) + data
      ensures Generous() && |data| <= WORD ==> res == |data|
    {
      res := Grant(|data|);
      if res >= 0 {
        output := output + data[..res];
        assert res == |data| ==> data[..res] == data;
      }
    }

    method Splice(count: nat) returns (res: int)
      requires pos <= |input|
      modifies this`turn, this`pos, this`output
      ensures pos <= |input| && res <= count
      ensures res < 0 ==> res == -1 && pos == old(pos) && output == old(output)
      ensures res >= 0 ==> pos == old(pos) + res && output == old(output) + input[old(pos)..pos]
      ensures Generous() && count <= WORD && old(pos) + count <= |input| ==> res == count
    {
      var left := |input| - pos;
      res := Grant(if count <= left then count else left);
      if res >= 0 {
        output := output + input[pos..pos + res];
        pos := pos + res;
      }
    }

    /** One turn of the copy loop: moves some of the bytes still due, or exits. A failed read is
        followed by a write of a bogus length and an exit either way. */
    method Transfer(left: nat) returns (res: int, code: nat)
      requires pos <= |input| && left > 0
      modifies this
      ensures pos <= |input|
      ensures code == 0 ==> 0 < res <= left && pos == old(pos) + res
      ensures code == 0 ==> output == old(output) + input[old(pos)..pos]
      ensures Generous() && left < WORD && old(pos) + left <= |input| ==> code == 0
    {
      res, code := -1, 0;
      if !disableSplice {
        res := Splice(left);
      }
      if left > 16 * 1024 && res < 1024 {
        disableSplice := true;
      }
      if res == -1 {
        var data;
        res, data := Read(if left < 1024 * 1024 then left else 1024 * 1024);
        if res == -1 {
          return res, 112;
        }
        var w := Write(data);
        if w != res {
          return res, 114;
        }
      }
      if res == 0 {
        code := 112;
      }
    }

    /** Copies exactly `count` bytes, whatever the sizes of the transfers, or exits. */
    method NSendFile(count: nat) returns (code: nat)
      requires pos <= |input|
      modifies this
      ensures pos <= |input|
      ensures code == 0 ==> pos == old(pos) + count && output == old(output) + input[old(pos)..pos]
      ensures Generous() && count < WORD && old(pos) + count <= |input| ==> code == 0
    {
      var left: nat := count;
      while left != 0
        invariant left <= count && pos <= |input| && pos == old(pos) + (count - left)
        invariant output == old(output) + input[old(pos)..pos]
        decreases left
      {
        ghost var at := pos;
        var res;
        res, code := Transfer(left);
        if code != 0 {
          return;
        }
        JoinSlices(input, old(pos), at, pos);
        left := left - res;
      }
      code := 0;
    }

    /** Writes `blocks` zero blocks, or exits with `failure`. */
    method WriteZeroBlocks(blocks: nat, failure: nat) returns (code: nat)
      requires failure != 0
      modifies this`turn, this`output
      ensures code == 0 ==> output == old(output) + Zeros(BLOCK * blocks)
      ensures Generous() ==> code == 0
    {
      var i := 0;
      while i < blocks
        invariant i <= blocks && output == old(output) + Zeros(BLOCK * i)
      {
        var w := Write(Zeros(BLOCK));
        if w != BLOCK {
          return failure;
        }
        assert Zeros(BLOCK * i) + Zeros(BLOCK) == Zeros(BLOCK * (i + 1));
        i := i + 1;
      }
      code := 0;
    }

    /** One turn of the chunk loop. */
    method DoChunk() returns (code: nat)
      requires pos <= |input|
      modifies this
      ensures pos <= |input|
      ensures code == 0 ==> var t := Take(input, old(pos));
        t.Go? && pos == t.next && output == old(output) + t.piece
      ensures Generous() && Take(input, old(pos)).Go? ==> code == 0
    {
      ghost var at := pos;
      var res, h := Read(CHUNK_HEADER);
      if res != CHUNK_HEADER {
        return 3;
      }
      SliceOf(input, at, h);
      var c := ChunkAt(h, 0);
      if c.kind == RAW {
        if c.total != CHUNK_HEADER + BLOCK * c.blocks % WORD {
          return 7;
        }
        code := NSendFile(BLOCK * c.blocks % WORD);
      } else if c.kind == FILL {
        if c.total != 4 + CHUNK_HEADER {
          return 7;
        }
        var r, fill := Read(4);
        if r != 4 {
          return 5;
        }
        SliceReads(input, at + CHUNK_HEADER, at + CHUNK_HEADER + 4);
        if U32(fill, 0) != 0 {
          return 6;
        }
        code := WriteZeroBlocks(c.blocks, 8);
      } else if c.kind == DONT_CARE {
        if c.total != CHUNK_HEADER {
          return 9;
        }
        code := WriteZeroBlocks(c.blocks, 10);
      } else if c.kind == CRC32 {
        if c.total != 4 + CHUNK_HEADER {
          return 7;
        }
        var r, crc := Read(4);
        if r != 4 {
          return 5;
        }
        code := 0;
      } else {
        return 4;
      }
    }

    /** A run that exits with 0 has expanded the image: the output is the decoded one, and exactly
        the decoded input is consumed. When no transfer is cut short, every image that decodes is
        accepted. */
    method Run() returns (code: nat)
      requires pos == 0 && output == []
      modifies this
      ensures code == 0 ==> DecodeImage(input) == Expanded(output, pos)
      ensures Generous() && DecodeImage(input).Expanded? ==> code == 0
    {
      var res, h := Read(FILE_HEADER);
      if res != FILE_HEADER {
        return 1;
      }
      code := HeaderCode(h);
      if code != 0 {
        return;
      }
      assert input[..FILE_HEADER] == h;
      ChunkCountOf(input, h);
      code := RunChunks(U32(h, 20));
    }

    method RunChunks(chunks: nat) returns (code: nat)
      requires pos <= |input| && output == []
      modifies this
      ensures code == 0 ==> Decode(input, old(pos), chunks) == Expanded(output, pos)
      ensures Generous() && Decode(input, old(pos), chunks).Expanded? ==> code == 0
    {
      ghost var start := pos;
      var i := 0;
      while i < chunks
        invariant i <= chunks && pos <= |input|
        invariant Decode(input, start, i) == Expanded(output, pos)
      {
        DecodeNext(input, start, i, chunks);
        code := DoChunk();
        if code != 0 {
          return;
        }
        i := i + 1;
      }
      code := 0;
    }
  }
}
