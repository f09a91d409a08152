/** The Bedrock subchunk codec of `readSubchunk`: up to two block storages of 4096
    palette indices, packed into 32-bit words that no index straddles. */
module Subchunk {
  import opened VarInt
  import opened Wrappers

  const BLOCKS := 4096

  /** The storage widths the reader knows. */
  predicate IsWidth(bits: int) {
    0 <= bits <= 6 || bits == 8 || bits == 16
  }

  predicate IsPackedWidth(bits: int) {
    IsWidth(bits) && bits != 0
  }

  function Pow2(n: nat): (p: nat)
    ensures p > 0
  {
    if n == 0 then 1 else 2 * Pow2(n - 1)
  }

  /** How many indices a word holds. */
  function PerWord(bits: nat): (n: nat)
    requires IsPackedWidth(bits)
    ensures 2 <= n <= 32 && n * bits <= 32
  {
    32 / bits
  }

  /** How many words `count` indices take. */
  function WordCount(bits: nat, count: nat): nat
    requires IsPackedWidth(bits)
  {
    (count + PerWord(bits) - 1) / PerWord(bits)
  }

  // ---------------------------------------------------------------- reading

  datatype SubchunkError =
    | Truncated | BadVarInt | UnsupportedSubchunk | BadStorageCount
    | UnsupportedStorage | BadPalette | BadIndex

  /** An empty `blocks` stands for a section that is air throughout. */
  datatype Decoded = Decoded(blocks: seq<U32>, consumed: nat, y: Option<int>)

  datatype Token = Token(value: I32, next: nat)

  /** Even numbers stand for 0, 1, 2 and so on, odd ones for -1, -2, -3 and so on. */
  function UnZigZag(n: U32): I32 {
    if n % 2 == 0 then n / 2 else -(n / 2) - 1
  }

  function ReadSigned(b: seq<Byte>, offset: nat): (r: Result<Token, SubchunkError>)
    ensures r.Ok? ==> offset < r.value.next <= |b|
  {
    StrictIsU32(b, offset);
    match Strict(b, offset)
    case Value(n, size) => Ok(Token(UnZigZag(n), offset + size))
    case Incomplete => Err(Truncated)
    case Malformed => Err(BadVarInt)
  }

  /** Where a palette of `count` ids ends. */
  function PaletteEnd(b: seq<Byte>, offset: nat, count: nat): (r: Result<nat, SubchunkError>)
    requires offset <= |b|
    ensures r.Ok? ==> offset <= r.value <= |b|
    decreases count
  {
    if count == 0 then Ok(offset)
    else match ReadSigned(b, offset)
         case Err(e) => Err(e)
         case Ok(token) => PaletteEnd(b, token.next, count - 1)
  }

  function PaletteIds(b: seq<Byte>, offset: nat, count: nat): (ids: seq<U32>)
    requires offset <= |b| && PaletteEnd(b, offset, count).Ok?
    ensures |ids| == count
    decreases count
  {
    if count == 0 then []
    else
      var token := ReadSigned(b, offset).value;
      [ToU32(token.value)] + PaletteIds(b, token.next, count - 1)
  }

  /** `readUInt32LE` */
  function WordAt(b: seq<Byte>, at: nat): (w: nat)
    requires at + 4 <= |b|
    ensures w < U32_SIZE
  {
    var b0: int, b1: int, b2: int, b3: int := b[at], b[at + 1], b[at + 2], b[at + 3];
    b0 + 0x100 * b1 + 0x1_0000 * b2 + 0x100_0000 * b3
  }

  /** The words of a storage with `count` indices start at `start` and fit into `b`. */
  predicate HoldsWords(b: seq<Byte>, start: nat, bits: nat, count: nat) {
    IsPackedWidth(bits) && start + 4 * WordCount(bits, count) <= |b|
  }

  lemma WordInRange(bits: nat, count: nat, i: nat)
    requires IsPackedWidth(bits) && i < count
    ensures i / PerWord(bits) < WordCount(bits, count)
  {
    var n := PerWord(bits);
    DivideMonotone(i + n, count + n - 1, n);
    DivideShift(i, n);
  }

  lemma MultiplyMonotone(x: int, y: int, n: nat)
    ensures x <= y ==> x * n <= y * n
  {
  }

  lemma DivideMonotone(x: nat, y: nat, n: nat)
    requires x <= y && n > 0
    ensures x / n <= y / n
  {
    MultiplyMonotone(y / n + 1, x / n, n);
    assert (y / n + 1) * n == y / n * n + n;
  }

  lemma DivideShift(i: nat, n: nat)
    requires n > 0
    ensures (i + n) / n == i / n + 1 && (i + n) % n == i % n
  {
    var q, r := i / n, i % n;
    assert (q + 1) * n == q * n + n;
    QuotientIsUnique(i + n, n, q + 1, r);
  }

  lemma SmallMultiple(d: int, n: nat)
    requires -(n as int) < d * n < n
    ensures d == 0
  {
    MultiplyMonotone(1, d, n);
    MultiplyMonotone(d, -1, n);
  }

  lemma QuotientIsUnique(x: nat, n: nat, q: nat, r: nat)
    requires x == q * n + r && r < n
    ensures x / n == q && x % n == r
  {
    var q', r' := x / n, x % n;
    assert x == q' * n + r';
    Difference(q, q', n);
    SmallMultiple(q - q', n);
  }

  lemma Difference(x: int, y: int, n: int)
    ensures (x - y) * n == x * n - y * n
  {
  }

  /** How far into its word an index stands, in bits. */
  function ShiftOf(bits: nat, i: nat): nat
    requires IsPackedWidth(bits)
  {
    i % PerWord(bits) * bits
  }

  /** The `i`-th of the indices packed into words, `bits` wide each. */
  function IndexAt(b: seq<Byte>, start: nat, bits: nat, count: nat, i: nat): nat
    requires HoldsWords(b, start, bits, count) && i < count
  {
    WordInRange(bits, count, i);
    WordAt(b, start + i / PerWord(bits) * 4) / Pow2(ShiftOf(bits, i)) % Pow2(bits)
  }

  ghost predicate IndicesInPalette(b: seq<Byte>, start: nat, bits: nat, count: int)
    requires HoldsWords(b, start, bits, BLOCKS)
  {
    forall i :: 0 <= i < BLOCKS ==> IndexAt(b, start, bits, BLOCKS, i) < count
  }

  /** Behind the words of a storage stand the size of its palette and the palette. */
  function PaletteSize(b: seq<Byte>, start: nat, bits: nat): Result<Token, SubchunkError>
    requires HoldsWords(b, start, bits, BLOCKS)
  {
    ReadSigned(b, start + 4 * WordCount(bits, BLOCKS))
  }

  ghost function PackedEnd(b: seq<Byte>, start: nat, bits: nat): (r: Result<nat, SubchunkError>)
    requires HoldsWords(b, start, bits, BLOCKS)
    ensures r.Ok? ==> start <= r.value <= |b|
  {
    match PaletteSize(b, start, bits)
    case Err(e) => Err(e)
    case Ok(count) =>
      if count.value < 1 || count.value > 65536 then Err(BadPalette)
      else match PaletteEnd(b, count.next, count.value)
           case Err(e) => Err(e)
           case Ok(end) => if IndicesInPalette(b, start, bits, count.value) then Ok(end) else Err(BadIndex)
  }

  ghost function PackedBlocks(b: seq<Byte>, start: nat, bits: nat): (blocks: seq<U32>)
    requires HoldsWords(b, start, bits, BLOCKS) && PackedEnd(b, start, bits).Ok?
    ensures |blocks| == BLOCKS
  {
    var count := PaletteSize(b, start, bits).value;
    var palette := PaletteIds(b, count.next, count.value);
    seq(BLOCKS, i requires 0 <= i < BLOCKS => palette[IndexAt(b, start, bits, BLOCKS, i)])
  }

  /** Where the storage at `offset` ends. */
  ghost function LayerEnd(b: seq<Byte>, offset: nat): (r: Result<nat, SubchunkError>)
    ensures r.Ok? ==> offset < r.value <= |b|
  {
    if offset >= |b| then Err(Truncated)
    else
      var bits := b[offset] / 2;
      if b[offset] % 2 == 0 || !IsWidth(bits) then Err(UnsupportedStorage)
      else if bits == 0 then
        match ReadSigned(b, offset + 1)
        case Err(e) => Err(e)
        case Ok(id) => Ok(id.next)
      else if !HoldsWords(b, offset + 1, bits, BLOCKS) then Err(Truncated)
      else PackedEnd(b, offset + 1, bits)
  }

  ghost function LayerBlocks(b: seq<Byte>, offset: nat): (blocks: seq<U32>)
    requires LayerEnd(b, offset).Ok?
    ensures |blocks| == BLOCKS
  {
    var bits := b[offset] / 2;
    if bits == 0 then seq(BLOCKS, _ => ToU32(ReadSigned(b, offset + 1).value.value))
    else PackedBlocks(b, offset + 1, bits)
  }

  /** All storages must be well formed, though only the first one is kept. */
  ghost function LayersEnd(b: seq<Byte>, offset: nat, layers: nat): (r: Result<nat, SubchunkError>)
    requires offset <= |b|
    ensures r.Ok? ==> offset <= r.value <= |b|
    decreases layers
  {
    if layers == 0 then Ok(offset)
    else match LayerEnd(b, offset)
         case Err(e) => Err(e)
         case Ok(next) => LayersEnd(b, next, layers - 1)
  }

  /** A byte as a signed number. */
  function SignedByte(b: Byte): int {
    if b < 128 then b else b - 256
  }

  ghost function Decode(b: seq<Byte>): (r: Result<Decoded, SubchunkError>)
    ensures r.Ok? ==> r.value.consumed <= |b| && (|r.value.blocks| == 0 || |r.value.blocks| == BLOCKS)
  {
    if |b| < 1 then Err(Truncated)
    else if b[0] != 8 && b[0] != 9 then Err(UnsupportedSubchunk)
    else if |b| < 2 || (b[0] == 9 && |b| < 3) then Err(Truncated)
    else if b[1] > 2 then Err(BadStorageCount)
    else
      var start := if b[0] == 9 then 3 else 2;
      match LayersEnd(b, start, b[1])
      case Err(e) => Err(e)
      case Ok(end) =>
        var blocks := if b[1] == 0 then [] else LayerBlocks(b, start);
        Ok(Decoded(blocks, end, if b[0] == 9 then Some(SignedByte(b[2])) else None))
  }

  // ---------------------------------------------------------------- writing

  /** A block storage as the server composes it. */
  datatype Storage =
    | Uniform(id: U32)
    | Packed(bits: nat, palette: seq<U32>, indices: seq<nat>)

  datatype Section = Section(y: Option<int>, storages: seq<Storage>)

  predicate ValidStorage(s: Storage) {
    match s
    case Uniform(_) => true
    case Packed(bits, palette, indices) =>
      && IsPackedWidth(bits)
      && 1 <= |palette| <= 65536
      && |indices| == BLOCKS
      && forall i :: 0 <= i < BLOCKS ==> indices[i] < |palette| && indices[i] < Pow2(bits)
  }

  predicate ValidSection(s: Section) {
    && (s.y.Some? ==> -128 <= s.y.value < 128)
    && |s.storages| <= 2
    && forall i :: 0 <= i < |s.storages| ==> ValidStorage(s.storages[i])
  }

  /** The block ids a storage means. */
  function Meaning(s: Storage): seq<U32>
    requires ValidStorage(s)
  {
    match s
    case Uniform(id) => seq(BLOCKS, _ => id)
    case Packed(_, palette, indices) => seq(BLOCKS, i requires 0 <= i < BLOCKS => palette[indices[i]])
  }

  function ZigZag(n: I32): U32 {
    if n >= 0 then 2 * n else -2 * n - 1
  }

  function EncodeSigned(n: I32): seq<Byte> {
    Encode(ZigZag(n))
  }

  function EncodePalette(palette: seq<U32>): seq<Byte> {
    if palette == [] then [] else EncodeSigned(ToI32(palette[0])) + EncodePalette(palette[1..])
  }

  /** Indices in one word, the first in the lowest bits. */
  function Pack(digits: seq<nat>, base: nat): nat {
    if digits == [] then 0 else digits[0] + base * Pack(digits[1..], base)
  }

  function LittleEndian(w: U32): seq<Byte> {
    [w % 256, w / 0x100 % 256, w / 0x1_0000 % 256, w / 0x100_0000]
  }

  function EncodeWords(bits: nat, indices: seq<nat>): seq<Byte>
    requires IsPackedWidth(bits)
    requires forall i :: 0 <= i < |indices| ==> indices[i] < Pow2(bits)
    decreases |indices|
  {
    if indices == [] then []
    else
      var n := if |indices| < PerWord(bits) then |indices| else PerWord(bits);
      WordFits(bits, indices[..n]);
      LittleEndian(Pack(indices[..n], Pow2(bits))) + EncodeWords(bits, indices[n..])
  }

  function EncodeStorage(s: Storage): seq<Byte>
    requires ValidStorage(s)
  {
    match s
    case Uniform(id) => [1] + EncodeSigned(ToI32(id))
    case Packed(bits, palette, indices) =>
      [2 * bits + 1] + (EncodeWords(bits, indices) + (EncodeSigned(|palette|) + EncodePalette(palette)))
  }

  function EncodeStorages(storages: seq<Storage>): seq<Byte>
    requires forall i :: 0 <= i < |storages| ==> ValidStorage(storages[i])
  {
    if storages == [] then [] else EncodeStorage(storages[0]) + EncodeStorages(storages[1..])
  }

  /** Version 9 carries the section's height, version 8 does not. */
  function EncodeSection(s: Section): seq<Byte>
    requires ValidSection(s)
  {
    (if s.y.Some? then [9, |s.storages|, s.y.value % 256] else [8, |s.storages|])
    + EncodeStorages(s.storages)
  }

  // ---------------------------------------------------------------- words

  lemma Pow2Sum(m: nat, n: nat)
    ensures Pow2(m + n) == Pow2(m) * Pow2(n)
    decreases m
  {
    if m > 0 {
      Pow2Sum(m - 1, n);
      assert Pow2(m + n) == 2 * Pow2(m - 1 + n);
      assert 2 * (Pow2(m - 1) * Pow2(n)) == 2 * Pow2(m - 1) * Pow2(n);
    }
  }

  lemma Pow2Monotone(m: nat, n: nat)
    requires m <= n
    ensures Pow2(m) <= Pow2(n)
    decreases n - m
  {
    if m < n {
      Pow2Monotone(m + 1, n);
    }
  }

  lemma Pow2Of32()
    ensures Pow2(32) == U32_SIZE
  {
    assert Pow2(8) == 256;
    Pow2Sum(8, 8);
    Pow2Sum(16, 16);
  }

  lemma {:induction false} PackBound(bits: nat, digits: seq<nat>)
    requires forall i :: 0 <= i < |digits| ==> digits[i] < Pow2(bits)
    ensures Pack(digits, Pow2(bits)) < Pow2(|digits| * bits)
  {
    var base := Pow2(bits);
    if digits == [] {
      assert |digits| * bits == 0;
    } else {
      PackBound(bits, digits[1..]);
      DigitBound(digits[0], base, Pack(digits[1..], base), Pow2((|digits| - 1) * bits));
      Difference(|digits|, 1, bits);
      Pow2Sum(bits, (|digits| - 1) * bits);
    }
  }

  lemma DigitBound(digit: nat, base: nat, rest: nat, bound: nat)
    requires digit < base && rest < bound
    ensures digit + base * rest < base * bound
  {
    MultiplyMonotone(rest, bound - 1, base);
    Difference(bound, 1, base);
  }

  lemma WordFits(bits: nat, digits: seq<nat>)
    requires IsPackedWidth(bits) && |digits| <= PerWord(bits)
    requires forall i :: 0 <= i < |digits| ==> digits[i] < Pow2(bits)
    ensures Pack(digits, Pow2(bits)) < U32_SIZE
  {
    hide Pack, Pow2;
    PackBound(bits, digits);
    MultiplyMonotone(|digits|, PerWord(bits), bits);
    Pow2Monotone(|digits| * bits, 32);
    Pow2Of32();
  }

  lemma DivideTwice(x: nat, m: nat, n: nat)
    requires m > 0 && n > 0
    ensures m * n > 0 && x / (m * n) == x / m / n
  {
    var y := x / m;
    Digits(x, m);
    Digits(y, n);
    TwoDigits(x, m, n, y / n, y % n, x % m);
  }

  lemma Digits(x: nat, m: nat)
    requires m > 0
    ensures x == x / m * m + x % m && x % m < m
  {
  }

  lemma TwoDigits(x: nat, m: nat, n: nat, q: nat, r: nat, s: nat)
    requires s < m && r < n && x == (q * n + r) * m + s
    ensures m * n > 0 && x / (m * n) == q
  {
    Regroup(q, n, r, m);
    MultiplyMonotone(r, n - 1, m);
    MultiplyMonotone(1, n, m);
    Difference(n, 1, m);
    QuotientIsUnique(x, m * n, q, r * m + s);
  }

  lemma Regroup(q: nat, n: nat, r: nat, m: nat)
    ensures (q * n + r) * m == q * (m * n) + r * m
  {
    assert q * n * m == q * (m * n);
  }

  /** Shifting and masking a packed word gives back each index. */
  lemma {:induction false} UnpackWord(bits: nat, digits: seq<nat>, j: nat)
    requires j < |digits|
    requires forall i :: 0 <= i < |digits| ==> digits[i] < Pow2(bits)
    ensures Pack(digits, Pow2(bits)) / Pow2(j * bits) % Pow2(bits) == digits[j]
    decreases j
  {
    var base := Pow2(bits);
    var rest := Pack(digits[1..], base);
    assert digits[0] + base * rest == rest * base + digits[0];
    QuotientIsUnique(digits[0] + base * rest, base, rest, digits[0]);
    if j == 0 {
      assert j * bits == 0;
    } else {
      assert j * bits == bits + (j - 1) * bits;
      Pow2Sum(bits, (j - 1) * bits);
      DivideTwice(digits[0] + base * rest, base, Pow2((j - 1) * bits));
      UnpackWord(bits, digits[1..], j - 1);
    }
  }

  lemma ReadWord(b: seq<Byte>, offset: nat, w: U32)
    requires At(b, offset, LittleEndian(w))
    ensures WordAt(b, offset) == w
  {
    var s := LittleEndian(w);
    assert b[offset] == s[0] && b[offset + 1] == s[1] && b[offset + 2] == s[2] && b[offset + 3] == s[3];
    var q := w / 0x100;
    assert w / 0x1_0000 == q / 0x100 && w / 0x100_0000 == q / 0x100 / 0x100;
  }

  lemma {:induction false} WordsLength(bits: nat, indices: seq<nat>)
    requires IsPackedWidth(bits)
    requires forall i :: 0 <= i < |indices| ==> indices[i] < Pow2(bits)
    ensures |EncodeWords(bits, indices)| == 4 * WordCount(bits, |indices|)
    decreases |indices|
  {
    hide Pack, Pow2;
    var per := PerWord(bits);
    if indices == [] {
      QuotientIsUnique(per - 1, per, 0, per - 1);
    } else if |indices| < per {
      QuotientIsUnique(|indices| + per - 1, per, 1, |indices| - 1);
      assert EncodeWords(bits, indices[|indices|..]) == [];
    } else {
      WordsLength(bits, indices[per..]);
      DivideShift(|indices| - 1, per);
      DivideShift(|indices| - per + per - 1, per);
    }
  }

  /** The first word of a storage holds the first `n` indices, and the others follow. */
  lemma FirstWord(b: seq<Byte>, start: nat, bits: nat, indices: seq<nat>) returns (n: nat)
    requires IsPackedWidth(bits) && indices != []
    requires forall k :: 0 <= k < |indices| ==> indices[k] < Pow2(bits)
    requires At(b, start, EncodeWords(bits, indices))
    ensures n == if |indices| < PerWord(bits) then |indices| else PerWord(bits)
    ensures start + 4 <= |b| && WordAt(b, start) == Pack(indices[..n], Pow2(bits))
    ensures At(b, start + 4, EncodeWords(bits, indices[n..]))
  {
    hide Pack, WordAt, Pow2;
    n := if |indices| < PerWord(bits) then |indices| else PerWord(bits);
    WordFits(bits, indices[..n]);
    var word := LittleEndian(Pack(indices[..n], Pow2(bits)));
    AtSum(b, start, word, EncodeWords(bits, indices[n..]));
    ReadWord(b, start, Pack(indices[..n], Pow2(bits)));
  }

  lemma FirstWordIndex(b: seq<Byte>, start: nat, bits: nat, count: nat, i: nat)
    requires HoldsWords(b, start, bits, count) && i < count && i < PerWord(bits) && start + 4 <= |b|
    ensures IndexAt(b, start, bits, count, i) == WordAt(b, start) / Pow2(i * bits) % Pow2(bits)
  {
    hide WordAt, Pow2, WordCount;
    QuotientIsUnique(i, PerWord(bits), 0, i);
  }

  lemma LaterWordIndex(b: seq<Byte>, start: nat, bits: nat, count: nat, i: nat)
    requires HoldsWords(b, start, bits, count) && PerWord(bits) <= i < count
    requires HoldsWords(b, start + 4, bits, count - PerWord(bits))
    ensures IndexAt(b, start, bits, count, i) == IndexAt(b, start + 4, bits, count - PerWord(bits), i - PerWord(bits))
  {
    hide WordAt, Pow2, WordCount;
    DivideShift(i - PerWord(bits), PerWord(bits));
  }

  /** Every index of every width survives the words. */
  lemma {:induction false} ReadIndex(b: seq<Byte>, start: nat, bits: nat, indices: seq<nat>, i: nat)
    requires IsPackedWidth(bits) && i < |indices|
    requires forall k :: 0 <= k < |indices| ==> indices[k] < Pow2(bits)
    requires At(b, start, EncodeWords(bits, indices))
    ensures HoldsWords(b, start, bits, |indices|)
    ensures IndexAt(b, start, bits, |indices|, i) == indices[i]
    decreases |indices|
  {
    hide EncodeWords, At, Pack, Pow2, WordAt, IndexAt, PerWord, IsPackedWidth, WordCount;
    WordsLength(bits, indices);
    AtBounds(b, start, EncodeWords(bits, indices));
    var n := FirstWord(b, start, bits, indices);
    if i < n {
      FirstWordIndex(b, start, bits, |indices|, i);
      UnpackWord(bits, indices[..n], i);
    } else {
      ReadIndex(b, start + 4, bits, indices[n..], i - n);
      LaterWordIndex(b, start, bits, |indices|, i);
    }
  }

  // ---------------------------------------------------------------- the inverse

  lemma ReadSignedEncoding(b: seq<Byte>, offset: nat, n: I32)
    requires At(b, offset, EncodeSigned(n))
    ensures ReadSigned(b, offset) == Ok(Token(n, offset + |EncodeSigned(n)|))
  {
    PowersOf128();
    StrictReadsEncoding(b, offset, 0, ZigZag(n));
  }

  lemma FirstId(b: seq<Byte>, offset: nat, palette: seq<U32>) returns (next: nat)
    requires At(b, offset, EncodePalette(palette)) && palette != []
    ensures ReadSigned(b, offset) == Ok(Token(ToI32(palette[0]), next))
    ensures At(b, next, EncodePalette(palette[1..]))
    ensures next + |EncodePalette(palette[1..])| == offset + |EncodePalette(palette)|
  {
    hide EncodeSigned, ReadSigned, ToI32;
    var head := EncodeSigned(ToI32(palette[0]));
    next := offset + |head|;
    AtSum(b, offset, head, EncodePalette(palette[1..]));
    ReadSignedEncoding(b, offset, ToI32(palette[0]));
  }

  lemma {:induction false} ReadPaletteEncoding(b: seq<Byte>, offset: nat, palette: seq<U32>)
    requires At(b, offset, EncodePalette(palette))
    ensures PaletteEnd(b, offset, |palette|) == Ok(offset + |EncodePalette(palette)|)
    ensures PaletteIds(b, offset, |palette|) == palette
    decreases |palette|
  {
    hide ReadSigned, ToI32, ToU32;
    if palette != [] {
      var next := FirstId(b, offset, palette);
      SignRoundTrip(palette[0]);
      ReadPaletteEncoding(b, next, palette[1..]);
    }
  }

  lemma ReadUniformEncoding(b: seq<Byte>, offset: nat, s: Storage)
    requires s.Uniform? && At(b, offset, EncodeStorage(s))
    ensures LayerEnd(b, offset) == Ok(offset + |EncodeStorage(s)|)
    ensures LayerBlocks(b, offset) == Meaning(s)
  {
    AtSum(b, offset, [1], EncodeSigned(ToI32(s.id)));
    assert b[offset] == [1][0];
    ReadSignedEncoding(b, offset + 1, ToI32(s.id));
    SignRoundTrip(s.id);
  }

  /** The four parts of a packed storage stand one behind the other. */
  lemma PackedParts(b: seq<Byte>, offset: nat, header: Byte, words: seq<Byte>, count: seq<Byte>, ids: seq<Byte>)
    requires At(b, offset, [header] + (words + (count + ids)))
    ensures offset < |b| && b[offset] == header
    ensures At(b, offset + 1, words) && offset + 1 + |words| <= |b|
    ensures At(b, offset + 1 + |words|, count)
    ensures At(b, offset + 1 + |words| + |count|, ids)
  {
    AtSum(b, offset, [header], words + (count + ids));
    AtSum(b, offset + 1, words, count + ids);
    AtSum(b, offset + 1 + |words|, count, ids);
    assert b[offset] == [header][0];
  }

  lemma ReadIndices(b: seq<Byte>, start: nat, s: Storage)
    requires ValidStorage(s) && s.Packed? && At(b, start, EncodeWords(s.bits, s.indices))
    ensures HoldsWords(b, start, s.bits, BLOCKS)
    ensures forall i :: 0 <= i < BLOCKS ==> IndexAt(b, start, s.bits, BLOCKS, i) == s.indices[i]
  {
    hide IndexAt, EncodeWords, At, HoldsWords;
    ReadIndex(b, start, s.bits, s.indices, 0);
    forall i | 0 <= i < BLOCKS
      ensures IndexAt(b, start, s.bits, BLOCKS, i) == s.indices[i]
    {
      ReadIndex(b, start, s.bits, s.indices, i);
    }
  }

  /** Palette and indices read as they were written make the storage's blocks. */
  lemma PackedReads(b: seq<Byte>, start: nat, s: Storage, next: nat, end: nat)
    requires ValidStorage(s) && s.Packed? && HoldsWords(b, start, s.bits, BLOCKS) && next <= |b|
    requires PaletteSize(b, start, s.bits) == Ok(Token(|s.palette|, next))
    requires PaletteEnd(b, next, |s.palette|) == Ok(end) && PaletteIds(b, next, |s.palette|) == s.palette
    requires forall i :: 0 <= i < BLOCKS ==> IndexAt(b, start, s.bits, BLOCKS, i) == s.indices[i]
    ensures PackedEnd(b, start, s.bits) == Ok(end)
    ensures PackedBlocks(b, start, s.bits) == Meaning(s)
  {
    hide PaletteSize, PaletteEnd, PaletteIds, IndexAt, HoldsWords, IsPackedWidth, Pow2;
    var blocks, meaning := PackedBlocks(b, start, s.bits), Meaning(s);
    forall i | 0 <= i < BLOCKS ensures blocks[i] == meaning[i] {
      assert IndexAt(b, start, s.bits, BLOCKS, i) == s.indices[i];
    }
  }

  lemma PackedLayer(b: seq<Byte>, offset: nat, bits: nat)
    requires offset < |b| && b[offset] == 2 * bits + 1 && HoldsWords(b, offset + 1, bits, BLOCKS)
    ensures LayerEnd(b, offset) == PackedEnd(b, offset + 1, bits)
    ensures LayerEnd(b, offset).Ok? ==> LayerBlocks(b, offset) == PackedBlocks(b, offset + 1, bits)
  {
    hide PackedEnd, PackedBlocks, WordCount;
    assert b[offset] / 2 == bits;
  }

  lemma ReadPackedEncoding(b: seq<Byte>, offset: nat, s: Storage)
    requires ValidStorage(s) && s.Packed? && At(b, offset, EncodeStorage(s))
    ensures LayerEnd(b, offset) == Ok(offset + |EncodeStorage(s)|)
    ensures LayerBlocks(b, offset) == Meaning(s)
  {
    hide EncodeSigned, EncodeWords, EncodePalette, PaletteEnd, PaletteIds, At, IndexAt, LayerEnd, LayerBlocks,
      PackedEnd,
      PackedBlocks, Meaning, ReadSigned, WordCount;
    var words, count, ids := EncodeWords(s.bits, s.indices), EncodeSigned(|s.palette|), EncodePalette(s.palette);
    PackedParts(b, offset, 2 * s.bits + 1, words, count, ids);
    WordsLength(s.bits, s.indices);
    var next := offset + 1 + |words| + |count|;
    ReadSignedEncoding(b, offset + 1 + |words|, |s.palette|);
    ReadPaletteEncoding(b, next, s.palette);
    ReadIndices(b, offset + 1, s);
    PackedLayer(b, offset, s.bits);
    PackedReads(b, offset + 1, s, next, next + |ids|);
  }

  lemma ReadStorageEncoding(b: seq<Byte>, offset: nat, s: Storage)
    requires ValidStorage(s) && At(b, offset, EncodeStorage(s))
    ensures LayerEnd(b, offset) == Ok(offset + |EncodeStorage(s)|)
    ensures LayerBlocks(b, offset) == Meaning(s)
  {
    match s
    case Uniform(_) => ReadUniformEncoding(b, offset, s);
    case Packed(_, _, _) => ReadPackedEncoding(b, offset, s);
  }

  lemma FirstStorage(b: seq<Byte>, offset: nat, storages: seq<Storage>) returns (middle: nat)
    requires forall i :: 0 <= i < |storages| ==> ValidStorage(storages[i])
    requires At(b, offset, EncodeStorages(storages))
    ensures storages == [] ==> middle == offset <= |b| && EncodeStorages(storages) == []
    ensures storages != [] ==>
              && At(b, offset, EncodeStorage(storages[0])) && At(b, middle, EncodeStorages(storages[1..]))
              && middle == offset + |EncodeStorage(storages[0])| <= |b|
              && middle + |EncodeStorages(storages[1..])| == offset + |EncodeStorages(storages)|
  {
    hide EncodeStorage, ValidStorage;
    middle := offset;
    if storages != [] {
      middle := offset + |EncodeStorage(storages[0])|;
      AtSum(b, offset, EncodeStorage(storages[0]), EncodeStorages(storages[1..]));
    }
  }

  lemma {:induction false} ReadStoragesEncoding(b: seq<Byte>, offset: nat, storages: seq<Storage>)
    requires forall i :: 0 <= i < |storages| ==> ValidStorage(storages[i])
    requires At(b, offset, EncodeStorages(storages))
    ensures LayersEnd(b, offset, |storages|) == Ok(offset + |EncodeStorages(storages)|)
    ensures storages != [] ==> LayerBlocks(b, offset) == Meaning(storages[0])
    decreases |storages|
  {
    hide LayerEnd, LayerBlocks, EncodeStorage, Meaning, ValidStorage, At, EncodeStorages;
    var middle := FirstStorage(b, offset, storages);
    if storages != [] {
      ReadStorageEncoding(b, offset, storages[0]);
      ReadStoragesEncoding(b, middle, storages[1..]);
    }
  }

  /** What the reader must answer for a section. */
  function Answer(s: Section): Decoded
    requires ValidSection(s)
  {
    Decoded(if s.storages == [] then [] else Meaning(s.storages[0]), |EncodeSection(s)|, s.y)
  }

  lemma SectionParts(b: seq<Byte>, s: Section)
    requires ValidSection(s) && At(b, 0, EncodeSection(s))
    ensures |b| >= 2 && b[0] == (if s.y.Some? then 9 else 8) && b[1] == |s.storages|
    ensures s.y.Some? ==> |b| >= 3 && SignedByte(b[2]) == s.y.value
    ensures At(b, if s.y.Some? then 3 else 2, EncodeStorages(s.storages))
    ensures |EncodeSection(s)| == (if s.y.Some? then 3 else 2) + |EncodeStorages(s.storages)|
  {
    hide EncodeStorages, ValidStorage;
    var header := if s.y.Some? then [9, |s.storages|, s.y.value % 256] else [8, |s.storages|];
    AtSum(b, 0, header, EncodeStorages(s.storages));
    assert b[0] == header[0] && b[1] == header[1] && (s.y.Some? ==> b[2] == header[2]);
  }

  /** Decoding inverts the wire format and stops exactly at its end, whatever follows. */
  lemma DecodeInvertsEncode(b: seq<Byte>, s: Section)
    requires ValidSection(s)
    requires At(b, 0, EncodeSection(s))
    ensures Decode(b) == Ok(Answer(s))
  {
    hide LayersEnd, LayerBlocks, EncodeSection, EncodeStorages, Meaning, ValidStorage, At, SignedByte;
    SectionParts(b, s);
    ReadStoragesEncoding(b, if s.y.Some? then 3 else 2, s.storages);
  }

  // ---------------------------------------------------------------- consecutive sections

  /** `count` sections, one behind the other. */
  ghost function DecodeMany(b: seq<Byte>, offset: nat, count: nat): (r: Result<seq<Decoded>, SubchunkError>)
    requires offset <= |b|
    ensures r.Ok? ==> |r.value| == count
    ensures r.Ok? ==> forall i :: 0 <= i < count ==> |r.value[i].blocks| == 0 || |r.value[i].blocks| == BLOCKS
    decreases count
  {
    if count == 0 then Ok([])
    else match Decode(b[offset..])
         case Err(e) => Err(e)
         case Ok(first) => Prepend([first], DecodeMany(b, offset + first.consumed, count - 1))
  }

  function EncodeMany(sections: seq<Section>): seq<Byte>
    requires forall i :: 0 <= i < |sections| ==> ValidSection(sections[i])
  {
    if sections == [] then [] else EncodeSection(sections[0]) + EncodeMany(sections[1..])
  }

  function Answers(sections: seq<Section>): (answers: seq<Decoded>)
    requires forall i :: 0 <= i < |sections| ==> ValidSection(sections[i])
  {
    if sections == [] then [] else [Answer(sections[0])] + Answers(sections[1..])
  }

  lemma FirstSection(b: seq<Byte>, offset: nat, sections: seq<Section>) returns (next: nat)
    requires forall i :: 0 <= i < |sections| ==> ValidSection(sections[i])
    requires At(b, offset, EncodeMany(sections)) && sections != []
    ensures offset <= |b| && Decode(b[offset..]) == Ok(Answer(sections[0]))
    ensures next == offset + Answer(sections[0]).consumed
    ensures At(b, next, EncodeMany(sections[1..]))
  {
    hide Decode, EncodeSection, ValidSection;
    var first := EncodeSection(sections[0]);
    next := offset + |first|;
    AtSum(b, offset, first, EncodeMany(sections[1..]));
    forall k | 0 <= k < |first| ensures b[offset..][k] == first[k] {
      assert b[offset + k] == first[k];
    }
    DecodeInvertsEncode(b[offset..], sections[0]);
  }

  /** A concatenation of sections decodes to those sections in order, whatever follows. */
  lemma {:induction false} DecodeManyInvertsEncode(b: seq<Byte>, offset: nat, sections: seq<Section>)
    requires forall i :: 0 <= i < |sections| ==> ValidSection(sections[i])
    requires offset <= |b| && At(b, offset, EncodeMany(sections))
    ensures DecodeMany(b, offset, |sections|) == Ok(Answers(sections))
    decreases |sections|
  {
    hide Decode, EncodeMany, EncodeSection, ValidSection, Answer, At;
    if sections != [] {
      var next := FirstSection(b, offset, sections);
      AtBounds(b, next, EncodeMany(sections[1..]));
      DecodeManyInvertsEncode(b, next, sections[1..]);
    }
  }

  // ---------------------------------------------------------------- the loops of the source

  method ReadSignedVarInt(payload: seq<Byte>, offset: nat) returns (r: Result<Token, SubchunkError>)
    ensures r == ReadSigned(payload, offset)
  {
    StrictIsU32(payload, offset);
    var n := UnsignedVarint(payload, offset);
    match n {
      case Value(value, size) => r := Ok(Token(UnZigZag(value), offset + size));
      case Incomplete => r := Err(Truncated);
      case Malformed => r := Err(BadVarInt);
    }
  }

  /** Reads `count` signed numbers and keeps them as unsigned ids. */
  method ReadPalette(payload: seq<Byte>, start: nat, count: nat)
        returns (palette: seq<U32>, r: Result<nat, SubchunkError>)
    requires start <= |payload|
    ensures r == PaletteEnd(payload, start, count)
    ensures r.Ok? ==> palette == PaletteIds(payload, start, count)
  {
    hide ReadSigned;
    palette := [];
    var offset: nat := start;
    var k := 0;
    while k < count
      invariant k <= count && offset <= |payload|
      invariant PaletteEnd(payload, start, count) == PaletteEnd(payload, offset, count - k)
      invariant PaletteEnd(payload, start, count).Ok? ==>
                  PaletteIds(payload, start, count) == palette + PaletteIds(payload, offset, count - k)
    {
      var token := ReadSignedVarInt(payload, offset);
      if token.Err? {
        return palette, Err(token.error);
      }
      palette := palette + [ToU32(token.value.value)];
      offset := token.value.next;
      k := k + 1;
    }
    return palette, Ok(offset);
  }

  /** Fills the 4096 blocks, or stops at the first index outside the palette. */
  method UnpackBlocks(payload: seq<Byte>, start: nat, bits: nat, palette: seq<U32>)
        returns (r: Result<seq<U32>, SubchunkError>)
    requires HoldsWords(payload, start, bits, BLOCKS)
    ensures r.Ok? <==> IndicesInPalette(payload, start, bits, |palette|)
    ensures r.Err? ==> r.error == BadIndex
    ensures r.Ok? ==> |r.value| == BLOCKS && forall i :: 0 <= i < BLOCKS ==>
              r.value[i] == palette[IndexAt(payload, start, bits, BLOCKS, i)]
  {
    hide IndexAt;
    var output := new U32[BLOCKS];
    for i := 0 to BLOCKS
      invariant forall k :: 0 <= k < i ==>
                  && IndexAt(payload, start, bits, BLOCKS, k) < |palette|
                  && output[k] == palette[IndexAt(payload, start, bits, BLOCKS, k)]
    {
      var index := IndexAt(payload, start, bits, BLOCKS, i);
      if index >= |palette| {
        return Err(BadIndex);
      }
      output[i] := palette[index];
    }
    return Ok(output[..]);
  }

  method ReadPackedStorage(payload: seq<Byte>, start: nat, bits: nat)
        returns (blocks: seq<U32>, r: Result<nat, SubchunkError>)
    requires HoldsWords(payload, start, bits, BLOCKS)
    ensures r == PackedEnd(payload, start, bits)
    ensures r.Ok? ==> blocks == PackedBlocks(payload, start, bits)
  {
    hide IndexAt, ReadSigned, PaletteEnd, PaletteIds;
    blocks := [];
    var offset := start + 4 * WordCount(bits, BLOCKS);
    var size := ReadSignedVarInt(payload, offset);
    if size.Err? {
      return blocks, Err(size.error);
    }
    var count := size.value.value;
    if count < 1 || count > 65536 {
      return blocks, Err(BadPalette);
    }
    var palette, end := ReadPalette(payload, size.value.next, count);
    if end.Err? {
      return blocks, end;
    }
    var output := UnpackBlocks(payload, start, bits, palette);
    if output.Err? {
      return blocks, Err(output.error);
    }
    return output.value, end;
  }

  method ReadStorage(payload: seq<Byte>, start: nat) returns (blocks: seq<U32>, r: Result<nat, SubchunkError>)
    ensures r == LayerEnd(payload, start)
    ensures r.Ok? ==> blocks == LayerBlocks(payload, start)
  {
    hide PackedEnd, PackedBlocks, ReadSigned;
    blocks := [];
    if start >= |payload| {
      return blocks, Err(Truncated);
    }
    var header := payload[start];
    var bits := header / 2;
    if header % 2 == 0 || !IsWidth(bits) {
      return blocks, Err(UnsupportedStorage);
    }
    if bits == 0 {
      var runtime := ReadSignedVarInt(payload, start + 1);
      if runtime.Err? {
        return blocks, Err(runtime.error);
      }
      return seq(BLOCKS, _ => ToU32(runtime.value.value)), Ok(runtime.value.next);
    }
    if start + 1 + 4 * WordCount(bits, BLOCKS) > |payload| {
      return blocks, Err(Truncated);
    }
    blocks, r := ReadPackedStorage(payload, start + 1, bits);
  }

  /** `readSubchunk` */
  method ReadSubchunk(payload: seq<Byte>) returns (r: Result<Decoded, SubchunkError>)
    ensures r == Decode(payload)
  {
    hide LayerEnd, LayerBlocks;
    if |payload| < 1 {
      return Err(Truncated);
    }
    var version := payload[0];
    if version != 8 && version != 9 {
      return Err(UnsupportedSubchunk);
    }
    if |payload| < 2 {
      return Err(Truncated);
    }
    var layers := payload[1];
    var offset: nat, y := 2, None;
    if version == 9 {
      if |payload| < 3 {
        return Err(Truncated);
      }
      offset, y := 3, Some(SignedByte(payload[2]));
    }
    if layers > 2 {
      return Err(BadStorageCount);
    }
    ghost var start := offset;
    var blocks := [];
    for layer := 0 to layers
      invariant offset <= |payload|
      invariant LayersEnd(payload, start, layers) == LayersEnd(payload, offset, layers - layer)
      invariant layer == 0 ==> offset == start && blocks == []
      invariant layer > 0 ==> LayerEnd(payload, start).Ok? && blocks == LayerBlocks(payload, start)
    {
      var output, end := ReadStorage(payload, offset);
      if end.Err? {
        return Err(end.error);
      }
      offset := end.value;
      if layer == 0 {
        blocks := output;
      }
    }
    return Ok(Decoded(blocks, offset, y));
  }

  /** The decoding loop of `onLevelChunk`. */
  method ReadSubchunks(payload: seq<Byte>, count: nat) returns (r: Result<seq<Decoded>, SubchunkError>)
    ensures r == DecodeMany(payload, 0, count)
  {
    hide Decode;
    var offset: nat := 0;
    var decoded: seq<Decoded> := [];
    var i := 0;
    PrependTwice([], [], DecodeMany(payload, 0, count));
    while i < count
      invariant i <= count && offset <= |payload|
      invariant DecodeMany(payload, 0, count) == Prepend(decoded, DecodeMany(payload, offset, count - i))
    {
      var section := ReadSubchunk(payload[offset..]);
      if section.Err? {
        return Err(section.error);
      }
      PrependTwice(decoded, [section.value], DecodeMany(payload, offset + section.value.consumed, count - i - 1));
      decoded := decoded + [section.value];
      offset := offset + section.value.consumed;
      i := i + 1;
    }
    assert decoded + [] == decoded;
    return Ok(decoded);
  }
}
