/** LEB128-style variable length integers, as the Minecraft status ping, the Bedrock
    batch framing and the Bedrock subchunk codec read them.

    Bit operators of the source appear arithmetically: `b & 127` is `b % 128`, a left shift
    by 7*i multiplies by 128^i, and `|` of disjoint bit ranges is `+`. Every 32-bit
    truncation is written out. */
module VarInt {

  type Byte = b: int | 0 <= b < 256

  const U32_SIZE := 0x1_0000_0000

  type U32 = n: int | 0 <= n < 0x1_0000_0000
  type I32 = n: int | -0x8000_0000 <= n < 0x8000_0000

  /** The signed 32-bit integer that `n` wraps around to. */
  function ToI32(n: int): I32 {
    var m := n % U32_SIZE;
    if m < 0x8000_0000 then m else m - U32_SIZE
  }

  /** The unsigned 32-bit integer that `n` wraps around to. */
  function ToU32(n: int): U32 {
    n % U32_SIZE
  }

  lemma SignRoundTrip(n: int)
    ensures -0x8000_0000 <= n < 0x8000_0000 ==> ToI32(ToU32(n)) == n
    ensures 0 <= n < U32_SIZE ==> ToU32(ToI32(n)) == n
    ensures ToI32(ToU32(n)) == ToI32(n) && ToU32(ToI32(n)) == ToU32(n)
  {
  }

  /** Truncating before an addition changes nothing. */
  lemma TruncateSum(m: int, n: int)
    ensures ToI32(ToI32(m) + n) == ToI32(m + n)
  {
    var q := (m - ToI32(m)) / U32_SIZE;
    assert m == ToI32(m) + q * U32_SIZE;
    Periodic(ToI32(m) + n, q);
  }

  lemma Periodic(x: int, q: int)
    ensures (x + q * U32_SIZE) % U32_SIZE == x % U32_SIZE
  {
  }

  /** The outcome of reading one integer: its value and length, a buffer that ends inside
      it, or bytes that are no 32-bit integer. */
  datatype Scan = Value(value: int, size: nat) | Incomplete | Malformed

  function Pow128(i: nat): (p: nat)
    ensures p > 0
  {
    if i == 0 then 1 else 128 * Pow128(i - 1)
  }

  lemma PowersOf128()
    ensures Pow128(0) == 1 && Pow128(1) == 128 && Pow128(2) == 16384
    ensures Pow128(3) == 2097152 && Pow128(4) == 268435456 && Pow128(5) == 34359738368
  {
    assert Pow128(1) == 128 * Pow128(0);
    assert Pow128(2) == 128 * Pow128(1);
    assert Pow128(3) == 128 * Pow128(2);
    assert Pow128(4) == 128 * Pow128(3);
    assert Pow128(5) == 128 * Pow128(4);
  }

  /** The canonical (shortest) encoding of `v`. */
  function Encode(v: nat): (s: seq<Byte>)
    ensures |s| >= 1
  {
    if v < 128 then [v] else [128 + v % 128] + Encode(v / 128)
  }

  // ---------------------------------------------------------------- readers

  /** The strict reader from its `index`-th byte on: at most five bytes, and the fifth may
      carry only the four bits that still fit into 32. */
  function StrictAt(b: seq<Byte>, offset: nat, index: nat): (r: Scan)
    requires index <= 5
    ensures r.Value? ==> index < r.size <= 5 && offset + r.size <= |b|
    decreases 5 - index
  {
    if index == 5 then Malformed
    else if offset + index >= |b| then Incomplete
    else
      var byte := b[offset + index];
      if index == 4 && byte >= 16 then Malformed
      else if byte < 128 then Value(byte * Pow128(index), index + 1)
      else match StrictAt(b, offset, index + 1)
           case Value(v, size) => Value(byte % 128 * Pow128(index) + v, size)
           case other => other
  }

  /** The strict reader at `offset`. */
  function Strict(b: seq<Byte>, offset: nat): (r: Scan)
    ensures r.Value? ==> 0 < r.size <= 5 && offset + r.size <= |b|
  {
    StrictAt(b, offset, 0)
  }

  /** The status-ping reader: bits beyond the 32nd of a fifth byte fall off. */
  function LenientAt(b: seq<Byte>, offset: nat, index: nat): (r: Scan)
    requires index <= 5
    ensures r.Value? ==> index < r.size <= 5 && offset + r.size <= |b|
    decreases 5 - index
  {
    if index == 5 then Malformed
    else if offset + index >= |b| then Incomplete
    else
      var byte := b[offset + index];
      var bits := byte % 128 * Pow128(index);
      if byte < 128 then Value(bits, index + 1)
      else match LenientAt(b, offset, index + 1)
           case Value(v, size) => Value(bits + v, size)
           case other => other
  }

  function Lenient(b: seq<Byte>, offset: nat): Scan {
    match LenientAt(b, offset, 0)
    case Value(v, size) => Value(ToI32(v), size)
    case other => other
  }

  // ---------------------------------------------------------------- theorems

  /** `s` stands in `b` at `offset`. */
  ghost predicate At(b: seq<Byte>, offset: nat, s: seq<Byte>) {
    && offset + |s| <= |b|
    && forall k :: 0 <= k < |s| ==> b[offset + k] == s[k]
  }

  lemma AtBounds(b: seq<Byte>, offset: nat, s: seq<Byte>)
    requires At(b, offset, s)
    ensures offset + |s| <= |b|
  {
  }

  lemma AtSum(b: seq<Byte>, offset: nat, s: seq<Byte>, t: seq<Byte>)
    ensures At(b, offset, s + t) <==> At(b, offset, s) && At(b, offset + |s|, t)
  {
    if At(b, offset, s + t) {
      forall k | 0 <= k < |t| ensures b[offset + |s| + k] == t[k] {
        assert (s + t)[|s| + k] == t[k];
      }
      forall k | 0 <= k < |s| ensures b[offset + k] == s[k] {
        assert (s + t)[k] == s[k];
      }
    }
    if At(b, offset, s) && At(b, offset + |s|, t) {
      forall k | 0 <= k < |s + t| ensures b[offset + k] == (s + t)[k] {
        assert k >= |s| ==> b[offset + |s| + (k - |s|)] == t[k - |s|];
      }
    }
  }

  /** Before the fifth byte, and behind a continuation bit, both readers go on. */
  lemma ReadersGoOn(b: seq<Byte>, offset: nat, index: nat)
    requires index < 4 && offset + index < |b| && b[offset + index] >= 128
    ensures var (strict, lenient) := (StrictAt(b, offset, index + 1), LenientAt(b, offset, index + 1));
            && StrictAt(b, offset, index) == More(b[offset + index] % 128 * Pow128(index), strict)
            && LenientAt(b, offset, index) == More(b[offset + index] % 128 * Pow128(index), lenient)
  {
    hide Pow128;
  }

  function More(low: nat, rest: Scan): Scan {
    if rest.Value? then Value(low + rest.value, rest.size) else rest
  }

  /** Elsewhere both readers end. */
  lemma ReadersEnd(b: seq<Byte>, offset: nat, index: nat)
    requires index <= 4 && (offset + index >= |b| || b[offset + index] < 128 || index == 4)
    ensures (
      var (strict, lenient) := (StrictAt(b, offset, index), LenientAt(b, offset, index));
      if offset + index >= |b| then strict == lenient == Incomplete
      else if b[offset + index] >= 128 then strict == lenient == Malformed
      else && lenient == Value(b[offset + index] * Pow128(index), index + 1)
           && strict == if index == 4 && b[offset + index] >= 16 then Malformed else lenient
    )
  {
    hide Pow128;
    if index == 4 {
      assert StrictAt(b, offset, 5) == LenientAt(b, offset, 5) == Malformed;
    }
  }

  /** A strict reader that has `index` bytes behind it and meets the canonical encoding of a
      value that still fits reads that value, whatever precedes and follows. */
  lemma {:induction false} StrictReadsEncoding(b: seq<Byte>, offset: nat, index: nat, v: nat)
    requires index <= 4
    requires v * Pow128(index) < U32_SIZE
    requires At(b, offset + index, Encode(v))
    ensures StrictAt(b, offset, index) == Value(v * Pow128(index), index + |Encode(v)|)
    decreases v
  {
    hide Pow128, StrictAt;
    assert b[offset + index] == Encode(v)[0];
    FifthByte(index, v);
    if v >= 128 {
      AtSum(b, offset + index, [128 + v % 128], Encode(v / 128));
      Split(v, Pow128(index));
      NextPower(index);
      StrictReadsEncoding(b, offset, index + 1, v / 128);
      ReadersGoOn(b, offset, index);
    } else {
      ReadersEnd(b, offset, index);
    }
  }

  lemma FifthByte(index: nat, v: nat)
    requires index <= 4 && v * Pow128(index) < U32_SIZE
    ensures index == 4 ==> v < 16
  {
    PowersOf128();
  }

  lemma NextPower(index: nat)
    ensures Pow128(index + 1) == 128 * Pow128(index)
  {
  }

  lemma Split(v: nat, p: nat)
    ensures v * p == v % 128 * p + v / 128 * (128 * p)
  {
    assert v == v % 128 + 128 * (v / 128);
    assert v * p == (v % 128 + 128 * (v / 128)) * p == v % 128 * p + 128 * (v / 128) * p;
    assert 128 * (v / 128) * p == v / 128 * (128 * p);
  }

  /** Reading inverts encoding for every 32-bit value, at any place of any buffer. */
  lemma StrictInvertsEncode(before: seq<Byte>, v: U32, after: seq<Byte>)
    ensures Strict(before + Encode(v) + after, |before|) == Value(v, |Encode(v)|)
  {
    hide StrictAt, Encode;
    StrictReadsEncoding(before + Encode(v) + after, |before|, 0, v);
  }

  /** The two readers differ in exactly one way: the lenient one also takes a terminating
      fifth byte with bits the strict one refuses. */
  lemma {:induction false} ReadersAgreeAt(b: seq<Byte>, offset: nat, index: nat)
    requires index <= 4
    ensures StrictAt(b, offset, index) == Incomplete <==> LenientAt(b, offset, index) == Incomplete
    ensures StrictAt(b, offset, index).Value? ==> LenientAt(b, offset, index) == StrictAt(b, offset, index)
    ensures StrictAt(b, offset, index).Value? <==>
              && LenientAt(b, offset, index).Value?
              && (LenientAt(b, offset, index).size == 5 ==> b[offset + 4] < 16)
    decreases 5 - index
  {
    hide StrictAt, LenientAt, Pow128;
    if index < 4 && offset + index < |b| && b[offset + index] >= 128 {
      ReadersGoOn(b, offset, index);
      ReadersAgreeAt(b, offset, index + 1);
    } else {
      ReadersEnd(b, offset, index);
    }
  }

  /** Both readers agree modulo 2^32, and fail alike on a buffer that ends early. */
  lemma ReadersAgree(b: seq<Byte>, offset: nat)
    ensures Strict(b, offset).Value? <==>
              Lenient(b, offset).Value? && (Lenient(b, offset).size == 5 ==> b[offset + 4] < 16)
    ensures Strict(b, offset).Value? ==>
              && Lenient(b, offset).size == Strict(b, offset).size
              && Lenient(b, offset).value == ToI32(Strict(b, offset).value)
              && ToU32(Lenient(b, offset).value) == Strict(b, offset).value
    ensures Strict(b, offset) == Incomplete <==> Lenient(b, offset) == Incomplete
  {
    ReadersAgreeAt(b, offset, 0);
    if Strict(b, offset).Value? {
      StrictIsU32(b, offset);
      SignRoundTrip(Strict(b, offset).value);
    }
  }

  /** A value the strict reader accepts is a 32-bit value. */
  lemma {:induction false} StrictFits(b: seq<Byte>, offset: nat, index: nat)
    requires index <= 4
    ensures StrictAt(b, offset, index).Value? ==>
              0 <= StrictAt(b, offset, index).value <= U32_SIZE - Pow128(index)
    decreases 5 - index
  {
    PowersOf128();
    if index < 4 && offset + index < |b| && b[offset + index] >= 128 {
      StrictFits(b, offset, index + 1);
    }
  }

  lemma StrictIsU32(b: seq<Byte>, offset: nat)
    ensures Strict(b, offset).Value? ==> 0 <= Strict(b, offset).value < U32_SIZE
  {
    StrictFits(b, offset, 0);
    assert Pow128(0) == 1;
  }

  /** Reading inverts writing for every signed 32-bit value. */
  lemma LenientInvertsEncode(v: I32, after: seq<Byte>)
    ensures Lenient(Encode(ToU32(v)) + after, 0) == Value(v, |Encode(ToU32(v))|)
  {
    StrictInvertsEncode([], ToU32(v), after);
    assert [] + Encode(ToU32(v)) + after == Encode(ToU32(v)) + after;
    ReadersAgree(Encode(ToU32(v)) + after, 0);
    SignRoundTrip(v);
  }

  /** Every byte of an encoding but the last announces another one. */
  lemma {:induction false} ContinuationBits(v: nat, k: nat)
    requires k < |Encode(v)| - 1
    ensures Encode(v)[k] >= 128
  {
    if k > 0 {
      assert Encode(v)[k] == Encode(v / 128)[k - 1];
      ContinuationBits(v / 128, k - 1);
    }
  }

  lemma {:induction false} EncodingLength(v: nat, n: nat)
    requires v < Pow128(n) && n >= 1
    ensures |Encode(v)| <= n
    decreases n
  {
    if v >= 128 {
      assert Pow128(n) == 128 * Pow128(n - 1);
      assert Pow128(0) == 1;
      assert n >= 2;
      EncodingLength(v / 128, n - 1);
    }
  }

  /** Every strict prefix of an encoding reads as incomplete. */
  lemma PrefixIsIncomplete(v: U32, k: nat)
    requires k < |Encode(v)|
    ensures Strict(Encode(v)[..k], 0) == Incomplete == Lenient(Encode(v)[..k], 0)
  {
    PowersOf128();
    EncodingLength(v, 5);
    forall j | 0 <= j < k ensures Encode(v)[..k][j] >= 128 {
      ContinuationBits(v, j);
    }
    AllContinuing(Encode(v)[..k], 0);
    ReadersAgree(Encode(v)[..k], 0);
  }

  lemma {:induction false} AllContinuing(b: seq<Byte>, index: nat)
    requires |b| <= 4 && index <= |b|
    requires forall j :: 0 <= j < |b| ==> b[j] >= 128
    ensures StrictAt(b, 0, index) == Incomplete
    decreases 5 - index
  {
    if index < |b| {
      AllContinuing(b, index + 1);
    }
  }

  /** A read looks at nothing behind its own bytes. */
  lemma {:induction false} StrictIsLocal(b: seq<Byte>, c: seq<Byte>, offset: nat, shift: nat, index: nat)
    requires index <= 5
    requires StrictAt(b, offset, index).Value?
    requires shift + offset + StrictAt(b, offset, index).size <= |c|
    requires forall j :: offset <= j < offset + StrictAt(b, offset, index).size ==> c[shift + j] == b[j]
    ensures StrictAt(c, shift + offset, index) == StrictAt(b, offset, index)
    decreases 5 - index
  {
    assert c[shift + (offset + index)] == b[offset + index];
    if b[offset + index] >= 128 {
      StrictIsLocal(b, c, offset, shift, index + 1);
    }
  }

  // ---------------------------------------------------------------- the loops of the source

  /** `unsignedVarint` */
  method UnsignedVarint(buffer: seq<Byte>, offset: nat) returns (r: Scan)
    ensures r == Strict(buffer, offset)
  {
    hide Pow128;
    var value := 0;
    for index := 0 to 5
      invariant 0 <= value
      invariant Strict(buffer, offset) ==
                match StrictAt(buffer, offset, index)
                case Value(v, size) => Value(value + v, size)
                case other => other
    {
      if offset + index >= |buffer| {
        return Incomplete;
      }
      var byte := buffer[offset + index];
      if index == 4 && byte >= 16 {
        return Malformed;
      }
      value := value + byte % 128 * Pow128(index);
      if byte < 128 {
        return Value(value, index + 1);
      }
    }
    return Malformed;
  }

  /** `readVarInt`: `Incomplete` is its null, `Malformed` its exception. */
  method ReadVarInt(buffer: seq<Byte>, offset: nat) returns (r: Scan)
    ensures r == Lenient(buffer, offset)
  {
    var value: int := 0;
    ghost var exact := 0;
    for i := 0 to 5
      invariant value == ToI32(exact)
      invariant LenientAt(buffer, offset, 0) ==
                match LenientAt(buffer, offset, i)
                case Value(v, size) => Value(exact + v, size)
                case other => other
    {
      if offset + i >= |buffer| {
        return Incomplete;
      }
      var byte := buffer[offset + i];
      TruncateSum(exact, byte % 128 * Pow128(i));
      exact := exact + byte % 128 * Pow128(i);
      value := ToI32(value + byte % 128 * Pow128(i));
      if byte < 128 {
        return Value(value, i + 1);
      }
    }
    return Malformed;
  }

  /** `varInt`, a do-while over the unsigned reading of the argument */
  method WriteVarInt(value: I32) returns (bytes: seq<Byte>)
    ensures bytes == Encode(ToU32(value))
  {
    bytes := [];
    var remaining: int := ToU32(value);
    while true
      invariant 0 <= remaining
      invariant Encode(ToU32(value)) == bytes + Encode(remaining)
      decreases remaining
    {
      var byte := remaining % 128;
      remaining := remaining / 128;
      if remaining != 0 {
        byte := byte + 128;
      }
      bytes := bytes + [byte];
      if remaining == 0 {
        break;
      }
    }
  }
}
