/** Reading values of any width up to 32 bits from a packed byte array. */
module BitReaders {
  import opened Machine
  import opened Bits

  /** Byte j after the one where the value starts; addresses are 32 bits wide. */
  function ByteAt(b: nat -> byte, start: nat, j: nat): (x: nat)
    ensures x < 0x100
  {
    b(U32(start + j)) as nat
  }

  /** Bit q counted from the first bit of byte start, most significant first. */
  function BitAt(b: nat -> byte, start: nat, q: nat): (x: nat)
    ensures x < 2
  {
    Shr(ByteAt(b, start, q / 8), 7 - q % 8) % 2
  }

  /** The n bits from bit q on, as a number. */
  ghost function Field(b: nat -> byte, start: nat, q: nat, n: nat): nat {
    if n == 0 then 0 else 2 * Field(b, start, q, n - 1) + BitAt(b, start, q + n - 1)
  }

  /** The value of the given index: the bits of its place in the array. */
  ghost function Value(b: nat -> byte, width: nat, index: nat): nat {
    Field(b, U32(width * index / 8), width * index % 8, width)
  }

  // ----- the value in terms of the bytes alone -----

  lemma {:induction false} BitOfField(b: nat -> byte, start: nat, q: nat, n: nat, i: nat)
    requires i < n
    ensures Shr(Field(b, start, q, n), n - 1 - i) % 2 == BitAt(b, start, q + i)
    decreases n
  {
    var x, y := Field(b, start, q, n), Field(b, start, q, n - 1);
    FieldEnd(b, start, q, n, x, y);
    if i == n - 1 {
      assert Shr(x, 0) == x;
    } else {
      BitOfField(b, start, q, n - 1, i);
      ShrHead(x, n - 1 - i);
    }
  }

  lemma {:induction false} FieldEnd(b: nat -> byte, start: nat, q: nat, n: nat, x: nat, y: nat)
    requires n > 0 && x == Field(b, start, q, n) && y == Field(b, start, q, n - 1)
    ensures x / 2 == y && x % 2 == BitAt(b, start, q + n - 1)
  {
  }

  lemma {:induction false} WrapTwice(x: nat, j: nat)
    ensures U32(U32(x) + j) == U32(x + j)
  {
  }

  /** Where bit q + i counted from the first byte stands in the whole array. */
  lemma {:induction false} BitPlace(b: nat -> byte, first: nat, i: nat, p: nat)
    requires p == first + i
    ensures BitAt(b, U32(first / 8), first % 8 + i) == b(U32(p / 8)) as nat / Pow2(7 - p % 8) % 2
  {
    var q := first % 8 + i;
    WrapTwice(first / 8, q / 8);
    assert first / 8 + q / 8 == p / 8 && q % 8 == p % 8;
    ShrIs(b(U32(p / 8)) as nat, 7 - p % 8);
  }

  /**
   * Bit i of a value, the first one being the most significant, is bit p of the whole array, again from the most
   * significant bit of each byte on; p counts all bits of the values before it, and byte addresses have 32 bits.
   */
  lemma {:induction false} BitsOfValue(b: nat -> byte, width: nat, index: nat, i: nat, p: nat)
    requires i < width && p == width * index + i
    ensures Value(b, width, index) / Pow2(width - 1 - i) % 2 == b(U32(p / 8)) as nat / Pow2(7 - p % 8) % 2
  {
    ValueAt(b, width, index, p - i);
    FieldBits(b, p - i, width, i, p);
  }

  lemma {:induction false} ValueAt(b: nat -> byte, width: nat, index: nat, first: nat)
    requires first == width * index
    ensures Value(b, width, index) == Field(b, U32(first / 8), first % 8, width)
  {
  }

  lemma {:induction false} FieldBits(b: nat -> byte, first: nat, width: nat, i: nat, p: nat)
    requires i < width && p == first + i
    ensures Field(b, U32(first / 8), first % 8, width) / Pow2(width - 1 - i) % 2
         == b(U32(p / 8)) as nat / Pow2(7 - p % 8) % 2
  {
    BitOfField(b, U32(first / 8), first % 8, width, i);
    ShrIs(Field(b, U32(first / 8), first % 8, width), width - 1 - i);
    BitPlace(b, first, i, p);
  }

  /** The number whose n bytes stand from the given address on, the most significant first. */
  ghost function BigEndian(b: nat -> byte, at: nat, n: nat): nat {
    if n == 0 then 0 else 0x100 * BigEndian(b, at, n - 1) + b(U32(at + n - 1)) as nat
  }

  lemma {:induction false} OneMoreByte(b: nat -> byte, start: nat, m: nat, j: nat)
    requires m == 8 * j + 8
    ensures Field(b, start, 0, m) == 0x100 * Field(b, start, 0, m - 8) + ByteAt(b, start, j)
  {
    FieldAndByte(b, start, 0, m - 8, j);
    EightBits(Field(b, start, 0, m - 8));
  }

  lemma {:induction false} ByteThere(b: nat -> byte, start: nat, at: nat, j: nat)
    requires start == U32(at)
    ensures ByteAt(b, start, j) == b(U32(at + j)) as nat
  {
    WrapTwice(at, j);
  }

  lemma {:induction false} WholeBytes(b: nat -> byte, start: nat, at: nat, n: nat, m: nat)
    requires start == U32(at) && m == 8 * n
    ensures Field(b, start, 0, m) == BigEndian(b, at, n)
    decreases n
  {
    if n > 0 {
      WholeBytes(b, start, at, n - 1, m - 8);
      OneMoreByte(b, start, m, n - 1);
      ByteThere(b, start, at, n - 1);
    }
  }

  /** A value that fills n bytes is what these bytes spell, most significant first. */
  lemma {:induction false} ValueOfBytes(b: nat -> byte, n: nat, index: nat)
    ensures Value(b, 8 * n, index) == BigEndian(b, n * index, n)
  {
    assert 8 * n * index == 8 * (n * index);
    Eighth(n * index);
    WholeBytes(b, U32(n * index), n * index, n, 8 * n);
    assert Value(b, 8 * n, index) == Field(b, U32(8 * n * index / 8), 8 * n * index % 8, 8 * n);
  }

  lemma {:induction false} Eighth(x: nat)
    ensures 8 * x / 8 == x && 8 * x % 8 == 0
  {
  }

  /** Values of one byte and of two bytes. */
  lemma {:induction false} ValueOfOneOrTwo(b: nat -> byte, index: nat)
    ensures Value(b, 8, index) == b(U32(index)) as nat
    ensures Value(b, 16, index) == 0x100 * b(U32(2 * index)) as nat + b(U32(2 * index + 1)) as nat
  {
    ValueOfBytes(b, 1, index);
    ValueOfBytes(b, 2, index);
    assert BigEndian(b, 2 * index, 1) == b(U32(2 * index)) as nat;
  }

  /** It has no more bits than its width. */
  lemma {:induction false} FieldFits(b: nat -> byte, start: nat, q: nat, n: nat)
    ensures Shr(Field(b, start, q, n), n) == 0
    decreases n
  {
    if n > 0 {
      FieldFits(b, start, q, n - 1);
      ShrHead(Field(b, start, q, n), n);
    }
  }

  // ----- the reference: one bit at a time -----

  method ReadBitByBit(b: nat -> byte, width: nat, index: nat) returns (r: nat)
    requires width <= 32 && index < TWO_32
    ensures r == Value(b, width, index)
  {
    var start, q := U32(width * index / 8), U32(width * index) % 8;
    PlaceInByte(width * index);
    r := 0;
    var i := 0;
    while i < width
      invariant 0 <= i <= width && r == Field(b, start, q, i)
    {
      NextBit(b, start, q, i);
      r := Or(Shl(r, 1), BitAt(b, start, q + i));
      i := i + 1;
    }
  }

  lemma {:induction false} OrBit(r: nat, bit: nat)
    requires bit < 2
    ensures Or(Shl(r, 1), bit) == 2 * r + bit
  {
    assert Shr(bit, 0) == bit && Shl(r, 0) == r;
    OrIsSum(r, bit, 1);
  }

  lemma {:induction false} NextBit(b: nat -> byte, start: nat, q: nat, i: nat)
    ensures Or(Shl(Field(b, start, q, i), 1), BitAt(b, start, q + i)) == Field(b, start, q, i + 1)
  {
    OrBit(Field(b, start, q, i), BitAt(b, start, q + i));
  }

  lemma {:induction false} PlaceInByte(x: nat)
    ensures U32(x) % 8 == x % 8
  {
  }

  // ----- fields and bytes -----

  lemma {:induction false} FieldJoin(b: nat -> byte, start: nat, q: nat, m: nat, n: nat)
    ensures Field(b, start, q, m + n) == Shl(Field(b, start, q, m), n) + Field(b, start, q + m, n)
    decreases n
  {
    if n > 0 {
      FieldJoin(b, start, q, m, n - 1);
    }
  }

  /** The last n bits of a shifted byte are the field that ends there. */
  lemma {:induction false} FieldInByte(b: nat -> byte, start: nat, q: nat, n: nat)
    requires q % 8 + n <= 8
    ensures Field(b, start, q, n) == Low(Shr(ByteAt(b, start, q / 8), 8 - q % 8 - n), n)
    decreases n
  {
    if n > 0 {
      FieldInByte(b, start, q, n - 1);
      assert (q + n - 1) / 8 == q / 8 && 7 - (q + n - 1) % 8 == 8 - q % 8 - n;
    }
  }

  /** The first n bits of a byte. */
  lemma {:induction false} FieldFromByte(b: nat -> byte, start: nat, j: nat, n: nat)
    requires n <= 8
    ensures Field(b, start, 8 * j, n) == Shr(ByteAt(b, start, j), 8 - n)
  {
    FieldInByte(b, start, 8 * j, n);
    TopBits(ByteAt(b, start, j), n);
  }

  // ----- the reader: one byte at a time -----

  /** The bits read so far, with room for the i bits still to come. */
  ghost predicate Partial(b: nat -> byte, start: nat, q: nat, width: nat, i: int, r: nat) {
    i <= width && r == if i > 0 then Shl(Field(b, start, q, width - i), i) else Field(b, start, q, width)
  }

  /** A value within one byte. */
  lemma {:induction false} WithinByte(b: nat -> byte, start: nat, q: nat, width: nat)
    requires q < 8 && q + width <= 8
    ensures Low(Shr(ByteAt(b, start, 0), 8 - q - width), width) == Field(b, start, q, width)
  {
    FieldInByte(b, start, q, width);
  }

  /** The end of the first byte. */
  lemma {:induction false} FirstByte(b: nat -> byte, start: nat, q: nat, width: nat)
    requires q < 8 < q + width
    ensures Partial(b, start, q, width, q + width - 8, Or(0, Shl(Low(ByteAt(b, start, 0), 8 - q), q + width - 8)))
  {
    FieldInByte(b, start, q, 8 - q);
    assert Shr(ByteAt(b, start, 0), 0) == ByteAt(b, start, 0);
  }

  /** For every width and index the byte-wise reader returns the value of the bit-wise one. */
  method ReadByteByByte(b: nat -> byte, width: nat, index: nat) returns (r: nat)
    requires width <= 32 && index < TWO_32
    ensures r == Value(b, width, index)
  {
    var start := U32(width * index / 8);
    var bitsLeft := 8 - U32(width * index) % 8;
    PlaceInByte(width * index);
    ghost var q := 8 - bitsLeft;
    if bitsLeft >= width {
      WithinByte(b, start, q, width);
      r := Low(Shr(ByteAt(b, start, 0), bitsLeft - width), width);
    } else {
      FirstByte(b, start, q, width);
      var i: int := width - bitsLeft;
      r := Or(0, Shl(Low(ByteAt(b, start, 0), bitsLeft), i));
      var j := 0;
      while i > 0
        invariant Partial(b, start, q, width, i, r)
        invariant i > 0 ==> q + width - i == 8 * (j + 1)
        decreases i
      {
        j := j + 1;
        if i < 8 {
          TailJoin(b, start, q, width, i, j, r);
          r := Or(r, Shr(ByteAt(b, start, j), 8 - i));
        } else {
          ByteJoin(b, start, q, width, i, j, r);
          r := Or(r, Shl(ByteAt(b, start, j), i - 8));
        }
        i := i - 8;
      }
    }
  }

  /** The bits up to a byte's start, and the first n bits of the byte. */
  lemma {:induction false} FieldAndTop(b: nat -> byte, start: nat, q: nat, m: nat, j: nat, n: nat)
    requires q + m == 8 * j && n <= 8
    ensures Field(b, start, q, m + n) == Shl(Field(b, start, q, m), n) + Shr(ByteAt(b, start, j), 8 - n)
    ensures Shr(Shr(ByteAt(b, start, j), 8 - n), n) == 0
  {
    FieldJoin(b, start, q, m, n);
    FieldFromByte(b, start, j, n);
    FieldFits(b, start, 8 * j, n);
  }

  /** The last bits come from the top of the next byte. */
  lemma {:induction false} TailJoin(b: nat -> byte, start: nat, q: nat, width: nat, i: nat, j: nat, r: nat)
    requires 0 < i < 8 && Partial(b, start, q, width, i, r) && q + width - i == 8 * j
    ensures Partial(b, start, q, width, i - 8, Or(r, Shr(ByteAt(b, start, j), 8 - i)))
  {
    FieldAndTop(b, start, q, width - i, j, i);
    OrIsSum(Field(b, start, q, width - i), Shr(ByteAt(b, start, j), 8 - i), i);
  }

  lemma {:induction false} FieldAndByte(b: nat -> byte, start: nat, q: nat, m: nat, j: nat)
    requires q + m == 8 * j
    ensures Field(b, start, q, m + 8) == Shl(Field(b, start, q, m), 8) + ByteAt(b, start, j)
  {
    FieldAndTop(b, start, q, m, j, 8);
    assert Shr(ByteAt(b, start, j), 0) == ByteAt(b, start, j);
  }

  /** A whole byte moves in below the bits read so far. */
  lemma {:induction false} ByteJoin(b: nat -> byte, start: nat, q: nat, width: nat, i: nat, j: nat, r: nat)
    requires 8 <= i && Partial(b, start, q, width, i, r) && q + width - i == 8 * j
    ensures Partial(b, start, q, width, i - 8, Or(r, Shl(ByteAt(b, start, j), i - 8)))
  {
    var m, k, y := width - i, i - 8, ByteAt(b, start, j);
    var x := Field(b, start, q, m);
    FieldAndByte(b, start, q, m, j);
    PushByte(x, y, k);
    assert r == Shl(x, 8 + k);
    if k == 0 {
      assert Shl(Shl(x, 8) + y, 0) == Shl(x, 8) + y;
    }
  }
}
