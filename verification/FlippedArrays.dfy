/** Packed arrays of 24-bit elements, in which every second element is stored flipped. */
module FlippedArrays {
  import opened Bits

  ghost predicate InRange(bytes: seq<byte>, i: nat) {
    3 * i + 3 <= |bytes|
  }

  /** A 16-bit little-endian load. */
  function Load16(bytes: seq<byte>, at: nat): (v: nat)
    requires at + 2 <= |bytes|
    ensures v < 0x1_0000
  {
    bytes[at] as nat + 0x100 * bytes[at + 1] as nat
  }

  /** The value of element i: even elements are stored low word first, odd ones high byte first. */
  ghost function Element(bytes: seq<byte>, i: nat): nat
    requires InRange(bytes, i)
  {
    if i % 2 == 0 then bytes[3 * i] as nat + 0x100 * bytes[3 * i + 1] as nat + 0x1_0000 * bytes[3 * i + 2] as nat
    else 0x1_0000 * bytes[3 * i] as nat + bytes[3 * i + 1] as nat + 0x100 * bytes[3 * i + 2] as nat
  }

  /** High byte and low word, joined. */
  lemma {:induction false} JoinWords(hi: nat, lo: nat)
    requires lo < 0x1_0000
    ensures Or(Shl(hi, 16), lo) == hi * 0x1_0000 + lo
  {
    SixteenBits(lo);
    SixteenBits(hi);
    OrIsSum(hi, lo, 16);
  }

  /** The reader that computes both addresses from the pair's base. */
  method ReadElement(arr: array<byte>, index: nat) returns (r: nat)
    requires InRange(arr[..], index)
    ensures r == Element(arr[..], index)
  {
    var base, odd := index / 2 * 2 + index / 2 * 4, index % 2;
    var addrHi, addrLo := base + odd + 2, base + odd * 4;
    r := arr[addrHi] as nat;
    JoinWords(r, Load16(arr[..], addrLo));
    r := Or(Shl(r, 16), Load16(arr[..], addrLo));
  }

  /** The reader that is handed the address of the element and its parity. */
  method ReadElementAt(arr: array<byte>, at: nat, index: nat) returns (r: nat)
    requires at == 3 * index && InRange(arr[..], index)
    ensures r == Element(arr[..], index)
  {
    var odd := index % 2;
    var high, low := arr[at + (1 - odd) * 2] as nat, Load16(arr[..], at + odd);
    JoinWords(high, low);
    r := Or(Shl(high, 16), low);
  }

  /** Writes one element and nothing else. */
  method WriteElement(arr: array<byte>, index: nat, lo: nat, hi: byte)
    requires InRange(arr[..], index) && lo < 0x1_0000
    modifies arr
    ensures Element(arr[..], index) == lo + 0x1_0000 * hi as nat
    ensures forall i {:trigger arr[i]} :: 0 <= i < arr.Length && !(3 * index <= i < 3 * index + 3) ==>
              arr[i] == old(arr[i])
  {
    var base, odd := index / 2 * 2 + index / 2 * 4, index % 2;
    var addrHi, addrLo := base + odd + 2, base + odd * 4;
    arr[addrLo], arr[addrLo + 1] := (lo % 0x100) as byte, (lo / 0x100) as byte;
    arr[addrHi] := hi;
  }

  /** Elements whose bytes are the same have the same value. */
  lemma {:induction false} SameElement(a: seq<byte>, b: seq<byte>, i: nat)
    requires |a| == |b| && InRange(a, i) && forall j :: 3 * i <= j < 3 * i + 3 ==> a[j] == b[j]
    ensures Element(a, i) == Element(b, i)
  {
  }

  /** Fills the first size elements and leaves the others. */
  method Memset(arr: array<byte>, lo: nat, hi: byte, size: nat)
    requires 3 * size <= arr.Length && lo < 0x1_0000
    modifies arr
    ensures forall i: nat {:trigger Element(arr[..], i)} :: InRange(arr[..], i) ==>
              Element(arr[..], i) == if i < size then lo + 0x1_0000 * hi as nat else Element(old(arr[..]), i)
  {
    ghost var was := arr[..];
    var i := 0;
    while i < size
      invariant 0 <= i <= size && arr.Length == |was|
      invariant forall j: nat {:trigger Element(arr[..], j)} :: InRange(arr[..], j) ==>
                  Element(arr[..], j) == if j < i then lo + 0x1_0000 * hi as nat else Element(was, j)
    {
      ghost var before := arr[..];
      WriteElement(arr, i, lo, hi);
      forall j: nat | InRange(arr[..], j) && j != i
        ensures Element(arr[..], j) == Element(before, j)
      {
        SameElement(arr[..], before, j);
      }
      i := i + 1;
    }
  }
}
