/** The `BarcodeFormat` bit-flag enumeration of the Qt wrapper around ZXing:
    one bit per symbology and two composite masks, LinearCodes and MatrixCodes. */
module BarcodeFormats {

  datatype BarcodeFormat =
    | None
    | Aztec | Codabar | Code39 | Code93 | Code128 | DataBar | DataBarExpanded
    | DataMatrix | EAN8 | EAN13 | ITF | MaxiCode | PDF417 | QRCode | UPCA | UPCE
    | MicroQRCode | RMQRCode

  /** The eighteen single symbologies, listed in the order of their bits. */
  const Singles: seq<BarcodeFormat> :=
    [Aztec, Codabar, Code39, Code93, Code128, DataBar, DataBarExpanded,
     DataMatrix, EAN8, EAN13, ITF, MaxiCode, PDF417, QRCode, UPCA, UPCE,
     MicroQRCode, RMQRCode]

  /** The bit a single symbology occupies; `Singles` is its inverse. */
  function BitIndex(f: BarcodeFormat): (i: nat)
    requires f != None
    ensures i < |Singles| == 18 && Singles[i] == f
  {
    match f
    case Aztec => 0
    case Codabar => 1
    case Code39 => 2
    case Code93 => 3
    case Code128 => 4
    case DataBar => 5
    case DataBarExpanded => 6
    case DataMatrix => 7
    case EAN8 => 8
    case EAN13 => 9
    case ITF => 10
    case MaxiCode => 11
    case PDF417 => 12
    case QRCode => 13
    case UPCA => 14
    case UPCE => 15
    case MicroQRCode => 16
    case RMQRCode => 17
  }

  /** The enumerator's value, as the enumeration declares it: zero exactly for None (the
      single-bit shape of the others is `ValueIsSingleBit`). */
  function Value(f: BarcodeFormat): (v: bv32)
    ensures f == None <==> v == 0
  {
    match f
    case None => 0
    case Aztec => 1 << 0
    case Codabar => 1 << 1
    case Code39 => 1 << 2
    case Code93 => 1 << 3
    case Code128 => 1 << 4
    case DataBar => 1 << 5
    case DataBarExpanded => 1 << 6
    case DataMatrix => 1 << 7
    case EAN8 => 1 << 8
    case EAN13 => 1 << 9
    case ITF => 1 << 10
    case MaxiCode => 1 << 11
    case PDF417 => 1 << 12
    case QRCode => 1 << 13
    case UPCA => 1 << 14
    case UPCE => 1 << 15
    case MicroQRCode => 1 << 16
    case RMQRCode => 1 << 17
  }

  /** Every bit 0..17 belongs to exactly the symbology listed at that place. */
  lemma SinglesRoundTrip(i: nat)
    requires i < |Singles|
    ensures Singles[i] != None && BitIndex(Singles[i]) == i
  {
  }

  /** A single symbology is the power of two of its bit; None is zero. */
  lemma ValueIsSingleBit(f: BarcodeFormat)
    ensures f == None <==> Value(f) == 0
    ensures f != None ==> Value(f) == 1 << BitIndex(f)
    ensures Value(f) & (Value(f) - 1) == 0
    ensures Value(f) < 1 << 18
  {
  }

  /** Two different enumerators share no bit. */
  lemma ValuesDisjoint(f: BarcodeFormat, g: BarcodeFormat)
    requires f != g
    ensures Value(f) & Value(g) == 0
  {
  }

  /** The value of `f0 | f1 | ... | fn`, as the composite masks are written. */
  function Combine(fs: seq<BarcodeFormat>): (c: bv32)
    ensures c < 1 << 18
    ensures fs == [] ==> c == 0
  {
    if fs == [] then 0 else Value(fs[0]) | Combine(fs[1..])
  }

  const LinearList: seq<BarcodeFormat> :=
    [Codabar, Code39, Code93, Code128, EAN8, EAN13, ITF, DataBar, DataBarExpanded, UPCA, UPCE]

  const MatrixList: seq<BarcodeFormat> :=
    [Aztec, DataMatrix, MaxiCode, PDF417, QRCode, MicroQRCode, RMQRCode]

  const LinearCodes: bv32 := Combine(LinearList)

  const MatrixCodes: bv32 := Combine(MatrixList)

  /** A symbology's bit is set in a combination exactly when the symbology is one of its parts. */
  lemma {:induction false} CombineHas(fs: seq<BarcodeFormat>, f: BarcodeFormat)
    requires f != None
    ensures Combine(fs) & Value(f) != 0 <==> f in fs
  {
    if fs != [] {
      CombineHas(fs[1..], f);
      ValueIsSingleBit(f);
      if fs[0] != f {
        ValuesDisjoint(fs[0], f);
      }
      assert fs == [fs[0]] + fs[1..];
    }
  }

  /** Combinations of lists with no symbology in common share no bit. */
  lemma {:induction false} CombineDisjoint(fs: seq<BarcodeFormat>, gs: seq<BarcodeFormat>)
    requires forall f :: f in fs ==> f !in gs
    ensures Combine(fs) & Combine(gs) == 0
  {
    if fs != [] {
      CombineDisjoint(fs[1..], gs);
      if fs[0] != None {
        CombineHas(gs, fs[0]);
        ValueIsSingleBit(fs[0]);
      }
    }
  }

  /** LinearCodes and MatrixCodes are disjoint, and together they are the eighteen single bits. */
  lemma LinearMatrixPartition()
    ensures LinearCodes & MatrixCodes == 0
    ensures LinearCodes | MatrixCodes == (1 << 18) - 1
  {
  }

  /** Every single symbology belongs to exactly one of the two families. */
  lemma ExactlyOneFamily(f: BarcodeFormat)
    requires f != None
    ensures (Value(f) & LinearCodes != 0) != (Value(f) & MatrixCodes != 0)
  {
  }
}
