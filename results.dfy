/** The decoder's results and the Qt-side `Result` value that wraps each of them. */
module Results {
  import BarcodeFormats

  datatype Point = Point(x: int, y: int)

  /** The four corners of a symbol, in the decoder's order. */
  datatype Position = Position(topLeft: Point, topRight: Point, bottomRight: Point, bottomLeft: Point)

  datatype ContentType = Text | Binary | Mixed | GS1 | ISO15434 | UnknownECI

  /** One symbol as the decoder reports it, as far as the adapter reads it. */
  datatype DecoderResult = DecoderResult(
    format: BarcodeFormats.BarcodeFormat,
    contentType: ContentType,
    text: string,
    bytes: seq<bv8>,
    position: Position,
    valid: bool)

  /** The decoder's default-constructed result: no symbology, no content, not valid. */
  const EmptyDecoderResult: DecoderResult :=
    DecoderResult(BarcodeFormats.None, Text, [], [], Position(Point(0, 0), Point(0, 0), Point(0, 0), Point(0, 0)), false)

  /** The Qt `Result`: the decoder's result, with its text, bytes and corners copied into
      Qt values when it is built. */
  datatype Result = Result(base: DecoderResult, cachedText: string, cachedBytes: seq<bv8>, cachedPosition: Position)
  {
    function Format(): BarcodeFormats.BarcodeFormat { base.format }
    function ContentTypeOf(): ContentType { base.contentType }
    function Text(): string { cachedText }
    function Bytes(): seq<bv8> { cachedBytes }
    function Corners(): Position { cachedPosition }
    predicate IsValid() { base.valid }

    /** Every property the wrapper exposes is the decoder's. */
    predicate Reports(z: DecoderResult)
    {
      base == z && Format() == z.format && ContentTypeOf() == z.contentType &&
      Text() == z.text && Bytes() == z.bytes && Corners() == z.position && IsValid() == z.valid
    }
  }

  /** `Result(ZXing::Result&&)`: wrap one decoder result. */
  function FromDecoderResult(z: DecoderResult): (r: Result)
    ensures r.Reports(z)
  {
    Result(z, z.text, z.bytes, z.position)
  }

  /** `Result()`: the default value, which reports nothing found. */
  function DefaultResult(): (r: Result)
    ensures r.Reports(EmptyDecoderResult)
    ensures !r.IsValid() && r.Format() == BarcodeFormats.None && r.Text() == [] && r.Bytes() == []
  {
    Result(EmptyDecoderResult, [], [], EmptyDecoderResult.position)
  }

  /** The list `QListResults` builds: one wrapper per decoder result, in the decoder's order. */
  function QtResults(zs: seq<DecoderResult>): (rs: seq<Result>)
    ensures |rs| == |zs|
    ensures forall i :: 0 <= i < |zs| ==> rs[i].Reports(zs[i])
  {
    if zs == [] then [] else [FromDecoderResult(zs[0])] + QtResults(zs[1..])
  }

  /** `QListResults`: push one wrapper per decoder result onto a fresh list. */
  method QListResults(zxres: seq<DecoderResult>) returns (res: seq<Result>)
    ensures |res| == |zxres|
    ensures forall i :: 0 <= i < |zxres| ==> res[i].Reports(zxres[i])
    ensures res == QtResults(zxres)
  {
    res := [];
    for i := 0 to |zxres|
      invariant |res| == i
      invariant forall j :: 0 <= j < i ==> res[j] == FromDecoderResult(zxres[j])
    {
      res := res + [FromDecoderResult(zxres[i])];
    }
  }

  /** `!res.isEmpty() ? res.takeFirst() : Result()`. A valid answer always comes from
      the list, and an empty list gives the invalid default. */
  function FirstOrDefault(rs: seq<Result>): (r: Result)
    ensures rs != [] ==> r == rs[0]
    ensures rs == [] ==> r == DefaultResult() && !r.IsValid()
    ensures r.IsValid() ==> rs != [] && r == rs[0]
  {
    if rs != [] then rs[0] else DefaultResult()
  }
}
