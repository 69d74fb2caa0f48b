/** The two reading paths of the adapter: a still image and a video frame are each described
    to the decoder as an image view, the decoder is called, and its results are wrapped.
    The decoder itself is a parameter; a `Trace` records every call to it and every map and
    unmap of a frame's memory. */
module ReadBarcodes {
  import opened ImageFormats
  import opened VideoFormats
  import opened Results

  /** The decoder options the adapter reads or writes. */
  datatype ReaderOptions = ReaderOptions(
    formats: int,
    tryRotate: bool,
    tryHarder: bool,
    tryDownscale: bool,
    maxNumberOfSymbols: int)

  /** The decoder's default options: every symbology, all three searches on, up to 255 symbols. */
  const DefaultOptions: ReaderOptions := ReaderOptions(0, true, true, true, 255)

  /** What the decoder is given: where the first pixel starts (relative to the start of the
      buffer), the size, the format, and the distances between rows and between pixels. */
  datatype ImageView = ImageView(
    dataOffset: int,
    width: int,
    height: int,
    format: ImageFormat,
    rowStride: int,
    pixStride: int)

  /** A still image, as far as the adapter looks at it. */
  datatype QImage = QImage(format: QImageFormat, width: nat, height: nat, bytesPerLine: nat)

  /** `convertToFormat(QImage::Format_Grayscale8)`. A null image (format Invalid) comes back
      unchanged; any other keeps its size and gets one byte per pixel, rows padded to 4 bytes. */
  function ConvertToGrayscale8(img: QImage): (g: QImage)
    ensures img.format == Invalid ==> g == img
    ensures img.format != Invalid ==>
              g.format == Grayscale8 && g.width == img.width && g.height == img.height &&
              img.width <= g.bytesPerLine < img.width + 4
  {
    if img.format == Invalid then img
    else QImage(Grayscale8, img.width, img.height, (img.width + 3) / 4 * 4)
  }

  /** The decoder, a function of the view and the options. */
  type DecodeFn = (ImageView, ReaderOptions) -> seq<DecoderResult>

  datatype Event = Mapped | Unmapped | Decoded(view: ImageView, options: ReaderOptions)

  /** The record of what happened to the decoder and to frame memory, in order. */
  class Trace {
    var events: seq<Event>

    constructor ()
      ensures events == []
    {
      events := [];
    }
  }

  /** One call of the decoder. */
  method Decode(decode: DecodeFn, view: ImageView, opts: ReaderOptions, log: Trace)
    returns (zs: seq<DecoderResult>)
    modifies log
    ensures zs == decode(view, opts)
    ensures log.events == old(log.events) + [Decoded(view, opts)]
  {
    zs := decode(view, opts);
    log.events := log.events + [Decoded(view, opts)];
  }

  // ---------------------------------------------------------------- still images

  /** The view the still-image path builds: the image itself when its format can be read in
      place, otherwise its grayscale conversion. Only a null image reaches the decoder with
      format None; otherwise the size is kept and, for a direct format, the row length too. */
  function ImageDescriptor(img: QImage, littleEndian: bool): (v: ImageView)
    ensures v.width == img.width && v.height == img.height
    ensures v.dataOffset == 0 && v.pixStride == 0
    ensures v.format == None <==> img.format == Invalid
    ensures img.format in DirectFormats ==>
              v.format == ImgFmtFromQImg(img.format, littleEndian) && v.rowStride == img.bytesPerLine
    ensures img.format !in DirectFormats && img.format != Invalid ==>
              v.format == Lum && v.rowStride == ConvertToGrayscale8(img).bytesPerLine
  {
    var target := if ImgFmtFromQImg(img.format, littleEndian) == None then ConvertToGrayscale8(img) else img;
    ImageView(0, target.width, target.height, ImgFmtFromQImg(target.format, littleEndian), target.bytesPerLine, 0)
  }

  /** What the still-image `ReadBarcodes` returns. */
  function ImageResults(img: QImage, opts: ReaderOptions, littleEndian: bool, decode: DecodeFn): seq<Result>
  {
    QtResults(decode(ImageDescriptor(img, littleEndian), opts))
  }

  /** `ReadBarcodes(const QImage&, opts)`: one decoder call on the image or its conversion. */
  method ReadBarcodesImage(img: QImage, opts: ReaderOptions, littleEndian: bool, decode: DecodeFn, log: Trace)
    returns (res: seq<Result>)
    modifies log
    ensures res == ImageResults(img, opts, littleEndian, decode)
    ensures log.events == old(log.events) + [Decoded(ImageDescriptor(img, littleEndian), opts)]
  {
    var target := img;
    if ImgFmtFromQImg(img.format, littleEndian) == None {
      target := ConvertToGrayscale8(img);
    }
    var view := ImageView(0, target.width, target.height, ImgFmtFromQImg(target.format, littleEndian), target.bytesPerLine, 0);
    var zs := Decode(decode, view, opts, log);
    res := QListResults(zs);
  }

  /** `ReadBarcode(const QImage&, opts)`: ask for one symbol and take the first result, or the
      default when there is none. */
  method ReadBarcodeImage(img: QImage, opts: ReaderOptions, littleEndian: bool, decode: DecodeFn, log: Trace)
    returns (r: Result)
    modifies log
    ensures r == FirstOrDefault(ImageResults(img, opts.(maxNumberOfSymbols := 1), littleEndian, decode))
    ensures log.events == old(log.events) + [Decoded(ImageDescriptor(img, littleEndian), opts.(maxNumberOfSymbols := 1))]
  {
    var res := ReadBarcodesImage(img, opts.(maxNumberOfSymbols := 1), littleEndian, decode, log);
    r := if res != [] then res[0] else DefaultResult();
  }

  // ---------------------------------------------------------------- video frames

  /** A video frame. Whether it is valid, whether its memory can be mapped for reading and
      what `toImage()` makes of it are given by its producer; the adapter changes only how
      many times it is mapped. */
  class VideoFrame {
    const pixelFormat: PixelFormat
    const width: nat
    const height: nat
    const bytesPerLine: int
    const isValid: bool
    const mappable: bool
    const image: QImage
    var mapCount: nat

    constructor (pixelFormat: PixelFormat, width: nat, height: nat, bytesPerLine: int,
                 isValid: bool, mappable: bool, image: QImage)
      ensures this.pixelFormat == pixelFormat && this.width == width && this.height == height
      ensures this.bytesPerLine == bytesPerLine && this.isValid == isValid
      ensures this.mappable == mappable && this.image == image && mapCount == 0
    {
      this.pixelFormat := pixelFormat;
      this.width := width;
      this.height := height;
      this.bytesPerLine := bytesPerLine;
      this.isValid := isValid;
      this.mappable := mappable;
      this.image := image;
      mapCount := 0;
    }

    /** `map(QVideoFrame::ReadOnly)`. */
    method Map(log: Trace) returns (ok: bool)
      modifies this, log
      ensures ok == mappable
      ensures mapCount == old(mapCount) + (if ok then 1 else 0)
      ensures log.events == old(log.events) + (if ok then [Mapped] else [])
    {
      ok := mappable;
      if ok {
        mapCount := mapCount + 1;
        log.events := log.events + [Mapped];
      }
    }

    /** `unmap()`; a frame that is not mapped is left alone. */
    method Unmap(log: Trace)
      modifies this, log
      ensures mapCount == if old(mapCount) > 0 then old(mapCount) - 1 else 0
      ensures log.events == old(log.events) + (if old(mapCount) > 0 then [Unmapped] else [])
    {
      if mapCount > 0 {
        mapCount := mapCount - 1;
        log.events := log.events + [Unmapped];
      }
    }
  }

  /** The view of a frame read in place: the first plane, shifted by the table's offset. The
      first byte read lies inside the first pixel, and only luminance reads are strided. */
  function FrameDescriptor(frame: VideoFrame, littleEndian: bool): (v: ImageView)
    ensures v.format == FrameTable(frame.pixelFormat, littleEndian).format
    ensures v.dataOffset == FrameTable(frame.pixelFormat, littleEndian).pixOffset
    ensures v.pixStride == FrameTable(frame.pixelFormat, littleEndian).pixStride
    ensures v.width == frame.width && v.height == frame.height && v.rowStride == frame.bytesPerLine
    ensures v.dataOffset == 0 || 0 < v.dataOffset < v.pixStride
    ensures v.format != Lum ==> v.dataOffset == 0 && v.pixStride == 0
  {
    var layout := FrameTable(frame.pixelFormat, littleEndian);
    ImageView(layout.pixOffset, frame.width, frame.height, layout.format, frame.bytesPerLine, layout.pixStride)
  }

  /** Whether the frame path reads the frame in place (rather than through `toImage()`). */
  predicate ReadInPlace(frame: VideoFrame, littleEndian: bool)
  {
    FrameTable(frame.pixelFormat, littleEndian).format != None
  }

  /** What the video-frame `ReadBarcodes` returns. */
  function FrameResults(frame: VideoFrame, opts: ReaderOptions, littleEndian: bool, decode: DecodeFn): seq<Result>
  {
    if ReadInPlace(frame, littleEndian) then
      if frame.isValid && frame.mappable then QtResults(decode(FrameDescriptor(frame, littleEndian), opts)) else []
    else if frame.image.format != Invalid then ImageResults(frame.image, opts, littleEndian, decode)
    else []
  }

  /** What the video-frame `ReadBarcodes` does to the decoder and to the frame's memory: a map
      is always followed by exactly one decoder call and then the unmap, and a frame that is read
      in place but is invalid or cannot be mapped leaves no trace at all. */
  function FrameEvents(frame: VideoFrame, opts: ReaderOptions, littleEndian: bool): (es: seq<Event>)
    ensures |es| <= 3
    ensures Mapped in es <==> Unmapped in es
    ensures Mapped in es ==> |es| == 3 && es[0] == Mapped && es[1].Decoded? && es[2] == Unmapped
    ensures Mapped !in es ==> |es| <= 1
    ensures ReadInPlace(frame, littleEndian) && !(frame.isValid && frame.mappable) ==> es == []
  {
    if ReadInPlace(frame, littleEndian) then
      if frame.isValid && frame.mappable then [Mapped, Decoded(FrameDescriptor(frame, littleEndian), opts), Unmapped] else []
    else if frame.image.format != Invalid then [Decoded(ImageDescriptor(frame.image, littleEndian), opts)]
    else []
  }

  /** `ReadBarcodes(const QVideoFrame&, opts)`. A frame in a direct format is read in place:
      an invalid or unmappable frame gives nothing and the decoder is not called; otherwise the
      decoder is called once between the map and the unmap. Any other frame goes through
      `toImage()`, and the still-image path, unless the conversion fails. The frame is left
      mapped exactly as often as before. */
  method ReadBarcodesFrame(frame: VideoFrame, opts: ReaderOptions, littleEndian: bool, decode: DecodeFn, log: Trace)
    returns (res: seq<Result>)
    modifies frame, log
    ensures res == FrameResults(frame, opts, littleEndian, decode)
    ensures log.events == old(log.events) + FrameEvents(frame, opts, littleEndian)
    ensures frame.mapCount == old(frame.mapCount)
  {
    var fmt, pixStride, pixOffset := FrameFormat(frame.pixelFormat, littleEndian);
    if fmt != None {
      if !frame.isValid {
        return [];
      }
      var mapped := frame.Map(log);
      if !mapped {
        return [];
      }
      var view := ImageView(pixOffset, frame.width, frame.height, fmt, frame.bytesPerLine, pixStride);
      var zs := Decode(decode, view, opts, log);
      res := QListResults(zs);
      frame.Unmap(log);
    } else {
      var qimg := frame.image;
      if qimg.format != Invalid {
        res := ReadBarcodesImage(qimg, opts, littleEndian, decode, log);
      } else {
        res := [];
      }
    }
  }

  /** `ReadBarcode(const QVideoFrame&, opts)`: ask for one symbol and take the first result, or
      the default when there is none. */
  method ReadBarcodeFrame(frame: VideoFrame, opts: ReaderOptions, littleEndian: bool, decode: DecodeFn, log: Trace)
    returns (r: Result)
    modifies frame, log
    ensures r == FirstOrDefault(FrameResults(frame, opts.(maxNumberOfSymbols := 1), littleEndian, decode))
    ensures log.events == old(log.events) + FrameEvents(frame, opts.(maxNumberOfSymbols := 1), littleEndian)
    ensures frame.mapCount == old(frame.mapCount)
  {
    var res := ReadBarcodesFrame(frame, opts.(maxNumberOfSymbols := 1), littleEndian, decode, log);
    r := if res != [] then res[0] else DefaultResult();
  }

  /** The decoder is never called with format None from a frame, and it is called at most once. */
  lemma FrameDecodedOnce(frame: VideoFrame, opts: ReaderOptions, littleEndian: bool)
    ensures forall i :: 0 <= i < |FrameEvents(frame, opts, littleEndian)| ==>
              FrameEvents(frame, opts, littleEndian)[i].Decoded? ==>
                FrameEvents(frame, opts, littleEndian)[i].view.format != None &&
                FrameEvents(frame, opts, littleEndian)[i].options == opts
    ensures |set i | 0 <= i < |FrameEvents(frame, opts, littleEndian)| && FrameEvents(frame, opts, littleEndian)[i].Decoded?| <= 1
  {
    var es := FrameEvents(frame, opts, littleEndian);
    if |es| == 3 {
      assert (set i | 0 <= i < |es| && es[i].Decoded?) == {1};
    } else if |es| == 1 {
      assert (set i | 0 <= i < |es| && es[i].Decoded?) == {0};
    } else {
      assert es == [];
    }
  }

  /** The frame path's results are those of the decoder on the one view it was given; without
      a decoder call there are none. */
  lemma FrameResultsFromDecodedView(frame: VideoFrame, opts: ReaderOptions, littleEndian: bool, decode: DecodeFn)
    ensures FrameResults(frame, opts, littleEndian, decode) != [] ==>
              exists i :: 0 <= i < |FrameEvents(frame, opts, littleEndian)| &&
                FrameEvents(frame, opts, littleEndian)[i].Decoded? &&
                FrameResults(frame, opts, littleEndian, decode) ==
                  QtResults(decode(FrameEvents(frame, opts, littleEndian)[i].view, opts))
  {
    var es := FrameEvents(frame, opts, littleEndian);
    if FrameResults(frame, opts, littleEndian, decode) != [] {
      if ReadInPlace(frame, littleEndian) {
        assert es[1].Decoded?;
      } else {
        assert es[0].Decoded?;
      }
    }
  }
}
