/** Pixel formats of a video frame (Qt 6's `QVideoFrameFormat::PixelFormat`) and the table
    that says how the decoder reads such a frame in place: the decoder format, and for
    packed YUV layouts the distance between luminance bytes and the position of the first. */
module VideoFormats {
  import opened ImageFormats

  datatype PixelFormat =
    | FrameInvalid
    | ARGB8888 | ARGB8888_Premultiplied | XRGB8888
    | BGRA8888 | BGRA8888_Premultiplied | BGRX8888
    | ABGR8888 | XBGR8888 | RGBA8888 | RGBX8888
    | AYUV | AYUV_Premultiplied
    | YUV420P | YUV422P | YV12 | UYVY | YUYV | NV12 | NV21
    | IMC1 | IMC2 | IMC3 | IMC4 | Y8 | Y16 | P010 | P016
    | SamplerExternalOES | Jpeg | SamplerRect | YUV420P10

  /** How the decoder reads a frame: `pixStride` 0 means the format's own pixel size, and
      `pixOffset` is added to the start of the first plane. */
  datatype FrameLayout = FrameLayout(format: ImageFormat, pixStride: int, pixOffset: int)

  /** The frame formats the decoder reads in place. */
  const DirectFrameFormats: set<PixelFormat> :=
    {ARGB8888, ARGB8888_Premultiplied, PixelFormat.RGBX8888,
     BGRA8888, BGRA8888_Premultiplied, BGRX8888, ABGR8888,
     P010, P016, AYUV, AYUV_Premultiplied,
     YUV420P, NV12, NV21, IMC1, IMC2, IMC3, IMC4, YV12,
     UYVY, YUYV, Y8, Y16, YUV422P}

  /** The table of the video-frame `ReadBarcodes`. Only luminance reads carry a stride or an
      offset, and an offset always falls inside one pixel's stride. */
  function FrameTable(pf: PixelFormat, littleEndian: bool): (r: FrameLayout)
    ensures r.format == None <==> pf !in DirectFrameFormats
    ensures r.format != Lum ==> r.pixStride == 0 && r.pixOffset == 0
    ensures 0 <= r.pixOffset && 0 <= r.pixStride
    ensures r.pixOffset > 0 ==> r.pixOffset < r.pixStride
    ensures r.format in {None, Lum} || (r.format in {BGRX, RGBX} <==> littleEndian)
  {
    match pf
    case ARGB8888 | ARGB8888_Premultiplied | RGBX8888 =>
      FrameLayout(if littleEndian then BGRX else XRGB, 0, 0)
    case BGRA8888 | BGRA8888_Premultiplied | BGRX8888 =>
      FrameLayout(if littleEndian then RGBX else XBGR, 0, 0)
    case P010 | P016 => FrameLayout(Lum, 1, 0)
    case AYUV | AYUV_Premultiplied => FrameLayout(Lum, 4, if littleEndian then 3 else 2)
    case YUV420P | NV12 | NV21 | IMC1 | IMC2 | IMC3 | IMC4 | YV12 => FrameLayout(Lum, 0, 0)
    case UYVY => FrameLayout(Lum, 2, 1)
    case YUYV => FrameLayout(Lum, 2, 0)
    case Y8 => FrameLayout(Lum, 0, 0)
    case Y16 => FrameLayout(Lum, 2, 1)
    case ABGR8888 => FrameLayout(if littleEndian then RGBX else XBGR, 0, 0)
    case YUV422P => FrameLayout(Lum, 0, 0)
    case _ => FrameLayout(None, 0, 0)
  }

  /** The switch of the video-frame `ReadBarcodes`: start from (None, 0, 0) and let the
      frame's format assign what differs. */
  method FrameFormat(pf: PixelFormat, littleEndian: bool)
    returns (fmt: ImageFormat, pixStride: int, pixOffset: int)
    ensures FrameLayout(fmt, pixStride, pixOffset) == FrameTable(pf, littleEndian)
  {
    fmt := None;
    pixStride := 0;
    pixOffset := 0;
    match pf {
      case ARGB8888 | ARGB8888_Premultiplied | RGBX8888 =>
        fmt := if littleEndian then BGRX else XRGB;
      case BGRA8888 | BGRA8888_Premultiplied | BGRX8888 =>
        fmt := if littleEndian then RGBX else XBGR;
      case P010 | P016 =>
        fmt, pixStride := Lum, 1;
      case AYUV | AYUV_Premultiplied =>
        if littleEndian {
          fmt, pixStride, pixOffset := Lum, 4, 3;
        } else {
          fmt, pixStride, pixOffset := Lum, 4, 2;
        }
      case YUV420P | NV12 | NV21 | IMC1 | IMC2 | IMC3 | IMC4 | YV12 =>
        fmt := Lum;
      case UYVY =>
        fmt, pixStride, pixOffset := Lum, 2, 1;
      case YUYV =>
        fmt, pixStride := Lum, 2;
      case Y8 =>
        fmt := Lum;
      case Y16 =>
        fmt, pixStride, pixOffset := Lum, 2, 1;
      case ABGR8888 =>
        fmt := if littleEndian then RGBX else XBGR;
      case YUV422P =>
        fmt := Lum;
      case _ =>
    }
  }
}
