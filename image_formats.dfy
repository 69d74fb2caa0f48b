/** Pixel formats of a still image (Qt's `QImage::Format`) and of the decoder's image
    descriptor (ZXing's `ImageFormat`), and the table that maps the first onto the second. */
module ImageFormats {

  /** The decoder's pixel formats that the adapter uses. */
  datatype ImageFormat = None | Lum | RGB | BGR | RGBX | XRGB | BGRX | XBGR

  /** Qt 6's `QImage::Format` enumeration. */
  datatype QImageFormat =
    | Invalid | Mono | MonoLSB | Indexed8
    | RGB32 | ARGB32 | ARGB32_Premultiplied
    | RGB16 | ARGB8565_Premultiplied | RGB666 | ARGB6666_Premultiplied
    | RGB555 | ARGB8555_Premultiplied | RGB888 | RGB444 | ARGB4444_Premultiplied
    | RGBX8888 | RGBA8888 | RGBA8888_Premultiplied
    | BGR30 | A2BGR30_Premultiplied | RGB30 | A2RGB30_Premultiplied
    | Alpha8 | Grayscale8 | RGBX64 | RGBA64 | RGBA64_Premultiplied | Grayscale16 | BGR888
    | RGBX16FPx4 | RGBA16FPx4 | RGBA16FPx4_Premultiplied
    | RGBX32FPx4 | RGBA32FPx4 | RGBA32FPx4_Premultiplied | CMYK8888

  /** What one byte of a pixel holds. `Ignored` is padding or alpha, which the decoder skips. */
  datatype Channel = Red | Green | Blue | Ignored | Luma

  /** The bytes of one pixel, in memory order, as the decoder reads a format. */
  function Layout(f: ImageFormat): seq<Channel>
  {
    match f
    case None => []
    case Lum => [Luma]
    case RGB => [Red, Green, Blue]
    case BGR => [Blue, Green, Red]
    case RGBX => [Red, Green, Blue, Ignored]
    case XRGB => [Ignored, Red, Green, Blue]
    case BGRX => [Blue, Green, Red, Ignored]
    case XBGR => [Ignored, Blue, Green, Red]
  }

  /** The bytes of one pixel, in memory order, as Qt stores an image of format `f`; empty
      when the pixel is not a row of whole 8-bit channels holding plain colour or grey.
      The 32-bit formats are words 0xAARRGGBB (0xFFRRGGBB) in native byte order; the
      8888 and 888 formats are byte-ordered. */
  function QImageLayout(f: QImageFormat, littleEndian: bool): seq<Channel>
  {
    match f
    case RGB32 | ARGB32 =>
      if littleEndian then [Blue, Green, Red, Ignored] else [Ignored, Red, Green, Blue]
    case RGB888 => [Red, Green, Blue]
    case BGR888 => [Blue, Green, Red]
    case RGBX8888 | RGBA8888 => [Red, Green, Blue, Ignored]
    case Grayscale8 => [Luma]
    case _ => []
  }

  /** The image formats the adapter hands to the decoder without conversion. */
  const DirectFormats: set<QImageFormat> :=
    {ARGB32, RGB32, RGB888, RGBX8888, RGBA8888, Grayscale8}

  /** `ImgFmtFromQImg`: the decoder format that reads an image of format `f` in place. */
  function ImgFmtFromQImg(f: QImageFormat, littleEndian: bool): (r: ImageFormat)
    ensures r == None <==> f !in DirectFormats
    ensures r != None ==> Layout(r) == QImageLayout(f, littleEndian) != []
    ensures r == Lum <==> f == Grayscale8
  {
    match f
    case ARGB32 | RGB32 => if littleEndian then BGRX else XRGB
    case RGB888 => RGB
    case RGBX8888 | RGBA8888 => RGBX
    case Grayscale8 => Lum
    case _ => None
  }

  /** Among the formats Qt stores as plain (not premultiplied) 8-bit RGB or grey channels,
      the only one the table leaves to the grayscale conversion is BGR888. */
  lemma UnmappedLayouts(f: QImageFormat, littleEndian: bool)
    requires ImgFmtFromQImg(f, littleEndian) == None && QImageLayout(f, littleEndian) != []
    ensures f == BGR888
  {
  }
}
