# Barcode-reader adapter of the camera app, modelled in Dafny

The camera app reads barcodes through a thin Qt adapter (`src/zxingreader.h`) over the ZXing
decoding library. The adapter does not decode anything itself. It decides how a pixel buffer
is described to the decoder, and it exposes the decoder's results and options to the UI. This
project models that adapter for Qt 6, with the machine's byte order as a parameter
(`littleEndian`). The pieces are:

- `barcode_formats.dfy` (`BarcodeFormats`): the `BarcodeFormat` bit flags and the
  `LinearCodes` / `MatrixCodes` masks. The model proves that each symbology has its own bit
  among bits 0..17, that the two masks are disjoint and together cover all eighteen bits, and
  that every symbology belongs to exactly one of them.
- `image_formats.dfy` (`ImageFormats`): the still-image table `ImgFmtFromQImg`. A per-pixel
  byte layout is given for each decoder format, and for the Qt image formats stored as plain
  (not premultiplied) 8-bit RGB or grey channels; every other Qt format gets the empty layout.
  The model proves that every format the table maps is read by the decoder in the byte order
  Qt stores it.
- `video_formats.dfy` (`VideoFormats`): the video-frame table. It gives the decoder format,
  `pixStride` and `pixOffset`, both as a function and as the switch that assigns the three
  locals step by step.
- `results.dfy` (`Results`): the Qt `Result` wrapper, `QListResults` (a loop that pushes one
  wrapper per decoder result), and the first-or-default rule of `ReadBarcode`.
- `read_barcodes.dfy` (`ReadBarcodes`): both `ReadBarcodes` / `ReadBarcode` overloads. The
  decoder is a function parameter (`DecodeFn`) that receives the image view (data offset,
  width, height, format, row stride, pixel stride) and the options. A `Trace` object records
  every decoder call and every map and unmap of a frame. This is how the model states that
  the decoder is called at most once and that every successful map is followed by an unmap.
- `barcode_reader.dfy` (`BarcodeReaders`): the `BarcodeReader` object. It has option setters
  that notify only on change, `process` with its `newResult` / `foundBarcode` signals, and
  `setVideoSink`, which keeps at most one connected sink.

Two observations come out of the model. Neither is claimed as a defect.

- The still-image path hands the decoder format `None` exactly when the image is null
  (format `Invalid`), because converting a null image yields a null image again
  (`ReadBarcodes.ImageDescriptor`). The frame path never does this: it tests the converted
  image's format first.
- `P010` / `P016` frames are read as luminance with `pixStride` 1 and no offset, as written.
  These formats store 16 bits per luminance sample. Whether that reading matches them depends
  on Qt's frame layout, which is not part of this model.

## Model

| member | source | states |
|---|---|---|
| BarcodeFormats.BitIndex | src/zxingreader.h:33-50 | each single symbology has a bit index below 18, and the list of singles read at that index gives the symbology back |
| BarcodeFormats.SinglesRoundTrip | src/zxingreader.h:33-50 | each of the bits 0..17 belongs to a symbology whose bit index is that bit, so the singles and the bits are in one-to-one correspondence |
| BarcodeFormats.Value | src/zxingreader.h:32-50 | the enumerator's value is zero exactly for None |
| BarcodeFormats.ValueIsSingleBit | src/zxingreader.h:32-50 | None is 0; every other enumerator's value is `1 << k` for its bit k, a power of two below 2^18 |
| BarcodeFormats.ValuesDisjoint | src/zxingreader.h:32-50 | two different enumerators share no bit |
| BarcodeFormats.Combine | src/zxingreader.h:52-53 | the OR of a list of enumerators, as the composite masks are written, uses only bits 0..17 and is zero for the empty list |
| BarcodeFormats.LinearCodes | src/zxingreader.h:52 | the OR of Codabar, Code39, Code93, Code128, EAN8, EAN13, ITF, DataBar, DataBarExpanded, UPCA and UPCE, in that order; its properties are LinearMatrixPartition and ExactlyOneFamily |
| BarcodeFormats.MatrixCodes | src/zxingreader.h:53 | the OR of Aztec, DataMatrix, MaxiCode, PDF417, QRCode, MicroQRCode and RMQRCode, in that order; its properties are LinearMatrixPartition and ExactlyOneFamily |
| BarcodeFormats.CombineHas | src/zxingreader.h:52-53 | a symbology's bit is set in an OR of enumerators exactly when the symbology is one of them |
| BarcodeFormats.CombineDisjoint | src/zxingreader.h:52-53 | ORs of two lists with no symbology in common share no bit |
| BarcodeFormats.LinearMatrixPartition | src/zxingreader.h:52-53 | LinearCodes and MatrixCodes are disjoint, and their union is exactly bits 0..17 |
| BarcodeFormats.ExactlyOneFamily | src/zxingreader.h:52-53 | every single symbology is in exactly one of LinearCodes and MatrixCodes |
| ImageFormats.ImgFmtFromQImg | src/zxingreader.h:139-154 | the result is None exactly for formats other than ARGB32, RGB32, RGB888, RGBX8888, RGBA8888 and Grayscale8; when not None, the decoder reads each pixel's bytes in the order Qt stores them on that byte order; only Grayscale8 gives Lum |
| ImageFormats.UnmappedLayouts | src/zxingreader.h:139-154 | among the Qt formats stored as plain (not premultiplied) 8-bit RGB or grey channels, the only one the table sends through conversion is BGR888 |
| VideoFormats.FrameTable | src/zxingreader.h:186-253 | None exactly for the unlisted formats; a non-Lum result has stride 0 and offset 0; a positive offset is below the stride; the RGB-type results are the BGRX/RGBX ones exactly on little-endian |
| VideoFormats.FrameFormat | src/zxingreader.h:174-253 | the switch, starting from (None, 0, 0), assigns exactly the table's format, stride and offset |
| Results.FromDecoderResult | src/zxingreader.h:105-120 | the wrapper reports the decoder result's format, content type, text, bytes, corners and validity |
| Results.DefaultResult | src/zxingreader.h:103 | the default result reports no symbology, no text, no bytes and is not valid |
| Results.QtResults | src/zxingreader.h:127-133 | the wrapper list has one element per decoder result, each reporting the result at the same position |
| Results.QListResults | src/zxingreader.h:127-133 | the loop yields one wrapper per decoder result, in the same order, and equals QtResults |
| Results.FirstOrDefault | src/zxingreader.h:167 | the first result if there is one, otherwise the invalid default; a valid answer is always the list's head |
| ReadBarcodes.Decode | src/zxingreader.h:157-158 | one call of `ZXing::ReadBarcodes`: the results are the decoder's on the given view and options, and the call is appended to the trace |
| ReadBarcodes.ConvertToGrayscale8 | src/zxingreader.h:161 | converting a null image gives it back; any other image keeps its size, becomes Grayscale8 and has rows of at least its width |
| ReadBarcodes.ImageDescriptor | src/zxingreader.h:156-161 | the view keeps the image's size; its format is None exactly for a null image; a directly readable image is passed with its own format and row length; any other is passed as Lum with the converted row length |
| ReadBarcodes.ReadBarcodesImage | src/zxingreader.h:135-162 | the results are the wrapped decoder results on ImageDescriptor, and the decoder is called once with that view and the given options |
| ReadBarcodes.ReadBarcodeImage | src/zxingreader.h:164-168 | the decoder is called once with maxNumberOfSymbols forced to 1, and the result is the first of its results or the default |
| ReadBarcodes.VideoFrame.Map | src/zxingreader.h:258-260 | mapping succeeds exactly when the frame's memory is mappable, and then raises the map count by one |
| ReadBarcodes.VideoFrame.Unmap | src/zxingreader.h:265 | unmapping a mapped frame lowers the map count by one |
| ReadBarcodes.FrameDescriptor | src/zxingreader.h:267-268 | the view has the frame's size and first-plane row length, the table's format, the table's pixel offset as data offset and the table's pixel stride; the offset lies inside the first pixel's stride |
| ReadBarcodes.FrameEvents | src/zxingreader.h:255-284 | a map happens exactly when an unmap does, and then the events are map, one decoder call, unmap; without a map there is at most one event; an invalid or unmappable frame read in place leaves no events |
| ReadBarcodes.ReadBarcodesFrame | src/zxingreader.h:170-285 | a direct-format frame that is invalid or cannot be mapped gives no results and no decoder call; otherwise: map, one decoder call with the frame view, unmap. Other frames go through toImage, with no results for a null image and the still-image results otherwise. The map count always ends as it started |
| ReadBarcodes.ReadBarcodeFrame | src/zxingreader.h:287-291 | as ReadBarcodesFrame with maxNumberOfSymbols forced to 1, returning the first result or the default |
| ReadBarcodes.FrameDecodedOnce | src/zxingreader.h:255-284 | the frame path calls the decoder at most once, never with format None, and always with the options it was given |
| ReadBarcodes.FrameResultsFromDecodedView | src/zxingreader.h:255-284 | non-empty frame results are exactly the wrapped decoder results on the one view recorded in the trace |
| BarcodeReaders.ApplySetting | src/zxingreader.h:293-304 | after a setter the getter reads the new value back and no other option has changed; one change signal is emitted exactly when the value differed, and otherwise nothing changes |
| BarcodeReaders.ApplySettingIdempotent | src/zxingreader.h:297-303 | calling a setter again with the same value changes nothing and emits nothing |
| BarcodeReaders.SettingsSignalBound | src/zxingreader.h:297-303 | a run of setter calls emits at most one signal per call, and only change signals |
| BarcodeReaders.SettingsWithoutChange | src/zxingreader.h:297-303 | a run of setter calls that only write stored values leaves the options unchanged and emits nothing |
| BarcodeReaders.ResultSignals | src/zxingreader.h:352-354 | newResult is always emitted first; foundBarcode is emitted exactly when the result is valid; nothing else is emitted (two signals for a valid result, one otherwise) |
| BarcodeReaders.BarcodeReader.constructor | src/zxingreader.h:319 | a new reader has the decoder's default options, no signals and no sink |
| BarcodeReaders.BarcodeReader.Formats | src/zxingreader.h:323-327 | the getter returns the stored formats, so setFormats with its value changes nothing |
| BarcodeReaders.BarcodeReader.SetFormats | src/zxingreader.h:328-335 | the options and signals after setFormats are those ApplySetting gives; the sink invariant Valid is kept |
| BarcodeReaders.BarcodeReader.SetTryRotate | src/zxingreader.h:338 | the options and signals after setTryRotate are those ApplySetting gives; the sink invariant Valid is kept |
| BarcodeReaders.BarcodeReader.SetTryHarder | src/zxingreader.h:339 | the options and signals after setTryHarder are those ApplySetting gives; the sink invariant Valid is kept |
| BarcodeReaders.BarcodeReader.SetTryDownscale | src/zxingreader.h:340 | the options and signals after setTryDownscale are those ApplySetting gives; the sink invariant Valid is kept |
| BarcodeReaders.BarcodeReader.Process | src/zxingreader.h:343-356 | the result is the one-symbol frame read with the reader's options; the options are unchanged; the signals emitted are ResultSignals of the result; the frame's map count is unchanged; the sink invariant Valid is kept |
| BarcodeReaders.BarcodeReader.SetVideoSink | src/zxingreader.h:370-379 | afterwards the reader holds the given sink and is connected to it alone, once; the same sink again changes nothing; the old sink is disconnected |

## Left out

- The Qt 5 branch is not modelled. This covers the Qt 5 format names, the RGB24, BGR24 and
  YUV444 cases, the `imageFormatFromPixelFormat` check, `VideoFilterRunnable` and
  `createFilterRunnable`. The model follows Qt 6.
- The decoding algorithm itself is a function parameter. Decoder exceptions are not modelled,
  so the scope guard's unwinding exit never occurs. Only the normal exit (decode, then unmap)
  is modelled.
- Pixel contents, `bits()` and the real conversions are not modelled. `ConvertToGrayscale8`
  gives only the format, the size and the 4-byte-aligned row length. What `toImage()` returns
  is a given field of the frame.
- The per-pixel channel layouts in `ImageFormats` are the documented layouts of Qt's image
  formats and ZXing's image formats. Both live outside this repository.
- `runTime` and `QElapsedTimer`, `qDebug` / `qWarning` output, `formatName`, and the
  `QString` / `QByteArray` conversions are not modelled. Text and bytes are copied unchanged.
- Metatype and QML registration are not modelled.
- The `reinterpret_cast` in `formats()` is not modelled. Stored formats are an `int` field.
- The `static_cast` of the format and content type is not modelled. The model assumes the Qt
  and ZXing enumerations agree value for value, so the cast is the identity.
- Only the options the adapter touches are modelled: `formats`, `tryRotate`, `tryHarder`,
  `tryDownscale` and `maxNumberOfSymbols`. Their defaults are ZXing's and are taken as given.
- The success of `QVideoFrame::map` is a given field of the frame. Qt's refusal to map a
  frame that is already mapped in another mode is not modelled.
- Signal connections are kept on the reader's side as a multiset of sinks. Connections that
  other code makes to the reader are not modelled.
- The application controller (`src/appcontroller.cpp`, `src/appcontroller.h`) is not modelled.
  It is window, settings-service and QML-engine plumbing with no logic of the adapter's kind.
