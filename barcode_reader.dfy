/** The `BarcodeReader` object exposed to the declarative UI: decoder options with change
    notification, per-frame processing with result signals, and the video sink it listens to. */
module BarcodeReaders {
  import opened Results
  import opened ReadBarcodes
  import VideoFormats

  /** The signals the reader emits, in the order they are emitted. */
  datatype Signal =
    | FormatsChanged | TryRotateChanged | TryHarderChanged | TryDownscaleChanged
    | NewResult(result: Result)
    | FoundBarcode(result: Result)

  /** A call of one of the option setters, with the value it is given. */
  datatype Setting =
    | SetFormats(formats: int)
    | SetTryRotate(tryRotate: bool)
    | SetTryHarder(tryHarder: bool)
    | SetTryDownscale(tryDownscale: bool)

  /** The option a setter writes. */
  datatype OptionName = FormatsOption | TryRotateOption | TryHarderOption | TryDownscaleOption

  function Target(s: Setting): OptionName
  {
    match s
    case SetFormats(_) => FormatsOption
    case SetTryRotate(_) => TryRotateOption
    case SetTryHarder(_) => TryHarderOption
    case SetTryDownscale(_) => TryDownscaleOption
  }

  /** Whether the options already hold the value the setter is given (its getter reads it back). */
  predicate Holds(o: ReaderOptions, s: Setting)
  {
    match s
    case SetFormats(v) => o.formats == v
    case SetTryRotate(v) => o.tryRotate == v
    case SetTryHarder(v) => o.tryHarder == v
    case SetTryDownscale(v) => o.tryDownscale == v
  }

  /** The `...Changed` signal of the option a setter writes. */
  function ChangeSignal(s: Setting): Signal
  {
    match s
    case SetFormats(_) => FormatsChanged
    case SetTryRotate(_) => TryRotateChanged
    case SetTryHarder(_) => TryHarderChanged
    case SetTryDownscale(_) => TryDownscaleChanged
  }

  /** `setFormats` and the `ZQ_PROPERTY` setters: write the value and emit its change signal
      only when it differs from the stored one. Afterwards the getter reads the new value back,
      no other option has changed, and exactly one signal was emitted iff the value changed. */
  function ApplySetting(o: ReaderOptions, s: Setting): (r: (ReaderOptions, seq<Signal>))
    ensures Holds(r.0, s)
    ensures r.0.maxNumberOfSymbols == o.maxNumberOfSymbols
    ensures forall t: Setting :: Target(t) != Target(s) ==> (Holds(r.0, t) <==> Holds(o, t))
    ensures r.0 == o <==> Holds(o, s)
    ensures r.1 == (if Holds(o, s) then [] else [ChangeSignal(s)])
  {
    if Holds(o, s) then (o, [])
    else
      var o' := match s
        case SetFormats(v) => o.(formats := v)
        case SetTryRotate(v) => o.(tryRotate := v)
        case SetTryHarder(v) => o.(tryHarder := v)
        case SetTryDownscale(v) => o.(tryDownscale := v);
      (o', [ChangeSignal(s)])
  }

  /** Setting an option to the value it already holds changes nothing and emits nothing;
      in particular a setter called twice with one value notifies at most once. */
  lemma ApplySettingIdempotent(o: ReaderOptions, s: Setting)
    ensures ApplySetting(ApplySetting(o, s).0, s) == (ApplySetting(o, s).0, [])
  {
  }

  /** A run of setter calls, each on the options the previous one left. */
  function ApplySettings(o: ReaderOptions, ss: seq<Setting>): (ReaderOptions, seq<Signal>)
    decreases |ss|
  {
    if ss == [] then (o, [])
    else
      var first := ApplySetting(o, ss[0]);
      var rest := ApplySettings(first.0, ss[1..]);
      (rest.0, first.1 + rest.1)
  }

  /** A run emits at most one signal per call, and every signal it emits announces a change. */
  lemma {:induction false} SettingsSignalBound(o: ReaderOptions, ss: seq<Setting>)
    ensures |ApplySettings(o, ss).1| <= |ss|
    ensures forall sig :: sig in ApplySettings(o, ss).1 ==> sig in {FormatsChanged, TryRotateChanged, TryHarderChanged, TryDownscaleChanged}
    decreases |ss|
  {
    if ss != [] {
      SettingsSignalBound(ApplySetting(o, ss[0]).0, ss[1..]);
    }
  }

  /** A run that only writes values already stored leaves the options as they were and
      emits nothing. */
  lemma {:induction false} SettingsWithoutChange(o: ReaderOptions, ss: seq<Setting>)
    requires forall i :: 0 <= i < |ss| ==> Holds(o, ss[i])
    ensures ApplySettings(o, ss) == (o, [])
  {
    if ss != [] {
      assert ApplySetting(o, ss[0]) == (o, []);
      forall i | 0 <= i < |ss[1..]|
        ensures Holds(o, ss[1..][i])
      {
        assert ss[1..][i] == ss[i + 1];
      }
      SettingsWithoutChange(o, ss[1..]);
      var none: seq<Signal> := [];
      assert none + none == none;
      assert ApplySettings(o, ss) == (o, none + none);
    }
  }

  /** The signals `process` emits for its result: always `newResult`, then `foundBarcode` when
      the result is valid. */
  function ResultSignals(r: Result): (sigs: seq<Signal>)
    ensures |sigs| == if r.IsValid() then 2 else 1
    ensures sigs[0] == NewResult(r)
    ensures FoundBarcode(r) in sigs <==> r.IsValid()
    ensures forall sig :: sig in sigs ==> sig.NewResult? || sig.FoundBarcode?
  {
    [NewResult(r)] + (if r.IsValid() then [FoundBarcode(r)] else [])
  }

  /** A video sink, known only by its identity. */
  class VideoSink {
  }

  class BarcodeReader {
    var options: ReaderOptions
    var signals: seq<Signal>
    var sink: VideoSink?
    /** The sinks whose `videoFrameChanged` is connected to this reader's `process`, with multiplicity. */
    var connections: multiset<VideoSink>
    const littleEndian: bool
    const decode: DecodeFn

    /** The reader listens to at most one sink, once, and it is the one it holds. */
    ghost predicate Valid()
      reads this
    {
      connections == if sink == null then multiset{} else multiset{sink}
    }

    constructor (littleEndian: bool, decode: DecodeFn)
      ensures Valid()
      ensures options == DefaultOptions && signals == [] && sink == null
      ensures this.littleEndian == littleEndian && this.decode == decode
    {
      options := DefaultOptions;
      signals := [];
      sink := null;
      connections := multiset{};
      this.littleEndian := littleEndian;
      this.decode := decode;
    }

    /** `formats()`: the stored formats, so `setFormats(formats())` changes nothing. */
    function Formats(): (f: int)
      reads this
      ensures Holds(options, Setting.SetFormats(f))
    {
      options.formats
    }

    /** `setFormats`. */
    method SetFormats(newVal: int)
      requires Valid()
      modifies this`options, this`signals
      ensures Valid()
      ensures options == ApplySetting(old(options), Setting.SetFormats(newVal)).0
      ensures signals == old(signals) + ApplySetting(old(options), Setting.SetFormats(newVal)).1
    {
      if Formats() != newVal {
        options := options.(formats := newVal);
        signals := signals + [FormatsChanged];
      }
    }

    /** `setTryRotate`. */
    method SetTryRotate(newVal: bool)
      requires Valid()
      modifies this`options, this`signals
      ensures Valid()
      ensures options == ApplySetting(old(options), Setting.SetTryRotate(newVal)).0
      ensures signals == old(signals) + ApplySetting(old(options), Setting.SetTryRotate(newVal)).1
    {
      if options.tryRotate != newVal {
        options := options.(tryRotate := newVal);
        signals := signals + [TryRotateChanged];
      }
    }

    /** `setTryHarder`. */
    method SetTryHarder(newVal: bool)
      requires Valid()
      modifies this`options, this`signals
      ensures Valid()
      ensures options == ApplySetting(old(options), Setting.SetTryHarder(newVal)).0
      ensures signals == old(signals) + ApplySetting(old(options), Setting.SetTryHarder(newVal)).1
    {
      if options.tryHarder != newVal {
        options := options.(tryHarder := newVal);
        signals := signals + [TryHarderChanged];
      }
    }

    /** `setTryDownscale`. */
    method SetTryDownscale(newVal: bool)
      requires Valid()
      modifies this`options, this`signals
      ensures Valid()
      ensures options == ApplySetting(old(options), Setting.SetTryDownscale(newVal)).0
      ensures signals == old(signals) + ApplySetting(old(options), Setting.SetTryDownscale(newVal)).1
    {
      if options.tryDownscale != newVal {
        options := options.(tryDownscale := newVal);
        signals := signals + [TryDownscaleChanged];
      }
    }

    /** `process`: read one symbol from the frame with the reader's options, then announce the
      result. The options are not changed; the frame is left mapped as often as before. */
    method Process(frame: VideoFrame, log: Trace) returns (res: Result)
      requires Valid()
      modifies this`signals, frame, log
      ensures Valid()
      ensures res == FirstOrDefault(FrameResults(frame, options.(maxNumberOfSymbols := 1), littleEndian, decode))
      ensures signals == old(signals) + ResultSignals(res)
      ensures log.events == old(log.events) + FrameEvents(frame, options.(maxNumberOfSymbols := 1), littleEndian)
      ensures frame.mapCount == old(frame.mapCount)
    {
      res := ReadBarcodeFrame(frame, options, littleEndian, decode, log);
      signals := signals + [NewResult(res)];
      if res.IsValid() {
        signals := signals + [FoundBarcode(res)];
      }
    }

    /** `setVideoSink`: the same sink again changes nothing; otherwise every connection from
      the old sink is dropped and the new one, if any, is connected once. */
    method SetVideoSink(s: VideoSink?)
      requires Valid()
      modifies this`sink, this`connections
      ensures Valid() && sink == s
      ensures old(sink) == s ==> connections == old(connections)
      ensures old(sink) != null && old(sink) != s ==> old(sink) !in connections
    {
      if sink == s {
        return;
      }
      if sink != null {
        connections := connections[sink := 0];
      }
      sink := s;
      if s != null {
        connections := connections + multiset{s};
      }
    }
  }
}
