/**
  AudioEncoderFFmpeg: opening an FFmpeg audio encoder from a QtAV AudioFormat
  and encoding one AudioFrame.

  Open completes the user's format with the codec's first supported values or
  fixed defaults, configures the codec context from the result, and sizes the
  scratch buffer. Encode turns an AudioFrame into an AVFrame (or a null frame
  to flush), sends it, receives a packet and maps the status codes to its
  result and to the stored packet.

  FFmpeg is an opaque collaborator: codec lookup, avcodec_open2, the send and
  receive calls and av_get_bits_per_sample appear as their results.
 */
module AudioEncoderFFmpeg {
  import opened Wrappers
  import opened FFmpeg

  // ---------------------------------------------------------------------------
  // Sample formats

  /** QtAV's sample formats. */
  datatype SampleFormat =
    | Unknown
    | Unsigned8 | Signed16 | Signed32 | Float | Double
    | Unsigned8Planar | Signed16Planar | Signed32Planar | FloatPlanar | DoublePlanar

  /** Bytes of one sample of one channel. */
  function BytesPerSample(f: SampleFormat): (n: nat)
    ensures n == 0 <==> f == Unknown
    ensures n in {0, 1, 2, 4, 8}
  {
    match f
    case Unknown => 0
    case Unsigned8 | Unsigned8Planar => 1
    case Signed16 | Signed16Planar => 2
    case Signed32 | Float | Signed32Planar | FloatPlanar => 4
    case Double | DoublePlanar => 8
  }

  /** Whether each channel has its own plane. */
  predicate IsPlanarFormat(f: SampleFormat) {
    f.Unsigned8Planar? || f.Signed16Planar? || f.Signed32Planar? || f.FloatPlanar? || f.DoublePlanar?
  }

  /** AV_SAMPLE_FMT_NONE. */
  const AV_SAMPLE_FMT_NONE: int := -1

  /** The QtAV sample format of an AVSampleFormat code (U8 = 0 ... DBLP = 9); any other code is Unknown. */
  function SampleFormatFromFFmpeg(code: int): SampleFormat {
    if code == 0 then Unsigned8
    else if code == 1 then Signed16
    else if code == 2 then Signed32
    else if code == 3 then Float
    else if code == 4 then Double
    else if code == 5 then Unsigned8Planar
    else if code == 6 then Signed16Planar
    else if code == 7 then Signed32Planar
    else if code == 8 then FloatPlanar
    else if code == 9 then DoublePlanar
    else Unknown
  }

  /** The AVSampleFormat code of a QtAV sample format; Unknown is AV_SAMPLE_FMT_NONE. */
  function SampleFormatToFFmpeg(f: SampleFormat): int {
    match f
    case Unknown => AV_SAMPLE_FMT_NONE
    case Unsigned8 => 0
    case Signed16 => 1
    case Signed32 => 2
    case Float => 3
    case Double => 4
    case Unsigned8Planar => 5
    case Signed16Planar => 6
    case Signed32Planar => 7
    case FloatPlanar => 8
    case DoublePlanar => 9
  }

  /** The two conversions are inverse on QtAV formats and on the codes AV_SAMPLE_FMT_NONE .. 9. */
  lemma SampleFormatRoundTrip(f: SampleFormat, code: int)
    ensures SampleFormatFromFFmpeg(SampleFormatToFFmpeg(f)) == f
    ensures -1 <= code <= 9 ==> SampleFormatToFFmpeg(SampleFormatFromFFmpeg(code)) == code
  {
  }

  // ---------------------------------------------------------------------------
  // Channel layouts

  /** FFmpeg channel masks: front left, front right, front centre, and the stereo layout. */
  const AV_CH_FRONT_LEFT: nat := 1
  const AV_CH_FRONT_RIGHT: nat := 2
  const AV_CH_FRONT_CENTER: nat := 4
  const AV_CH_LAYOUT_STEREO: nat := 3
  /** AV_CH_LAYOUT_5POINT1: front left, right, centre, LFE, side left and right. */
  const AV_CH_LAYOUT_5POINT1: nat := 0x60F

  /** QtAV's channel layouts (its Mono is the same value as Center). */
  datatype ChannelLayout = Left | Right | Center | Stereo | Unsupported

  /** The QtAV layout of an FFmpeg channel mask; masks QtAV does not name are Unsupported. */
  function ChannelLayoutFromFFmpeg(mask: nat): ChannelLayout {
    if mask == AV_CH_FRONT_LEFT then Left
    else if mask == AV_CH_FRONT_RIGHT then Right
    else if mask == AV_CH_FRONT_CENTER then Center
    else if mask == AV_CH_LAYOUT_STEREO then Stereo
    else Unsupported
  }

  /** The FFmpeg mask of a QtAV layout; Unsupported is the empty mask. */
  function ChannelLayoutToFFmpeg(l: ChannelLayout): nat {
    match l
    case Left => AV_CH_FRONT_LEFT
    case Right => AV_CH_FRONT_RIGHT
    case Center => AV_CH_FRONT_CENTER
    case Stereo => AV_CH_LAYOUT_STEREO
    case Unsupported => 0
  }

  /** Converting a QtAV layout to FFmpeg and back gives it back. */
  lemma ChannelLayoutRoundTrip(l: ChannelLayout)
    ensures ChannelLayoutFromFFmpeg(ChannelLayoutToFFmpeg(l)) == l
  {
  }

  /** av_get_channel_layout_nb_channels: the number of bits set in the mask. */
  function ChannelCount(mask: nat): nat
    decreases mask
  {
    if mask == 0 then 0 else mask % 2 + ChannelCount(mask / 2)
  }

  /** A non-empty mask has at least one channel, and never more channels than its value. */
  lemma {:induction false} ChannelCountBounds(mask: nat)
    ensures mask > 0 <==> ChannelCount(mask) > 0
    ensures ChannelCount(mask) <= mask
    decreases mask
  {
    if mask > 0 {
      ChannelCountBounds(mask / 2);
    }
  }

  // ---------------------------------------------------------------------------
  // Audio format

  /**
    A QtAV AudioFormat: sample rate, sample format, FFmpeg channel mask and
    channel count. A sample rate of 0 or less means "not set".
   */
  datatype AudioFormat = AudioFormat(sampleRate: int, sampleFormat: SampleFormat, channelLayoutFFmpeg: nat, channels: nat) {

    function Layout(): ChannelLayout {
      ChannelLayoutFromFFmpeg(channelLayoutFFmpeg)
    }

    function BytesPerSampleValue(): nat {
      BytesPerSample(sampleFormat)
    }

    predicate IsPlanar() {
      IsPlanarFormat(sampleFormat)
    }

    /** setChannelLayoutFFmpeg: the mask and the channel count it implies. */
    function WithChannelLayoutFFmpeg(mask: nat): (r: AudioFormat)
      ensures r.channelLayoutFFmpeg == mask && r.channels == ChannelCount(mask)
      ensures r.sampleRate == sampleRate && r.sampleFormat == sampleFormat
    {
      this.(channelLayoutFFmpeg := mask, channels := ChannelCount(mask))
    }

    /** setChannelLayout: the QtAV layout, through its FFmpeg mask. */
    function WithChannelLayout(l: ChannelLayout): (r: AudioFormat)
      ensures r.Layout() == l
      ensures r.sampleRate == sampleRate && r.sampleFormat == sampleFormat
    {
      ChannelLayoutRoundTrip(l);
      WithChannelLayoutFFmpeg(ChannelLayoutToFFmpeg(l))
    }
  }

  /**
    What an encoder supports. Each list is null-terminated in FFmpeg; an empty
    list here stands for a null pointer. Sample formats are AVSampleFormat codes
    and layouts FFmpeg channel masks.
   */
  datatype Codec = Codec(supportedSampleRates: seq<int>, sampleFormats: seq<int>, channelLayouts: seq<nat>)

  /** The sample rate used when neither the user nor the codec gives one. */
  const DefaultSampleRate: int := 44100

  /**
    The format the encoder is opened with: each parameter the user left unset
    (rate at most 0, sample format Unknown, layout Unsupported) becomes the
    codec's first supported value, or else 44100 Hz, Signed16, stereo.
   */
  function EffectiveFormat(format: AudioFormat, codec: Codec): AudioFormat {
    WithDefaultLayout(format, WithDefaultSampleFormat(format, WithDefaultSampleRate(format, codec), codec), codec)
  }

  /** Step 1 of EffectiveFormat, on a copy of the user's format: the sample rate. */
  function WithDefaultSampleRate(format: AudioFormat, codec: Codec): AudioFormat {
    if format.sampleRate > 0 then format
    else if |codec.supportedSampleRates| > 0 then format.(sampleRate := codec.supportedSampleRates[0])
    else format.(sampleRate := DefaultSampleRate)
  }

  /** Step 2 of EffectiveFormat: the sample format, decided by the user's format `format`. */
  function WithDefaultSampleFormat(format: AudioFormat, used: AudioFormat, codec: Codec): AudioFormat {
    if format.sampleFormat != Unknown then used
    else if |codec.sampleFormats| > 0 then used.(sampleFormat := SampleFormatFromFFmpeg(codec.sampleFormats[0]))
    else used.(sampleFormat := Signed16)
  }

  /** Step 3 of EffectiveFormat: the channel layout, decided by the user's format `format`. */
  function WithDefaultLayout(format: AudioFormat, used: AudioFormat, codec: Codec): AudioFormat {
    if format.Layout() != Unsupported then used
    else if |codec.channelLayouts| > 0 then used.WithChannelLayoutFFmpeg(codec.channelLayouts[0])
    else used.WithChannelLayout(Stereo)
  }

  /**
    A positive rate, a known sample format and a layout QtAV names (Left,
    Right, Center, Stereo) are kept as they are; any other channel mask
    counts as unset.
   */
  lemma EffectiveFormatKeepsUserSettings(format: AudioFormat, codec: Codec)
    ensures format.sampleRate > 0 ==> EffectiveFormat(format, codec).sampleRate == format.sampleRate
    ensures format.sampleFormat != Unknown ==> EffectiveFormat(format, codec).sampleFormat == format.sampleFormat
    ensures format.Layout() != Unsupported ==>
      EffectiveFormat(format, codec).channelLayoutFFmpeg == format.channelLayoutFFmpeg &&
      EffectiveFormat(format, codec).channels == format.channels
    ensures format.sampleRate > 0 && format.sampleFormat != Unknown && format.Layout() != Unsupported ==>
      EffectiveFormat(format, codec) == format
  {
  }

  /** A 5.1 mask is not a layout QtAV names, so it is replaced, channel count included. */
  lemma FiveOneLayoutReplaced()
    ensures EffectiveFormat(AudioFormat(48000, Float, AV_CH_LAYOUT_5POINT1, 6), Codec([], [], [AV_CH_LAYOUT_STEREO])) ==
      AudioFormat(48000, Float, AV_CH_LAYOUT_STEREO, 2)
    ensures EffectiveFormat(AudioFormat(48000, Float, AV_CH_LAYOUT_5POINT1, 6), Codec([], [], [])) ==
      AudioFormat(48000, Float, AV_CH_LAYOUT_STEREO, 2)
  {
  }

  /** The sample rate: the requested one if positive, else the codec's first, else 44100. */
  lemma EffectiveSampleRate(format: AudioFormat, codec: Codec)
    ensures EffectiveFormat(format, codec).sampleRate ==
      if format.sampleRate > 0 then format.sampleRate
      else if |codec.supportedSampleRates| > 0 then codec.supportedSampleRates[0]
      else DefaultSampleRate
  {
  }

  /** An unset sample format becomes the codec's first supported one, else Signed16. */
  lemma EffectiveSampleFormat(format: AudioFormat, codec: Codec)
    requires format.sampleFormat == Unknown
    ensures EffectiveFormat(format, codec).sampleFormat ==
      if |codec.sampleFormats| > 0 then SampleFormatFromFFmpeg(codec.sampleFormats[0]) else Signed16
  {
  }

  /** An unsupported layout becomes the codec's first layout with its channel count, else stereo with 2 channels. */
  lemma EffectiveChannelLayout(format: AudioFormat, codec: Codec)
    requires format.Layout() == Unsupported
    ensures |codec.channelLayouts| > 0 ==>
      EffectiveFormat(format, codec).channelLayoutFFmpeg == codec.channelLayouts[0] &&
      EffectiveFormat(format, codec).channels == ChannelCount(codec.channelLayouts[0])
    ensures |codec.channelLayouts| == 0 ==>
      EffectiveFormat(format, codec).Layout() == Stereo && EffectiveFormat(format, codec).channels == 2
  {
  }

  /**
    When the codec's first supported values are usable (a positive rate, a
    sample format QtAV knows, a non-empty mask), the effective format is
    complete: positive rate, known sample format, at least one channel, as long
    as the user did not set a channel layout with no channels.
   */
  lemma EffectiveFormatComplete(format: AudioFormat, codec: Codec)
    requires |codec.supportedSampleRates| > 0 ==> codec.supportedSampleRates[0] > 0
    requires |codec.sampleFormats| > 0 ==> 0 <= codec.sampleFormats[0] <= 9
    requires |codec.channelLayouts| > 0 ==> codec.channelLayouts[0] > 0
    requires format.Layout() != Unsupported ==> format.channels > 0
    ensures EffectiveFormat(format, codec).sampleRate > 0
    ensures EffectiveFormat(format, codec).sampleFormat != Unknown
    ensures EffectiveFormat(format, codec).channels > 0
  {
    if format.Layout() == Unsupported && |codec.channelLayouts| > 0 {
      ChannelCountBounds(codec.channelLayouts[0]);
    }
  }

  // ---------------------------------------------------------------------------
  // Frame and buffer sizes

  /** The frame size used for PCM-like codecs whose context reports a frame size of at most 1. */
  const PcmFrameSize: int := 16384

  /** The frame size and the scratch buffer size open settles on. */
  datatype SizePlan = SizePlan(frameSize: int, bufferSize: int)

  /** Room for two frames of `frameSize` samples of `channels` channels of `sampleBytes` bytes, plus 200 bytes. */
  function BufferBytes(frameSize: int, sampleBytes: int, channels: int): int {
    frameSize * sampleBytes * channels * 2 + 200
  }

  /**
    The sizes derived from the frame size avcodec_open2 reported, the codec's
    bits per sample, and the effective format's bytes per sample and channels.
   */
  function PlanSizes(openedFrameSize: int, bitsPerSample: nat, bytesPerSample: nat, channels: nat): (p: SizePlan)
    ensures p.bufferSize >= AV_INPUT_BUFFER_MIN_SIZE
  {
    var pcmHack := if openedFrameSize <= 1 then bitsPerSample / 8 else 0;
    var frameSize := if pcmHack != 0 then PcmFrameSize else openedFrameSize;
    var size :=
      if pcmHack != 0 then BufferBytes(frameSize, pcmHack, channels)
      else BufferBytes(frameSize, bytesPerSample, channels);
    SizePlan(frameSize, if size < AV_INPUT_BUFFER_MIN_SIZE then AV_INPUT_BUFFER_MIN_SIZE else size)
  }

  /**
    A context frame size of at most 1 with at least 8 bits per sample selects
    the PCM sizing: 16384 samples and a buffer of 16384 x (bits / 8) x channels
    x 2 + 200 bytes, at least AV_INPUT_BUFFER_MIN_SIZE.
   */
  lemma PcmSizing(openedFrameSize: int, bitsPerSample: nat, bytesPerSample: nat, channels: nat)
    requires openedFrameSize <= 1 && bitsPerSample / 8 != 0
    ensures PlanSizes(openedFrameSize, bitsPerSample, bytesPerSample, channels).frameSize == PcmFrameSize
    ensures PlanSizes(openedFrameSize, bitsPerSample, bytesPerSample, channels).bufferSize ==
      var size := PcmFrameSize * (bitsPerSample / 8) * channels * 2 + 200;
      if size < AV_INPUT_BUFFER_MIN_SIZE then AV_INPUT_BUFFER_MIN_SIZE else size
  {
  }

  /**
    Otherwise the reported frame size is kept and the buffer holds two frames of
    interleaved samples plus 200 bytes, at least AV_INPUT_BUFFER_MIN_SIZE.
   */
  lemma FrameSizing(openedFrameSize: int, bitsPerSample: nat, bytesPerSample: nat, channels: nat)
    requires openedFrameSize > 1 || bitsPerSample / 8 == 0
    ensures PlanSizes(openedFrameSize, bitsPerSample, bytesPerSample, channels).frameSize == openedFrameSize
    ensures PlanSizes(openedFrameSize, bitsPerSample, bytesPerSample, channels).bufferSize ==
      var size := openedFrameSize * bytesPerSample * channels * 2 + 200;
      if size < AV_INPUT_BUFFER_MIN_SIZE then AV_INPUT_BUFFER_MIN_SIZE else size
    ensures PlanSizes(openedFrameSize, bitsPerSample, bytesPerSample, channels).bufferSize >=
      openedFrameSize * bytesPerSample * channels * 2
  {
  }

  // ---------------------------------------------------------------------------
  // Codec context

  /** The fields of the AVCodecContext that open sets. */
  datatype EncoderContext = EncoderContext(
    sampleFmt: int,
    channelLayout: nat,
    channels: nat,
    sampleRate: int,
    bitsPerRawSample: int,
    timeBase: Rational,
    bitRate: int,
    frameSize: int)

  /** A context straight from avcodec_alloc_context3, as far as these fields go. */
  const FreshContext: EncoderContext := EncoderContext(AV_SAMPLE_FMT_NONE, 0, 0, 0, 0, Rational(0, 1), 0, 0)

  // ---------------------------------------------------------------------------
  // Encoding status

  /** What is handed to the send call: nothing (allocation failed), a null frame (flush), or the built frame. */
  datatype SendKind = NotSent | SentNull | SentFrame

  /** What happens to the stored packet. */
  datatype PacketEffect = KeepPacket | ClearPacket | StorePacket

  datatype EncodeOutcome = EncodeOutcome(sent: SendKind, ok: bool, effect: PacketEffect)

  /**
    The status logic of encode: `frameValid` is frame.isValid(), `allocOk`
    whether av_frame_alloc succeeded, `sendRet` and `receiveRet` the codes of
    the send and receive calls.
   */
  function EncodeStep(frameValid: bool, allocOk: bool, sendRet: int, receiveRet: int): (r: EncodeOutcome)
    ensures r.effect == StorePacket ==> r.ok
  {
    if frameValid && !allocOk then EncodeOutcome(NotSent, false, KeepPacket)
    else
      var sent := if frameValid then SentFrame else SentNull;
      if sendRet < 0 then EncodeOutcome(sent, false, KeepPacket)
      else if receiveRet == AVERROR_EAGAIN then EncodeOutcome(sent, frameValid, ClearPacket)
      else if receiveRet == AVERROR_EOF then EncodeOutcome(sent, false, ClearPacket)
      else if receiveRet < 0 then EncodeOutcome(sent, false, KeepPacket)
      else EncodeOutcome(sent, true, StorePacket)
  }

  /** An invalid frame is never allocated: a null frame is sent, which asks the encoder to flush. */
  lemma InvalidFrameFlushes(allocOk: bool, sendRet: int, receiveRet: int)
    ensures EncodeStep(false, allocOk, sendRet, receiveRet).sent == SentNull
  {
  }

  /**
    encode returns true exactly when the send succeeds and either a packet is
    received or the encoder wants more input for a valid frame.
   */
  lemma EncodeResultIff(frameValid: bool, allocOk: bool, sendRet: int, receiveRet: int)
    ensures EncodeStep(frameValid, allocOk, sendRet, receiveRet).ok <==>
      (frameValid ==> allocOk) && sendRet >= 0 &&
      (receiveRet >= 0 || (receiveRet == AVERROR_EAGAIN && frameValid))
  {
  }

  /**
    The stored packet is emptied exactly on EAGAIN or EOF after a successful
    send, replaced exactly on a successful receive, and kept on every error.
   */
  lemma EncodePacketEffect(frameValid: bool, allocOk: bool, sendRet: int, receiveRet: int)
    ensures var r := EncodeStep(frameValid, allocOk, sendRet, receiveRet);
      var sent := (frameValid ==> allocOk) && sendRet >= 0;
      && (r.effect == ClearPacket <==> sent && (receiveRet == AVERROR_EAGAIN || receiveRet == AVERROR_EOF))
      && (r.effect == StorePacket <==> sent && receiveRet >= 0)
      && (r.effect == KeepPacket <==> !sent || (receiveRet < 0 && receiveRet != AVERROR_EAGAIN && receiveRet != AVERROR_EOF))
  {
  }

  // ---------------------------------------------------------------------------
  // Frames and packets

  /**
    A QtAV AudioFrame: whether it is valid, its format, and one opaque data
    reference per plane (planeCount() is the number of planes).
   */
  datatype AudioFrame = AudioFrame(valid: bool, format: AudioFormat, planes: seq<int>)

  /** A QtAV Packet: the empty Packet(), or one converted from an AVPacket. */
  datatype Packet = NoPacket | Encoded(data: seq<bv8>)

  /** Bytes between consecutive samples of one plane: one channel if planar, all channels if interleaved. */
  function SampleStride(fmt: AudioFormat): (n: int)
    ensures n >= 0
    ensures n * (if fmt.IsPlanar() then fmt.channels else 1) == fmt.BytesPerSampleValue() * fmt.channels
  {
    if fmt.IsPlanar() then fmt.BytesPerSampleValue() else fmt.BytesPerSampleValue() * fmt.channels
  }

  /**
    The loop that fills the frame's planes stores linesize[i] and
    extended_data[i] for every plane i < planeCount. In a frame from
    av_frame_alloc both hold AV_NUM_DATA_POINTERS entries, so the loop stays
    inside them only for frames with at most that many planes.
   */
  predicate PlaneLoopInBounds(frame: AudioFrame) {
    |frame.planes| <= AV_NUM_DATA_POINTERS
  }

  /**
    The plane loop as written: linesize[i] and extended_data[i], which
    av_frame_alloc points at data, for every plane. Its index checks hold only
    under PlaneLoopInBounds.
   */
  method PlaneLoopAsWritten(f: AVFrame, frame: AudioFrame, lineSize: int)
    requires PlaneLoopInBounds(frame)
    requires f.linesize.Length == AV_NUM_DATA_POINTERS && f.data.Length == AV_NUM_DATA_POINTERS
    requires f.extendedData == f.data && f.linesize != f.data
    modifies f.linesize, f.data
    ensures f.extendedData == f.data
    ensures forall i :: 0 <= i < AV_NUM_DATA_POINTERS ==>
      f.linesize[i] == (if i < |frame.planes| then lineSize else old(f.linesize[i])) &&
      f.data[i] == (if i < |frame.planes| then frame.planes[i] else old(f.data[i]))
  {
    var n := |frame.planes|;
    var i := 0;
    while i < n
      invariant 0 <= i <= n
      invariant f.extendedData == f.data
      invariant forall k :: 0 <= k < AV_NUM_DATA_POINTERS ==>
        f.linesize[k] == (if k < i then lineSize else old(f.linesize[k])) &&
        f.data[k] == (if k < i then frame.planes[k] else old(f.data[k]))
    {
      f.linesize[i] := lineSize;
      f.extendedData[i] := frame.planes[i];
      i := i + 1;
    }
  }

  /** A valid planar frame with nine channels, one plane each. */
  const NineChannelPlanarFrame: AudioFrame :=
    AudioFrame(true, AudioFormat(48000, FloatPlanar, 0x1FF, 9), [1, 2, 3, 4, 5, 6, 7, 8, 9])

  /** The plane loop as written runs past the frame's arrays for a nine-channel planar frame. */
  lemma PlaneLoopOverrunsForNinePlanes()
    ensures NineChannelPlanarFrame.valid && NineChannelPlanarFrame.format.IsPlanar()
    ensures NineChannelPlanarFrame.format.channels == |NineChannelPlanarFrame.planes|
    ensures !PlaneLoopInBounds(NineChannelPlanarFrame)
  {
  }

  /** An AVFrame, with the fields encode sets. Data references are opaque integers; 0 is null. */
  class AVFrame {
    var format: int
    var channelLayout: nat
    var nbSamples: int
    var sampleRate: int
    var channels: nat
    const linesize: array<int>
    const data: array<int>
    var extendedData: array<int>

    /** av_frame_alloc: no format, empty inline arrays, extended_data pointing at data. */
    constructor ()
      ensures fresh(linesize) && fresh(data)
      ensures linesize.Length == AV_NUM_DATA_POINTERS && data.Length == AV_NUM_DATA_POINTERS
      ensures linesize != data && extendedData == data
      ensures forall i :: 0 <= i < AV_NUM_DATA_POINTERS ==> linesize[i] == 0 && data[i] == 0
      ensures format == AV_SAMPLE_FMT_NONE && nbSamples == 0
    {
      format, channelLayout, nbSamples, sampleRate, channels := AV_SAMPLE_FMT_NONE, 0, 0, 0, 0;
      linesize := new int[AV_NUM_DATA_POINTERS](_ => 0);
      data := new int[AV_NUM_DATA_POINTERS](_ => 0);
      new;
      extendedData := data;
    }
  }

  /**
    The plane loop, corrected: every plane gets its data reference in
    extended_data, which is allocated apart from the inline array when there
    are more planes than AV_NUM_DATA_POINTERS; the inline data and linesize
    entries are set for the planes that have one.
   */
  method SetPlanes(f: AVFrame, planes: seq<int>, lineSize: int)
    requires f.linesize.Length == AV_NUM_DATA_POINTERS && f.data.Length == AV_NUM_DATA_POINTERS
    requires f.extendedData == f.data && f.linesize != f.data
    modifies f`extendedData, f.linesize, f.data
    ensures |planes| <= AV_NUM_DATA_POINTERS ==> f.extendedData == f.data
    ensures |planes| > AV_NUM_DATA_POINTERS ==> fresh(f.extendedData) && f.extendedData.Length == |planes|
    ensures f.extendedData.Length >= |planes|
    ensures forall i :: 0 <= i < |planes| ==> f.extendedData[i] == planes[i]
    ensures forall i :: 0 <= i < AV_NUM_DATA_POINTERS ==>
      f.linesize[i] == (if i < |planes| then lineSize else old(f.linesize[i])) &&
      f.data[i] == (if i < |planes| then planes[i] else old(f.data[i]))
  {
    if |planes| > AV_NUM_DATA_POINTERS {
      f.extendedData := new int[|planes|];
    }
    var n := |planes|;
    var i := 0;
    while i < n
      invariant 0 <= i <= n
      invariant f.linesize.Length == AV_NUM_DATA_POINTERS && f.data.Length == AV_NUM_DATA_POINTERS
      invariant n <= AV_NUM_DATA_POINTERS ==> f.extendedData == f.data
      invariant n > AV_NUM_DATA_POINTERS ==> fresh(f.extendedData) && f.extendedData.Length == n
      invariant forall k :: 0 <= k < i ==> f.extendedData[k] == planes[k]
      invariant forall k :: 0 <= k < AV_NUM_DATA_POINTERS ==>
        f.linesize[k] == (if k < i then lineSize else old(f.linesize[k])) &&
        f.data[k] == (if k < i then planes[k] else old(f.data[k]))
    {
      if i < AV_NUM_DATA_POINTERS {
        f.linesize[i] := lineSize;
        f.data[i] := planes[i];
      }
      f.extendedData[i] := planes[i];
      i := i + 1;
    }
  }

  // ---------------------------------------------------------------------------
  // The encoder

  /** AudioEncoderFFmpeg with its private part. */
  class AudioEncoder {
    var codecName: string
    var format: AudioFormat
    var formatUsed: AudioFormat
    var bitRate: int
    var avctx: EncoderContext
    var frameSize: int
    /** Size of the scratch QByteArray; its contents are never read here. */
    var bufferSize: nat
    var packet: Packet

    constructor (name: string, fmt: AudioFormat, rate: int)
      ensures codecName == name && format == fmt && formatUsed == fmt && bitRate == rate
      ensures avctx == FreshContext && frameSize == 0 && bufferSize == 0 && packet == NoPacket
    {
      codecName, format, formatUsed, bitRate := name, fmt, fmt, rate;
      avctx, frameSize, bufferSize, packet := FreshContext, 0, 0, NoPacket;
    }

    /**
      open. `found` is the encoder found by name or by descriptor (None if
      neither finds one), `openRet` what avcodec_open2 returns,
      `openedFrameSize` the frame size it leaves in the context, and
      `bitsPerSample` what av_get_bits_per_sample says of the codec.
     */
    method Open(found: Option<Codec>, openRet: int, openedFrameSize: int, bitsPerSample: nat) returns (ok: bool)
      modifies this`formatUsed, this`avctx, this`frameSize, this`bufferSize
      ensures codecName == [] ==> ok == (openRet >= 0) && unchanged(this)
      ensures codecName != [] && found.None? ==> !ok && unchanged(this)
      ensures codecName != [] && found.Some? ==>
        && formatUsed == EffectiveFormat(format, found.value)
        && avctx.sampleFmt == SampleFormatToFFmpeg(formatUsed.sampleFormat)
        && avctx.channelLayout == formatUsed.channelLayoutFFmpeg
        && avctx.channels == formatUsed.channels
        && avctx.sampleRate == formatUsed.sampleRate
        && avctx.bitsPerRawSample == 8 * formatUsed.BytesPerSampleValue()
        && avctx.timeBase == Rational(1, formatUsed.sampleRate)
        && avctx.bitRate == bitRate
        && ok == (openRet >= 0)
        && (ok ==>
              var plan := PlanSizes(openedFrameSize, bitsPerSample, formatUsed.BytesPerSampleValue(), formatUsed.channels);
              avctx.frameSize == openedFrameSize && frameSize == plan.frameSize && bufferSize == plan.bufferSize)
        && (!ok ==> avctx.frameSize == FreshContext.frameSize && frameSize == old(frameSize) && bufferSize == old(bufferSize))
    {
      if codecName == [] {
        return openRet >= 0;
      }
      if found.None? {
        return false;
      }
      var codec := found.value;
      var ctx := FreshContext;

      // format_used starts as the user's format; only unset parameters are replaced
      var used := format;
      if format.sampleRate <= 0 {
        if |codec.supportedSampleRates| > 0 {
          used := used.(sampleRate := codec.supportedSampleRates[0]);
        } else {
          used := used.(sampleRate := DefaultSampleRate);
        }
      }
      if format.sampleFormat == Unknown {
        if |codec.sampleFormats| > 0 {
          used := used.(sampleFormat := SampleFormatFromFFmpeg(codec.sampleFormats[0]));
        } else {
          used := used.(sampleFormat := Signed16);
        }
      }
      if format.Layout() == Unsupported {
        if |codec.channelLayouts| > 0 {
          used := used.WithChannelLayoutFFmpeg(codec.channelLayouts[0]);
        } else {
          used := used.WithChannelLayout(Stereo);
        }
      }
      assert used == EffectiveFormat(format, codec);
      formatUsed := used;
      ctx := ctx.(sampleFmt := SampleFormatToFFmpeg(used.sampleFormat));
      ctx := ctx.(channelLayout := used.channelLayoutFFmpeg);
      ctx := ctx.(channels := used.channels);
      ctx := ctx.(sampleRate := used.sampleRate);
      ctx := ctx.(bitsPerRawSample := used.BytesPerSampleValue() * 8);
      ctx := ctx.(timeBase := Rational(1, used.sampleRate));
      ctx := ctx.(bitRate := bitRate);
      avctx := ctx;

      if openRet < 0 {
        return false;
      }
      avctx := avctx.(frameSize := openedFrameSize);
      // from mpv's ao_lavc: PCM-like codecs report a frame size of at most 1
      var pcmHack := 0;
      var size := 0;
      var samples := openedFrameSize;
      if samples <= 1 {
        pcmHack := bitsPerSample / 8;
      }
      if pcmHack != 0 {
        samples := PcmFrameSize;
        size := BufferBytes(samples, pcmHack, used.channels);
      } else {
        size := BufferBytes(samples, used.BytesPerSampleValue(), used.channels);
      }
      if size < AV_INPUT_BUFFER_MIN_SIZE {
        size := AV_INPUT_BUFFER_MIN_SIZE;
      }
      frameSize, bufferSize := samples, size;
      return true;
    }

    /**
      The AVFrame encode builds for a valid AudioFrame: the frame's format,
      frame_size samples, and every plane with line size frame_size x stride.
     */
    method NewFrame(frame: AudioFrame) returns (f: AVFrame)
      ensures fresh(f) && fresh(f.linesize) && fresh(f.data)
      ensures f.format == SampleFormatToFFmpeg(frame.format.sampleFormat)
      ensures f.channelLayout == frame.format.channelLayoutFFmpeg
      ensures f.nbSamples == frameSize
      ensures f.sampleRate == frame.format.sampleRate && f.channels == frame.format.channels
      ensures f.linesize.Length == AV_NUM_DATA_POINTERS && f.data.Length == AV_NUM_DATA_POINTERS
      ensures forall i :: 0 <= i < AV_NUM_DATA_POINTERS ==>
        f.linesize[i] == (if i < |frame.planes| then frameSize * SampleStride(frame.format) else 0)
      ensures forall i :: 0 <= i < AV_NUM_DATA_POINTERS ==>
        f.data[i] == (if i < |frame.planes| then frame.planes[i] else 0)
      ensures |frame.planes| <= AV_NUM_DATA_POINTERS ==> f.extendedData == f.data
      ensures |frame.planes| > AV_NUM_DATA_POINTERS ==> fresh(f.extendedData) && f.extendedData.Length == |frame.planes|
      ensures f.extendedData.Length >= |frame.planes|
      ensures forall i :: 0 <= i < |frame.planes| ==> f.extendedData[i] == frame.planes[i]
    {
      f := new AVFrame();
      var fmt := frame.format;
      f.format := SampleFormatToFFmpeg(fmt.sampleFormat);
      f.channelLayout := fmt.channelLayoutFFmpeg;
      f.nbSamples := frameSize;
      var sampleStride := if fmt.IsPlanar() then fmt.BytesPerSampleValue() else fmt.BytesPerSampleValue() * fmt.channels;
      SetPlanes(f, frame.planes, f.nbSamples * sampleStride);
      f.sampleRate := fmt.sampleRate;
      f.channels := fmt.channels;
    }

    /**
      encode. `allocOk` is whether av_frame_alloc succeeds, `sendRet` and
      `receiveRet` the codes of the send and receive calls, and `payload` the
      packet a successful receive yields.
     */
    method Encode(frame: AudioFrame, allocOk: bool, sendRet: int, receiveRet: int, payload: seq<bv8>)
      returns (ok: bool, ghost sent: SendKind)
      modifies this`packet
      ensures var o := EncodeStep(frame.valid, allocOk, sendRet, receiveRet);
        && ok == o.ok
        && sent == o.sent
        && packet == match o.effect
                     case KeepPacket => old(packet)
                     case ClearPacket => NoPacket
                     case StorePacket => Encoded(payload)
    {
      var f: Option<AVFrame> := None;
      if frame.valid {
        if !allocOk {
          sent := NotSent;
          return false, sent;
        }
        var built := NewFrame(frame);
        f := Some(built);
      }
      sent := if f.Some? then SentFrame else SentNull;
      if sendRet < 0 {
        return false, sent;
      }
      if receiveRet == AVERROR_EAGAIN {
        packet := NoPacket;
        return frame.valid, sent;
      } else if receiveRet == AVERROR_EOF {
        packet := NoPacket;
        return false, sent;
      } else if receiveRet < 0 {
        return false, sent;
      }
      packet := Encoded(payload);
      return true, sent;
    }
  }
}
