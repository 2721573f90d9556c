/**
  VideoDecoderFFmpegBase: how a decoded FFmpeg frame becomes a QtAV VideoFrame.

  The decoder sends a packet, receives a frame, and remembers its size
  (Decode); Frame then builds a VideoFrame from the received frame, with a
  display aspect ratio (Dar) and a colour space and range chosen by an ordered
  fallback cascade (SetColorDetailsByFFmpeg, UpdateColorDetails).

  FFmpeg is an opaque collaborator: the return codes of the send and receive
  calls, the frame they fill in, and the RGB flag of the coded pixel format's
  descriptor are inputs. Colour tags are taken as already translated to QtAV's
  enums by colorSpaceFromFFmpeg / colorRangeFromFFmpeg.
 */
module VideoDecoderFFmpegBase {
  import opened Wrappers
  import opened FFmpeg

  /** QtAV's colour spaces, as far as this file names them. */
  datatype ColorSpace = Unknown | RGB | GBR | BT601 | BT709 | XYZ

  /** QtAV's colour ranges. */
  datatype ColorRange = Unknown | Limited | Full

  /**
    FFmpeg pixel formats. The legacy full-range ("J") YUV formats are named;
    every other AVPixelFormat value is `Other(id)`, and no `Other(id)` stands
    for one of the named formats.
   */
  datatype PixelFormat = YUVJ420P | YUVJ422P | YUVJ440P | YUVJ444P | YUVJ411P | Other(id: int)

  /** AV_PIX_FMT_NONE. */
  const PixelFormatNone: PixelFormat := Other(-1)

  /**
    A QtAV VideoFormat, reduced to what this file asks of it: the FFmpeg pixel
    format it stands for and its classification.
   */
  datatype VideoFormat = VideoFormat(pixelFormat: PixelFormat, isRGB: bool, isXYZ: bool, isPlanar: bool)

  /** The format of a default-constructed VideoFrame. */
  const InvalidFormat: VideoFormat := VideoFormat(PixelFormatNone, false, false, false)

  /** The fields of the AVFrame (`d.frame`) that this file reads. */
  datatype DecodedFrame = DecodedFrame(
    format: PixelFormat,
    width: int,
    height: int,
    colorSpace: ColorSpace,
    colorRange: ColorRange,
    sampleAspectRatio: Rational)

  /**
    The fields of the AVCodecContext that this file reads. `format` is
    VideoFormat(codec_ctx->pix_fmt); `codedRgb` is the RGB flag of that pixel
    format's descriptor.
   */
  datatype CodecContext = CodecContext(
    format: VideoFormat,
    codedRgb: bool,
    colorSpace: ColorSpace,
    colorRange: ColorRange,
    width: int,
    height: int,
    sampleAspectRatio: Rational)

  /** A colour space together with a colour range. */
  datatype Colorimetry = Colorimetry(space: ColorSpace, range: ColorRange)

  // ---------------------------------------------------------------------------
  // The ordered cascade

  /** The first entry of `rules` that is not `unknown`, or `unknown` if there is none. */
  function FirstKnown<T(==)>(unknown: T, rules: seq<T>): T
    decreases |rules|
  {
    if rules == [] then unknown
    else if rules[0] != unknown then rules[0]
    else FirstKnown(unknown, rules[1..])
  }

  /**
    FirstKnown picks the earliest known rule: it is `unknown` exactly when every
    rule is, and otherwise it is some rule `k` with all rules before `k` unknown.
   */
  lemma {:induction false} FirstKnownIsEarliestKnown<T>(unknown: T, rules: seq<T>)
    ensures FirstKnown(unknown, rules) == unknown <==> forall i :: 0 <= i < |rules| ==> rules[i] == unknown
    ensures FirstKnown(unknown, rules) != unknown ==>
      exists k :: 0 <= k < |rules| && rules[k] == FirstKnown(unknown, rules) &&
        forall j :: 0 <= j < k ==> rules[j] == unknown
    decreases |rules|
  {
    if rules != [] && rules[0] == unknown {
      var tail := rules[1..];
      FirstKnownIsEarliestKnown(unknown, tail);
      assert forall i :: 1 <= i < |rules| ==> rules[i] == tail[i - 1];
      if FirstKnown(unknown, tail) != unknown {
        var k :| 0 <= k < |tail| && tail[k] == FirstKnown(unknown, tail) &&
          forall j :: 0 <= j < k ==> tail[j] == unknown;
        assert rules[k + 1] == tail[k];
        assert forall j :: 0 <= j < k + 1 ==> rules[j] == unknown by {
          forall j | 0 <= j < k + 1 ensures rules[j] == unknown {
            if j > 0 { assert rules[j] == tail[j - 1]; }
          }
        }
      } else {
        assert forall i :: 0 <= i < |rules| ==> rules[i] == unknown by {
          forall i | 0 <= i < |rules| ensures rules[i] == unknown {
            if i > 0 { assert rules[i] == tail[i - 1]; }
          }
        }
      }
    }
  }

  /** Unfolding FirstKnown once on an explicit head. */
  lemma FirstKnownCons<T>(unknown: T, x: T, rest: seq<T>)
    ensures FirstKnown(unknown, [x] + rest) == if x != unknown then x else FirstKnown(unknown, rest)
  {
    assert ([x] + rest)[1..] == rest;
  }

  /** The four legacy full-range YUV formats matched at lines 44-47 (YUVJ411P is not among them). */
  predicate IsFullRangeYuv(p: PixelFormat) {
    p == YUVJ420P || p == YUVJ422P || p == YUVJ440P || p == YUVJ444P
  }

  /** The colour space rules, in order: the frame's tag, then the codec context's. */
  function SpaceRules(frame: DecodedFrame, ctx: CodecContext): seq<ColorSpace> {
    [frame.colorSpace, ctx.colorSpace]
  }

  /**
    The colour range rules, in order: the frame's tag; Full for a legacy
    full-range YUV frame; the codec context's tag; Full for an XYZ output
    format; Limited for a non-RGB output format. `fmt` is the VideoFrame's own
    format; the full-range test looks at the AVFrame's pixel format.
   */
  function RangeRules(fmt: VideoFormat, frame: DecodedFrame, ctx: CodecContext): seq<ColorRange> {
    [ frame.colorRange,
      if IsFullRangeYuv(frame.format) then Full else ColorRange.Unknown,
      ctx.colorRange,
      if fmt.isXYZ then Full else ColorRange.Unknown,
      if !fmt.isRGB then Limited else ColorRange.Unknown ]
  }

  /** What SetColorDetailsByFFmpeg writes: the first known rule of each list. */
  function FFmpegColorimetry(fmt: VideoFormat, frame: DecodedFrame, ctx: CodecContext): Colorimetry {
    Colorimetry(FirstKnown(ColorSpace.Unknown, SpaceRules(frame, ctx)),
                FirstKnown(ColorRange.Unknown, RangeRules(fmt, frame, ctx)))
  }

  /** What updateColorDetails writes for a VideoFrame of format `fmt` and size `width` x `height`. */
  function FrameColorimetry(fmt: VideoFormat, width: int, height: int, frame: DecodedFrame, ctx: CodecContext): Colorimetry {
    if fmt.pixelFormat == frame.format then FFmpegColorimetry(fmt, frame, ctx)
    else if fmt.isRGB then Colorimetry(if fmt.isPlanar then GBR else RGB, Full)
    else if ctx.codedRgb then Colorimetry(if width >= 1280 && height >= 576 then BT709 else BT601, Limited)
    else FFmpegColorimetry(fmt, frame, ctx)
  }

  // ---------------------------------------------------------------------------
  // Properties of the cascade

  /** The colour space is the frame's tag when known, otherwise the codec context's (which may be Unknown too). */
  lemma ColorSpaceFromTags(fmt: VideoFormat, frame: DecodedFrame, ctx: CodecContext)
    ensures FFmpegColorimetry(fmt, frame, ctx).space ==
      if frame.colorSpace != ColorSpace.Unknown then frame.colorSpace else ctx.colorSpace
  {
    FirstKnownCons(ColorSpace.Unknown, frame.colorSpace, [ctx.colorSpace]);
    FirstKnownCons(ColorSpace.Unknown, ctx.colorSpace, []);
  }

  /** The colour range cascade written out as the nested decisions of lines 38-65. */
  lemma ColorRangeCascade(fmt: VideoFormat, frame: DecodedFrame, ctx: CodecContext)
    ensures FFmpegColorimetry(fmt, frame, ctx).range ==
      if frame.colorRange != ColorRange.Unknown then frame.colorRange
      else if IsFullRangeYuv(frame.format) then Full
      else if ctx.colorRange != ColorRange.Unknown then ctx.colorRange
      else if fmt.isXYZ then Full
      else if !fmt.isRGB then Limited
      else ColorRange.Unknown
  {
    var r := RangeRules(fmt, frame, ctx);
    var u := ColorRange.Unknown;
    FirstKnownCons(u, r[0], r[1..]);
    FirstKnownCons(u, r[1], r[2..]);
    FirstKnownCons(u, r[2], r[3..]);
    FirstKnownCons(u, r[3], r[4..]);
    FirstKnownCons(u, r[4], r[5..]);
    assert r == [r[0]] + r[1..];
    assert r[1..] == [r[1]] + r[2..];
    assert r[2..] == [r[2]] + r[3..];
    assert r[3..] == [r[3]] + r[4..];
    assert r[4..] == [r[4]] + r[5..];
    assert r[5..] == [];
  }

  /** A known frame range tag always wins, over the codec context's tag and every format rule. */
  lemma KnownFrameRangeWins(fmt: VideoFormat, frame: DecodedFrame, ctx: CodecContext)
    requires frame.colorRange != ColorRange.Unknown
    ensures FFmpegColorimetry(fmt, frame, ctx).range == frame.colorRange
  {
    ColorRangeCascade(fmt, frame, ctx);
  }

  /** An unknown frame range on a legacy full-range YUV frame is Full, whatever the codec context says. */
  lemma FullRangeYuvForcesFull(fmt: VideoFormat, frame: DecodedFrame, ctx: CodecContext)
    requires frame.colorRange == ColorRange.Unknown && IsFullRangeYuv(frame.format)
    ensures FFmpegColorimetry(fmt, frame, ctx).range == Full
  {
    ColorRangeCascade(fmt, frame, ctx);
  }

  /**
    The range stays Unknown exactly for an RGB, non-XYZ output whose tags are
    all Unknown and whose frame is not a legacy full-range YUV format.
   */
  lemma RangeUnknownIff(fmt: VideoFormat, frame: DecodedFrame, ctx: CodecContext)
    ensures FFmpegColorimetry(fmt, frame, ctx).range == ColorRange.Unknown <==>
      frame.colorRange == ColorRange.Unknown && !IsFullRangeYuv(frame.format) &&
      ctx.colorRange == ColorRange.Unknown && !fmt.isXYZ && fmt.isRGB
  {
    ColorRangeCascade(fmt, frame, ctx);
  }

  /** A non-RGB output format always ends with a known range (the YUV path has a terminal default). */
  lemma NonRgbRangeResolved(fmt: VideoFormat, frame: DecodedFrame, ctx: CodecContext)
    requires !fmt.isRGB
    ensures FFmpegColorimetry(fmt, frame, ctx).range != ColorRange.Unknown
  {
    RangeUnknownIff(fmt, frame, ctx);
  }

  /**
    The XYZ branch changes only the range: the colour space written does not
    depend on whether the output format is XYZ.
   */
  lemma XyzKeepsColorSpace(fmt: VideoFormat, frame: DecodedFrame, ctx: CodecContext)
    requires fmt.isXYZ && frame.colorRange == ColorRange.Unknown && !IsFullRangeYuv(frame.format)
    requires ctx.colorRange == ColorRange.Unknown
    ensures FFmpegColorimetry(fmt, frame, ctx).range == Full
    ensures FFmpegColorimetry(fmt, frame, ctx).space == FFmpegColorimetry(fmt.(isXYZ := false), frame, ctx).space
    ensures FFmpegColorimetry(fmt, frame, ctx).space ==
      if frame.colorSpace != ColorSpace.Unknown then frame.colorSpace else ctx.colorSpace
  {
    ColorRangeCascade(fmt, frame, ctx);
    ColorSpaceFromTags(fmt, frame, ctx);
  }

  /** An RGB output that differs from the decoded format is GBR or RGB by planarity, full range, whatever the tags say. */
  lemma MismatchedRgbOutput(fmt: VideoFormat, width: int, height: int, frame: DecodedFrame, ctx: CodecContext)
    requires fmt.pixelFormat != frame.format && fmt.isRGB
    ensures FrameColorimetry(fmt, width, height, frame, ctx) == Colorimetry(if fmt.isPlanar then GBR else RGB, Full)
  {
  }

  /** A YUV output of an RGB-coded stream is BT709 exactly for frames of at least 1280 x 576, else BT601, limited range. */
  lemma MismatchedYuvOfRgbCoded(fmt: VideoFormat, width: int, height: int, frame: DecodedFrame, ctx: CodecContext)
    requires fmt.pixelFormat != frame.format && !fmt.isRGB && ctx.codedRgb
    ensures FrameColorimetry(fmt, width, height, frame, ctx).range == Limited
    ensures FrameColorimetry(fmt, width, height, frame, ctx).space == BT709 <==> width >= 1280 && height >= 576
    ensures FrameColorimetry(fmt, width, height, frame, ctx).space == BT601 <==> !(width >= 1280 && height >= 576)
  {
  }

  /** A YUV output of a YUV-coded stream goes through the same cascade as a matching format. */
  lemma MismatchedYuvOfYuvCoded(fmt: VideoFormat, width: int, height: int, frame: DecodedFrame, ctx: CodecContext)
    requires !fmt.isRGB && !ctx.codedRgb
    ensures FrameColorimetry(fmt, width, height, frame, ctx) == FFmpegColorimetry(fmt, frame, ctx)
  {
  }

  /** Whenever the output format is not RGB, updateColorDetails leaves a known range. */
  lemma NonRgbOutputRangeResolved(fmt: VideoFormat, width: int, height: int, frame: DecodedFrame, ctx: CodecContext)
    requires !fmt.isRGB
    ensures FrameColorimetry(fmt, width, height, frame, ctx).range != ColorRange.Unknown
  {
    if fmt.pixelFormat == frame.format || !ctx.codedRgb {
      NonRgbRangeResolved(fmt, frame, ctx);
    }
  }

  /**
    An RGB output in its decoded format with every tag unknown keeps range
    Unknown: resolution does not always end with a known range.
   */
  lemma RgbWithoutTagsStaysUnknown(fmt: VideoFormat, width: int, height: int, frame: DecodedFrame, ctx: CodecContext)
    requires fmt.pixelFormat == frame.format && fmt.isRGB && !fmt.isXYZ
    requires frame.colorRange == ColorRange.Unknown && ctx.colorRange == ColorRange.Unknown
    requires !IsFullRangeYuv(frame.format)
    ensures FrameColorimetry(fmt, width, height, frame, ctx).range == ColorRange.Unknown
  {
    RangeUnknownIff(fmt, frame, ctx);
  }

  // ---------------------------------------------------------------------------
  // Display aspect ratio

  /**
    The sample aspect ratio getDAR multiplies by: the frame's when its
    numerator exceeds 1, else the codec context's (if there is a context)
    under the same test, else none.
   */
  function ChosenSar(frameSar: Rational, ctx: Option<CodecContext>): (r: Option<Rational>)
    ensures r.Some? ==> r.value.num > 1
    ensures r.Some? <==> frameSar.num > 1 || (ctx.Some? && ctx.value.sampleAspectRatio.num > 1)
    ensures frameSar.num > 1 ==> r == Some(frameSar)
    ensures frameSar.num <= 1 && r.Some? ==> ctx.Some? && r == Some(ctx.value.sampleAspectRatio)
  {
    if frameSar.num > 1 then Some(frameSar)
    else if ctx.Some? && ctx.value.sampleAspectRatio.num > 1 then Some(ctx.value.sampleAspectRatio)
    else None
  }

  /** width / height when the height is positive, else 0. */
  function BaseRatio(width: int, height: int): real {
    if height > 0 then width as real / height as real else 0.0
  }

  /** `x` multiplied by av_q2d(q); None when q has a zero denominator. */
  function ScaleBy(x: real, q: Rational): (r: Option<real>)
    ensures r.Some? <==> q.den != 0
  {
    match Q2d(q)
    case None => None
    case Some(v) => Some(x * v)
  }

  /**
    getDAR over the reals: the base ratio, multiplied by the chosen sample
    aspect ratio. None when that ratio has a zero denominator (a non-finite
    floating-point result).
   */
  function Dar(frame: DecodedFrame, ctx: Option<CodecContext>): (r: Option<real>)
    ensures ChosenSar(frame.sampleAspectRatio, ctx).None? ==> r == Some(BaseRatio(frame.width, frame.height))
    ensures r.None? <==> ChosenSar(frame.sampleAspectRatio, ctx).Some? && ChosenSar(frame.sampleAspectRatio, ctx).value.den == 0
  {
    var base := BaseRatio(frame.width, frame.height);
    match ChosenSar(frame.sampleAspectRatio, ctx)
    case None => Some(base)
    case Some(q) => ScaleBy(base, q)
  }

  /** A frame SAR with numerator above 1 decides the ratio, whatever the context holds. */
  lemma DarPrefersFrameSar(frame: DecodedFrame, ctx: Option<CodecContext>)
    requires frame.sampleAspectRatio.num > 1
    ensures Dar(frame, ctx) == ScaleBy(BaseRatio(frame.width, frame.height), frame.sampleAspectRatio)
    ensures Dar(frame, ctx) == Dar(frame, None)
  {
  }

  /** With a degenerate frame SAR, a context SAR with numerator above 1 is used. */
  lemma DarFallsBackToContextSar(frame: DecodedFrame, ctx: CodecContext)
    requires frame.sampleAspectRatio.num <= 1 && ctx.sampleAspectRatio.num > 1
    ensures Dar(frame, Some(ctx)) == ScaleBy(BaseRatio(frame.width, frame.height), ctx.sampleAspectRatio)
  {
  }

  /** 1920 x 800 with frame SAR 1:1 and context SAR 4:3 gives 3.2. */
  lemma DarWideExample(ctx: CodecContext)
    requires ctx.sampleAspectRatio == Rational(4, 3)
    ensures Dar(DecodedFrame(Other(0), 1920, 800, ColorSpace.Unknown, ColorRange.Unknown, Rational(1, 1)), Some(ctx)) == Some(3.2)
  {
  }

  /** A non-positive height gives ratio 0 whatever the SAR. */
  lemma DarZeroHeight(frame: DecodedFrame, ctx: Option<CodecContext>)
    requires frame.height <= 0
    ensures Dar(frame, ctx).Some? ==> Dar(frame, ctx).value == 0.0
  {
  }

  // ---------------------------------------------------------------------------
  // Decoding status

  /** What one decode call yields: its result, whether the receive call ran, whether d.width/d.height were updated. */
  datatype DecodeOutcome = DecodeOutcome(ok: bool, received: bool, sizeUpdated: bool)

  /** The status logic of VideoDecoderFFmpegBase::decode over the codes returned by the send and receive calls. */
  function DecodeStep(available: bool, eofPacket: bool, sendRet: int, receiveRet: int, ctxWidth: int, ctxHeight: int): (r: DecodeOutcome)
    ensures r.sizeUpdated ==> r.ok && r.received
  {
    if !available then DecodeOutcome(false, false, false)
    else if sendRet < 0 then DecodeOutcome(false, false, false)
    else if receiveRet == AVERROR_EAGAIN || receiveRet == AVERROR_EOF then DecodeOutcome(!eofPacket, true, false)
    else if receiveRet < 0 then DecodeOutcome(false, true, false)
    else if ctxWidth == 0 || ctxHeight == 0 then DecodeOutcome(false, true, false)
    else DecodeOutcome(true, true, true)
  }

  /**
    decode succeeds exactly when the decoder is available, the send succeeds,
    and either no frame is ready yet on a non-EOF packet, or a frame arrived
    and the codec context has a non-zero size.
   */
  lemma DecodeResultIff(available: bool, eofPacket: bool, sendRet: int, receiveRet: int, ctxWidth: int, ctxHeight: int)
    ensures DecodeStep(available, eofPacket, sendRet, receiveRet, ctxWidth, ctxHeight).ok <==>
      available && sendRet >= 0 &&
      ( ((receiveRet == AVERROR_EAGAIN || receiveRet == AVERROR_EOF) && !eofPacket) ||
        (receiveRet >= 0 && ctxWidth != 0 && ctxHeight != 0) )
  {
  }

  /** The stored size changes exactly on a decoded frame with a non-zero codec size. */
  lemma DecodeSizeUpdateIff(available: bool, eofPacket: bool, sendRet: int, receiveRet: int, ctxWidth: int, ctxHeight: int)
    ensures DecodeStep(available, eofPacket, sendRet, receiveRet, ctxWidth, ctxHeight).sizeUpdated <==>
      available && sendRet >= 0 && receiveRet >= 0 && ctxWidth != 0 && ctxHeight != 0
  {
  }

  /** On EAGAIN or EOF from the receive call the result is the negation of the packet's EOF flag. */
  lemma DecodeDrainResult(eofPacket: bool, sendRet: int, receiveRet: int, ctxWidth: int, ctxHeight: int)
    requires sendRet >= 0 && (receiveRet == AVERROR_EAGAIN || receiveRet == AVERROR_EOF)
    ensures DecodeStep(true, eofPacket, sendRet, receiveRet, ctxWidth, ctxHeight) == DecodeOutcome(!eofPacket, true, false)
  {
  }

  // ---------------------------------------------------------------------------
  // State

  /** A QtAV VideoFrame, with the fields this file sets. */
  class VideoFrame {
    var width: int
    var height: int
    var format: VideoFormat
    var displayAspectRatio: Option<real>
    var colorSpace: ColorSpace
    var colorRange: ColorRange

    /** VideoFrame(): the empty frame. */
    constructor Empty()
      ensures IsEmpty()
    {
      width, height, format := 0, 0, InvalidFormat;
      displayAspectRatio := Some(0.0);
      colorSpace, colorRange := ColorSpace.Unknown, ColorRange.Unknown;
    }

    /** VideoFrame(width, height, format), with no data and no colour information yet. */
    constructor (w: int, h: int, fmt: VideoFormat)
      ensures width == w && height == h && format == fmt
      ensures displayAspectRatio == Some(0.0)
      ensures colorSpace == ColorSpace.Unknown && colorRange == ColorRange.Unknown
    {
      width, height, format := w, h, fmt;
      displayAspectRatio := Some(0.0);
      colorSpace, colorRange := ColorSpace.Unknown, ColorRange.Unknown;
    }

    /** The state of a default-constructed frame. */
    predicate IsEmpty()
      reads this
    {
      width == 0 && height == 0 && format == InvalidFormat && displayAspectRatio == Some(0.0) &&
      colorSpace == ColorSpace.Unknown && colorRange == ColorRange.Unknown
    }
  }

  /**
    SetColorDetailsByFFmpeg: the colour space goes to `f` first; the range is
    then chosen by the cascade. The XYZ branch assigns the local colour space
    after it has been written, so that assignment has no effect on `f`.
   */
  method SetColorDetailsByFFmpeg(f: VideoFrame, frame: DecodedFrame, ctx: CodecContext)
    modifies f`colorSpace, f`colorRange
    ensures Colorimetry(f.colorSpace, f.colorRange) == FFmpegColorimetry(f.format, frame, ctx)
  {
    var cs := frame.colorSpace;
    if cs == ColorSpace.Unknown {
      cs := ctx.colorSpace;
    }
    f.colorSpace := cs;
    ColorSpaceFromTags(f.format, frame, ctx);
    var cr := frame.colorRange;
    if cr == ColorRange.Unknown {
      match frame.format
      case YUVJ420P | YUVJ422P | YUVJ440P | YUVJ444P =>
        cr := Full;
      case _ =>
    }
    if cr == ColorRange.Unknown {
      cr := ctx.colorRange;
      if cr == ColorRange.Unknown {
        if f.format.isXYZ {
          cr := Full;
          cs := ColorSpace.XYZ;
        } else if !f.format.isRGB {
          cr := Limited;
        }
      }
    }
    f.colorRange := cr;
    ColorRangeCascade(f.format, frame, ctx);
  }

  /**
    VideoDecoderFFmpegBase with its private part: the codec context (null
    before the decoder is opened), the AVFrame the receive call fills in, and
    the size remembered by decode.
   */
  class Decoder {
    var codecCtx: Option<CodecContext>
    var avFrame: DecodedFrame
    var width: int
    var height: int

    constructor (ctx: Option<CodecContext>, initial: DecodedFrame)
      ensures codecCtx == ctx && avFrame == initial && width == 0 && height == 0
    {
      codecCtx, avFrame := ctx, initial;
      width, height := 0, 0;
    }

    /**
      decode: `available` is isAvailable(), `eofPacket` is packet.isEOF(),
      `sendRet` and `receiveRet` the codes of the send and receive calls, and
      `received` the AVFrame the receive call leaves in d.frame.
     */
    method Decode(available: bool, eofPacket: bool, sendRet: int, receiveRet: int, received: DecodedFrame) returns (ok: bool)
      requires available ==> codecCtx.Some?
      modifies this`avFrame, this`width, this`height
      ensures var ctxWidth := if codecCtx.Some? then codecCtx.value.width else 0;
              var ctxHeight := if codecCtx.Some? then codecCtx.value.height else 0;
              var o := DecodeStep(available, eofPacket, sendRet, receiveRet, ctxWidth, ctxHeight);
              && ok == o.ok
              && avFrame == (if o.received then received else old(avFrame))
              && width == (if o.sizeUpdated then received.width else old(width))
              && height == (if o.sizeUpdated then received.height else old(height))
    {
      if !available {
        return false;
      }
      if sendRet < 0 {
        return false;
      }
      avFrame := received;
      if receiveRet == AVERROR_EAGAIN || receiveRet == AVERROR_EOF {
        return !eofPacket;
      } else if receiveRet < 0 {
        return false;
      }
      if codecCtx.value.width == 0 || codecCtx.value.height == 0 {
        return false;
      }
      width := avFrame.width;
      height := avFrame.height;
      return true;
    }

    /** getDAR for the current frame. */
    function GetDar(): Option<real>
      reads this
    {
      Dar(avFrame, codecCtx)
    }

    /**
      updateColorDetails: a VideoFrame in the decoded pixel format takes the
      cascade; an RGB output of another format is full-range RGB or GBR; a YUV
      output of an RGB-coded stream is chosen by size; any other YUV output
      takes the cascade.
     */
    method UpdateColorDetails(f: VideoFrame)
      requires codecCtx.Some?
      modifies f`colorSpace, f`colorRange
      ensures Colorimetry(f.colorSpace, f.colorRange) == FrameColorimetry(f.format, f.width, f.height, avFrame, codecCtx.value)
    {
      var ctx := codecCtx.value;
      if f.format.pixelFormat == avFrame.format {
        SetColorDetailsByFFmpeg(f, avFrame, ctx);
        return;
      }
      var rgbFrame := f.format.isRGB;
      if rgbFrame {
        f.colorSpace := if f.format.isPlanar then GBR else RGB;
        f.colorRange := Full;
        return;
      }
      var rgbCoded := ctx.codedRgb;
      if rgbCoded {
        if f.width >= 1280 && f.height >= 576 {
          f.colorSpace := BT709;
        } else {
          f.colorSpace := BT601;
        }
        f.colorRange := Limited;
      } else {
        SetColorDetailsByFFmpeg(f, avFrame, ctx);
      }
    }

    /**
      frame(): the empty frame when the current frame has no positive size or
      there is no codec context; otherwise a frame of that size in the codec's
      pixel format, with its display aspect ratio and colour details.
     */
    method Frame() returns (vf: VideoFrame)
      ensures fresh(vf)
      ensures avFrame.width <= 0 || avFrame.height <= 0 || codecCtx.None? ==> vf.IsEmpty()
      ensures avFrame.width > 0 && avFrame.height > 0 && codecCtx.Some? ==>
        && vf.width == avFrame.width && vf.height == avFrame.height
        && vf.format == codecCtx.value.format
        && vf.displayAspectRatio == Dar(avFrame, codecCtx)
        && Colorimetry(vf.colorSpace, vf.colorRange) ==
             FrameColorimetry(vf.format, vf.width, vf.height, avFrame, codecCtx.value)
    {
      if avFrame.width <= 0 || avFrame.height <= 0 || codecCtx.None? {
        vf := new VideoFrame.Empty();
        return;
      }
      vf := new VideoFrame(avFrame.width, avFrame.height, codecCtx.value.format);
      vf.displayAspectRatio := GetDar();
      UpdateColorDetails(vf);
    }
  }
}
