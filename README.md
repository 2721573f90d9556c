# QtAV FFmpeg codec glue: colour, aspect and status logic

This project models the decision logic inside two of QtAV's FFmpeg adapters and proves properties about it.

- **VideoDecoderFFmpegBase** (`video_decoder_ffmpeg_base.dfy`) covers:
  - `decode`, which sends a packet, receives a frame and remembers its size;
  - `frame()`, which turns the received AVFrame into a QtAV `VideoFrame`;
  - the display aspect ratio (`getDAR`);
  - the colour cascade `SetColorDetailsByFFmpeg` / `updateColorDetails`. It picks a colour space and a colour range from, in order:
    - the frame's tags and the codec context's tags;
    - the legacy full-range YUVJ pixel formats;
    - the output format's XYZ/RGB/planar classification;
    - the coded format's RGB flag;
    - the frame size.
- **AudioEncoderFFmpeg** (`audio_encoder_ffmpeg.dfy`) covers:
  - `open`, which completes the user's `AudioFormat` with the codec's first supported values or with fixed defaults (44100 Hz, Signed16, stereo), configures the codec context and sizes the scratch buffer;
  - `encode`, which builds an AVFrame (or a null flush frame), sends it, receives a packet and maps the status codes to its result and to the stored packet.

The model is split as follows:
- Pure decisions are functions with lemmas.
- Objects the source updates in place (`VideoFrame`, the decoder's private state, the encoder, the AVFrame with its `linesize`/`data`/`extended_data` arrays) are classes.
- Their methods are proved against the functions.

FFmpeg itself is an opaque collaborator. These appear as inputs:
- the codes returned by the send, receive and open calls;
- the frame the receive call leaves behind;
- the codec found by name or by descriptor, with its supported lists;
- `av_get_bits_per_sample`;
- the RGB flag of the coded pixel format's descriptor.

Colour tags are taken as already translated to QtAV's enums. `wrappers.dfy` holds `Option`. `ffmpeg.dfy` holds these FFmpeg constants and types:
- `AVERROR(EAGAIN)` = -11, its Linux value;
- `AVERROR_EOF` = -541478725;
- `AV_NUM_DATA_POINTERS` = 8;
- `AV_INPUT_BUFFER_MIN_SIZE` = 16384;
- `AVRational` and `av_q2d`.

Behaviour worth knowing, as the code has it:
- **Range can stay Unknown.** Only one kind of output can end with range Unknown: an RGB, non-XYZ output in its decoded format, with every tag Unknown and a frame that is not YUVJ. Line 66 then writes Unknown (`RgbWithoutTagsStaysUnknown`, `RangeUnknownIff`). Non-RGB outputs, XYZ outputs and RGB outputs in a format other than the decoded one always get a known range (`NonRgbOutputRangeResolved`, `MismatchedRgbOutput`).
- **XYZ changes only the range.** The XYZ branch sets the range to Full but not the colour space. The local `cs = ColorSpace_XYZ` at line 59 comes after the colour space was written at line 37 (`XyzKeepsColorSpace`).
- **Only named layouts count as set.** `open` keeps a channel layout only if QtAV names it (Left, Right, Center, Stereo), because line 112 tests `channelLayout() == ChannelLayout_Unsupported`. Any other mask, 5.1 (`AV_CH_LAYOUT_5POINT1`, 0x60F) for instance, is treated as unset. It is replaced by the codec's first layout or by stereo, and its channel count goes with it (`FiveOneLayoutReplaced`).

## Model

| member | source | states |
|---|---|---|
| `VideoDecoderFFmpegBase.FirstKnownIsEarliestKnown` | src/codec/video/VideoDecoderFFmpegBase.cpp:34-65 | the cascade's result is Unknown iff every rule is Unknown; otherwise it is the earliest known rule, and all rules before it are Unknown |
| `VideoDecoderFFmpegBase.ColorSpaceFromTags` | src/codec/video/VideoDecoderFFmpegBase.cpp:34-37 | the colour space written is the frame's tag if known, else the codec context's tag, which may itself be Unknown |
| `VideoDecoderFFmpegBase.ColorRangeCascade` | src/codec/video/VideoDecoderFFmpegBase.cpp:38-66 | the rule-list definition of the range equals the nested decisions in this order: frame tag, YUVJ → Full, context tag, XYZ → Full, non-RGB → Limited, else Unknown |
| `VideoDecoderFFmpegBase.KnownFrameRangeWins` | src/codec/video/VideoDecoderFFmpegBase.cpp:38-53 | a known frame range tag is the result, whatever the context and format |
| `VideoDecoderFFmpegBase.FullRangeYuvForcesFull` | src/codec/video/VideoDecoderFFmpegBase.cpp:39-53 | with the frame range Unknown, YUVJ420P/422P/440P/444P give Full regardless of the context tag |
| `VideoDecoderFFmpegBase.RangeUnknownIff` | src/codec/video/VideoDecoderFFmpegBase.cpp:54-66 | the range stays Unknown iff all tags are Unknown, the frame is not YUVJ, and the output is RGB and not XYZ |
| `VideoDecoderFFmpegBase.NonRgbRangeResolved` | src/codec/video/VideoDecoderFFmpegBase.cpp:54-64 | a non-RGB output format always gets a known range |
| `VideoDecoderFFmpegBase.XyzKeepsColorSpace` | src/codec/video/VideoDecoderFFmpegBase.cpp:34-66 | in the XYZ branch the range becomes Full; the colour space stays the tag-derived one and does not depend on the XYZ flag |
| `VideoDecoderFFmpegBase.SetColorDetailsByFFmpeg` | src/codec/video/VideoDecoderFFmpegBase.cpp:31-67 | the step-by-step writes to the VideoFrame leave exactly the first-known colour space and range of the rule lists |
| `VideoDecoderFFmpegBase.MismatchedRgbOutput` | src/codec/video/VideoDecoderFFmpegBase.cpp:71-81 | on a format mismatch with RGB output: GBR if planar else RGB, range Full, whatever the tags |
| `VideoDecoderFFmpegBase.MismatchedYuvOfRgbCoded` | src/codec/video/VideoDecoderFFmpegBase.cpp:84-90 | on a mismatch with YUV output and an RGB-coded format: BT709 iff width ≥ 1280 and height ≥ 576, BT601 otherwise, range Limited |
| `VideoDecoderFFmpegBase.MismatchedYuvOfYuvCoded` | src/codec/video/VideoDecoderFFmpegBase.cpp:91-93 | a YUV output of a non-RGB-coded stream goes through the same cascade as a matching format |
| `VideoDecoderFFmpegBase.NonRgbOutputRangeResolved` | src/codec/video/VideoDecoderFFmpegBase.cpp:69-94 | updateColorDetails gives every non-RGB output a known range |
| `VideoDecoderFFmpegBase.RgbWithoutTagsStaysUnknown` | src/codec/video/VideoDecoderFFmpegBase.cpp:71-73 | an RGB, non-XYZ output in its decoded format with no tags and no YUVJ format ends with range Unknown |
| `VideoDecoderFFmpegBase.Decoder.UpdateColorDetails` | src/codec/video/VideoDecoderFFmpegBase.cpp:69-94 | the colorimetry written equals the format-mismatch decision of FrameColorimetry for the frame's format and size |
| `VideoDecoderFFmpegBase.ChosenSar` | src/codec/video/VideoDecoderFFmpegBase.cpp:102-106 | a SAR is used iff the frame's or the context's numerator is > 1; the frame's wins when its numerator is > 1; a chosen SAR always has numerator > 1 |
| `VideoDecoderFFmpegBase.Dar` | src/codec/video/VideoDecoderFFmpegBase.cpp:96-108 | with no SAR chosen, the DAR is width/height (0 when height ≤ 0); it is non-finite only when the chosen SAR has a zero denominator |
| `VideoDecoderFFmpegBase.DarPrefersFrameSar` | src/codec/video/VideoDecoderFFmpegBase.cpp:102-104 | a frame SAR with numerator > 1 scales the base ratio, and the context cannot change the result |
| `VideoDecoderFFmpegBase.DarFallsBackToContextSar` | src/codec/video/VideoDecoderFFmpegBase.cpp:105-106 | with a degenerate frame SAR, a context SAR with numerator > 1 scales the base ratio |
| `VideoDecoderFFmpegBase.DarWideExample` | src/codec/video/VideoDecoderFFmpegBase.cpp:96-108 | 1920×800 with frame SAR 1/1 and context SAR 4/3 gives DAR 3.2 |
| `VideoDecoderFFmpegBase.DarZeroHeight` | src/codec/video/VideoDecoderFFmpegBase.cpp:99-101 | a non-positive height gives DAR 0 whenever the DAR is finite, whatever SAR applies |
| `VideoDecoderFFmpegBase.DecodeStep` | src/codec/video/VideoDecoderFFmpegBase.cpp:115-156 | the stored size is only updated on a call that returns true after a receive |
| `VideoDecoderFFmpegBase.DecodeResultIff` | src/codec/video/VideoDecoderFFmpegBase.cpp:115-156 | decode returns true iff the decoder is available, the send succeeds, and either (EAGAIN/EOF on a non-EOF packet) or (a frame arrives and the context width and height are non-zero) |
| `VideoDecoderFFmpegBase.DecodeSizeUpdateIff` | src/codec/video/VideoDecoderFFmpegBase.cpp:147-155 | d.width/d.height change iff available, send ok, receive ≥ 0, and a non-zero codec size |
| `VideoDecoderFFmpegBase.DecodeDrainResult` | src/codec/video/VideoDecoderFFmpegBase.cpp:139-141 | on EAGAIN or EOF the result is `!packet.isEOF()` and the size is kept |
| `VideoDecoderFFmpegBase.Decoder.Decode` | src/codec/video/VideoDecoderFFmpegBase.cpp:115-156 | returns the DecodeStep result; d.frame is the received frame once the receive call ran; d.width/d.height are copied from it exactly when a frame was received and the codec context's width and height are non-zero (lines 147-153); on the EAGAIN/EOF path, which can also return true, they are kept |
| `VideoDecoderFFmpegBase.Decoder.Frame` | src/codec/video/VideoDecoderFFmpegBase.cpp:158-176 | empty frame when width ≤ 0, height ≤ 0 or no codec context; otherwise the frame's size, the codec's format, the DAR and the updateColorDetails colorimetry |
| `AudioEncoderFFmpeg.BytesPerSample` | src/codec/audio/AudioEncoderFFmpeg.cpp:127 | bytes per sample is 0 exactly for the Unknown format, else 1, 2, 4 or 8 |
| `AudioEncoderFFmpeg.SampleFormatRoundTrip` | src/codec/audio/AudioEncoderFFmpeg.cpp:106 | the QtAV↔AVSampleFormat conversions are mutually inverse (codes -1..9) |
| `AudioEncoderFFmpeg.ChannelLayoutRoundTrip` | src/codec/audio/AudioEncoderFFmpeg.cpp:120 | a QtAV layout converted to an FFmpeg mask and back is unchanged |
| `AudioEncoderFFmpeg.ChannelCountBounds` | src/codec/audio/AudioEncoderFFmpeg.cpp:117 | a channel mask has at least one channel iff it is non-empty, and never more channels than its value |
| `AudioEncoderFFmpeg.AudioFormat.WithChannelLayout` | src/codec/audio/AudioEncoderFFmpeg.cpp:120 | setting a QtAV layout makes the format report that layout and keeps the rate and sample format |
| `AudioEncoderFFmpeg.EffectiveFormatKeepsUserSettings` | src/codec/audio/AudioEncoderFFmpeg.cpp:93-122 | a positive rate, a known sample format and a layout QtAV names (Left, Right, Center, Stereo) are kept, and a format with all three is used unchanged; any other mask (e.g. 5.1) counts as unset |
| `AudioEncoderFFmpeg.FiveOneLayoutReplaced` | src/codec/audio/AudioEncoderFFmpeg.cpp:112-122 | the 5.1 mask `AV_CH_LAYOUT_5POINT1` (0x60F) with 6 channels is replaced by the codec's first layout (stereo here), or by the stereo default when the codec lists none, and ends with 2 channels |
| `AudioEncoderFFmpeg.EffectiveSampleRate` | src/codec/audio/AudioEncoderFFmpeg.cpp:94-102 | rate = requested if > 0, else the codec's first supported rate, else 44100 |
| `AudioEncoderFFmpeg.EffectiveSampleFormat` | src/codec/audio/AudioEncoderFFmpeg.cpp:103-111 | an Unknown sample format becomes the codec's first supported format, else Signed16 |
| `AudioEncoderFFmpeg.EffectiveChannelLayout` | src/codec/audio/AudioEncoderFFmpeg.cpp:112-122 | an Unsupported layout becomes the codec's first layout with its channel count, else stereo with 2 channels |
| `AudioEncoderFFmpeg.EffectiveFormatComplete` | src/codec/audio/AudioEncoderFFmpeg.cpp:93-122 | when the codec's first entries are usable and a layout the user named has at least one channel, the format is complete: positive rate, a known sample format and at least one channel |
| `AudioEncoderFFmpeg.PlanSizes` | src/codec/audio/AudioEncoderFFmpeg.cpp:143-156 | the buffer size is never below AV_INPUT_BUFFER_MIN_SIZE |
| `AudioEncoderFFmpeg.PcmSizing` | src/codec/audio/AudioEncoderFFmpeg.cpp:146-150 | frame_size ≤ 1 with bits/8 ≠ 0: frame_size 16384, buffer max(16384·(bits/8)·channels·2+200, min) |
| `AudioEncoderFFmpeg.FrameSizing` | src/codec/audio/AudioEncoderFFmpeg.cpp:151-155 | otherwise frame_size is kept and buffer = max(frame_size·bytesPerSample·channels·2+200, min), enough for two frames |
| `AudioEncoderFFmpeg.AudioEncoder.Open` | src/codec/audio/AudioEncoderFFmpeg.cpp:67-158 | the branches are: empty codec name relays the open result and changes nothing; no encoder found gives false; otherwise format_used is the effective format and the context gets its sample format, layout, channels, rate, bits_per_raw_sample = 8·bytes, time base 1/rate and the bit rate; frame size and buffer follow PlanSizes only when open succeeds |
| `AudioEncoderFFmpeg.SampleStride` | src/codec/audio/AudioEncoderFFmpeg.cpp:196 | the per-plane stride times the number of planes (channels if planar, one if interleaved) is bytes per sample times channels, the per-sample-frame byte count that the buffer sizing uses |
| `AudioEncoderFFmpeg.AudioEncoder.NewFrame` | src/codec/audio/AudioEncoderFFmpeg.cpp:182-205 | the AVFrame has the frame's format, layout, rate and channels, nb_samples = frame_size, linesize = frame_size·stride for each plane, the planes' references in data, and every plane's reference in extended_data, which is data itself for at most 8 planes; past 8 planes it follows the corrected loop of the Findings row, not the overrun of lines 197-200 |
| `AudioEncoderFFmpeg.PlaneLoopAsWritten` | src/codec/audio/AudioEncoderFFmpeg.cpp:195-200 | the loop as written, on av_frame_alloc's 8-slot arrays with extended_data aliasing data: it sets linesize and data for every plane, and its index checks need the planes to fit the 8 slots (PlaneLoopInBounds) |
| `AudioEncoderFFmpeg.PlaneLoopOverrunsForNinePlanes` | src/codec/audio/AudioEncoderFFmpeg.cpp:195-200 | a valid nine-channel planar frame has nine planes, more than the AVFrame's eight inline slots that the loop writes |
| `AudioEncoderFFmpeg.SetPlanes` | src/codec/audio/AudioEncoderFFmpeg.cpp:197-200 | corrected plane loop: every plane reference lands in extended_data, which is allocated separately when there are more than 8 planes; linesize and data are set for the inline slots only |
| `AudioEncoderFFmpeg.EncodeStep` | src/codec/audio/AudioEncoderFFmpeg.cpp:215-253 | a stored packet always comes with result true |
| `AudioEncoderFFmpeg.InvalidFrameFlushes` | src/codec/audio/AudioEncoderFFmpeg.cpp:222-228 | an invalid frame is never allocated; a null (flush) frame is sent |
| `AudioEncoderFFmpeg.EncodeResultIff` | src/codec/audio/AudioEncoderFFmpeg.cpp:215-253 | encode returns true iff the allocation (for a valid frame) and the send succeed, and either a packet is received or EAGAIN is returned for a valid frame |
| `AudioEncoderFFmpeg.EncodePacketEffect` | src/codec/audio/AudioEncoderFFmpeg.cpp:232-249 | after a successful send, d.packet is emptied on EAGAIN or EOF and replaced on success; it is kept on any other error and on a failed allocation or send |
| `AudioEncoderFFmpeg.AudioEncoder.Encode` | src/codec/audio/AudioEncoderFFmpeg.cpp:177-254 | the result, the frame sent and the new d.packet are those of EncodeStep; the frame is built by NewFrame, so past 8 planes it follows the corrected loop of the Findings row |

## Left out

- src/codec/audio/AudioDecoderFFmpeg.cpp is not part of this model. Its outcomes relay FFmpeg status codes, and its remaining work is a resampler call and field copying.
- FFmpeg internals are not modelled; their results are inputs. These are:
  - `avcodec_find_encoder` (by id, by name or by descriptor);
  - `avcodec_open2`;
  - the send and receive calls;
  - `av_get_bits_per_sample`;
  - `av_pix_fmt_desc_get`. Its RGB flag is a plain bool (`CodecContext.codedRgb`), so the null descriptor returned for `AV_PIX_FMT_NONE`, which line 84 would dereference, is not modelled.
- `colorSpaceFromFFmpeg`/`colorRangeFromFFmpeg` are declared elsewhere and not shown. Tags are taken already translated.
- QtAV's `VideoFormat`, `VideoFrame`, `AudioFormat`, `AudioFrame` and `Packet` classes are not part of this model. Each is represented by the values this code reads and writes. The model takes three things about these classes as given:
  - `AudioFormat.setChannelLayoutFFmpeg` sets the channel count to the mask's bit count.
  - `channelLayout()` is derived from the mask. Only the four masks 1, 2, 4 and 3 have QtAV names (Left, Right, Center, Stereo); every other mask is Unsupported.
  - The sample-format conversion covers AVSampleFormat codes 0..9 only. Any other code, S64/S64P included, becomes Unknown.
- `AVERROR(EAGAIN)` is fixed at its Linux value, -11.
- The codec's supported lists: an empty sequence stands for a null pointer. A non-null list whose first entry is its terminator is a one-element sequence holding that terminator (`[0]` rates, `[-1]` formats, `[0]` layouts); the model then uses that entry as lines 95-97, 104-106 and 113-117 do.
- The copy-context branch of `open` (lines 69-74) is modelled only as relaying the open result. What `avcodec_open2` does to that context is not modelled.
- Not modelled in `open`: the `strict_std_compliance` field, the `strict` dictionary option and `applyOptionsForContext` (lines 137-139). The model's codec context holds exactly the values written at lines 123-133. Options applied by `applyOptionsForContext` or through `avcodec_open2(…, &dict)` could overwrite them, and that is not modelled.
- `AV_ENSURE_OK` (lines 72 and 141) is taken to return false exactly when the code is negative. Its definition is not part of this model.
- Not modelled in `open`: freeing and reallocating the codec context (lines 86-90).
- `close`, `id`, the factory registration and the `mkid` constant are not modelled. `close` relays one FFmpeg status.
- Floating point is not modelled:
  - the PTS `timestamp × sampleRate` (line 193);
  - the packet time base `av_q2d` (line 249);
  - `best_effort_timestamp/1000.0` (line 169).
- DAR is computed over exact reals. A zero-denominator SAR gives `None` instead of infinity or NaN.
- Memory and lifetime handling is not modelled:
  - `av_frame_free`, and the frame leaked on every path after a successful send except the success path (EAGAIN, EOF and any other receive error, lines 233-246);
  - `AVFrameBuffersRef` metadata;
  - `setBits`/`setBytesPerLine` (lines 166-167);
  - the palette copy (lines 172-174).
- Plane data references are opaque integers.
- Logging is not modelled.
- `isAvailable()` is defined outside this file. It is an input; an available decoder is required to have a codec context, or line 148 would dereference null.
- AudioEncoderFFmpeg.PlanSizes: does not model 32-bit `int` overflow of the buffer-size product. Integers are unbounded here.
- AudioEncoderFFmpeg.AudioEncoder.Open: does not model 32-bit `int` overflow of the buffer-size product. Integers are unbounded here.
- Channel masks are unbounded naturals, not `uint64_t`.
- AudioEncoderFFmpeg.AudioEncoder.NewFrame: past AV_NUM_DATA_POINTERS = 8 planes it follows the corrected loop of the Findings row (`SetPlanes`, with a separately allocated `extended_data`), not the out-of-bounds writes of `linesize[i]` and `extended_data[i]` at lines 197-200; `AudioEncoderFFmpeg.AudioEncoder.Encode` inherits this through NewFrame.

## Findings

| source | as written | input that shows it | evidently intended | confidence | as-written member | corrected member |
|---|---|---|---|---|---|---|
| src/codec/audio/AudioEncoderFFmpeg.cpp:197-200 | the loop stores `linesize[i]` and `extended_data[i]` for every plane i below planeCount. The frame comes from `av_frame_alloc`, so both arrays have AV_NUM_DATA_POINTERS = 8 slots (`extended_data` points at `data`); `PlaneLoopAsWritten` runs that loop, and it verifies only under `PlaneLoopInBounds` | a valid planar AudioFrame with 9 channels, and therefore 9 planes | planes past the eighth have their references in a separately allocated `extended_data`, and only the inline slots of `linesize`/`data` are written | not executed; medium | `AudioEncoderFFmpeg.PlaneLoopAsWritten` (with `AudioEncoderFFmpeg.PlaneLoopOverrunsForNinePlanes`) | `AudioEncoderFFmpeg.SetPlanes` |
