/**
 * The GStreamer to OBS translations made by the appsink callbacks of
 * streaminsync.c (video_new_sample, audio_new_sample): pixel format, colour
 * range and matrix, channel layout, sample format and the frame count of an
 * audio buffer.
 */
module ObsMapping {

  /** The GstVideoFormat values the callback names; every other format is `OtherVideoFormat`. */
  datatype GstVideoFormat = I420 | NV12 | BGRA | BGRx | RGBx | RGBA | UYVY | YUY2 | YVYU | OtherVideoFormat

  /** OBS's enum video_format, restricted to the values the callback produces. */
  datatype ObsVideoFormat =
    | VideoFormatNone | VideoFormatI420 | VideoFormatNV12 | VideoFormatBGRA | VideoFormatBGRX
    | VideoFormatRGBA | VideoFormatUYVY | VideoFormatYUY2 | VideoFormatYVYU

  /** The switch of streaminsync.c:215-247. */
  function VideoFormat(f: GstVideoFormat): ObsVideoFormat
  {
    match f
    case I420 => VideoFormatI420
    case NV12 => VideoFormatNV12
    case BGRA => VideoFormatBGRA
    case BGRx => VideoFormatBGRX
    case RGBx => VideoFormatRGBA
    case RGBA => VideoFormatRGBA
    case UYVY => VideoFormatUYVY
    case YUY2 => VideoFormatYUY2
    case YVYU => VideoFormatYVYU
    case OtherVideoFormat => VideoFormatNone
  }

  /** The GStreamer format an OBS format is produced from, RGBA standing for both RGBx and RGBA. */
  function SourceVideoFormat(f: ObsVideoFormat): GstVideoFormat
  {
    match f
    case VideoFormatNone => OtherVideoFormat
    case VideoFormatI420 => I420
    case VideoFormatNV12 => NV12
    case VideoFormatBGRA => BGRA
    case VideoFormatBGRX => BGRx
    case VideoFormatRGBA => RGBA
    case VideoFormatUYVY => UYVY
    case VideoFormatYUY2 => YUY2
    case VideoFormatYVYU => YVYU
  }

  /** Every OBS format is reached, from the format SourceVideoFormat names. */
  lemma VideoFormatOnto(f: ObsVideoFormat)
    ensures VideoFormat(SourceVideoFormat(f)) == f
  {
  }

  /**
   * Only unknown formats are refused (mapped to VIDEO_FORMAT_NONE), and two
   * GStreamer formats share an OBS format only when they are RGBx and RGBA.
   */
  lemma VideoFormatTable(f: GstVideoFormat, g: GstVideoFormat)
    ensures VideoFormat(f) == VideoFormatNone <==> f == OtherVideoFormat
    ensures VideoFormat(f) != VideoFormatNone ==> SourceVideoFormat(VideoFormat(f)) == (if f == RGBx then RGBA else f)
    ensures VideoFormat(f) == VideoFormat(g) && f != g ==> {f, g} == {RGBx, RGBA}
  {
  }

  /** GstVideoColorRange, the values the callback tells apart. */
  datatype GstColorRange = Range0To255 | Range16To235 | OtherRange
  /** OBS's enum video_range_type. */
  datatype ObsRange = RangeDefault | RangePartial | RangeFull

  /** The range switch of streaminsync.c:184-196: the OBS range and the frame's full_range flag. */
  function ColorRange(r: GstColorRange): (ObsRange, bool)
  {
    match r
    case Range0To255 => (RangeFull, true)
    case Range16To235 => (RangePartial, false)
    case OtherRange => (RangeDefault, false)
  }

  /** full_range is set exactly when the OBS range is FULL, which only 0-255 yields. */
  lemma ColorRangeFlag(r: GstColorRange)
    ensures ColorRange(r).1 <==> ColorRange(r).0 == RangeFull
    ensures ColorRange(r).0 == RangeFull <==> r == Range0To255
    ensures ColorRange(r).0 == RangePartial <==> r == Range16To235
  {
  }

  /** GstVideoColorMatrix, the values the callback tells apart. */
  datatype GstColorMatrix = MatrixBT709 | MatrixBT601 | OtherMatrix
  /** OBS's enum video_colorspace. */
  datatype ObsColorspace = ColorspaceDefault | Colorspace709 | Colorspace601

  /** The matrix switch of streaminsync.c:198-209. */
  function Colorspace(m: GstColorMatrix): ObsColorspace
  {
    match m
    case MatrixBT709 => Colorspace709
    case MatrixBT601 => Colorspace601
    case OtherMatrix => ColorspaceDefault
  }

  /** The colour space keeps the matrix when it is BT.709 or BT.601 and falls back to the default otherwise. */
  lemma ColorspaceTable(m: GstColorMatrix, n: GstColorMatrix)
    ensures Colorspace(m) == ColorspaceDefault <==> m == OtherMatrix
    ensures Colorspace(m) == Colorspace(n) ==> m == n
  {
  }

  /** OBS's enum speaker_layout. */
  datatype Speakers =
    | SpeakersUnknown | SpeakersMono | SpeakersStereo | Speakers2Point1 | Speakers4Point0
    | Speakers4Point1 | Speakers5Point1 | Speakers7Point1

  /** The channel switch of streaminsync.c:281-309; 7 channels have no OBS layout. */
  function SpeakerLayout(channels: int): Speakers
  {
    match channels
    case 1 => SpeakersMono
    case 2 => SpeakersStereo
    case 3 => Speakers2Point1
    case 4 => Speakers4Point0
    case 5 => Speakers4Point1
    case 6 => Speakers5Point1
    case 8 => Speakers7Point1
    case _ => SpeakersUnknown
  }

  /** The number of channels of an OBS layout (0 for unknown). */
  function ChannelCount(s: Speakers): nat
  {
    match s
    case SpeakersUnknown => 0
    case SpeakersMono => 1
    case SpeakersStereo => 2
    case Speakers2Point1 => 3
    case Speakers4Point0 => 4
    case Speakers4Point1 => 5
    case Speakers5Point1 => 6
    case Speakers7Point1 => 8
  }

  /** The channel counts OBS has a layout for. */
  predicate Supported(channels: int)
  {
    1 <= channels <= 6 || channels == 8
  }

  /**
   * A supported channel count maps to the layout with that many channels, and
   * every other count (7 included) to UNKNOWN; every known layout comes back.
   */
  lemma SpeakerLayoutRoundTrip(channels: int, s: Speakers)
    ensures SpeakerLayout(channels) != SpeakersUnknown <==> Supported(channels)
    ensures Supported(channels) ==> ChannelCount(SpeakerLayout(channels)) == channels
    ensures s != SpeakersUnknown ==> SpeakerLayout(ChannelCount(s)) == s
    ensures SpeakerLayout(7) == SpeakersUnknown
  {
  }

  /** GstAudioFormat, the values the callback names. */
  datatype GstAudioFormat = U8 | S16LE | S32LE | F32LE | OtherAudioFormat
  /** OBS's enum audio_format, restricted to the values the callback produces. */
  datatype ObsAudioFormat = AudioFormatUnknown | AudioFormatU8Bit | AudioFormat16Bit | AudioFormat32Bit | AudioFormatFloat

  /** The sample format switch of streaminsync.c:311-330. */
  function AudioFormat(f: GstAudioFormat): ObsAudioFormat
  {
    match f
    case U8 => AudioFormatU8Bit
    case S16LE => AudioFormat16Bit
    case S32LE => AudioFormat32Bit
    case F32LE => AudioFormatFloat
    case OtherAudioFormat => AudioFormatUnknown
  }

  /** The bytes per sample of an OBS format (0 for unknown). */
  function SampleBytes(f: ObsAudioFormat): nat
  {
    match f
    case AudioFormatUnknown => 0
    case AudioFormatU8Bit => 1
    case AudioFormat16Bit => 2
    case AudioFormat32Bit => 4
    case AudioFormatFloat => 4
  }

  /** The GStreamer sample formats keep their width, and only unknown ones become UNKNOWN. */
  lemma AudioFormatTable(f: GstAudioFormat, g: GstAudioFormat)
    ensures AudioFormat(f) == AudioFormatUnknown <==> f == OtherAudioFormat
    ensures AudioFormat(f) == AudioFormat(g) ==> f == g
    ensures SampleBytes(AudioFormat(f)) == (match f case U8 => 1 case S16LE => 2 case S32LE => 4 case F32LE => 4 case _ => 0)
  {
  }

  /**
   * audio.frames = info.size / audio_info.bpf (streaminsync.c:271): the number
   * of whole frames in the buffer; a trailing partial frame is dropped.
   */
  function AudioFrames(size: nat, bpf: nat): (frames: nat)
    requires bpf > 0
    ensures frames * bpf <= size < (frames + 1) * bpf
  {
    size / bpf
  }

  /** A buffer of whole frames gives back exactly their number. */
  lemma AudioFramesExact(frames: nat, bpf: nat)
    requires bpf > 0
    ensures AudioFrames(frames * bpf, bpf) == frames
  {
    var f := AudioFrames(frames * bpf, bpf);
    if f < frames {
      MulMono(f + 1, frames, bpf);
      assert false;
    } else if f > frames {
      MulMono(frames + 1, f, bpf);
      assert false;
    }
  }

  lemma MulMono(a: nat, b: nat, c: nat)
    requires a <= b
    ensures a * c <= b * c
  {
  }
}
