/** Types shared by every render: the 16-bit sample type, the native result
    codes and render types of sv_common.h, the Kotlin ErrorCode enum and the
    size of one 10 ms playout quantum. */
module Common {

  /** One signed 16-bit PCM sample (int16_t / SLint16). */
  newtype int16 = x: int | -0x8000 <= x < 0x8000

  /** SV_RESULT: what InitAudioRender, StartPlayout and StopPlayout return. */
  datatype SvResult =
    | SvNoError
    | SvCrateEngineError
    | SvPlayStateError
    | SvPlayInitError
    | SvStartPlayError
    | SvFillBufferError
    | SvStopPlayerError

  /** The numeric value of each SV_RESULT enumerator. */
  function ResultCode(r: SvResult): (c: int)
    ensures 0 <= c < 7
    ensures c == 0 <==> r == SvNoError
  {
    match r
    case SvNoError => 0
    case SvCrateEngineError => 1
    case SvPlayStateError => 2
    case SvPlayInitError => 3
    case SvStartPlayError => 4
    case SvFillBufferError => 5
    case SvStopPlayerError => 6
  }

  /** SV_RENDER_TYPE enumerators; the enum's underlying type is int16_t. */
  const Undefined: int := 0
  const OpenSl: int := 1
  const AAudioType: int := 2
  const OboeType: int := 3

  /** static_cast of a 32-bit jint to an enum whose underlying type is
      int16_t: the value is reduced modulo 2^16 into [-2^15, 2^15). */
  function ToInt16(x: int): (r: int)
    ensures -0x8000 <= r < 0x8000
    ensures (r - x) % 0x1_0000 == 0
    ensures -0x8000 <= x < 0x8000 ==> r == x
  {
    (x + 0x8000) % 0x1_0000 - 0x8000
  }

  /** The Kotlin ErrorCode enum; its ordinal is what the Kotlin render returns. */
  datatype ErrorCode = NoError | InitError | StartError | StopError

  function Ordinal(e: ErrorCode): (n: int)
    ensures 0 <= n < 4
    ensures n == 0 <==> e == NoError
  {
    match e
    case NoError => 0
    case InitError => 1
    case StartError => 2
    case StopError => 3
  }

  /** Samples in one 10 ms quantum: sample_rate / 100 * channels, the size
      that every render allocates for audio_buffers_. */
  function Quantum(sampleRate: nat, channels: nat): (q: nat)
  {
    sampleRate / 100 * channels
  }

  /** A quantum is a whole number of frames: divisible by the channel count,
      with sampleRate / 100 frames in it. */
  lemma QuantumWholeFrames(sampleRate: nat, channels: nat)
    ensures channels > 0 ==>
      && Quantum(sampleRate, channels) % channels == 0
      && Quantum(sampleRate, channels) / channels == sampleRate / 100
  {
    WholeFrames(sampleRate / 100, channels);
  }

  /** A product of frames and channels divides back exactly. */
  lemma WholeFrames(frames: nat, channels: nat)
    ensures channels > 0 ==> (frames * channels) % channels == 0 && (frames * channels) / channels == frames
  {
    if channels > 0 {
      var x := frames * channels;
      var q := x / channels;
      var r := x % channels;
      assert x == q * channels + r && 0 <= r < channels;
      var d := frames - q;
      assert d * channels == r by {
        assert d * channels == frames * channels - q * channels;
      }
      if d >= 1 {
        assert false;
      } else if d <= -1 {
        assert false;
      }
    }
  }

  /** The largest value of a 32-bit C int / Kotlin Int. */
  const IntMax: int := 0x7fff_ffff

  /** A sample rate and channel count that are non-negative C ints whose
      quantum is itself a C int: the int arithmetic `sample_rate / 100 *
      channels` does not overflow and converts to size_t unchanged. */
  predicate IntConfig(sampleRate: int, channels: int)
  {
    0 <= sampleRate <= IntMax && 0 <= channels <= IntMax && Quantum(sampleRate, channels) <= IntMax
  }

  datatype Option<T> = None | Some(value: T)

  function Min(a: nat, b: nat): (m: nat)
    ensures m <= a && m <= b && (m == a || m == b)
  {
    if a <= b then a else b
  }
}
