/** SVOpenslRender: playout through an OpenSL ES buffer-queue audio player.
    The OpenSL ES objects are not modelled; each handle of the render is a
    flag saying whether that handle is set, and each vendor call is an
    outcome passed in by the caller. */
module Opensl {
  import opened Common
  import opened Pcm

  // ---------------------------------------------------------------------
  // The PCM data format handed to CreateAudioPlayer.

  /** The SL_SAMPLINGRATE_* constants of OpenSL ES 1.0.1. */
  datatype SamplingRate =
    | Rate8 | Rate11_025 | Rate12 | Rate16 | Rate22_05 | Rate24 | Rate32
    | Rate44_1 | Rate48 | Rate64 | Rate88_2 | Rate96 | Rate192

  /** The rate, in Hz, that each SL_SAMPLINGRATE_* constant names. */
  function Hz(r: SamplingRate): nat
  {
    match r
    case Rate8 => 8000
    case Rate11_025 => 11025
    case Rate12 => 12000
    case Rate16 => 16000
    case Rate22_05 => 22050
    case Rate24 => 24000
    case Rate32 => 32000
    case Rate44_1 => 44100
    case Rate48 => 48000
    case Rate64 => 64000
    case Rate88_2 => 88200
    case Rate96 => 96000
    case Rate192 => 192000
  }

  /** The rates the switch of CreatePCMConfiguration handles. */
  const SwitchRates: set<int> :=
    {8000, 16000, 22050, 24000, 32000, 44100, 48000, 64000, 88200, 96000}

  /** SL_SPEAKER_FRONT_CENTER and SL_SPEAKER_FRONT_LEFT | SL_SPEAKER_FRONT_RIGHT. */
  datatype SpeakerMask = FrontCenter | FrontLeftRight

  datatype FormatType = DataFormatPcm
  datatype SampleFormat = Fixed16
  datatype ByteOrder = LittleEndian

  /** SLDataFormat_PCM. A field that the code leaves unassigned is None. */
  datatype PcmFormat = PcmFormat(
    formatType: FormatType,
    numChannels: nat,
    samplesPerSec: Option<SamplingRate>,
    bitsPerSample: SampleFormat,
    containerSize: SampleFormat,
    endianness: ByteOrder,
    channelMask: Option<SpeakerMask>)

  /** CreatePCMConfiguration for the render's sample_rate_ and channels_:
      16-bit little-endian PCM; numChannels is channels_ cast to SLuint32;
      exactly the ten rates of the switch get a rate constant, of that very
      rate; one channel is front-centre, two are front-left | front-right,
      any other count leaves the mask unset. */
  function CreatePCMConfiguration(sampleRate: int, channels: int): (f: PcmFormat)
    requires -IntMax - 1 <= channels <= IntMax
    ensures f.formatType == DataFormatPcm
    ensures f.bitsPerSample == Fixed16 && f.containerSize == Fixed16
    ensures f.endianness == LittleEndian
    ensures f.numChannels < 0x1_0000_0000
    ensures channels >= 0 ==> f.numChannels == channels
    ensures f.samplesPerSec.Some? <==> sampleRate in SwitchRates
    ensures f.samplesPerSec.Some? ==> Hz(f.samplesPerSec.value) == sampleRate
    ensures f.channelMask == Some(FrontCenter) <==> channels == 1
    ensures f.channelMask == Some(FrontLeftRight) <==> channels == 2
    ensures f.channelMask.None? <==> channels != 1 && channels != 2
  {
    var numChannels := channels % 0x1_0000_0000;
    var rate :=
      if sampleRate == 8000 then Some(Rate8)
      else if sampleRate == 16000 then Some(Rate16)
      else if sampleRate == 22050 then Some(Rate22_05)
      else if sampleRate == 24000 then Some(Rate24)
      else if sampleRate == 32000 then Some(Rate32)
      else if sampleRate == 44100 then Some(Rate44_1)
      else if sampleRate == 48000 then Some(Rate48)
      else if sampleRate == 64000 then Some(Rate64)
      else if sampleRate == 88200 then Some(Rate88_2)
      else if sampleRate == 96000 then Some(Rate96)
      else None;
    var mask :=
      if numChannels == 1 then Some(FrontCenter)
      else if numChannels == 2 then Some(FrontLeftRight)
      else None;
    PcmFormat(DataFormatPcm, numChannels, rate, Fixed16, Fixed16, LittleEndian, mask)
  }

  /** Every OpenSL rate constant whose rate the switch handles is chosen for
      that rate; the constants for 11.025, 12 and 192 kHz are never chosen. */
  lemma PcmRateRoundTrip(r: SamplingRate, channels: int)
    requires -IntMax - 1 <= channels <= IntMax
    ensures Hz(r) in SwitchRates ==> CreatePCMConfiguration(Hz(r), channels).samplesPerSec == Some(r)
    ensures Hz(r) !in SwitchRates <==> r == Rate11_025 || r == Rate12 || r == Rate192
  {
  }

  // ---------------------------------------------------------------------
  // Vendor outcomes and the player handles.

  /** SL_PLAYSTATE_*, as GetPlayState reports it. */
  datatype PlayState = PlayStopped | PlayPaused | PlayPlaying

  /** How far CreatePlayerEngine gets: slCreateEngine, Realize, GetInterface. */
  datatype EngineOutcome = EngineCreateFailed | EngineRealizeFailed | EngineInterfaceFailed | EngineReady

  /** How far InitAudioRender gets: CreateOutputMix, then Realize. */
  datatype MixOutcome = MixCreateFailed | MixRealizeFailed | MixReady

  /** The first of CreateAudioPlayer's eight vendor calls that fails. */
  datatype PlayerOutcome =
    | PlayerCreateFailed
    | ConfigInterfaceFailed
    | StreamTypeFailed
    | PerformanceModeFailed
    | PlayerRealizeFailed
    | PlayInterfaceFailed
    | QueueInterfaceFailed
    | RegisterCallbackFailed
    | PlayerReady

  /** sl_player_object_, sl_player_ and simple_buffer_queue_ (set or null)
      and whether SimpleBufferQueueCallback is registered on the queue. */
  datatype PlayerHandles = PlayerHandles(playerObject: bool, player: bool, queue: bool, callback: bool)
  {
    predicate Complete()
    {
      playerObject && player && queue && callback
    }
  }

  const NoPlayer := PlayerHandles(false, false, false, false)

  /** CreateAudioPlayer as written: with no output mix it fails; with a player
      object already set it succeeds at once; otherwise each vendor call that
      succeeds sets its handle, and a failure returns SV_PLAY_INIT_ERROR
      leaving whatever had been set. */
  function CreateAudioPlayerAsWritten(outputMix: bool, h: PlayerHandles, outcome: PlayerOutcome): (r: (SvResult, PlayerHandles))
    ensures r.0 == SvNoError || r.0 == SvPlayInitError
    ensures !outputMix ==> r == (SvPlayInitError, h)
    ensures outputMix && h.playerObject ==> r == (SvNoError, h)
    ensures outputMix && !h.playerObject ==> (r.0 == SvNoError <==> outcome == PlayerReady)
    ensures outputMix && !h.playerObject && r.0 == SvNoError ==> r.1.Complete()
    ensures outputMix && !h.playerObject && outcome != PlayerCreateFailed ==> r.1.playerObject
  {
    if !outputMix then (SvPlayInitError, h)
    else if h.playerObject then (SvNoError, h)
    else match outcome
      case PlayerCreateFailed => (SvPlayInitError, h)
      case ConfigInterfaceFailed => (SvPlayInitError, h.(playerObject := true))
      case StreamTypeFailed => (SvPlayInitError, h.(playerObject := true))
      case PerformanceModeFailed => (SvPlayInitError, h.(playerObject := true))
      case PlayerRealizeFailed => (SvPlayInitError, h.(playerObject := true))
      case PlayInterfaceFailed => (SvPlayInitError, h.(playerObject := true))
      case QueueInterfaceFailed => (SvPlayInitError, h.(playerObject := true, player := true))
      case RegisterCallbackFailed => (SvPlayInitError, h.(playerObject := true, player := true, queue := true))
      case PlayerReady => (SvNoError, PlayerHandles(true, true, true, true))
  }

  /** A player whose Realize fails is left half-built, and the next call
      takes the early return: it reports success while simple_buffer_queue_
      and sl_player_ are still null, so StartPlayout goes on to Enqueue and
      SetPlayState through null interfaces. */
  lemma HalfBuiltPlayerIsReused()
    ensures CreateAudioPlayerAsWritten(true, NoPlayer, PlayerRealizeFailed).0 == SvPlayInitError
    ensures var h := CreateAudioPlayerAsWritten(true, NoPlayer, PlayerRealizeFailed).1;
            forall o :: CreateAudioPlayerAsWritten(true, h, o) == (SvNoError, h) && !h.queue && !h.player
  {
  }

  /** CreateAudioPlayer with the early return made sound: a failure after
      the player object was created destroys that object and clears the
      interfaces taken from it, so "player object set" means "player
      complete". Used by StartPlayout below. */
  function CreateAudioPlayer(outputMix: bool, h: PlayerHandles, outcome: PlayerOutcome): (r: (SvResult, PlayerHandles))
    requires h.playerObject ==> h.Complete()
    ensures r.0 == SvNoError || r.0 == SvPlayInitError
    ensures !outputMix ==> r == (SvPlayInitError, h)
    ensures outputMix && h.playerObject ==> r == (SvNoError, h)
    ensures outputMix && !h.playerObject ==> (r.0 == SvNoError <==> outcome == PlayerReady)
    ensures r.0 == SvNoError ==> r.1.Complete()
    ensures r.1.playerObject ==> r.1.Complete()
  {
    if !outputMix then (SvPlayInitError, h)
    else if h.playerObject then (SvNoError, h)
    else if outcome == PlayerReady then (SvNoError, PlayerHandles(true, true, true, true))
    else if outcome == PlayerCreateFailed then (SvPlayInitError, h)
    else (SvPlayInitError, h.(playerObject := false, player := false, queue := false, callback := false))
  }

  /** The correction changes only the failure paths: the result code is
      always the one the code as written returns, and so are the handles
      whenever the call succeeds or fails before a player object exists. */
  lemma CreateAudioPlayerAgreesWithAsWritten(outputMix: bool, h: PlayerHandles, outcome: PlayerOutcome)
    requires h.playerObject ==> h.Complete()
    ensures CreateAudioPlayer(outputMix, h, outcome).0 == CreateAudioPlayerAsWritten(outputMix, h, outcome).0
    ensures CreateAudioPlayer(outputMix, h, outcome).0 == SvNoError ==>
              CreateAudioPlayer(outputMix, h, outcome) == CreateAudioPlayerAsWritten(outputMix, h, outcome)
    ensures !CreateAudioPlayerAsWritten(outputMix, h, outcome).1.playerObject ==>
              CreateAudioPlayer(outputMix, h, outcome) == CreateAudioPlayerAsWritten(outputMix, h, outcome)
  {
  }

  /** The OpenSL calls whose order matters, in the order they are made. */
  datatype SlCall =
    | Enqueue(bytes: nat, data: seq<int16>)
    | SetPlayState(state: PlayState)
    | ClearQueue
    | UnregisterCallback
    | DestroyPlayerObject
    | DestroyEngineObject

  /** The teardown StopPlayout performs once both vendor calls succeed:
      the callback is unregistered before either object is destroyed. */
  const Teardown: seq<SlCall> :=
    [SetPlayState(PlayStopped), ClearQueue, UnregisterCallback, DestroyPlayerObject, DestroyEngineObject]

  // ---------------------------------------------------------------------
  // The render.

  class SvOpenslRender {
    var initialized: bool
    var playing: bool
    var sampleRate: int
    var channels: int
    const numBuffers: int
    const file: PcmFile
    /** sl_object_ and sl_engine_ */
    var engineObject: bool
    var engine: bool
    /** sl_output_mix_ */
    var outputMix: bool
    var handles: PlayerHandles
    /** audio_buffers_; an empty array stands for the nullptr it holds
        before the first InitAudioRender, which nothing reads. */
    var audioBuffers: array<int16>
    /** The order-relevant OpenSL calls made so far. */
    ghost var log: seq<SlCall>

    ghost function Repr(): set<object>
      reads this
    {
      {this, file, audioBuffers}
    }

    /** The render's invariant. Whenever initialized_ holds there is an
        engine and an output mix and audio_buffers_ holds exactly one
        quantum of sample_rate_ / 100 * channels_ samples; playing_ needs
        initialized_; a player object is only ever complete (see
        CreateAudioPlayer) and only exists while initialized_ holds; the
        buffer-queue callback is only registered while the player exists. */
    ghost predicate Valid()
      reads this, file
    {
      && file.Valid()
      && 0 <= sampleRate && 0 <= channels
      && (initialized ==> engine && outputMix && audioBuffers.Length == Quantum(sampleRate, channels))
      && (initialized ==> 2 * Quantum(sampleRate, channels) <= IntMax)
      && (playing ==> initialized && handles.playerObject)
      && (handles.playerObject ==> initialized && handles.Complete())
      && (handles.callback ==> handles.playerObject)
    }

    /** Samples in one quantum at the configured rate and channel count. */
    function QuantumSize(): nat
      reads this
      requires 0 <= sampleRate && 0 <= channels
    {
      Quantum(sampleRate, channels)
    }

    /** SVOpenslRender(file_path): the field initialisers of the class,
        the opened file, and CreatePlayerEngine, whose result is ignored. */
    constructor (file: PcmFile, engineOutcome: EngineOutcome)
      requires file.Valid()
      ensures Valid() && fresh(Repr() - {file})
      ensures this.file == file && unchanged(file)
      ensures !initialized && !playing
      ensures sampleRate == 0 && channels == 0 && numBuffers == 2
      ensures engineObject <==> engineOutcome != EngineCreateFailed
      ensures engine <==> engineOutcome == EngineReady
      ensures !outputMix && handles == NoPlayer && log == []
    {
      initialized := false;
      playing := false;
      sampleRate := 0;
      channels := 0;
      numBuffers := 2;
      this.file := file;
      audioBuffers := new int16[0];
      outputMix := false;
      handles := NoPlayer;
      log := [];
      engineObject := engineOutcome != EngineCreateFailed;
      engine := engineOutcome == EngineReady;
    }

    /** InitAudioRender(sample_rate, channels). Rejected with
        SV_PLAY_STATE_ERROR when already initialized and with
        SV_PLAY_INIT_ERROR when there is no engine (never created, or
        released by StopPlayout), both changing nothing. Otherwise the
        buffer is reallocated to one quantum before the output mix is
        created, so a failing mix leaves a new buffer behind; only full
        success records the format and sets initialized_. */
    method InitAudioRender(sampleRate: int, channels: int, mix: MixOutcome) returns (r: SvResult)
      requires Valid() && IntConfig(sampleRate, channels) && 2 * Quantum(sampleRate, channels) <= IntMax
      modifies this
      ensures Valid() && fresh(Repr() - old(Repr()))
      ensures old(initialized) ==> r == SvPlayStateError && unchanged(this)
      ensures !old(initialized) && !old(engine) ==> r == SvPlayInitError && unchanged(this)
      ensures r == SvNoError <==> !old(initialized) && old(engine) && mix == MixReady
      ensures r == SvNoError || r == SvPlayStateError || r == SvPlayInitError
      ensures !old(initialized) && old(engine) ==>
                fresh(audioBuffers) && audioBuffers.Length == Quantum(sampleRate, channels)
      ensures !old(initialized) && old(engine) ==> outputMix == (old(outputMix) || mix != MixCreateFailed)
      ensures r == SvNoError ==> initialized && this.sampleRate == sampleRate && this.channels == channels
      ensures r != SvNoError ==>
                initialized == old(initialized) && this.sampleRate == old(this.sampleRate) && this.channels == old(this.channels)
      ensures playing == old(playing) && handles == old(handles) && log == old(log)
      ensures engine == old(engine) && engineObject == old(engineObject)
    {
      if initialized {
        return SvPlayStateError;
      }
      if !engine {
        return SvPlayInitError;
      }
      audioBuffers := new int16[Quantum(sampleRate, channels)];
      if mix == MixCreateFailed {
        return SvPlayInitError;
      }
      outputMix := true;
      if mix == MixRealizeFailed {
        return SvPlayInitError;
      }
      this.sampleRate := sampleRate;
      this.channels := channels;
      initialized := true;
      return SvNoError;
    }

    /** ReadPlayoutData: fread one quantum into audio_buffers_. A short read
        (end of file, read error, or a stream already closed) closes the
        file and returns false; a full read returns true with the buffer
        holding the next quantum of the file. */
    method ReadPlayoutData() returns (ok: bool)
      requires Valid() && initialized
      modifies file, audioBuffers
      ensures Valid()
      ensures ok <==> old(file.Available(QuantumSize())) == QuantumSize()
      ensures file.cursor == old(file.cursor) + old(file.Available(QuantumSize()))
      ensures ok ==> audioBuffers[..] == file.samples[old(file.cursor)..file.cursor]
      ensures ok ==> file.open == old(file.open) && file.closeCount == old(file.closeCount)
      ensures !ok ==> !file.open && file.closeCount == old(file.closeCount) + 1
    {
      var bufSize := Quantum(sampleRate, channels);
      var len := file.Read(audioBuffers, bufSize);
      if len < bufSize {
        file.Close();
        return false;
      }
      assert audioBuffers[..] == audioBuffers[..len];
      return true;
    }

    /** FillBufferQueue(check_state). With the check, a player not reported
        PLAYING makes it return false before the file is touched. Otherwise
        a failed read returns false, and a full read enqueues the buffer,
        2 * sample_rate_ / 100 * channels_ bytes (twice the buffer's sample
        count), and returns whether Enqueue succeeded. */
    method FillBufferQueue(checkState: bool, reported: PlayState, enqueueOk: bool) returns (ok: bool)
      requires Valid() && initialized && handles.Complete()
      modifies file, audioBuffers, this`log
      ensures Valid()
      ensures checkState && reported != PlayPlaying ==>
                !ok && unchanged(file) && unchanged(audioBuffers) && log == old(log)
      ensures !(checkState && reported != PlayPlaying) ==>
                file.cursor == old(file.cursor) + old(file.Available(QuantumSize()))
      ensures !(checkState && reported != PlayPlaying) && old(file.Available(QuantumSize())) < QuantumSize() ==>
                !ok && !file.open && file.closeCount == old(file.closeCount) + 1 && log == old(log)
      ensures !(checkState && reported != PlayPlaying) && old(file.Available(QuantumSize())) == QuantumSize() ==>
                && ok == enqueueOk
                && file.open == old(file.open) && file.closeCount == old(file.closeCount)
                && audioBuffers[..] == file.samples[old(file.cursor)..file.cursor]
                && log == old(log) + [Enqueue(2 * QuantumSize(), audioBuffers[..])]
                && 2 * QuantumSize() == 2 * audioBuffers.Length
    {
      if checkState {
        if reported != PlayPlaying {
          return false;
        }
      }
      var read := ReadPlayoutData();
      if !read {
        return false;
      }
      var size := sampleRate / 100 * channels * 2;
      log := log + [Enqueue(size, audioBuffers[..])];
      if !enqueueOk {
        return false;
      }
      return true;
    }

    /** StartPlayout. SV_PLAY_STATE_ERROR unless initialized and not
        playing, with nothing changed. Then CreateAudioPlayer (failure:
        SV_START_PLAY_ERROR), FillBufferQueue without the state check
        (failure: SV_FILL_BUFFER_ERROR) and SetPlayState(PLAYING) (failure:
        SV_START_PLAY_ERROR). Every failure leaves playing_ false. On
        success playing_ is whatever GetPlayState reads back, and
        SV_NO_ERROR is returned even when that is not PLAYING. */
    method StartPlayout(player: PlayerOutcome, enqueueOk: bool, setPlayingOk: bool, reported: PlayState)
      returns (r: SvResult)
      requires Valid()
      modifies this`handles, this`log, this`playing, file, audioBuffers
      ensures Valid() && Repr() == old(Repr())
      ensures r == SvPlayStateError <==> !old(initialized) || old(playing)
      ensures r == SvPlayStateError ==> unchanged(this, file, audioBuffers)
      ensures r != SvNoError && r != SvPlayStateError ==> !playing
      ensures r == SvNoError ==> (playing <==> reported == PlayPlaying)
      ensures initialized == old(initialized) && sampleRate == old(sampleRate) && channels == old(channels)
      ensures engine == old(engine) && engineObject == old(engineObject) && outputMix == old(outputMix)
      ensures r != SvPlayStateError ==> handles == CreateAudioPlayer(old(outputMix), old(handles), player).1
      ensures r != SvPlayStateError && CreateAudioPlayer(old(outputMix), old(handles), player).0 != SvNoError ==>
                r == SvStartPlayError && unchanged(file, audioBuffers) && log == old(log)
      ensures r == SvNoError || r == SvPlayStateError || r == SvStartPlayError || r == SvFillBufferError
      ensures r == SvFillBufferError <==>
                && old(initialized) && !old(playing)
                && CreateAudioPlayer(old(outputMix), old(handles), player).0 == SvNoError
                && (old(file.Available(QuantumSize())) < QuantumSize() || !enqueueOk)
      ensures r == SvStartPlayError <==>
                && old(initialized) && !old(playing)
                && (|| CreateAudioPlayer(old(outputMix), old(handles), player).0 != SvNoError
                    || (old(file.Available(QuantumSize())) == QuantumSize() && enqueueOk && !setPlayingOk))
      ensures r != SvPlayStateError && CreateAudioPlayer(old(outputMix), old(handles), player).0 == SvNoError ==>
                file.cursor == old(file.cursor) + old(file.Available(QuantumSize()))
      ensures r != SvPlayStateError && CreateAudioPlayer(old(outputMix), old(handles), player).0 == SvNoError
              && old(file.Available(QuantumSize())) < QuantumSize() ==>
                !file.open && file.closeCount == old(file.closeCount) + 1 && log == old(log)
      ensures r != SvPlayStateError && CreateAudioPlayer(old(outputMix), old(handles), player).0 == SvNoError
              && old(file.Available(QuantumSize())) == QuantumSize() ==>
                && file.open == old(file.open) && file.closeCount == old(file.closeCount)
                && audioBuffers[..] == file.samples[old(file.cursor)..file.cursor]
                && log == old(log) + [Enqueue(2 * QuantumSize(), audioBuffers[..])]
                          + (if enqueueOk then [SetPlayState(PlayPlaying)] else [])
      ensures r == SvNoError <==>
                && old(initialized) && !old(playing)
                && CreateAudioPlayer(old(outputMix), old(handles), player).0 == SvNoError
                && old(file.Available(QuantumSize())) == QuantumSize() && enqueueOk && setPlayingOk
      ensures r == SvNoError ==>
                && file.cursor == old(file.cursor) + QuantumSize()
                && audioBuffers[..] == file.samples[old(file.cursor)..file.cursor]
                && log == old(log) + [Enqueue(2 * QuantumSize(), audioBuffers[..]), SetPlayState(PlayPlaying)]
    {
      if !initialized || playing {
        r := SvPlayStateError;
      } else {
        var created := CreateAudioPlayer(outputMix, handles, player);
        handles := created.1;
        if created.0 != SvNoError {
          r := SvStartPlayError;
        } else {
          r := StartCreatedPlayer(enqueueOk, setPlayingOk, reported);
        }
      }
    }

    /** The rest of StartPlayout once the player exists: FillBufferQueue
        without the state check (failure: SV_FILL_BUFFER_ERROR), then
        SetPlayState(PLAYING) (failure: SV_START_PLAY_ERROR) and
        GetPlayState, which decides playing_. */
    method StartCreatedPlayer(enqueueOk: bool, setPlayingOk: bool, reported: PlayState) returns (r: SvResult)
      requires Valid() && initialized && !playing && handles.Complete()
      modifies this`log, this`playing, file, audioBuffers
      ensures Valid()
      ensures r == SvNoError || r == SvStartPlayError || r == SvFillBufferError
      ensures r == SvFillBufferError <==> old(file.Available(QuantumSize())) < QuantumSize() || !enqueueOk
      ensures r == SvStartPlayError <==> old(file.Available(QuantumSize())) == QuantumSize() && enqueueOk && !setPlayingOk
      ensures playing <==> r == SvNoError && reported == PlayPlaying
      ensures file.cursor == old(file.cursor) + old(file.Available(QuantumSize()))
      ensures old(file.Available(QuantumSize())) < QuantumSize() ==>
                !file.open && file.closeCount == old(file.closeCount) + 1 && log == old(log)
      ensures old(file.Available(QuantumSize())) == QuantumSize() ==>
                && file.open == old(file.open) && file.closeCount == old(file.closeCount)
                && audioBuffers[..] == file.samples[old(file.cursor)..file.cursor]
                && log == old(log) + [Enqueue(2 * QuantumSize(), audioBuffers[..])]
                          + (if enqueueOk then [SetPlayState(PlayPlaying)] else [])
    {
      var filled := FillBufferQueue(false, PlayStopped, enqueueOk);
      if !filled {
        r := SvFillBufferError;
      } else {
        log := log + [SetPlayState(PlayPlaying)];
        if !setPlayingOk {
          r := SvStartPlayError;
        } else {
          playing := reported == PlayPlaying;
          r := SvNoError;
        }
      }
    }

    /** StopPlayout. SV_PLAY_STATE_ERROR unless initialized and playing.
        A failing SetPlayState(STOPPED) or Clear returns
        SV_STOP_PLAYER_ERROR with both flags and all handles unchanged.
        Otherwise the callback is unregistered before the player and the
        engine are destroyed, sl_player_, sl_player_object_, sl_engine_
        and sl_object_ are nulled, and both flags are cleared, so a second
        StopPlayout, and any later InitAudioRender, is rejected. */
    method StopPlayout(setStoppedOk: bool, clearOk: bool) returns (r: SvResult)
      requires Valid()
      modifies this`log, this`handles, this`engine, this`engineObject, this`playing, this`initialized
      ensures Valid() && Repr() == old(Repr())
      ensures r == SvPlayStateError <==> !old(initialized) || !old(playing)
      ensures r == SvPlayStateError ==> unchanged(this)
      ensures r == SvStopPlayerError <==> old(initialized) && old(playing) && (!setStoppedOk || !clearOk)
      ensures r == SvNoError <==> old(initialized) && old(playing) && setStoppedOk && clearOk
      ensures r != SvNoError ==>
                && initialized == old(initialized) && playing == old(playing)
                && handles == old(handles) && engine == old(engine) && engineObject == old(engineObject)
      ensures r == SvStopPlayerError ==>
                log == old(log) + (if setStoppedOk then Teardown[..2] else Teardown[..1])
      ensures r == SvNoError ==>
                && !initialized && !playing
                && !engine && !engineObject
                && !handles.playerObject && !handles.player && !handles.callback
                && handles.queue == old(handles.queue)
                && log == old(log) + Teardown
      ensures outputMix == old(outputMix) && sampleRate == old(sampleRate) && channels == old(channels)
    {
      if !initialized || !playing {
        r := SvPlayStateError;
      } else if !setStoppedOk {
        log := old(log) + Teardown[..1];
        r := SvStopPlayerError;
      } else if !clearOk {
        log := old(log) + Teardown[..2];
        r := SvStopPlayerError;
      } else {
        log := old(log) + Teardown[..3];
        handles := handles.(callback := false);
        log := old(log) + Teardown;
        handles := handles.(player := false, playerObject := false);
        engine := false;
        engineObject := false;
        playing := false;
        initialized := false;
        r := SvNoError;
      }
    }
  }

  /** SimpleBufferQueueCallback(caller, context): the player asks for the
      next buffer; with a render as context it runs FillBufferQueue with
      the play-state check. OpenSL only calls it while it is registered. */
  method SimpleBufferQueueCallback(render: SvOpenslRender?, reported: PlayState, enqueueOk: bool)
    requires render != null ==> render.Valid() && render.handles.callback
    modifies if render == null then {} else {render, render.file, render.audioBuffers}
    ensures render != null ==> render.Valid() && render.handles == old(render.handles)
    ensures render != null && reported != PlayPlaying ==>
              unchanged(render.file) && render.log == old(render.log)
    ensures render != null && reported == PlayPlaying ==>
              render.file.cursor == old(render.file.cursor) + old(render.file.Available(render.QuantumSize()))
    ensures render != null && reported == PlayPlaying && old(render.file.Available(render.QuantumSize()) < render.QuantumSize()) ==>
              !render.file.open && render.log == old(render.log)
    ensures render != null && reported == PlayPlaying && old(render.file.Available(render.QuantumSize()) == render.QuantumSize()) ==>
              && render.audioBuffers[..] == render.file.samples[old(render.file.cursor)..render.file.cursor]
              && render.log == old(render.log) + [Enqueue(2 * render.QuantumSize(), render.audioBuffers[..])]
  {
    if render != null {
      var _ := render.FillBufferQueue(true, reported, enqueueOk);
    }
  }

  /** A file shorter than one quantum: StartPlayout fails with
      SV_FILL_BUFFER_ERROR and the short read closes the file. The render
      stays initialized and not playing, so a retry passes the state check,
      reuses the player, reads again and closes the same file a second
      time. */
  method ShortFileRetryClosesTwice(samples: seq<int16>) returns (first: SvResult, second: SvResult, closes: nat)
    requires |samples| < 480
    ensures first == SvFillBufferError && second == SvFillBufferError && closes == 2
  {
    var file := new PcmFile(samples, false);
    var render := new SvOpenslRender(file, EngineReady);
    var init := render.InitAudioRender(48000, 1, MixReady);
    first := render.StartPlayout(PlayerReady, true, true, PlayPlaying);
    second := render.StartPlayout(PlayerReady, true, true, PlayPlaying);
    closes := file.closeCount;
  }

  /** A render that has played and stopped has lost its engine: a second
      StopPlayout is SV_PLAY_STATE_ERROR and any later InitAudioRender is
      SV_PLAY_INIT_ERROR, whatever the output mix would do. */
  method StopReleasesEngine(samples: seq<int16>, mix: MixOutcome)
    returns (stop: SvResult, stopAgain: SvResult, reinit: SvResult)
    requires |samples| >= 480
    ensures stop == SvNoError && stopAgain == SvPlayStateError && reinit == SvPlayInitError
  {
    var file := new PcmFile(samples, false);
    var render := new SvOpenslRender(file, EngineReady);
    var init := render.InitAudioRender(48000, 1, MixReady);
    var start := render.StartPlayout(PlayerReady, true, true, PlayPlaying);
    stop := render.StopPlayout(true, true);
    stopAgain := render.StopPlayout(true, true);
    reinit := render.InitAudioRender(48000, 1, mix);
  }
}
