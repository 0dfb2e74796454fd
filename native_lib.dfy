/** native-lib.cpp: the JNI façade behind SVNativeAudioRender. Its two
    globals, g_render_type and g_audio_render, are the fields of one
    NativeSession object, and each registered native method is a method of
    it. Only the OpenSL render is ever constructed here. The JNI
    environment and string conversion are not modelled; the file that
    fopen opens is passed in as its contents. */
module NativeLib {
  import opened Common
  import opened Pcm
  import opened Opensl

  /** JNI_OK and JNI_ERR. */
  datatype JniResult = JniOk | JniErr

  function JniCode(r: JniResult): (c: int)
    ensures c == 0 <==> r == JniOk
    ensures c == -1 <==> r == JniErr
  {
    match r
    case JniOk => 0
    case JniErr => -1
  }

  /** A Java int. */
  predicate IsJint(x: int)
  {
    -0x8000_0000 <= x < 0x8000_0000
  }

  class NativeSession {
    /** g_render_type: an SV_RENDER_TYPE value, so a 16-bit integer. */
    var renderType: int
    /** g_audio_render; null when no render is held. */
    var render: SvOpenslRender?

    ghost function Repr(): set<object>
      reads this, render
    {
      {this} + (if render == null then {} else render.Repr())
    }

    /** A held render is a valid OpenSL render and g_render_type is then
        OPENSL: the only render native-lib ever creates. */
    ghost predicate Valid()
      reads this, render, if render == null then {} else {render.file}
    {
      && -0x8000 <= renderType < 0x8000
      && (render != null ==> render.Valid() && renderType == OpenSl)
    }

    /** The globals' initial values: UNDEFINED and nullptr. */
    constructor ()
      ensures Valid() && renderType == Undefined && render == null
    {
      renderType := Undefined;
      render := null;
    }

    /** NativeSetRecordType(type, file_path). While a render type is set and
        a render is held the call is refused and nothing changes. Otherwise
        type OPENSL constructs a fresh OpenSL render on the file, any other
        type constructs nothing (and no render was held, by Valid), and
        g_render_type becomes the jint cast to the 16-bit enum. */
    method NativeSetRecordType(renderKind: int, samples: seq<int16>, ioError: bool, engineOutcome: EngineOutcome)
      requires Valid() && IsJint(renderKind)
      modifies this
      ensures Valid() && fresh(Repr() - old(Repr()))
      ensures old(renderType != Undefined && render != null) ==>
                renderType == old(renderType) && render == old(render)
      ensures !old(renderType != Undefined && render != null) ==> renderType == ToInt16(renderKind)
      ensures !old(renderType != Undefined && render != null) && renderKind == OpenSl ==>
                && render != null && fresh(render) && fresh(render.file)
                && render.file.samples == samples && render.file.ioError == ioError
                && render.file.open && render.file.cursor == 0
                && !render.initialized && !render.playing && render.handles == NoPlayer
                && (render.engine <==> engineOutcome == EngineReady) && !render.outputMix
      ensures !old(renderType != Undefined && render != null) && renderKind != OpenSl ==> render == null
    {
      if renderType != Undefined && render != null {
        return;
      }
      if renderKind == OpenSl {
        var file := new PcmFile(samples, ioError);
        render := new SvOpenslRender(file, engineOutcome);
      }
      renderType := ToInt16(renderKind);
    }

    /** NativeInitRecording: JNI_OK without a render; otherwise JNI_OK
        exactly when the render's InitAudioRender returns SV_NO_ERROR. */
    method NativeInitRecording(sampleRate: int, channels: int, mix: MixOutcome) returns (r: JniResult)
      requires Valid() && IntConfig(sampleRate, channels) && 2 * Quantum(sampleRate, channels) <= IntMax
      modifies Repr()
      ensures Valid() && fresh(Repr() - old(Repr()))
      ensures render == old(render) && renderType == old(renderType)
      ensures old(render) == null ==> r == JniOk
      ensures old(render) != null ==>
                (r == JniOk <==> !old(render.initialized) && old(render.engine) && mix == MixReady)
      ensures old(render) != null && r == JniOk ==>
                render.initialized && render.outputMix && render.sampleRate == sampleRate && render.channels == channels
      ensures old(render) != null ==>
                render.playing == old(render.playing) && render.handles == old(render.handles) && unchanged(render.file)
    {
      if render != null {
        var result := render.InitAudioRender(sampleRate, channels, mix);
        if result != SvNoError {
          return JniErr;
        }
      }
      return JniOk;
    }

    /** NativeStartRecording: JNI_OK without a render; otherwise JNI_OK
        exactly when the render's StartPlayout returns SV_NO_ERROR. */
    method NativeStartRecording(player: PlayerOutcome, enqueueOk: bool, setPlayingOk: bool, reported: PlayState)
      returns (r: JniResult)
      requires Valid()
      modifies Repr()
      ensures Valid() && fresh(Repr() - old(Repr()))
      ensures render == old(render) && renderType == old(renderType)
      ensures old(render) == null ==> r == JniOk
      ensures old(render) != null ==>
                (r == JniOk <==>
                   && old(render.initialized) && !old(render.playing)
                   && CreateAudioPlayer(old(render.outputMix), old(render.handles), player).0 == SvNoError
                   && old(render.file.Available(render.QuantumSize()) == render.QuantumSize())
                   && enqueueOk && setPlayingOk)
      ensures old(render) != null ==> render.initialized == old(render.initialized)
      ensures old(render) != null && r == JniOk ==> (render.playing <==> reported == PlayPlaying)
    {
      if render != null {
        var result := render.StartPlayout(player, enqueueOk, setPlayingOk, reported);
        if result != SvNoError {
          return JniErr;
        }
      }
      return JniOk;
    }

    /** NativeStopRecording: when the render's StopPlayout fails the call
        returns JNI_ERR and keeps both the render and its type, so a later
        NativeSetRecordType is still refused. Otherwise (including when no
        render is held) the render is dropped, the type reset to UNDEFINED
        and JNI_OK returned. */
    method NativeStopRecording(setStoppedOk: bool, clearOk: bool) returns (r: JniResult)
      requires Valid()
      modifies Repr()
      ensures Valid() && fresh(Repr() - old(Repr()))
      ensures r == JniErr <==>
                old(render) != null &&
                (!old(render.initialized) || !old(render.playing) || !setStoppedOk || !clearOk)
      ensures r == JniErr ==> render == old(render) && renderType == old(renderType)
      ensures r == JniOk ==> render == null && renderType == Undefined
      ensures r == JniOk && old(render) != null ==>
                !old(render).initialized && !old(render).playing && !old(render).engine
    {
      if render != null {
        var result := render.StopPlayout(setStoppedOk, clearOk);
        if result != SvNoError {
          return JniErr;
        }
      }
      render := null;
      renderType := Undefined;
      return JniOk;
    }
  }

  /** Stopping an OpenSL render that was initialized but never started
      fails, and the render it keeps makes the next NativeSetRecordType a
      no-op: the session stays on OPENSL with the same render. */
  method StopBeforeStartKeepsRender(samples: seq<int16>) returns (stop: JniResult, sameRender: bool, kind: int)
    ensures stop == JniErr && sameRender && kind == OpenSl
  {
    var session := new NativeSession();
    session.NativeSetRecordType(OpenSl, samples, false, EngineReady);
    var held := session.render;
    var init := session.NativeInitRecording(44100, 2, MixReady);
    stop := session.NativeStopRecording(true, true);
    session.NativeSetRecordType(AAudioType, samples, false, EngineReady);
    sameRender := session.render == held;
    kind := session.renderType;
  }

  /** A full OpenSL session: set the type, init, start on a file holding at
      least one quantum, and stop. Every call returns JNI_OK and the session
      ends empty, ready for another NativeSetRecordType. */
  method FullSession(samples: seq<int16>) returns (init: JniResult, start: JniResult, stop: JniResult, kind: int, empty: bool)
    requires |samples| >= 441 * 2
    ensures init == JniOk && start == JniOk && stop == JniOk
    ensures kind == Undefined && empty
  {
    var session := new NativeSession();
    session.NativeSetRecordType(OpenSl, samples, false, EngineReady);
    init := session.NativeInitRecording(44100, 2, MixReady);
    start := session.NativeStartRecording(PlayerReady, true, true, PlayPlaying);
    stop := session.NativeStopRecording(true, true);
    kind := session.renderType;
    empty := session.render == null;
  }

  /** A stored type without a render does not block: after AAUDIO, which
      constructs nothing, an OPENSL request is accepted and builds a
      render. */
  method TypeWithoutRenderDoesNotBlock(samples: seq<int16>) returns (firstKind: int, firstEmpty: bool, kind: int, built: bool)
    ensures firstKind == AAudioType && firstEmpty
    ensures kind == OpenSl && built
  {
    var session := new NativeSession();
    session.NativeSetRecordType(AAudioType, samples, false, EngineReady);
    firstKind := session.renderType;
    firstEmpty := session.render == null;
    session.NativeSetRecordType(OpenSl, samples, false, EngineReady);
    kind := session.renderType;
    built := session.render != null;
  }
}
