/** SVAAudioRender: playout through an AAudio stream whose data callback
    pulls one buffer of frames at a time from the PCM file. The AAudio
    builder and stream are not modelled: openStream, requestStart and
    requestStop are outcomes passed in, getState is a reported state, and
    the stream's format is the one requested from the builder. */
module AAudio {
  import opened Common
  import opened Pcm

  /** aaudio_stream_state_t. */
  datatype StreamState =
    | StateUninitialized | StateOpen | StateStarting | StateStarted
    | StatePausing | StatePaused | StateFlushing | StateFlushed
    | StateStopping | StateStopped | StateClosing | StateClosed | StateDisconnected

  /** aaudio_data_callback_result_t. */
  datatype CallbackResult = CallbackContinue | CallbackStop

  class SvAAudioRender {
    const file: PcmFile
    /** file_ != nullptr */
    var fileSet: bool
    var initialized: bool
    /** stream_ != nullptr, and the format the stream was opened with. */
    var streamSet: bool
    var streamSampleRate: int
    var streamChannels: int
    /** audio_buffers_; an empty array stands for the nullptr it holds
        before the first successful InitAudioRender, which nothing reads. */
    var audioBuffers: array<int16>

    ghost function Repr(): set<object>
      reads this
    {
      {this, file, audioBuffers}
    }

    /** Once a stream is open, audio_buffers_ holds one quantum,
        sample_rate / 100 * channels samples, of its format. */
    ghost predicate Valid()
      reads this, file
    {
      && file.Valid()
      && 0 <= streamSampleRate && 0 <= streamChannels
      && (initialized ==> streamSet)
      && (streamSet ==> audioBuffers.Length == Quantum(streamSampleRate, streamChannels))
    }

    /** SVAAudioRender(file_path): the opened file and a stream builder. */
    constructor (file: PcmFile)
      requires file.Valid()
      ensures Valid() && fresh(Repr() - {file})
      ensures this.file == file && unchanged(file)
      ensures fileSet && !initialized && !streamSet
    {
      this.file := file;
      fileSet := true;
      initialized := false;
      streamSet := false;
      streamSampleRate := 0;
      streamChannels := 0;
      audioBuffers := new int16[0];
    }

    /** ~SVAAudioRender as written: fclose(file_) whenever file_ is not
        null. ReadPlayoutData closes the file without nulling file_, so
        after a short read this is a second fclose of the same stream. */
    method Destroy()
      requires Valid()
      modifies this, file
      ensures old(fileSet) ==> !file.open && file.closeCount == old(file.closeCount) + 1
      ensures !old(fileSet) ==> unchanged(file)
      ensures !fileSet && !initialized && !streamSet
    {
      if fileSet {
        file.Close();
        fileSet := false;
      }
      streamSet := false;
      initialized := false;
    }

    /** The destructor with the guard it evidently intends: close the file
        only if it is still open, as it would be if ReadPlayoutData nulled
        file_ after its fclose. Every file is then closed at most once. */
    method DestroyIfOpen()
      requires Valid()
      modifies this, file
      ensures old(fileSet && file.open) ==> file.closeCount == old(file.closeCount) + 1
      ensures !old(fileSet && file.open) ==> file.closeCount == old(file.closeCount)
      ensures old(fileSet) ==> !file.open
      ensures !fileSet && !initialized && !streamSet
    {
      if fileSet && file.open {
        file.Close();
      }
      fileSet := false;
      streamSet := false;
      initialized := false;
    }

    /** ReadPlayoutData(num_frames): fread num_frames * channels samples
        into audio_buffers_; a short read closes the file (leaving file_
        set) and returns false. The buffer holds one 10 ms quantum and the
        code never checks num_frames against it, so the fread stays inside
        the buffer only under the precondition below. */
    method ReadPlayoutData(numFrames: nat) returns (ok: bool)
      requires Valid() && streamSet
      requires numFrames * streamChannels <= audioBuffers.Length
      modifies file, audioBuffers
      ensures Valid()
      ensures ok <==> old(file.Available(numFrames * streamChannels)) == numFrames * streamChannels
      ensures file.cursor == old(file.cursor) + old(file.Available(numFrames * streamChannels))
      ensures ok ==> audioBuffers[..numFrames * streamChannels] == file.samples[old(file.cursor)..file.cursor]
      ensures ok ==> file.open == old(file.open) && file.closeCount == old(file.closeCount)
      ensures !ok ==> !file.open && file.closeCount == old(file.closeCount) + 1
    {
      var bufSize := numFrames * streamChannels;
      var len := file.Read(audioBuffers, bufSize);
      if len < bufSize {
        file.Close();
        return false;
      }
      return true;
    }

    /** InitAudioRender(sample_rate, channels): there is no guard against a
        second call. A failing openStream returns SV_PLAY_INIT_ERROR and
        changes nothing; success records the stream's format, allocates a
        fresh quantum buffer and sets initialized_. */
    method InitAudioRender(sampleRate: int, channels: int, openOk: bool) returns (r: SvResult)
      requires Valid() && IntConfig(sampleRate, channels)
      modifies this
      ensures Valid() && fresh(Repr() - old(Repr()))
      ensures r == SvNoError <==> openOk
      ensures !openOk ==> r == SvPlayInitError && unchanged(this)
      ensures openOk ==>
                && initialized && streamSet
                && streamSampleRate == sampleRate && streamChannels == channels
                && fresh(audioBuffers) && audioBuffers.Length == Quantum(sampleRate, channels)
      ensures fileSet == old(fileSet)
    {
      if !openOk {
        return SvPlayInitError;
      }
      streamSet := true;
      streamSampleRate := sampleRate;
      streamChannels := channels;
      audioBuffers := new int16[Quantum(sampleRate, channels)];
      initialized := true;
      return SvNoError;
    }

    /** StartPlayout: SV_PLAY_STATE_ERROR before a successful init;
        SV_START_PLAY_ERROR when the stream is not OPEN or requestStart
        fails; SV_NO_ERROR otherwise. No path changes the render. */
    method StartPlayout(reported: StreamState, startOk: bool) returns (r: SvResult)
      requires Valid()
      ensures r == SvPlayStateError <==> !initialized
      ensures r == SvStartPlayError <==> initialized && (reported != StateOpen || !startOk)
      ensures r == SvNoError <==> initialized && reported == StateOpen && startOk
    {
      if !initialized {
        return SvPlayStateError;
      }
      if reported != StateOpen {
        return SvStartPlayError;
      }
      if !startOk {
        return SvStartPlayError;
      }
      return SvNoError;
    }

    /** StopPlayout: SV_PLAY_STATE_ERROR when not initialized; a failing
        requestStop returns SV_STOP_PLAYER_ERROR with initialized_ still
        set; success clears initialized_, so a second StopPlayout is
        SV_PLAY_STATE_ERROR. The stream stays open and set. */
    method StopPlayout(stopOk: bool) returns (r: SvResult)
      requires Valid()
      modifies this`initialized
      ensures Valid()
      ensures r == SvPlayStateError <==> !old(initialized)
      ensures r == SvStopPlayerError <==> old(initialized) && !stopOk
      ensures r == SvNoError <==> old(initialized) && stopOk
      ensures initialized == (old(initialized) && !stopOk)
    {
      if !initialized {
        return SvPlayStateError;
      }
      if !stopOk {
        return SvStopPlayerError;
      }
      initialized := false;
      return SvNoError;
    }
  }

  /** DataCallback(stream, user_data, audio_data, num_frames). Without a
      render it returns STOP and touches nothing. Otherwise it silences all
      channels * num_frames samples of the destination, reads that many
      into audio_buffers_, and copies them out only if the read was full:
      the destination is then the next samples of the file and the result
      CONTINUE; after a short read it stays silent and the result is STOP. */
  method DataCallback(render: SvAAudioRender?, audioData: array<int16>, numFrames: nat) returns (r: CallbackResult)
    requires render != null ==> render.Valid() && render.streamSet && audioData !in render.Repr()
    requires render != null ==> audioData.Length == numFrames * render.streamChannels
    requires render != null ==> numFrames * render.streamChannels <= render.audioBuffers.Length
    modifies audioData, if render == null then {} else {render.file, render.audioBuffers}
    ensures render == null ==> r == CallbackStop && unchanged(audioData)
    ensures render != null ==> render.Valid()
    ensures render != null ==>
              (r == CallbackContinue <==> old(render.file.Available(audioData.Length)) == audioData.Length)
    ensures render != null ==>
              render.file.cursor == old(render.file.cursor) + old(render.file.Available(audioData.Length))
    ensures render != null && r == CallbackContinue ==>
              && audioData[..] == render.file.samples[old(render.file.cursor)..render.file.cursor]
              && render.file.closeCount == old(render.file.closeCount)
    ensures render != null && r == CallbackStop ==>
              && (forall k :: 0 <= k < audioData.Length ==> audioData[k] == 0)
              && !render.file.open && render.file.closeCount == old(render.file.closeCount) + 1
  {
    if render == null {
      return CallbackStop;
    }
    var numSamples := render.streamChannels * numFrames;
    ZeroFill(audioData, numSamples);
    var ok := render.ReadPlayoutData(numFrames);
    if !ok {
      return CallbackStop;
    }
    CopyPrefix(audioData, render.audioBuffers, numSamples);
    assert audioData[..] == audioData[..numSamples];
    return CallbackContinue;
  }

  /** The file holds less than one callback's worth: the callback returns
      STOP with an all-silent destination and closes the file, and the
      destructor as written closes it a second time. */
  method ShortFileThenDestroy(samples: seq<int16>) returns (result: CallbackResult, silent: bool, closes: nat)
    requires |samples| < 160
    ensures result == CallbackStop && silent && closes == 2
  {
    var file := new PcmFile(samples, false);
    var render := new SvAAudioRender(file);
    var init := render.InitAudioRender(16000, 1, true);
    var out := new int16[160];
    result := DataCallback(render, out, 160);
    silent := forall k :: 0 <= k < out.Length ==> out[k] == 0;
    render.Destroy();
    closes := file.closeCount;
  }

  /** The same run with the destructor that checks whether the file is
      still open: the file is closed exactly once. */
  method ShortFileThenDestroyIfOpen(samples: seq<int16>) returns (closes: nat)
    requires |samples| < 160
    ensures closes == 1
  {
    var file := new PcmFile(samples, false);
    var render := new SvAAudioRender(file);
    var init := render.InitAudioRender(16000, 1, true);
    var out := new int16[160];
    var result := DataCallback(render, out, 160);
    render.DestroyIfOpen();
    closes := file.closeCount;
  }
}
