/** SVOboeRender: playout through an Oboe stream whose onAudioReady callback
    pulls one buffer of frames at a time from the PCM file. The Oboe builder
    and stream are not modelled: openStream, requestStart and requestStop
    are outcomes passed in, getState is a reported state, and the stream's
    format is the one requested from the builder. */
module Oboe {
  import opened Common
  import opened Pcm

  /** oboe::StreamState. */
  datatype StreamState =
    | Uninitialized | Unknown | Open | Starting | Started | Pausing | Paused
    | Flushing | Flushed | Stopping | Stopped | Closing | Closed | Disconnected

  /** oboe::DataCallbackResult. */
  datatype DataCallbackResult = Continue | Stop

  class SvOboeRender {
    const file: PcmFile
    /** file_ != nullptr */
    var fileSet: bool
    var initialized: bool
    /** stream_ != nullptr, and the format the stream was opened with. */
    var streamSet: bool
    var streamSampleRate: int
    var streamChannels: int
    /** audio_buffers_; an empty array stands for the nullptr it holds
        before the first successful InitAudioRender, which nothing reads. */
    var audioBuffers: array<int16>

    ghost function Repr(): set<object>
      reads this
    {
      {this, file, audioBuffers}
    }

    /** initialized_ holds exactly when a stream has been opened, and then
        audio_buffers_ holds one quantum of the stream's format. */
    ghost predicate Valid()
      reads this, file
    {
      && file.Valid()
      && 0 <= streamSampleRate && 0 <= streamChannels
      && (initialized <==> streamSet)
      && (streamSet ==> audioBuffers.Length == Quantum(streamSampleRate, streamChannels))
    }

    /** SVOboeRender(file_path): the opened file, no stream yet. */
    constructor (file: PcmFile)
      requires file.Valid()
      ensures Valid() && fresh(Repr() - {file})
      ensures this.file == file && unchanged(file)
      ensures fileSet && !initialized && !streamSet
    {
      this.file := file;
      fileSet := true;
      initialized := false;
      streamSet := false;
      streamSampleRate := 0;
      streamChannels := 0;
      audioBuffers := new int16[0];
    }

    /** ~SVOboeRender as written, as far as the file goes: fclose(file_)
        whenever file_ is not null, which after a short read in
        ReadPlayoutData is a second fclose of the same stream. */
    method Destroy()
      requires Valid()
      modifies this, file
      ensures old(fileSet) ==> !file.open && file.closeCount == old(file.closeCount) + 1
      ensures !old(fileSet) ==> unchanged(file)
      ensures !fileSet && !initialized && !streamSet
    {
      if fileSet {
        file.Close();
        fileSet := false;
      }
      streamSet := false;
      initialized := false;
    }

    /** The destructor with the guard it evidently intends: close the file
        only while it is still open. Every file is then closed at most once. */
    method DestroyIfOpen()
      requires Valid()
      modifies this, file
      ensures old(fileSet && file.open) ==> file.closeCount == old(file.closeCount) + 1
      ensures !old(fileSet && file.open) ==> file.closeCount == old(file.closeCount)
      ensures old(fileSet) ==> !file.open
      ensures !fileSet && !initialized && !streamSet
    {
      if fileSet && file.open {
        file.Close();
      }
      fileSet := false;
      streamSet := false;
      initialized := false;
    }

    /** ReadPlayoutData(num_frames): fread num_frames * channels samples
        into audio_buffers_; a short read closes the file (leaving file_
        set) and returns false. As in the AAudio render, num_frames is never
        checked against the quantum, so the precondition carries it. */
    method ReadPlayoutData(numFrames: nat) returns (ok: bool)
      requires Valid() && streamSet
      requires numFrames * streamChannels <= audioBuffers.Length
      modifies file, audioBuffers
      ensures Valid()
      ensures ok <==> old(file.Available(numFrames * streamChannels)) == numFrames * streamChannels
      ensures file.cursor == old(file.cursor) + old(file.Available(numFrames * streamChannels))
      ensures ok ==> audioBuffers[..numFrames * streamChannels] == file.samples[old(file.cursor)..file.cursor]
      ensures ok ==> file.open == old(file.open) && file.closeCount == old(file.closeCount)
      ensures !ok ==> !file.open && file.closeCount == old(file.closeCount) + 1
    {
      var bufSize := numFrames * streamChannels;
      var len := file.Read(audioBuffers, bufSize);
      if len < bufSize {
        file.Close();
        return false;
      }
      return true;
    }

    /** onAudioReady(stream, audioData, numFrames): silence all
        channels * numFrames samples of the destination, read that many
        into audio_buffers_, and copy them out only after a full read
        (Continue); after a short read the destination stays silent (Stop). */
    method OnAudioReady(audioData: array<int16>, numFrames: nat) returns (r: DataCallbackResult)
      requires Valid() && streamSet && audioData !in Repr()
      requires audioData.Length == numFrames * streamChannels
      requires numFrames * streamChannels <= audioBuffers.Length
      modifies audioData, file, audioBuffers
      ensures Valid()
      ensures r == Continue <==> old(file.Available(audioData.Length)) == audioData.Length
      ensures file.cursor == old(file.cursor) + old(file.Available(audioData.Length))
      ensures r == Continue ==>
                audioData[..] == file.samples[old(file.cursor)..file.cursor] && file.closeCount == old(file.closeCount)
      ensures r == Stop ==>
                && (forall k :: 0 <= k < audioData.Length ==> audioData[k] == 0)
                && !file.open && file.closeCount == old(file.closeCount) + 1
    {
      var numSamples := streamChannels * numFrames;
      ZeroFill(audioData, numSamples);
      var ok := ReadPlayoutData(numFrames);
      if !ok {
        return Stop;
      }
      CopyPrefix(audioData, audioBuffers, numSamples);
      assert audioData[..] == audioData[..numSamples];
      return Continue;
    }

    /** onError: reports that the stream has been stopped and closed. */
    method OnError() returns (stoppedAndClosed: bool)
      ensures stoppedAndClosed
    {
      return true;
    }

    /** InitAudioRender(sample_rate, channels): on an initialized render it
        returns SV_NO_ERROR and changes nothing, so repeating it is
        harmless. A failing openStream returns SV_PLAY_INIT_ERROR with
        initialized_ still false; success records the stream's format,
        allocates a fresh quantum buffer and sets initialized_. */
    method InitAudioRender(sampleRate: int, channels: int, openOk: bool) returns (r: SvResult)
      requires Valid() && IntConfig(sampleRate, channels)
      modifies this
      ensures Valid() && fresh(Repr() - old(Repr()))
      ensures old(initialized) ==> r == SvNoError && unchanged(this)
      ensures !old(initialized) && !openOk ==> r == SvPlayInitError && unchanged(this)
      ensures r == SvPlayInitError <==> !old(initialized) && !openOk
      ensures !old(initialized) && openOk ==>
                && r == SvNoError && initialized
                && streamSampleRate == sampleRate && streamChannels == channels
                && fresh(audioBuffers) && audioBuffers.Length == Quantum(sampleRate, channels)
      ensures fileSet == old(fileSet)
    {
      if initialized {
        return SvNoError;
      }
      if !openOk {
        return SvPlayInitError;
      }
      streamSet := true;
      streamSampleRate := sampleRate;
      streamChannels := channels;
      audioBuffers := new int16[Quantum(sampleRate, channels)];
      initialized := true;
      return SvNoError;
    }

    /** StartPlayout: SV_PLAY_STATE_ERROR when not initialized or the stream
        is not Open; SV_START_PLAY_ERROR when requestStart fails. */
    method StartPlayout(reported: StreamState, startOk: bool) returns (r: SvResult)
      requires Valid()
      ensures r == SvPlayStateError <==> !initialized || reported != Open
      ensures r == SvStartPlayError <==> initialized && reported == Open && !startOk
      ensures r == SvNoError <==> initialized && reported == Open && startOk
    {
      if !initialized {
        return SvPlayStateError;
      }
      if reported != Open {
        return SvPlayStateError;
      }
      if !startOk {
        return SvStartPlayError;
      }
      return SvNoError;
    }

    /** StopPlayout: SV_PLAY_STATE_ERROR when not initialized or the stream
        is not Started; SV_STOP_PLAYER_ERROR when requestStop fails;
        otherwise SV_NO_ERROR. No path changes the render: initialized_
        stays set after a successful stop. */
    method StopPlayout(reported: StreamState, stopOk: bool) returns (r: SvResult)
      requires Valid()
      ensures r == SvPlayStateError <==> !initialized || reported != Started
      ensures r == SvStopPlayerError <==> initialized && reported == Started && !stopOk
      ensures r == SvNoError <==> initialized && reported == Started && stopOk
    {
      if !initialized {
        return SvPlayStateError;
      }
      if reported != Started {
        return SvPlayStateError;
      }
      if !stopOk {
        return SvStopPlayerError;
      }
      return SvNoError;
    }
  }

  /** A full lifecycle: init, start, stop, and init again. The second init
      is accepted without reopening because Oboe's stop leaves the render
      initialized. */
  method StopKeepsInitialized(samples: seq<int16>, sampleRate: int, channels: int) returns (second: SvResult, stillInitialized: bool)
    requires IntConfig(sampleRate, channels)
    ensures second == SvNoError && stillInitialized
  {
    var file := new PcmFile(samples, false);
    var render := new SvOboeRender(file);
    var init := render.InitAudioRender(sampleRate, channels, true);
    var start := render.StartPlayout(Open, true);
    var stop := render.StopPlayout(Started, true);
    assert stop == SvNoError;
    second := render.InitAudioRender(sampleRate, channels, false);
    stillInitialized := render.initialized;
  }

  /** The file holds less than one callback's worth: onAudioReady returns
      Stop with a silent destination and closes the file, and the
      destructor closes it a second time. */
  method ShortFileThenDestroy(samples: seq<int16>, numFrames: nat) returns (result: DataCallbackResult, closes: nat)
    requires 0 < numFrames <= 480 && |samples| < 2 * numFrames
    ensures result == Stop && closes == 2
  {
    var file := new PcmFile(samples, false);
    var render := new SvOboeRender(file);
    var init := render.InitAudioRender(48000, 2, true);
    var out := new int16[2 * numFrames];
    result := render.OnAudioReady(out, numFrames);
    render.Destroy();
    closes := file.closeCount;
  }

  /** The same run with the destructor that checks whether the file is
      still open: the file is closed exactly once. */
  method ShortFileThenDestroyIfOpen(samples: seq<int16>, numFrames: nat) returns (result: DataCallbackResult, closes: nat)
    requires 0 < numFrames <= 480 && |samples| < 2 * numFrames
    ensures result == Stop && closes == 1
  {
    var file := new PcmFile(samples, false);
    var render := new SvOboeRender(file);
    var init := render.InitAudioRender(48000, 2, true);
    var out := new int16[2 * numFrames];
    result := render.OnAudioReady(out, numFrames);
    render.DestroyIfOpen();
    closes := file.closeCount;
  }
}
