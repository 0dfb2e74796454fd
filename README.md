# Sound-Vision audio_render, modelled in Dafny

The repository plays a raw headerless file of 16-bit PCM samples on
Android in one of four ways:

- a native OpenSL ES buffer-queue player, `SVOpenslRender`;
- a native AAudio stream, `SVAAudioRender`;
- a native Oboe stream, `SVOboeRender`;
- the Kotlin `SVAudioTrack`, which drives a platform `AudioTrack` from its own thread.

The native renders are reached through a JNI façade in `native-lib.cpp`.
Every render is driven by init, start and stop calls that return a result
code. Each keeps its state in a few flags and a 10 ms scratch buffer of
`sample_rate / 100 * channels` samples. Audio is pulled from the file one
buffer at a time.

This project models:

- each render's state machine as a Dafny class with those fields;
- the fill path, which silences the destination, freads into the scratch
  buffer and copies only after a full read, as in-place array methods over
  a `PcmFile` class (samples, cursor, open flag, close counter);
- the OpenSL pure tables (`GetSLErrorString`, `CreatePCMConfiguration`);
- the JNI session over its two globals;
- the Kotlin lifecycle, with its render loop proved against a recursive
  specification function.

Each vendor call (OpenSL, AAudio, Oboe, `android.media.AudioTrack`) is a
parameter: an outcome datatype, an Ok/Err flag, or a reported state. The
contracts then state which result code and which state change follow from
each combination.

Modules and files:

- `common.dfy` (`Common`): `SV_RESULT`, `SV_RENDER_TYPE`, the Kotlin
  `ErrorCode`, the 16-bit sample type, and the quantum size.
- `pcm.dfy` (`Pcm`): the fread/fclose file model, plus memset and memcpy.
- `sl_errors.dfy` (`SlErrors`): `GetSLErrorString`.
- `opensl.dfy` (`Opensl`): `SVOpenslRender`.
- `aaudio.dfy` (`AAudio`): `SVAAudioRender`.
- `oboe.dfy` (`Oboe`): `SVOboeRender`.
- `native_lib.dfy` (`NativeLib`): the JNI session.
- `audio_track.dfy` (`AudioTrackRender`): `SVAudioTrack`.

A short read silences the destination completely. The native callbacks
copy nothing after a short read (`sv_aaudio_render.cpp:68-73`,
`sv_oboe_render.cpp:51-55`), so the destination stays all zero, even for
the samples that were read. For example, an 80-sample mono file read by a
160-frame callback yields 160 zero samples (`AAudio.ShortFileThenDestroy`).
The frame count a callback asks for is never checked against the quantum
the buffer holds, so the model makes that bound a precondition.

## Model

| member | source | states |
|---|---|---|
| Common.ResultCode | android/app/src/main/cpp/sv_common.h:15-23 | the seven `SV_RESULT` values are numbered 0..6, and only `SV_NO_ERROR` is 0 |
| Common.QuantumWholeFrames | android/app/src/main/cpp/sv_opensl_render.cpp:31 | the buffer size every render allocates (also `sv_aaudio_render.cpp:114`, `sv_oboe_render.cpp:88`) is a whole number of frames: divisible by the channel count, with `sample_rate / 100` frames of 10 ms |
| Common.ToInt16 | android/app/src/main/cpp/native-lib.cpp:22 | casting a jint to the int16-based `SV_RENDER_TYPE` gives a 16-bit value congruent to it modulo 2^16, and leaves values already in range as they are |
| Common.Ordinal | android/app/src/main/java/com/soundvision/audio_playout/Common.kt:11-16 | `ErrorCode` ordinals are 0..3, and only `NO_ERROR` is 0 |
| Pcm.PcmFile.constructor | android/app/src/main/cpp/sv_opensl_render.cpp:8 | a freshly opened file is open, at position 0, never closed |
| Pcm.PcmFile.Available | android/app/src/main/cpp/sv_opensl_render.cpp:165 | fread delivers at most the requested and the remaining samples: exactly their minimum on a healthy open stream, none after a read error or on a closed stream |
| Pcm.PcmFile.Read | android/app/src/main/cpp/sv_opensl_render.cpp:165 | fread copies the next `Available(count)` samples of the file into the front of the buffer, advances the position by as many, and leaves the rest of the buffer untouched |
| Pcm.PcmFile.Close | android/app/src/main/cpp/sv_opensl_render.cpp:173 | fclose leaves the file closed and adds one to its close count |
| Pcm.ZeroFill | android/app/src/main/cpp/sv_aaudio_render.cpp:64-66 | memset silences exactly the first n samples and nothing after them |
| Pcm.CopyPrefix | android/app/src/main/cpp/sv_aaudio_render.cpp:73 | memcpy makes the first n destination samples equal to the source's and leaves the rest |
| SlErrors.GetSLErrorString | android/app/src/main/cpp/sv_opensl_render.h:12-37 | the lookup is total and its answer is always one of the 17 table strings |
| SlErrors.TableSize | android/app/src/main/cpp/sv_opensl_render.h:13-31 | the table has 17 entries |
| SlErrors.InRangeCodeSelectsEntry | android/app/src/main/cpp/sv_opensl_render.h:36 | a code below 17 yields the table entry at that index |
| SlErrors.OutOfRangeCodeIsUnknown | android/app/src/main/cpp/sv_opensl_render.h:33-35 | every code of 17 or more yields `SL_RESULT_UNKNOWN_ERROR` |
| SlErrors.SuccessCode | android/app/src/main/cpp/sv_opensl_render.h:14 | code 0 yields `SL_RESULT_SUCCESS` |
| SlErrors.InRangeNamesAreDistinct | android/app/src/main/cpp/sv_opensl_render.h:13-31 | two different in-range codes have different names |
| SlErrors.UnknownErrorCodes | android/app/src/main/cpp/sv_opensl_render.h:28-36 | `SL_RESULT_UNKNOWN_ERROR` is produced exactly by code 14 and by every code of 17 or more |
| Opensl.CreatePCMConfiguration | android/app/src/main/cpp/sv_opensl_render.cpp:179-230 | the format is 16-bit little-endian PCM with `numChannels` equal to the channels cast to SLuint32. Exactly the ten switch rates get a rate constant, and it names that same rate. The mask is front-centre iff one channel, left and right iff two, and unset otherwise |
| Opensl.PcmRateRoundTrip | android/app/src/main/cpp/sv_opensl_render.cpp:184-218 | each OpenSL rate constant whose rate the switch lists is chosen for that rate; the 11.025, 12 and 192 kHz constants are the only ones never chosen |
| Opensl.CreateAudioPlayerAsWritten | android/app/src/main/cpp/sv_opensl_render.cpp:232-315 | as written: no output mix fails and changes nothing; a set player object returns success at once whatever the handles hold; otherwise success iff every vendor call succeeds, and any failure after the player object is created leaves that object set |
| Opensl.HalfBuiltPlayerIsReused | android/app/src/main/cpp/sv_opensl_render.cpp:239-241 | as written, a player whose Realize fails keeps its object set. The next call then reports success for every vendor outcome, while the queue and play interfaces are still null |
| Opensl.CreateAudioPlayer | android/app/src/main/cpp/sv_opensl_render.cpp:232-315 | without an output mix it fails and changes nothing; an existing player is reused. Otherwise it succeeds exactly when every vendor call does. Success means a complete player (object, play interface, queue, callback), and with the early return made sound a set player object always means a complete one |
| Opensl.CreateAudioPlayerAgreesWithAsWritten | android/app/src/main/cpp/sv_opensl_render.cpp:232-315 | the corrected function returns the same result code as the code as written. It also returns the same handles whenever it succeeds or no player object was left behind |
| Opensl.SvOpenslRender.constructor | android/app/src/main/cpp/sv_opensl_render.h:57-61 | a new render is neither initialized nor playing, with rate and channels 0 and two OpenSL buffers. Engine object and interface are set as far as CreatePlayerEngine got; there is no mix and no player |
| Opensl.SvOpenslRender.InitAudioRender | android/app/src/main/cpp/sv_opensl_render.cpp:17-51 | re-init is `SV_PLAY_STATE_ERROR` and changes nothing; a missing engine is `SV_PLAY_INIT_ERROR` and changes nothing. Otherwise the buffer becomes one fresh quantum before the mix is tried, and `SV_NO_ERROR` comes exactly when the mix is created and realized; only then are rate, channels and `initialized_` set |
| Opensl.SvOpenslRender.ReadPlayoutData | android/app/src/main/cpp/sv_opensl_render.cpp:162-177 | true iff a full quantum is available: the buffer then holds the next quantum and the position advances by it. Otherwise the file is closed exactly once more and false is returned |
| Opensl.SvOpenslRender.FillBufferQueue | android/app/src/main/cpp/sv_opensl_render.cpp:139-160 | with the state check and a player not PLAYING it returns false and leaves file and log alone. A short read returns false with nothing enqueued. A full read enqueues the buffer as `2 * sample_rate / 100 * channels` bytes, twice its sample count, and returns whether Enqueue succeeded |
| Opensl.SvOpenslRender.StartPlayout | android/app/src/main/cpp/sv_opensl_render.cpp:53-80 | the result is one of four codes, each fixed by an iff. `SV_PLAY_STATE_ERROR`, changing nothing, iff not initialized or already playing. `SV_START_PLAY_ERROR` iff the player cannot be created (file, buffer and log untouched) or SetPlayState(PLAYING) fails after a full enqueue. `SV_FILL_BUFFER_ERROR` iff the player exists but the read is short or Enqueue fails. `SV_NO_ERROR` iff every step succeeds. Once the player exists, a short read leaves the file closed once more and the log unchanged. A full read advances the file by one quantum, leaves it in the buffer and logs its Enqueue, followed by SetPlayState(PLAYING) when Enqueue succeeded. Every failure leaves `playing_` false; on success it equals "GetPlayState reads PLAYING" |
| Opensl.SvOpenslRender.StartCreatedPlayer | android/app/src/main/cpp/sv_opensl_render.cpp:65-79 | the steps after CreateAudioPlayer: `SV_FILL_BUFFER_ERROR` iff the read is short or Enqueue fails, `SV_START_PLAY_ERROR` iff only SetPlayState fails, and otherwise `SV_NO_ERROR`. It states the file, buffer and log on each path, as StartPlayout does |
| Opensl.SvOpenslRender.StopPlayout | android/app/src/main/cpp/sv_opensl_render.cpp:82-107 | `SV_PLAY_STATE_ERROR` iff not initialized or not playing. A failing SetPlayState or Clear is `SV_STOP_PLAYER_ERROR` with flags and handles unchanged. Success unregisters the callback before destroying player and engine, nulls player, player object, engine and engine object, and clears both flags. The buffer-queue interface is left as it was, dangling into the destroyed player |
| Opensl.SimpleBufferQueueCallback | android/app/src/main/cpp/sv_opensl_render.cpp:134-137 | the callback runs FillBufferQueue with the state check: nothing is read unless the player is PLAYING. A short read closes the file with nothing enqueued, and a full read enqueues the next quantum |
| Opensl.StopReleasesEngine | android/app/src/main/cpp/sv_opensl_render.cpp:96-104 | after a successful stop, a second stop is `SV_PLAY_STATE_ERROR` and any re-init is `SV_PLAY_INIT_ERROR`, because the engine is gone |
| Opensl.ShortFileRetryClosesTwice | android/app/src/main/cpp/sv_opensl_render.cpp:65-67 | on a file shorter than one quantum, StartPlayout fails with `SV_FILL_BUFFER_ERROR` and closes the file (line 173). A retry passes the state check, because `initialized_` stays set and `playing_` false, and closes the same file a second time |
| AAudio.SvAAudioRender.constructor | android/app/src/main/cpp/sv_aaudio_render.cpp:7-21 | a new render holds the opened file, is not initialized and has no stream |
| AAudio.SvAAudioRender.Destroy | android/app/src/main/cpp/sv_aaudio_render.cpp:23-34 | as written: the destructor fcloses the file whenever `file_` is set, even when the read path has already closed it |
| AAudio.SvAAudioRender.DestroyIfOpen | android/app/src/main/cpp/sv_aaudio_render.cpp:23-34 | corrected: the destructor closes the file once if it is still open and never closes it again |
| AAudio.SvAAudioRender.ReadPlayoutData | android/app/src/main/cpp/sv_aaudio_render.cpp:36-52 | true iff `num_frames * channels` samples are available, and the buffer then holds them; a short read closes the file exactly once and returns false |
| AAudio.DataCallback | android/app/src/main/cpp/sv_aaudio_render.cpp:54-75 | a null render gives STOP with the destination untouched. Otherwise CONTINUE iff the read is full: the destination then equals the next `channels * num_frames` file samples. On STOP it is entirely silent and the file has been closed once more |
| AAudio.SvAAudioRender.InitAudioRender | android/app/src/main/cpp/sv_aaudio_render.cpp:82-120 | with no re-init guard: an open failure is `SV_PLAY_INIT_ERROR` and changes nothing; success records the stream's format, allocates one fresh quantum and sets `initialized_` |
| AAudio.SvAAudioRender.StartPlayout | android/app/src/main/cpp/sv_aaudio_render.cpp:122-142 | `SV_PLAY_STATE_ERROR` iff not initialized; `SV_START_PLAY_ERROR` iff the stream is not OPEN or requestStart fails; no path changes the render |
| AAudio.SvAAudioRender.StopPlayout | android/app/src/main/cpp/sv_aaudio_render.cpp:144-159 | `SV_PLAY_STATE_ERROR` iff not initialized; a failing requestStop is `SV_STOP_PLAYER_ERROR` with `initialized_` kept; success clears it, so a second stop is a state error |
| AAudio.ShortFileThenDestroy | android/app/src/main/cpp/sv_aaudio_render.cpp:25-28 | a file shorter than one 160-frame mono callback gives STOP with a silent destination, and the file ends up closed twice |
| AAudio.ShortFileThenDestroyIfOpen | android/app/src/main/cpp/sv_aaudio_render.cpp:48 | the same run with the corrected destructor closes the file exactly once |
| Oboe.SvOboeRender.constructor | android/app/src/main/cpp/sv_oboe_render.cpp:7-12 | a new render holds the opened file, is not initialized and has no stream |
| Oboe.SvOboeRender.Destroy | android/app/src/main/cpp/sv_oboe_render.cpp:14-26 | as written: the destructor fcloses the file whenever `file_` is set, even after the read path closed it |
| Oboe.SvOboeRender.DestroyIfOpen | android/app/src/main/cpp/sv_oboe_render.cpp:14-26 | corrected: the destructor closes the file at most once in all |
| Oboe.SvOboeRender.ReadPlayoutData | android/app/src/main/cpp/sv_oboe_render.cpp:28-44 | true iff `num_frames * channels` samples are available, and the buffer then holds them; a short read closes the file once and returns false |
| Oboe.SvOboeRender.OnAudioReady | android/app/src/main/cpp/sv_oboe_render.cpp:46-57 | Continue iff the read is full, with the destination equal to the next `channels * numFrames` file samples; on Stop the destination is all silence and the file was closed once more |
| Oboe.SvOboeRender.OnError | android/app/src/main/cpp/sv_oboe_render.cpp:59-62 | the error callback always reports the stream stopped and closed |
| Oboe.SvOboeRender.InitAudioRender | android/app/src/main/cpp/sv_oboe_render.cpp:64-94 | idempotent: on an initialized render it is `SV_NO_ERROR` with nothing changed. An open failure is `SV_PLAY_INIT_ERROR` with `initialized_` still false; success allocates one fresh quantum and sets `initialized_` |
| Oboe.SvOboeRender.StartPlayout | android/app/src/main/cpp/sv_oboe_render.cpp:96-115 | `SV_PLAY_STATE_ERROR` iff not initialized or the stream is not Open; `SV_START_PLAY_ERROR` iff requestStart fails after that |
| Oboe.SvOboeRender.StopPlayout | android/app/src/main/cpp/sv_oboe_render.cpp:117-135 | `SV_PLAY_STATE_ERROR` iff not initialized or the stream is not Started; `SV_STOP_PLAYER_ERROR` iff requestStop fails after that; no path changes the render |
| Oboe.StopKeepsInitialized | android/app/src/main/cpp/sv_oboe_render.cpp:133-134 | after a successful stop the render is still initialized, so a further init returns `SV_NO_ERROR` without reopening, even if opening would fail |
| Oboe.ShortFileThenDestroy | android/app/src/main/cpp/sv_oboe_render.cpp:15-18 | a file shorter than one stereo callback gives Stop, and the file ends up closed twice |
| Oboe.ShortFileThenDestroyIfOpen | android/app/src/main/cpp/sv_oboe_render.cpp:40 | the same run with the corrected destructor closes the file exactly once |
| NativeLib.JniCode | android/app/src/main/cpp/native-lib.cpp:27-34 | `JNI_OK` is 0 and `JNI_ERR` is -1 |
| NativeLib.NativeSession.constructor | android/app/src/main/cpp/native-lib.cpp:9-10 | the session starts UNDEFINED with no render |
| NativeLib.NativeSession.NativeSetRecordType | android/app/src/main/cpp/native-lib.cpp:12-25 | refused, changing nothing, exactly when a type is set and a render is held. Otherwise the stored type becomes the jint cast to 16 bits; OPENSL builds a fresh, uninitialized render on the file, and any other type leaves no render |
| NativeLib.NativeSession.NativeInitRecording | android/app/src/main/cpp/native-lib.cpp:27-34 | `JNI_OK` without a render; with one, `JNI_OK` exactly when its InitAudioRender returns `SV_NO_ERROR` |
| NativeLib.NativeSession.NativeStartRecording | android/app/src/main/cpp/native-lib.cpp:36-43 | `JNI_OK` without a render; with one, `JNI_OK` exactly when its StartPlayout returns `SV_NO_ERROR` |
| NativeLib.NativeSession.NativeStopRecording | android/app/src/main/cpp/native-lib.cpp:45-54 | `JNI_ERR` exactly when a held render's StopPlayout fails, and then render and type are kept. Otherwise the render is dropped and the type reset to UNDEFINED |
| NativeLib.StopBeforeStartKeepsRender | android/app/src/main/cpp/native-lib.cpp:47-53 | stopping a render that never started is `JNI_ERR`, and the kept render makes the next SetRecordType a no-op |
| NativeLib.TypeWithoutRenderDoesNotBlock | android/app/src/main/cpp/native-lib.cpp:13-22 | a stored type without a render (AAUDIO) does not block: a later OPENSL request is accepted and builds a render |
| NativeLib.FullSession | android/app/src/main/cpp/native-lib.cpp:12-54 | set OPENSL, init, start and stop on a file of at least one quantum: all return `JNI_OK` and the session ends empty and UNDEFINED |
| AudioTrackRender.ChannelCountToConfiguration | android/app/src/main/java/com/soundvision/audio_playout/SVAudioTrack.kt:55-57 | mono iff one channel, stereo for every other count |
| AudioTrackRender.BufferCapacity | android/app/src/main/java/com/soundvision/audio_playout/SVAudioTrack.kt:27-28 | the byteBuffer holds `channels * 16 / 8 * (sampleRate / 100)` bytes, which is exactly two bytes per sample of the native renders' quantum, and fits an Int |
| AudioTrackRender.ReadCount | android/app/src/main/java/com/soundvision/audio_playout/SVAudioTrack.kt:125 | -1 iff the array is non-empty and the asset is exhausted; otherwise at most the array length and what remains, and all of one or the other: 0 exactly for an empty array, and at least one byte whenever any remain |
| AudioTrackRender.InputStream.Read | android/app/src/main/java/com/soundvision/audio_playout/SVAudioTrack.kt:125 | a read fills the front of byteArray with the next asset bytes, advances by as many, and keeps the rest of the array |
| AudioTrackRender.PlayLoop | android/app/src/main/java/com/soundvision/audio_playout/SVAudioTrack.kt:122-145 | the recursive definition of the `while (keepAlive)` loop; it never ends NotPlaying (that exit is only run()'s early return) and leaves the stream between where it started and the end of the asset |
| AudioTrackRender.PlayLoopShape | android/app/src/main/java/com/soundvision/audio_playout/SVAudioTrack.kt:122-145 | every buffer handed to write() is a full `sizeInBytes` chunk, even after a short read; there is at most one per iteration, and the stream only moves forward |
| AudioTrackRender.PlayLoopExit | android/app/src/main/java/com/soundvision/audio_playout/SVAudioTrack.kt:125-143 | the loop ends on a failed write iff the last write was negative, with every earlier write non-negative. It ends by stopping only after every iteration with all writes non-negative, and at end of stream only with the asset consumed |
| AudioTrackRender.PlayLoopStreamsAsset | android/app/src/main/java/com/soundvision/audio_playout/SVAudioTrack.kt:122-145 | with enough asset for every iteration and all writes succeeding, the loop stops normally and the track receives exactly the asset's next bytes in order |
| AudioTrackRender.AudioTrackThread.constructor | android/app/src/main/java/com/soundvision/audio_playout/SVAudioTrack.kt:100-107 | a new thread is alive with the asset opened at its start |
| AudioTrackRender.AudioTrackThread.Start | android/app/src/main/java/com/soundvision/audio_playout/SVAudioTrack.kt:75 | starting the thread marks it started; its run() is then a separate step |
| AudioTrackRender.AudioTrackThread.StopThread | android/app/src/main/java/com/soundvision/audio_playout/SVAudioTrack.kt:157-160 | stopThread clears keepAlive |
| AudioTrackRender.AudioTrackThread.Run | android/app/src/main/java/com/soundvision/audio_playout/SVAudioTrack.kt:109-155 | a missing or non-playing track returns at once and changes nothing. Otherwise the track receives exactly the buffers PlayLoop gives from a zeroed array of the buffer's capacity, and the stream ends where PlayLoop does. Only the keepAlive exit stops the track |
| AudioTrackRender.AudioTrackThread.RenderLoop | android/app/src/main/java/com/soundvision/audio_playout/SVAudioTrack.kt:122-145 | the while loop is proved equal to PlayLoop: same buffers written, same exit, same stream position |
| AudioTrackRender.AudioTrackThread.LoopBody | android/app/src/main/java/com/soundvision/audio_playout/SVAudioTrack.kt:124-143 | one iteration is the first step of PlayLoop. A -1 read clears keepAlive and ends EndOfStream with nothing written. Otherwise the whole array is written; a negative write clears keepAlive and ends WriteFailed, and a successful one leaves keepAlive set, with the rest of the run being PlayLoop from the new stream position and array |
| AudioTrackRender.SvAudioTrack.constructor | android/app/src/main/java/com/soundvision/audio_playout/SVAudioTrack.kt:15-17 | buffer, track and thread all start null |
| AudioTrackRender.SvAudioTrack.InitPlayout | android/app/src/main/java/com/soundvision/audio_playout/SVAudioTrack.kt:25-53 | the byteBuffer is always resized first. `INIT_ERROR` iff the minimum buffer size is below its capacity or a track exists, with the track unchanged. Otherwise a fresh stopped track with the requested rate, the channel mask and the minimum size |
| AudioTrackRender.SvAudioTrack.StartPlayout | android/app/src/main/java/com/soundvision/audio_playout/SVAudioTrack.kt:59-77 | `START_ERROR` iff there is no track, a thread exists, or play() throws, and then no thread is created; success leaves the track playing with a fresh started thread on the asset |
| AudioTrackRender.SvAudioTrack.StopPlayout | android/app/src/main/java/com/soundvision/audio_playout/SVAudioTrack.kt:79-89 | `STOP_ERROR`, changing nothing, iff there is no thread. Otherwise the thread is told to stop, the track released, and both dropped |
| AudioTrackRender.SvAudioTrack.ReleaseAudioRelease | android/app/src/main/java/com/soundvision/audio_playout/SVAudioTrack.kt:91-95 | any track is released and dropped |
| AudioTrackRender.PlayWholeAsset | android/app/src/main/java/com/soundvision/audio_playout/SVAudioTrack.kt:109-155 | init, start and one run over an asset of whole 10 ms chunks with successful writes: the track receives the asset exactly, then stop succeeds and a second stop is `STOP_ERROR` |
| AudioTrackRender.ReinitResizesBuffer | android/app/src/main/java/com/soundvision/audio_playout/SVAudioTrack.kt:27-42 | a second initPlayout fails because the track exists, but it has already resized the byteBuffer to the new channel count |
| AudioTrackRender.InitAfterStop | android/app/src/main/java/com/soundvision/audio_playout/SVAudioTrack.kt:79-95 | after a successful stop, initPlayout passes the track-exists check and a new start succeeds |

## Left out

- Vendor internals: the OpenSL ES objects and interfaces, the AAudio and Oboe builders and streams, and `android.media.AudioTrack`. Each call is an outcome parameter, and a stream's format is taken to be the one requested.
- JNI registration, `JNI_OnLoad` and the jstring conversion in `native-lib.cpp` are foreign glue. The file that `fopen` opens is passed in as its contents.
- Threading: callbacks, the AudioTrack thread and `keepAlive` set from another thread are all sequential calls. `AudioTrackThread.Run` takes the number of iterations that run before `keepAlive` is seen false as the length of its `writes` parameter. The race between `stopPlayout` releasing the track and the thread still writing to it is not modelled, nor is `Process.setThreadPriority`.
- `AudioTrackThread.Run`: the byte copy through the direct `ByteBuffer` (`put`, `rewind`) is taken to hand write() exactly the byteArray. What AudioTrack plays of a partial write, and how long a blocking write takes, are not modelled. A write's result is passed in.
- `AudioTrackRender.InputStream.Read`: the asset stream returns as many bytes as fit and remain. A stream that legally returns fewer is not modelled.
- `SVAAudioRender::ErrorCallback` only logs, so it has no model.
- `SVNativeAudioRender.kt` copies the asset to a file and forwards the calls to native code. It always requests render type 2 (AAUDIO, line 48), which `native-lib.cpp` never constructs, so its session holds no render.
- The `assert`s after fopen and after createStreamBuilder are not modelled, so the file is always open at construction. `assert`s are compiled out of release builds.
- fread on a closed `FILE*` is undefined behaviour in C. It is modelled as reading nothing, so a later fclose still counts.
- `AAudio.SvAAudioRender.ReadPlayoutData`, `Oboe.SvOboeRender.ReadPlayoutData`, `AAudio.DataCallback`, `Oboe.SvOboeRender.OnAudioReady`: the precondition `num_frames * channels <= sample_rate / 100 * channels` is the caller's obligation. Nothing in the code checks it, and the fread writes past the buffer when it fails. A negative `num_frames` is excluded by the type.
- `Opensl.SvOpenslRender.InitAudioRender`, `AAudio.SvAAudioRender.InitAudioRender`, `Oboe.SvOboeRender.InitAudioRender`, `NativeLib.NativeSession.NativeInitRecording`: negative rates or channel counts, and configurations whose `sample_rate / 100 * channels` overflows an int, are excluded by precondition. `Opensl.SvOpenslRender.InitAudioRender` and `NativeLib.NativeSession.NativeInitRecording` also exclude configurations whose enqueue byte count `sample_rate_ / 100 * channels_ * 2` (`sv_opensl_render.cpp:153`) overflows an int, which is undefined behaviour in C; the render's invariant keeps that bound, so `FillBufferQueue` enqueues exactly twice the quantum.
- `AudioTrackRender.SvAudioTrack.InitPlayout`: configurations whose Int arithmetic overflows, or that give `allocateDirect` a negative capacity, are excluded. So are those where the AudioTrack constructor throws.
- Opensl.ShortFileRetryClosesTwice: a StartPlayout retried after `SV_FILL_BUFFER_ERROR` reads from the already closed file and closes it again. The model keeps this as the code does it, with no corrected variant, because the code suggests no single fix: guarding the read, resetting `initialized_` and refusing the retry are all plausible.
- `Opensl.SvOpenslRender.StartPlayout` and the other OpenSL members use the corrected `CreateAudioPlayer` (see Findings). The half-built player that the code as written can leave behind is exhibited only by `Opensl.HalfBuiltPlayerIsReused`.
- Memory ownership (`unique_ptr`, `shared_ptr`) is not modelled. The OpenSL destructor only logs; it neither closes the file nor destroys anything. The Oboe and AAudio destructors' stream close, including Oboe's `stream_->close()` on a render that never opened a stream, is not modelled. Only their file close is.
- `SVAAudioRender`'s header declares a `playing_` field that the code never uses. The model takes its fields from the `.cpp`.
- The platform `AudioTrack` (`Track`: play, write, stop, release) is a record of what it was given; its audio output, and `getMinBufferSize`, are not modelled, and the minimum buffer size is a parameter of `InitPlayout`.

## Findings

| source | as written | input that shows it | evidently intended | confidence | as-written member | corrected member |
|---|---|---|---|---|---|---|
| android/app/src/main/cpp/sv_aaudio_render.cpp:25-28 | `ReadPlayoutData` fcloses `file_` on a short read without nulling it (line 48), and the destructor fcloses the same `FILE*` again | a mono 16 kHz render on a file of fewer than 160 samples: the first 160-frame callback reads short and closes the file, and destroying the render closes it a second time | the file is closed exactly once | not executed | AAudio.ShortFileThenDestroy | AAudio.ShortFileThenDestroyIfOpen |
| android/app/src/main/cpp/sv_oboe_render.cpp:15-18 | `ReadPlayoutData` fcloses `file_` without nulling it (line 40), and the destructor closes it again | a stereo 48 kHz render on a file shorter than one `onAudioReady` request, then destruction | the file is closed exactly once | not executed | Oboe.ShortFileThenDestroy | Oboe.ShortFileThenDestroyIfOpen |
| android/app/src/main/cpp/sv_opensl_render.cpp:239-241 | `CreateAudioPlayer` returns success early whenever `sl_player_object_` is set, but a failure after the player object is created (Realize, GetInterface, RegisterCallback) returns with it still set | a StartPlayout whose player Realize fails, then a second StartPlayout: `CreateAudioPlayer` reports success and FillBufferQueue enqueues through a null `simple_buffer_queue_` | a set player object means a fully built player: undo the partial player on failure | not executed | Opensl.HalfBuiltPlayerIsReused | Opensl.CreateAudioPlayer |
