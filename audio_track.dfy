/** SVAudioTrack: the Kotlin render that plays the PCM asset through a
    platform AudioTrack in MODE_STREAM, fed by a thread that reads 10 ms of
    bytes at a time and writes them with WRITE_BLOCKING. The platform
    AudioTrack and the asset stream are small classes here; what the
    platform decides (getMinBufferSize, whether play() throws, what each
    write() returns) is passed in by the caller. */
module AudioTrackRender {
  import opened Common

  /** A Kotlin Byte. */
  newtype Byte = x: int | -0x80 <= x < 0x80

  const BitsPerSample: int := 16
  const BuffersPerSecond: int := 100

  /** AudioTrack.PLAYSTATE_*. */
  datatype PlayState = PlayStopped | PlayPaused | PlayPlaying

  /** AudioFormat.CHANNEL_OUT_MONO and CHANNEL_OUT_STEREO. */
  datatype ChannelConfig = ChannelOutMono | ChannelOutStereo

  /** channelCountToConfiguration: mono for one channel, stereo for every
      other count. */
  function ChannelCountToConfiguration(channels: int): (c: ChannelConfig)
    ensures c == ChannelOutMono <==> channels == 1
    ensures c == ChannelOutStereo <==> channels != 1
  {
    if channels == 1 then ChannelOutMono else ChannelOutStereo
  }

  /** A configuration for which initPlayout's Int arithmetic neither
      overflows nor hands allocateDirect a negative capacity. */
  predicate TrackConfig(sampleRate: int, channels: int)
  {
    && 0 <= sampleRate <= IntMax && 0 <= channels
    && channels * BitsPerSample <= IntMax
    && channels * BitsPerSample / 8 * (sampleRate / BuffersPerSecond) <= IntMax
  }

  /** The capacity initPlayout gives the direct ByteBuffer: bytes per frame
      times frames per 10 ms. It is exactly one quantum of the native
      renders in bytes, two per 16-bit sample. */
  function BufferCapacity(sampleRate: int, channels: int): (c: nat)
    requires TrackConfig(sampleRate, channels)
    ensures c == 2 * Quantum(sampleRate, channels)
    ensures c <= IntMax
  {
    var bytesPerFrame := channels * BitsPerSample / 8;
    assert bytesPerFrame == 2 * channels;
    bytesPerFrame * (sampleRate / BuffersPerSecond)
  }

  // ---------------------------------------------------------------------
  // The asset stream and the platform track.

  /** InputStream.read(b) on the asset: 0 for an empty array, -1 at the end
      of the stream, otherwise as many bytes as fit and remain. */
  function ReadCount(data: seq<Byte>, pos: nat, size: nat): (n: int)
    requires pos <= |data|
    ensures n == -1 <==> size > 0 && pos >= |data|
    ensures n >= 0 ==> n <= size && pos + n <= |data|
    ensures n == 0 <==> size == 0
    ensures n > 0 ==> n == size || pos + n == |data|
    ensures n >= -1
  {
    if size == 0 then 0 else if pos >= |data| then -1 else Min(size, |data| - pos)
  }

  /** The asset opened as "haidao.pcm". */
  class InputStream {
    const data: seq<Byte>
    var pos: nat

    ghost predicate Valid()
      reads this
    {
      pos <= |data|
    }

    constructor (data: seq<Byte>)
      ensures Valid() && this.data == data && pos == 0
    {
      this.data := data;
      pos := 0;
    }

    /** read(b): fills the front of b with the next ReadCount bytes of the
        asset and leaves the rest of b as it was. */
    method Read(b: array<Byte>) returns (n: int)
      requires Valid()
      modifies this`pos, b
      ensures Valid()
      ensures n == ReadCount(data, old(pos), b.Length)
      ensures n < 0 ==> pos == old(pos) && b[..] == old(b[..])
      ensures n >= 0 ==> pos == old(pos) + n && b[..] == data[old(pos)..pos] + old(b[..])[n..]
    {
      n := ReadCount(data, pos, b.Length);
      if n < 0 {
        return;
      }
      var i := 0;
      while i < n
        invariant 0 <= i <= n && pos == old(pos)
        invariant b[..i] == data[pos..pos + i]
        invariant b[i..] == old(b[..])[i..]
      {
        b[i] := data[pos + i];
        i := i + 1;
      }
      assert b[..] == b[..n] + b[n..];
      pos := pos + n;
    }
  }

  /** android.media.AudioTrack, as far as SVAudioTrack uses it. */
  class Track {
    const sampleRate: int
    const channelMask: ChannelConfig
    const bufferSizeInBytes: int
    var playState: PlayState
    var released: bool
    /** Every buffer handed to write(), in order. */
    var written: seq<seq<Byte>>

    constructor (sampleRate: int, channelMask: ChannelConfig, bufferSizeInBytes: int)
      ensures this.sampleRate == sampleRate && this.channelMask == channelMask
      ensures this.bufferSizeInBytes == bufferSizeInBytes
      ensures playState == PlayStopped && !released && written == []
    {
      this.sampleRate := sampleRate;
      this.channelMask := channelMask;
      this.bufferSizeInBytes := bufferSizeInBytes;
      playState := PlayStopped;
      released := false;
      written := [];
    }

    method Play()
      modifies this`playState
      ensures playState == PlayPlaying
    {
      playState := PlayPlaying;
    }

    /** write(buffer, size, WRITE_BLOCKING), returning what the platform
        reports. */
    method Write(data: seq<Byte>, result: int) returns (len: int)
      modifies this`written
      ensures written == old(written) + [data] && len == result
    {
      written := written + [data];
      len := result;
    }

    method Stop()
      modifies this`playState
      ensures playState == PlayStopped
    {
      playState := PlayStopped;
    }

    method Release()
      modifies this`released
      ensures released
    {
      released := true;
    }
  }

  // ---------------------------------------------------------------------
  // The render loop of AudioTrackThread.run.

  /** How run() ends: the track was not playing when it began, the asset
      ran out (read returned -1), a write failed, or keepAlive was seen
      false and the track was stopped. */
  datatype Exit = NotPlaying | EndOfStream | WriteFailed | Stopped

  /** The loop's effect: the buffers handed to write(), how it ended, and
      the stream position it left. */
  datatype LoopRun = LoopRun(submitted: seq<seq<Byte>>, exit: Exit, position: nat)

  /** The while (keepAlive) loop, from stream position pos with byteArray
      holding buf. writes[i] is what the i-th write() returns, and |writes|
      is the number of iterations that start before keepAlive is seen
      false. Each iteration reads into the array; -1 ends the loop; any
      other count, short or not, hands the whole array (the bytes just read
      followed by whatever the earlier reads left) to write(); a negative
      write ends the loop. */
  function PlayLoop(data: seq<Byte>, pos: nat, buf: seq<Byte>, writes: seq<int>): (r: LoopRun)
    requires pos <= |data|
    ensures r.exit != NotPlaying
    ensures pos <= r.position <= |data|
    decreases |writes|
  {
    if |writes| == 0 then LoopRun([], Stopped, pos)
    else
      var n := ReadCount(data, pos, |buf|);
      if n < 0 then LoopRun([], EndOfStream, pos)
      else
        var next := data[pos..pos + n] + buf[n..];
        if writes[0] < 0 then LoopRun([next], WriteFailed, pos + n)
        else
          var rest := PlayLoop(data, pos + n, next, writes[1..]);
          LoopRun([next] + rest.submitted, rest.exit, rest.position)
  }

  /** Every buffer handed to write() is one full byteArray, there is at most
      one per iteration, the loop never ends NotPlaying, and the stream
      only moves forward. */
  lemma {:induction false} PlayLoopShape(data: seq<Byte>, pos: nat, buf: seq<Byte>, writes: seq<int>)
    requires pos <= |data|
    ensures var r := PlayLoop(data, pos, buf, writes);
      && |r.submitted| <= |writes|
      && (forall k :: 0 <= k < |r.submitted| ==> |r.submitted[k]| == |buf|)
      && r.exit != NotPlaying
      && pos <= r.position <= |data|
    decreases |writes|
  {
    if |writes| > 0 {
      var n := ReadCount(data, pos, |buf|);
      if n >= 0 && writes[0] >= 0 {
        var next := data[pos..pos + n] + buf[n..];
        PlayLoopShape(data, pos + n, next, writes[1..]);
      }
    }
  }

  /** How the loop ends. It ends WriteFailed exactly when the last write
      it made returned a negative length, and every earlier write
      succeeded; it ends Stopped only after all |writes| iterations, every
      write having succeeded; it ends EndOfStream only with a non-empty
      array and the whole asset consumed. */
  lemma {:induction false} PlayLoopExit(data: seq<Byte>, pos: nat, buf: seq<Byte>, writes: seq<int>)
    requires pos <= |data|
    ensures var r := PlayLoop(data, pos, buf, writes);
      && |r.submitted| <= |writes|
      && (r.exit == WriteFailed <==> |r.submitted| > 0 && writes[|r.submitted| - 1] < 0)
      && (forall k :: 0 <= k < |r.submitted| - 1 ==> writes[k] >= 0)
      && (r.exit == Stopped ==> |r.submitted| == |writes| && forall k :: 0 <= k < |writes| ==> writes[k] >= 0)
      && (r.exit == EndOfStream ==> |buf| > 0 && r.position == |data|)
    decreases |writes|
  {
    if |writes| > 0 {
      var n := ReadCount(data, pos, |buf|);
      if n >= 0 && writes[0] >= 0 {
        var next := data[pos..pos + n] + buf[n..];
        PlayLoopExit(data, pos + n, next, writes[1..]);
        var rest := PlayLoop(data, pos + n, next, writes[1..]);
        assert forall k :: 1 <= k <= |rest.submitted| ==> writes[k] == writes[1..][k - 1];
      }
    }
  }

  /** Concatenation of the buffers handed to write(). */
  function Flatten(chunks: seq<seq<Byte>>): (bytes: seq<Byte>)
  {
    if |chunks| == 0 then [] else chunks[0] + Flatten(chunks[1..])
  }

  /** Flatten of a buffer followed by more buffers. */
  lemma FlattenCons(x: seq<Byte>, rest: seq<seq<Byte>>)
    ensures Flatten([x] + rest) == x + Flatten(rest)
  {
    assert ([x] + rest)[1..] == rest;
  }

  /** A slice is the concatenation of its two halves around any midpoint. */
  lemma SliceSplit<T>(s: seq<T>, a: nat, b: nat, c: nat)
    requires a <= b <= c <= |s|
    ensures s[a..c] == s[a..b] + s[b..c]
  {
  }

  /** The bytes taken by k chunks of size bytes, counted chunk by chunk. */
  function Span(k: nat, size: nat): nat
  {
    if k == 0 then 0 else size + Span(k - 1, size)
  }

  /** Counting chunk by chunk agrees with the product. */
  lemma {:induction false} SpanIsProduct(k: nat, size: nat)
    ensures Span(k, size) == k * size
  {
    if k > 0 {
      SpanIsProduct(k - 1, size);
      assert k * size == size + (k - 1) * size;
    }
  }

  /** With enough of the asset left for every iteration and every write
      succeeding, the loop ends Stopped and the track receives exactly the
      asset's next |writes| * |buf| bytes, in order. */
  lemma PlayLoopStreamsAsset(data: seq<Byte>, pos: nat, buf: seq<Byte>, writes: seq<int>)
    requires pos + |writes| * |buf| <= |data|
    requires forall k :: 0 <= k < |writes| ==> writes[k] >= 0
    ensures var r := PlayLoop(data, pos, buf, writes);
      && r.exit == Stopped
      && r.position == pos + |writes| * |buf|
      && Flatten(r.submitted) == data[pos..pos + |writes| * |buf|]
  {
    SpanIsProduct(|writes|, |buf|);
    PlayLoopStreamsSpan(data, pos, buf, writes);
  }

  /** PlayLoopStreamsAsset with the byte count kept linear, by induction on
      the iterations. */
  lemma {:induction false} PlayLoopStreamsSpan(data: seq<Byte>, pos: nat, buf: seq<Byte>, writes: seq<int>)
    requires pos + Span(|writes|, |buf|) <= |data|
    requires forall k :: 0 <= k < |writes| ==> writes[k] >= 0
    ensures var r := PlayLoop(data, pos, buf, writes);
      && r.exit == Stopped
      && r.position == pos + Span(|writes|, |buf|)
      && Flatten(r.submitted) == data[pos..pos + Span(|writes|, |buf|)]
    decreases |writes|
  {
    if |writes| > 0 {
      var next := data[pos..pos + |buf|];
      var tail := writes[1..];
      assert |tail| == |writes| - 1 && |next| == |buf|;
      PlayLoopStreamsSpan(data, pos + |buf|, next, tail);
      PlayLoopStreamsStep(data, pos, buf, writes, PlayLoop(data, pos + |buf|, next, tail), Span(|tail|, |next|));
    }
  }

  /** One step of that induction: if the iterations after a full first
      read stream the next m bytes, the whole loop streams |buf| + m. */
  lemma PlayLoopStreamsStep(data: seq<Byte>, pos: nat, buf: seq<Byte>, writes: seq<int>, rest: LoopRun, m: nat)
    requires pos + |buf| + m <= |data| && |writes| > 0 && writes[0] >= 0
    requires rest == PlayLoop(data, pos + |buf|, data[pos..pos + |buf|], writes[1..])
    requires rest.exit == Stopped
      && rest.position == pos + |buf| + m
      && Flatten(rest.submitted) == data[pos + |buf|..pos + |buf| + m]
    ensures var r := PlayLoop(data, pos, buf, writes);
      && r.exit == Stopped
      && r.position == pos + |buf| + m
      && Flatten(r.submitted) == data[pos..pos + |buf| + m]
  {
    var next := data[pos..pos + |buf|];
    PlayLoopFullRead(data, pos, buf, writes);
    FlattenCons(next, rest.submitted);
    SliceSplit(data, pos, pos + |buf|, pos + |buf| + m);
  }

  /** One iteration with a full read and a successful write: the whole array
      is refilled from the asset and handed to write(). */
  lemma PlayLoopFullRead(data: seq<Byte>, pos: nat, buf: seq<Byte>, writes: seq<int>)
    requires pos + |buf| <= |data| && |writes| > 0 && writes[0] >= 0
    ensures var next := data[pos..pos + |buf|];
      var rest := PlayLoop(data, pos + |buf|, next, writes[1..]);
      PlayLoop(data, pos, buf, writes) == LoopRun([next] + rest.submitted, rest.exit, rest.position)
  {
    var n := ReadCount(data, pos, |buf|);
    assert n == |buf|;
    assert data[pos..pos + n] + buf[n..] == data[pos..pos + |buf|];
  }

  /** AudioTrackThread: keepAlive and the asset stream opened in its init. */
  class AudioTrackThread {
    var keepAlive: bool
    var started: bool
    const inputStream: InputStream

    constructor (asset: seq<Byte>)
      ensures keepAlive && !started
      ensures fresh(inputStream) && inputStream.Valid() && inputStream.data == asset && inputStream.pos == 0
    {
      keepAlive := true;
      started := false;
      inputStream := new InputStream(asset);
    }

    /** Thread.start(): run() then executes on its own thread. */
    method Start()
      modifies this`started
      ensures started
    {
      started := true;
    }

    /** stopThread: the loop ends once it next tests keepAlive. */
    method StopThread()
      modifies this`keepAlive
      ensures !keepAlive
    {
      keepAlive := false;
    }

    /** run(), given the track and the byteBuffer capacity it reads from the
        outer object. Nothing happens unless the track exists and is
        playing. Otherwise run() allocates a zeroed byteArray of the
        buffer's capacity and runs the loop: the track receives exactly
        PlayLoop's buffers, the stream ends at PlayLoop's position, and only
        the keepAlive exit calls stop(). A loop that does not start
        (keepAlive already false) is one with no writes. */
    method Run(track: Track?, capacity: Option<nat>, writes: seq<int>) returns (exit: Exit)
      requires inputStream.Valid()
      requires track != null && track.playState == PlayPlaying ==> capacity.Some?
      requires !keepAlive ==> |writes| == 0
      modifies this`keepAlive, inputStream, track
      ensures inputStream.Valid()
      ensures track == null || old(track.playState) != PlayPlaying ==>
                exit == NotPlaying && unchanged(inputStream) && keepAlive == old(keepAlive)
                && (track != null ==> unchanged(track))
      ensures track != null && old(track.playState) == PlayPlaying ==>
                var r := PlayLoop(inputStream.data, old(inputStream.pos), Silence(capacity.value), writes);
                && exit == r.exit
                && track.written == old(track.written) + r.submitted
                && inputStream.pos == r.position
                && track.playState == (if r.exit == Stopped then PlayStopped else PlayPlaying)
                && (r.exit != Stopped ==> !keepAlive)
                && track.released == old(track.released)
    {
      if track == null || track.playState != PlayPlaying {
        return NotPlaying;
      }
      var sizeInBytes := capacity.value;
      var byteArray := new Byte[sizeInBytes](_ => 0);
      assert byteArray[..] == Silence(sizeInBytes);
      exit := RenderLoop(track, byteArray, writes, PlayLoop(inputStream.data, inputStream.pos, byteArray[..], writes));
    }

    /** The while (keepAlive) loop of run() on a playing track, proved
        against PlayLoop. */
    method RenderLoop(track: Track, byteArray: array<Byte>, writes: seq<int>, ghost whole: LoopRun) returns (exit: Exit)
      requires inputStream.Valid() && track.playState == PlayPlaying
      requires whole == PlayLoop(inputStream.data, inputStream.pos, byteArray[..], writes)
      modifies this`keepAlive, inputStream, track, byteArray
      ensures inputStream.Valid()
      ensures exit == whole.exit
      ensures track.written == old(track.written) + whole.submitted
      ensures inputStream.pos == whole.position
      ensures track.playState == (if whole.exit == Stopped then PlayStopped else PlayPlaying)
      ensures whole.exit != Stopped ==> !keepAlive
      ensures track.released == old(track.released)
    {
      ghost var data := inputStream.data;
      ghost var before := track.written;
      ghost var rest := whole;
      ghost var done: seq<seq<Byte>> := [];
      var i := 0;
      while i < |writes|
        invariant 0 <= i <= |writes|
        invariant inputStream.Valid() && inputStream.data == data
        invariant track.playState == PlayPlaying && track.released == old(track.released)
        invariant track.written == before + done
        invariant rest == PlayLoop(data, inputStream.pos, byteArray[..], writes[i..])
        invariant whole.submitted == done + rest.submitted
        invariant whole.exit == rest.exit && whole.position == rest.position
      {
        assert writes[i..][1..] == writes[i + 1..];
        ghost var x;
        ghost var next;
        var stop;
        stop, x, next := LoopBody(track, byteArray, writes[i..], rest);
        if stop.Some? {
          AppendAssoc(before, done, rest.submitted);
          return stop.value;
        }
        AppendAssoc(done, [x], next.submitted);
        AppendAssoc(before, done, [x]);
        done := done + [x];
        rest := next;
        i := i + 1;
      }
      assert writes[i..] == [];
      assert rest == LoopRun([], Stopped, inputStream.pos);
      track.Stop();
      return Stopped;
    }

    /** One pass of the loop body, whose write() returns writes[0], from
        a state whose PlayLoop over writes is run: read into byteArray; at
        the end of the stream clear keepAlive and leave the loop; otherwise
        hand the whole array x to write(), and leave the loop the same way
        if that returns a negative length. When the pass leaves the loop
        (Some) the track has received all of run's buffers and the stream
        is where run ends; when it goes on (None) the track has received x,
        run's first buffer, and run continues as next, the PlayLoop over
        writes[1..] from the new state. */
    method LoopBody(track: Track, byteArray: array<Byte>, writes: seq<int>, ghost run: LoopRun)
      returns (stop: Option<Exit>, ghost x: seq<Byte>, ghost next: LoopRun)
      requires inputStream.Valid() && |writes| > 0
      requires run == PlayLoop(inputStream.data, inputStream.pos, byteArray[..], writes)
      modifies this`keepAlive, inputStream, track`written, byteArray
      ensures inputStream.Valid()
      ensures stop.Some? ==>
                && stop.value == run.exit && run.exit != Stopped && !keepAlive
                && inputStream.pos == run.position
                && track.written == old(track.written) + run.submitted
      ensures stop.None? ==>
                && x == byteArray[..]
                && next == PlayLoop(inputStream.data, inputStream.pos, x, writes[1..])
                && run == LoopRun([x] + next.submitted, next.exit, next.position)
                && track.written == old(track.written) + [x]
                && keepAlive == old(keepAlive)
    {
      PlayLoopStep(inputStream.data, inputStream.pos, byteArray[..], writes);
      var readLen := inputStream.Read(byteArray);
      if readLen < byteArray.Length {
        if readLen < 0 {
          keepAlive := false;
          return Some(EndOfStream), [], run;
        }
      }
      x := byteArray[..];
      var len := track.Write(byteArray[..], writes[0]);
      if len < 0 {
        keepAlive := false;
        return Some(WriteFailed), x, run;
      }
      next := PlayLoop(inputStream.data, inputStream.pos, x, writes[1..]);
      return None, x, next;
    }
  }

  lemma AppendAssoc<T>(a: seq<T>, b: seq<T>, c: seq<T>)
    ensures (a + b) + c == a + (b + c)
  {
  }

  /** One unfolding of PlayLoop: the buffer of the first iteration is the
      bytes read followed by the rest of the previous array. */
  lemma PlayLoopStep(data: seq<Byte>, pos: nat, buf: seq<Byte>, writes: seq<int>)
    requires pos <= |data| && |writes| > 0
    ensures var n := ReadCount(data, pos, |buf|);
      var r := PlayLoop(data, pos, buf, writes);
      && (n < 0 ==> r == LoopRun([], EndOfStream, pos))
      && (n >= 0 && writes[0] < 0 ==> r == LoopRun([data[pos..pos + n] + buf[n..]], WriteFailed, pos + n))
      && (n >= 0 && writes[0] >= 0 ==>
            var rest := PlayLoop(data, pos + n, data[pos..pos + n] + buf[n..], writes[1..]);
            r == LoopRun([data[pos..pos + n] + buf[n..]] + rest.submitted, rest.exit, rest.position))
  {
  }

  /** The zeroed ByteArray(sizeInBytes) that run() starts from. */
  function Silence(size: nat): (s: seq<Byte>)
    ensures |s| == size && forall k :: 0 <= k < size ==> s[k] == 0
  {
    seq(size, _ => 0 as Byte)
  }

  // ---------------------------------------------------------------------
  // The render object.

  /** SVAudioTrack: the direct ByteBuffer (only its capacity matters here),
      the platform track and the render thread, each null until created. */
  class SvAudioTrack {
    var byteBuffer: Option<nat>
    var audioTrack: Track?
    var audioThread: AudioTrackThread?

    /** A thread only exists alongside its track, and a track only after
        initPlayout has sized the byteBuffer that run() reads. */
    ghost predicate Valid()
      reads this
    {
      && (audioTrack != null ==> byteBuffer.Some?)
      && (audioThread != null ==> audioTrack != null)
    }

    /** The lazily created singleton: every field null. */
    constructor ()
      ensures Valid() && byteBuffer == None && audioTrack == null && audioThread == null
    {
      byteBuffer := None;
      audioTrack := null;
      audioThread := null;
    }

    /** initPlayout(sampleRate, channels, streamType). The byteBuffer is
        reallocated first, whatever happens next. A minimum buffer size
        (minBufferSizeInBytes, from getMinBufferSize) below its capacity is
        INIT_ERROR, and so is an existing track, which stays as it was;
        otherwise a new stopped track with the requested rate, the channel
        mask of channelCountToConfiguration and the minimum buffer size is
        created and NO_ERROR returned. */
    method InitPlayout(sampleRate: int, channels: int, minBufferSizeInBytes: int) returns (r: ErrorCode)
      requires Valid() && TrackConfig(sampleRate, channels)
      modifies this
      ensures Valid()
      ensures byteBuffer == Some(BufferCapacity(sampleRate, channels))
      ensures r == InitError <==> minBufferSizeInBytes < BufferCapacity(sampleRate, channels) || old(audioTrack) != null
      ensures r == NoError <==> !(r == InitError)
      ensures r == InitError ==> audioTrack == old(audioTrack)
      ensures r == NoError ==>
                && audioTrack != null && fresh(audioTrack)
                && audioTrack.sampleRate == sampleRate
                && audioTrack.channelMask == ChannelCountToConfiguration(channels)
                && audioTrack.bufferSizeInBytes == minBufferSizeInBytes
                && audioTrack.playState == PlayStopped && audioTrack.written == []
      ensures audioThread == old(audioThread)
    {
      var capacity := BufferCapacity(sampleRate, channels);
      byteBuffer := Some(capacity);
      var channelConfig := ChannelCountToConfiguration(channels);
      if minBufferSizeInBytes < capacity {
        return InitError;
      }
      if audioTrack != null {
        return InitError;
      }
      audioTrack := new Track(sampleRate, channelConfig, minBufferSizeInBytes);
      return NoError;
    }

    /** startPlayout. START_ERROR without a track or with a thread already
        running, changing nothing; START_ERROR, again changing nothing,
        when play() throws. Otherwise the track is playing and a fresh
        thread on the asset is started. */
    method StartPlayout(playThrows: bool, asset: seq<Byte>) returns (r: ErrorCode)
      requires Valid()
      modifies this, audioTrack
      ensures Valid() && audioTrack == old(audioTrack)
      ensures r == StartError <==> old(audioTrack) == null || old(audioThread) != null || playThrows
      ensures r == NoError <==> !(r == StartError)
      ensures r == StartError ==> audioThread == old(audioThread) && (audioTrack != null ==> unchanged(audioTrack))
      ensures r == NoError ==>
                && audioThread != null && fresh(audioThread) && fresh(audioThread.inputStream)
                && audioThread.started && audioThread.keepAlive
                && audioThread.inputStream.Valid() && audioThread.inputStream.data == asset
                && audioThread.inputStream.pos == 0
                && audioTrack.playState == PlayPlaying
                && audioTrack.written == old(audioTrack.written) && audioTrack.released == old(audioTrack.released)
      ensures byteBuffer == old(byteBuffer)
    {
      if audioTrack == null || audioThread != null {
        return StartError;
      }
      if playThrows {
        return StartError;
      }
      audioTrack.Play();
      var thread := new AudioTrackThread(asset);
      thread.Start();
      audioThread := thread;
      return NoError;
    }

    /** stopPlayout. STOP_ERROR, changing nothing, without a thread.
        Otherwise the thread is told to stop, the track released, both
        references dropped, and NO_ERROR returned. */
    method StopPlayout() returns (r: ErrorCode)
      requires Valid()
      modifies this, audioThread, audioTrack
      ensures Valid()
      ensures r == StopError <==> old(audioThread) == null
      ensures r == NoError <==> old(audioThread) != null
      ensures r == StopError ==> unchanged(this)
      ensures r == NoError ==>
                && audioThread == null && audioTrack == null
                && !old(audioThread).keepAlive && old(audioTrack).released
      ensures byteBuffer == old(byteBuffer)
    {
      if audioThread == null {
        return StopError;
      }
      audioThread.StopThread();
      audioThread := null;
      ReleaseAudioRelease();
      return NoError;
    }

    /** releaseAudioRelease: release the track, if any, and drop it. */
    method ReleaseAudioRelease()
      modifies this`audioTrack, audioTrack
      ensures audioTrack == null
      ensures old(audioTrack) != null ==> old(audioTrack).released
    {
      if audioTrack != null {
        audioTrack.Release();
      }
      audioTrack := null;
    }
  }

  /** A whole playout: init, start, run the thread over an asset holding
      `iterations * 1764` bytes while every write succeeds, then stop. The
      track receives the whole asset in order, ends stopped and is
      released, and a second stopPlayout is STOP_ERROR. */
  method PlayWholeAsset(asset: seq<Byte>, writes: seq<int>)
    returns (init: ErrorCode, start: ErrorCode, exit: Exit, received: seq<Byte>, stop: ErrorCode, again: ErrorCode)
    requires |asset| == |writes| * 1764
    requires forall k :: 0 <= k < |writes| ==> writes[k] >= 0
    ensures init == NoError && start == NoError && exit == Stopped
    ensures received == asset
    ensures stop == NoError && again == StopError
  {
    var render := new SvAudioTrack();
    init := render.InitPlayout(44100, 2, 3528);
    start := render.StartPlayout(false, asset);
    var track := render.audioTrack;
    var thread := render.audioThread;
    assert Silence(1764) == Silence(BufferCapacity(44100, 2));
    PlayLoopStreamsAsset(asset, 0, Silence(1764), writes);
    exit := thread.Run(track, render.byteBuffer, writes);
    received := Flatten(track.written);
    assert render.byteBuffer == Some(1764);
    assert thread.inputStream.data == asset;
    assert track.written == [] + PlayLoop(asset, 0, Silence(1764), writes).submitted;
    assert track.written == PlayLoop(asset, 0, Silence(1764), writes).submitted;
    assert received == asset[0..|writes| * 1764];
    stop := render.StopPlayout();
    again := render.StopPlayout();
  }

  /** initPlayout twice with a changed channel count: the second call is
      INIT_ERROR because the first track exists, yet it has already
      resized the byteBuffer that the first track's thread will read. */
  method ReinitResizesBuffer() returns (first: ErrorCode, second: ErrorCode, capacity: Option<nat>, trackChannels: ChannelConfig)
    ensures first == NoError && second == InitError
    ensures capacity == Some(882) && trackChannels == ChannelOutStereo
  {
    var render := new SvAudioTrack();
    first := render.InitPlayout(44100, 2, 3528);
    var track := render.audioTrack;
    second := render.InitPlayout(44100, 1, 3528);
    capacity := render.byteBuffer;
    trackChannels := track.channelMask;
  }

  /** After a successful stopPlayout the track is gone, so a new
      initPlayout passes the track-exists check and a new start succeeds. */
  method InitAfterStop(asset: seq<Byte>) returns (stop: ErrorCode, reinit: ErrorCode, restart: ErrorCode)
    ensures stop == NoError && reinit == NoError && restart == NoError
  {
    var render := new SvAudioTrack();
    var init := render.InitPlayout(48000, 1, 960);
    var start := render.StartPlayout(false, asset);
    stop := render.StopPlayout();
    reinit := render.InitPlayout(48000, 1, 960);
    restart := render.StartPlayout(false, asset);
  }
}
