/** The microphone worklet: an `AudioWorkletProcessor` that gathers the
    128-sample render quanta of the first input channel in a fixed buffer
    and posts the buffered samples to the main thread in chunks of at most
    `bufferSize` samples. Samples are abstract; the conversion to 16-bit PCM
    and the RMS level that travel with each chunk are not modelled. */
module AudioWorklet {
  import opened Common

  /** One sample of the input channel. The buffering never inspects a
      sample's value, so the 32-bit float is kept abstract. */
  type Sample = int

  const BufferSize: nat := 4096

  /** All samples of a sequence of chunks, in order. */
  function Flatten(chunks: seq<seq<Sample>>): seq<Sample> {
    if chunks == [] then [] else Flatten(chunks[..|chunks| - 1]) + chunks[|chunks| - 1]
  }

  lemma FlattenSnoc(chunks: seq<seq<Sample>>, c: seq<Sample>)
    ensures Flatten(chunks + [c]) == Flatten(chunks) + c
  {
    assert (chunks + [c])[..|chunks|] == chunks;
  }

  /** What the processor holds between two calls: the samples written to the
      buffer and not yet posted, and the chunks posted to the port so far. */
  datatype Worklet = Worklet(pending: seq<Sample>, posted: seq<seq<Sample>>)

  /** Every posted chunk holds between 1 and `size` samples. */
  predicate WellSized(posted: seq<seq<Sample>>, size: nat) {
    forall i :: 0 <= i < |posted| ==> 1 <= |posted[i]| <= size
  }

  /** `flush`: nothing pending posts nothing; otherwise exactly the pending
      samples are posted as one chunk and the buffer is emptied. */
  function Flushed(w: Worklet): (r: Worklet)
    ensures r.pending == []
    ensures Flatten(r.posted) + r.pending == Flatten(w.posted) + w.pending
    ensures w.pending == [] ==> r.posted == w.posted
    ensures w.pending != [] ==> r.posted == w.posted + [w.pending]
  {
    if w.pending == [] then
      assert Flatten(w.posted) + [] == Flatten(w.posted);
      w
    else
      FlattenSnoc(w.posted, w.pending);
      Worklet([], w.posted + [w.pending])
  }

  /** The outcome of one `process` call. `keepAlive` is the `true` that
      `process` returns; `false` stands for the `RangeError` that
      `Float32Array.set` throws when a quantum does not fit in the buffer. */
  datatype Outcome = Outcome(worklet: Worklet, keepAlive: bool)

  /** `process` on the first channel of the first input (`None` when there
      is no such channel), for a buffer of `size` samples. */
  function ProcessQuantum(w: Worklet, channel: Option<seq<Sample>>, size: nat): (r: Outcome)
    ensures r.keepAlive <==> channel.None? || |channel.value| <= size
    ensures (channel.None? || channel.value == []) ==> r.worklet == w
    ensures |w.pending| < size ==> |r.worklet.pending| < size
  {
    if channel.None? || channel.value == [] then Outcome(w, true)
    else
      var ch := channel.value;
      var w1 := if |w.pending| + |ch| > size then Flushed(w) else w;
      if |w1.pending| + |ch| > size then Outcome(w1, false)
      else
        var w2 := Worklet(w1.pending + ch, w1.posted);
        Outcome(if |w2.pending| >= size then Flushed(w2) else w2, true)
  }

  /** Ignoring the sample conversion, the posted chunks followed by the
      pending samples are exactly the samples received, in order: a call
      that keeps the processor alive adds its quantum at the end, one that
      throws adds nothing. */
  lemma ProcessKeepsOrder(w: Worklet, channel: Option<seq<Sample>>, size: nat)
    ensures var r := ProcessQuantum(w, channel, size);
      Flatten(r.worklet.posted) + r.worklet.pending
        == Flatten(w.posted) + w.pending
           + (if channel.Some? && r.keepAlive then channel.value else [])
  {
    if channel.Some? && channel.value != [] {
      var ch := channel.value;
      var w1 := if |w.pending| + |ch| > size then Flushed(w) else w;
      if |w1.pending| + |ch| <= size {
        var w2 := Worklet(w1.pending + ch, w1.posted);
        assert Flatten(w2.posted) + w2.pending == (Flatten(w1.posted) + w1.pending) + ch;
      }
    }
  }

  /** A chunk is posted only with 1..size samples in it, as long as nothing
      more than `size` samples was pending. */
  lemma ProcessPostsWellSized(w: Worklet, channel: Option<seq<Sample>>, size: nat)
    requires WellSized(w.posted, size) && |w.pending| <= size
    ensures WellSized(ProcessQuantum(w, channel, size).worklet.posted, size)
  {
  }

  /** The processor fed a sequence of render quanta from an empty buffer;
      the run stops at the first quantum that throws. */
  function Feed(channels: seq<Option<seq<Sample>>>, size: nat): (r: Outcome)
  {
    if channels == [] then Outcome(Worklet([], []), true)
    else
      var prev := Feed(channels[..|channels| - 1], size);
      if !prev.keepAlive then prev
      else ProcessQuantum(prev.worklet, channels[|channels| - 1], size)
  }

  /** The samples of the quanta that were present. */
  function Received(channels: seq<Option<seq<Sample>>>): seq<Sample> {
    if channels == [] then []
    else
      var last := channels[|channels| - 1];
      Received(channels[..|channels| - 1]) + (if last.Some? then last.value else [])
  }

  /** Given quanta of at most `size` samples, nothing throws, fewer than
      `size` samples are ever pending, every posted chunk holds 1..size
      samples, and the posted chunks followed by the pending samples give
      back every input sample in order. */
  lemma {:induction false} FeedReassembles(channels: seq<Option<seq<Sample>>>, size: nat)
    requires 0 < size
    requires forall i :: 0 <= i < |channels| && channels[i].Some? ==> |channels[i].value| <= size
    ensures var r := Feed(channels, size);
      && r.keepAlive
      && |r.worklet.pending| < size
      && WellSized(r.worklet.posted, size)
      && Flatten(r.worklet.posted) + r.worklet.pending == Received(channels)
  {
    if channels != [] {
      var init := channels[..|channels| - 1];
      var last := channels[|channels| - 1];
      FeedReassembles(init, size);
      var prev := Feed(init, size);
      ProcessKeepsOrder(prev.worklet, last, size);
      ProcessPostsWellSized(prev.worklet, last, size);
    }
  }

  /** `AudioProcessor`: the buffer is a fixed array written in place;
      `bytesWritten` counts the samples in it that are not yet posted, and
      `posted` is what went out through the port. */
  class AudioProcessor {
    const bufferSize: nat
    const buffer: array<Sample>
    var bytesWritten: nat
    var posted: seq<seq<Sample>>

    ghost predicate Valid()
      reads this
    {
      0 < bufferSize == buffer.Length && bytesWritten < bufferSize
    }

    /** The processor as the pure model sees it. */
    function State(): Worklet
      reads this, buffer
      requires bytesWritten <= buffer.Length
    {
      Worklet(buffer[..bytesWritten], posted)
    }

    constructor ()
      ensures Valid() && fresh(buffer)
      ensures bufferSize == BufferSize
      ensures State() == Worklet([], [])
    {
      bufferSize := BufferSize;
      buffer := new Sample[BufferSize];
      bytesWritten := 0;
      posted := [];
    }

    /** `Float32Array.prototype.set(source, offset)`: copies `source` into
        the buffer from `offset` on, leaving every other sample alone. */
    method Set(source: seq<Sample>, offset: nat)
      requires offset + |source| <= buffer.Length
      modifies buffer
      ensures buffer[..] == old(buffer[..offset]) + source + old(buffer[offset + |source|..])
    {
      var i := 0;
      while i < |source|
        invariant 0 <= i <= |source|
        invariant forall k :: 0 <= k < buffer.Length && !(offset <= k < offset + i) ==> buffer[k] == old(buffer[k])
        invariant forall k :: offset <= k < offset + i ==> buffer[k] == source[k - offset]
      {
        buffer[offset + i] := source[i];
        i := i + 1;
      }
      ghost var expected := old(buffer[..offset]) + source + old(buffer[offset + |source|..]);
      assert |buffer[..]| == |expected|;
      assert forall k :: 0 <= k < buffer.Length ==> buffer[..][k] == expected[k];
    }

    method Flush()
      requires buffer.Length == bufferSize && bytesWritten <= bufferSize
      modifies this
      ensures bytesWritten == 0
      ensures State() == Flushed(old(State()))
    {
      if bytesWritten == 0 {
        return;
      }
      var data := buffer[..bytesWritten];
      posted := posted + [data];
      bytesWritten := 0;
    }

    /** Write a quantum after the pending samples and count it as written. */
    method Append(ch: seq<Sample>)
      requires buffer.Length == bufferSize && bytesWritten + |ch| <= bufferSize
      modifies this, buffer
      ensures bytesWritten == old(bytesWritten) + |ch| && posted == old(posted)
      ensures State() == Worklet(old(State()).pending + ch, old(State()).posted)
    {
      Set(ch, bytesWritten);
      bytesWritten := bytesWritten + |ch|;
      assert buffer[..bytesWritten] == old(buffer[..bytesWritten]) + ch;
    }

    method Process(channel: Option<seq<Sample>>) returns (keepAlive: bool)
      requires Valid()
      modifies this, buffer
      ensures Valid()
      ensures Outcome(State(), keepAlive) == ProcessQuantum(old(State()), channel, bufferSize)
    {
      if channel.None? || |channel.value| == 0 {
        return true;
      }
      var ch := channel.value;
      ghost var w := State();
      if bytesWritten + |ch| > bufferSize {
        Flush();
      }
      ghost var w1 := State();
      assert w1 == if |w.pending| + |ch| > bufferSize then Flushed(w) else w;
      if bytesWritten + |ch| > buffer.Length {
        return false;
      }
      Append(ch);
      if bytesWritten >= bufferSize {
        Flush();
      }
      return true;
    }
  }
}
