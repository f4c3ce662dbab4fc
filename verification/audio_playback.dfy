/** The speaker side of the frontend: `AudioPlaybackManager` keeps a FIFO of
    decoded buffers and plays them one after another through an audio
    context. The context, its destination node and its output stream are
    reduced to whether they exist; a buffer is the PCM payload it was
    decoded from. */
module AudioPlayback {
  import opened Common

  /** Whether a chunk becomes an audio buffer: `new Int16Array` throws a
      RangeError on an odd byte length, and `createBuffer` throws on a
      buffer of length zero. */
  predicate Decodable(chunk: Bytes) {
    |chunk| > 0 && |chunk| % 2 == 0
  }

  class AudioPlaybackManager {
    var hasContext: bool
    var hasDestination: bool
    var hasOutputStream: bool
    var queue: seq<Bytes>
    var isPlaying: bool
    /** The source nodes created so far, in creation order, each with the
        buffer it plays; a node is named by its position here. */
    var sources: seq<Bytes>
    /** `currentSource`: the node last started, until it ends or is stopped. */
    var currentSource: Option<nat>
    /** Every buffer queued since the last `stop`, together with those
        started before it. */
    ghost var accepted: seq<Bytes>

    /** Buffers are started in the order they were queued, each exactly
        once; nothing is queued while idle or without a context; a source
        is current exactly while playing; the destination and its stream
        exist exactly while the context does. */
    ghost predicate Valid()
      reads this
    {
      && sources + queue == accepted
      && (!isPlaying ==> queue == [])
      && (!hasContext ==> queue == [])
      && (isPlaying <==> currentSource.Some?)
      && (currentSource.Some? ==> currentSource.value < |sources|)
      && hasDestination == hasContext
      && hasOutputStream == hasContext
    }

    constructor ()
      ensures Valid()
      ensures !hasContext && queue == [] && !isPlaying && sources == [] && accepted == []
    {
      hasContext := false;
      hasDestination := false;
      hasOutputStream := false;
      queue := [];
      isPlaying := false;
      sources := [];
      currentSource := None;
      accepted := [];
    }

    /** `initialize`: creates the context, its destination and output
        stream once; a second call keeps them. */
    method Initialize()
      requires Valid()
      modifies this
      ensures Valid()
      ensures hasContext && hasOutputStream
      ensures queue == old(queue) && isPlaying == old(isPlaying) && sources == old(sources)
      ensures currentSource == old(currentSource) && accepted == old(accepted)
    {
      if !hasContext {
        hasContext := true;
        hasDestination := true;
        hasOutputStream := true;
      }
    }

    /** `getOutputStream`: present exactly while the context exists. */
    method GetOutputStream() returns (present: bool)
      requires Valid()
      ensures present <==> hasContext
    {
      present := hasOutputStream;
    }

    method GetIsPlaying() returns (playing: bool)
      requires Valid()
      ensures playing <==> currentSource.Some?
    {
      playing := isPlaying;
    }

    /** `playAudioChunk`: without a context nothing happens, and neither
        does it when the chunk cannot be decoded (the error is caught).
        Otherwise the buffer joins the end of the queue and, when nothing
        was playing, it starts at once. */
    method PlayAudioChunk(chunk: Bytes)
      requires Valid()
      modifies this
      ensures Valid()
      ensures hasContext == old(hasContext) && hasOutputStream == old(hasOutputStream)
      ensures !old(hasContext) || !Decodable(chunk) ==>
        queue == old(queue) && sources == old(sources) && isPlaying == old(isPlaying)
        && currentSource == old(currentSource) && accepted == old(accepted)
      ensures old(hasContext) && Decodable(chunk) ==> accepted == old(accepted) + [chunk] && isPlaying
      ensures old(hasContext) && Decodable(chunk) && old(isPlaying) ==>
        queue == old(queue) + [chunk] && sources == old(sources) && currentSource == old(currentSource)
      ensures old(hasContext) && Decodable(chunk) && !old(isPlaying) ==>
        queue == [] && sources == old(sources) + [chunk] && currentSource == Some(|old(sources)|)
    {
      if !hasContext {
        return;
      }
      if !Decodable(chunk) {
        return;
      }
      queue := queue + [chunk];
      accepted := accepted + [chunk];
      if !isPlaying {
        PlayNext();
      }
    }

    /** `playNext`: with no context or an empty queue playback is idle;
        otherwise the front buffer leaves the queue and a new source node
        starts playing it. */
    method PlayNext()
      requires sources + queue == accepted
      requires !hasContext ==> queue == []
      requires currentSource.Some? ==> currentSource.value < |sources|
      modifies this
      ensures sources + queue == accepted
      ensures currentSource.Some? ==> currentSource.value < |sources|
      ensures hasContext == old(hasContext) && hasDestination == old(hasDestination)
      ensures hasOutputStream == old(hasOutputStream) && accepted == old(accepted)
      ensures old(queue) == [] ==>
        !isPlaying && queue == [] && sources == old(sources) && currentSource == old(currentSource)
      ensures old(queue) != [] ==>
        && isPlaying
        && queue == old(queue)[1..]
        && sources == old(sources) + [old(queue)[0]]
        && currentSource == Some(|old(sources)|)
    {
      if !hasContext || |queue| == 0 {
        isPlaying := false;
        return;
      }
      isPlaying := true;
      var buffer := queue[0];
      queue := queue[1..];
      sources := sources + [buffer];
      currentSource := Some(|sources| - 1);
    }

    /** The `onended` handler of source node `node`. It does not look at
        which node ended: the end of a node stopped earlier also drops the
        reference to the current one, and starts the next queued buffer
        even while that one is still sounding. */
    method OnEnded(node: nat)
      requires Valid() && node < |sources|
      modifies this
      ensures Valid()
      ensures hasContext == old(hasContext) && accepted == old(accepted)
      ensures old(queue) == [] ==>
        !isPlaying && queue == [] && sources == old(sources) && currentSource == None
      ensures old(queue) != [] ==>
        && isPlaying
        && queue == old(queue)[1..]
        && sources == old(sources) + [old(queue)[0]]
        && currentSource == Some(|old(sources)|)
    {
      currentSource := None;
      if |queue| > 0 {
        PlayNext();
      } else {
        isPlaying := false;
      }
    }

    /** `stop`: the current node is stopped and forgotten, the queue is
        emptied and playback is idle. The dropped buffers never play. */
    method Stop()
      requires Valid()
      modifies this
      ensures Valid()
      ensures queue == [] && !isPlaying && currentSource == None
      ensures sources == old(sources) && accepted == old(sources)
      ensures hasContext == old(hasContext) && hasOutputStream == old(hasOutputStream)
    {
      if currentSource.Some? {
        currentSource := None;
      }
      queue := [];
      isPlaying := false;
      accepted := sources;
    }

    /** `cleanup`: stops playback and drops the destination, the output
        stream and the context; `getOutputStream` then has nothing. */
    method Cleanup()
      requires Valid()
      modifies this
      ensures Valid()
      ensures !hasContext && !hasDestination && !hasOutputStream
      ensures queue == [] && !isPlaying && currentSource == None
      ensures sources == old(sources)
    {
      Stop();
      hasDestination := false;
      hasOutputStream := false;
      if hasContext {
        hasContext := false;
      }
    }
  }
}
