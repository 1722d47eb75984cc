/** Whole sessions driven through the wrapper and its streams, with the browser's part played by
    direct updates of the abstract host state (the ready state, `updating`, the buffered ranges). */
module Scenarios {
  import opened Intervals
  import opened MediaSourceModel

  /** Every type is playable. */
  predicate AnyType(mime: string)
  {
    true
  }

  /** One range [0, 15]: 15 seconds ahead at position 0, 9 at position 6. */
  lemma FifteenAhead()
    ensures BufferedTime([Range(0.0, 15.0)], 0.0, EPSILON) == 15.0
    ensures BufferedTime([Range(0.0, 15.0)], 6.0, EPSILON) == 9.0
  {
  }

  /** A session open from the start with a 10-second horizon, and one stream whose first write was appended
      and awaits `'updateend'`. */
  method OpenAfterOneWrite() returns (w: Wrapper, s: Stream)
    ensures fresh(w) && fresh(s) && s.w == w && w.Valid() && s.Valid() && s.Registered()
    ensures w.readyState == Open && s.horizon == 10.0 && s.subscribed && !s.destroyed
    ensures s.sourceBuffer != null && fresh(s.sourceBuffer) && s.cb == WriteDone && s.events == []
  {
    w := new Wrapper(false, Some(10.0), AnyType);
    w.readyState := Open;
    var r := w.CreateWriteStream(TypeString("video/webm"));
    s := r.value;
    s.Write([1, 2, 3]);
  }

  /** Back-pressure: with a 10-second horizon and 15 seconds buffered from 0, a completed append is not
      acknowledged at playback position 0; at position 6 only 9 seconds lie ahead and it is. */
  method Backpressure() returns (atStart: seq<Notice>, atSix: seq<Notice>)
    ensures atStart == [] && atSix == [WriteAcked]
  {
    var w, s := OpenAfterOneWrite();
    var b := s.sourceBuffer;
    b.updating := false;
    b.buffered := [Range(0.0, 15.0)];
    FifteenAhead();
    s.Flow(0.0);
    atStart := s.events;
    s.Flow(6.0);
    atSix := s.events;
  }

  /** A write issued before the media source opens is held, then appended once the buffer is bound. */
  method DeferredWrite() returns (heldBefore: Pending, unboundBefore: bool, appendedAfter: seq<Chunk>, owed: Pending)
    ensures heldBefore == Retry([7]) && unboundBefore && appendedAfter == [[7]] && owed == WriteDone
  {
    var w := new Wrapper(false, None, AnyType);
    var r := w.CreateWriteStream(TypeString("video/mp4"));
    var s := r.value;
    s.Write([7]);
    heldBefore, unboundBefore := s.cb, s.sourceBuffer == null;
    w.readyState := Open;
    var thrown := s.OnSourceOpen();
    appendedAfter := s.sourceBuffer.appended;
    owed := s.cb;
  }

  /** A hand-off from a stream that never got a buffer: the predecessor is destroyed and out of the list,
      and its successor, with its type, binds a buffer of its own when the media source opens. */
  method HandOffBeforeOpen() returns (live: nat, predecessorGone: bool, predecessorUnbound: bool, successorType: string,
                                      bound: bool)
    ensures live == 1 && predecessorGone && predecessorUnbound && successorType == "video/mp4" && bound
  {
    var w := new Wrapper(false, None, AnyType);
    var r := w.CreateWriteStream(TypeString("video/mp4"));
    var p := r.value;
    var r' := w.CreateWriteStream(Previous(p));
    var s := r'.value;
    w.readyState := Open;
    var thrown := s.OnSourceOpen();
    live := |w.streams|;
    predecessorGone := p.destroyed && p !in w.streams;
    predecessorUnbound := p.sourceBuffer == null;
    successorType := s.mimeType;
    bound := s.sourceBuffer != null;
  }

  /** Two hand-offs from the same bound predecessor: the second finds it already destroyed, so both
      successors are live and share its source buffer. */
  method HandOffTwice() returns (live: nat, shared: bool)
    ensures live == 2 && shared
  {
    var w := new Wrapper(false, None, AnyType);
    w.readyState := Open;
    var r := w.CreateWriteStream(TypeString("video/mp4"));
    var p := r.value;
    var r1 := w.CreateWriteStream(Previous(p));
    var r2 := w.CreateWriteStream(Previous(p));
    live := |w.streams|;
    shared := r1.value.sourceBuffer == r2.value.sourceBuffer && r1.value.sourceBuffer != null;
  }

  /** Two bound streams whose buffers fail: the first error is the one recorded, the debug data is
      exported once (both streams, the first dump), and each report ends the media source with 'decode'. */
  method FirstErrorWins() returns (recorded: Option<Error>, bundles: nat, ends: seq<EndReason>, state: ReadyState)
    ensures recorded == Some(Host(1)) && bundles == 2 && ends == [Decode, Decode] && state == Ended
  {
    var w := new Wrapper(true, None, AnyType);
    w.readyState := Open;
    var r1 := w.CreateWriteStream(TypeString("audio/mp4"));
    var r2 := w.CreateWriteStream(TypeString("video/mp4"));
    var s1, s2 := r1.value, r2.value;
    s1.OnSourceBufferError(Host(1));
    s2.OnSourceBufferError(Host(2));
    recorded := w.detailedError;
    bundles := |w.exports|;
    ends := w.endOfStreamCalls;
    state := w.readyState;
  }

  /** A write deferred until the media source opens, replayed into a buffer the host makes refuse appends:
      the stream is destroyed with the host's exception, which the wrapper records. */
  method RefusedReplay() returns (live: nat, gone: bool, recorded: Option<Error>, ends: seq<EndReason>)
    ensures live == 0 && gone && recorded == Some(Host(4)) && ends == [Decode]
  {
    var w := new Wrapper(false, None, AnyType);
    var r := w.CreateWriteStream(TypeString("video/mp4"));
    var s := r.value;
    s.Write([9]);
    w.addedBufferFailure := Some(Host(4));
    w.readyState := Open;
    var thrown := s.OnSourceOpen();
    live := |w.streams|;
    gone := s.destroyed;
    recorded := w.detailedError;
    ends := w.endOfStreamCalls;
  }

  /** Only MP4 video is playable. */
  predicate Mp4Only(mime: string)
  {
    mime == "video/mp4"
  }

  /** Two streams wait for `'sourceopen'`. The first one's type is refused, and its error report ends the
      media source before the second one's handler runs; that `addSourceBuffer` throws, and the second
      stream is left live, unbound and no longer listening for `'sourceopen'`. */
  method StrandedAfterEnd() returns (thrown: Option<Error>, live: nat, stranded: bool, state: ReadyState)
    ensures thrown == Some(InvalidState) && live == 1 && stranded && state == Ended
  {
    var w := new Wrapper(false, None, Mp4Only);
    var r1 := w.CreateWriteStream(TypeString("audio/x-unknown"));
    var r2 := w.CreateWriteStream(TypeString("video/mp4"));
    var s1, s2 := r1.value, r2.value;
    assert w.streams == [s1, s2] && s2.openListener && !s2.destroyed;
    w.readyState := Open;
    var first := s1.OnSourceOpen();
    assert w.streams == [s2] && w.readyState == Ended;
    thrown := s2.OnSourceOpen();
    live := |w.streams|;
    stranded := !s2.destroyed && s2.sourceBuffer == null && !s2.openListener;
    state := w.readyState;
  }

  /** When every stream has finished but the host refuses `endOfStream`, the call is still made and the
      media source stays open. */
  method RefusedEnd() returns (ends: seq<EndReason>, state: ReadyState)
    ensures ends == [Normal] && state == Open
  {
    var w := new Wrapper(false, None, AnyType);
    w.readyState := Open;
    var r := w.CreateWriteStream(TypeString("video/webm"));
    var s := r.value;
    w.endOfStreamRefused := true;
    s.OnFinish();
    ends := w.endOfStreamCalls;
    state := w.readyState;
  }

  /** `createWriteStream` as written, given an argument that is neither a type string nor a stream:
      the call throws, yet the stream it built stays in the live list unfinished, so when the one real
      stream finishes the media source is not ended. */
  method BadArgumentBlocksEnd() returns (live: nat, ends: seq<EndReason>)
    ensures live == 2 && ends == []
  {
    var w := new Wrapper(false, None, AnyType);
    var r := w.CreateWriteStream(TypeString("video/webm"));
    var s := r.value;
    var bad := w.CreateWriteStream(Invalid);
    s.OnFinish();
    live := |w.streams|;
    ends := w.endOfStreamCalls;
  }

  /** The same session with the argument checked first: the bad call leaves nothing behind and the
      media source is ended when the real stream finishes. */
  method CheckedArgumentEnds() returns (live: nat, ends: seq<EndReason>)
    ensures live == 1 && ends == [Normal]
  {
    var w := new Wrapper(false, None, AnyType);
    var r := w.CreateWriteStreamChecked(TypeString("video/webm"));
    var s := r.value;
    var bad := w.CreateWriteStreamChecked(Invalid);
    s.OnFinish();
    live := |w.streams|;
    ends := w.endOfStreamCalls;
  }

  /** The stream left behind by the bad argument has no `'error'` listener, so an element error
      reaches the real stream, then throws out of the fan-out at it. */
  method BadArgumentThrowsInFanOut() returns (escaped: Option<Error>, recorded: Option<Error>)
    ensures escaped == Some(Host(3)) && recorded == Some(Host(3))
  {
    var w := new Wrapper(false, None, AnyType);
    var r := w.CreateWriteStream(TypeString("video/webm"));
    var bad := w.CreateWriteStream(Invalid);
    escaped := w.OnElementError(Host(3));
    recorded := w.detailedError;
  }
}
