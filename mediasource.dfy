/** The flow-control and lifecycle engine of `MediaElementWrapper` and `MediaSourceStream`.
    Every handler runs to completion, so each handler is one method. The browser objects are
    abstract state: the media source's ready state, an `isTypeSupported` predicate, and per source
    buffer an `updating` flag, the reported buffered ranges and the outcome the next `appendBuffer` has.
    Emitted events and calls into the host are recorded in logs. */
module MediaSourceModel {
  import opened Intervals

  /** Seconds of data admitted ahead of playback when the options give none (index.js:7). */
  const DEFAULT_BUFFER_DURATION: real := 60.0

  /** Slack when comparing a range's end with the playback position (index.js:264). */
  const EPSILON: real := 0.0

  /** An appended byte range, as an opaque token sequence. */
  type Chunk = seq<int>

  datatype Option<T> = None | Some(value: T)

  datatype Result<T> = Success(value: T) | Failure(error: Error)

  datatype Error =
    | NotSupported     // 'The provided type is not supported' (index.js:180)
    | Busy             // 'Cannot append buffer while source buffer updating' (index.js:195)
    | InvalidArgument  // createWriteStream given neither a string nor a previous stream (index.js:118)
    | InvalidState     // addSourceBuffer on a media source that is not open (index.js:171)
    | Host(code: int)  // an error reported by the host or the caller, passed through unchanged

  /** `MediaSource.readyState`. */
  datatype ReadyState = Closed | Open | Ended

  /** The argument of `MediaSource.endOfStream`: none, or `'decode'`. */
  datatype EndReason = Normal | Decode

  /** What a stream emits or hands back to its writer. */
  datatype Notice =
    | ErrorEmitted(error: Error)  // emit('error', err)
    | CloseEmitted                // emit('close')
    | WriteAcked                  // the writer's callback, called without an error
    | WriteFailed(error: Error)   // the writer's callback, called with an error

  /** The one pending continuation `_cb`. */
  datatype Pending =
    | NoPending
    | Retry(chunk: Chunk)  // a write deferred until a source buffer exists (index.js:187-190)
    | WriteDone            // the writer's callback, owed once the append is absorbed (index.js:213)

  /** One exported debug bundle: the stream's position in the live list and its captured chunks. */
  datatype Export = Export(index: nat, buffers: seq<Chunk>)

  /** The argument of `createWriteStream`. */
  datatype Target = TypeString(mime: string) | Previous(stream: Stream) | Invalid

  /** `opts.bufferDuration || DEFAULT_BUFFER_DURATION`: a missing or zero option falls back to the default. */
  function Horizon(bufferDuration: Option<real>): (h: real)
    ensures h != 0.0
    ensures h == DEFAULT_BUFFER_DURATION || bufferDuration == Some(h)
    ensures bufferDuration.Some? && bufferDuration.value != 0.0 ==> h == bufferDuration.value
  {
    if bufferDuration.Some? && bufferDuration.value != 0.0 then bufferDuration.value else DEFAULT_BUFFER_DURATION
  }

  /** `detailedError` after `error(e)`: a recorded error is never overwritten. */
  function FirstError(recorded: Option<Error>, e: Error): (r: Option<Error>)
    ensures r.Some?
    ensures recorded.Some? ==> r == recorded
    ensures recorded.None? ==> r == Some(e)
  {
    if recorded.None? then Some(e) else recorded
  }

  /** `detailedError` after a sequence of `error` calls. */
  function RecordAll(recorded: Option<Error>, es: seq<Error>): Option<Error>
    decreases |es|
  {
    if es == [] then recorded else RecordAll(FirstError(recorded, es[0]), es[1..])
  }

  lemma {:induction false} RecordedStays(e: Error, es: seq<Error>)
    ensures RecordAll(Some(e), es) == Some(e)
    decreases |es|
  {
    if es != [] {
      RecordedStays(e, es[1..]);
    }
  }

  /** Whatever errors follow, the session keeps the first one reported. */
  lemma FirstErrorWins(es: seq<Error>)
    requires es != []
    ensures RecordAll(None, es) == Some(es[0])
  {
    RecordedStays(es[0], es[1..]);
  }

  /** `Array.prototype.indexOf`: the first position of `x`, or -1 (see `IndexOfFirst`). */
  function IndexOf<T(==)>(ss: seq<T>, x: T): (i: int)
    ensures -1 <= i < |ss|
    decreases |ss|
  {
    if ss == [] then -1
    else if ss[0] == x then 0
    else
      var j := IndexOf(ss[1..], x);
      if j < 0 then -1 else j + 1
  }

  /** `IndexOf` finds the first occurrence, and reports -1 exactly when there is none. */
  lemma {:induction false} IndexOfFirst<T>(ss: seq<T>, x: T)
    ensures var i := IndexOf(ss, x);
            (i >= 0 ==> ss[i] == x && x !in ss[..i]) && (i == -1 <==> x !in ss)
    decreases |ss|
  {
    if ss != [] && ss[0] != x {
      var t := ss[1..];
      IndexOfFirst(t, x);
      var j := IndexOf(t, x);
      assert x in ss <==> x in t;
      if j >= 0 {
        assert ss[..j + 1] == [ss[0]] + t[..j];
      }
    }
  }

  /** `ss.splice(ss.indexOf(x), 1)`: the first occurrence of `x` is taken out. An absent `x` gives
      index -1, and `splice(-1, 1)` drops the last element instead. */
  function Remove<T(==)>(ss: seq<T>, x: T): (r: seq<T>)
    ensures x in ss ==> |r| == |ss| - 1
    ensures x !in ss ==> r == if ss == [] then [] else ss[..|ss| - 1]
    decreases |ss|
  {
    if ss == [] then []
    else if x !in ss then ss[..|ss| - 1]
    else if ss[0] == x then ss[1..]
    else [ss[0]] + Remove(ss[1..], x)
  }

  /** Taking out position `j` of the tail, behind the head, is taking out position `j + 1` of the whole. */
  lemma SpliceAfterHead<T>(ss: seq<T>, j: nat)
    requires j + 1 < |ss|
    ensures [ss[0]] + (ss[1..][..j] + ss[1..][j + 1..]) == ss[..j + 1] + ss[j + 2..]
  {
    assert ss[..j + 1] == [ss[0]] + ss[1..][..j];
    assert ss[j + 2..] == ss[1..][j + 1..];
  }

  /** `Remove` is the splice at the position `indexOf` reports. */
  lemma {:induction false} RemoveSplices<T>(ss: seq<T>, x: T)
    ensures var i := IndexOf(ss, x);
            Remove(ss, x) == if i >= 0 then ss[..i] + ss[i + 1..] else if ss == [] then [] else ss[..|ss| - 1]
    decreases |ss|
  {
    if ss == [] || x !in ss {
      IndexOfFirst(ss, x);
    } else if ss[0] == x {
      assert ss[..0] + ss[1..] == ss[1..];
    } else {
      var t := ss[1..];
      assert x in t;
      IndexOfFirst(t, x);
      var j := IndexOf(t, x);
      assert IndexOf(ss, x) == j + 1;
      calc {
        Remove(ss, x);
        [ss[0]] + Remove(t, x);
        { RemoveSplices(t, x); }
        [ss[0]] + (t[..j] + t[j + 1..]);
        { SpliceAfterHead(ss, j); }
        ss[..j + 1] + ss[j + 2..];
      }
    }
  }

  /** Removing a present element takes out one occurrence of it and nothing else. */
  lemma {:induction false} RemoveCounts<T>(ss: seq<T>, x: T)
    requires x in ss
    ensures multiset(Remove(ss, x)) == multiset(ss) - multiset{x}
    decreases |ss|
  {
    assert ss == [ss[0]] + ss[1..];
    if ss[0] != x {
      assert x in ss[1..];
      RemoveCounts(ss[1..], x);
    }
  }

  ghost predicate Distinct<T>(ss: seq<T>)
  {
    forall i, j :: 0 <= i < j < |ss| ==> ss[i] != ss[j]
  }

  /** In a list without repetitions, removing `x` takes out exactly that one element and keeps the rest. */
  lemma {:induction false} RemoveDistinct<T>(ss: seq<T>, x: T)
    requires Distinct(ss) && x in ss
    ensures Distinct(Remove(ss, x))
    ensures x !in Remove(ss, x)
    ensures forall y :: y in Remove(ss, x) <==> y in ss && y != x
    decreases |ss|
  {
    var t := ss[1..];
    assert Distinct(t) by {
      forall i, j | 0 <= i < j < |t| ensures t[i] != t[j] {
        assert t[i] == ss[i + 1] && t[j] == ss[j + 1];
      }
    }
    assert ss[0] !in t by {
      forall k | 0 <= k < |t| ensures t[k] != ss[0] {
        assert t[k] == ss[k + 1];
      }
    }
    assert forall y :: y in ss <==> y == ss[0] || y in t;
    if ss[0] != x {
      assert x in t;
      RemoveDistinct(t, x);
      var r := Remove(ss, x);
      assert r == [ss[0]] + Remove(t, x);
      forall i, j | 0 <= i < j < |r| ensures r[i] != r[j] {
        if i == 0 {
          assert r[j] == Remove(t, x)[j - 1];
        } else {
          assert r[i] == Remove(t, x)[i - 1] && r[j] == Remove(t, x)[j - 1];
        }
      }
    }
  }

  /** The stream list after appending `s` and then removing a member `p` of the old list. */
  lemma {:induction false} RemoveAfterAppend<T>(ss: seq<T>, s: T, p: T)
    requires p in ss && p != s
    ensures Remove(ss + [s], p) == Remove(ss, p) + [s]
    decreases |ss|
  {
    assert (ss + [s])[0] == ss[0];
    assert (ss + [s])[1..] == ss[1..] + [s];
    if ss[0] != p {
      assert p in ss[1..];
      RemoveAfterAppend(ss[1..], s, p);
    }
  }

  /** Removing an element just appended to a list that did not hold it gives the list back. */
  lemma {:induction false} RemoveAppended<T>(ss: seq<T>, x: T)
    requires x !in ss
    ensures Remove(ss + [x], x) == ss
    decreases |ss|
  {
    if ss != [] {
      assert (ss + [x])[0] == ss[0];
      assert (ss + [x])[1..] == ss[1..] + [x];
      RemoveAppended(ss[1..], x);
    }
  }

  /** The debug bundles `_dumpDebugData` exports for a list of streams, named by position. */
  ghost function Bundles(ss: seq<Stream>): seq<Export>
    reads ss
  {
    seq(|ss|, i requires 0 <= i < |ss| reads ss => Export(i, ss[i].debugBuffers))
  }

  /** Which streams of a list have their own `'error'` listener. */
  ghost function Listening(ss: seq<Stream>): (r: seq<bool>)
    reads ss
    ensures |r| == |ss| && forall i :: 0 <= i < |ss| ==> r[i] == ss[i].subscribed
  {
    seq(|ss|, i requires 0 <= i < |ss| reads ss => ss[i].subscribed)
  }

  /** The ready state after `MediaSource.endOfStream`: an open media source becomes ended unless the
      host refuses the call (it does while a source buffer is updating); otherwise the call throws and
      changes nothing. */
  function AfterEndOfStream(rs: ReadyState, refused: bool): (r: ReadyState)
    ensures r == Ended <==> rs == Ended || (rs == Open && !refused)
    ensures r != Ended ==> r == rs
  {
    if rs == Open && !refused then Ended else rs
  }

  /** `n` calls of `endOfStream('decode')`. */
  function Decodes(n: nat): (r: seq<EndReason>)
    ensures |r| == n && forall i :: 0 <= i < n ==> r[i] == Decode
  {
    if n == 0 then [] else [Decode] + Decodes(n - 1)
  }

  /** The wrapper's bookkeeping on the error path: the ready state, `detailedError`, `_debug`,
      the exported bundles and the `endOfStream` calls. */
  datatype Ledger = Ledger(readyState: ReadyState, endOfStreamRefused: bool, addedBufferFailure: Option<Error>,
                           detailedError: Option<Error>, debug: bool, exports: seq<Export>,
                           endOfStreamCalls: seq<EndReason>)

  /** The ledger after `n` calls of `error(err)` in a row: the first keeps the error unless one is recorded
      and makes the one debug dump, of `dump`; each ends the media source with 'decode'. */
  function AfterReports(l: Ledger, err: Error, n: nat, dump: seq<Export>): Ledger
  {
    if n == 0 then l
    else Ledger(AfterEndOfStream(l.readyState, l.endOfStreamRefused), l.endOfStreamRefused, l.addedBufferFailure,
                FirstError(l.detailedError, err), false,
                l.exports + (if l.debug then dump else []), l.endOfStreamCalls + Decodes(n))
  }

  /** `n + 1` reports are one report followed by `n` more: the later ones find the error recorded
      and the dump made, and only add their `endOfStream('decode')`. */
  lemma AfterReportsStep(l: Ledger, err: Error, n: nat, dump: seq<Export>, dump': seq<Export>)
    ensures AfterReports(AfterReports(l, err, 1, dump), err, n, dump') == AfterReports(l, err, n + 1, dump)
  {
    if n > 0 {
      assert Decodes(1) + Decodes(n) == Decodes(n + 1);
    }
  }

  /** All elements but the first; empty for the empty list. */
  function Tail<T>(ss: seq<T>): (r: seq<T>)
    ensures ss != [] ==> r == ss[1..]
  {
    if ss == [] then [] else ss[1..]
  }

  /** What `destroy(err)` emits. With the stream's `'error'` listener registered both events go out;
      without it, emitting `'error'` throws, so `'close'` is never reached. */
  function DestroyNotices(err: Option<Error>, subscribed: bool): seq<Notice>
  {
    if err.None? then [CloseEmitted]
    else if subscribed then [ErrorEmitted(err.value), CloseEmitted]
    else []
  }

  /** A host `SourceBuffer`. */
  class SourceBuffer {
    var updating: bool
    var buffered: seq<Range>
    /** The exception `appendBuffer` raises now, if any; it is the host's decision. */
    var failure: Option<Error>
    var appended: seq<Chunk>
    var aborts: nat

    /** A freshly added buffer is idle and holds nothing; whether its appends succeed is the host's
        decision, given as `failure`. */
    constructor (failure: Option<Error>)
      ensures !updating && buffered == [] && this.failure == failure && appended == [] && aborts == 0
    {
      updating, buffered, this.failure, appended, aborts := false, [], failure, [], 0;
    }

    /** `appendBuffer`: either raises the host's exception and changes nothing, or starts an update. */
    method AppendBuffer(chunk: Chunk) returns (err: Option<Error>)
      modifies this
      ensures err == old(failure)
      ensures err.Some? ==> unchanged(this)
      ensures err.None? ==> appended == old(appended) + [chunk] && updating
      ensures err.None? ==> buffered == old(buffered) && failure == old(failure) && aborts == old(aborts)
    {
      err := failure;
      if err.None? {
        appended := appended + [chunk];
        updating := true;
      }
    }

    /** `abort`: cancels an update in flight. */
    method Abort()
      modifies this
      ensures Aborted(true)
    {
      aborts := aborts + 1;
      updating := false;
    }

    /** The buffer after `abort` was or was not called. */
    twostate predicate Aborted(called: bool)
      reads this
    {
      aborts == old(aborts) + (if called then 1 else 0) &&
      updating == (old(updating) && !called) &&
      buffered == old(buffered) && failure == old(failure) && appended == old(appended)
    }
  }

  /** `MediaElementWrapper`: one media source shared by the streams written into it. */
  class Wrapper {
    /** `_debug`; cleared by the single debug dump. */
    var debug: bool
    /** `_bufferDuration`. */
    const horizon: real
    /** `MediaSource.isTypeSupported`. */
    const isTypeSupported: string -> bool
    /** `_mediaSource.readyState`. */
    var readyState: ReadyState
    /** Whether the host refuses `endOfStream` now; it does while a source buffer is updating. */
    var endOfStreamRefused: bool
    /** What `appendBuffer` raises, if anything, on a source buffer the host adds now. */
    var addedBufferFailure: Option<Error>
    /** `_streams`, shared with every stream as `_allStreams`. */
    var streams: seq<Stream>
    var detailedError: Option<Error>
    /** The calls made to `_mediaSource.endOfStream`. */
    var endOfStreamCalls: seq<EndReason>
    /** The bundles handed to `downloadBuffers`. */
    var exports: seq<Export>
    /** The element's `'error'` listener (index.js:20-27). */
    var elementErrorListener: bool

    /** The live list holds each stream once, and only live streams of this wrapper. */
    ghost predicate Valid()
      reads this, streams
    {
      Distinct(streams) &&
      forall s :: s in streams ==> s.w == this && !s.destroyed && s.Valid()
    }

    /** The wrapper's state other than the live list did not change. */
    twostate predicate SameSession()
      reads this
    {
      debug == old(debug) && readyState == old(readyState) && detailedError == old(detailedError) &&
      endOfStreamCalls == old(endOfStreamCalls) && exports == old(exports) &&
      elementErrorListener == old(elementErrorListener) && endOfStreamRefused == old(endOfStreamRefused) &&
      addedBufferFailure == old(addedBufferFailure)
    }

    /** The state after the one-shot debug dump and an `endOfStream(reason)` call. */
    twostate predicate DumpedAndEnded(reason: EndReason)
      reads this, streams
    {
      !debug &&
      exports == old(exports) + (if old(debug) then Bundles(streams) else []) &&
      endOfStreamCalls == old(endOfStreamCalls) + [reason] &&
      readyState == AfterEndOfStream(old(readyState), old(endOfStreamRefused)) &&
      elementErrorListener == old(elementErrorListener) && endOfStreamRefused == old(endOfStreamRefused) &&
      addedBufferFailure == old(addedBufferFailure)
    }

    /** The state after `error(e)`. */
    twostate predicate RecordedError(e: Error)
      reads this, streams
    {
      detailedError == FirstError(old(detailedError), e) && DumpedAndEnded(Decode)
    }

    /** Every stream still in the live list has finished. */
    predicate AllFinished()
      reads this, streams
    {
      forall s :: s in streams ==> s.finished
    }

    constructor (debug: bool, bufferDuration: Option<real>, isTypeSupported: string -> bool)
      ensures Valid()
      ensures this.debug == debug && horizon == Horizon(bufferDuration) && this.isTypeSupported == isTypeSupported
      ensures readyState == Closed && streams == [] && detailedError == None
      ensures endOfStreamCalls == [] && exports == [] && elementErrorListener
      ensures !endOfStreamRefused && addedBufferFailure == None
    {
      this.debug := debug;
      horizon := Horizon(bufferDuration);
      this.isTypeSupported := isTypeSupported;
      readyState := Closed;
      streams := [];
      detailedError := None;
      endOfStreamCalls := [];
      exports := [];
      elementErrorListener := true;
      endOfStreamRefused := false;
      addedBufferFailure := None;
    }

    /** `_dumpDebugData`: exports every live stream's captured chunks, at most once in the wrapper's life. */
    method DumpDebugData()
      modifies this
      ensures !debug
      ensures exports == old(exports) + (if old(debug) then Bundles(streams) else [])
      ensures streams == old(streams) && readyState == old(readyState) && detailedError == old(detailedError)
      ensures endOfStreamCalls == old(endOfStreamCalls) && elementErrorListener == old(elementErrorListener)
      ensures endOfStreamRefused == old(endOfStreamRefused) && addedBufferFailure == old(addedBufferFailure)
    {
      if debug {
        debug := false;
        var i := 0;
        while i < |streams|
          invariant 0 <= i <= |streams|
          invariant exports == old(exports) + Bundles(streams)[..i]
          invariant !debug && streams == old(streams) && readyState == old(readyState)
          invariant detailedError == old(detailedError) && endOfStreamCalls == old(endOfStreamCalls)
          invariant elementErrorListener == old(elementErrorListener)
          invariant endOfStreamRefused == old(endOfStreamRefused) && addedBufferFailure == old(addedBufferFailure)
        {
          exports := exports + [Export(i, streams[i].debugBuffers)];
          i := i + 1;
        }
      }
    }

    /** `try { this._mediaSource.endOfStream(reason) } catch (err) {}`. */
    method EndOfStream(reason: EndReason)
      modifies this
      ensures endOfStreamCalls == old(endOfStreamCalls) + [reason]
      ensures readyState == AfterEndOfStream(old(readyState), old(endOfStreamRefused))
      ensures streams == old(streams) && debug == old(debug) && detailedError == old(detailedError)
      ensures exports == old(exports) && elementErrorListener == old(elementErrorListener)
      ensures endOfStreamRefused == old(endOfStreamRefused) && addedBufferFailure == old(addedBufferFailure)
    {
      endOfStreamCalls := endOfStreamCalls + [reason];
      readyState := AfterEndOfStream(readyState, endOfStreamRefused);
    }

    /** `error(err)`: keeps the first error, dumps debug data once, ends the stream with a decode error. */
    method Error(err: Error)
      modifies this
      ensures RecordedError(err) && streams == old(streams)
    {
      if detailedError.None? {
        detailedError := Some(err);
      }
      DumpDebugData();
      EndOfStream(Decode);
    }

    /** `_allStreams.splice(_allStreams.indexOf(s), 1)` for a member `s` of the live list. */
    method Unlist(s: Stream)
      requires Distinct(streams) && s in streams
      modifies this`streams
      ensures streams == Remove(old(streams), s) && Distinct(streams) && s !in streams
      ensures |streams| == |old(streams)| - 1 && forall t :: t in streams <==> t in old(streams) && t != s
    {
      RemoveDistinct(streams, s);
      streams := Remove(streams, s);
    }

    /** `createWriteStream(obj)` as written: `new MediaSourceStream(this, obj)`. The new stream joins the
        live list before its argument is looked at, so an argument that is neither a type string nor a
        previous stream leaves an unfinished stream behind that no caller can reach. */
    method CreateWriteStream(target: Target) returns (r: Result<Stream>)
      requires Valid()
      requires target.Previous? ==> target.stream.w == this && target.stream.Valid() && target.stream.Registered()
      modifies this, if target.Previous? then {target.stream} else {}
      modifies if target.Previous? && target.stream.sourceBuffer != null then {target.stream.sourceBuffer} else {}
      ensures Valid()
      ensures target.Invalid? ==> r == Failure(InvalidArgument) && SameSession()
      ensures target.Invalid? ==> |streams| == |old(streams)| + 1 && streams[..|old(streams)|] == old(streams)
      ensures target.Invalid? ==>
        var z := streams[|streams| - 1]; fresh(z) && !z.finished && !z.subscribed && z.sourceBuffer == null
      ensures target.TypeString? ==> Typed(target.mime, r)
      ensures target.Previous? ==> HandedOver(target.stream, r)
    {
      match target {
        case TypeString(mime) =>
          r := CreateTyped(mime);
        case Previous(p) =>
          r := CreateFrom(p);
        case Invalid =>
          var s := new Stream(this);
          r := Failure(InvalidArgument);
      }
    }

    /** `createWriteStream(obj)` with the argument checked before the stream registers itself. */
    method CreateWriteStreamChecked(target: Target) returns (r: Result<Stream>)
      requires Valid()
      requires target.Previous? ==> target.stream.w == this && target.stream.Valid() && target.stream.Registered()
      modifies this, if target.Previous? then {target.stream} else {}
      modifies if target.Previous? && target.stream.sourceBuffer != null then {target.stream.sourceBuffer} else {}
      ensures Valid()
      ensures target.Invalid? ==> r == Failure(InvalidArgument) && unchanged(this)
      ensures target.TypeString? ==> Typed(target.mime, r)
      ensures target.Previous? ==> HandedOver(target.stream, r)
    {
      if target.Invalid? {
        return Failure(InvalidArgument);
      }
      r := CreateWriteStream(target);
    }

    /** The stream constructor given a type string (index.js:73-105, 121-136). */
    method CreateTyped(mime: string) returns (r: Result<Stream>)
      requires Valid()
      modifies this
      ensures Valid() && Typed(mime, r)
    {
      var s := new Stream(this);
      var thrown := s.BindType(mime);
      if thrown.Some? {
        RemoveAppended(old(streams), s);
        return Failure(thrown.value);
      }
      r := Success(s);
    }

    /** The stream constructor given a previous stream (index.js:73-96, 106-116, 121-136). */
    method CreateFrom(p: Stream) returns (r: Result<Stream>)
      requires Valid() && p.w == this && p.Valid() && p.Registered()
      modifies this, p, if p.sourceBuffer != null then {p.sourceBuffer} else {}
      ensures Valid() && HandedOver(p, r)
    {
      var s := new Stream(this);
      ghost var handedOff := !p.destroyed;
      s.TakeOver(p);
      assert streams == (if handedOff then Remove(old(streams), p) else old(streams)) + [s] by {
        if handedOff {
          RemoveAfterAppend(old(streams), s, p);
        }
      }
      r := Success(s);
    }

    /** A stream the constructor returned: fresh, registered last in the live list, listening, with nothing pending. */
    twostate predicate Started(new s: Stream)
      reads this, streams, s
    {
      fresh(s) && s.w == this && s.horizon == horizon && s.subscribed && s.timeupdateListener &&
      !s.destroyed && !s.finished && s.cb == NoPending && s.events == [] &&
      |streams| > 0 && streams[|streams| - 1] == s
    }

    /** What `createWriteStream(mime)` leaves behind: a stream bound at once when the media source is
        open, or waiting for `'sourceopen'`; or, for a type the host refuses while open, the exception. */
    twostate predicate Typed(mime: string, new r: Result<Stream>)
      reads this, streams
      reads if r.Success? then {r.value} else {}
      reads if r.Success? && r.value.sourceBuffer != null then {r.value.sourceBuffer} else {}
    {
      && SameSession()
      && (r.Success? <==> old(readyState) != Open || isTypeSupported(mime))
      && (r.Failure? ==> r.error == NotSupported && streams == old(streams))
      && (r.Success? ==>
            var s := r.value;
            Started(s) && s.mimeType == mime && s.debugBuffers == [] && streams == old(streams) + [s] &&
            (old(readyState) == Open ==>
               s.sourceBuffer != null && fresh(s.sourceBuffer) && s.bufferListeners && !s.openListener &&
               s.sourceBuffer.appended == [] && !s.sourceBuffer.updating &&
               s.sourceBuffer.failure == old(addedBufferFailure)) &&
            (old(readyState) != Open ==> s.sourceBuffer == null && s.openListener && !s.bufferListeners))
    }

    /** What `createWriteStream(p)` leaves behind: `p` destroyed and out of the list, and its successor
        with `p`'s type and, when `p` had one, its source buffer and captured chunks. */
    twostate predicate HandedOver(p: Stream, new r: Result<Stream>)
      reads this, streams, p
      reads if r.Success? then {r.value} else {}
      reads if r.Success? && r.value.sourceBuffer != null then {r.value.sourceBuffer} else {}
    {
      && r.Success? && SameSession() && p.destroyed && p !in streams && Started(r.value) && p.Valid() && p.Retired()
      && streams == (if old(p.destroyed) then old(streams) else Remove(old(streams), p)) + [r.value]
      && var s := r.value;
         s.mimeType == old(p.mimeType) && s.sourceBuffer == old(p.sourceBuffer) &&
         (old(p.sourceBuffer) == null ==> s.openListener && !s.bufferListeners && s.debugBuffers == []) &&
         (old(p.sourceBuffer) != null ==>
            !s.openListener && s.bufferListeners && s.debugBuffers == old(p.debugBuffers) &&
            s.sourceBuffer.Aborted(!old(p.destroyed) && old(readyState) == Open))
    }

    /** The wrapper's bookkeeping on the error path. */
    function Book(): Ledger
      reads this
    {
      Ledger(readyState, endOfStreamRefused, addedBufferFailure, detailedError, debug, exports, endOfStreamCalls)
    }

    /** One step of the fan-out: the stream at the head of the live list is destroyed with the element's
        error, which takes it out of the list. Without its own `'error'` listener the emission throws. */
    method DestroyFirst(err: Error) returns (escaped: Option<Error>)
      requires Valid() && streams != []
      modifies this, streams[0], if streams[0].sourceBuffer != null then {streams[0].sourceBuffer} else {}
      ensures Valid() && streams == old(streams[1..]) && elementErrorListener == old(elementErrorListener)
      ensures old(streams[0]).destroyed && Listening(streams) == old(Listening(streams)[1..])
      ensures old(streams[0].subscribed) ==>
        escaped == None && old(streams[0]).Reported(err) &&
        Book() == AfterReports(old(Book()), err, 1, old(Bundles(streams[1..])))
      ensures !old(streams[0].subscribed) ==> escaped == Some(err) && Book() == old(Book())
    {
      var s := streams[0];
      escaped := s.Destroy(Some(err));
    }

    /** The element's `'error'` handler: deregisters itself, then destroys every stream of a snapshot
        of the live list, in order (see `FanOut`). */
    method OnElementError(err: Error) returns (escaped: Option<Error>)
      requires Valid() && elementErrorListener
      modifies this, streams, set s | s in streams && s.sourceBuffer != null :: s.sourceBuffer
      ensures Valid() && !elementErrorListener
      ensures FannedOut(old(streams), old(Listening(streams)), err, escaped, old(Book()), old(Bundles(Tail(streams))))
    {
      elementErrorListener := false;
      escaped := FanOut(err);
    }

    /** `streams.forEach(stream => stream.destroy(err))` over a snapshot of the live list. Each `destroy`
        takes its stream out of the head of the live list, so the stream the snapshot reaches next is always
        the head of what is left; the walk is written as a recursion on that. A stream whose own `'error'`
        listener is missing makes its `destroy` throw, which ends the walk. */
    method FanOut(err: Error) returns (escaped: Option<Error>)
      requires Valid()
      modifies this, streams, set s | s in streams && s.sourceBuffer != null :: s.sourceBuffer
      ensures Valid() && elementErrorListener == old(elementErrorListener)
      ensures FannedOut(old(streams), old(Listening(streams)), err, escaped, old(Book()), old(Bundles(Tail(streams))))
      decreases |streams|
    {
      if streams == [] {
        return None;
      }
      ghost var first, tail, flags, before, dump := streams[0], streams[1..], Listening(streams), Book(), Bundles(streams[1..]);
      assert streams == [first] + tail;
      escaped := DestroyFirst(err);
      if escaped.Some? {
        FannedOutAtHead(first, tail, flags, err, before, dump);
        return;
      }
      ghost var mid, dump' := Book(), Bundles(Tail(tail));
      escaped := FanOut(err);
      FannedOutStep(first, tail, flags, err, escaped, before, mid, dump, dump');
    }

    /** What the fan-out over `snapshot` leaves behind, from the ledger `before`; `listening` says which
        streams of the snapshot had their own `'error'` listener when it started. Either all of them had
        one and it got through: the live list is empty, every stream was destroyed with the error reported
        and `'close'` emitted, and each report went to `error`. Or stream `k` is the first without one:
        the ones before it were destroyed as above, it was destroyed and its `'error'` escaped,
        and the streams after it are still live. */
    predicate FannedOut(snapshot: seq<Stream>, listening: seq<bool>, err: Error, escaped: Option<Error>,
                        before: Ledger, dump: seq<Export>)
      reads this, snapshot
    {
      && |listening| == |snapshot|
      && (escaped.None? ==>
            && streams == []
            && (forall i :: 0 <= i < |snapshot| ==> listening[i] && snapshot[i].Reported(err))
            && Book() == AfterReports(before, err, |snapshot|, dump))
      && (escaped.Some? ==>
            && escaped == Some(err)
            && exists k :: 0 <= k < |snapshot| && !listening[k] && snapshot[k].destroyed &&
                           streams == snapshot[k + 1..] &&
                           (forall j :: 0 <= j < k ==> listening[j] && snapshot[j].Reported(err)) &&
                           Book() == AfterReports(before, err, k, dump))
    }

    /** The walk stops at its first stream when that stream has no `'error'` listener. */
    lemma FannedOutAtHead(first: Stream, tail: seq<Stream>, listening: seq<bool>, err: Error,
                          before: Ledger, dump: seq<Export>)
      requires |listening| == 1 + |tail| && !listening[0]
      requires first.destroyed && streams == tail && Book() == before
      ensures FannedOut([first] + tail, listening, err, Some(err), before, dump)
    {
      assert ([first] + tail)[0] == first && ([first] + tail)[1..] == tail;
    }

    /** A report by `first`, then the walk over `tail`, is the walk over `[first] + tail`. */
    lemma FannedOutStep(first: Stream, tail: seq<Stream>, listening: seq<bool>, err: Error, escaped: Option<Error>,
                        before: Ledger, mid: Ledger, dump: seq<Export>, dump': seq<Export>)
      requires |listening| == 1 + |tail| && listening[0]
      requires first.Reported(err) && mid == AfterReports(before, err, 1, dump)
      requires FannedOut(tail, listening[1..], err, escaped, mid, dump')
      ensures FannedOut([first] + tail, listening, err, escaped, before, dump)
    {
      if escaped.None? {
        ReportedStep(first, tail, listening, err, before, mid, dump, dump');
      } else {
        var k :| 0 <= k < |tail| && !listening[1..][k] && tail[k].destroyed && streams == tail[k + 1..] &&
                 (forall j :: 0 <= j < k ==> listening[1..][j] && tail[j].Reported(err)) &&
                 Book() == AfterReports(mid, err, k, dump');
        EscapedStep(first, tail, listening, err, before, mid, dump, dump', k);
      }
    }

    /** The walk that got through `tail`, after `first` reported, got through `[first] + tail`. */
    lemma ReportedStep(first: Stream, tail: seq<Stream>, listening: seq<bool>, err: Error,
                       before: Ledger, mid: Ledger, dump: seq<Export>, dump': seq<Export>)
      requires |listening| == 1 + |tail| && listening[0]
      requires first.Reported(err) && mid == AfterReports(before, err, 1, dump)
      requires forall i :: 0 <= i < |tail| ==> listening[1..][i] && tail[i].Reported(err)
      requires Book() == AfterReports(mid, err, |tail|, dump')
      ensures forall i :: 0 <= i < 1 + |tail| ==> listening[i] && ([first] + tail)[i].Reported(err)
      ensures Book() == AfterReports(before, err, 1 + |tail|, dump)
    {
      AfterReportsStep(before, err, |tail|, dump, dump');
      forall i | 0 < i < 1 + |tail| ensures listening[i] && ([first] + tail)[i].Reported(err) {
        assert listening[i] == listening[1..][i - 1] && ([first] + tail)[i] == tail[i - 1];
      }
    }

    /** The walk that stopped at stream `k` of `tail`, after `first` reported, stopped at stream `k + 1`
        of `[first] + tail`. */
    lemma EscapedStep(first: Stream, tail: seq<Stream>, listening: seq<bool>, err: Error,
                      before: Ledger, mid: Ledger, dump: seq<Export>, dump': seq<Export>, k: nat)
      requires |listening| == 1 + |tail| && listening[0]
      requires first.Reported(err) && mid == AfterReports(before, err, 1, dump)
      requires k < |tail| && !listening[1..][k] && tail[k].destroyed && streams == tail[k + 1..]
      requires forall j :: 0 <= j < k ==> listening[1..][j] && tail[j].Reported(err)
      requires Book() == AfterReports(mid, err, k, dump')
      ensures var snapshot := [first] + tail;
              !listening[k + 1] && snapshot[k + 1].destroyed && streams == snapshot[k + 2..] &&
              (forall j :: 0 <= j < k + 1 ==> listening[j] && snapshot[j].Reported(err)) &&
              Book() == AfterReports(before, err, k + 1, dump)
    {
      var snapshot := [first] + tail;
      AfterReportsStep(before, err, k, dump, dump');
      assert snapshot[k + 1] == tail[k] && snapshot[k + 2..] == tail[k + 1..] && listening[k + 1] == listening[1..][k];
      forall j | 0 < j < k + 1 ensures listening[j] && snapshot[j].Reported(err) {
        assert listening[j] == listening[1..][j - 1] && snapshot[j] == tail[j - 1];
      }
    }
  }

  /** `MediaSourceStream`: one writable stream feeding one source buffer of the wrapper's media source. */
  class Stream {
    const w: Wrapper
    /** `_bufferDuration`, copied from the wrapper. */
    const horizon: real
    /** `_type`; the empty string until the constructor assigns it. */
    var mimeType: string
    /** `_sourceBuffer`. */
    var sourceBuffer: SourceBuffer?
    /** `_debugBuffers`. */
    var debugBuffers: seq<Chunk>
    /** `_cb`. */
    var cb: Pending
    var destroyed: bool
    /** `_finished`. */
    var finished: bool
    /** `_openHandler` registered for `'sourceopen'` on the media source. */
    var openListener: bool
    /** `_flowHandler` registered for `'timeupdate'` on the element. */
    var timeupdateListener: bool
    /** `_flowHandler` and `_errorHandler` registered for `'updateend'` and `'error'` on the source buffer. */
    var bufferListeners: bool
    /** The stream's own `'error'` and `'finish'` handlers (index.js:123-136), registered last by the constructor. */
    var subscribed: bool
    /** Everything the stream emitted or reported to its writer, in order. */
    var events: seq<Notice>

    /** A deferred write exists only while no buffer is bound, an owed acknowledgement only once one is,
        and a destroyed stream listens to nothing. */
    ghost predicate Valid()
      reads this
    {
      (sourceBuffer == null ==> !cb.WriteDone? && !bufferListeners) &&
      (sourceBuffer != null ==> !cb.Retry? && !openListener) &&
      (destroyed ==> !openListener && !timeupdateListener && !bufferListeners) &&
      (!subscribed ==> cb == NoPending)
    }

    /** A stream that is not destroyed is in the live list: it joins in its constructor and only its own `destroy` removes it. */
    ghost predicate Registered()
      reads this, w
    {
      !destroyed ==> this in w.streams
    }

    /** The effects of the first `destroy(err)`. */
    twostate predicate TornDown(err: Option<Error>)
      reads this, w, w.streams, sourceBuffer
    {
      destroyed && !openListener && !timeupdateListener && !bufferListeners &&
      sourceBuffer == old(sourceBuffer) && subscribed == old(subscribed) &&
      w.streams == Remove(old(w.streams), this) &&
      (sourceBuffer != null ==> sourceBuffer.Aborted(old(w.readyState) == Open)) &&
      events == old(events) + DestroyNotices(err, subscribed) &&
      (if err.Some? && subscribed then w.RecordedError(err.value) else w.SameSession())
    }

    /** What a hand-off leaves of its predecessor: one already destroyed is untouched; a live one is
        destroyed without an error, keeps its buffer, captured chunks and pending continuation, and
        emits only `'close'`. */
    twostate predicate Retired()
      reads this
    {
      if old(destroyed) then unchanged(this)
      else
        destroyed && !openListener && !timeupdateListener && !bufferListeners &&
        sourceBuffer == old(sourceBuffer) && subscribed == old(subscribed) &&
        events == old(events) + [CloseEmitted] && Kept()
    }

    /** The fields `destroy` leaves alone. */
    twostate predicate Kept()
      reads this
    {
      mimeType == old(mimeType) && debugBuffers == old(debugBuffers) && cb == old(cb) && finished == old(finished)
    }

    /** What the element's error fan-out did to a stream it got through: destroyed, with the
        element's error reported and `'close'` emitted through the stream's own listeners. */
    predicate Reported(err: Error)
      reads this
    {
      subscribed && destroyed && |events| >= 2 && events[|events| - 2..] == [ErrorEmitted(err), CloseEmitted]
    }

    /** The first part of the constructor (index.js:73-96): fields, then joining the live list. */
    constructor (w: Wrapper)
      requires w.Valid()
      modifies w
      ensures w.Valid() && Valid() && Registered()
      ensures this.w == w && horizon == w.horizon && w.streams == old(w.streams) + [this] && w.SameSession()
      ensures mimeType == "" && sourceBuffer == null && debugBuffers == [] && cb == NoPending && events == []
      ensures !destroyed && !finished && !openListener && !timeupdateListener && !bufferListeners && !subscribed
    {
      this.w := w;
      horizon := w.horizon;
      mimeType := "";
      sourceBuffer := null;
      debugBuffers := [];
      cb := NoPending;
      destroyed, finished := false, false;
      openListener, timeupdateListener, bufferListeners, subscribed := false, false, false, false;
      events := [];
      new;
      w.streams := w.streams + [this];
    }

    /** The string branch of the constructor (index.js:99-105), then its end (index.js:121-136): bind now
        when the media source is open, otherwise wait for `'sourceopen'`. The stream's own listeners are
        not registered yet when it binds, so a type the host refuses destroys the stream and the `'error'`
        it emits throws out of the constructor. */
    method BindType(mime: string) returns (thrown: Option<Error>)
      requires w.Valid() && Valid() && Registered()
      requires !destroyed && sourceBuffer == null && cb == NoPending && debugBuffers == [] && events == []
      requires !openListener && !timeupdateListener && !bufferListeners && !subscribed && !finished
      modifies this, w
      ensures w.Valid() && Valid() && Registered() && mimeType == mime && debugBuffers == [] && events == []
      ensures !finished && cb == NoPending && (subscribed <==> thrown.None?) && (timeupdateListener <==> thrown.None?)
      ensures old(w.readyState) != Open ==>
        thrown == None && !destroyed && openListener && sourceBuffer == null && !bufferListeners && unchanged(w)
      ensures old(w.readyState) == Open && w.isTypeSupported(mime) ==>
        thrown == None && !destroyed && !openListener && bufferListeners && sourceBuffer != null &&
        fresh(sourceBuffer) && sourceBuffer.appended == [] && !sourceBuffer.updating &&
        sourceBuffer.failure == old(w.addedBufferFailure) &&
        w.streams == old(w.streams) && w.SameSession()
      ensures old(w.readyState) == Open && !w.isTypeSupported(mime) ==>
        thrown == Some(NotSupported) && destroyed && w.streams == Remove(old(w.streams), this) && w.SameSession()
    {
      mimeType := mime;
      if w.readyState == Open {
        thrown := CreateSourceBuffer();
        if thrown.Some? {
          return;
        }
      } else {
        openListener := true;
        thrown := None;
      }
      Subscribe();
    }

    /** The hand-off branch of the constructor (index.js:106-116), then its end (index.js:121-136): destroy
        the predecessor, inherit its type and, when it had one, its source buffer and captured chunks. */
    method TakeOver(p: Stream)
      requires w.Valid() && Valid() && Registered()
      requires !destroyed && sourceBuffer == null && cb == NoPending && debugBuffers == [] && events == []
      requires !openListener && !timeupdateListener && !bufferListeners && !subscribed && !finished
      requires p.w == w && p.Valid() && p.Registered() && p != this
      modifies this`mimeType, this`sourceBuffer, this`debugBuffers, this`openListener, this`bufferListeners
      modifies this`timeupdateListener, this`subscribed, p, w, p.sourceBuffer
      ensures w.Valid() && Valid() && Registered() && !destroyed && cb == NoPending && events == []
      ensures subscribed && timeupdateListener && !finished
      ensures p.destroyed && mimeType == old(p.mimeType) && sourceBuffer == old(p.sourceBuffer) && w.SameSession()
      ensures p.Valid() && p.Retired()
      ensures w.streams == if old(p.destroyed) then old(w.streams) else Remove(old(w.streams), p)
      ensures old(p.sourceBuffer) == null ==> openListener && !bufferListeners && debugBuffers == []
      ensures old(p.sourceBuffer) != null ==>
        !openListener && bufferListeners && debugBuffers == old(p.debugBuffers) &&
        sourceBuffer.Aborted(!old(p.destroyed) && old(w.readyState) == Open)
    {
      var ignored := p.Destroy(None);
      Inherit(p);
      Subscribe();
    }

    /** Copies what a destroyed predecessor leaves to its successor (index.js:108, 112-116). */
    method Inherit(p: Stream)
      requires w.Valid() && Valid() && Registered()
      requires !destroyed && sourceBuffer == null && cb == NoPending && debugBuffers == []
      requires !openListener && !timeupdateListener && !bufferListeners && !subscribed
      requires p.destroyed && p != this
      modifies this`mimeType, this`sourceBuffer, this`debugBuffers, this`openListener, this`bufferListeners
      ensures w.Valid() && Valid() && Registered()
      ensures mimeType == p.mimeType && sourceBuffer == p.sourceBuffer
      ensures p.sourceBuffer == null ==> openListener && !bufferListeners && debugBuffers == []
      ensures p.sourceBuffer != null ==> !openListener && bufferListeners && debugBuffers == p.debugBuffers
    {
      mimeType := p.mimeType;
      if p.sourceBuffer == null {
        openListener := true;
      } else {
        sourceBuffer := p.sourceBuffer;
        debugBuffers := p.debugBuffers;
        bufferListeners := true;
      }
    }

    /** The end of the constructor (index.js:121-136): the element's `'timeupdate'` listener, then the
        stream's own `'error'` and `'finish'` listeners. */
    method Subscribe()
      requires w.Valid() && Valid() && Registered() && !destroyed
      modifies this`timeupdateListener, this`subscribed
      ensures w.Valid() && Valid() && Registered() && timeupdateListener && subscribed
    {
      timeupdateListener := true;
      subscribed := true;
    }

    /** `_onSourceOpen`: the `'sourceopen'` handler. One dispatch runs every waiting stream's handler in
        turn, and an earlier handler's error path may already have ended the media source; then
        `addSourceBuffer` throws and the stream is left live, unbound and no longer listening. */
    method OnSourceOpen() returns (thrown: Option<Error>)
      requires Valid() && w.Valid() && Registered() && subscribed && (openListener || destroyed)
      modifies this, w, sourceBuffer
      ensures Valid() && w.Valid() && Registered() && subscribed == old(subscribed)
      ensures old(destroyed) ==> thrown == None && unchanged(this) && unchanged(w)
      ensures !old(destroyed) ==> !openListener && mimeType == old(mimeType)
      ensures !old(destroyed) && w.isTypeSupported(mimeType) && old(w.readyState) == Open ==> thrown == None && Bound()
      ensures !old(destroyed) && w.isTypeSupported(mimeType) && old(w.readyState) != Open ==>
        thrown == Some(InvalidState) && !destroyed && sourceBuffer == null && !bufferListeners &&
        timeupdateListener == old(timeupdateListener) && events == old(events) && Kept() && unchanged(w)
      ensures !old(destroyed) && !w.isTypeSupported(mimeType) ==>
        thrown == None && TornDown(Some(NotSupported)) && Kept()
    {
      if destroyed {
        return None;
      }
      openListener := false;
      thrown := CreateSourceBuffer();
    }

    /** The state after a supported type got its source buffer: a fresh buffer, with the append
        behaviour the host gives it, and the pending continuation called once, after being cleared. A
        replayed write the fresh buffer refuses destroys the stream with the host's exception. */
    twostate predicate Bound()
      reads this, w, w.streams, sourceBuffer
    {
      sourceBuffer != null && fresh(sourceBuffer) && sourceBuffer.buffered == [] &&
      sourceBuffer.failure == old(w.addedBufferFailure) && finished == old(finished) && mimeType == old(mimeType) &&
      match old(cb)
      case NoPending =>
        Listened() && cb == NoPending && events == old(events) && debugBuffers == old(debugBuffers) &&
        sourceBuffer.appended == [] && !sourceBuffer.updating && sourceBuffer.aborts == 0
      case WriteDone =>
        Listened() && cb == NoPending && events == old(events) + [WriteAcked] && debugBuffers == old(debugBuffers) &&
        sourceBuffer.appended == [] && !sourceBuffer.updating && sourceBuffer.aborts == 0
      case Retry(chunk) =>
        debugBuffers == old(debugBuffers) + (if old(w.debug) then [chunk] else []) &&
        match old(w.addedBufferFailure)
        case None =>
          Listened() && cb == WriteDone && events == old(events) &&
          sourceBuffer.appended == [chunk] && sourceBuffer.updating && sourceBuffer.aborts == 0
        case Some(e) =>
          destroyed && !openListener && !timeupdateListener && !bufferListeners && cb == NoPending &&
          w.streams == Remove(old(w.streams), this) && events == old(events) + [ErrorEmitted(e), CloseEmitted] &&
          w.RecordedError(e) && sourceBuffer.appended == [] && !sourceBuffer.updating && sourceBuffer.aborts == 1
    }

    /** A bound stream that is still live: listening to its buffer, the wrapper untouched. */
    twostate predicate Listened()
      reads this, w
    {
      !destroyed && bufferListeners && timeupdateListener == old(timeupdateListener) &&
      w.streams == old(w.streams) && w.SameSession()
    }

    /** `_createSourceBuffer`: bind a buffer for a supported type and replay the deferred write,
        or destroy the stream with a 'not supported' error. `addSourceBuffer` throws on a media
        source that is not open. */
    method CreateSourceBuffer() returns (escaped: Option<Error>)
      requires Valid() && w.Valid() && Registered()
      requires !openListener && (destroyed || sourceBuffer == null)
      modifies this, w, sourceBuffer
      ensures Valid() && w.Valid() && Registered() && subscribed == old(subscribed) && !openListener
      ensures old(destroyed) ==> escaped == None && unchanged(this) && unchanged(w)
      ensures !old(destroyed) && w.isTypeSupported(mimeType) && old(w.readyState) == Open ==>
        escaped == None && Bound() && KeptByBinding()
      ensures !old(destroyed) && w.isTypeSupported(mimeType) && old(w.readyState) != Open ==>
        escaped == Some(InvalidState) && unchanged(this) && unchanged(w)
      ensures !old(destroyed) && !w.isTypeSupported(mimeType) ==>
        TornDown(Some(NotSupported)) && Kept() && escaped == (if subscribed then None else Some(NotSupported))
    {
      if destroyed {
        return None;
      }
      if w.isTypeSupported(mimeType) {
        if w.readyState != Open {
          return Some(InvalidState);
        }
        sourceBuffer := new SourceBuffer(w.addedBufferFailure);
        bufferListeners := true;
        escaped := None;
        if cb != NoPending {
          var k := cb;
          cb := NoPending;
          Resume(k);
        }
      } else {
        escaped := Destroy(Some(NotSupported));
      }
    }

    /** Fields binding leaves alone besides those `Bound` speaks of. */
    twostate predicate KeptByBinding()
      reads this
    {
      subscribed == old(subscribed)
    }

    /** `destroy(err)`: idempotent. The first call leaves the live list, detaches the listeners, aborts
        the bound buffer while the media source is open, and emits `'error'` (when given) and `'close'`. */
    method Destroy(err: Option<Error>) returns (escaped: Option<Error>)
      requires Valid() && w.Valid() && Registered()
      modifies this, w, sourceBuffer
      ensures Valid() && w.Valid() && destroyed && this !in w.streams
      ensures old(destroyed) ==> escaped == None && unchanged(this) && unchanged(w)
      ensures old(destroyed) && sourceBuffer != null ==> unchanged(sourceBuffer)
      ensures !old(destroyed) ==> TornDown(err) && Kept()
      ensures !old(destroyed) ==> escaped == (if subscribed then None else err)
      ensures !old(destroyed) ==>
        |w.streams| == |old(w.streams)| - 1 && forall s :: s in w.streams <==> s in old(w.streams) && s != this
    {
      if destroyed {
        return None;
      }
      Detach();
      escaped := None;
      if err.Some? {
        escaped := EmitError(err.value);
        if escaped.Some? {
          return;
        }
      }
      events := events + [CloseEmitted];
    }

    /** The part of `destroy` before anything is emitted (index.js:148-161). */
    method Detach()
      requires Valid() && w.Valid() && Registered() && !destroyed
      modifies this, w`streams, sourceBuffer
      ensures Valid() && w.Valid() && destroyed && this !in w.streams
      ensures !openListener && !timeupdateListener && !bufferListeners
      ensures w.streams == Remove(old(w.streams), this)
      ensures |w.streams| == |old(w.streams)| - 1 && forall s :: s in w.streams <==> s in old(w.streams) && s != this
      ensures sourceBuffer == old(sourceBuffer) && subscribed == old(subscribed) && events == old(events) && Kept()
      ensures sourceBuffer != null ==> sourceBuffer.Aborted(w.readyState == Open)
    {
      destroyed := true;
      w.Unlist(this);
      openListener := false;
      timeupdateListener := false;
      if sourceBuffer != null {
        bufferListeners := false;
        if w.readyState == Open {
          sourceBuffer.Abort();
        }
      }
    }

    /** `emit('error', e)`: reaches the wrapper's `error` through the stream's own listener; with no
        listener registered yet, the emission throws `e`. */
    method EmitError(e: Error) returns (escaped: Option<Error>)
      modifies this`events, w
      ensures subscribed ==> escaped == None && events == old(events) + [ErrorEmitted(e)] && w.RecordedError(e)
      ensures !subscribed ==> escaped == Some(e) && unchanged(this) && unchanged(w)
      ensures w.streams == old(w.streams)
    {
      if subscribed {
        events := events + [ErrorEmitted(e)];
        w.Error(e);
        escaped := None;
      } else {
        escaped := Some(e);
      }
    }

    /** Calls a continuation taken out of `_cb`: a deferred write is replayed, an owed callback acknowledges. */
    method Resume(k: Pending)
      requires k != NoPending && cb == NoPending
      requires Valid() && w.Valid() && Registered() && subscribed
      requires k.Retry? ==> sourceBuffer != null
      modifies this, w, sourceBuffer
      ensures Valid() && w.Valid() && Registered() && subscribed
      ensures k.WriteDone? ==> events == old(events) + [WriteAcked] && unchanged(w)
      ensures k.WriteDone? && old(sourceBuffer) != null ==> unchanged(old(sourceBuffer))
      ensures k.WriteDone? ==> cb == NoPending && KeptByBinding() && Same()
      ensures k.Retry? ==> Written(k.chunk)
    {
      if k.Retry? {
        Write(k.chunk);
      } else {
        events := events + [WriteAcked];
      }
    }

    /** The fields an acknowledgement leaves alone. */
    twostate predicate Same()
      reads this
    {
      mimeType == old(mimeType) && sourceBuffer == old(sourceBuffer) && debugBuffers == old(debugBuffers) &&
      destroyed == old(destroyed) && finished == old(finished) && openListener == old(openListener) &&
      timeupdateListener == old(timeupdateListener) && bufferListeners == old(bufferListeners)
    }

    /** `_write(chunk)`: dropped when destroyed, deferred while unbound, refused while the buffer updates;
        otherwise the chunk is captured for debugging, then appended, and a failed append destroys the stream. */
    method Write(chunk: Chunk)
      requires Valid() && w.Valid() && Registered() && subscribed
      modifies this, w, sourceBuffer
      ensures Valid() && w.Valid() && Registered() && subscribed
      ensures Written(chunk)
    {
      if destroyed {
        return;
      }
      if sourceBuffer == null {
        cb := Retry(chunk);
        return;
      }
      if sourceBuffer.updating {
        events := events + [WriteFailed(Busy)];
        return;
      }
      if w.debug {
        debugBuffers := debugBuffers + [chunk];
      }
      var failure := sourceBuffer.AppendBuffer(chunk);
      if failure.Some? {
        var ignored := Destroy(failure);
        return;
      }
      cb := WriteDone;
    }

    /** The state after `_write(chunk)`, case by case. */
    twostate predicate Written(chunk: Chunk)
      reads this, w, w.streams, sourceBuffer
    {
      if old(destroyed) then
        unchanged(this) && unchanged(w) && (sourceBuffer != null ==> unchanged(sourceBuffer))
      else if old(sourceBuffer) == null then
        cb == Retry(chunk) && events == old(events) && Same() && unchanged(w)
      else if old(sourceBuffer.updating) then
        events == old(events) + [WriteFailed(Busy)] && cb == old(cb) && Same() && unchanged(w) &&
        unchanged(sourceBuffer)
      else
        && sourceBuffer == old(sourceBuffer) && mimeType == old(mimeType) && finished == old(finished)
        && debugBuffers == old(debugBuffers) + (if old(w.debug) then [chunk] else [])
        && if old(sourceBuffer.failure).Some? then
             TornDown(old(sourceBuffer.failure)) && cb == old(cb) && sourceBuffer.appended == old(sourceBuffer.appended)
           else
             cb == WriteDone && events == old(events) && !destroyed && unchanged(w) &&
             sourceBuffer.appended == old(sourceBuffer.appended) + [chunk] && sourceBuffer.updating &&
             sourceBuffer.buffered == old(sourceBuffer.buffered) && sourceBuffer.aborts == old(sourceBuffer.aborts) &&
             sourceBuffer.failure == old(sourceBuffer.failure) &&
             openListener == old(openListener) && timeupdateListener == old(timeupdateListener) &&
             bufferListeners == old(bufferListeners)
    }

    /** `_getBufferDuration`: the seconds buffered ahead of `currentTime` in the bound buffer. */
    method GetBufferDuration(currentTime: real) returns (d: real)
      requires sourceBuffer != null
      ensures d >= 0.0
      ensures d == BufferedTime(sourceBuffer.buffered, currentTime, EPSILON)
    {
      var buffered := sourceBuffer.buffered;
      var bufferEnd := -1.0;
      var i := 0;
      while i < |buffered|
        invariant 0 <= i <= |buffered|
        invariant ScanEnd(buffered[i..], currentTime, EPSILON, bufferEnd) == ScanEnd(buffered, currentTime, EPSILON, -1.0)
      {
        var start := buffered[i].start;
        var end := buffered[i].end + EPSILON;
        if start > currentTime {
          break;
        } else if bufferEnd >= 0.0 || currentTime <= end {
          bufferEnd := end;
        }
        assert buffered[i..][1..] == buffered[i + 1..];
        i := i + 1;
      }
      var bufferedTime := bufferEnd - currentTime;
      if bufferedTime < 0.0 {
        bufferedTime := 0.0;
      }
      d := bufferedTime;
    }

    /** Whether `_flow` gets past its gates at `currentTime`: live, bound, not updating, and, while the
        media source is open, no more than the horizon buffered ahead. */
    predicate Admits(currentTime: real)
      reads this, w, sourceBuffer
    {
      !destroyed && sourceBuffer != null && !sourceBuffer.updating &&
      (w.readyState == Open ==> BufferedTime(sourceBuffer.buffered, currentTime, EPSILON) <= horizon)
    }

    /** `_flow`: the `'timeupdate'` and `'updateend'` handler, registered by the constructor. When the
        gates admit, the pending continuation is cleared and then called; otherwise nothing changes. */
    method Flow(currentTime: real)
      requires Valid() && w.Valid() && Registered() && subscribed
      modifies this, w, sourceBuffer
      ensures Valid() && w.Valid() && Registered()
      ensures unchanged(w) && (old(sourceBuffer) != null ==> unchanged(old(sourceBuffer)))
      ensures !old(Admits(currentTime)) ==> unchanged(this)
      ensures old(Admits(currentTime)) ==>
        cb == NoPending && Same() && KeptByBinding() &&
        events == old(events) + (if old(cb).WriteDone? then [WriteAcked] else [])
    {
      if destroyed || sourceBuffer == null || sourceBuffer.updating {
        return;
      }
      if w.readyState == Open {
        var d := GetBufferDuration(currentTime);
        if d > horizon {
          return;
        }
      }
      if cb != NoPending {
        var k := cb;
        cb := NoPending;
        Resume(k);
      }
    }

    /** The `'finish'` handler: marks the stream finished and, once every stream in the live list has
        finished, dumps debug data and ends the media source. */
    method OnFinish()
      requires Valid() && w.Valid() && Registered() && subscribed && !finished
      modifies this, w
      ensures Valid() && w.Valid() && Registered() && w.streams == old(w.streams)
      ensures old(destroyed) ==> unchanged(this) && unchanged(w)
      ensures !old(destroyed) ==> finished && SameButFinished() && ErrorKept()
      ensures !old(destroyed) && w.AllFinished() ==> w.DumpedAndEnded(Normal)
      ensures !old(destroyed) && !w.AllFinished() ==> unchanged(w)
    {
      if destroyed {
        return;
      }
      finished := true;
      if w.AllFinished() {
        w.DumpDebugData();
        w.EndOfStream(Normal);
      }
    }

    /** Everything but `finished` is as before. */
    twostate predicate SameButFinished()
      reads this
    {
      mimeType == old(mimeType) && sourceBuffer == old(sourceBuffer) && debugBuffers == old(debugBuffers) &&
      cb == old(cb) && destroyed == old(destroyed) && events == old(events) && subscribed == old(subscribed) &&
      openListener == old(openListener) && timeupdateListener == old(timeupdateListener) &&
      bufferListeners == old(bufferListeners)
    }

    /** The session's recorded error is untouched. */
    twostate predicate ErrorKept()
      reads this, w
    {
      w.detailedError == old(w.detailedError)
    }

    /** `_errorHandler`, the source buffer's `'error'` handler, registered when a buffer is bound and
        removed by `destroy`: re-emits the error unless destroyed; the stream stays live. */
    method OnSourceBufferError(e: Error)
      requires Valid() && w.Valid() && Registered() && subscribed && (bufferListeners || destroyed)
      modifies this, w
      ensures Valid() && w.Valid() && Registered() && w.streams == old(w.streams)
      ensures old(destroyed) ==> unchanged(this) && unchanged(w)
      ensures !old(destroyed) ==> !destroyed && events == old(events) + [ErrorEmitted(e)] && w.RecordedError(e)
      ensures Same() && cb == old(cb)
    {
      if !destroyed {
        var escaped := EmitError(e);
      }
    }
  }
}
