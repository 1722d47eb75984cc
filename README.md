# mediasource: a verified model of the stream engine

`mediasource` lets a program write media data into an HTML media element through the browser's
Media Source Extensions. A `MediaElementWrapper` owns one `MediaSource` and its element. Each call
of `createWriteStream` returns a `MediaSourceStream`, which is a writable stream. That stream feeds
one `SourceBuffer` and holds at most one pending write callback. While the media source is open,
it releases that callback only when no more than `bufferDuration` seconds are buffered ahead of
playback. In any other ready state it releases the callback however much is buffered.

This project models that engine, which is all of `index.js`, in Dafny and proves what it promises.

- **`intervals.dfy`** (module `Intervals`) is the buffered-duration measurement as pure
  functions over exact reals:
  - `ScanEnd` is the scan; `BufferedTime` is its clamped result.
  - The slack `epsilon` is a parameter.
  - The lemmas prove when the scan stops, that the result is never negative, and that it is zero
    when no range covers the playback position.
  - For well-formed ranges (ordered, disjoint, ascending) and zero slack, they prove the result is
    exactly the covering range's remaining length. With a nonzero slack this holds when the next
    range starts after the playback position.
- **`mediasource.dfy`** (module `MediaSourceModel`) holds the two classes. `Wrapper` and `Stream`
  have the source's fields, and each event handler is a method that updates them in place.
  - The browser is abstract state: the media source's ready state, an `isTypeSupported` function,
    whether `endOfStream` is refused (the wrapper's `endOfStreamRefused`), the append outcome of the
    next buffer `addSourceBuffer` creates (`addedBufferFailure`), and, for each `SourceBuffer`, the
    `updating` flag, the reported buffered ranges and the outcome of the next `appendBuffer`.
  - What the engine emits or hands to the host is appended to logs: events, `endOfStream` calls
    and exported debug bundles.
  - An `'error'` emitted while the stream has no `'error'` listener throws in `EventEmitter`. The
    model returns that error as an `escaped` out-parameter.
  - The shared live list `_streams` is a `seq<Stream>`. `push` appends to it. `splice(indexOf(s), 1)`
    is the function `Remove`, proved equal to that splice, including the `indexOf == -1` case.
  - The element's error handler walks a copy of the live list, and each `destroy` takes its stream
    out of the live list. The stream the copy reaches next is therefore always the head of what is
    left, so `Wrapper.FanOut` is written as a recursion on the live list. Its outcome is stated over
    a `Ledger`: a value summary of the wrapper's error-path state (ready state, the two host flags,
    `detailedError`, `_debug`, exports, `endOfStream` calls).
- **`scenarios.dfy`** (module `Scenarios`) drives whole sessions through the classes and proves
  their outcomes:
  - back-pressure;
  - a write deferred until the media source opens;
  - a hand-off before open, and two hand-offs from the same bound stream;
  - first-error-wins with a single debug dump;
  - a replayed write that the new buffer refuses;
  - an `endOfStream` the host refuses;
  - the finding below.

Behaviour of the code that a reader of its comments and API might not expect, and that the model
states as written:

- **A destroyed predecessor is accepted.** A predecessor that is already destroyed is not
  refused. With no buffer, `obj.destroy()` does nothing and the new stream inherits its type
  (index.js:106-109). `Wrapper.CreateFrom` allows this case.
- **A handed-over buffer can be aborted.** The predecessor's `destroy` runs before its buffer
  moves to the successor, and it calls `abort` on that buffer when the media source is open
  (index.js:111, 155-160). `Stream.TakeOver` and `Wrapper.HandedOver` state this abort.
- **A stream destroyed with an error is not in the dump that error triggers.** `destroy(err)` takes
  the stream out of the live list before it emits `'error'` (index.js:151, 163), so
  `Wrapper.DestroyFirst` exports `Bundles(streams[1..])`. An error from the source buffer
  (index.js:92-96) is emitted without `destroy`, so that stream stays listed and is in the dump.
  `Scenarios.FirstErrorWins` exports both streams.
- **A shared `'sourceopen'` dispatch can strand a stream.** Every waiting stream's handler runs in
  turn (index.js:104, 139-144). When an earlier handler's error path ends the media source, through
  an unsupported type (index.js:180) or a replayed write the new buffer refuses (index.js:210), a
  later stream of supported type has its listener removed (index.js:142). Then `addSourceBuffer`
  throws (index.js:171), and the stream stays live and unbound for good.
  `Scenarios.StrandedAfterEnd` shows this. An unsupported type is destroyed whatever the ready state.
- **The scan never joins ranges ahead of playback.** The comment at index.js:239-240 speaks of
  joining sections separated by slight gaps. But the loop stops at the first range that starts after
  `currentTime` (index.js:245-247). So only ranges that start at or before the playback position are
  ever joined. Take the ranges [0, 5] and [5.001, 20] at time 3: the result is 2, not about 17. With
  `EPSILON` = 0 and ordered, disjoint ranges, the continuation test `bufferEnd >= 0` on index.js:248
  never decides anything. `Intervals.StopsAtLaterStart` and `Intervals.CoveringRangeExact` state
  the result as written.

## Model

| member | source | states |
|---|---|---|
| Intervals.ScanEnd | index.js:241-252 | the loop as a recursion on the ranges: stop at the first range that starts after `currentTime`; otherwise a range extends the run when the run has begun or the range reaches `currentTime` |
| Intervals.ScanEndSource | index.js:241-252 | the loop's final `bufferEnd` is its start value or the end, plus slack, of a range that starts no later than `currentTime` |
| Intervals.BufferedTime | index.js:254-259 | the buffered duration is never negative |
| Intervals.ScanUncovered | index.js:241-252 | before a run has begun, ranges that do not cover the playback position leave the running end unset |
| Intervals.ZeroWhenUncovered | index.js:235-260 | when no range covers `currentTime` (with slack), the duration is 0 |
| Intervals.ScanStops | index.js:245-247 | the scan ignores every range after the first one that starts past `currentTime` |
| Intervals.StopsAtLaterStart | index.js:241-247 | the duration equals the duration over the ranges before the first one that starts past `currentTime` |
| Intervals.ScanSplit | index.js:241-252 | scanning a prefix of ranges that start no later than `currentTime`, then the rest, equals scanning the whole list |
| Intervals.CoveringRun | index.js:241-259 | on well-formed ranges, if range k covers the position and the next range starts after it, the duration is range k's end plus slack minus `currentTime` |
| Intervals.CoveringRangeExact | index.js:235-260 | with zero slack on well-formed ranges, the duration is the remaining length of the range containing `currentTime` |
| Intervals.PositiveIffInside | index.js:235-260 | with zero slack, data is buffered ahead exactly when some range contains `currentTime` strictly before its end (both directions) |
| MediaSourceModel.Horizon | index.js:7-14 | the horizon is never 0; it is the option when that is given and nonzero, and 60 seconds otherwise |
| MediaSourceModel.FirstError | index.js:44-47 | a recorded error is never overwritten; with none recorded, the new error is kept |
| MediaSourceModel.RecordedStays | index.js:43-47 | once an error is recorded, any later sequence of errors leaves it in place |
| MediaSourceModel.FirstErrorWins | index.js:43-47 | after any non-empty sequence of `error` calls, `detailedError` is the first error |
| MediaSourceModel.IndexOf | index.js:151 | `indexOf` returns -1 or a valid position |
| MediaSourceModel.IndexOfFirst | index.js:151 | `indexOf` returns the first position holding the element, and -1 exactly when the element is absent |
| MediaSourceModel.Remove | index.js:151 | removing a present element shortens the list by one; for an absent element `splice(-1, 1)` drops the last element |
| MediaSourceModel.RemoveSplices | index.js:151 | `Remove` equals `splice(indexOf(x), 1)`, the slices around the reported index |
| MediaSourceModel.RemoveCounts | index.js:151 | removing a present element takes out exactly one occurrence of it (multiset difference) |
| MediaSourceModel.RemoveDistinct | index.js:151 | on a list without repetitions, the result has no repetitions, lacks `x`, and keeps every other element |
| MediaSourceModel.RemoveAfterAppend | index.js:81 | a stream pushed after another stream's removal point does not change what that removal removes |
| MediaSourceModel.RemoveAppended | index.js:81 | removing a stream just pushed onto a list that lacked it gives the old list back |
| MediaSourceModel.AfterReportsStep | index.js:43-51 | n+1 successive `error` calls equal one call followed by n more: the later calls only add `endOfStream('decode')` |
| MediaSourceModel.SourceBuffer.constructor | index.js:171 | a buffer added for a supported type is idle, empty and never aborted; whether its appends throw is the host's choice, passed in |
| MediaSourceModel.SourceBuffer.AppendBuffer | index.js:203-205 | `appendBuffer` either throws the host's failure and changes nothing, or records the chunk and starts an update |
| MediaSourceModel.SourceBuffer.Abort | index.js:159 | `abort` ends any update and is counted |
| MediaSourceModel.Wrapper.constructor | index.js:13-27 | a new session: the given debug flag, the horizon from the options, an empty live list, no recorded error, the element's error listener registered |
| MediaSourceModel.Wrapper.DumpDebugData | index.js:62-69 | with the debug flag set, exports each live stream's chunks tagged with its position, and clears the flag; without it, exports nothing |
| MediaSourceModel.AfterEndOfStream | index.js:50-51 | the media source is ended afterwards exactly when it already was, or was open and the host accepted the call; otherwise the ready state is unchanged |
| MediaSourceModel.Wrapper.EndOfStream | index.js:132-134 | `endOfStream` is logged; an open media source becomes ended unless the host refuses the call; a refusal is swallowed and changes nothing else |
| MediaSourceModel.Wrapper.Error | index.js:43-57 | keeps the first error, makes the one-shot debug dump, logs `endOfStream('decode')`, and leaves the live list unchanged |
| MediaSourceModel.Wrapper.Unlist | index.js:151 | the live list becomes `Remove(old, s)`: still without repetitions, one shorter, exactly `s` gone |
| MediaSourceModel.Wrapper.CreateWriteStream | index.js:81-119 | as written: a string or a previous stream gives the constructor's outcome; any other argument throws, but the fresh, unfinished, unsubscribed stream stays at the end of the live list |
| MediaSourceModel.Wrapper.CreateWriteStreamChecked | index.js:98-119 | corrected: an invalid argument throws and changes nothing; the other cases are as written |
| MediaSourceModel.Wrapper.CreateTyped | index.js:98-105 | a string argument binds at once when the media source is open and the type is supported, and waits for `'sourceopen'` when it is closed; an unsupported type while open throws 'not supported' and leaves the live list unchanged |
| MediaSourceModel.Wrapper.CreateFrom | index.js:106-116 | hand-off: the predecessor is destroyed and out of the list, and the successor is last in the list with the predecessor's type, buffer and captured chunks; the moved buffer is aborted when the media source was open; a predecessor already destroyed is left untouched, a live one has its listeners detached and emits only `'close'` |
| MediaSourceModel.Wrapper.DestroyFirst | index.js:24 | destroying the head of the live list: with its error listener, it reports the error (first error kept, one dump of the remaining streams, `endOfStream('decode')`); without one, the error escapes and the session is unchanged |
| MediaSourceModel.Wrapper.OnElementError | index.js:20-26 | runs only while the element's error listener is registered; removes it and fans out `destroy(err)` over the snapshot, with the outcome `FannedOut` |
| MediaSourceModel.Wrapper.FanOut | index.js:22-25 | if every stream in the snapshot had a listener: all destroyed with error and close, the live list empty, and the session after n reports; otherwise the walk stops at the first stream without a listener, the error escapes, and the later streams stay live |
| MediaSourceModel.Wrapper.FannedOutAtHead | index.js:23-25 | a walk whose first stream has no listener stops there |
| MediaSourceModel.Wrapper.FannedOutStep | index.js:23-25 | one report followed by the walk over the rest is the walk over the whole snapshot |
| MediaSourceModel.Wrapper.ReportedStep | index.js:23-25 | a complete walk over the rest, after one report, is a complete walk over the whole snapshot |
| MediaSourceModel.Wrapper.EscapedStep | index.js:23-25 | a walk over the rest that stopped at index k, after one report, is a walk over the whole that stopped at k+1 |
| MediaSourceModel.Stream.constructor | index.js:73-96 | a stream starts untyped, unbound, with nothing pending and no listeners, and is pushed onto the end of the live list |
| MediaSourceModel.Stream.BindType | index.js:98-105 | open and supported: a fresh idle buffer is bound, then the stream subscribes; closed: it waits for `'sourceopen'`; open and unsupported: it is destroyed before subscribing, so 'not supported' is thrown |
| MediaSourceModel.Stream.TakeOver | index.js:106-116 | the predecessor is destroyed, the type, buffer and chunks are inherited, and the stream subscribes; the live list loses the predecessor unless it was already destroyed; the predecessor stays valid, untouched if it was destroyed, otherwise with its listeners detached, its buffer, chunks and continuation kept, and only `'close'` emitted |
| MediaSourceModel.Stream.Inherit | index.js:108-116 | an unbound predecessor passes on its type and the stream listens for `'sourceopen'`; a bound one passes on its type, buffer and chunks, and the stream listens to that buffer |
| MediaSourceModel.Stream.Subscribe | index.js:121-136 | the `'timeupdate'` listener and the stream's own `'error'`/`'finish'` listeners are registered |
| MediaSourceModel.Stream.OnSourceOpen | index.js:139-144 | runs only while the stream listens for `'sourceopen'` or is destroyed. On a destroyed stream nothing changes. Otherwise the open listener goes, then: supported type with the media source still open, the buffer is bound (`Bound`, including a replayed write the new buffer refuses); supported type with the media source no longer open, `addSourceBuffer` throws and the stream stays live and unbound; unsupported type, the stream is torn down with 'not supported' whatever the ready state |
| MediaSourceModel.Stream.CreateSourceBuffer | index.js:167-182 | supported type: a fresh buffer with the host's append outcome is bound, and the pending continuation is cleared and called once. An owed acknowledgement is delivered. A deferred write is appended, or, when the new buffer refuses it, the stream is destroyed with the host's exception and the session records it. Supported type on a media source that is not open: `addSourceBuffer` throws and nothing changes. Unsupported type, in any ready state: destroy with 'not supported' |
| MediaSourceModel.Stream.Destroy | index.js:146-165 | idempotent: a second call changes nothing. The first call removes the stream from the live list exactly once, detaches its listeners, aborts the buffer only if one is bound and the source is open, reports the given error to the session, and emits `'close'`; without an error listener, the error escapes before `'close'` |
| MediaSourceModel.Stream.Detach | index.js:147-161 | marks the stream destroyed, performs the list splice, detaches the listeners, and aborts only when bound and open; nothing is emitted yet |
| MediaSourceModel.Stream.EmitError | index.js:123-125 | with the stream's listener, the error is logged and goes to the session's `error`; without it, the error escapes and nothing changes |
| MediaSourceModel.Stream.Resume | index.js:187-190 | calling the continuation: a deferred write is replayed as `_write(chunk)`; an owed callback acknowledges the write |
| MediaSourceModel.Stream.Write | index.js:184-214 | destroyed: no-op; unbound: one deferred write is stored and nothing is appended; updating: fails Busy without destroying; the chunk is captured only in debug mode and before the append; a failed append destroys the stream with the host's error and stores no callback; a successful append stores the callback |
| MediaSourceModel.Stream.GetBufferDuration | index.js:235-260 | the loop returns `BufferedTime` of the buffer's ranges, which is never negative |
| MediaSourceModel.Stream.Flow | index.js:216-233 | when destroyed, unbound, updating, or open with more than the horizon buffered: nothing changes; otherwise `_cb` is cleared and called exactly once (an owed acknowledgement is delivered) |
| MediaSourceModel.Stream.Admits | index.js:217-226 | the gate of `_flow`: live, bound, not updating, and, only while the media source is open, no more than the horizon buffered ahead |
| MediaSourceModel.Wrapper.AllFinished | index.js:130 | the `every` test: each stream still in the live list has finished |
| MediaSourceModel.Stream.OnFinish | index.js:127-136 | called once per stream; on a destroyed stream nothing changes; otherwise the stream is marked finished, and only when every stream still in the live list is finished, the debug dump runs and `endOfStream()` is called |
| MediaSourceModel.Stream.OnSourceBufferError | index.js:92-96 | called only while the buffer's listener is attached or after `destroy`: a buffer error on a live stream is re-emitted and reaches the session's `error`, and the stream stays live; on a destroyed stream nothing changes |
| Scenarios.Backpressure | index.js:216-226 | with a 10 s horizon and 15 s buffered from 0, the append is not acknowledged at position 0 but is acknowledged at position 6 |
| Scenarios.DeferredWrite | index.js:167-191 | a write before `'sourceopen'` is held as the deferred continuation while no buffer is bound; after open, the chunk is appended once and the callback is owed |
| Scenarios.HandOffBeforeOpen | index.js:106-109 | after a hand-off from an unbound stream, one stream is live with the old type, the predecessor is gone and never gets a buffer, and the successor binds on open |
| Scenarios.HandOffTwice | index.js:110-116 | two hand-offs from the same bound stream: the second finds it destroyed, and both successors stay live with one shared source buffer |
| Scenarios.FirstErrorWins | index.js:43-69 | after buffer errors on two bound streams: the first error is recorded, there is one dump of both streams, two `endOfStream('decode')` calls, and the media source is ended |
| Scenarios.RefusedReplay | index.js:174-177 | a deferred write replayed into a new buffer that refuses appends destroys the stream; the live list is empty, the host's error is recorded, and `endOfStream('decode')` is called once |
| Scenarios.StrandedAfterEnd | index.js:139-144 | one `'sourceopen'` dispatch to two waiting streams: the first one's unsupported type ends the media source, so the second one's `addSourceBuffer` throws and that stream stays live, unbound and deaf to `'sourceopen'` |
| Scenarios.RefusedEnd | index.js:130-134 | when the host refuses `endOfStream`, finishing the only stream still makes the call, and the media source stays open |
| Scenarios.BadArgumentBlocksEnd | index.js:127-136 | as written: after an invalid argument, finishing the only real stream ends nothing, because the leftover stream stays in the list |
| Scenarios.CheckedArgumentEnds | index.js:117-119 | corrected: the same session ends the media source once |
| Scenarios.BadArgumentThrowsInFanOut | index.js:20-26 | as written: an element error reaches the real stream and then throws at the leftover stream |

## Left out

- `downloadBuffers` (index.js:266-271) is DOM and Blob I/O. An export is recorded as a bundle of the stream's position and its captured chunks.
- Object URL creation and revocation, `new MediaSource()`, and the capability check (index.js:5, 11, 16, 29, 53-56) are host plumbing. The wrapper's constructor always succeeds.
- Real `MediaSource`/`SourceBuffer` behaviour is host state that the environment sets: decoding, when an update completes, what `buffered` reports, and whether `appendBuffer` throws. `addSourceBuffer` is taken to succeed for a supported type while the media source is open. On a media source that is not open it throws `InvalidState`.
- The `readable-stream` `Writable` base class is not modelled. The handlers are called directly, and `Write`, `Flow`, `OnFinish`, `OnSourceOpen` and `OnSourceBufferError` require a constructed (subscribed) stream, because their listeners exist only then. `OnSourceBufferError` also requires the buffer's listener to be attached, or the stream to be destroyed. `OnFinish` requires a stream not yet finished, because `Writable` emits `'finish'` once. `Wrapper.OnElementError` requires the element's `'error'` listener, which it removes first (index.js:21), so the element error fans out at most once.
- `EventEmitter` is modelled only as listener flags, an event log, and the throw of an unhandled `'error'`.
- The `encoding` argument of `_write` and the byte-slice copy (index.js:198) are not modelled. Chunks are opaque token sequences.
- Times are exact reals, not IEEE doubles.
- The closure stored by a deferred write has an error branch, `if (err) return cb(err)` (index.js:188). It is not modelled: the engine always calls `_cb` without an argument (index.js:177, 231).
- The element's error value (index.js:24) is a parameter. A missing `elem.error`, which would make `destroy` skip the `'error'` emission, is not modelled.
- The successor and its predecessor share one `_debugBuffers` array (index.js:114); the model copies the value. A destroyed predecessor never writes, but after two hand-offs from the same bound stream (`Scenarios.HandOffTwice`) two live streams share the array in the source. Chunks one of them captures then also appear in the other's exported bundle. The model does not capture this: each successor's captured chunks are its own.
- Whether the host refuses `endOfStream` is the flag `endOfStreamRefused`, set by the environment. The model does not derive it from the buffers' `updating` flags.
- `error()` with a falsy argument (index.js:43-47) is not modelled. The `Error` type has no falsy value, so `FirstError` always keeps the first recorded error.
- MediaSourceModel.Wrapper.FanOut: for each stream it got through, it states only that the stream is destroyed with `'error'` and `'close'` as its last two events. The full per-stream effect of `destroy` (listeners detached, buffer aborted) is not carried over from `Stream.Destroy`.
- MediaSourceModel.Wrapper.OnElementError: weaker in the same way as `FanOut`, whose outcome it states.

## Findings

| source | as written | input that shows it | evidently intended | confidence | as-written member | corrected member |
|---|---|---|---|---|---|---|
| index.js:81-119 | the constructor pushes the new stream onto the shared list (line 81) before it checks the argument; it then throws (line 118) without removing the stream | `createWriteStream(42)` with a media source that is not open, then one real stream that finishes | an invalid argument throws without registering a stream, so the finish handler's `every` check and the element error fan-out see only real streams | not executed; high for the leftover entry, medium that it was not intended | MediaSourceModel.Wrapper.CreateWriteStream, Scenarios.BadArgumentBlocksEnd, Scenarios.BadArgumentThrowsInFanOut | MediaSourceModel.Wrapper.CreateWriteStreamChecked, Scenarios.CheckedArgumentEnds |
