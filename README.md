# pull-plex channel, modelled in Dafny

pull-plex multiplexes many duplex pull-streams over one connection. This
project models one stream of that multiplexer, the `Channel` of
`src/channel.js`. A channel has a local side and a remote side:

- Its `sink` consumes a local source. It wraps every data item in a message
  frame and ends or resets the stream when the source does.
- The multiplexer delivers the remote peer's data through `push`. The remote
  side's end arrives through `close` or `reset`.
- Every frame the channel produces is an entry `[id, type, data]` on the
  multiplexer's shared outbound queue. The NEW frame announces the stream,
  and it is sent lazily, before the first message.

The model has two layers.

- `ChannelSpec` is the channel's state machine as pure functions. Each
  operation maps the mutable fields (`_open`, `_endedLocal`, `_endedRemote`,
  `_reset`, the inbound queue and the events emitted so far) to their new
  values, together with the frames pushed, in order.
- `Channels.Channel` is the object itself. It is a class whose methods
  update these fields in place and push onto a shared `Plex` queue. Each
  method that has a `ChannelSpec` counterpart is proved to do exactly what
  that function says, and every method keeps the channel's invariant. The
  `open` setter, the sink loop's single turn (`Turn`) and the queue's own
  `Push` are specified directly.

`ChannelProps` proves what the channel promises about the state machine, for
single calls and for whole runs of operations (`ChannelSpec.Run`):

- `close` acts once.
- `reset` records its reason.
- The NEW frame is pushed at most once, and before anything else.
- Frame tags follow the initiator flag.
- The end flags never revert.
- The sink sends the source's data in order and reacts to each kind of end.

JavaScript values the channel stores in its flags are reduced to
`Falsy | True | Error(reason)` (module `JsValues`). `||` and `&&` are
modelled by `Or` and `And`.

## Model

| member | source | states |
|---|---|---|
| JsValues.Or | src/channel.js:117 | `a \|\| b` is truthy iff either operand is, and it is one of the two operands |
| JsValues.And | src/channel.js:105 | `a && b` is truthy iff both operands are, and it is one of the two operands |
| Frames.ConvertedName | src/channel.js:134-137 | the local `name` is a Buffer of the name's bytes iff the name is a non-empty string, and `undefined` otherwise |
| Frames.NewPayload | src/channel.js:143 | the `name !== id.toString() ? name : null` slot is always the converted name and is never `null` |
| Frames.Decimal | src/channel.js:143 | `id.toString()` as bytes: non-empty ASCII digits that read back as the id, with no leading zero unless the id is 0 |
| Frames.TagsFollowInitiator | src/channel.js:159-161 | message, close and reset tags are the IN_ variants exactly for the initiator, and the OUT_ ones otherwise |
| Frames.DefaultNameIsSent | src/channel.js:134-143 | a name equal to the decimal string of the channel's id is still sent as a Buffer, because a Buffer is never identical to a string |
| Frames.BufferNameIsDropped | src/channel.js:134-143 | a name given as a Buffer is never converted, so the NEW frame's data slot is `undefined` |
| ChannelSpec.Destroyed | src/channel.js:104-106 | `destroyed` is truthy iff both the remote and the local end flags are |
| ChannelSpec.Push | src/channel.js:108-111 | `push(data)` appends the data to the inbound queue; its properties are in `ChannelProps.StepKeepsInv` and `ChannelProps.StepKeepsEnds` |
| ChannelSpec.Close | src/channel.js:114-121 | `close(err)`; its properties are in `ChannelProps.CloseOnce` and `ChannelProps.CloseKeepsInv` |
| ChannelSpec.Reset | src/channel.js:123-127 | `reset(err)`; its properties are in `ChannelProps.ResetRecordsReason` and `ChannelProps.ResetKeepsInv` |
| ChannelSpec.OpenChan | src/channel.js:129-145 | `openChan()`; its properties are in `ChannelProps.OpenChanOnce` and `ChannelProps.NewSentOnce` |
| ChannelSpec.SendMsg | src/channel.js:147-164 | `sendMsg(data)`; its properties are in `ChannelProps.SendMsgFrames`, `ChannelProps.SendMsgAnnounces` and `ChannelProps.SendsInOrder` |
| ChannelSpec.EndChan | src/channel.js:166-180 | `endChan()`; its properties are in `ChannelProps.EndAndResetChanFrames` |
| ChannelSpec.ResetChan | src/channel.js:182-195 | `resetChan()`; its properties are in `ChannelProps.EndAndResetChanFrames` |
| ChannelSpec.Next | src/channel.js:54-78 | the sink's `next(end, data)`; its properties are in `ChannelProps.NextKeepsInv`, `ChannelProps.NextTagged`, `ChannelProps.NextAnnounces` and `ChannelProps.NextSendsData` |
| ChannelSpec.Sink | src/channel.js:53-81 | `sink(read)` over a finite source; its properties are in `ChannelProps.SinkSendsData`, `ChannelProps.SinkCleanEnd`, `ChannelProps.SinkErrorEnd`, `ChannelProps.SinkAfterReset`, `ChannelProps.SinkAfterLocalEnd` and the `Sink*` invariant lemmas |
| ChannelProps.InitialState | src/channel.js:15-27 | a new channel satisfies the invariant, is not destroyed, and keeps the given `open` |
| ChannelProps.CloseOnce | src/channel.js:114-121 | the first `close(err)` sets the remote end to `err \|\| true`, ends the inbound queue with it and emits one close event carrying `err`; later calls change nothing |
| ChannelProps.ResetRecordsReason | src/channel.js:123-127 | `reset(err)` records `err \|\| 'channel reset!'`, a truthy value, and closes with it; on a channel whose remote side has already ended, only the reason changes; a second reset only overwrites the reason |
| ChannelProps.OpenChanOnce | src/channel.js:129-145 | `openChan` on an open channel does nothing; otherwise it sets `open` and pushes one NEW frame with the channel's id and name payload; a second call does nothing |
| ChannelProps.SendMsgFrames | src/channel.js:147-164 | `sendMsg` leaves the channel open and pushes a NEW frame only when it was closed, then one message frame with the data; the data is the only message payload pushed |
| ChannelProps.EndAndResetChanFrames | src/channel.js:166-195 | `endChan` and `resetChan` change no state; on an unopened channel they push nothing; otherwise they push one close frame with payload `[0]`, or one reset frame with no payload |
| ChannelProps.SentPayloads | src/channel.js:147-164 | the frames of repeated `sendMsg` calls carry exactly the given items as message payloads, in order |
| ChannelProps.SendsInOrder | src/channel.js:147-164 | a run of one `sendMsg` per item leaves the channel open (if there was an item) and pushes one NEW frame first if it was not open, then one message frame per item, in order |
| ChannelProps.NextSendsData | src/channel.js:75-77 | before an end or reset, one data answer opens the channel, pushes what `sendMsg` pushes and reads again |
| ChannelProps.SinkAfterReads | src/channel.js:77-80 | after answers that each made the sink read again, the sink's whole run is those answers' frames followed by the run on the rest of the source |
| ChannelProps.SinkStops | src/channel.js:53-81 | when the loop stops, either at an answer that did not read again or at the end of the source, what it did is the whole sink run |
| ChannelProps.SinkSendsData | src/channel.js:75-77 | until an end or reset is seen, every data answer becomes one `sendMsg` in source order, and the sink reads on |
| ChannelProps.SinkCleanEnd | src/channel.js:60-65 | data items followed by a `true` end: the items are sent in order, the local end becomes `true`, one close frame follows if the channel is open, and nothing after the end is read |
| ChannelProps.SinkErrorEnd | src/channel.js:66-73 | data items followed by an error end: the items are sent in order, then one reset frame if open; an error event carries the source's error; the reason becomes `'channel reset!'`; the remote side is closed with it unless already ended; the channel ends destroyed |
| ChannelProps.SinkAfterReset | src/channel.js:68-73 | after a reset, the next data answer is not sent; a reset frame goes out if open, the error event carries the recorded reason, that reason is replaced by the default, and the local end stays false, so the channel is not destroyed |
| ChannelProps.SinkAfterLocalEnd | src/channel.js:57-58 | once the local side has ended, the sink pushes nothing and changes nothing |
| ChannelProps.CloseKeepsInv | src/channel.js:114-121 | `close` establishes the invariant: the inbound queue is ended exactly when the remote side is, with the same value, after exactly one close event |
| ChannelProps.ResetKeepsInv | src/channel.js:123-127 | `reset` keeps the invariant, including that a recorded reset implies the remote side has ended |
| ChannelProps.NextKeepsInv | src/channel.js:54-78 | one `next` callback keeps the invariant |
| ChannelProps.SinkKeepsInv | src/channel.js:53-81 | a whole sink run keeps the invariant |
| ChannelProps.StepKeepsInv | src/channel.js:108-195 | every public operation keeps the invariant |
| ChannelProps.NextTagged | src/channel.js:54-78 | every frame one `next` pushes carries the channel's id and a tag matching its initiator flag |
| ChannelProps.SinkTagged | src/channel.js:53-81 | the same for a whole sink run |
| ChannelProps.StepTagged | src/channel.js:129-195 | the same for every public operation |
| ChannelProps.AnnouncesCompose | src/channel.js:129-145 | the NEW-frame discipline holds for two operations in sequence when it holds for each |
| ChannelProps.SendMsgAnnounces | src/channel.js:147-152 | `sendMsg` on an unopened channel pushes exactly one NEW frame, first; on an open one, none |
| ChannelProps.NextAnnounces | src/channel.js:54-78 | one `next` callback keeps the NEW-frame discipline |
| ChannelProps.SinkAnnounces | src/channel.js:53-81 | a whole sink run keeps the NEW-frame discipline |
| ChannelProps.StepAnnounces | src/channel.js:129-195 | every public operation keeps the NEW-frame discipline |
| ChannelProps.SinkKeepsEnds | src/channel.js:57-60 | a sink run never changes an end flag that is already set |
| ChannelProps.StepKeepsEnds | src/channel.js:53-127 | no operation changes an end flag once set, and a destroyed channel stays destroyed; only `close`, `reset` and `sink` move an end flag |
| ChannelProps.RunFacts | src/channel.js:108-195 | any run of operations keeps the invariant, tags every frame correctly, follows the NEW-frame discipline and never reverts an end flag |
| ChannelProps.NewSentOnce | src/channel.js:129-145 | from a fresh unopened channel, a run pushes one NEW frame, first, exactly when the channel ends up open; from an open one it pushes none |
| ChannelProps.EndsNeedTheirOperations | src/channel.js:53-127 | the local end is set only in a run that contains a sink call; the remote end is set only in a run that contains a close, reset or sink call |
| Channels.Plex.Push | src/channel.js:140-144 | the frame is appended to the multiplexer's outbound queue |
| Channels.Channel.constructor | src/channel.js:15-27 | id, name and queue are as given; `initiator` defaults to false; both end flags and the reset start false; the inbound queue and event list start empty |
| Channels.Channel.SetOpen | src/channel.js:96-98 | the `open` setter changes `_open` and nothing else |
| Channels.Channel.Destroyed | src/channel.js:104-106 | truthy iff both end flags are truthy |
| Channels.Channel.Push | src/channel.js:108-111 | the data is appended to the inbound queue |
| Channels.Channel.Close | src/channel.js:114-121 | the new state is `ChannelSpec.Close` of the old one, and the invariant holds after it |
| Channels.Channel.Reset | src/channel.js:123-127 | the new state is `ChannelSpec.Reset` of the old one, and the invariant is kept |
| Channels.Channel.OpenChan | src/channel.js:129-145 | state and outbound queue change as `ChannelSpec.OpenChan` says |
| Channels.Channel.SendMsg | src/channel.js:147-164 | state and outbound queue change as `ChannelSpec.SendMsg` says |
| Channels.Channel.EndChan | src/channel.js:166-180 | state unchanged; the outbound queue grows as `ChannelSpec.EndChan` says |
| Channels.Channel.ResetChan | src/channel.js:182-195 | state unchanged; the outbound queue grows as `ChannelSpec.ResetChan` says |
| Channels.Channel.Next | src/channel.js:54-78 | state and outbound queue change as `ChannelSpec.Next` says, and `more` is whether it reads again |
| Channels.Channel.Turn | src/channel.js:76-77 | one turn of the sink loop moves the loop's progress forward by one answer |
| Channels.Channel.Sink | src/channel.js:53-81 | the loop leaves state and outbound queue as `ChannelSpec.Sink` says, which the lemmas above characterise |

## Left out

- Channels.Channel.Push: requires that the inbound queue has not been ended. What pull-pushable does with a push after its end is not modelled. `ChannelSpec.Push` and `ChannelSpec.Apply` carry the same requirement.
- Channels.Channel.Close: requires only the inbound part of the invariant. `reset` calls it after recording a reason but before closing, so the full invariant may not hold at that point.
- The pull-pushable inbound queue is reduced to what was pushed and the value it was ended with. Its consumer side, the `source` getter, and the way it hands data to a reader are left out.
- The on-close callback of the inbound queue (src/channel.js:43-49) emits `error` asynchronously, via `setImmediate`, when the consumer ends the queue with an error. This depends on the consumer's reads and the event loop, so it is not modelled.
- Events are recorded in order in `events`. The EventEmitter machinery is not modelled. In particular, Node throws when `error` is emitted with no listener; the model assumes a listener is attached.
- Debug logging (`_log` and the `debug` module) has no effect on state and is left out.
- `sink` is modelled over a finite sequence of source answers. Each answer is delivered synchronously, so a sink run is one atomic step. Interleavings of asynchronous callbacks with other operations are not modelled, and neither are infinite sources.
- `Buffer.from` conversions are reduced to byte sequences. A string name is held as its UTF-8 bytes. Message data is taken to be bytes already.
- The numeric values of the frame types (`src/consts.js`) are not modelled; the types are abstract tags.
- The `open` setter is modelled (`Channels.Channel.SetOpen`) but is not among the operations of `ChannelSpec.Run`. Setting `open` back to false would allow a second NEW frame.
- The multiplexer, the codec and the rest of the repository are not part of this model.
- Line 143 compares the converted name, a Buffer or `undefined`, with a string using `!==`. A name equal to the id's decimal string therefore is still sent. The model follows the code as written (`Frames.DefaultNameIsSent`), not the apparent intent of omitting a default name.
