/**
 * The per-stream channel of the multiplexer as a pure state machine. Each
 * operation maps the channel's mutable state to its new state together with
 * the frames it pushes, in order, onto the multiplexer's outbound queue.
 */
module ChannelSpec {
  import opened JsValues
  import opened Frames

  /** What `reset()` records when it is given no reason. */
  const DefaultResetReason: Value := Error("channel reset!")

  /** The fields fixed at construction: `_id`, `_name` and `_initiator`. */
  datatype Config = Config(id: nat, name: Name, initiator: bool)

  /** An event the channel emits, in emission order. */
  datatype Event = CloseEvent(err: Value) | ErrorEvent(err: Value)

  /**
   * The mutable fields: `_open`, `_endedLocal`, `_endedRemote`, `_reset`, and
   * the inbound queue `_msgs` as the payloads pushed so far plus the value it
   * was ended with, if any.
   */
  datatype State = State(
    open: bool,
    endedLocal: Value,
    endedRemote: Value,
    resetReason: Value,
    inbound: seq<Bytes>,
    inboundEnd: Option<Value>,
    events: seq<Event>)

  /** The state after an operation and the frames it pushed. */
  datatype Outcome = Outcome(state: State, frames: seq<Frame>)

  /** One answer of the local source to `read(null, next)`: the arguments of `next(end, data)`. */
  datatype Read = Read(end: Value, data: Bytes)

  /** One run of `next`: its outcome, and whether it asked the source for more. */
  datatype Step = Step(outcome: Outcome, more: bool)

  /** Frames pushed first, followed by whatever `o` pushed. */
  function After(frames: seq<Frame>, o: Outcome): Outcome {
    Outcome(o.state, frames + o.frames)
  }

  /** The state the constructor leaves, with `open` as given by the options. */
  function Initial(open: bool): State {
    State(open, Falsy, Falsy, Falsy, [], None, [])
  }

  /** `destroyed`: `_endedRemote && _endedLocal`. */
  function Destroyed(s: State): (r: Value)
    ensures Truthy(r) <==> Truthy(s.endedRemote) && Truthy(s.endedLocal)
  {
    And(s.endedRemote, s.endedLocal)
  }

  /** `push(data)`: enqueue inbound data. */
  function Push(s: State, data: Bytes): State
    requires s.inboundEnd.None?
  {
    s.(inbound := s.inbound + [data])
  }

  /** `close(err)`: end the inbound side once. */
  function Close(s: State, err: Value): State {
    if Truthy(s.endedRemote) then s
    else
      var ended := Or(err, True);
      s.(endedRemote := ended, inboundEnd := Some(ended), events := s.events + [CloseEvent(err)])
  }

  /** `reset(err)`: record the reason, then close with it. */
  function Reset(s: State, err: Value): State {
    var reason := Or(err, DefaultResetReason);
    Close(s.(resetReason := reason), reason)
  }

  function NewFrame(c: Config): Frame {
    Frame(c.id, New, NewPayload(c.id, c.name))
  }

  function MessageFrame(c: Config, data: Bytes): Frame {
    Frame(c.id, MessageKind(c.initiator), Buffer(data))
  }

  function CloseFrame(c: Config): Frame {
    Frame(c.id, CloseKind(c.initiator), Buffer([0]))
  }

  function ResetFrame(c: Config): Frame {
    Frame(c.id, ResetKind(c.initiator), Undefined)
  }

  /** `openChan()`: announce the channel unless it is already open. */
  function OpenChan(c: Config, s: State): Outcome {
    if s.open then Outcome(s, [])
    else Outcome(s.(open := true), [NewFrame(c)])
  }

  /** `sendMsg(data)`: open lazily, then push one message frame. */
  function SendMsg(c: Config, s: State, data: Bytes): Outcome {
    var o := if !s.open then OpenChan(c, s) else Outcome(s, []);
    Outcome(o.state, o.frames + [MessageFrame(c, data)])
  }

  /** `endChan()`: push a close frame on an open channel. */
  function EndChan(c: Config, s: State): Outcome {
    if !s.open then Outcome(s, [])
    else Outcome(s, [CloseFrame(c)])
  }

  /** `resetChan()`: push a reset frame on an open channel. */
  function ResetChan(c: Config, s: State): Outcome {
    if !s.open then Outcome(s, [])
    else Outcome(s, [ResetFrame(c)])
  }

  /** The sink's callback `next(end, data)`. */
  function Next(c: Config, s: State, r: Read): Step {
    if Truthy(s.endedLocal) then Step(Outcome(s, []), false)
    else
      var s1 := s.(endedLocal := Or(r.end, Falsy));
      if r.end == True then Step(EndChan(c, s1), false)
      else if Truthy(r.end) || Truthy(s1.resetReason) then
        var o := ResetChan(c, s1);
        var s2 := o.state.(events := o.state.events + [ErrorEvent(Or(r.end, s1.resetReason))]);
        Step(Outcome(Reset(s2, Falsy), o.frames), false)
      else Step(SendMsg(c, s1, r.data), true)
  }

  /**
   * `sink(read)` fed by a finite source: the callbacks `next` receives, in
   * order. It stops when `next` returns without reading again, or when the
   * source has no further answer.
   */
  function Sink(c: Config, s: State, source: seq<Read>): Outcome
    decreases |source|
  {
    if source == [] then Outcome(s, [])
    else
      var step := Next(c, s, source[0]);
      if step.more then After(step.outcome.frames, Sink(c, step.outcome.state, source[1..]))
      else step.outcome
  }

  /** The public operations of a channel; the `open` setter is not among them. */
  datatype Op =
    | PushCall(data: Bytes)
    | CloseCall(err: Value)
    | ResetCall(err: Value)
    | OpenChanCall
    | SendMsgCall(data: Bytes)
    | EndChanCall
    | ResetChanCall
    | SinkCall(source: seq<Read>)

  function Apply(c: Config, s: State, op: Op): Outcome
    requires op.PushCall? ==> s.inboundEnd.None?
  {
    match op
    case PushCall(data) => Outcome(Push(s, data), [])
    case CloseCall(err) => Outcome(Close(s, err), [])
    case ResetCall(err) => Outcome(Reset(s, err), [])
    case OpenChanCall => OpenChan(c, s)
    case SendMsgCall(data) => SendMsg(c, s, data)
    case EndChanCall => EndChan(c, s)
    case ResetChanCall => ResetChan(c, s)
    case SinkCall(source) => Sink(c, s, source)
  }

  /** Every push in `ops` happens before the inbound queue is ended. */
  predicate Feasible(c: Config, s: State, ops: seq<Op>)
    decreases |ops|
  {
    ops == [] ||
    ((ops[0].PushCall? ==> s.inboundEnd.None?) && Feasible(c, Apply(c, s, ops[0]).state, ops[1..]))
  }

  /** A sequence of operations applied in order, with all the frames they push. */
  function Run(c: Config, s: State, ops: seq<Op>): Outcome
    requires Feasible(c, s, ops)
    decreases |ops|
  {
    if ops == [] then Outcome(s, [])
    else
      var o := Apply(c, s, ops[0]);
      After(o.frames, Run(c, o.state, ops[1..]))
  }

  function CloseCount(events: seq<Event>): nat {
    if events == [] then 0
    else (if events[0].CloseEvent? then 1 else 0) + CloseCount(events[1..])
  }

  /**
   * The inbound side's invariant: the inbound queue is ended exactly when the
   * remote side is, and with the same value; exactly one `close` event has
   * been emitted once the remote side has ended, none before.
   */
  predicate InboundInv(s: State) {
    (s.inboundEnd.Some? <==> Truthy(s.endedRemote)) &&
    (s.inboundEnd.Some? ==> s.inboundEnd.value == s.endedRemote) &&
    CloseCount(s.events) == (if Truthy(s.endedRemote) then 1 else 0)
  }

  /** The channel's invariant: the inbound side's, and a recorded reset implies the remote side has ended. */
  predicate Inv(s: State) {
    InboundInv(s) && (Truthy(s.resetReason) ==> Truthy(s.endedRemote))
  }

  function CountNew(frames: seq<Frame>): nat {
    if frames == [] then 0
    else (if frames[0].kind.New? then 1 else 0) + CountNew(frames[1..])
  }

  /**
   * How NEW frames follow `open`: a channel that was open pushes no NEW and
   * stays open; one that was not stays silent while it stays unopened, and once
   * open has pushed exactly one NEW, ahead of every other frame.
   */
  predicate Announces(wasOpen: bool, o: Outcome) {
    if wasOpen then o.state.open && CountNew(o.frames) == 0
    else if o.state.open then o.frames != [] && o.frames[0].kind.New? && CountNew(o.frames) == 1
    else o.frames == []
  }

  /** Every frame carries the channel's id, and every tag but NEW names the channel's side. */
  predicate Tagged(c: Config, frames: seq<Frame>) {
    forall i :: 0 <= i < |frames| ==>
      frames[i].id == c.id && (frames[i].kind.New? || InitiatorTag(frames[i].kind) == c.initiator)
  }

  /** The payloads of the message frames, in order. */
  function MessagePayloads(frames: seq<Frame>): seq<Bytes> {
    if frames == [] then []
    else
      (if IsMessage(frames[0].kind) && frames[0].payload.Buffer? then [frames[0].payload.bytes] else [])
      + MessagePayloads(frames[1..])
  }

  /** The reads a source answers with for the data items `items`, before its end. */
  function DataReads(items: seq<Bytes>): seq<Read> {
    if items == [] then [] else [Read(Falsy, items[0])] + DataReads(items[1..])
  }

  /** The frames `sendMsg` pushes for `items`, in order, starting from `open`. */
  function SentFrames(c: Config, open: bool, items: seq<Bytes>): seq<Frame> {
    (if !open && items != [] then [NewFrame(c)] else []) + MessageFrames(c, items)
  }

  function MessageFrames(c: Config, items: seq<Bytes>): seq<Frame> {
    if items == [] then [] else [MessageFrame(c, items[0])] + MessageFrames(c, items[1..])
  }

  /** One `sendMsg` call per item, in order. */
  function SendCalls(items: seq<Bytes>): seq<Op> {
    if items == [] then [] else [SendMsgCall(items[0])] + SendCalls(items[1..])
  }

  /** Once set, an end flag keeps its value. */
  predicate KeepsEnds(s: State, t: State) {
    (Truthy(s.endedRemote) ==> t.endedRemote == s.endedRemote) &&
    (Truthy(s.endedLocal) ==> t.endedLocal == s.endedLocal)
  }
}
