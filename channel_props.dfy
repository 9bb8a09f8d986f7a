/** What the channel's operations promise, proved about the pure state machine. */
module ChannelProps {
  import opened JsValues
  import opened Frames
  import opened ChannelSpec

  // ---------------------------------------------------------------------------
  // The operations one at a time

  /**
   * The first `close(err)` ends the remote side with `err`, or `true` when
   * `err` is falsy, ends the inbound queue with that value and emits one
   * `close` event carrying `err`; every later call changes nothing.
   */
  lemma CloseOnce(s: State, err: Value, later: Value)
    ensures var ended := Or(err, True);
      !Truthy(s.endedRemote) ==>
        Close(s, err) == s.(endedRemote := ended, inboundEnd := Some(ended), events := s.events + [CloseEvent(err)])
    ensures Truthy(s.endedRemote) ==> Close(s, err) == s
    ensures Truthy(Close(s, err).endedRemote)
    ensures Close(Close(s, err), later) == Close(s, err)
  {
  }

  /**
   * `reset(err)` records `err`, or the default reason, and closes with it; on a
   * channel whose remote side has ended it only overwrites the reason.
   */
  lemma ResetRecordsReason(s: State, err: Value, later: Value)
    ensures var reason := Or(err, DefaultResetReason);
      Truthy(reason) &&
      (Truthy(s.endedRemote) ==> Reset(s, err) == s.(resetReason := reason)) &&
      (!Truthy(s.endedRemote) ==>
        Reset(s, err) == s.(resetReason := reason, endedRemote := reason, inboundEnd := Some(reason),
                            events := s.events + [CloseEvent(reason)]))
    ensures Reset(Reset(s, err), later) == Reset(s, err).(resetReason := Or(later, DefaultResetReason))
  {
  }

  /**
   * `openChan` on an open channel does nothing; otherwise it opens the channel
   * and pushes one NEW frame with its id. A second call adds nothing.
   */
  lemma OpenChanOnce(c: Config, s: State)
    ensures var o := OpenChan(c, s);
      o.state.open &&
      (s.open ==> o == Outcome(s, [])) &&
      (!s.open ==> o.state == s.(open := true) && o.frames == [Frame(c.id, New, NewPayload(c.id, c.name))]) &&
      OpenChan(c, o.state) == Outcome(o.state, [])
  {
  }

  /**
   * `sendMsg(data)` leaves the channel open, pushes one NEW first when it was
   * unopened, and then exactly one message frame with `data`, tagged by the
   * initiator flag.
   */
  lemma SendMsgFrames(c: Config, s: State, data: Bytes)
    ensures var o := SendMsg(c, s, data);
      o.state == s.(open := true) &&
      o.frames == (if s.open then [] else [NewFrame(c)]) + [Frame(c.id, MessageKind(c.initiator), Buffer(data))] &&
      MessagePayloads(o.frames) == [data]
  {
    var m := Frame(c.id, MessageKind(c.initiator), Buffer(data));
    assert [m][1..] == [];
    MessagePayloadsConcat(if s.open then [] else [NewFrame(c)], [m]);
  }

  /**
   * `endChan` and `resetChan` push nothing on an unopened channel and one
   * frame tagged by the initiator flag on an open one: a close frame with the
   * single byte 0, or a reset frame with no payload. Neither changes state.
   */
  lemma EndAndResetChanFrames(c: Config, s: State)
    ensures EndChan(c, s) == Outcome(s, if s.open then [Frame(c.id, CloseKind(c.initiator), Buffer([0]))] else [])
    ensures ResetChan(c, s) == Outcome(s, if s.open then [Frame(c.id, ResetKind(c.initiator), Undefined)] else [])
  {
  }

  /** A fresh channel keeps the invariant and is not destroyed. */
  lemma InitialState(open: bool)
    ensures Inv(Initial(open)) && !Truthy(Destroyed(Initial(open)))
    ensures Initial(open).open == open
  {
  }

  // ---------------------------------------------------------------------------
  // Helpers on sequences

  lemma {:induction false} CloseCountAppend(events: seq<Event>, e: Event)
    ensures CloseCount(events + [e]) == CloseCount(events) + (if e.CloseEvent? then 1 else 0)
  {
    if events != [] {
      assert (events + [e])[1..] == events[1..] + [e];
      CloseCountAppend(events[1..], e);
    }
  }

  lemma {:induction false} CountNewConcat(a: seq<Frame>, b: seq<Frame>)
    ensures CountNew(a + b) == CountNew(a) + CountNew(b)
  {
    if a == [] {
      assert a + b == b;
    } else {
      assert (a + b)[1..] == a[1..] + b;
      CountNewConcat(a[1..], b);
    }
  }

  lemma {:induction false} MessagePayloadsConcat(a: seq<Frame>, b: seq<Frame>)
    ensures MessagePayloads(a + b) == MessagePayloads(a) + MessagePayloads(b)
  {
    if a == [] {
      assert a + b == b;
    } else {
      assert (a + b)[1..] == a[1..] + b;
      MessagePayloadsConcat(a[1..], b);
    }
  }

  lemma TaggedConcat(c: Config, a: seq<Frame>, b: seq<Frame>)
    requires Tagged(c, a) && Tagged(c, b)
    ensures Tagged(c, a + b)
  {
    forall i | 0 <= i < |a + b|
      ensures (a + b)[i].id == c.id && ((a + b)[i].kind.New? || InitiatorTag((a + b)[i].kind) == c.initiator)
    {
      if i < |a| {
        assert (a + b)[i] == a[i];
      } else {
        assert (a + b)[i] == b[i - |a|];
      }
    }
  }

  lemma {:induction false} MessageFramesFacts(c: Config, items: seq<Bytes>)
    ensures MessagePayloads(MessageFrames(c, items)) == items
    ensures CountNew(MessageFrames(c, items)) == 0
    decreases |items|
  {
    if items != [] {
      MessageFramesFacts(c, items[1..]);
      var all := MessageFrames(c, items);
      assert all[0] == MessageFrame(c, items[0]);
      assert all[1..] == MessageFrames(c, items[1..]);
    }
  }

  /** The message payloads of the frames sent for `items` are `items`, in order. */
  lemma SentPayloads(c: Config, open: bool, items: seq<Bytes>)
    ensures MessagePayloads(SentFrames(c, open, items)) == items
  {
    var opening := if !open && items != [] then [NewFrame(c)] else [];
    MessageFramesFacts(c, items);
    MessagePayloadsConcat(opening, MessageFrames(c, items));
    assert MessagePayloads(opening) == [];
  }

  /**
   * `sendMsg` called once per item pushes exactly `SentFrames`: one NEW frame
   * first if the channel was not open, then the items' message frames in order.
   */
  lemma {:induction false} SendsInOrder(c: Config, s: State, items: seq<Bytes>)
    ensures Feasible(c, s, SendCalls(items))
    ensures Run(c, s, SendCalls(items)) == Outcome(s.(open := s.open || items != []), SentFrames(c, s.open, items))
    decreases |items|
  {
    var ops := SendCalls(items);
    if items == [] {
      assert s.(open := s.open) == s;
    } else {
      var s1 := s.(open := true);
      assert ops[0] == SendMsgCall(items[0]) && ops[1..] == SendCalls(items[1..]);
      SendMsgFrames(c, s, items[0]);
      assert MessageFrames(c, [items[0]]) == [MessageFrame(c, items[0])];
      SendsInOrder(c, s1, items[1..]);
      SentFramesSplit(c, s.open, items);
      AfterAfter(SentFrames(c, s.open, [items[0]]), SentFrames(c, true, items[1..]), Outcome(s1, []));
    }
  }

  // ---------------------------------------------------------------------------
  // The sink loop

  /** The sink runs `next` on the first answer and goes on only if `next` read again. */
  lemma SinkFirst(c: Config, s: State, source: seq<Read>)
    requires source != []
    ensures var step := Next(c, s, source[0]);
      Sink(c, s, source)
        == if step.more then After(step.outcome.frames, Sink(c, step.outcome.state, source[1..])) else step.outcome
  {
  }

  lemma AfterAfter(a: seq<Frame>, b: seq<Frame>, o: Outcome)
    ensures After(a, After(b, o)) == After(a + b, o)
  {
    assert a + (b + o.frames) == (a + b) + o.frames;
  }

  /** The first `i` answers of `source` run through `next` one after another. */
  function ReadsUpTo(c: Config, s: State, source: seq<Read>, i: nat): Outcome
    requires i <= |source|
  {
    if i == 0 then Outcome(s, [])
    else
      var o := ReadsUpTo(c, s, source, i - 1);
      After(o.frames, Next(c, o.state, source[i - 1]).outcome)
  }

  /** Each of the first `i` answers made `next` read again. */
  predicate ReadAgain(c: Config, s: State, source: seq<Read>, i: nat)
    requires i <= |source|
  {
    i == 0 || (ReadAgain(c, s, source, i - 1) && Next(c, ReadsUpTo(c, s, source, i - 1).state, source[i - 1]).more)
  }

  /**
   * Where the sink loop stands after the answers before `i`: each of them read
   * again and together they left `o`, or (when `reading` is false) the answer
   * at `i` stopped the loop, leaving `o`.
   */
  predicate Progress(c: Config, s: State, source: seq<Read>, i: nat, reading: bool, o: Outcome) {
    i <= |source| && ReadAgain(c, s, source, i) &&
    if reading then ReadsUpTo(c, s, source, i) == o
    else
      i < |source| &&
      var before := ReadsUpTo(c, s, source, i);
      var step := Next(c, before.state, source[i]);
      !step.more && o == After(before.frames, step.outcome)
  }

  /** One turn of the sink loop: `next` on the answer at `i`. */
  lemma ReadStep(c: Config, s: State, source: seq<Read>, i: nat, o: Outcome)
    requires i < |source| && Progress(c, s, source, i, true, o)
    ensures var step := Next(c, o.state, source[i]);
      Progress(c, s, source, if step.more then i + 1 else i, step.more, After(o.frames, step.outcome))
  {
  }

  /** After `i` answers that each read again, the sink goes on from where they left it. */
  lemma {:induction false} SinkAfterReads(c: Config, s: State, source: seq<Read>, i: nat)
    requires i <= |source| && ReadAgain(c, s, source, i)
    ensures var o := ReadsUpTo(c, s, source, i);
      Sink(c, s, source) == After(o.frames, Sink(c, o.state, source[i..]))
  {
    if i == 0 {
      assert source[0..] == source;
      assert [] + Sink(c, s, source).frames == Sink(c, s, source).frames;
    } else {
      SinkAfterReads(c, s, source, i - 1);
      var o := ReadsUpTo(c, s, source, i - 1);
      var step := Next(c, o.state, source[i - 1]);
      SinkFirst(c, o.state, source[i - 1..]);
      assert source[i - 1..][0] == source[i - 1] && source[i - 1..][1..] == source[i..];
      AfterAfter(o.frames, step.outcome.frames, Sink(c, step.outcome.state, source[i..]));
    }
  }

  /** The sink's whole run, once its loop has stopped. */
  lemma SinkStops(c: Config, s: State, source: seq<Read>, i: nat, reading: bool, o: Outcome)
    requires Progress(c, s, source, i, reading, o) && (reading ==> i == |source|)
    ensures Sink(c, s, source) == o
  {
    SinkAfterReads(c, s, source, i);
    var before := ReadsUpTo(c, s, source, i);
    if reading {
      assert source[i..] == [];
      assert before.frames + [] == before.frames;
    } else {
      SinkFirst(c, before.state, source[i..]);
      assert source[i..][0] == source[i];
    }
  }

  /** One data answer, before any end or reset: exactly one `sendMsg`, and the sink reads again. */
  lemma NextSendsData(c: Config, s: State, data: Bytes)
    requires !Truthy(s.endedLocal) && !Truthy(s.resetReason)
    ensures Next(c, s, Read(Falsy, data)) == Step(Outcome(s.(open := true), SentFrames(c, s.open, [data])), true)
  {
    assert s.(endedLocal := Or(Falsy, Falsy)) == s;
    assert MessageFrames(c, [data]) == [MessageFrame(c, data)];
  }

  lemma SinkUnfold(c: Config, s: State, r: Read, rest: seq<Read>)
    requires Next(c, s, r).more
    ensures Sink(c, s, [r] + rest) == After(Next(c, s, r).outcome.frames, Sink(c, Next(c, s, r).outcome.state, rest))
  {
    assert ([r] + rest)[0] == r;
    assert ([r] + rest)[1..] == rest;
  }

  lemma SentFramesSplit(c: Config, open: bool, items: seq<Bytes>)
    requires items != []
    ensures SentFrames(c, open, items) == SentFrames(c, open, [items[0]]) + SentFrames(c, true, items[1..])
  {
    assert MessageFrames(c, [items[0]]) == [MessageFrame(c, items[0])];
  }

  /**
   * While the local side has not ended and no reset is recorded, every data
   * item the source answers with becomes one `sendMsg`, in source order.
   */
  lemma {:induction false} SinkSendsData(c: Config, s: State, items: seq<Bytes>, rest: seq<Read>)
    requires !Truthy(s.endedLocal) && !Truthy(s.resetReason)
    ensures Sink(c, s, DataReads(items) + rest)
         == After(SentFrames(c, s.open, items), Sink(c, s.(open := s.open || items != []), rest))
    decreases |items|
  {
    if items == [] {
      assert DataReads(items) + rest == rest;
      assert s.(open := s.open) == s;
      var o := Sink(c, s, rest);
      assert [] + o.frames == o.frames;
    } else {
      var r := Read(Falsy, items[0]);
      var tail := DataReads(items[1..]) + rest;
      assert DataReads(items) + rest == [r] + tail;
      var s1 := s.(open := true);
      NextSendsData(c, s, items[0]);
      SinkUnfold(c, s, r, tail);
      SinkSendsData(c, s1, items[1..], rest);
      SentFramesSplit(c, s.open, items);
      AfterAfter(SentFrames(c, s.open, [items[0]]), SentFrames(c, true, items[1..]), Sink(c, s1, rest));
    }
  }

  /**
   * A source of data items followed by a clean end: the items are sent in
   * order, `endedLocal` becomes `true`, one close frame follows if the channel
   * is open, and whatever the source would answer afterwards is never read.
   */
  lemma SinkCleanEnd(c: Config, s: State, items: seq<Bytes>, data: Bytes, rest: seq<Read>)
    requires !Truthy(s.endedLocal) && !Truthy(s.resetReason)
    ensures var o := Sink(c, s, DataReads(items) + [Read(True, data)] + rest);
      var nowOpen := s.open || items != [];
      o.state == s.(open := nowOpen, endedLocal := True) &&
      o.frames == SentFrames(c, s.open, items) + (if nowOpen then [CloseFrame(c)] else []) &&
      MessagePayloads(o.frames) == items
  {
    var tail := [Read(True, data)] + rest;
    assert DataReads(items) + [Read(True, data)] + rest == DataReads(items) + tail;
    SinkSendsData(c, s, items, tail);
    var s1 := s.(open := s.open || items != []);
    assert tail[0] == Read(True, data);
    assert Sink(c, s1, tail) == EndChan(c, s1.(endedLocal := True));
    SentPayloads(c, s.open, items);
    MessagePayloadsConcat(SentFrames(c, s.open, items), if s1.open then [CloseFrame(c)] else []);
  }

  /**
   * A source of data items followed by an error: the items are sent in order,
   * then one reset frame if the channel is open; the `error` event carries the
   * source's error, the default reason replaces `_reset`, and the channel is
   * closed with it unless its remote side had already ended. It ends destroyed.
   */
  lemma SinkErrorEnd(c: Config, s: State, items: seq<Bytes>, reason: string, data: Bytes, rest: seq<Read>)
    requires !Truthy(s.endedLocal) && !Truthy(s.resetReason)
    ensures var o := Sink(c, s, DataReads(items) + [Read(Error(reason), data)] + rest);
      var nowOpen := s.open || items != [];
      o.frames == SentFrames(c, s.open, items) + (if nowOpen then [ResetFrame(c)] else []) &&
      o.state.open == nowOpen && o.state.inbound == s.inbound &&
      o.state.endedLocal == Error(reason) &&
      o.state.resetReason == DefaultResetReason &&
      o.state.endedRemote == Or(s.endedRemote, DefaultResetReason) &&
      o.state.inboundEnd == (if Truthy(s.endedRemote) then s.inboundEnd else Some(DefaultResetReason)) &&
      o.state.events == s.events + [ErrorEvent(Error(reason))]
                        + (if Truthy(s.endedRemote) then [] else [CloseEvent(DefaultResetReason)]) &&
      Truthy(Destroyed(o.state))
  {
    var tail := [Read(Error(reason), data)] + rest;
    assert DataReads(items) + [Read(Error(reason), data)] + rest == DataReads(items) + tail;
    SinkSendsData(c, s, items, tail);
    assert tail[0] == Read(Error(reason), data);
  }

  /**
   * A reset recorded before the sink reads anything: the first data answer is
   * not sent; instead one reset frame goes out if the channel is open, the
   * `error` event carries the recorded reason, and the reason is replaced by
   * the default. `endedLocal` stays false, so the channel is not destroyed.
   */
  lemma SinkAfterReset(c: Config, s: State, data: Bytes, rest: seq<Read>)
    requires Inv(s) && !Truthy(s.endedLocal) && Truthy(s.resetReason)
    ensures var o := Sink(c, s, [Read(Falsy, data)] + rest);
      o.frames == (if s.open then [ResetFrame(c)] else []) &&
      o.state == s.(resetReason := DefaultResetReason, events := s.events + [ErrorEvent(s.resetReason)]) &&
      !Truthy(Destroyed(o.state))
  {
    var src := [Read(Falsy, data)] + rest;
    assert src[0] == Read(Falsy, data);
  }

  /** Once the local side has ended, the sink pushes nothing and changes nothing. */
  lemma SinkAfterLocalEnd(c: Config, s: State, source: seq<Read>)
    requires Truthy(s.endedLocal)
    ensures Sink(c, s, source) == Outcome(s, [])
  {
  }

  // ---------------------------------------------------------------------------
  // Invariants of every operation

  lemma CloseKeepsInv(s: State, err: Value)
    requires InboundInv(s)
    ensures Inv(Close(s, err))
  {
    CloseCountAppend(s.events, CloseEvent(err));
  }

  lemma ResetKeepsInv(s: State, err: Value)
    requires Inv(s)
    ensures Inv(Reset(s, err))
  {
    CloseKeepsInv(s.(resetReason := Or(err, DefaultResetReason)), Or(err, DefaultResetReason));
  }

  lemma NextKeepsInv(c: Config, s: State, r: Read)
    requires Inv(s)
    ensures Inv(Next(c, s, r).outcome.state)
  {
    if !Truthy(s.endedLocal) && r.end != True && (Truthy(r.end) || Truthy(s.resetReason)) {
      var s1 := s.(endedLocal := Or(r.end, Falsy));
      var e := ErrorEvent(Or(r.end, s1.resetReason));
      CloseCountAppend(s1.events, e);
      ResetKeepsInv(s1.(events := s1.events + [e]), Falsy);
    }
  }

  lemma {:induction false} SinkKeepsInv(c: Config, s: State, source: seq<Read>)
    requires Inv(s)
    ensures Inv(Sink(c, s, source).state)
    decreases |source|
  {
    if source != [] {
      NextKeepsInv(c, s, source[0]);
      var step := Next(c, s, source[0]);
      if step.more {
        SinkKeepsInv(c, step.outcome.state, source[1..]);
      }
    }
  }

  /** Every operation keeps the channel's invariant. */
  lemma StepKeepsInv(c: Config, s: State, op: Op)
    requires Inv(s) && (op.PushCall? ==> s.inboundEnd.None?)
    ensures Inv(Apply(c, s, op).state)
  {
    match op
    case CloseCall(err) => CloseKeepsInv(s, err);
    case ResetCall(err) => ResetKeepsInv(s, err);
    case SinkCall(source) => SinkKeepsInv(c, s, source);
    case _ =>
  }

  lemma NextTagged(c: Config, s: State, r: Read)
    ensures Tagged(c, Next(c, s, r).outcome.frames)
  {
  }

  lemma {:induction false} SinkTagged(c: Config, s: State, source: seq<Read>)
    ensures Tagged(c, Sink(c, s, source).frames)
    decreases |source|
  {
    if source != [] {
      NextTagged(c, s, source[0]);
      var step := Next(c, s, source[0]);
      if step.more {
        SinkTagged(c, step.outcome.state, source[1..]);
        TaggedConcat(c, step.outcome.frames, Sink(c, step.outcome.state, source[1..]).frames);
      }
    }
  }

  /**
   * Direction rule: every frame an operation pushes carries the channel's id,
   * and every tag other than NEW is an `IN_*` tag exactly when the channel is
   * the initiator.
   */
  lemma StepTagged(c: Config, s: State, op: Op)
    requires op.PushCall? ==> s.inboundEnd.None?
    ensures Tagged(c, Apply(c, s, op).frames)
  {
    if op.SinkCall? {
      SinkTagged(c, s, op.source);
    }
  }

  lemma AnnouncesCompose(wasOpen: bool, first: Outcome, second: Outcome)
    requires Announces(wasOpen, first) && Announces(first.state.open, second)
    ensures Announces(wasOpen, After(first.frames, second))
  {
    CountNewConcat(first.frames, second.frames);
    if !wasOpen && first.frames == [] {
      assert first.frames + second.frames == second.frames;
    }
  }

  lemma SendMsgAnnounces(c: Config, s: State, data: Bytes)
    ensures Announces(s.open, SendMsg(c, s, data))
  {
    var m := MessageFrame(c, data);
    assert [m][1..] == [];
    CountNewConcat([NewFrame(c)], [m]);
  }

  lemma NextAnnounces(c: Config, s: State, r: Read)
    ensures Announces(s.open, Next(c, s, r).outcome)
  {
    SendMsgAnnounces(c, s.(endedLocal := Or(r.end, Falsy)), r.data);
  }

  lemma {:induction false} SinkAnnounces(c: Config, s: State, source: seq<Read>)
    ensures Announces(s.open, Sink(c, s, source))
    decreases |source|
  {
    if source != [] {
      NextAnnounces(c, s, source[0]);
      var step := Next(c, s, source[0]);
      if step.more {
        SinkAnnounces(c, step.outcome.state, source[1..]);
        AnnouncesCompose(s.open, step.outcome, Sink(c, step.outcome.state, source[1..]));
      }
    }
  }

  /**
   * NEW discipline: an open channel pushes no NEW; an unopened one pushes
   * nothing unless it opens, and then exactly one NEW ahead of everything else.
   */
  lemma StepAnnounces(c: Config, s: State, op: Op)
    requires op.PushCall? ==> s.inboundEnd.None?
    ensures Announces(s.open, Apply(c, s, op))
  {
    if op.SinkCall? {
      SinkAnnounces(c, s, op.source);
    } else if op.SendMsgCall? {
      SendMsgAnnounces(c, s, op.data);
    }
  }

  lemma {:induction false} SinkKeepsEnds(c: Config, s: State, source: seq<Read>)
    ensures KeepsEnds(s, Sink(c, s, source).state)
    decreases |source|
  {
    if source != [] {
      var step := Next(c, s, source[0]);
      if step.more {
        SinkKeepsEnds(c, step.outcome.state, source[1..]);
      }
    }
  }

  /**
   * End flags are set at most once: once truthy, neither changes again, so a
   * destroyed channel stays destroyed. Only `close`, `reset` and the sink touch
   * them at all.
   */
  lemma StepKeepsEnds(c: Config, s: State, op: Op)
    requires op.PushCall? ==> s.inboundEnd.None?
    ensures var t := Apply(c, s, op).state;
      KeepsEnds(s, t) &&
      (Truthy(Destroyed(s)) ==> Truthy(Destroyed(t))) &&
      (!(op.CloseCall? || op.ResetCall? || op.SinkCall?) ==>
        t.endedLocal == s.endedLocal && t.endedRemote == s.endedRemote)
  {
    if op.SinkCall? {
      SinkKeepsEnds(c, s, op.source);
    }
  }

  // ---------------------------------------------------------------------------
  // Whole runs

  /**
   * Over any sequence of operations: the invariant holds throughout, every
   * frame follows the direction rule, NEW is pushed at most once and first,
   * and the end flags are never overwritten.
   */
  lemma {:induction false} RunFacts(c: Config, s: State, ops: seq<Op>)
    requires Inv(s) && Feasible(c, s, ops)
    ensures var o := Run(c, s, ops);
      Inv(o.state) && Tagged(c, o.frames) && Announces(s.open, o) && KeepsEnds(s, o.state)
    decreases |ops|
  {
    if ops == [] {
    } else {
      var first := Apply(c, s, ops[0]);
      StepKeepsInv(c, s, ops[0]);
      StepTagged(c, s, ops[0]);
      StepAnnounces(c, s, ops[0]);
      StepKeepsEnds(c, s, ops[0]);
      RunFacts(c, first.state, ops[1..]);
      var rest := Run(c, first.state, ops[1..]);
      TaggedConcat(c, first.frames, rest.frames);
      AnnouncesCompose(s.open, first, rest);
    }
  }

  /**
   * A channel created by the application, unopened, pushes exactly one NEW
   * once it is open and none before, and that NEW precedes all its other frames;
   * one created open pushes none.
   */
  lemma NewSentOnce(c: Config, open: bool, ops: seq<Op>)
    requires Feasible(c, Initial(open), ops)
    ensures var o := Run(c, Initial(open), ops);
      CountNew(o.frames) == (if !open && o.state.open then 1 else 0) &&
      (!open && o.frames != [] ==> o.frames[0].kind.New?)
  {
    RunFacts(c, Initial(open), ops);
  }

  /**
   * Only the sink ends the local side, and only `close`, `reset` or the sink
   * ends the remote side; so a channel is destroyed only after both happened.
   */
  lemma {:induction false} EndsNeedTheirOperations(c: Config, s: State, ops: seq<Op>)
    requires Feasible(c, s, ops)
    ensures var t := Run(c, s, ops).state;
      (!Truthy(s.endedLocal) && Truthy(t.endedLocal) ==> exists i :: 0 <= i < |ops| && ops[i].SinkCall?) &&
      (!Truthy(s.endedRemote) && Truthy(t.endedRemote) ==>
        exists i :: 0 <= i < |ops| && (ops[i].CloseCall? || ops[i].ResetCall? || ops[i].SinkCall?))
    decreases |ops|
  {
    if ops != [] {
      var first := Apply(c, s, ops[0]);
      StepKeepsEnds(c, s, ops[0]);
      EndsNeedTheirOperations(c, first.state, ops[1..]);
      var t := Run(c, s, ops).state;
      assert t == Run(c, first.state, ops[1..]).state;
      if !Truthy(s.endedLocal) && Truthy(t.endedLocal) && !ops[0].SinkCall? {
        var j :| 0 <= j < |ops[1..]| && ops[1..][j].SinkCall?;
        assert ops[j + 1].SinkCall?;
      }
      if !Truthy(s.endedRemote) && Truthy(t.endedRemote) && !(ops[0].CloseCall? || ops[0].ResetCall? || ops[0].SinkCall?) {
        var j :| 0 <= j < |ops[1..]| && (ops[1..][j].CloseCall? || ops[1..][j].ResetCall? || ops[1..][j].SinkCall?);
        assert ops[j + 1] == ops[1..][j];
      }
    }
  }
}
