/** The channel object itself, updating its fields in place and pushing onto its multiplexer's queue. */
module Channels {
  import opened JsValues
  import opened Frames
  import opened ChannelSpec
  import ChannelProps

  /** The multiplexer's outbound queue, shared by all of its channels. */
  class Plex {
    var frames: seq<Frame>

    constructor ()
      ensures frames == []
    {
      frames := [];
    }

    method Push(f: Frame)
      modifies this
      ensures frames == old(frames) + [f]
    {
      frames := frames + [f];
    }
  }

  class Channel {
    const id: nat
    const name: Name
    const initiator: bool
    const plex: Plex

    var open: bool
    var endedLocal: Value
    var endedRemote: Value
    var resetReason: Value
    /** The inbound queue `_msgs`: what was pushed, and the value it was ended with. */
    var inbound: seq<Bytes>
    var inboundEnd: Option<Value>
    /** The `close` and `error` events emitted so far. */
    var events: seq<Event>

    function Identity(): Config {
      Config(id, name, initiator)
    }

    function Snapshot(): State
      reads this
    {
      State(open, endedLocal, endedRemote, resetReason, inbound, inboundEnd, events)
    }

    ghost predicate Valid()
      reads this
    {
      Inv(Snapshot())
    }

    /** `new Channel(opts)`: `initiator` defaults to false; both ends and the reset start false. */
    constructor (id: nat, name: Name, plex: Plex, open: bool, initiator: Option<bool>)
      ensures Valid()
      ensures this.id == id && this.name == name && this.plex == plex
      ensures this.initiator == (initiator == Some(true))
      ensures Snapshot() == Initial(open)
    {
      this.id := id;
      this.name := name;
      this.plex := plex;
      this.open := open;
      this.initiator := if initiator.Some? then initiator.value else false;
      endedRemote := Falsy;
      endedLocal := Falsy;
      resetReason := Falsy;
      inbound := [];
      inboundEnd := None;
      events := [];
    }

    /** The `open` setter. */
    method SetOpen(b: bool)
      requires Valid()
      modifies this
      ensures Valid()
      ensures Snapshot() == old(Snapshot()).(open := b)
    {
      open := b;
    }

    /** The `destroyed` getter. */
    function Destroyed(): (r: Value)
      reads this
      ensures Truthy(r) <==> Truthy(endedRemote) && Truthy(endedLocal)
    {
      ChannelSpec.Destroyed(Snapshot())
    }

    method Push(data: Bytes)
      requires Valid() && inboundEnd.None?
      modifies this
      ensures Valid()
      ensures Snapshot() == ChannelSpec.Push(old(Snapshot()), data)
    {
      inbound := inbound + [data];
    }

    method Close(err: Value)
      requires InboundInv(Snapshot())
      modifies this
      ensures Valid()
      ensures Snapshot() == ChannelSpec.Close(old(Snapshot()), err)
    {
      ChannelProps.CloseKeepsInv(Snapshot(), err);
      if !Truthy(endedRemote) {
        endedRemote := Or(err, True);
        inboundEnd := Some(endedRemote);
        events := events + [CloseEvent(err)];
      }
    }

    method Reset(err: Value)
      requires Valid()
      modifies this
      ensures Valid()
      ensures Snapshot() == ChannelSpec.Reset(old(Snapshot()), err)
    {
      resetReason := Or(err, DefaultResetReason);
      Close(resetReason);
    }

    method OpenChan()
      requires Valid()
      modifies this, plex
      ensures Valid()
      ensures var o := ChannelSpec.OpenChan(Identity(), old(Snapshot()));
        Snapshot() == o.state && plex.frames == old(plex.frames) + o.frames
    {
      if open {
        return;
      }
      var payload := NewPayload(id, name);
      open := true;
      plex.Push(Frame(id, New, payload));
    }

    method SendMsg(data: Bytes)
      requires Valid()
      modifies this, plex
      ensures Valid()
      ensures var o := ChannelSpec.SendMsg(Identity(), old(Snapshot()), data);
        Snapshot() == o.state && plex.frames == old(plex.frames) + o.frames
    {
      if !open {
        OpenChan();
      }
      plex.Push(Frame(id, MessageKind(initiator), Buffer(data)));
    }

    method EndChan()
      requires Valid()
      modifies plex
      ensures var o := ChannelSpec.EndChan(Identity(), Snapshot());
        Snapshot() == o.state && plex.frames == old(plex.frames) + o.frames
    {
      if !open {
        return;
      }
      plex.Push(Frame(id, CloseKind(initiator), Buffer([0])));
    }

    method ResetChan()
      requires Valid()
      modifies plex
      ensures var o := ChannelSpec.ResetChan(Identity(), Snapshot());
        Snapshot() == o.state && plex.frames == old(plex.frames) + o.frames
    {
      if !open {
        return;
      }
      plex.Push(Frame(id, ResetKind(initiator), Undefined));
    }

    /** The sink's callback `next(end, data)`; `more` is whether it reads again. */
    method Next(r: Read) returns (more: bool)
      requires Valid()
      modifies this, plex
      ensures Valid()
      ensures var step := ChannelSpec.Next(Identity(), old(Snapshot()), r);
        Snapshot() == step.outcome.state && plex.frames == old(plex.frames) + step.outcome.frames &&
        more == step.more
    {
      if Truthy(endedLocal) {
        return false;
      }
      endedLocal := Or(r.end, Falsy);
      if r.end == True {
        EndChan();
        return false;
      }
      if Truthy(r.end) || Truthy(resetReason) {
        ResetChan();
        var e := ErrorEvent(Or(r.end, resetReason));
        ChannelProps.CloseCountAppend(events, e);
        events := events + [e];
        Reset(Falsy);
        return false;
      }
      SendMsg(r.data);
      return true;
    }

    /**
     * One turn of the sink loop: `next` on the answer at `i`, tracked
     * against the answers before it (`done`, the frames after `base`).
     */
    method Turn(source: seq<Read>, i: nat, ghost s0: State, ghost base: seq<Frame>, ghost done: Outcome)
      returns (reading: bool, ghost after: Outcome)
      requires i < |source| && Valid() && done.state == Snapshot() && plex.frames == base + done.frames
      requires ChannelProps.Progress(Identity(), s0, source, i, true, done)
      modifies this, plex
      ensures Valid() && after.state == Snapshot() && plex.frames == base + after.frames
      ensures ChannelProps.Progress(Identity(), s0, source, if reading then i + 1 else i, reading, after)
    {
      ghost var step := ChannelSpec.Next(Identity(), done.state, source[i]);
      ChannelProps.ReadStep(Identity(), s0, source, i, done);
      reading := Next(source[i]);
      after := After(done.frames, step.outcome);
    }

    /**
     * `sink(read)`: `next` run on each answer of the source in turn, until it
     * returns without reading again or the source has no further answer.
     */
    method Sink(source: seq<Read>)
      requires Valid()
      modifies this, plex
      ensures Valid()
      ensures var o := ChannelSpec.Sink(Identity(), old(Snapshot()), source);
        Snapshot() == o.state && plex.frames == old(plex.frames) + o.frames
    {
      ghost var s0 := Snapshot();
      ghost var done := Outcome(s0, []);
      var i := 0;
      var reading := true;
      while reading && i < |source|
        invariant Valid() && done.state == Snapshot() && plex.frames == old(plex.frames) + done.frames
        invariant ChannelProps.Progress(Identity(), s0, source, i, reading, done)
        decreases |source| - i, reading
      {
        reading, done := Turn(source, i, s0, old(plex.frames), done);
        if reading {
          i := i + 1;
        }
      }
      ChannelProps.SinkStops(Identity(), s0, source, i, reading, done);
    }
  }
}
