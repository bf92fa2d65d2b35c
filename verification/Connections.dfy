/**
 What a whole daemon connection leads to (internal/codexadapter/daemon.go:
 readMessages, readFrame), for every sequence of frames and wherever the bytes
 end: which frame ends the reading and why, and what was handled and answered
 before it.
 */
module Connections {
  import opened Wrappers
  import opened WebSocket

  predicate IsData(f: RawFrame) { f.opcode == TEXT || f.opcode == BINARY || f.opcode == CONTINUATION }

  /** The message that data frame i ends or goes on with: a continuation adds to what is unfinished before it. */
  function Whole(frames: seq<RawFrame>, i: nat): seq<Byte>
    requires i < |frames|
    decreases i, 1
  {
    (if frames[i].opcode == CONTINUATION then Unfinished(frames, i) else []) + frames[i].payload
  }

  /** What the data frame before frame i left unfinished. */
  function Unfinished(frames: seq<RawFrame>, i: nat): seq<Byte>
    requires i <= |frames|
    decreases i, 0
  {
    if i == 0 then []
    else if !IsData(frames[i - 1]) then Unfinished(frames, i - 1)
    else if frames[i - 1].fin then []
    else Whole(frames, i - 1)
  }

  /** The messages that end within the first n frames and are not in a last frame marked binary. */
  function HandledBy(frames: seq<RawFrame>, n: nat): seq<seq<Byte>>
    requires n <= |frames|
  {
    if n == 0 then []
    else
      var f := frames[n - 1];
      HandledBy(frames, n - 1) + if IsData(f) && f.fin && f.opcode != BINARY then [Whole(frames, n - 1)] else []
  }

  function PingsBy(frames: seq<RawFrame>, n: nat): seq<seq<Byte>>
    requires n <= |frames|
  {
    if n == 0 then []
    else PingsBy(frames, n - 1) + if frames[n - 1].opcode == PING then [frames[n - 1].payload] else []
  }

  /** Why reading ends at frame i, if it does. */
  function EndsAt(frames: seq<RawFrame>, i: nat, writes: Option<nat>): Option<Ending>
    requires i < |frames|
  {
    var f := frames[i];
    if f.opcode == CLOSE then Some(Closed)
    else if f.opcode == PING then
      if writes.Some? && |PingsBy(frames, i)| >= writes.value then Some(PongFailed) else None
    else if f.opcode == PONG then None
    else if !IsData(f) then Some(UnexpectedOpcode(f.opcode))
    else if |Whole(frames, i)| > MAX_MESSAGE then Some(MessageTooLarge)
    else None
  }

  /**
   Frame n is the first that ends the reading, or there is none; all messages
   and pings before it, and only those, were handled and answered, in order.
   */
  predicate ReadUpTo(stream: Stream, writes: Option<nat>, n: nat, s: Session) {
    var frames := stream.frames;
    && n <= |frames|
    && (forall i :: 0 <= i < n ==> EndsAt(frames, i, writes).None?)
    && s.handled == HandledBy(frames, n) && s.pongs == PingsBy(frames, n)
    && if n == |frames| then s.ending == stream.ending else EndsAt(frames, n, writes) == Some(s.ending)
  }

  /** How many more pongs can be written before frame n. */
  function WritesLeft(frames: seq<RawFrame>, n: nat, writes: Option<nat>): Option<nat>
    requires n <= |frames| && (writes.Some? ==> |PingsBy(frames, n)| <= writes.value)
  {
    if writes.None? then None else Some(writes.value - |PingsBy(frames, n)|)
  }

  /** What one frame does, in terms of all frames up to it. */
  lemma ReactsAsSaid(frames: seq<RawFrame>, n: nat, writes: Option<nat>)
    requires n < |frames| && (writes.Some? ==> |PingsBy(frames, n)| <= writes.value)
    ensures var f, left := frames[n], WritesLeft(frames, n, writes);
      match EndsAt(frames, n, writes)
      case Some(ending) => React(f, Unfinished(frames, n), left) == Stop(ending)
      case None =>
        && (writes.Some? ==> |PingsBy(frames, n + 1)| <= writes.value)
        && WritesAfter(f, left) == WritesLeft(frames, n + 1, writes)
        && var r := React(f, Unfinished(frames, n), left);
           && r.Go? && r.message == Unfinished(frames, n + 1)
           && HandledBy(frames, n + 1) == HandledBy(frames, n) + r.handled
           && PingsBy(frames, n + 1) == PingsBy(frames, n) + r.pongs
  {
  }

  lemma {:induction false} ProcessReads(stream: Stream, writes: Option<nat>, n: nat) returns (stop: nat)
    requires n <= |stream.frames| && (writes.Some? ==> |PingsBy(stream.frames, n)| <= writes.value)
    requires forall i :: 0 <= i < n ==> EndsAt(stream.frames, i, writes).None?
    ensures var frames := stream.frames;
      var tail := Process(Stream(frames[n..], stream.ending), Unfinished(frames, n), WritesLeft(frames, n, writes));
      ReadUpTo(stream, writes, stop,
               Session(HandledBy(frames, n) + tail.handled, PingsBy(frames, n) + tail.pongs, tail.ending))
    decreases |stream.frames| - n
  {
    var frames := stream.frames;
    hide React, EndsAt, Unfinished, HandledBy, PingsBy, WritesAfter, WritesLeft;
    if n == |frames| {
      stop := n;
      assert HandledBy(frames, n) + [] == HandledBy(frames, n) && PingsBy(frames, n) + [] == PingsBy(frames, n);
      return;
    }
    ReactsAsSaid(frames, n, writes);
    var left := WritesLeft(frames, n, writes);
    var rest := Stream(frames[n + 1..], stream.ending);
    assert frames[n..] == [frames[n]] + rest.frames;
    ProcessStep(frames[n], rest, Unfinished(frames, n), left);
    if EndsAt(frames, n, writes).Some? {
      stop := n;
      assert HandledBy(frames, n) + [] == HandledBy(frames, n) && PingsBy(frames, n) + [] == PingsBy(frames, n);
    } else {
      stop := ProcessReads(stream, writes, n + 1);
      var r := React(frames[n], Unfinished(frames, n), left);
      var tail := Process(rest, r.message, WritesAfter(frames[n], left));
      Regroup(HandledBy(frames, n), r.handled, tail.handled);
      Regroup(PingsBy(frames, n), r.pongs, tail.pongs);
    }
  }

  /** The reading ended as ReadUpTo says. */
  ghost predicate IsReading(stream: Stream, writes: Option<nat>, s: Session) {
    exists n :: ReadUpTo(stream, writes, n, s)
  }

  /** Every connection is read up to the first frame that ends it, or to the end of its frames. */
  lemma ConnectionsAreReadUpTo(input: seq<Byte>, writes: Option<nat>)
    ensures IsReading(Parse(input), writes, Reading(input, writes))
  {
    var stream := Parse(input);
    var stop := ProcessReads(stream, writes, 0);
    assert stream.frames[0..] == stream.frames;
    assert Stream(stream.frames, stream.ending) == stream;
    var s := Reading(input, writes);
    assert [] + s.handled == s.handled && [] + s.pongs == s.pongs;
  }

  // ---- where the bytes end ----

  /** A frame that was cut off, or one whose head says more than the limit. */
  predicate EndsTheBytes(f: Frame, k: nat)
    requires WellFormed(f)
  {
    k <= |Wire(f)| && (k < |Wire(f)| || |f.payload| > MAX_MESSAGE)
  }

  /** Too large once its head is there; before that, and for a frame within the limit, the connection just ended. */
  function CutEnding(f: Frame, k: nat): Ending {
    if |f.payload| > MAX_MESSAGE && k >= 2 + Width(f.form) then FrameTooLarge else Closed
  }

  lemma WireBegins(f: Frame)
    requires WellFormed(f)
    ensures var at := 2 + Width(f.form);
      && |Wire(f)| == at + (if f.key.Some? then 4 else 0) + |f.payload|
      && Wire(f)[0] == (if f.fin then 0x80 else 0) + f.opcode
      && Wire(f)[1] == (if f.key.Some? then 0x80 else 0) + LengthField(f)
      && Wire(f)[2..at] == BigEndian(|f.payload|, Width(f.form))
  {
    var key := if f.key.Some? then f.key.value else [];
    var body := if f.key.Some? then Masked(f.payload, f.key.value) else f.payload;
    var at := 2 + Width(f.form);
    hide Masked;
    Slices(Wire(f)[0], LengthBytes(f), key, body, []);
    assert Wire(f) == [Wire(f)[0]] + LengthBytes(f) + (key + body) + [];
    assert LengthBytes(f)[1..] == BigEndian(|f.payload|, Width(f.form));
    assert Wire(f)[2..at] == Wire(f)[1..at][1..];
  }

  lemma CutHead(f: Frame, k: nat)
    requires WellFormed(f) && k <= |Wire(f)|
    ensures var at := 2 + Width(f.form);
      ReadHead(Wire(f)[..k]) ==
        if k < at then None else Some(Head(f.fin, f.opcode, f.key.Some?, |f.payload|, at))
  {
    var input, at := Wire(f)[..k], 2 + Width(f.form);
    WireBegins(f);
    hide Wire, LengthBytes, FromBigEndian, BigEndian;
    if k >= at {
      assert input[2..at] == Wire(f)[2..at];
      HeadReads(f, input);
    }
  }

  lemma CutFrameEnds(f: Frame, k: nat)
    requires WellFormed(f) && EndsTheBytes(f, k)
    ensures ReadFrame(Wire(f)[..k]) == if CutEnding(f, k).Closed? then Eof else TooLarge
  {
    WireBegins(f);
    CutHead(f, k);
    hide Wire, ReadHead, Masked, LengthField, BigEndian;
  }

  lemma NoWires(tail: seq<Byte>)
    ensures Wires([]) + tail == tail
  {
  }

  lemma WiresStep(frames: seq<Frame>, tail: seq<Byte>)
    requires frames != [] && forall i :: 0 <= i < |frames| ==> WellFormed(frames[i])
    ensures Wires(frames) + tail == Wire(frames[0]) + (Wires(frames[1..]) + tail)
  {
    Regroup(Wire(frames[0]), Wires(frames[1..]), tail);
  }

  /** One frame, and the rest of the bytes. */
  lemma OneFrameThenRest(frames: seq<Frame>, tail: seq<Byte>)
    requires frames != [] && forall i :: 0 <= i < |frames| ==> WellFormed(frames[i])
    requires |frames[0].payload| <= MAX_MESSAGE
    ensures var t := Parse(Wires(frames[1..]) + tail); var f := frames[0];
      Parse(Wires(frames) + tail) == Stream([RawFrame(f.fin, f.opcode, f.payload)] + t.frames, t.ending)
  {
    WiresStep(frames, tail);
    ReadsWhatWasWritten(frames[0], Wires(frames[1..]) + tail);
    hide ReadFrame, Wire, WellFormed, Wires;
  }

  lemma NoMoreFrames(input: seq<Byte>)
    ensures ReadFrame(input).Eof? ==> Parse(input) == Stream([], Closed)
    ensures ReadFrame(input).TooLarge? ==> Parse(input) == Stream([], FrameTooLarge)
  {
    hide ReadFrame;
  }

  lemma {:induction false} FramesThenCut(frames: seq<Frame>, last: Frame, k: nat)
    requires forall i :: 0 <= i < |frames| ==> WellFormed(frames[i]) && |frames[i].payload| <= MAX_MESSAGE
    requires WellFormed(last) && EndsTheBytes(last, k)
    ensures Parse(Wires(frames) + Wire(last)[..k]) == Stream(Raw(frames), CutEnding(last, k))
    decreases |frames|
  {
    var tail := Wire(last)[..k];
    if frames == [] {
      CutFrameEnds(last, k);
      NoMoreFrames(tail);
      NoWires(tail);
      hide ReadFrame, Parse, Wire, WellFormed, Wires;
    } else {
      var f, rest := frames[0], frames[1..];
      OneFrameThenRest(frames, tail);
      FramesThenCut(rest, last, k);
      hide Parse, Wire, WellFormed, Wires, CutEnding, EndsTheBytes;
      assert Raw(frames) == [RawFrame(f.fin, f.opcode, f.payload)] + Raw(rest);
    }
  }

  /**
   Whatever frames a connection carries, in whatever order, and wherever its
   bytes break off: reading ends at the first frame that ends it, and with
   FrameTooLarge or Closed if none does.
   */
  lemma BrokenConnectionsAreReadUpTo(frames: seq<Frame>, last: Frame, k: nat, writes: Option<nat>)
    requires forall i :: 0 <= i < |frames| ==> WellFormed(frames[i]) && |frames[i].payload| <= MAX_MESSAGE
    requires WellFormed(last) && EndsTheBytes(last, k)
    ensures IsReading(Stream(Raw(frames), CutEnding(last, k)), writes, Reading(Wires(frames) + Wire(last)[..k], writes))
  {
    FramesThenCut(frames, last, k);
    ConnectionsAreReadUpTo(Wires(frames) + Wire(last)[..k], writes);
  }
}
