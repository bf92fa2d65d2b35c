/**
 The daemon connection's WebSocket framing (internal/codexadapter/daemon.go):
 writeFrame, readFrame and readMessages, against sections 5.2, 5.3 and 5.4 of
 RFC 6455. The connection is the sequence of bytes still to read.
 */
module WebSocket {
  import opened Wrappers

  type Byte = n: nat | n < 256

  const CONTINUATION: nat := 0x0
  const TEXT: nat := 0x1
  const BINARY: nat := 0x2
  const CLOSE: nat := 0x8
  const PING: nat := 0x9
  const PONG: nat := 0xA
  const MAX_MESSAGE: nat := 0x400_0000  // 64 MiB

  // ---- masking ----

  function XorBits(a: nat, b: nat, width: nat): (r: nat)
    decreases width
  {
    if width == 0 then 0 else (if a % 2 == b % 2 then 0 else 1) + 2 * XorBits(a / 2, b / 2, width - 1)
  }

  function Pow2(n: nat): nat { if n == 0 then 1 else 2 * Pow2(n - 1) }

  lemma {:induction false} XorUndone(a: nat, b: nat, width: nat)
    requires a < Pow2(width)
    ensures XorBits(a, b, width) < Pow2(width)
    ensures XorBits(XorBits(a, b, width), b, width) == a
    decreases width
  {
    if width > 0 { XorUndone(a / 2, b / 2, width - 1); }
  }

  function Xor(a: Byte, b: Byte): Byte {
    assert Pow2(8) == 256 by { assert Pow2(4) == 16 by { assert Pow2(2) == 4; } assert Pow2(6) == 64; }
    XorUndone(a, b, 8);
    XorBits(a, b, 8)
  }

  /** A payload masked (or unmasked) with the four key bytes, section 5.3. */
  function Masked(payload: seq<Byte>, key: seq<Byte>): (r: seq<Byte>)
    requires |key| == 4
    ensures |r| == |payload|
  {
    seq(|payload|, i requires 0 <= i < |payload| => Xor(payload[i], key[i % 4]))
  }

  lemma MaskUndone(payload: seq<Byte>, key: seq<Byte>)
    requires |key| == 4
    ensures Masked(Masked(payload, key), key) == payload
  {
    forall i | 0 <= i < |payload|
      ensures Xor(Xor(payload[i], key[i % 4]), key[i % 4]) == payload[i]
    {
      assert Pow2(8) == 256 by { assert Pow2(4) == 16 by { assert Pow2(2) == 4; } assert Pow2(6) == 64; }
      XorUndone(payload[i], key[i % 4], 8);
    }
  }

  // ---- frames ----

  /** The three ways section 5.2 writes a length. */
  datatype LengthForm = Short | Medium | Long

  datatype Frame = Frame(fin: bool, opcode: nat, key: Option<seq<Byte>>, payload: seq<Byte>, form: LengthForm)
  /** A frame section 5.2 allows, with any length form wide enough. */
  predicate WellFormed(f: Frame) {
    && f.opcode < 16
    && (f.key.Some? ==> |f.key.value| == 4)
    && (match f.form
        case Short => |f.payload| < 126
        case Medium => |f.payload| < 0x1_0000
        case Long => |f.payload| < 0x1_0000_0000_0000_0000)
  }

  /** n as count bytes, most significant first. */
  function BigEndian(n: nat, count: nat): (r: seq<Byte>)
    ensures |r| == count
  {
    if count == 0 then [] else BigEndian(n / 256, count - 1) + [n % 256]
  }

  function FromBigEndian(b: seq<Byte>): nat {
    if b == [] then 0 else 256 * FromBigEndian(b[..|b| - 1]) + b[|b| - 1]
  }

  function Pow256(count: nat): nat { if count == 0 then 1 else 256 * Pow256(count - 1) }

  lemma {:induction false} BigEndianRoundTrip(n: nat, count: nat)
    requires n < Pow256(count)
    ensures FromBigEndian(BigEndian(n, count)) == n
  {
    if count > 0 {
      BigEndianRoundTrip(n / 256, count - 1);
      var b := BigEndian(n, count);
      assert b[..|b| - 1] == BigEndian(n / 256, count - 1);
    }
  }

  /** The seven-bit length field, and how many extended length bytes follow it. */
  function LengthField(f: Frame): (n: nat)
    requires WellFormed(f)
    ensures n < 128
  {
    match f.form case Short => |f.payload| case Medium => 126 case Long => 127
  }

  function Width(form: LengthForm): nat {
    match form case Short => 0 case Medium => 2 case Long => 8
  }

  function LengthBytes(f: Frame): seq<Byte>
    requires WellFormed(f)
  {
    [(if f.key.Some? then 0x80 else 0) + LengthField(f)] + BigEndian(|f.payload|, Width(f.form))
  }

  /** The frame on the wire, section 5.2. */
  function Wire(f: Frame): seq<Byte>
    requires WellFormed(f)
  {
    [(if f.fin then 0x80 else 0) + f.opcode]
    + LengthBytes(f)
    + (if f.key.Some? then f.key.value + Masked(f.payload, f.key.value) else f.payload)
  }

  /** The form writeFrame picks: the shortest. */
  function ShortestForm(n: nat): LengthForm {
    if n < 126 then Short else if n <= 0xFFFF then Medium else Long
  }

  /** The frame buffer, filled in place: the header, then the payload XORed with the key. */
  method FillFrame(header: seq<Byte>, payload: seq<Byte>, key: seq<Byte>) returns (out: seq<Byte>)
    requires |key| == 4
    ensures out == header + Masked(payload, key)
  {
    var frame := new Byte[|header| + |payload|](_ => 0);
    for i := 0 to |header|
      invariant frame[..i] == header[..i]
    {
      frame[i] := header[i];
    }
    assert header[..|header|] == header;
    hide Xor;
    for i := 0 to |payload|
      invariant frame[..|header|] == header
      invariant forall k :: 0 <= k < i ==> frame[|header| + k] == Masked(payload, key)[k]
    {
      frame[|header| + i] := Xor(payload[i], key[i % 4]);
    }
    out := frame[..];
    assert out[..|header|] == header;
    assert out[|header|..] == Masked(payload, key);
  }

  lemma TwoBytes(n: nat)
    requires n < 0x1_0000
    ensures BigEndian(n, 2) == [n / 256 % 256, n % 256]
  {
    assert BigEndian(n / 256, 1) == [n / 256 % 256];
  }

  /** writeFrame: one masked final frame, its length in the shortest form. */
  method WriteFrame(opcode: nat, payload: seq<Byte>, key: seq<Byte>) returns (out: seq<Byte>)
    requires opcode < 16 && |key| == 4 && |payload| < 0x8000_0000_0000_0000
    ensures out == Wire(Frame(true, opcode, Some(key), payload, ShortestForm(|payload|)))
  {
    var n := |payload|;
    var length: seq<Byte>;
    if n < 126 {
      length := [0x80 + n];
    } else if n <= 0xFFFF {
      length := [0x80 + 126] + [n / 256 % 256, n % 256];
      TwoBytes(n);
    } else {
      length := [0x80 + 127] + BigEndian(n, 8);
    }
    var header := [0x80 + opcode] + length;
    out := FillFrame(header + key, payload, key);
    assert out == header + (key + Masked(payload, key));
  }

  // ---- reading ----

  /** A frame's head: its first bytes, up to where the mask key or payload starts. */
  datatype Head = Head(fin: bool, opcode: nat, masked: bool, length: nat, size: nat)

  function ReadHead(input: seq<Byte>): (r: Option<Head>)
    ensures r.Some? ==> r.value.size <= |input|
  {
    if |input| < 2 then None
    else
      var short := input[1] % 128;
      var ext := if short == 126 then 2 else if short == 127 then 8 else 0;
      if |input| < 2 + ext then None
      else
        var length := if ext == 0 then short else FromBigEndian(input[2..2 + ext]);
        Some(Head(input[0] >= 0x80, input[0] % 16, input[1] >= 0x80, length, 2 + ext))
  }

  datatype ReadResult =
    | ReadOk(fin: bool, opcode: nat, payload: seq<Byte>, rest: seq<Byte>)
    | Eof        // the connection ended before the frame did
    | TooLarge

  /** What readFrame does with the bytes to come; masked frames are unmasked. */
  function ReadFrame(input: seq<Byte>): (r: ReadResult)
    ensures r.ReadOk? ==> |r.rest| < |input| && |r.payload| <= MAX_MESSAGE
  {
    match ReadHead(input)
    case None => Eof
    case Some(h) =>
      if h.length > MAX_MESSAGE then TooLarge
      else
        var at := h.size + if h.masked then 4 else 0;
        if |input| < at + h.length then Eof
        else
          var body := input[at..at + h.length];
          ReadOk(h.fin, h.opcode, if h.masked then Masked(body, input[h.size..at]) else body, input[at + h.length..])
  }

  lemma Pow256Values()
    ensures Pow256(2) == 0x1_0000 && Pow256(8) == 0x1_0000_0000_0000_0000
  {
    assert Pow256(4) == 0x1_0000_0000;
    assert Pow256(6) == 0x1_0000_0000_0000;
  }

  // The head is read from the first byte and the length bytes alone.
  lemma HeadReads(f: Frame, input: seq<Byte>)
    requires WellFormed(f) && |input| >= 2 + Width(f.form)
    requires input[0] == (if f.fin then 0x80 else 0) + f.opcode
    requires input[1] == (if f.key.Some? then 0x80 else 0) + LengthField(f)
    requires input[2..2 + Width(f.form)] == BigEndian(|f.payload|, Width(f.form))
    ensures ReadHead(input) == Some(Head(f.fin, f.opcode, f.key.Some?, |f.payload|, 2 + Width(f.form)))
  {
    Pow256Values();
    if f.form != Short {
      BigEndianRoundTrip(|f.payload|, Width(f.form));
    }
  }

  lemma BodyReads(input: seq<Byte>, h: Head, key: seq<Byte>, body: seq<Byte>, rest: seq<Byte>)
    requires ReadHead(input) == Some(h) && h.length == |body| <= MAX_MESSAGE
    requires |key| == (if h.masked then 4 else 0)
    requires input[h.size..] == key + body + rest
    ensures ReadFrame(input) == ReadOk(h.fin, h.opcode, if h.masked then Masked(body, key) else body, rest)
  {
    hide ReadHead, Masked;
    Cut(input, h.size, key, body, rest);
  }

  lemma Cut(input: seq<Byte>, from: nat, key: seq<Byte>, body: seq<Byte>, rest: seq<Byte>)
    requires from <= |input| && input[from..] == key + body + rest
    ensures var at := from + |key|;
      && |input| == at + |body| + |rest|
      && input[from..at] == key && input[at..at + |body|] == body && input[at + |body|..] == rest
  {
    Parts(key, body, rest);
    Slice(input, from, 0, |key|);
    Slice(input, from, |key|, |key| + |body|);
    Slice(input, from, |key| + |body|, |key| + |body| + |rest|);
  }

  lemma Slice<T>(s: seq<T>, at: nat, i: nat, j: nat)
    requires i <= j && at + j <= |s|
    ensures s[at + i..at + j] == s[at..][i..j]
    ensures at + j == |s| ==> s[at + i..] == s[at + i..at + j]
  {
  }

  lemma Parts<T>(a: seq<T>, b: seq<T>, c: seq<T>)
    ensures var s := a + b + c;
      s[0..|a|] == a && s[|a|..|a| + |b|] == b && s[|a| + |b|..|a| + |b| + |c|] == c && |s| == |a| + |b| + |c|
  {
  }

  /**
   Reading back any well-formed frame within the size limit, whatever its mask
   and length form and whatever follows it, gives its flags and payload and
   leaves exactly what followed.
   */
  lemma ReadsWhatWasWritten(f: Frame, rest: seq<Byte>)
    requires WellFormed(f) && |f.payload| <= MAX_MESSAGE
    ensures ReadFrame(Wire(f) + rest) == ReadOk(f.fin, f.opcode, f.payload, rest)
  {
    var key := if f.key.Some? then f.key.value else [];
    var body := if f.key.Some? then Masked(f.payload, f.key.value) else f.payload;
    var input := Wire(f) + rest;
    var at := 2 + Width(f.form);
    Slices(Wire(f)[0], LengthBytes(f), key, body, rest);
    assert input == [Wire(f)[0]] + LengthBytes(f) + (key + body) + rest;
    assert LengthBytes(f)[1..] == BigEndian(|f.payload|, Width(f.form));
    assert input[2..at] == input[1..at][1..];
    HeadReads(f, input);
    BodyReads(input, Head(f.fin, f.opcode, f.key.Some?, |f.payload|, at), key, body, rest);
    if f.key.Some? {
      MaskUndone(f.payload, f.key.value);
    }
  }

  lemma Slices(first: Byte, length: seq<Byte>, key: seq<Byte>, body: seq<Byte>, rest: seq<Byte>)
    ensures var input := [first] + length + (key + body) + rest;
      input[0] == first && input[1..1 + |length|] == length && input[1 + |length|..] == key + body + rest
  {
  }

  /** The payload read, unmasked in place. */
  method Unmask(body: seq<Byte>, mask: seq<Byte>) returns (out: seq<Byte>)
    requires |mask| == 4
    ensures out == Masked(body, mask)
  {
    hide Xor;
    var payload := new Byte[|body|](_ => 0);
    for i := 0 to |body|
      invariant payload[..i] == body[..i]
    {
      payload[i] := body[i];
    }
    assert forall k :: 0 <= k < |body| ==> payload[k] == payload[..][k];
    for i := 0 to |body|
      invariant forall k :: 0 <= k < i ==> payload[k] == Masked(body, mask)[k]
      invariant forall k :: i <= k < |body| ==> payload[k] == body[k]
    {
      payload[i] := Xor(payload[i], mask[i % 4]);
    }
    return payload[..];
  }

  /** readFrame: the two first bytes, the longer length if they say so, the mask, the payload. */
  method TakeFrame(input: seq<Byte>) returns (r: ReadResult)
    ensures r == ReadFrame(input)
  {
    hide Masked, Xor, FromBigEndian;
    if |input| < 2 { return Eof; }
    var fin, opcode, masked, length, at := input[0] >= 0x80, input[0] % 16, input[1] >= 0x80, input[1] % 128, 2;
    if length == 126 {
      if |input| < 4 { return Eof; }
      length, at := FromBigEndian(input[2..4]), 4;
    } else if length == 127 {
      if |input| < 10 { return Eof; }
      length, at := FromBigEndian(input[2..10]), 10;
    }
    if length > MAX_MESSAGE { return TooLarge; }
    var mask: seq<Byte> := [];
    if masked {
      if |input| < at + 4 { return Eof; }
      mask, at := input[at..at + 4], at + 4;
    }
    if |input| < at + length { return Eof; }
    var payload := input[at..at + length];
    if masked {
      payload := Unmask(payload, mask);
    }
    return ReadOk(fin, opcode, payload, input[at + length..]);
  }

  // ---- messages ----

  datatype Ending = Closed | FrameTooLarge | MessageTooLarge | PongFailed | UnexpectedOpcode(opcode: nat)

  /** A frame as read: what is left of it once mask and length form are gone. */
  datatype RawFrame = RawFrame(fin: bool, opcode: nat, payload: seq<Byte>)

  datatype Stream = Stream(frames: seq<RawFrame>, ending: Ending)

  /** The frames a connection's bytes hold, and why there are no more. */
  function Parse(input: seq<Byte>): Stream
    decreases |input|
  {
    match ReadFrame(input)
    case Eof => Stream([], Closed)
    case TooLarge => Stream([], FrameTooLarge)
    case ReadOk(fin, opcode, payload, rest) =>
      var tail := Parse(rest);
      Stream([RawFrame(fin, opcode, payload)] + tail.frames, tail.ending)
  }

  /** What one frame does: go on with a message so far, having handled or answered something, or stop. */
  datatype Reaction =
    | Go(message: seq<Byte>, handled: seq<seq<Byte>>, pongs: seq<seq<Byte>>)
    | Stop(ending: Ending)

  /** writes is how many more pongs can be written; None when the connection takes every one. */
  function React(f: RawFrame, message: seq<Byte>, writes: Option<nat>): Reaction {
    if f.opcode == PING then if writes == Some(0) then Stop(PongFailed) else Go(message, [], [f.payload])
    else if f.opcode == PONG then Go(message, [], [])
    else if f.opcode == CLOSE then Stop(Closed)
    else if f.opcode == TEXT || f.opcode == BINARY || f.opcode == CONTINUATION then
      var whole := (if f.opcode == CONTINUATION then message else []) + f.payload;
      if |whole| > MAX_MESSAGE then Stop(MessageTooLarge)
      else if !f.fin then Go(whole, [], [])
      else Go([], if f.opcode == BINARY then [] else [whole], [])
    else Stop(UnexpectedOpcode(f.opcode))
  }

  function WritesAfter(f: RawFrame, writes: Option<nat>): Option<nat> {
    if f.opcode == PING && writes.Some? && writes.value > 0 then Some(writes.value - 1) else writes
  }

  /** Messages handled, pings answered, and why reading stopped. */
  datatype Session = Session(handled: seq<seq<Byte>>, pongs: seq<seq<Byte>>, ending: Ending)

  function Process(stream: Stream, message: seq<Byte>, writes: Option<nat>): Session
    decreases |stream.frames|
  {
    if stream.frames == [] then Session([], [], stream.ending)
    else
      var f := stream.frames[0];
      match React(f, message, writes)
      case Stop(e) => Session([], [], e)
      case Go(next, handled, pongs) =>
        var s := Process(Stream(stream.frames[1..], stream.ending), next, WritesAfter(f, writes));
        Session(handled + s.handled, pongs + s.pongs, s.ending)
  }

  /** What a whole connection leads to. */
  function Reading(input: seq<Byte>, writes: Option<nat>): Session { Process(Parse(input), [], writes) }

  // One frame of a stream.
  lemma ProcessStep(f: RawFrame, rest: Stream, message: seq<Byte>, writes: Option<nat>)
    ensures Process(Stream([f] + rest.frames, rest.ending), message, writes)
         == AfterReaction(React(f, message, writes), rest, WritesAfter(f, writes))
  {
    assert ([f] + rest.frames)[1..] == rest.frames;
  }

  function AfterReaction(r: Reaction, rest: Stream, writes: Option<nat>): Session {
    if r.Stop? then Session([], [], r.ending)
    else var t := Process(rest, r.message, writes); Session(r.handled + t.handled, r.pongs + t.pongs, t.ending)
  }

  // One pass of the reading loop.
  lemma ReadingStep(input: seq<Byte>, message: seq<Byte>, writes: Option<nat>)
    ensures var got := ReadFrame(input);
      Process(Parse(input), message, writes) ==
      if got.Eof? then Session([], [], Closed)
      else if got.TooLarge? then Session([], [], FrameTooLarge)
      else
        var f := RawFrame(got.fin, got.opcode, got.payload);
        AfterReaction(React(f, message, writes), Parse(got.rest), WritesAfter(f, writes))
  {
    var got := ReadFrame(input);
    hide React;
    if got.ReadOk? { ProcessStep(RawFrame(got.fin, got.opcode, got.payload), Parse(got.rest), message, writes); }
  }

  /**
   readMessages. Each ping is answered with a pong frame masked with the next
   key; a pong that cannot be written ends it.
   */
  method ReadMessages(input: seq<Byte>, keys: nat -> seq<Byte>, writes: Option<nat>)
    returns (s: Session, written: seq<Byte>)
    requires forall i :: |keys(i)| == 4
    ensures s == Reading(input, writes)
    ensures written == PongWires(s.pongs, keys)
  {
    hide ReadFrame, Wire, Parse, Process;
    var rest, left := input, writes;
    var message: seq<Byte> := [];
    var handled: seq<seq<Byte>> := [];
    var pongs: seq<seq<Byte>> := [];
    written := [];
    while true
      invariant written == PongWires(pongs, keys)
      invariant var tail := Process(Parse(rest), message, left);
        Reading(input, writes) == Session(handled + tail.handled, pongs + tail.pongs, tail.ending)
      decreases |rest|
    {
      var frame := TakeFrame(rest);
      ReadingStep(rest, message, left);
      if frame.Eof? {
        return Session(handled, pongs, Closed), written;
      } else if frame.TooLarge? {
        return Session(handled, pongs, FrameTooLarge), written;
      }
      var f := RawFrame(frame.fin, frame.opcode, frame.payload);
      ghost var r := React(f, message, left);
      ghost var h, p, after := handled, pongs, WritesAfter(f, left);
      rest := frame.rest;
      if f.opcode == PING {
        if left == Some(0) {
          return Session(handled, pongs, PongFailed), written;
        }
        var pong := WriteFrame(PONG, f.payload, keys(|pongs|));
        PongAppend(pongs, f.payload, keys);
        written := written + pong;
        pongs := pongs + [f.payload];
        if left.Some? {
          left := Some(left.value - 1);
        }
      } else if f.opcode == PONG {
      } else if f.opcode == CLOSE {
        return Session(handled, pongs, Closed), written;
      } else if f.opcode == TEXT || f.opcode == BINARY || f.opcode == CONTINUATION {
        if f.opcode != CONTINUATION {
          message := [];
        }
        if |message| + |f.payload| > MAX_MESSAGE {
          return Session(handled, pongs, MessageTooLarge), written;
        }
        message := message + f.payload;
        if f.fin {
          if f.opcode != BINARY {
            handled := handled + [message];
          }
          message := [];
        }
      } else {
        return Session(handled, pongs, UnexpectedOpcode(f.opcode)), written;
      }
      assert handled == h + r.handled && pongs == p + r.pongs && message == r.message && left == after;
      Regroup(h, r.handled, Process(Parse(rest), message, left).handled);
      Regroup(p, r.pongs, Process(Parse(rest), message, left).pongs);
    }
  }

  lemma PongAppend(pongs: seq<seq<Byte>>, ping: seq<Byte>, keys: nat -> seq<Byte>)
    requires forall i :: |keys(i)| == 4
    requires |ping| < 0x8000_0000_0000_0000
    ensures PongWires(pongs + [ping], keys)
         == PongWires(pongs, keys) + Wire(Frame(true, PONG, Some(keys(|pongs|)), ping, ShortestForm(|ping|)))
  {
    hide Wire, ShortestForm;
    assert (pongs + [ping])[..|pongs|] == pongs;
  }

  /** The pong frames for a list of pings, in order. */
  function PongWires(pings: seq<seq<Byte>>, keys: nat -> seq<Byte>): seq<Byte>
    requires forall i :: |keys(i)| == 4
  {
    if pings == [] then []
    else
      var n := |pings| - 1;
      PongWires(pings[..n], keys)
      + (if |pings[n]| < 0x8000_0000_0000_0000
         then Wire(Frame(true, PONG, Some(keys(n)), pings[n], ShortestForm(|pings[n]|))) else [])
  }

  function Wires(frames: seq<Frame>): seq<Byte>
    requires forall i :: 0 <= i < |frames| ==> WellFormed(frames[i])
  {
    if frames == [] then [] else Wire(frames[0]) + Wires(frames[1..])
  }

  /** A message of section 5.4, and how many frames it came in. */
  datatype Message = Message(binary: bool, frames: nat, data: seq<Byte>)

  /** The message so far once f is added; sofar is what an unfinished message already holds. */
  function Extended(f: Frame, sofar: Option<Message>): Message {
    if sofar.None? then Message(f.opcode == BINARY, 1, f.payload)
    else Message(sofar.value.binary, sofar.value.frames + 1, sofar.value.data + f.payload)
  }

  /**
   frames carry the messages msgs, section 5.4: each message is a text or binary
   frame and any number of continuations, the last one final, with pings and pongs
   between any two frames.
   */
  predicate Carries(frames: seq<Frame>, sofar: Option<Message>, msgs: seq<Message>)
    requires forall i :: 0 <= i < |frames| ==> WellFormed(frames[i])
  {
    if frames == [] then msgs == [] && sofar == None
    else
      var f, rest := frames[0], frames[1..];
      && |f.payload| <= MAX_MESSAGE
      && if f.opcode == PING || f.opcode == PONG then Carries(rest, sofar, msgs)
         else
           var whole := Extended(f, sofar);
           && (if sofar.None? then f.opcode == TEXT || f.opcode == BINARY else f.opcode == CONTINUATION)
           && |whole.data| <= MAX_MESSAGE
           && if f.fin then msgs != [] && msgs[0] == whole && Carries(rest, None, msgs[1..])
              else Carries(rest, Some(whole), msgs)
  }

  /** What the handler should get: the text messages. */
  function Texts(msgs: seq<Message>): seq<seq<Byte>> {
    if msgs == [] then [] else (if msgs[0].binary then [] else [msgs[0].data]) + Texts(msgs[1..])
  }

  /** A binary message cut into frames goes on as text would: only the opcode of its last frame is looked at. */
  predicate PassesForText(m: Message) { !m.binary || m.frames > 1 }

  /** What the handler gets. */
  function HandledOf(msgs: seq<Message>): seq<seq<Byte>> {
    if msgs == [] then [] else (if PassesForText(msgs[0]) then [msgs[0].data] else []) + HandledOf(msgs[1..])
  }

  function Pings(frames: seq<Frame>): seq<seq<Byte>> {
    if frames == [] then []
    else (if frames[0].opcode == PING then [frames[0].payload] else []) + Pings(frames[1..])
  }

  function Raw(frames: seq<Frame>): seq<RawFrame> {
    seq(|frames|, i requires 0 <= i < |frames| => RawFrame(frames[i].fin, frames[i].opcode, frames[i].payload))
  }

  /** Framing refines its meaning: the bytes of any frames parse back to those frames. */
  lemma {:induction false} FramesParseBack(frames: seq<Frame>)
    requires forall i :: 0 <= i < |frames| ==> WellFormed(frames[i]) && |frames[i].payload| <= MAX_MESSAGE
    ensures Parse(Wires(frames)) == Stream(Raw(frames), Closed)
  {
    if frames != [] {
      var f, rest := frames[0], frames[1..];
      ReadsWhatWasWritten(f, Wires(rest));
      FramesParseBack(rest);
      assert Raw(frames) == [RawFrame(f.fin, f.opcode, f.payload)] + Raw(rest);
    }
  }

  lemma {:induction false} CarriedWithinLimit(frames: seq<Frame>, sofar: Option<Message>, msgs: seq<Message>)
    requires forall i :: 0 <= i < |frames| ==> WellFormed(frames[i])
    requires Carries(frames, sofar, msgs)
    ensures forall i :: 0 <= i < |frames| ==> |frames[i].payload| <= MAX_MESSAGE
    decreases |frames|
  {
    if frames != [] {
      var f, rest := frames[0], frames[1..];
      if f.opcode == PING || f.opcode == PONG {
        CarriedWithinLimit(rest, sofar, msgs);
      } else if f.fin {
        CarriedWithinLimit(rest, None, msgs[1..]);
      } else {
        CarriedWithinLimit(rest, Some(Extended(f, sofar)), msgs);
      }
      assert forall i :: 1 <= i < |frames| ==> frames[i] == rest[i - 1];
    }
  }

  function DataOf(sofar: Option<Message>): seq<Byte> { if sofar.None? then [] else sofar.value.data }

  lemma {:induction false} CarriedMessagesProcess(frames: seq<Frame>, sofar: Option<Message>, msgs: seq<Message>)
    requires forall i :: 0 <= i < |frames| ==> WellFormed(frames[i])
    requires Carries(frames, sofar, msgs) && (sofar.Some? ==> sofar.value.frames > 0)
    ensures Process(Stream(Raw(frames), Closed), DataOf(sofar), None) == Session(HandledOf(msgs), Pings(frames), Closed)
    decreases |frames|
  {
    hide WellFormed, PassesForText;
    if frames != [] {
      var f, rest := frames[0], frames[1..];
      var raw := RawFrame(f.fin, f.opcode, f.payload);
      assert Raw(frames) == [raw] + Raw(rest);
      ProcessStep(raw, Stream(Raw(rest), Closed), DataOf(sofar), None);
      if f.opcode == PING || f.opcode == PONG {
        CarriedMessagesProcess(rest, sofar, msgs);
      } else {
        FrameExtends(f, sofar);
        hide React, Extended;
        if f.fin {
          CarriedMessagesProcess(rest, None, msgs[1..]);
        } else {
          CarriedMessagesProcess(rest, Some(Extended(f, sofar)), msgs);
        }
      }
    }
  }

  /** The loop's message is the one so far, and its last frame's opcode decides whether it is handled. */
  lemma FrameExtends(f: Frame, sofar: Option<Message>)
    requires if sofar.None? then f.opcode == TEXT || f.opcode == BINARY else f.opcode == CONTINUATION
    requires |Extended(f, sofar).data| <= MAX_MESSAGE && (sofar.Some? ==> sofar.value.frames > 0)
    ensures var whole := Extended(f, sofar);
      && whole.frames > 0
      && React(RawFrame(f.fin, f.opcode, f.payload), DataOf(sofar), None) ==
         if f.fin then Go([], if PassesForText(whole) then [whole.data] else [], []) else Go(whole.data, [], [])
  {
    assert [] + f.payload == f.payload;
  }

  /**
   However messages are cut into frames, masked, and interleaved with pings and
   pongs, the handler gets exactly the text messages and the binary messages of
   more than one frame, whole and in order, and every ping is answered with its
   own payload in order.
   */
  lemma MessagesArriveInOrder(frames: seq<Frame>, msgs: seq<Message>)
    requires forall i :: 0 <= i < |frames| ==> WellFormed(frames[i])
    requires Carries(frames, None, msgs)
    ensures Reading(Wires(frames), None) == Session(HandledOf(msgs), Pings(frames), Closed)
  {
    CarriedWithinLimit(frames, None, msgs);
    FramesParseBack(frames);
    CarriedMessagesProcess(frames, None, msgs);
  }

  /** The handler gets the text messages and nothing else exactly when no binary message came in pieces. */
  lemma BinaryIsHandledIffFragmented(frames: seq<Frame>, msgs: seq<Message>)
    requires forall i :: 0 <= i < |frames| ==> WellFormed(frames[i])
    requires Carries(frames, None, msgs)
    ensures Reading(Wires(frames), None).handled == Texts(msgs) <==>
      forall i :: 0 <= i < |msgs| && msgs[i].binary ==> msgs[i].frames <= 1
  {
    MessagesArriveInOrder(frames, msgs);
    CountPieces(msgs);
  }

  /** A binary message in two frames, which the handler gets. */
  lemma PiecesOfBinaryAreHandled(a: Byte, b: Byte)
    ensures var frames := [Frame(false, BINARY, None, [a], Short), Frame(true, CONTINUATION, None, [b], Short)];
      && Carries(frames, None, [Message(true, 2, [a, b])]) && Texts([Message(true, 2, [a, b])]) == []
      && Reading(Wires(frames), None).handled == [[a, b]]
  {
    var first, last := Frame(false, BINARY, None, [a], Short), Frame(true, CONTINUATION, None, [b], Short);
    var whole := Message(true, 2, [a, b]);
    assert [first, last][1..] == [last] && [last][1..] == [] && [a] + [b] == [a, b] && [whole][1..] == [];
    assert Carries([last], Some(Message(true, 1, [a])), [whole]);
    assert Carries([first, last], None, [whole]);
    hide Reading, Wires, Carries;
    MessagesArriveInOrder([first, last], [whole]);
  }

  lemma {:induction false} CountPieces(msgs: seq<Message>)
    ensures |HandledOf(msgs)| >= |Texts(msgs)|
    ensures HandledOf(msgs) == Texts(msgs) <==> |HandledOf(msgs)| == |Texts(msgs)|
    ensures HandledOf(msgs) == Texts(msgs) <==> forall i :: 0 <= i < |msgs| && msgs[i].binary ==> msgs[i].frames <= 1
  {
    if msgs != [] {
      var rest := msgs[1..];
      CountPieces(rest);
      assert forall i :: 1 <= i < |msgs| ==> msgs[i] == rest[i - 1];
      assert forall i :: 0 <= i < |rest| ==> rest[i] == msgs[i + 1];
    }
  }
}
