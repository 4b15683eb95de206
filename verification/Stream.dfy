/** Cutting a byte stream into frames, however the stream is cut into reads. */
module Stream {
  import opened Bytes
  import opened Codec
  import opened Readers
  import opened Protocol

  const HEADER_SIZE: nat := 5
  const MAX_TCP_PACKET_SIZE: nat := 0xFFFF

  datatype Message = Message(ty: FrameType, buffer: seq<byte>)

  /** The message that a complete frame is handed out as. */
  function MessageOf(frame: seq<byte>): Message
    requires frame != []
  {
    Message(TypeOfTag(frame[0] as nat), frame)
  }

  // ---------- the whole stream at once ----------

  /** The length of the frame that starts `b`, once its header is there. */
  function FrameLength(b: seq<byte>): (n: nat)
    requires |b| >= HEADER_SIZE
    ensures n >= HEADER_SIZE
  {
    HEADER_SIZE + FromBytes(W4, b[1..HEADER_SIZE])
  }

  /** `b` starts with a complete frame. */
  predicate Complete(b: seq<byte>)
  {
    |b| >= HEADER_SIZE && |b| >= FrameLength(b)
  }

  /** `b` is one frame and nothing more. */
  predicate IsFrame(b: seq<byte>)
  {
    |b| >= HEADER_SIZE && |b| == FrameLength(b)
  }

  datatype Cut = Cut(frames: seq<seq<byte>>, residue: seq<byte>)

  function Prepend(frame: seq<byte>, cut: Cut): Cut { Cut([frame] + cut.frames, cut.residue) }

  /** The frames of a stream and the incomplete one at its end. */
  function Split(b: seq<byte>): Cut
    decreases |b|
  {
    if !Complete(b) then Cut([], b)
    else Prepend(b[..FrameLength(b)], Split(b[FrameLength(b)..]))
  }

  function Flatten(frames: seq<seq<byte>>): seq<byte>
  {
    if frames == [] then [] else frames[0] + Flatten(frames[1..])
  }

  lemma {:induction false} FlattenAppend(a: seq<seq<byte>>, b: seq<seq<byte>>)
    ensures Flatten(a + b) == Flatten(a) + Flatten(b)
  {
    if a == [] {
      assert a + b == b;
    } else {
      assert (a + b)[1..] == a[1..] + b;
      FlattenAppend(a[1..], b);
    }
  }

  /** What a frame is does not depend on the bytes behind it. */
  lemma FrameStable(b: seq<byte>, c: seq<byte>)
    requires Complete(b)
    ensures Complete(b + c) && FrameLength(b + c) == FrameLength(b) && IsFrame(b[..FrameLength(b)])
    ensures (b + c)[..FrameLength(b)] == b[..FrameLength(b)] && (b + c)[FrameLength(b)..] == b[FrameLength(b)..] + c
  {
    assert (b + c)[1..HEADER_SIZE] == b[1..HEADER_SIZE];
    assert b[..FrameLength(b)][1..HEADER_SIZE] == b[1..HEADER_SIZE];
  }

  ghost predicate AllFrames(frames: seq<seq<byte>>)
  {
    forall i | 0 <= i < |frames| :: IsFrame(frames[i])
  }

  /** Splitting loses and invents nothing. */
  lemma {:induction false} SplitConserves(b: seq<byte>)
    ensures Flatten(Split(b).frames) + Split(b).residue == b
    decreases |b|
  {
    if Complete(b) {
      var f, rest := b[..FrameLength(b)], b[FrameLength(b)..];
      SplitConserves(rest);
      assert Split(b).frames[1..] == Split(rest).frames;
      assert f + (Flatten(Split(rest).frames) + Split(rest).residue) == b;
    }
  }

  /** It yields frames, and stops only where no frame is complete. */
  lemma {:induction false} SplitYieldsFrames(b: seq<byte>)
    ensures AllFrames(Split(b).frames) && !Complete(Split(b).residue)
    decreases |b|
  {
    if Complete(b) {
      FrameStable(b, []);
      SplitYieldsFrames(b[FrameLength(b)..]);
    }
  }

  /** More bytes at the end leave the frames already found alone. */
  lemma {:induction false} SplitAppend(b: seq<byte>, c: seq<byte>)
    ensures Split(b + c) == Cut(Split(b).frames + Split(Split(b).residue + c).frames,
        Split(Split(b).residue + c).residue)
    decreases |b|
  {
    if Complete(b) {
      var f, rest := b[..FrameLength(b)], b[FrameLength(b)..];
      FrameStable(b, c);
      SplitAppend(rest, c);
      var more := Split(Split(rest).residue + c).frames;
      assert ([f] + Split(rest).frames) + more == [f] + (Split(rest).frames + more);
    }
  }

  /** A list of frames, one after the other, is split into exactly those frames. */
  lemma {:induction false} SplitOfFrames(frames: seq<seq<byte>>)
    requires AllFrames(frames)
    ensures Split(Flatten(frames)) == Cut(frames, [])
  {
    if frames != [] {
      var f, rest := frames[0], Flatten(frames[1..]);
      SplitOfFrames(frames[1..]);
      FrameStable(f, rest);
      assert f[..|f|] == f && f[|f|..] + rest == rest;
      assert frames == [f] + frames[1..];
    }
  }

  // ---------- the buffer that is fed and polled ----------

  /** What was handed out, and then the residue, is what was fed in and how it splits. */
  ghost predicate Consistent(fed: seq<byte>, out: seq<seq<byte>>, data: seq<byte>)
  {
    Flatten(out) + data == fed && Split(fed) == Cut(out + Split(data).frames, Split(data).residue)
  }

  lemma ConsistentFeed(fed: seq<byte>, out: seq<seq<byte>>, data: seq<byte>, bs: seq<byte>)
    requires Consistent(fed, out, data)
    ensures Consistent(fed + bs, out, data + bs)
  {
    Assoc(Flatten(out), data, bs);
    SplitAppend(fed, bs);
    SplitAppend(data, bs);
    Assoc(out, Split(data).frames, Split(Split(data).residue + bs).frames);
  }

  lemma ConsistentPoll(fed: seq<byte>, out: seq<seq<byte>>, data: seq<byte>)
    requires Consistent(fed, out, data) && Complete(data)
    ensures Consistent(fed, out + [data[..FrameLength(data)]], data[FrameLength(data)..])
  {
    var f, rest := data[..FrameLength(data)], data[FrameLength(data)..];
    FlattenAppend(out, [f]);
    assert Flatten([f]) == f + Flatten([]) && f + [] == f;
    assert (Flatten(out) + f) + rest == Flatten(out) + (f + rest) && f + rest == data;
    assert (out + [f]) + Split(rest).frames == out + ([f] + Split(rest).frames);
  }

  datatype PartMessage = InsufficientData | Ready(message: Message)

  class InputBuffer {
    var data: seq<byte>
    ghost var fed: seq<byte>
    ghost var out: seq<seq<byte>>

    ghost predicate Valid()
      reads this
    {
      Consistent(fed, out, data)
    }

    constructor ()
      ensures Valid() && data == [] && fed == [] && out == []
    {
      data, fed, out := [], [], [];
    }

    method InputData(bs: seq<byte>)
      requires Valid()
      modifies this
      ensures Valid()
      ensures data == old(data) + bs && fed == old(fed) + bs && out == old(out)
    {
      ConsistentFeed(fed, out, data, bs);
      data := data + bs;
      fed := fed + bs;
    }

    method NextMessage() returns (r: PartMessage)
      requires Valid()
      modifies this
      ensures Valid() && fed == old(fed)
      ensures r.Ready? <==> Complete(old(data))
      ensures r.Ready? ==>
        var frame := old(data)[..FrameLength(old(data))];
        r.message == MessageOf(frame) && out == old(out) + [frame] && data == old(data)[|frame|..]
      ensures !r.Ready? ==> data == old(data) && out == old(out)
    {
      if |data| < HEADER_SIZE { return InsufficientData; }
      var ty, size := DecodeHeader(data[..HEADER_SIZE]);
      assert data[..HEADER_SIZE][1..] == data[1..HEADER_SIZE];
      var messageSize := HEADER_SIZE + size;
      if |data| < messageSize { return InsufficientData; }
      ConsistentPoll(fed, out, data);
      r := Ready(Message(ty, data[..messageSize]));
      out := out + [data[..messageSize]];
      data := data[messageSize..];
    }
  }

  /** Header decoding succeeds on any five bytes. */
  method DecodeHeader(header: seq<byte>) returns (ty: FrameType, size: nat)
    requires |header| == HEADER_SIZE
    ensures ty == TypeOfTag(header[0] as nat) && size == FromBytes(W4, header[1..])
  {
    var input := new SliceReader(header);
    FrameSchemasWellFormed(Unit);
    HeaderDecode(header);
    var v := DecodeFrom(HeaderSchema(), input);
    TypeValueInjective(TypeOfTag(header[0] as nat));
    ty, size := TypeOfValue(v.value.fields[0]), v.value.fields[1].n;
  }

  // ---------- any interleaving of feeding and polling ----------

  datatype Op = Feed(bs: seq<byte>) | Poll

  datatype State = State(data: seq<byte>, fed: seq<byte>, out: seq<seq<byte>>)

  function Call(s: State, op: Op): State
  {
    match op
    case Feed(bs) => State(s.data + bs, s.fed + bs, s.out)
    case Poll =>
      if Complete(s.data)
      then State(s.data[FrameLength(s.data)..], s.fed, s.out + [s.data[..FrameLength(s.data)]])
      else s
  }

  /** The state of a fresh `InputBuffer` after the given calls. */
  function After(ops: seq<Op>): State
  {
    if ops == [] then State([], [], []) else Call(After(ops[..|ops| - 1]), ops[|ops| - 1])
  }

  lemma AfterOneMore(ops: seq<Op>, i: nat)
    requires i < |ops|
    ensures After(ops[..i + 1]) == Call(After(ops[..i]), ops[i])
  {
    assert ops[..i + 1][..i] == ops[..i];
  }

  method MakeCall(b: InputBuffer, op: Op)
    requires b.Valid()
    modifies b
    ensures b.Valid() && State(b.data, b.fed, b.out) == Call(old(State(b.data, b.fed, b.out)), op)
  {
    match op {
      case Feed(bs) => b.InputData(bs);
      case Poll => var _ := b.NextMessage();
    }
  }

  /** The calls, made on a fresh buffer. */
  method Perform(ops: seq<Op>) returns (b: InputBuffer)
    ensures fresh(b) && b.Valid() && After(ops) == State(b.data, b.fed, b.out)
  {
    b := new InputBuffer();
    var i := 0;
    while i < |ops|
      invariant 0 <= i <= |ops| && fresh(b) && b.Valid() && After(ops[..i]) == State(b.data, b.fed, b.out)
    {
      AfterOneMore(ops, i);
      MakeCall(b, ops[i]);
      i := i + 1;
    }
    assert ops[..i] == ops;
  }

  lemma {:induction false} AfterConsistent(ops: seq<Op>)
    ensures Consistent(After(ops).fed, After(ops).out, After(ops).data)
  {
    if ops != [] {
      var s := After(ops[..|ops| - 1]);
      AfterConsistent(ops[..|ops| - 1]);
      if ops[|ops| - 1].Feed? {
        ConsistentFeed(s.fed, s.out, s.data, ops[|ops| - 1].bs);
      } else if Complete(s.data) {
        ConsistentPoll(s.fed, s.out, s.data);
      }
    }
  }

  /**
    Whatever the calls, the frames handed out are the first frames of the stream, in order, and
    nothing is lost; once drained, they are all of them and the residue is the stream's own.
   */
  lemma ChunkingIndependence(ops: seq<Op>)
    ensures var s := After(ops);
            && s.out <= Split(s.fed).frames
            && Flatten(s.out) + s.data == s.fed
            && (!Complete(s.data) ==> s.out == Split(s.fed).frames && s.data == Split(s.fed).residue)
  {
    AfterConsistent(ops);
    var s := After(ops);
    if !Complete(s.data) { assert s.out + [] == s.out; }
  }

  // ---------- the reader ----------

  /** What the socket will deliver: reads of any size, among them possibly failures. */
  datatype Event = Data(bs: seq<byte>) | IoError

  function Received(events: seq<Event>): seq<byte>
  {
    if events == [] then []
    else (if events[0].Data? then events[0].bs else []) + Received(events[1..])
  }

  class Source {
    var events: seq<Event>

    ghost predicate Valid()
      reads this
    {
      forall i | 0 <= i < |events| && events[i].Data? :: |events[i].bs| <= MAX_TCP_PACKET_SIZE
    }

    /** A read at the end of the stream returns no bytes. */
    method Read(buf: array<byte>) returns (size: Option<nat>)
      requires Valid() && buf.Length == MAX_TCP_PACKET_SIZE
      modifies this, buf
      ensures Valid()
      ensures events == if old(events) == [] then [] else old(events)[1..]
      ensures size.None? <==> old(events) != [] && old(events)[0].IoError?
      ensures size.Some? ==> size.value <= buf.Length && buf[..size.value] == if old(events) == [] then []
          else old(events)[0].bs
    {
      if events == [] { return Some(0); }
      var e := events[0];
      events := events[1..];
      if e.IoError? { return None; }
      forall i | 0 <= i < |e.bs| { buf[i] := e.bs[i]; }
      size := Some(|e.bs|);
    }
  }

  /** After `k` reads, none failing, still no complete frame. */
  ghost predicate Waiting(data: seq<byte>, events: seq<Event>, k: nat)
    requires k <= |events|
  {
    forall j | 0 <= j < k :: events[j].Data? && !Complete(data + Received(events[..j]))
  }

  /** Reading on yields a complete frame or a failure. */
  ghost predicate Answered(data: seq<byte>, events: seq<Event>)
  {
    exists k | 0 <= k <= |events| ::
      Complete(data + Received(events[..k])) || (k < |events| && events[k].IoError?)
  }

  lemma {:induction false} ReceivedAppend(a: seq<Event>, e: Event)
    ensures Received(a + [e]) == Received(a) + if e.Data? then e.bs else []
  {
    if a == [] {
      assert a + [e] == [e] && [e][1..] == [];
    } else {
      ReceivedAppend(a[1..], e);
      assert (a + [e])[1..] == a[1..] + [e];
      Assoc(if a[0].Data? then a[0].bs else [], Received(a[1..]), if e.Data? then e.bs else []);
    }
  }

  class DerpReader {
    const reader: Source
    const readBuffer: array<byte>
    const inputBuffer: InputBuffer

    ghost predicate Valid()
      reads reader, inputBuffer
    {
      reader.Valid() && inputBuffer.Valid() && readBuffer.Length == MAX_TCP_PACKET_SIZE
    }

    constructor (reader: Source)
      requires reader.Valid()
      ensures Valid() && this.reader == reader && inputBuffer.data == []
      ensures fresh(readBuffer) && fresh(inputBuffer)
    {
      this.reader := reader;
      readBuffer := new byte[MAX_TCP_PACKET_SIZE];
      inputBuffer := new InputBuffer();
    }

    /**
      One read, into the buffer of this reader and from there into the input buffer; past the end it brings
      nothing.
     */
    method ReadMore() returns (ok: bool)
      requires Valid()
      modifies reader, inputBuffer, readBuffer
      ensures Valid() && reader.events == if old(reader.events) == [] then [] else old(reader.events)[1..]
      ensures ok <==> old(reader.events) == [] || old(reader.events)[0].Data?
      ensures inputBuffer.data == old(inputBuffer.data) + if ok
          && old(reader.events) != [] then old(reader.events)[0].bs else []
    {
      ghost var data := inputBuffer.data;
      assert data + [] == data;
      var size := reader.Read(readBuffer);
      if size.None? { return false; }
      inputBuffer.InputData(readBuffer[..size.value]);
      ok := true;
    }

    /** Reads `k` times, only while no frame is complete; returns the first frame, or the failure it met. */
    method GetNextMessage() returns (r: Option<Message>, ghost k: nat)
      requires Valid() && Answered(inputBuffer.data, reader.events)
      modifies reader, inputBuffer, readBuffer
      ensures Valid()
      ensures k <= |old(reader.events)| && Waiting(old(inputBuffer.data), old(reader.events), k)
      ensures var seen := old(inputBuffer.data) + Received(old(reader.events)[..k]);
              if r.Some?
              then && Complete(seen) && r.value == MessageOf(seen[..FrameLength(seen)])
                   && inputBuffer.data == seen[FrameLength(seen)..] && reader.events == old(reader.events)[k..]
              else && !Complete(seen) && k < |old(reader.events)| && old(reader.events)[k].IoError?
                   && inputBuffer.data == seen && reader.events == old(reader.events)[k + 1..]
    {
      ghost var data, events := inputBuffer.data, reader.events;
      k := 0;
      while true
        invariant Valid() && k <= |events| && Waiting(data, events, k)
        invariant inputBuffer.data == data + Received(events[..k]) && reader.events == events[k..]
        decreases |reader.events|
      {
        var message := inputBuffer.NextMessage();
        if message.Ready? { return Some(message.message), k; }
        StillWaiting(data, events, k);
        var ok := ReadMore();
        if !ok { return None, k; }
        OneMoreRead(data, events, k);
        k := k + 1;
      }
    }
  }

  lemma StillWaiting(data: seq<byte>, events: seq<Event>, k: nat)
    requires k <= |events| && Waiting(data, events, k) && !Complete(data + Received(events[..k]))
    requires Answered(data, events)
    ensures k < |events|
  {}

  /** The reads of a source, and `n` more past its end. */
  function ReadsOn(events: seq<Event>, n: nat): seq<Event> { events + seq(n, _ => Data([])) }

  lemma {:induction false} NothingMore(n: nat)
    ensures Received(seq(n, _ => Data([]))) == []
  {
    if n > 0 {
      NothingMore(n - 1);
      assert seq(n, _ => Data([]))[1..] == seq(n - 1, _ => Data([]));
    }
  }

  lemma ReceivedPastTheEnd(events: seq<Event>, n: nat)
    ensures Received(ReadsOn(events, n)) == Received(events)
  {
    ReceivedSplit(ReadsOn(events, n), |events|);
    assert ReadsOn(events, n)[..|events|] == events && ReadsOn(events, n)[|events|..] == seq(n, _ => Data([]));
    NothingMore(n);
    assert Received(events) + [] == Received(events);
  }

  lemma UnansweredAt(data: seq<byte>, events: seq<Event>, n: nat, k: nat)
    requires !Answered(data, events) && k <= |events| + n
    ensures !Complete(data + Received(ReadsOn(events, n)[..k])) && (k < |events| + n ==> ReadsOn(events, n)[k].Data?)
  {
    if k <= |events| {
      assert ReadsOn(events, n)[..k] == events[..k];
    } else {
      assert ReadsOn(events, n)[..k] == ReadsOn(events, k - |events|);
      ReceivedPastTheEnd(events, k - |events|);
      assert events[..|events|] == events;
    }
  }

  /** The condition is exact: without it the loop waits still after any number of reads, those past the end included. */
  lemma UnansweredWaits(data: seq<byte>, events: seq<Event>, n: nat, k: nat)
    requires !Answered(data, events) && k <= |events| + n
    ensures Waiting(data, ReadsOn(events, n), k) && !Complete(data + Received(ReadsOn(events, n)[..k]))
  {
    forall j | 0 <= j < k ensures ReadsOn(events, n)[j].Data? && !Complete(data + Received(ReadsOn(events, n)[..j])) {
      UnansweredAt(data, events, n, j);
    }
    UnansweredAt(data, events, n, k);
  }

  lemma OneMoreRead(data: seq<byte>, events: seq<Event>, k: nat)
    requires k < |events| && events[k].Data? && Waiting(data, events, k) && !Complete(data + Received(events[..k]))
    ensures data + Received(events[..k + 1]) == data + Received(events[..k]) + events[k].bs
    ensures Waiting(data, events, k + 1)
  {
    ReceivedAppend(events[..k], events[k]);
    assert events[..k] + [events[k]] == events[..k + 1];
  }

  lemma {:induction false} ReceivedSplit(events: seq<Event>, k: nat)
    requires k <= |events|
    ensures Received(events) == Received(events[..k]) + Received(events[k..])
  {
    if k == 0 {
      assert events[..k] == [] && events[k..] == events;
      assert [] + Received(events) == Received(events);
    } else {
      ReceivedSplit(events[1..], k - 1);
      assert events[1..][..k - 1] == events[..k][1..] && events[1..][k - 1..] == events[k..];
    }
  }

  /** The frame that `GetNextMessage` returns is the first of residue and stream, and the rest is kept. */
  lemma FirstOfStream(data: seq<byte>, events: seq<Event>, k: nat)
    requires k <= |events| && Complete(data + Received(events[..k]))
    ensures var seen, whole := data + Received(events[..k]), data + Received(events);
            && Complete(whole) && whole[..FrameLength(whole)] == seen[..FrameLength(seen)]
            && whole[FrameLength(whole)..] == seen[FrameLength(seen)..] + Received(events[k..])
  {
    ReceivedSplit(events, k);
    Assoc(data, Received(events[..k]), Received(events[k..]));
    FrameStable(data + Received(events[..k]), Received(events[k..]));
  }

  // ---------- frames, written and read back ----------

  /** A frame to be sent: its type and a payload of a given schema. */
  datatype Sent = Sent(ty: FrameType, schema: Schema, payload: Value) {
    predicate Sendable() {
      && Genuine(ty) && Typed(schema, payload)
      && Codec.Fits(schema, payload) && |Enc(schema, payload)| < W4.Limit() && Canon(schema, payload, false)
    }

    function Bytes(): seq<byte>
      requires Sendable()
    {
      [Tag(ty) as byte] + Prefixed(W4, Enc(schema, payload))
    }
  }

  /** What the codec writes for a frame is one frame of the stream, with its type and payload. */
  lemma SentIsFrame(f: Sent)
    requires f.Sendable()
    ensures Typed(FrameSchema(f.schema), FrameValue(f.ty, f.payload))
    ensures f.Bytes() == Enc(FrameSchema(f.schema), FrameValue(f.ty, f.payload))
    ensures IsFrame(f.Bytes()) && MessageOf(f.Bytes()).ty == f.ty
    ensures Payload(f.schema, f.Bytes()) == Some(f.payload)
  {
    PayloadRoundTrip(f.ty, f.schema, f.payload);
    FrameEnc(f.ty, f.schema, f.payload, false);
    var body := Enc(f.schema, f.payload);
    assert f.Bytes()[1..5] == ToBytes(W4, |body|);
    IntegerThere(W4, |body|);
    GenuineIsDecoded(f.ty);
  }

  function WireOf(fs: seq<Sent>): seq<seq<byte>>
    requires forall i | 0 <= i < |fs| :: fs[i].Sendable()
    ensures |WireOf(fs)| == |fs| && forall i | 0 <= i < |fs| :: WireOf(fs)[i] == fs[i].Bytes()
  {
    if fs == [] then [] else [fs[0].Bytes()] + WireOf(fs[1..])
  }

  /**
    As long as a stream of frames has arrived only in part, what comes out are its first frames, and once
    drained all that are complete.
   */
  lemma PrefixOfFrames(frames: seq<seq<byte>>, ops: seq<Op>)
    requires AllFrames(frames) && After(ops).fed <= Flatten(frames)
    ensures After(ops).out <= frames
    ensures !Complete(After(ops).data) && |After(ops).out| < |frames| ==>
        |After(ops).fed| < |Flatten(frames[..|After(ops).out| + 1])|
    ensures !Complete(After(ops).data) && After(ops).fed == Flatten(frames) ==>
            After(ops).out == frames && After(ops).data == []
  {
    var s := After(ops);
    ChunkingIndependence(ops);
    SplitOfPrefix(frames, s.fed);
    Drained(frames, s);
  }

  lemma SplitOfPrefix(frames: seq<seq<byte>>, fed: seq<byte>)
    requires AllFrames(frames) && fed <= Flatten(frames)
    ensures Split(fed).frames <= frames && (fed == Flatten(frames) ==> Split(fed) == Cut(frames, []))
  {
    var rest := Flatten(frames)[|fed|..];
    SplitOfFrames(frames);
    assert Flatten(frames) == fed + rest;
    SplitAppend(fed, rest);
  }

  lemma Drained(frames: seq<seq<byte>>, s: State)
    requires AllFrames(frames) && s.fed <= Flatten(frames) && Flatten(s.out) + s.data == s.fed && s.out <= frames
    ensures !Complete(s.data) && |s.out| < |frames| ==> |s.fed| < |Flatten(frames[..|s.out| + 1])|
  {
    if |s.out| < |frames| && |s.fed| >= |Flatten(frames[..|s.out| + 1])| { NextIsComplete(frames, s); }
  }

  lemma Cancel(a: seq<byte>, b: seq<byte>, c: seq<byte>)
    requires a + b <= a + c
    ensures b <= c
  {
    assert b == (a + b)[|a|..] && c == (a + c)[|a|..];
    assert forall i | 0 <= i < |b| :: b[i] == (a + b)[|a| + i] == (a + c)[|a| + i];
  }

  lemma NextIsComplete(frames: seq<seq<byte>>, s: State)
    requires AllFrames(frames) && s.fed <= Flatten(frames) && s.out <= frames && |s.out| < |frames|
    requires Flatten(s.out) + s.data == s.fed && |s.fed| >= |Flatten(frames[..|s.out| + 1])|
    ensures Complete(s.data)
  {
    var n := |s.out|;
    var f := frames[n];
    assert frames == frames[..n] + ([f] + frames[n + 1..]) && frames[..n] == s.out && frames[..n + 1] == s.out + [f];
    FlattenAppend(s.out, [f] + frames[n + 1..]);
    FlattenAppend(s.out, [f]);
    assert ([f] + frames[n + 1..])[1..] == frames[n + 1..] && [f][1..] == [];
    assert Flatten([f]) == f + [] == f;
    Cancel(Flatten(s.out), s.data, f + Flatten(frames[n + 1..]));
    assert s.data == f + s.data[|f|..];
    FrameStable(f, s.data[|f|..]);
  }

  /** The bytes are handed out as one frame with the frame's type, and yield its payload. */
  ghost predicate ArrivesAs(frame: seq<byte>, f: Sent)
  {
    IsFrame(frame) && MessageOf(frame).ty == f.ty && Payload(f.schema, frame) == Some(f.payload)
  }

  ghost predicate ArriveAs(frames: seq<seq<byte>>, fs: seq<Sent>)
  {
    |frames| <= |fs| && forall i | 0 <= i < |frames| :: ArrivesAs(frames[i], fs[i])
  }

  lemma PrefixArrives(out: seq<seq<byte>>, frames: seq<seq<byte>>, fs: seq<Sent>)
    requires out <= frames && ArriveAs(frames, fs)
    ensures ArriveAs(out, fs)
  {
    forall i | 0 <= i < |out| ensures ArrivesAs(out[i], fs[i]) { assert out[i] == frames[i]; }
  }

  lemma WireArrives(fs: seq<Sent>)
    requires forall i | 0 <= i < |fs| :: fs[i].Sendable()
    ensures AllFrames(WireOf(fs)) && ArriveAs(WireOf(fs), fs)
  {
    forall i | 0 <= i < |fs| ensures ArrivesAs(WireOf(fs)[i], fs[i]) { SentIsFrame(fs[i]); }
  }

  /**
    Frames written one after the other and fed in whatever pieces come out, byte for byte, as those
    frames in order, each with its type and its payload; once all has arrived and the buffer is
    drained, as all of them.
   */
  lemma FrameStreamRoundTrip(fs: seq<Sent>, ops: seq<Op>)
    requires forall i | 0 <= i < |fs| :: fs[i].Sendable()
    requires After(ops).fed <= Flatten(WireOf(fs))
    ensures After(ops).out <= WireOf(fs) && ArriveAs(After(ops).out, fs)
    ensures !Complete(After(ops).data) && After(ops).fed == Flatten(WireOf(fs)) ==>
            After(ops).out == WireOf(fs) && After(ops).data == []
  {
    WireArrives(fs);
    PrefixOfFrames(WireOf(fs), ops);
    PrefixArrives(After(ops).out, WireOf(fs), fs);
  }
}
