/** Frames and their reassembly from a byte stream: encode_frame, decode_frame and decode_message of
    src/core/yisync_protocol.cpp, and AsyncFrameConnection::parse_frames of src/network/yisync_async.cpp. */
module Frames {
  import opened Wire
  import opened Messages
  import opened Codec

  const MAGIC: U32 := 0x5949_5359
  const VERSION: U8 := 1
  const HEADER_LEN: U16 := 12

  datatype Header = Header(magic: U32, version: U8, msgType: U8, headerLen: U16, bodyLen: U32)

  datatype Frame = Frame(header: Header, body: Bytes)

  function Body(m: Message): Bytes { PutBody(m, []) }

  function PutHeader(h: Header, t: Bytes): Bytes {
    Le32(h.magic) + (Le8(h.version) + (Le8(h.msgType) + (Le16(h.headerLen) + (Le32(h.bodyLen) + t))))
  }

  function TakeHeader(s: Bytes): Parsed<Header> {
    var magic :- TakeU32(s);
    var version :- TakeU8(magic.rest);
    var msgType :- TakeU8(version.rest);
    var headerLen :- TakeU16(msgType.rest);
    var bodyLen :- TakeU32(headerLen.rest);
    Got(Header(magic.value, version.value, msgType.value, headerLen.value, bodyLen.value), bodyLen.rest)
  }

  function EncodeMessage(m: Message): Frame {
    Frame(Header(MAGIC, VERSION, TypeOf(m), HEADER_LEN, Wrap32(|Body(m)|)), Body(m))
  }

  function EncodeFrame(m: Message): Bytes {
    PutHeader(EncodeMessage(m).header, Body(m))
  }

  function DecodeFrame(bytes: Bytes): (r: Option<Frame>)
    ensures r.Some? ==> |bytes| >= 12
  {
    if |bytes| < 12 then None
    else
      match TakeHeader(bytes[..12])
      case Fail => None
      case Got(header, rest) =>
        if rest != [] || header.headerLen != HEADER_LEN then None
        else if |bytes| != Wrap32(12 + header.bodyLen) then None
        else Some(Frame(header, bytes[12..]))
  }

  function DecodeMessage(frame: Frame): Option<Message> {
    if frame.header.magic != MAGIC || frame.header.version != VERSION then None
    else
      match TakeBody(frame.header.msgType, frame.body)
      case Fail => None
      case Got(m, rest) => if rest == [] then Some(m) else None
  }

  /** `decode_message(decode_frame(bytes))`, with None for an exception from either. */
  function Decode(bytes: Bytes): (r: Option<Message>)
    ensures r.Some? ==> |bytes| >= 12
  {
    match DecodeFrame(bytes)
    case None => None
    case Some(frame) => DecodeMessage(frame)
  }

  // ---------- The same, by writer and reader ----------

  method WriteKind(w: Writer, magic: U32, version: U8, msgType: U8)
    modifies w
    ensures forall t :: w.out + t == old(w.out) + (Le32(magic) + (Le8(version) + (Le8(msgType) + t)))
  {
    hide Le8, Le32;
    Regroup();
    w.U32(magic);
    w.U8(version);
    w.U8(msgType);
  }

  method WriteHeader(w: Writer, h: Header)
    modifies w
    ensures forall t :: w.out + t == old(w.out) + PutHeader(h, t)
  {
    hide Le8, Le16, Le32;
    Regroup();
    WriteKind(w, h.magic, h.version, h.msgType);
    w.U16(h.headerLen);
    w.U32(h.bodyLen);
  }

  method EncodeFrameBytes(m: Message) returns (bytes: Bytes)
    ensures bytes == EncodeFrame(m)
  {
    hide PutBody, PutHeader, TypeOf;
    var body := EncodeBody(m);
    var w := new Writer();
    WriteHeader(w, Header(MAGIC, VERSION, TypeOf(m), HEADER_LEN, Wrap32(|body|)));
    bytes := w.out + body;
    assert [] + PutHeader(EncodeMessage(m).header, body) == PutHeader(EncodeMessage(m).header, body);
  }

  method ReadHeader(r: Reader) returns (x: Option<Header>)
    requires r.Valid()
    modifies r`pos
    ensures r.Valid() && Took(TakeHeader(old(r.Rest())), x, r.Rest())
  {
    hide TakeU8, TakeU16, TakeU32;
    var magic :- r.U32();
    var version :- r.U8();
    var msgType :- r.U8();
    var headerLen :- r.U16();
    var bodyLen :- r.U32();
    return Some(Header(magic, version, msgType, headerLen, bodyLen));
  }

  method DecodeFrameBytes(bytes: Bytes) returns (x: Option<Frame>)
    ensures x == DecodeFrame(bytes)
  {
    hide TakeHeader;
    if |bytes| < 12 {
      return None;
    }
    var r := new Reader(bytes[..12]);
    var header :- ReadHeader(r);
    var done := r.Done();
    if !done || header.headerLen != HEADER_LEN || |bytes| != Wrap32(header.headerLen + header.bodyLen) {
      return None;
    }
    return Some(Frame(header, bytes[12..]));
  }

  /** `decode_message(decode_frame(bytes))`. */
  method DecodeBytes(bytes: Bytes) returns (x: Option<Message>)
    ensures x == Decode(bytes)
  {
    hide DecodeFrame, TakeBody;
    var frame :- DecodeFrameBytes(bytes);
    if frame.header.magic != MAGIC || frame.header.version != VERSION {
      return None;
    }
    x := DecodeBody(frame.header.msgType, frame.body);
  }

  // ---------- The codec is a bijection ----------

  lemma HeaderReads(h: Header, t: Bytes)
    ensures TakeHeader(PutHeader(h, t)) == Got(h, t)
  {
    NumbersRead();
    hide Le8, TakeU8, Le16, TakeU16, Le32, TakeU32;
  }

  lemma HeaderExact(s: Bytes)
    requires TakeHeader(s).Got?
    ensures PutHeader(TakeHeader(s).value, TakeHeader(s).rest) == s
  {
    NumbersExact();
    hide Le8, TakeU8, Le16, TakeU16, Le32, TakeU32;
  }

  lemma HeaderSplits(h: Header, t: Bytes)
    ensures |PutHeader(h, [])| == 12
    ensures PutHeader(h, t) == PutHeader(h, []) + t
    ensures LE(2, h.headerLen) == PutHeader(h, t)[6..8] && LE(4, h.bodyLen) == PutHeader(h, t)[8..12]
  {
    hide LE;
    var a, b := Le32(h.magic) + (Le8(h.version) + Le8(h.msgType)), Le16(h.headerLen) + Le32(h.bodyLen);
    assert PutHeader(h, t) == a + (b + t);
    assert PutHeader(h, []) == a + b;
  }

  /** What decode_frame makes of a header in front of a body: the 32-bit sum must match the length. */
  lemma DecodeFraming(h: Header, body: Bytes)
    ensures DecodeFrame(PutHeader(h, body)) ==
            if h.headerLen == HEADER_LEN && 12 + |body| == Wrap32(12 + h.bodyLen) then Some(Frame(h, body)) else None
  {
    HeaderSplits(h, body);
    HeaderReads(h, []);
    hide PutHeader, TakeHeader;
    var bytes := PutHeader(h, body);
    assert bytes[..12] == PutHeader(h, []) && bytes[12..] == body;
  }

  /** Every message decodes back to itself exactly when header and body together stay below 2^32 bytes. */
  lemma DecodeEncoded(m: Message)
    ensures Decode(EncodeFrame(m)) == if 12 + |Body(m)| < 0x1_0000_0000 then Some(m) else None
  {
    BodyReads(m, []);
    DecodeFraming(EncodeMessage(m).header, Body(m));
    hide PutHeader, PutBody, TakeBody, DecodeFrame;
    var n := |Body(m)|;
    assert 12 + n == Wrap32(12 + Wrap32(n)) <==> 12 + n < 0x1_0000_0000;
  }

  lemma DataLength(m: Message)
    requires m.Data?
    ensures |Body(m)| == 58 + |m.checksum| + |m.payload|
  {
    hide LE;
  }

  /** Such messages exist: a DATA of 2^32 - 1 payload bytes is encoded, and its frame decodes to nothing. */
  lemma LargestPayloadIsLost(payload: Blob)
    requires |payload| == 0xFFFF_FFFF
    ensures Decode(EncodeFrame(Data(1, 1, 1, 0, 0xFFFF_FFFF, 0xFFFF_FFFF, 0, 1, [0, 0, 0, 0], payload))) == None
  {
    hide Body;
    var m := Data(1, 1, 1, 0, 0xFFFF_FFFF, 0xFFFF_FFFF, 0, 1, [0, 0, 0, 0], payload);
    DataLength(m);
    DecodeEncoded(m);
    hide Decode, EncodeFrame;
  }

  lemma FrameExact(bytes: Bytes)
    requires DecodeFrame(bytes).Some?
    ensures var f := DecodeFrame(bytes).value;
      PutHeader(f.header, f.body) == bytes && f.header.headerLen == HEADER_LEN && f.header.bodyLen == |f.body|
    ensures |bytes| == 12 + |DecodeFrame(bytes).value.body| < 0x1_0000_0000
  {
    hide PutHeader, TakeHeader;
    HeaderExact(bytes[..12]);
    var f := DecodeFrame(bytes).value;
    HeaderSplits(f.header, f.body);
    assert bytes == bytes[..12] + bytes[12..];
  }

  /** Accepted bytes are the encoding of what they decode to. */
  lemma EncodeDecoded(bytes: Bytes)
    requires Decode(bytes).Some?
    ensures EncodeFrame(Decode(bytes).value) == bytes
    ensures |bytes| == 12 + |Body(Decode(bytes).value)| < 0x1_0000_0000
  {
    hide PutHeader, PutBody, TakeBody, DecodeFrame, TypeOf;
    FrameExact(bytes);
    var f := DecodeFrame(bytes).value;
    BodyExact(f.header.msgType, f.body);
    var m := TakeBody(f.header.msgType, f.body).value;
    assert Body(m) == f.body;
  }

  /** The two length fields, read where the connection reads them. */
  lemma LengthFields(m: Message, t: Bytes)
    requires 12 + |Body(m)| < 0x1_0000_0000
    ensures |EncodeFrame(m)| == 12 + |Body(m)|
    ensures (EncodeFrame(m) + t)[6..8] == LE(2, 12) && (EncodeFrame(m) + t)[8..12] == LE(4, |Body(m)|)
  {
    HeaderSplits(EncodeMessage(m).header, Body(m));
    hide PutHeader, PutBody, LE;
    assert (EncodeFrame(m) + t)[6..8] == EncodeFrame(m)[6..8];
    assert (EncodeFrame(m) + t)[8..12] == EncodeFrame(m)[8..12];
  }

  /** A frame and whatever follows it tell where the frame ends. */
  lemma FrameLengths(m: Message, t: Bytes)
    requires 12 + |Body(m)| < 0x1_0000_0000
    ensures |EncodeFrame(m)| == 12 + |Body(m)|
    ensures Val((EncodeFrame(m) + t)[6..8]) == 12 && Val((EncodeFrame(m) + t)[8..12]) == |Body(m)|
  {
    LengthFields(m, t);
    Caps();
    ValOfLE(2, 12);
    ValOfLE(4, |Body(m)|);
    hide EncodeFrame, Body, LE, Val;
  }

  // ---------- Reassembly ----------

  /** What has come out of a connection: while it is open the unparsed bytes remain. */
  datatype Stream = Open(messages: seq<Message>, rest: Bytes) | Closed(messages: seq<Message>) {
    function After(earlier: seq<Message>): Stream {
      match this
      case Open(ms, rest) => Open(earlier + ms, rest)
      case Closed(ms) => Closed(earlier + ms)
    }
  }

  /** The length of the frame at the front of `s` by its header, None when the header is refused. */
  function FrameLen(max: U64, s: Bytes): Option<U32>
    requires |s| >= 12
  {
    var n := Wrap32(12 + Val(s[8..12]));
    if Val(s[6..8]) != 12 || n > max then None else Some(n)
  }

  function Deframe(max: U64, s: Bytes): Stream
    decreases |s|
  {
    if |s| < 12 then Open([], s)
    else
      match FrameLen(max, s)
      case None => Closed([])
      case Some(n) =>
        if |s| < n then Open([], s)
        else
          match Decode(s[..n])
          case None => Closed([])
          case Some(m) => Deframe(max, s[n..]).After([m])
  }

  function Feed(max: U64, state: Stream, segment: Bytes): Stream {
    match state
    case Open(ms, rest) => Deframe(max, rest + segment).After(ms)
    case Closed(_) => state
  }

  function FeedAll(max: U64, state: Stream, segments: seq<Bytes>): Stream
    decreases |segments|
  {
    if segments == [] then state else FeedAll(max, Feed(max, state, segments[0]), segments[1..])
  }

  function Join(parts: seq<Bytes>): Bytes {
    if parts == [] then [] else parts[0] + Join(parts[1..])
  }

  lemma {:induction false} JoinOneMore(parts: seq<Bytes>, i: nat)
    requires i < |parts|
    ensures Join(parts[..i + 1]) == Join(parts[..i]) + parts[i]
  {
    if i > 0 {
      JoinOneMore(parts[1..], i - 1);
      assert parts[..i + 1][1..] == parts[1..][..i] && parts[..i][1..] == parts[1..][..i - 1];
    }
  }

  /** What recv returns until a call of read_available is over. */
  datatype Ending = WouldBlock | PeerClosed | RecvFailed
  datatype Read = Read(segments: seq<Bytes>, ending: Ending)

  function OnRead(max: U64, state: Stream, read: Read): Stream {
    match state
    case Closed(_) => state
    case Open(ms, _) => if read.ending.WouldBlock? then Feed(max, state, Join(read.segments)) else Closed(ms)
  }

  function OnReads(max: U64, state: Stream, calls: seq<Read>): Stream
    decreases |calls|
  {
    if calls == [] then state else OnReads(max, OnRead(max, state, calls[0]), calls[1..])
  }

  function EncodeAll(ms: seq<Message>): Bytes {
    if ms == [] then [] else EncodeFrame(ms[0]) + EncodeAll(ms[1..])
  }

  class AsyncFrameConnection {
    const maxFrameBytes: U64
    var readBuffer: Bytes
    var open: bool
    /** The messages handed to the callback. */
    var delivered: seq<Message>

    constructor (maxFrameBytes: U64)
      ensures this.maxFrameBytes == maxFrameBytes && State() == Open([], [])
    {
      this.maxFrameBytes := maxFrameBytes;
      readBuffer, open, delivered := [], true, [];
    }

    function State(): Stream reads this {
      if open then Open(delivered, readBuffer) else Closed(delivered)
    }

    method ParseFrames()
      modifies this
      ensures State() == if old(open) then Deframe(maxFrameBytes, old(readBuffer)).After(old(delivered))
                         else old(State())
    {
      hide Decode, Val;
      ghost var goal := if open then Deframe(maxFrameBytes, readBuffer).After(delivered) else State();
      while open && |readBuffer| >= 12
        invariant goal == if open then Deframe(maxFrameBytes, readBuffer).After(delivered) else State()
        decreases open, |readBuffer|
      {
        var headerLen, bodyLen := Val(readBuffer[6..8]), Val(readBuffer[8..12]);
        if headerLen != 12 || Wrap32(headerLen + bodyLen) > maxFrameBytes {
          open := false;
          assert goal.messages == delivered;
          return;
        }
        var frameLen := Wrap32(headerLen + bodyLen);
        if |readBuffer| < frameLen {
          assert goal.messages == delivered;
          return;
        }
        var frame := readBuffer[..frameLen];
        readBuffer := readBuffer[frameLen..];
        var message := DecodeBytes(frame);
        if message == None {
          open := false;
          assert goal.messages == delivered;
          return;
        }
        ghost var later, sofar := Deframe(maxFrameBytes, readBuffer).messages, delivered;
        delivered := delivered + [message.value];
        assert sofar + ([message.value] + later) == delivered + later;
      }
      assert delivered + [] == delivered;
    }

    /** read_available: `read` is what recv returns, call by call. The bytes join the buffer, and whole frames leave it
        when nothing more is there to be read; when the peer has closed, or recv fails, the connection closes first. */
    method ReadAvailable(read: Read)
      modifies this
      ensures State() == OnRead(maxFrameBytes, old(State()), read)
    {
      if !open {
        return;
      }
      ghost var before := readBuffer;
      for i := 0 to |read.segments|
        invariant open && delivered == old(delivered) && readBuffer == before + Join(read.segments[..i])
      {
        readBuffer := readBuffer + read.segments[i];
        JoinOneMore(read.segments, i);
      }
      assert read.segments[..|read.segments|] == read.segments;
      if read.ending != WouldBlock {
        open := false;
        return;
      }
      ParseFrames();
    }
  }

  // ---------- Properties of reassembly ----------

  /** How the bytes were cut into reads makes no difference, whatever they are. */
  lemma {:induction false} SegmentsDoNotMatter(max: U64, state: Stream, segments: seq<Bytes>)
    requires state.Open? ==> Deframe(max, state.rest) == Open([], state.rest)
    ensures FeedAll(max, state, segments) == Feed(max, state, Join(segments))
    decreases |segments|
  {
    hide Decode, EncodeFrame, Body, Val, LE;
    if segments == [] {
      if state.Open? {
        assert state.rest + [] == state.rest && state.messages + [] == state.messages;
      }
    } else {
      var next := Feed(max, state, segments[0]);
      match state {
        case Closed(_) => SegmentsDoNotMatter(max, state, segments[1..]);
        case Open(ms, rest) =>
          var tail := Join(segments[1..]);
          DeframeMore(max, rest + segments[0], tail);
          assert rest + Join(segments) == (rest + segments[0]) + tail;
          SegmentsDoNotMatter(max, next, segments[1..]);
          Associate(Deframe(max, rest + segments[0]), ms, tail, max);
      }
    }
  }

  lemma Associate(first: Stream, ms: seq<Message>, tail: Bytes, max: U64)
    ensures Feed(max, first.After(ms), tail) == Feed(max, first, tail).After(ms)
  {
    hide Deframe;
    if first.Open? {
      var later := Deframe(max, first.rest + tail);
      assert (ms + first.messages) + later.messages == ms + (first.messages + later.messages);
    }
  }

  /** Parsing early and then going on is parsing late; what is kept cannot be parsed any further. */
  lemma {:induction false} DeframeMore(max: U64, s: Bytes, more: Bytes)
    ensures Deframe(max, s + more) == Feed(max, Deframe(max, s), more)
    ensures Deframe(max, s).Open? ==> Deframe(max, Deframe(max, s).rest) == Open([], Deframe(max, s).rest)
    decreases |s|
  {
    hide Decode, EncodeFrame, Body, Val, LE;
    if |s| < 12 {
      NoneBefore(max, s + more);
    } else {
      assert (s + more)[6..8] == s[6..8] && (s + more)[8..12] == s[8..12];
      match FrameLen(max, s) {
        case None =>
        case Some(n) =>
          if |s| < n {
            NoneBefore(max, s + more);
          } else {
            assert (s + more)[..n] == s[..n] && (s + more)[n..] == s[n..] + more;
            match Decode(s[..n]) {
              case None =>
              case Some(m) =>
                DeframeMore(max, s[n..], more);
                Associate(Deframe(max, s[n..]), [m], more, max);
            }
          }
      }
    }
  }

  lemma NoneBefore(max: U64, s: Bytes)
    ensures Deframe(max, s).After([]) == Deframe(max, s)
  {
    assert [] + Deframe(max, s).messages == Deframe(max, s).messages;
  }

  /** The bytes used up are exactly the encodings of the messages delivered, for any input. */
  lemma {:induction false} DeliveredAreExact(max: U64, s: Bytes)
    ensures EncodeAll(Deframe(max, s).messages) <= s
    ensures Deframe(max, s).Open? ==> s == EncodeAll(Deframe(max, s).messages) + Deframe(max, s).rest
    ensures forall m <- Deframe(max, s).messages :: |EncodeFrame(m)| <= max
    decreases |s|
  {
    hide Decode, EncodeFrame, Body, Val, LE, Wrap32;
    if |s| >= 12 && FrameLen(max, s).Some? && |s| >= FrameLen(max, s).value {
      var n := FrameLen(max, s).value;
      match Decode(s[..n])
      case None =>
      case Some(m) =>
        EncodeDecoded(s[..n]);
        DeliveredAreExact(max, s[n..]);
        FirstDelivered(s, n, m, Deframe(max, s[n..]));
        hide EncodeAll;
    }
  }

  lemma FirstDelivered(s: Bytes, n: nat, m: Message, later: Stream)
    requires n <= |s| && EncodeFrame(m) == s[..n] && EncodeAll(later.messages) <= s[n..]
    requires later.Open? ==> s[n..] == EncodeAll(later.messages) + later.rest
    ensures EncodeAll(later.After([m]).messages) <= s
    ensures later.Open? ==> s == EncodeAll(later.After([m]).messages) + later.rest
    ensures later.After([m]).messages == [m] + later.messages
  {
    hide EncodeFrame;
    assert ([m] + later.messages)[1..] == later.messages;
    assert EncodeAll([m] + later.messages) == s[..n] + EncodeAll(later.messages);
    assert s == s[..n] + s[n..];
  }

  predicate WithinLimit(max: U64, m: Message) {
    12 + |Body(m)| < 0x1_0000_0000 && |EncodeFrame(m)| <= max
  }

  lemma FrameIsDelivered(max: U64, m: Message, t: Bytes)
    requires WithinLimit(max, m)
    ensures Deframe(max, EncodeFrame(m) + t) == Deframe(max, t).After([m])
  {
    hide Decode, EncodeFrame, Body, Val, LE, TypeOf;
    FrameLengths(m, t);
    DecodeEncoded(m);
    var s, n := EncodeFrame(m) + t, |EncodeFrame(m)|;
    assert s[..n] == EncodeFrame(m) && s[n..] == t;
    assert FrameLen(max, s) == Some(n);
  }

  /** Whole frames within the limit are delivered in order, and parsing goes on behind them. */
  lemma {:induction false} FramesAreDelivered(max: U64, ms: seq<Message>, t: Bytes)
    requires forall m <- ms :: WithinLimit(max, m)
    ensures Deframe(max, EncodeAll(ms) + t) == Deframe(max, t).After(ms)
  {
    hide Decode, EncodeFrame, Deframe, WithinLimit;
    if ms == [] {
      assert [] + t == t && [] + Deframe(max, t).messages == Deframe(max, t).messages;
    } else {
      var later := EncodeAll(ms[1..]) + t;
      assert EncodeAll(ms) + t == EncodeFrame(ms[0]) + later;
      FrameIsDelivered(max, ms[0], later);
      FramesAreDelivered(max, ms[1..], t);
      assert [ms[0]] + (ms[1..] + Deframe(max, t).messages) == ms + Deframe(max, t).messages;
    }
  }

  /** A proper prefix of a frame within the limit is kept, whole. */
  lemma PartialFrameIsKept(max: U64, m: Message, cut: nat)
    requires WithinLimit(max, m) && cut < |EncodeFrame(m)|
    ensures Deframe(max, EncodeFrame(m)[..cut]) == Open([], EncodeFrame(m)[..cut])
  {
    hide Decode, EncodeFrame, Body, Val, LE;
    var frame := EncodeFrame(m);
    FrameLengths(m, []);
    assert frame + [] == frame;
    if cut >= 12 {
      assert frame[..cut][6..8] == frame[6..8] && frame[..cut][8..12] == frame[8..12];
    }
  }

  /** A stream of frames, cut anywhere into reads and possibly in the middle of a frame at its end. */
  lemma StreamIsReassembled(max: U64, ms: seq<Message>, next: Message, cut: nat, segments: seq<Bytes>)
    requires forall m <- ms + [next] :: WithinLimit(max, m)
    requires cut < |EncodeFrame(next)|
    requires Join(segments) == EncodeAll(ms) + EncodeFrame(next)[..cut]
    ensures FeedAll(max, Open([], []), segments) == Open(ms, EncodeFrame(next)[..cut])
  {
    SegmentsDoNotMatter(max, Open([], []), segments);
    var s := Join(segments);
    assert [] + s == s;
    forall m <- ms ensures WithinLimit(max, m) {
      assert m in ms + [next];
    }
    assert next in ms + [next];
    FramesAreDelivered(max, ms, EncodeFrame(next)[..cut]);
    PartialFrameIsKept(max, next, cut);
    NoneBefore(max, s);
    assert ms + [] == ms;
  }

  function SegmentsOf(calls: seq<Read>): seq<Bytes> {
    seq(|calls|, i requires 0 <= i < |calls| => Join(calls[i].segments))
  }

  /** Calls that end because nothing more is there feed their bytes, call by call. */
  lemma {:induction false} ReadsFeed(max: U64, state: Stream, calls: seq<Read>)
    requires forall r <- calls :: r.ending.WouldBlock?
    ensures OnReads(max, state, calls) == FeedAll(max, state, SegmentsOf(calls))
    decreases |calls|
  {
    hide Deframe;
    if calls != [] {
      assert calls[0] in calls;
      ReadsFeed(max, OnRead(max, state, calls[0]), calls[1..]);
      assert SegmentsOf(calls)[1..] == SegmentsOf(calls[1..]);
    }
  }

  /** The messages of the calls before are delivered, in order; a call in which the peer closes delivers none of what it
      read, not even frames that it completed. */
  lemma ReadsDeliver(max: U64, ms: seq<Message>, next: Message, cut: nat, calls: seq<Read>, last: Read)
    requires forall m <- ms + [next] :: WithinLimit(max, m)
    requires cut < |EncodeFrame(next)| && forall r <- calls :: r.ending.WouldBlock?
    requires Join(SegmentsOf(calls)) == EncodeAll(ms) + EncodeFrame(next)[..cut]
    ensures OnReads(max, Open([], []), calls) == Open(ms, EncodeFrame(next)[..cut])
    ensures !last.ending.WouldBlock? ==> OnReads(max, Open([], []), calls + [last]) == Closed(ms)
  {
    ReadsFeed(max, Open([], []), calls);
    StreamIsReassembled(max, ms, next, cut, SegmentsOf(calls));
    OneMoreRead(max, Open([], []), calls, last);
    hide FeedAll, Join, SegmentsOf;
  }

  lemma {:induction false} OneMoreRead(max: U64, state: Stream, calls: seq<Read>, last: Read)
    ensures OnReads(max, state, calls + [last]) == OnRead(max, OnReads(max, state, calls), last)
    decreases |calls|
  {
    hide OnRead;
    if calls == [] {
      assert [] + [last] == [last] && [last][1..] == [];
    } else {
      assert (calls + [last])[0] == calls[0] && (calls + [last])[1..] == calls[1..] + [last];
      OneMoreRead(max, OnRead(max, state, calls[0]), calls[1..], last);
    }
  }

  /** A header whose lengths wrap around 32 bits closes the connection and yields nothing. */
  lemma WrappedLengthFails(max: U64, s: Bytes)
    requires |s| >= 12 && 12 + Val(s[8..12]) >= 0x1_0000_0000
    ensures Deframe(max, s) == Closed([])
  {
    Caps();
    LEOfVal(s[8..12]);
    assert Wrap32(12 + Val(s[8..12])) < 12;
  }
}
