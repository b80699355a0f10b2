/** Read requests, response validation and the bounded frame extractor (reads.py). */
module Reads {
  import opened Bytes
  import opened Crc
  import opened Outcomes

  type Frame = seq<Byte>

  datatype ReadOperation = TelemetryRead | ConfigurationRead | WaterAlarmRead | StateRead {
    function Function(): Byte { if StateRead? then 1 else 3 }

    function Address(): Word {
      match this
      case TelemetryRead => 1404
      case ConfigurationRead => 0
      case WaterAlarmRead => 396
      case StateRead => 182
    }

    function Count(): Word {
      match this
      case TelemetryRead => 22
      case ConfigurationRead => 37
      case WaterAlarmRead => 1
      case StateRead => 24
    }

    /** Registers use two bytes each; coils are packed eight to a byte. */
    function ByteCount(): Byte { if Function() == 3 then Count() * 2 else (Count() + 7) / 8 }
  }

  function BuildReadRequest(op: ReadOperation): Frame {
    AppendCrc([1, op.Function(), High(op.Address()), Low(op.Address()), High(op.Count()), Low(op.Count())])
  }

  /** Identity, shape and CRC; the value is the payload. */
  function ValidateReadResponse(frame: Frame, op: ReadOperation): Result<seq<Byte>> {
    if |frame| < 5 || frame[0] != 1 then Failure(Protocol)
    else if frame[1] == op.Function() + 0x80 then
      if |frame| != 5 || !TrailerMatches(frame) then Failure(Protocol) else Failure(DeviceException(frame[2]))
    else if frame[1] != op.Function() || frame[2] != op.ByteCount() || |frame| != op.ByteCount() + 5 then
      Failure(Protocol)
    else if !TrailerMatches(frame) then Failure(Protocol)
    else Success(frame[3..|frame| - 2])
  }

  // ----- what a byte stream means, however it is cut up -----

  datatype Header = NeedMore | Bad | Complete(length: nat)

  /** What the first bytes of the buffer say about the frame in front. */
  function ReadHeader(s: seq<Byte>): (h: Header)
    ensures h.Complete? ==> |s| >= 3 && 5 <= h.length <= 255
  {
    if s == [] then NeedMore
    else if s[0] != 1 then Bad
    else if |s| < 2 then NeedMore
    else if s[1] != 1 && s[1] != 3 && s[1] != 0x81 && s[1] != 0x83 then Bad
    else if |s| < 3 then NeedMore
    else if s[1] >= 0x80 then Complete(5)
    else if !(1 <= s[2] <= 250) || (s[1] == 3 && s[2] % 2 != 0) then Bad
    else Complete(s[2] + 5)
  }

  datatype Parsed = Parsed(frames: seq<Frame>, rest: seq<Byte>) | Corrupt {
    function After(earlier: seq<Frame>): Parsed {
      if Corrupt? then Corrupt else Parsed(earlier + frames, rest)
    }
  }

  /** The reference: the frames of a whole byte stream and the bytes left over. */
  function Parse(s: seq<Byte>): Parsed {
    match ReadHeader(s)
    case Bad => Corrupt
    case NeedMore => Parsed([], s)
    case Complete(n) =>
      if |s| < n then Parsed([], s)
      else if !TrailerMatches(s[..n]) then Corrupt
      else Parse(s[n..]).After([s[..n]])
  }

  predicate IsFrame(f: Frame) { ReadHeader(f) == Complete(|f|) && TrailerMatches(f) }

  lemma HeaderStable(a: seq<Byte>, b: seq<Byte>)
    requires !ReadHeader(a).NeedMore?
    ensures ReadHeader(a + b) == ReadHeader(a)
  {}

  /** More bytes only continue from the leftover of the bytes before. */
  lemma {:induction false} ParseAppend(a: seq<Byte>, b: seq<Byte>)
    ensures Parse(a + b) == if Parse(a).Corrupt? then Corrupt else Parse(Parse(a).rest + b).After(Parse(a).frames)
  {
    hide TrailerMatches;
    match ReadHeader(a)
    case Bad => HeaderStable(a, b);
    case NeedMore => EmptyAfter(Parse(a + b));
    case Complete(n) =>
      HeaderStable(a, b);
      if |a| < n {
        EmptyAfter(Parse(a + b));
      } else {
        assert (a + b)[..n] == a[..n] && (a + b)[n..] == a[n..] + b;
        if TrailerMatches(a[..n]) {
          ParseAppend(a[n..], b);
          if !Parse(a[n..]).Corrupt? {
            var later := Parse(Parse(a[n..]).rest + b);
            AfterAfter(later, [a[..n]], Parse(a[n..]).frames);
          }
        }
      }
  }

  lemma EmptyAfter(p: Parsed)
    ensures p.After([]) == p
  {}

  lemma AfterAfter(p: Parsed, a: seq<Frame>, b: seq<Frame>)
    ensures p.After(b).After(a) == p.After(a + b)
  {
    if p.Parsed? { assert a + (b + p.frames) == (a + b) + p.frames; }
  }

  /** The stream a parse result stands for. */
  function Joined(p: Parsed): seq<Byte>
    requires p.Parsed?
  {
    Concat(p.frames) + p.rest
  }

  lemma JoinedAfter(p: Parsed, first: Frame)
    requires p.Parsed?
    ensures Joined(p.After([first])) == first + Joined(p)
  {
    ConcatCons(first, p.frames, p.rest);
  }

  /** Nothing is lost. */
  lemma {:induction false} ParseLossless(s: seq<Byte>)
    requires Parse(s).Parsed?
    ensures Joined(Parse(s)) == s
  {
    hide TrailerMatches, Joined;
    match ReadHeader(s)
    case NeedMore => JoinedNothing(s);
    case Complete(n) =>
      if |s| < n {
        JoinedNothing(s);
      } else {
        ParseLossless(s[n..]);
        JoinedAfter(Parse(s[n..]), s[..n]);
        assert s == s[..n] + s[n..];
      }
  }

  lemma JoinedNothing(s: seq<Byte>)
    ensures Joined(Parsed([], s)) == s
  {
    ConcatNil(s);
  }

  /** Every extracted frame is whole and carries its own length and trailer. */
  lemma {:induction false} ParseFrames(s: seq<Byte>)
    requires Parse(s).Parsed?
    ensures forall f | f in Parse(s).frames :: IsFrame(f)
  {
    hide TrailerMatches;
    match ReadHeader(s)
    case NeedMore =>
    case Complete(n) =>
      if |s| >= n {
        ParseFrames(s[n..]);
        HeaderOfPrefix(s, n);
        assert Parse(s).frames == [s[..n]] + Parse(s[n..]).frames;
      }
  }

  /** The leftover is short of one frame: whatever follows, once its header is complete it
      announces more bytes than are left over, so at most 254 are. */
  lemma {:induction false} ParseRest(s: seq<Byte>)
    requires Parse(s).Parsed?
    ensures |Parse(s).rest| <= 254
    ensures Parse(Parse(s).rest) == Parsed([], Parse(s).rest)
    ensures !ReadHeader(Parse(s).rest).Bad?
    ensures forall more :: var h := ReadHeader(Parse(s).rest + more); h.Complete? ==> |Parse(s).rest| < h.length
  {
    hide TrailerMatches;
    match ReadHeader(s)
    case NeedMore => HeaderShort(s);
    case Complete(n) =>
      if |s| >= n {
        ParseRest(s[n..]);
      } else {
        forall more ensures ReadHeader(s + more) == Complete(n) { HeaderStable(s, more); }
      }
  }

  lemma HeaderShort(s: seq<Byte>)
    requires ReadHeader(s).NeedMore?
    ensures |s| <= 2
    ensures forall more :: var h := ReadHeader(s + more); h.Complete? ==> |s| < h.length
  {}

  /** All but the last byte of a frame are there, and the one trailer byte is wrong. */
  predicate Spoiled(rest: seq<Byte>) {
    && ReadHeader(rest).Complete? && |rest| == ReadHeader(rest).length - 1
    && rest[|rest| - 1] != Low(Crc.Crc(rest[..|rest| - 1]))
  }

  /** Some continuation of the leftover is a valid frame. */
  ghost predicate Extends(rest: seq<Byte>) {
    exists more :: IsFrame(rest + more)
  }

  /** A leftover is a strict prefix of some valid frame exactly when its trailer, as far as
      it has arrived, is not already wrong: the CRC is checked only on a whole frame. */
  lemma LeftoverExtends(s: seq<Byte>)
    requires Parse(s).Parsed?
    ensures Extends(Parse(s).rest) <==> !Spoiled(Parse(s).rest)
  {
    hide TrailerMatches, IsFrame, Crc.Crc;
    ParseRest(s);
    var rest := Parse(s).rest;
    if Spoiled(rest) {
      forall more ensures !IsFrame(rest + more) { SpoiledForever(rest, more); }
    } else {
      var more := Completion(rest);
    }
  }

  lemma SpoiledForever(rest: seq<Byte>, more: seq<Byte>)
    requires Spoiled(rest)
    ensures !IsFrame(rest + more)
  {
    hide TrailerMatches, Crc.Crc, ReadHeader;
    HeaderStable(rest, more);
    var frame, n := rest + more, |rest| + 1;
    if |frame| == n {
      assert frame[..n - 2] == rest[..n - 2] && frame[n - 2] == rest[n - 2];
      if TrailerMatches(frame) { TrailerDetermined(frame); }
    }
  }

  /** Bytes that complete a leftover to a frame. */
  lemma Completion(rest: seq<Byte>) returns (more: seq<Byte>)
    requires Parse(rest) == Parsed([], rest) && !ReadHeader(rest).Bad? && !Spoiled(rest)
    ensures IsFrame(rest + more)
  {
    hide TrailerMatches, Crc.Crc;
    if ReadHeader(rest).NeedMore? {
      var start := [1, if |rest| < 2 then 3 else rest[1], 2];
      assert start == rest + start[|rest|..];
      var end := CompleteHeader(start);
      more := start[|rest|..] + end;
      assert rest + more == start + end;
    } else {
      RestShort(rest);
      more := CompleteHeader(rest);
    }
  }

  lemma RestShort(rest: seq<Byte>)
    requires Parse(rest) == Parsed([], rest) && ReadHeader(rest).Complete?
    ensures |rest| < ReadHeader(rest).length
  {
    hide TrailerMatches;
    ParseRest(rest);
    assert rest + [] == rest;
  }

  lemma CompleteHeader(start: seq<Byte>) returns (more: seq<Byte>)
    requires ReadHeader(start).Complete? && |start| < ReadHeader(start).length && !Spoiled(start)
    ensures IsFrame(start + more)
  {
    hide TrailerMatches, Crc.Crc;
    var n := ReadHeader(start).length;
    var body := if |start| <= n - 2 then start + seq(n - 2 - |start|, _ => 0) else start[..n - 2];
    var frame := AppendCrc(body);
    AppendedTrailerMatches(body);
    more := frame[|start|..];
    if |start| <= n - 2 {
      assert frame[..n - 2] == body && body[..|start|] == start;
      assert frame[..|start|] == start;
    } else {
      assert frame[n - 2] == Low(Crc.Crc(body)) == start[n - 2];
      assert frame[..|start|] == start;
    }
    assert frame == start + more;
    HeaderStable(start, more);
  }

  /** The family of leftovers that no further byte can make a frame: any body that announces
      its own length, followed by a wrong low trailer byte. */
  lemma SpoiledLeftover(body: seq<Byte>, bad: Byte)
    requires ReadHeader(body) == Complete(|body| + 2) && bad != Low(Crc.Crc(body))
    ensures Parse(body + [bad]) == Parsed([], body + [bad])
    ensures !Extends(body + [bad])
  {
    hide TrailerMatches, IsFrame, Crc.Crc;
    HeaderStable(body, [bad]);
    assert (body + [bad])[..|body|] == body;
    LeftoverExtends(body + [bad]);
  }

  lemma HeaderOfPrefix(s: seq<Byte>, n: nat)
    requires ReadHeader(s) == Complete(n) && n <= |s|
    ensures ReadHeader(s[..n]) == Complete(n)
  {}

  /** Valid frames sent back to back are recovered exactly. */
  lemma {:induction false} ParseConcat(frames: seq<Frame>)
    requires forall f | f in frames :: IsFrame(f)
    ensures Parse(Concat(frames)) == Parsed(frames, [])
  {
    hide TrailerMatches;
    if frames != [] {
      var f, later := frames[0], Concat(frames[1..]);
      ParseConcat(frames[1..]);
      assert f in frames;
      HeaderStable(f, later);
      assert (f + later)[..|f|] == f && (f + later)[|f|..] == later;
      assert [f] + frames[1..] == frames;
    }
  }

  // ----- which frames there are -----

  /** A frame is slave 1, a read of coils or registers with its count of one to 250 bytes,
      even for registers, and that many bytes; or an exception with one code byte. The
      CRC of all of it follows. */
  lemma FrameExactly(frame: Frame)
    ensures IsFrame(frame) <==>
      && |frame| >= 5 && frame[0] == 1 && frame == AppendCrc(frame[..|frame| - 2])
      && (((frame[1] == 1 || frame[1] == 3) && 1 <= frame[2] <= 250 && |frame| == frame[2] + 5
           && (frame[1] == 3 ==> frame[2] % 2 == 0))
          || ((frame[1] == 0x81 || frame[1] == 0x83) && |frame| == 5))
  {
    hide TrailerMatches, Crc.Crc, AppendCrc;
    if |frame| >= 2 {
      AppendedTrailerMatches(frame[..|frame| - 2]);
      if TrailerMatches(frame) { TrailerDetermined(frame); }
    }
  }

  /** A stream is given up exactly when its front can no longer become a frame header. */
  lemma HopelessExactly(s: seq<Byte>)
    ensures ReadHeader(s).Bad? <==> forall more :: !ReadHeader(s + more).Complete?
  {
    if ReadHeader(s).Bad? {
      forall more ensures !ReadHeader(s + more).Complete? { HeaderStable(s, more); }
    } else if ReadHeader(s).NeedMore? {
      var start := [1, if |s| < 2 then 3 else s[1], 2];
      assert s + start[|s|..] == start;
      assert ReadHeader(s + start[|s|..]).Complete?;
    } else {
      assert s + [] == s;
      assert ReadHeader(s + []).Complete?;
    }
  }

  /** A response is valid exactly when it is the answer of slave 1 to this function with as
      many bytes as were asked for, and its CRC; the payload is what stands between. */
  lemma ValidExactly(frame: Frame, op: ReadOperation, payload: seq<Byte>)
    ensures ValidateReadResponse(frame, op) == Success(payload) <==>
      |payload| == op.ByteCount() && frame == AppendCrc([1, op.Function(), op.ByteCount()] + payload)
  {
    hide TrailerMatches, Crc.Crc;
    var body := [1, op.Function(), op.ByteCount()] + payload;
    AppendedTrailerMatches(body);
    if frame == AppendCrc(body) { assert frame[3..|frame| - 2] == payload; }
    if ValidateReadResponse(frame, op) == Success(payload) {
      TrailerDetermined(frame);
      assert frame[..|frame| - 2] == body;
    }
  }

  /** A device exception is reported exactly for the exception frame of this function. */
  lemma ExceptionExactly(frame: Frame, op: ReadOperation, code: Byte)
    ensures ValidateReadResponse(frame, op) == Failure(DeviceException(code)) <==>
      frame == AppendCrc([1, op.Function() + 0x80, code])
  {
    hide TrailerMatches, Crc.Crc;
    var body := [1, op.Function() + 0x80, code];
    AppendedTrailerMatches(body);
    if ValidateReadResponse(frame, op) == Failure(DeviceException(code)) {
      TrailerDetermined(frame);
      assert frame[..|frame| - 2] == body;
    }
  }

  /** The four requests on the wire, before their CRC, and the bytes each asks for. */
  lemma RequestImages()
    ensures BuildReadRequest(TelemetryRead) == AppendCrc([1, 3, 0x05, 0x7C, 0, 22]) && TelemetryRead.ByteCount() == 44
    ensures BuildReadRequest(ConfigurationRead) == AppendCrc([1, 3, 0, 0, 0, 37]) && ConfigurationRead.ByteCount() == 74
    ensures BuildReadRequest(WaterAlarmRead) == AppendCrc([1, 3, 0x01, 0x8C, 0, 1]) && WaterAlarmRead.ByteCount() == 2
    ensures BuildReadRequest(StateRead) == AppendCrc([1, 1, 0, 182, 0, 24]) && StateRead.ByteCount() == 3
  {
    hide AppendCrc;
  }

  // ----- one feed, and a run of feeds -----

  const BUFFER_LIMIT := 512

  function FeedOnce(buffer: seq<Byte>, fragment: seq<Byte>): Parsed {
    if |buffer| + |fragment| > BUFFER_LIMIT then Corrupt else Parse(buffer + fragment)
  }

  /** Every frame handed out by a run of feeds; Corrupt once any feed has failed. */
  function FeedAll(buffer: seq<Byte>, fragments: seq<seq<Byte>>): Parsed
    decreases fragments
  {
    if fragments == [] then Parsed([], buffer)
    else
      var p := FeedOnce(buffer, fragments[0]);
      if p.Corrupt? then Corrupt else FeedAll(p.rest, fragments[1..]).After(p.frames)
  }

  /** With fragments of at most 258 bytes the limit is never met, and the outcome depends
      on the bytes alone, not on where they were cut. */
  lemma {:induction false} FragmentationInvariant(buffer: seq<Byte>, fragments: seq<seq<Byte>>)
    requires Parse(buffer) == Parsed([], buffer)
    requires forall f | f in fragments :: |f| <= 258
    ensures FeedAll(buffer, fragments) == Parse(buffer + Concat(fragments))
    decreases fragments
  {
    ParseRest(buffer);
    if fragments == [] {
      assert buffer + [] == buffer;
    } else {
      var now, later := buffer + fragments[0], Concat(fragments[1..]);
      assert buffer + Concat(fragments) == now + later;
      ParseAppend(now, later);
      if Parse(now).Parsed? {
        ParseRest(now);
        FragmentationInvariant(Parse(now).rest, fragments[1..]);
      }
    }
  }

  /** Two ways of cutting up the same bytes give the same frames and the same leftover,
      or both fail. */
  lemma SameBytesSameFrames(a: seq<seq<Byte>>, b: seq<seq<Byte>>)
    requires Concat(a) == Concat(b)
    requires forall f | f in a :: |f| <= 258
    requires forall f | f in b :: |f| <= 258
    ensures FeedAll([], a) == FeedAll([], b)
  {
    FragmentationInvariant([], a);
    FragmentationInvariant([], b);
  }

  /** The bound on fragments is needed: valid frames that together exceed the limit are
      recovered one by one, and refused when they arrive as one fragment. */
  lemma OversizeFragment(frames: seq<Frame>)
    requires forall f | f in frames :: IsFrame(f)
    requires |Concat(frames)| > 512
    ensures FeedAll([], frames) == Parsed(frames, [])
    ensures FeedAll([], [Concat(frames)]) == Corrupt
  {
    ParseConcat(frames);
    FragmentationInvariant([], frames);
    assert [] + Concat(frames) == Concat(frames);
  }

  /** A failed prefix of a run of feeds is never repaired by later fragments. */
  lemma {:induction false} FailurePermanent(buffer: seq<Byte>, a: seq<seq<Byte>>, b: seq<seq<Byte>>)
    requires FeedAll(buffer, a).Corrupt?
    ensures FeedAll(buffer, a + b).Corrupt?
    decreases a
  {
    var p := FeedOnce(buffer, a[0]);
    assert (a + b)[0] == a[0] && (a + b)[1..] == a[1..] + b;
    if p.Parsed? { FailurePermanent(p.rest, a[1..], b); }
  }

  class ReadResponseStream {
    var buffer: seq<Byte>
    var failed: bool

    constructor ()
      ensures buffer == [] && !failed
    {
      buffer, failed := [], false;
    }

    /** Extract complete frames, or fail for good and drop the buffer. */
    method Feed(fragment: seq<Byte>) returns (r: Result<seq<Frame>>)
      modifies this
      ensures old(failed) ==> r == Failure(Protocol) && failed && buffer == old(buffer)
      ensures !old(failed) ==>
        match FeedOnce(old(buffer), fragment)
        case Corrupt => r == Failure(Protocol) && failed && buffer == []
        case Parsed(frames, rest) => r == Success(frames) && !failed && buffer == rest
    {
      if failed {
        return Failure(Protocol);
      }
      r := Extract(fragment);
      if r.Failure? {
        failed := true;
        buffer := [];
      }
    }

    method Extract(fragment: seq<Byte>) returns (r: Result<seq<Frame>>)
      modifies this`buffer
      ensures match FeedOnce(old(buffer), fragment)
        case Corrupt => r == Failure(Protocol)
        case Parsed(frames, rest) => r == Success(frames) && buffer == rest
    {
      hide TrailerMatches;
      if |buffer| + |fragment| > BUFFER_LIMIT {
        return Failure(Protocol);
      }
      buffer := buffer + fragment;
      ghost var whole := buffer;
      var frames := [];
      while buffer != []
        invariant Parse(whole) == Parse(buffer).After(frames)
        decreases |buffer|
      {
        if buffer[0] != 1 {
          return Failure(Protocol);
        }
        if |buffer| < 2 {
          break;
        }
        var code := buffer[1];
        if code !in [1, 3, 0x81, 0x83] {
          return Failure(Protocol);
        }
        if |buffer| < 3 {
          break;
        }
        var length := 5;
        if code < 0x80 {
          var count := buffer[2];
          if !(1 <= count <= 250) || (code == 3 && count % 2 != 0) {
            return Failure(Protocol);
          }
          length := count + 5;
        }
        if |buffer| < length {
          break;
        }
        var frame := buffer[..length];
        if !TrailerMatches(frame) {
          return Failure(Protocol);
        }
        AfterAfter(Parse(buffer[length..]), frames, [frame]);
        frames := frames + [frame];
        buffer := buffer[length..];
      }
      assert Parse(buffer) == Parsed([], buffer);
      assert frames + [] == frames;
      return Success(frames);
    }
  }
}
