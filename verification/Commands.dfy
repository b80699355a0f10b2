/** The finite command table of control sessions and the exact reply each one accepts
    (control_session.py lines 38-162). */
module Commands {
  import opened Bytes
  import opened Crc
  import opened Outcomes
  import opened Reads

  type ChunkIndex = k: int | 0 <= k < 11

  datatype Command =
    | ReadConfiguration
    | ReadTelemetry
    | ReadState
    | ReadProfileMode
    | ReadProfileModes
    | Head(bound: bool)
    | Tail(bound: bool)
    | Chunk(bound: bool, index: ChunkIndex)
    | PilotHeader
    | PilotStage
    | SteamOn
    | SteamOff
    | BrewOn
    | BrewOff
    | ProfilePress
    | ProfileRelease
    | CleaningPress
    | CleaningRelease
  {
    function Function(): Byte {
      match this
      case ReadState => 1
      case PilotHeader | PilotStage => 16
      case SteamOn | SteamOff | BrewOn | BrewOff => 6
      case ProfilePress | ProfileRelease | CleaningPress | CleaningRelease => 5
      case _ => 3
    }

    function Address(): Word {
      match this
      case ReadConfiguration => 0
      case ReadTelemetry => 1404
      case ReadState => 182
      case ReadProfileMode | ReadProfileModes => 87
      case Head(bound) => if bound then 2560 else 2048
      case Tail(bound) => if bound then 2685 else 2173
      case Chunk(bound, k) => (if bound then 2560 else 2048) + 16 * k
      case PilotHeader => 2048
      case PilotStage => 2056
      case SteamOn | SteamOff => 6
      case BrewOn | BrewOff => 7
      case ProfilePress | ProfileRelease => 150
      case CleaningPress | CleaningRelease => 155
    }

    /** Register or coil count of a read, the value of a single write. */
    function Value(): Word {
      match this
      case ReadConfiguration => 37
      case ReadTelemetry => 22
      case ReadState => 24
      case ReadProfileMode => 1
      case ReadProfileModes => 2
      case Head(_) => 125
      case Tail(_) => 42
      case Chunk(_, k) => if k == 10 then 7 else 16
      case PilotHeader => 7
      case PilotStage => 6
      case SteamOn | BrewOn | ProfileRelease | CleaningRelease => 0
      case SteamOff | BrewOff => 1
      case ProfilePress | CleaningPress => 0xFF00
    }

    /** The words of a block write. */
    function Block(): (words: seq<Word>)
      ensures Function() == 16 ==> |words| == Value()
    {
      match this
      case PilotHeader => [1, 1, 1, 1, 65, 0, 0]
      case PilotStage => [28, 90, 0, 0, 1, 0]
      case _ => []
    }

    predicate IsRead() { Function() == 1 || Function() == 3 }

    predicate IsPress() { ProfilePress? || CleaningPress? }

    predicate IsRelease() { ProfileRelease? || CleaningRelease? }

    function PayloadSize(): Byte
      requires IsRead()
    {
      if Function() == 1 then (Value() + 7) / 8 else 2 * Value()
    }

    /** Length of the one non-exception reply. */
    function ReplyLength(): nat { if IsRead() then PayloadSize() + 5 else 8 }
  }

  /** The first six bytes, common to a request and the echo of a write. */
  function Prologue(c: Command): (bytes: seq<Byte>)
    ensures |bytes| == 6
  {
    [1, c.Function(), High(c.Address()), Low(c.Address()), High(c.Value()), Low(c.Value())]
  }

  function Request(c: Command): Frame {
    if c.Function() == 16 then AppendCrc(Prologue(c) + [2 * c.Value()] + FromWords(c.Block()))
    else AppendCrc(Prologue(c))
  }

  /** The reads on the wire, before their CRC. */
  lemma ReadImages()
    ensures Request(ReadConfiguration) == AppendCrc([1, 3, 0, 0, 0, 37])
    ensures Request(ReadTelemetry) == AppendCrc([1, 3, 0x05, 0x7C, 0, 22])
    ensures Request(ReadState) == AppendCrc([1, 1, 0, 182, 0, 24])
    ensures Request(ReadProfileMode) == AppendCrc([1, 3, 0, 87, 0, 1])
    ensures Request(ReadProfileModes) == AppendCrc([1, 3, 0, 87, 0, 2])
  {
    hide AppendCrc;
  }

  /** The reads of the two profile banks: page 8 is the active one, page 10 the bound one. */
  lemma BankImages(bound: bool, page: Byte, k: ChunkIndex)
    requires page == if bound then 0x0A else 0x08
    ensures Request(Head(bound)) == AppendCrc([1, 3, page, 0, 0, 125])
    ensures Request(Tail(bound)) == AppendCrc([1, 3, page, 125, 0, 42])
    ensures Request(Chunk(bound, k)) == AppendCrc([1, 3, page, 16 * k, 0, if k == 10 then 7 else 16])
  {
    hide AppendCrc;
    assert 16 * k <= 160;
  }

  /** The single writes on the wire: registers 6 and 7 are the boilers, zero for on; coils 150
      and 155 are the two toggles. */
  lemma SingleWriteImages()
    ensures Request(SteamOn) == AppendCrc([1, 6, 0, 6, 0, 0]) && Request(SteamOff) == AppendCrc([1, 6, 0, 6, 0, 1])
    ensures Request(BrewOn) == AppendCrc([1, 6, 0, 7, 0, 0]) && Request(BrewOff) == AppendCrc([1, 6, 0, 7, 0, 1])
    ensures Request(ProfilePress) == AppendCrc([1, 5, 0, 150, 0xFF, 0])
    ensures Request(ProfileRelease) == AppendCrc([1, 5, 0, 150, 0, 0])
    ensures Request(CleaningPress) == AppendCrc([1, 5, 0, 155, 0xFF, 0])
    ensures Request(CleaningRelease) == AppendCrc([1, 5, 0, 155, 0, 0])
  {
    hide AppendCrc;
  }

  /** The two block writes on the wire: 65 mL in one stage of 28 seconds at 9.0 bar. */
  lemma BlockWriteImages()
    ensures Request(PilotHeader) ==
      AppendCrc([1, 16, 0x08, 0, 0, 7, 14] + [0, 1, 0, 1, 0, 1, 0, 1, 0, 65, 0, 0, 0, 0])
    ensures Request(PilotStage) == AppendCrc([1, 16, 0x08, 8, 0, 6, 12] + [0, 28, 0, 90, 0, 0, 0, 0, 0, 1, 0, 0])
  {
    hide AppendCrc, FromWords;
    SevenWords(1, 1, 1, 1, 65, 0, 0);
    SixWords(28, 90, 0, 0, 1, 0);
    assert [High(1), Low(1)] + [High(1), Low(1), High(1), Low(1), High(1), Low(1), High(65), Low(65), 0, 0, 0, 0]
      == [0, 1, 0, 1, 0, 1, 0, 1, 0, 65, 0, 0, 0, 0];
    assert Prologue(PilotHeader) + [14] == [1, 16, 0x08, 0, 0, 7, 14];
    assert Prologue(PilotStage) + [12] == [1, 16, 0x08, 8, 0, 6, 12];
  }

  lemma FromWordsCons(w: Word, ws: seq<Word>)
    ensures FromWords([w] + ws) == [High(w), Low(w)] + FromWords(ws)
  {
    assert ([w] + ws)[1..] == ws;
  }

  lemma SixWords(a: Word, b: Word, c: Word, d: Word, e: Word, f: Word)
    ensures FromWords([a, b, c, d, e, f]) ==
      [High(a), Low(a), High(b), Low(b), High(c), Low(c), High(d), Low(d), High(e), Low(e), High(f), Low(f)]
  {
    hide FromWords, High, Low;
    assert [a, b, c, d, e, f] == [a] + [b, c, d, e, f] && [b, c, d, e, f] == [b] + [c, d, e, f];
    assert [c, d, e, f] == [c] + [d, e, f] && [d, e, f] == [d] + [e, f] && [e, f] == [e] + [f] && [f] == [f] + [];
    FromWordsCons(a, [b, c, d, e, f]);
    FromWordsCons(b, [c, d, e, f]);
    FromWordsCons(c, [d, e, f]);
    FromWordsCons(d, [e, f]);
    FromWordsCons(e, [f]);
    FromWordsCons(f, []);
    FromNoWords();
  }

  lemma FromNoWords()
    ensures FromWords([]) == []
  {}

  lemma SevenWords(a: Word, b: Word, c: Word, d: Word, e: Word, f: Word, g: Word)
    ensures FromWords([a, b, c, d, e, f, g]) ==
      [High(a), Low(a)]
      + [High(b), Low(b), High(c), Low(c), High(d), Low(d), High(e), Low(e), High(f), Low(f), High(g), Low(g)]
  {
    hide FromWords, High, Low;
    assert [a, b, c, d, e, f, g] == [a] + [b, c, d, e, f, g];
    FromWordsCons(a, [b, c, d, e, f, g]);
    SixWords(b, c, d, e, f, g);
  }

  /** The replies a command accepts: the addressed payload, or the exact echo. */
  predicate IsReply(frame: Frame, c: Command) {
    if c.IsRead() then
      && |frame| == c.ReplyLength()
      && frame[0] == 1 && frame[1] == c.Function() && frame[2] == c.PayloadSize()
      && TrailerMatches(frame)
    else
      frame == AppendCrc(Prologue(c))
  }

  datatype Verdict = Wait(buffer: seq<Byte>) | Refuse(error: Error) | Deliver(frame: Frame)

  /** One notification during a command exchange. */
  function ControlAccept(buffer: seq<Byte>, fragment: seq<Byte>, c: Command): Verdict {
    var frame := buffer + fragment;
    if |frame| < 2 then Wait(frame)
    else if frame[0] != 1 || (frame[1] != c.Function() && frame[1] != c.Function() + 0x80) then Refuse(Protocol)
    else
      var exception := frame[1] == c.Function() + 0x80;
      var length := if exception then 5 else c.ReplyLength();
      if |frame| > length then Refuse(Protocol)
      else if |frame| < length then Wait(frame)
      else if !TrailerMatches(frame) then Refuse(Protocol)
      else if exception then Refuse(DeviceException(frame[2]))
      else if c.Function() == 5 || c.Function() == 6 then
        if frame != Request(c) then Refuse(Protocol) else Deliver(frame)
      else if c.Function() == 16 then
        if frame != AppendCrc(Request(c)[..6]) then Refuse(Protocol) else Deliver(frame)
      else if frame[2] != c.PayloadSize() then Refuse(Protocol)
      else Deliver(frame)
  }

  /** One notification during a plain read exchange. */
  function ReadAccept(buffer: seq<Byte>, fragment: seq<Byte>, op: ReadOperation): Verdict {
    match FeedOnce(buffer, fragment)
    case Corrupt => Refuse(Protocol)
    case Parsed(frames, rest) =>
      if frames == [] then Wait(rest)
      else if |frames| != 1 || rest != [] then Refuse(Protocol)
      else
        match ValidateReadResponse(frames[0], op)
        case Failure(error) => Refuse(error)
        case Success(_) => Deliver(frames[0])
  }

  lemma WriteRequestLength(c: Command)
    ensures |Request(c)| >= 8 && Request(c)[..6] == Prologue(c)
  {}

  /** A delivered frame is all the bytes so far, and is a reply to this command. */
  lemma ControlAcceptSound(buffer: seq<Byte>, fragment: seq<Byte>, c: Command)
    ensures match ControlAccept(buffer, fragment, c)
      case Wait(b) => b == buffer + fragment
      case Refuse(_) => true
      case Deliver(f) => f == buffer + fragment && IsReply(f, c)
  {
    hide TrailerMatches, AppendCrc;
    WriteRequestLength(c);
  }

  /** Every way of cutting up a reply is waited for and then delivered. */
  lemma ControlAcceptComplete(buffer: seq<Byte>, fragment: seq<Byte>, more: seq<Byte>, c: Command)
    requires IsReply(buffer + fragment + more, c)
    ensures ControlAccept(buffer, fragment, c) ==
      if more == [] then Deliver(buffer + fragment) else Wait(buffer + fragment)
  {
    hide *;
    var frame := buffer + fragment + more;
    ReplyHeader(frame, c);
    if more == [] {
      assert frame == buffer + fragment;
      ControlAcceptWhole(buffer, fragment, c);
    } else {
      ControlAcceptPart(buffer, fragment, more, c);
    }
  }

  lemma ControlAcceptWhole(buffer: seq<Byte>, fragment: seq<Byte>, c: Command)
    requires IsReply(buffer + fragment, c)
    ensures ControlAccept(buffer, fragment, c) == Deliver(buffer + fragment)
  {
    hide TrailerMatches, AppendCrc, Prologue;
    ReplyHeader(buffer + fragment, c);
    WriteRequestLength(c);
  }

  lemma ControlAcceptPart(buffer: seq<Byte>, fragment: seq<Byte>, more: seq<Byte>, c: Command)
    requires more != []
    requires var frame := buffer + fragment + more;
      && |frame| == c.ReplyLength() && |frame| >= 5 && frame[0] == 1 && frame[1] == c.Function()
    ensures ControlAccept(buffer, fragment, c) == Wait(buffer + fragment)
  {
    hide TrailerMatches, AppendCrc, Request;
    var now := buffer + fragment;
    assert forall i | 0 <= i < |now| :: now[i] == (now + more)[i];
  }

  lemma ReplyHeader(frame: Frame, c: Command)
    requires IsReply(frame, c)
    ensures |frame| == c.ReplyLength() >= 5 && TrailerMatches(frame)
    ensures frame[0] == 1 && frame[1] == c.Function()
    ensures c.IsRead() ==> frame[2] == c.PayloadSize()
    ensures !c.IsRead() ==> frame[2] == High(c.Address())
  {
    hide TrailerMatches;
    if !c.IsRead() {
      AppendedTrailerMatches(Prologue(c));
      assert frame[..6] == Prologue(c);
    }
  }

  predicate IsReadReply(frame: Frame, op: ReadOperation) { ValidateReadResponse(frame, op).Success? }

  lemma ReadAcceptSound(buffer: seq<Byte>, fragment: seq<Byte>, op: ReadOperation)
    ensures match ReadAccept(buffer, fragment, op)
      case Wait(b) => b == buffer + fragment
      case Refuse(_) => true
      case Deliver(f) => f == buffer + fragment && IsReadReply(f, op)
  {
    hide ValidateReadResponse, ReadHeader, Parse;
    var p := FeedOnce(buffer, fragment);
    if p.Parsed? {
      ParseLossless(buffer + fragment);
      if p.frames == [] {
        ConcatNil(p.rest);
      } else if |p.frames| == 1 && p.rest == [] {
        ConcatOne(p.frames);
      }
    }
  }

  lemma ConcatOne(frames: seq<Frame>)
    requires |frames| == 1
    ensures Concat(frames) + [] == frames[0]
  {}

  lemma ReadAcceptComplete(buffer: seq<Byte>, fragment: seq<Byte>, more: seq<Byte>, op: ReadOperation)
    requires IsReadReply(buffer + fragment + more, op)
    ensures ReadAccept(buffer, fragment, op) ==
      if more == [] then Deliver(buffer + fragment) else Wait(buffer + fragment)
  {
    hide TrailerMatches;
    var now := buffer + fragment;
    var frame := now + more;
    assert forall i | 0 <= i < |now| :: now[i] == frame[i];
    assert |frame| == op.ByteCount() + 5 && ReadHeader(frame) == Complete(|frame|);
    if more == [] {
      assert now == frame && frame[..|frame|] == frame && frame[|frame|..] == [];
      assert Parse([]) == Parsed([], []);
    }
  }

  /** How one exchange of a command may end, for a session that had failed before it or not
      and has failed after it or not: with an accepted reply on a clean session, or with a
      failed session. */
  ghost predicate Exchanged(c: Command, before: bool, after: bool, r: Result<Frame>) {
    && (r.Success? ==> IsReply(r.value, c) && !before && !after)
    && (r.Failure? ==> after)
  }

  // ----- whole runs of notifications -----

  function AcceptAll(accept: (seq<Byte>, seq<Byte>) -> Verdict, buffer: seq<Byte>, fragments: seq<seq<Byte>>): Verdict
    decreases fragments
  {
    if fragments == [] then Wait(buffer)
    else
      var v := accept(buffer, fragments[0]);
      if v.Wait? then AcceptAll(accept, v.buffer, fragments[1..]) else v
  }

  /** What both acceptors are: they deliver a frame exactly when all bytes so far are one. */
  ghost predicate Exact(accept: (seq<Byte>, seq<Byte>) -> Verdict, reply: Frame -> bool) {
    && (forall b, f :: var v := accept(b, f);
        (v.Wait? ==> v.buffer == b + f) && (v.Deliver? ==> v.frame == b + f && reply(b + f)))
    && (forall b, f, more :: reply(b + f + more) ==>
        accept(b, f) == if more == [] then Deliver(b + f) else Wait(b + f))
  }

  lemma {:induction false} DeliveredIsWhole(accept: (seq<Byte>, seq<Byte>) -> Verdict, reply: Frame -> bool,
      buffer: seq<Byte>, fragments: seq<seq<Byte>>)
    returns (n: nat)
    requires Exact(accept, reply) && AcceptAll(accept, buffer, fragments).Deliver?
    ensures 1 <= n <= |fragments|
    ensures AcceptAll(accept, buffer, fragments).frame == buffer + Concat(fragments[..n])
    ensures reply(buffer + Concat(fragments[..n]))
    decreases fragments
  {
    var v := accept(buffer, fragments[0]);
    if v.Wait? {
      var m := DeliveredIsWhole(accept, reply, v.buffer, fragments[1..]);
      n := m + 1;
    } else {
      n := 1;
    }
    assert fragments[..n] == [fragments[0]] + fragments[1..][..n - 1];
    ConcatFirst(buffer, fragments, n);
  }

  lemma ConcatFirst(buffer: seq<Byte>, fragments: seq<seq<Byte>>, n: nat)
    requires 1 <= n <= |fragments|
    ensures buffer + Concat(fragments[..n]) == (buffer + fragments[0]) + Concat(fragments[1..][..n - 1])
  {
    assert fragments[..n][1..] == fragments[1..][..n - 1];
  }

  lemma {:induction false} WholeIsDelivered(accept: (seq<Byte>, seq<Byte>) -> Verdict, reply: Frame -> bool,
      buffer: seq<Byte>, fragments: seq<seq<Byte>>, n: nat)
    requires Exact(accept, reply) && 1 <= n <= |fragments|
    requires forall i | 0 <= i < |fragments| :: fragments[i] != []
    requires reply(buffer + Concat(fragments[..n]))
    ensures AcceptAll(accept, buffer, fragments) == Deliver(buffer + Concat(fragments[..n]))
    decreases fragments
  {
    var more := Concat(fragments[1..][..n - 1]);
    ConcatFirst(buffer, fragments, n);
    assert reply(buffer + fragments[0] + more);
    if n == 1 {
      assert more == [];
    } else {
      assert more == fragments[1] + Concat(fragments[1..][..n - 1][1..]);
      assert more != [];
      WholeIsDelivered(accept, reply, buffer + fragments[0], fragments[1..], n - 1);
    }
  }

  function ControlAcceptor(c: Command): (seq<Byte>, seq<Byte>) -> Verdict {
    (b, f) => ControlAccept(b, f, c)
  }

  function ReadAcceptor(op: ReadOperation): (seq<Byte>, seq<Byte>) -> Verdict {
    (b, f) => ReadAccept(b, f, op)
  }

  lemma ControlExact(c: Command)
    ensures Exact(ControlAcceptor(c), f => IsReply(f, c))
  {
    hide ControlAccept, IsReply;
    forall b: seq<Byte>, f: seq<Byte>
      ensures var v := ControlAccept(b, f, c);
        (v.Wait? ==> v.buffer == b + f) && (v.Deliver? ==> v.frame == b + f && IsReply(b + f, c))
    {
      ControlAcceptSound(b, f, c);
    }
    forall b: seq<Byte>, f: seq<Byte>, more: seq<Byte> | IsReply(b + f + more, c)
      ensures ControlAccept(b, f, c) == if more == [] then Deliver(b + f) else Wait(b + f)
    {
      ControlAcceptComplete(b, f, more, c);
    }
  }

  lemma ReadExact(op: ReadOperation)
    ensures Exact(ReadAcceptor(op), f => IsReadReply(f, op))
  {
    hide ReadAccept, IsReadReply;
    forall b: seq<Byte>, f: seq<Byte>
      ensures var v := ReadAccept(b, f, op);
        (v.Wait? ==> v.buffer == b + f) && (v.Deliver? ==> v.frame == b + f && IsReadReply(b + f, op))
    {
      ReadAcceptSound(b, f, op);
    }
    forall b: seq<Byte>, f: seq<Byte>, more: seq<Byte> | IsReadReply(b + f + more, op)
      ensures ReadAccept(b, f, op) == if more == [] then Deliver(b + f) else Wait(b + f)
    {
      ReadAcceptComplete(b, f, more, op);
    }
  }

  /** The commands and plain reads that address the same data. */
  predicate SameRead(c: Command, op: ReadOperation) {
    c.Function() == op.Function() && c.Address() == op.Address() && c.Value() == op.Count()
  }

  /** Decoding a control reply as the plain read of the same data never fails. */
  lemma SameReplies(c: Command, op: ReadOperation, frame: Frame)
    requires SameRead(c, op)
    ensures IsReply(frame, c) <==> IsReadReply(frame, op)
  {
    hide TrailerMatches;
  }

  /** The two independently written acceptors agree on every run of notifications. */
  lemma AcceptorsAgree(c: Command, op: ReadOperation, fragments: seq<seq<Byte>>, frame: Frame)
    requires SameRead(c, op)
    requires forall i | 0 <= i < |fragments| :: fragments[i] != []
    ensures AcceptAll(ControlAcceptor(c), [], fragments) == Deliver(frame) <==>
            AcceptAll(ReadAcceptor(op), [], fragments) == Deliver(frame)
  {
    hide IsReply, IsReadReply, ControlAcceptor, ReadAcceptor, AcceptAll;
    ControlExact(c);
    ReadExact(op);
    if AcceptAll(ControlAcceptor(c), [], fragments) == Deliver(frame) {
      var n := DeliveredIsWhole(ControlAcceptor(c), f => IsReply(f, c), [], fragments);
      SameReplies(c, op, [] + Concat(fragments[..n]));
      WholeIsDelivered(ReadAcceptor(op), f => IsReadReply(f, op), [], fragments, n);
    }
    if AcceptAll(ReadAcceptor(op), [], fragments) == Deliver(frame) {
      var n := DeliveredIsWhole(ReadAcceptor(op), f => IsReadReply(f, op), [], fragments);
      SameReplies(c, op, [] + Concat(fragments[..n]));
      WholeIsDelivered(ControlAcceptor(c), f => IsReply(f, c), [], fragments, n);
    }
  }

  /** The three reads shared by the two sessions, and no others. */
  lemma SharedReads(c: Command, op: ReadOperation)
    ensures SameRead(c, op) <==>
      (c.ReadConfiguration? && op.ConfigurationRead?) || (c.ReadTelemetry? && op.TelemetryRead?) || (c.ReadState? && op.StateRead?)
  {}
}
