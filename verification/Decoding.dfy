/** Decoding of accepted frames (state.py and telemetry.py). Times and pressures in tenths. */
module Decoding {
  import opened Bytes
  import opened Crc
  import opened Outcomes
  import opened Reads
  import opened Commands

  datatype Mode = Idle | Profile | Manual | Cleaning | FreeVariable | Ambiguous | Unknown

  /** The flags of the 24 operating coils; unknown: some undocumented coil is set. */
  datatype OperatingState = OperatingState(
    profile: bool, manual: bool, cleaning: bool, freeVariable: bool, unknown: bool)
  {
    function Active(): nat {
      (if profile then 1 else 0) + (if manual then 1 else 0) + (if cleaning then 1 else 0) + (if freeVariable then 1 else 0)
    }

    /** No priority rule hides simultaneous modes. */
    function Mode(): Mode {
      if Active() > 1 then Ambiguous
      else if unknown then Unknown
      else if profile then Profile
      else if manual then Manual
      else if cleaning then Cleaning
      else if freeVariable then FreeVariable
      else Idle
    }
  }

  predicate BitSet(b: Byte, weight: nat)
    requires weight > 0
  {
    b / weight % 2 == 1
  }

  /** Masks 0x03, 0x10, 0x20 and 0x800 of the little-endian coil bytes. */
  function StateOfCoils(coils: seq<Byte>): OperatingState
    requires |coils| == 3
  {
    var a, b := coils[0], coils[1];
    OperatingState(
      BitSet(a, 1) || BitSet(a, 2), BitSet(a, 0x10), BitSet(a, 0x20), BitSet(b, 8),
      BitSet(a, 4) || BitSet(a, 8) || BitSet(a, 0x40) || BitSet(a, 0x80)
      || b / 0x10 != 0 || b % 8 != 0 || coils[2] != 0)
  }

  datatype Configuration = Configuration(raw: seq<Word>) {
    function CleaningTime(): Word requires |raw| == 37 { raw[0] }

    function CleaningRest(): Word requires |raw| == 37 { raw[1] }

    function Repetitions(): Word requires |raw| == 37 { raw[2] }

    /** Zero means enabled, one disabled, anything else is unknown. */
    function BrewEnabled(): Option<bool>
      requires |raw| == 37
    {
      if raw[7] == 0 then Some(true) else if raw[7] == 1 then Some(false) else None
    }
  }

  datatype Telemetry = Telemetry(brewTime: Word, alarm: bool, pressure: Word, volume: Word, scale: Word)

  function TelemetryOf(words: seq<Word>): Telemetry
    requires |words| == 22
  {
    Telemetry(words[1], words[2] != 0, words[6], words[7], words[8])
  }

  function Payload(frame: Frame): seq<Byte>
    requires |frame| >= 5
  {
    frame[3..|frame| - 2]
  }

  function DecodeConfiguration(frame: Frame): Result<Configuration> {
    var payload :- ValidateReadResponse(frame, ConfigurationRead);
    Success(Configuration(Words(payload)))
  }

  function DecodeOperatingState(frame: Frame): Result<OperatingState> {
    var payload :- ValidateReadResponse(frame, StateRead);
    if |payload| != 3 then Failure(Protocol) else Success(StateOfCoils(payload))
  }

  /** parse_telemetry_response has checks of its own; they are those of the plain read. */
  function ParseTelemetry(frame: Frame): Result<Telemetry> {
    if |frame| != 49 || frame[0] != 1 || frame[1] != 3 || frame[2] != 44 || !TrailerMatches(frame) then Failure(Protocol)
    else Success(TelemetryOf(Words(Payload(frame))))
  }

  /** The register words of a read reply. */
  function Registers(frame: Frame): seq<Word>
    requires |frame| >= 5
  {
    Words(Payload(frame))
  }

  lemma DecodesConfiguration(frame: Frame)
    requires IsReply(frame, ReadConfiguration)
    ensures |frame| == 79
    ensures DecodeConfiguration(frame) == Success(Configuration(Registers(frame))) && |Registers(frame)| == 37
  {
    hide TrailerMatches, Words;
  }

  lemma DecodesState(frame: Frame)
    requires IsReply(frame, ReadState)
    ensures |frame| == 8 && |Payload(frame)| == 3
    ensures DecodeOperatingState(frame) == Success(StateOfCoils(Payload(frame)))
  {
    hide TrailerMatches, StateOfCoils;
  }

  lemma DecodesTelemetry(frame: Frame)
    requires IsReply(frame, ReadTelemetry)
    ensures |frame| == 49 && |Registers(frame)| == 22
    ensures ParseTelemetry(frame) == Success(TelemetryOf(Registers(frame)))
  {
    hide TrailerMatches, TelemetryOf, Words;
  }

  lemma RegistersCount(frame: Frame, c: Command)
    requires IsReply(frame, c) && c.Function() == 3
    ensures |frame| >= 5 && |Registers(frame)| == c.Value()
  {
    hide TrailerMatches, Words;
  }

  /** The reply that carries given register words. */
  function RegisterReply(words: seq<Word>): Frame
    requires |words| <= 125
  {
    AppendCrc([1, 3, 2 * |words|] + FromWords(words))
  }

  function CoilReply(coils: seq<Byte>): Frame
    requires |coils| == 3
  {
    AppendCrc([1, 1, 3] + coils)
  }

  lemma RegisterReplyDecodes(words: seq<Word>, c: Command)
    requires c.Function() == 3 && |words| == c.Value() <= 125
    ensures IsReply(RegisterReply(words), c)
    ensures |RegisterReply(words)| >= 5 && Registers(RegisterReply(words)) == words
  {
    hide TrailerMatches, Crc.Crc, Words;
    var body := [1, 3, 2 * |words|] + FromWords(words);
    AppendedTrailerMatches(body);
    WordsRoundTrip(words);
    assert Payload(RegisterReply(words)) == FromWords(words);
  }

  lemma CoilReplyDecodes(coils: seq<Byte>)
    requires |coils| == 3
    ensures IsReply(CoilReply(coils), ReadState)
    ensures |CoilReply(coils)| == 8 && Payload(CoilReply(coils)) == coils
  {
    hide TrailerMatches, Crc.Crc;
    AppendedTrailerMatches([1, 1, 3] + coils);
  }

  // ----- what decoded values mean -----

  /** The mode names exactly the coils that are set: bits 0 and 1 are the profile, bit 4
      manual, bit 5 cleaning, bit 11 free variable, and nothing else may be set. */
  lemma ModesExactly(coils: seq<Byte>)
    requires |coils| == 3
    ensures var mode := StateOfCoils(coils).Mode();
      && (mode == Idle <==> coils == [0, 0, 0])
      && (mode == Profile <==> coils == [1, 0, 0] || coils == [2, 0, 0] || coils == [3, 0, 0])
      && (mode == Manual <==> coils == [0x10, 0, 0])
      && (mode == Cleaning <==> coils == [0x20, 0, 0])
      && (mode == FreeVariable <==> coils == [0, 8, 0])
  {
    var a, b, c := coils[0], coils[1], coils[2];
    assert coils == [a, b, c];
    LowFlags(a);
    HighFlags(b);
    hide BitSet;
  }

  /** Two or more modes at once are ambiguous, whatever else is set. */
  lemma AmbiguousExactly(s: OperatingState)
    ensures s.Mode() == Ambiguous <==>
      (s.profile && s.manual) || (s.profile && s.cleaning) || (s.profile && s.freeVariable)
      || (s.manual && s.cleaning) || (s.manual && s.freeVariable) || (s.cleaning && s.freeVariable)
  {}

  /** A byte is the sum of its bits, and every set bit is one of the flags read from it. */
  lemma LowFlags(a: Byte)
    ensures ((BitSet(a, 1) || BitSet(a, 2)) && !BitSet(a, 4) && !BitSet(a, 8) && !BitSet(a, 0x10) && !BitSet(a, 0x20)
             && !BitSet(a, 0x40) && !BitSet(a, 0x80)) <==> (a == 1 || a == 2 || a == 3)
    ensures !BitSet(a, 1) && !BitSet(a, 2) && !BitSet(a, 4) && !BitSet(a, 8) && !BitSet(a, 0x40) && !BitSet(a, 0x80) ==>
      a == (if BitSet(a, 0x10) then 0x10 else 0) + (if BitSet(a, 0x20) then 0x20 else 0)
    ensures BitSet(a, 1) == (a % 2 == 1)
  {}

  lemma HighFlags(b: Byte)
    ensures b / 0x10 == 0 && b % 8 == 0 ==> b == (if BitSet(b, 8) then 8 else 0)
    ensures b == 0 || b == 8 ==> b / 0x10 == 0 && b % 8 == 0 && BitSet(b, 8) == (b == 8)
  {}

  function TwoBytes(high: int, low: int): int { 256 * high + low }

  /** Register k of a reply, straight from its bytes. */
  function RegisterAt(frame: Frame, k: nat): int
    requires 4 + 2 * k < |frame|
  {
    TwoBytes(frame[3 + 2 * k], frame[4 + 2 * k])
  }

  lemma {:induction false} WordsAt(payload: seq<Byte>, k: nat)
    requires 2 * k + 1 < |payload|
    ensures Words(payload)[k] == TwoBytes(payload[2 * k], payload[2 * k + 1])
    decreases k
  {
    if k > 0 {
      WordsAt(payload[2..], k - 1);
      assert Words(payload)[k] == Words(payload[2..])[k - 1];
    }
  }

  lemma RegistersAt(frame: Frame, k: nat)
    requires |frame| >= 5 && 2 * k + 6 < |frame|
    ensures k < |Registers(frame)| && Registers(frame)[k] == RegisterAt(frame, k)
  {
    hide Words;
    WordsAt(Payload(frame), k);
  }

  /** The readings of a telemetry reply, which starts at register 1404. */
  lemma TelemetryReadings(frame: Frame)
    requires IsReply(frame, ReadTelemetry)
    ensures |frame| == 49 && ParseTelemetry(frame).Success?
    ensures var t := ParseTelemetry(frame).value;
      && t.brewTime == RegisterAt(frame, 1405 - 1404) && t.alarm == (RegisterAt(frame, 1406 - 1404) != 0)
      && t.pressure == RegisterAt(frame, 1410 - 1404) && t.volume == RegisterAt(frame, 1411 - 1404)
      && t.scale == RegisterAt(frame, 1412 - 1404)
  {
    hide IsReply, ParseTelemetry, Registers, RegisterAt;
    DecodesTelemetry(frame);
    RegistersAt(frame, 1);
    RegistersAt(frame, 2);
    RegistersAt(frame, 6);
    RegistersAt(frame, 7);
    RegistersAt(frame, 8);
  }

  /** The settings of a configuration reply, which starts at register 0. */
  lemma ConfigurationReadings(frame: Frame)
    requires IsReply(frame, ReadConfiguration)
    ensures |frame| == 79 && DecodeConfiguration(frame).Success? && |DecodeConfiguration(frame).value.raw| == 37
    ensures var c := DecodeConfiguration(frame).value;
      && c.CleaningTime() == RegisterAt(frame, 0) && c.CleaningRest() == RegisterAt(frame, 1)
      && c.Repetitions() == RegisterAt(frame, 2)
      && (c.BrewEnabled() == Some(true) <==> RegisterAt(frame, 7) == 0)
      && (c.BrewEnabled() == Some(false) <==> RegisterAt(frame, 7) == 1)
  {
    hide IsReply, DecodeConfiguration, Registers, RegisterAt;
    DecodesConfiguration(frame);
    RegistersAt(frame, 0);
    RegistersAt(frame, 1);
    RegistersAt(frame, 2);
    RegistersAt(frame, 7);
  }
}
