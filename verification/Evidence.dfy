/** Evidence records (evidence.py): a bundle is built from response bytes alone, printed as a
    document, and read back under strict checks. Documents are records of values here; a field
    that is missing, null or of another kind is None or NotText. */
module Evidence {
  import opened Bytes
  import opened Crc
  import opened Outcomes
  import opened Reads
  import opened Decoding

  // ----- hexadecimal text -----

  predicate IsSpace(c: char) { c == ' ' || ('\t' <= c <= '\r') }

  function DigitOf(c: char): Option<nat> {
    if '0' <= c <= '9' then Some((c - '0') as int)
    else if 'a' <= c <= 'f' then Some(10 + (c - 'a') as int)
    else if 'A' <= c <= 'F' then Some(10 + (c - 'A') as int)
    else None
  }

  function Digit(n: nat): char
    requires n < 16
  {
    if n < 10 then '0' + n as char else 'a' + (n - 10) as char
  }

  function ToHex(bytes: seq<Byte>): string {
    if bytes == [] then "" else [Digit(bytes[0] / 16), Digit(bytes[0] % 16)] + ToHex(bytes[1..])
  }

  /** Either case is read, and white space between two bytes is skipped. */
  function FromHex(s: string): (r: Option<seq<Byte>>) {
    if s == "" then Some([])
    else if IsSpace(s[0]) then FromHex(s[1..])
    else if |s| < 2 || DigitOf(s[0]).None? || DigitOf(s[1]).None? then None
    else
      var rest := FromHex(s[2..]);
      if rest.None? then None
      else Some([16 * NibbleOf(s[0]) + NibbleOf(s[1])] + rest.value)
  }

  function NibbleOf(c: char): (n: nat)
    requires DigitOf(c).Some?
    ensures n < 16
  {
    DigitOf(c).value
  }

  lemma DigitReads(n: nat)
    requires n < 16
    ensures DigitOf(Digit(n)) == Some(n) && !IsSpace(Digit(n))
  {}

  lemma {:induction false} HexRoundTrip(bytes: seq<Byte>)
    ensures FromHex(ToHex(bytes)) == Some(bytes)
  {
    hide DigitOf, Digit, IsSpace;
    if bytes != [] {
      DigitReads(bytes[0] / 16);
      DigitReads(bytes[0] % 16);
      HexRoundTrip(bytes[1..]);
      var s := ToHex(bytes);
      assert s[0] == Digit(bytes[0] / 16) && s[1] == Digit(bytes[0] % 16) && s[2..] == ToHex(bytes[1..]);
      assert [bytes[0]] + bytes[1..] == bytes;
    }
  }

  function UpperDigit(c: char): char { if 'a' <= c <= 'f' then 'A' + (c - 'a') else c }

  function Upper(s: string): (t: string)
    ensures |t| == |s|
  {
    if s == "" then "" else [UpperDigit(s[0])] + Upper(s[1..])
  }

  lemma UpperReads(c: char)
    requires '0' <= c <= '9' || 'a' <= c <= 'f'
    ensures DigitOf(UpperDigit(c)) == DigitOf(c) && !IsSpace(UpperDigit(c))
  {}

  lemma DigitRange(n: nat)
    requires n < 16
    ensures '0' <= Digit(n) <= '9' || 'a' <= Digit(n) <= 'f'
  {}

  lemma HexPair(c: char, d: char, rest: string, b: Byte)
    requires DigitOf(c) == Some(b / 16) && DigitOf(d) == Some(b % 16) && !IsSpace(c)
    ensures FromHex([c, d] + rest) == (if FromHex(rest).None? then None else Some([b] + FromHex(rest).value))
  {
    hide DigitOf, IsSpace;
    var t := [c, d] + rest;
    assert t[0] == c && t[1] == d && t[2..] == rest;
  }

  /** Capital digits are read the same. */
  lemma {:induction false} UpperRoundTrip(bytes: seq<Byte>)
    ensures FromHex(Upper(ToHex(bytes))) == Some(bytes)
  {
    hide DigitOf, Digit, IsSpace, UpperDigit, FromHex, Upper;
    if bytes == [] {
      UpperNothing();
    } else {
      var high, low, rest := Digit(bytes[0] / 16), Digit(bytes[0] % 16), ToHex(bytes[1..]);
      DigitReads(bytes[0] / 16);
      DigitReads(bytes[0] % 16);
      DigitRange(bytes[0] / 16);
      DigitRange(bytes[0] % 16);
      UpperReads(high);
      UpperReads(low);
      UpperRoundTrip(bytes[1..]);
      assert ToHex(bytes) == [high] + ([low] + rest);
      UpperCons(high, [low] + rest);
      UpperCons(low, rest);
      assert Upper(ToHex(bytes)) == [UpperDigit(high), UpperDigit(low)] + Upper(rest);
      HexPair(UpperDigit(high), UpperDigit(low), Upper(rest), bytes[0]);
      assert [bytes[0]] + bytes[1..] == bytes;
    }
  }

  lemma UpperNothing()
    ensures Upper("") == "" && FromHex("") == Some([])
  {}

  lemma UpperCons(c: char, s: string)
    ensures Upper([c] + s) == [UpperDigit(c)] + Upper(s)
  {
    assert ([c] + s)[1..] == s;
  }

  /** Only space, tab, line feed, vertical tab, form feed and carriage return. */
  predicate Blank(space: string) {
    forall i | 0 <= i < |space| :: space[i] in {' ', '\t', '\n', '\U{000B}', '\U{000C}', '\r'}
  }

  /** White space before a byte is skipped. */
  lemma {:induction false} SpaceSkipped(space: string, s: string)
    requires Blank(space)
    ensures FromHex(space + s) == FromHex(s)
  {
    if space == "" {
      assert space + s == s;
    } else {
      assert (space + s)[1..] == space[1..] + s;
      SpaceSkipped(space[1..], s);
    }
  }

  /** What is read from two texts one after the other, with white space between them or not. */
  lemma {:induction false} HexAppend(bytes: seq<Byte>, space: string, s: string)
    requires Blank(space)
    ensures FromHex(ToHex(bytes) + space + s) == (if FromHex(s).None? then None else Some(bytes + FromHex(s).value))
  {
    hide FromHex, Digit, Blank;
    if bytes == [] {
      assert ToHex(bytes) + space + s == space + s;
      SpaceSkipped(space, s);
      if FromHex(s).Some? { assert bytes + FromHex(s).value == FromHex(s).value; }
    } else {
      var rest := ToHex(bytes[1..]) + space + s;
      HexAppend(bytes[1..], space, s);
      HexByte(bytes[0], rest);
      assert ToHex(bytes) + space + s == [Digit(bytes[0] / 16), Digit(bytes[0] % 16)] + rest;
      if FromHex(s).Some? { assert [bytes[0]] + (bytes[1..] + FromHex(s).value) == bytes + FromHex(s).value; }
    }
  }

  lemma HexByte(b: Byte, rest: string)
    ensures FromHex([Digit(b / 16), Digit(b % 16)] + rest) ==
      (if FromHex(rest).None? then None else Some([b] + FromHex(rest).value))
  {
    hide DigitOf, Digit, IsSpace, FromHex;
    DigitReads(b / 16);
    DigitReads(b % 16);
    HexPair(Digit(b / 16), Digit(b % 16), rest, b);
  }

  // ----- records and bundles -----

  datatype Source = Synthetic | HardwareCapture

  datatype Privacy = PrivateUnreviewed | PublicSanitized

  /** A reading; numbers are exact tenths. */
  datatype Value = Num(tenths: int) | Truth(flag: bool) | Text(text: string) | Null

  /** The names of readings; Other is any name the schema does not know. */
  datatype Name =
    | ElapsedBrewTime | WaterLevelAlarm | SteamTemperature | BrewTemperature | Pressure | PumpedVolume | ScaleWeight
    | PumpActiveTime | Flow | WeightRate
    | CleaningTime | CleaningRest | CleaningRepetitions | SteamHeatingEnabled | BrewHeatingEnabled
    | SteamTargetTemperature | BrewTargetTemperature | ManualTime | ManualPressure | HeatingMode
    | WaterAlarmEnabled
    | StateName | ProfileActive | ManualActive | CleaningActive | FreeVariableActive | UnknownCoils
    | Other(text: string)

  type Values = map<Name, Value>

  type Units = map<Name, string>

  datatype Caution =
    | UnitsNotValidated | FlowNeedsComparison | UnknownRegistersPrivate | RangesNotLimits | NotShortageState | BitsProvisional

  datatype Record = Record(
    operation: ReadOperation, capabilities: seq<string>, request: Frame, response: Frame, decoded: Values,
    units: Units, cautions: seq<Caution>, comparison: string)

  datatype Bundle = Bundle(
    source: Source, privacy: Privacy, capturedAt: int, model: string, firmware: string, app: string,
    records: seq<Record>, notes: string, reviewedAt: Option<int>, reviewer: Option<string>)

  /** Every refusal is a ValueError; the reason says which check raised it. */
  datatype Reason =
    | DocumentFields | UnsupportedSchema | RecordsNotList | RecordFields | OperationOrHex | DuplicateOperation
    | BadTimestamp | CapturedRequired | BadSource | BadPrivacy | BadText | NoRecords | ReviewMissing | ReviewClaimed
    | BadResponse | RequestMismatch | DecodedMismatch | UnitsMismatch | CapabilitiesMismatch | CautionsMismatch
    | ComparisonMismatch

  datatype Verdict<+T> = Accepted(value: T) | Refused(reason: Reason) {
    predicate IsFailure() { Refused? }

    function PropagateFailure<U>(): Verdict<U>
      requires Refused?
    {
      Refused(reason)
    }

    function Extract(): T
      requires Accepted?
    {
      value
    }
  }

  function Capabilities(op: ReadOperation): seq<string> {
    match op
    case TelemetryRead => ["T02", "S01", "S02", "S03", "S04", "S05", "S06", "S07", "S08", "S09", "S10"]
    case ConfigurationRead => ["T03", "B01", "B02", "B03", "B04", "B05"]
    case WaterAlarmRead => ["B06"]
    case StateRead => ["T04", "S11"]
  }

  function Cautions(op: ReadOperation): seq<Caution> {
    match op
    case TelemetryRead => [UnitsNotValidated, FlowNeedsComparison]
    case ConfigurationRead => [UnknownRegistersPrivate, RangesNotLimits]
    case WaterAlarmRead => [NotShortageState]
    case StateRead => [BitsProvisional]
  }

  function ModeText(mode: Mode): string {
    match mode
    case Idle => "idle"
    case Profile => "profile"
    case Manual => "manual"
    case Cleaning => "cleaning"
    case FreeVariable => "free_variable"
    case Ambiguous => "ambiguous"
    case Unknown => "unknown"
  }

  function Enabled(w: Word): Value { if w == 0 then Truth(true) else if w == 1 then Truth(false) else Null }

  /** The coil bits outside the documented masks. */
  function UnknownBits(coils: seq<Byte>): nat
    requires |coils| == 3
  {
    var a: int, b: int, c: int := coils[0], coils[1], coils[2];
    a / 4 % 4 * 4 + a / 64 * 64 + 0x100 * (b % 8 + b / 16 * 16) + 0x10000 * c
  }

  function Integer(n: int): Value { Num(10 * n) }

  function DecodedOf(op: ReadOperation, payload: seq<Byte>): Values
    requires |payload| == op.ByteCount()
  {
    var w := Words(payload);
    match op
    case TelemetryRead => map[
        ElapsedBrewTime := Num(w[1]), WaterLevelAlarm := Truth(w[2] != 0), SteamTemperature := Num(w[4]),
        BrewTemperature := Num(w[5]), Pressure := Num(w[6]), PumpedVolume := Integer(w[7]), ScaleWeight := Num(w[8]),
        PumpActiveTime := Integer(w[13]), Flow := Integer(w[18]), WeightRate := Num(w[19])]
    case ConfigurationRead => map[
        CleaningTime := Num(w[0]), CleaningRest := Num(w[1]), CleaningRepetitions := Integer(w[2]),
        SteamHeatingEnabled := Enabled(w[6]), BrewHeatingEnabled := Enabled(w[7]),
        SteamTargetTemperature := Integer(w[8]), BrewTargetTemperature := Integer(w[9]), ManualTime := Num(w[17]),
        ManualPressure := Num(w[19]),
        HeatingMode := if w[22] == 0 then Text("pulse") else if w[22] == 1 then Text("full_speed") else Null]
    case WaterAlarmRead => map[
        WaterAlarmEnabled := if w[0] == 0 then Truth(false) else if w[0] == 1 then Truth(true) else Null]
    case StateRead =>
      var s := StateOfCoils(payload);
      map[StateName := Text(ModeText(s.Mode())), ProfileActive := Truth(s.profile), ManualActive := Truth(s.manual),
          CleaningActive := Truth(s.cleaning), FreeVariableActive := Truth(s.freeVariable),
          UnknownCoils := Integer(UnknownBits(payload))]
  }

  function UnitsOf(op: ReadOperation): Units {
    match op
    case TelemetryRead => map[
        ElapsedBrewTime := "s", SteamTemperature := "\U{00B0}C", BrewTemperature := "\U{00B0}C",
        Pressure := "bar", PumpedVolume := "mL", ScaleWeight := "g",
        PumpActiveTime := "s", Flow := "mL/s", WeightRate := "g/s"]
    case ConfigurationRead => map[
        CleaningTime := "s", CleaningRest := "s", SteamTargetTemperature := "\U{00B0}C",
        BrewTargetTemperature := "\U{00B0}C", ManualTime := "s", ManualPressure := "bar"]
    case _ => map[]
  }

  lemma PayloadLength(frame: Frame, op: ReadOperation)
    requires ValidateReadResponse(frame, op).Success?
    ensures |ValidateReadResponse(frame, op).value| == op.ByteCount()
  {
    hide TrailerMatches;
  }

  /** All claims follow from the response bytes. */
  function CreateRecord(op: ReadOperation, frame: Frame): Verdict<Record> {
    var payload := ValidateReadResponse(frame, op);
    if payload.Failure? then Refused(BadResponse)
    else
      PayloadLength(frame, op);
      Accepted(Record(op, Capabilities(op), BuildReadRequest(op), frame, DecodedOf(op, payload.value), UnitsOf(op),
                      Cautions(op), "not_performed"))
  }

  const OPERATIONS := [TelemetryRead, ConfigurationRead, WaterAlarmRead, StateRead]

  type Frames = map<ReadOperation, Frame>

  /** One record for each operation present, in the order of the operations. */
  function CreateRecords(frames: Frames, ops: seq<ReadOperation>): Verdict<seq<Record>> {
    if ops == [] then Accepted([])
    else if ops[0] !in frames then CreateRecords(frames, ops[1..])
    else
      var first :- CreateRecord(ops[0], frames[ops[0]]);
      var rest :- CreateRecords(frames, ops[1..]);
      Accepted([first] + rest)
  }

  /** A time as given: with a zone it names an instant, whatever its offset. */
  datatype Time = Naive(local: int) | Aware(instant: int, offset: int)

  function RequireTimestamp(t: Time): Verdict<int> {
    if t.Naive? then Refused(BadTimestamp) else Accepted(t.instant)
  }

  datatype Field = NotText | Given(text: string)

  /** sensitive stands for the patterns of likely identifiers and credentials. */
  function CheckText(f: Field, sensitive: string -> bool): Verdict<string> {
    if f.NotText? || f.text == "" || |f.text| > 500 then Refused(BadText)
    else if sensitive(f.text) then Refused(BadText)
    else Accepted(f.text)
  }

  /** The review metadata must be there exactly when the evidence is public. */
  function CheckReview(privacy: Privacy, reviewedAt: Option<Time>, reviewer: Option<Field>, sensitive: string -> bool):
    Verdict<(Option<int>, Option<string>)>
  {
    if privacy.PublicSanitized? then
      if reviewedAt.None? || reviewer.None? then Refused(ReviewMissing)
      else
        var at :- RequireTimestamp(reviewedAt.value);
        var name :- CheckText(reviewer.value, sensitive);
        Accepted((Some(at), Some(name)))
    else if reviewedAt.Some? || reviewer.Some? then Refused(ReviewClaimed)
    else Accepted((None, None))
  }

  datatype Arguments = Arguments(
    source: Source, privacy: Privacy, capturedAt: Time, model: Field, firmware: Field, app: Field, frames: Frames,
    notes: Field, reviewedAt: Option<Time>, reviewer: Option<Field>)

  function CreateBundle(a: Arguments, sensitive: string -> bool): Verdict<Bundle> {
    var at :- RequireTimestamp(a.capturedAt);
    var model :- CheckText(a.model, sensitive);
    var firmware :- CheckText(a.firmware, sensitive);
    var app :- CheckText(a.app, sensitive);
    var notes :- CheckText(a.notes, sensitive);
    if a.frames == map[] then Refused(NoRecords)
    else
      var review :- CheckReview(a.privacy, a.reviewedAt, a.reviewer, sensitive);
      var records :- CreateRecords(a.frames, OPERATIONS);
      Accepted(Bundle(a.source, a.privacy, at, model, firmware, app, records, notes, review.0, review.1))
  }

  // ----- documents -----

  /** A timestamp field: null, not a text, not a time, or a time. */
  datatype Stamp = Nothing | NoText | NoTime | Stamped(time: Time)

  /** A record as supplied; Odd has other fields than the eight. operation is what its
      upper-case form names. */
  datatype Supplied =
    | Odd
    | Supplied(operation: Option<ReadOperation>, capabilities: Option<seq<string>>, requestHex: Field, responseHex: Field,
               decoded: Option<Values>, units: Option<Units>, cautions: Option<seq<Caution>>, comparison: Field)

  datatype Document =
    | Strange
    | Document(schema: Field, source: Option<Source>, privacy: Option<Privacy>, capturedAt: Stamp, model: Field,
               firmware: Field, app: Field, notes: Field, reviewedAt: Stamp, reviewer: Option<Field>,
               records: Option<seq<Supplied>>)

  const SCHEMA := "wendougee-data-evidence/v1"

  function PrintRecord(r: Record): Supplied {
    Supplied(Some(r.operation), Some(r.capabilities), Given(ToHex(r.request)), Given(ToHex(r.response)), Some(r.decoded),
             Some(r.units), Some(r.cautions), Given(r.comparison))
  }

  function PrintRecords(records: seq<Record>): (printed: seq<Supplied>)
    ensures |printed| == |records| && forall i | 0 <= i < |records| :: printed[i] == PrintRecord(records[i])
  {
    seq(|records|, i requires 0 <= i < |records| => PrintRecord(records[i]))
  }

  /** Times are printed in UTC. */
  function PrintTime(t: Option<int>): Stamp {
    if t.None? then Nothing else Stamped(Aware(t.value, 0))
  }

  function Print(b: Bundle): Document {
    Document(Given(SCHEMA), Some(b.source), Some(b.privacy), PrintTime(Some(b.capturedAt)), Given(b.model), Given(b.firmware),
             Given(b.app), Given(b.notes), PrintTime(b.reviewedAt),
             if b.reviewer.Some? then Some(Given(b.reviewer.value)) else None, Some(PrintRecords(b.records)))
  }

  function ParseTimestamp(s: Stamp): Verdict<Option<Time>> {
    match s
    case Nothing => Accepted(None)
    case Stamped(time) =>
      var at :- RequireTimestamp(time);
      Accepted(Some(Aware(at, 0)))
    case _ => Refused(BadTimestamp)
  }

  /** Python equality: a truth value equals the number one or zero. */
  predicate Same(a: Value, b: Value) {
    Number(a) == Number(b) && (Number(a).None? ==> a == b)
  }

  function Number(v: Value): Option<int> {
    match v
    case Num(tenths) => Some(tenths)
    case Truth(flag) => Some(if flag then 10 else 0)
    case _ => None
  }

  predicate SameValues(a: Values, b: Values) {
    a.Keys == b.Keys && forall k | k in a :: Same(a[k], b[k])
  }

  /** The first claim that is not the derived one. */
  function Compare(s: Supplied, r: Record): Option<Reason>
    requires s.Supplied?
  {
    if s.requestHex != Given(ToHex(r.request)) then Some(RequestMismatch)
    else if s.decoded.None? || !SameValues(s.decoded.value, r.decoded) then Some(DecodedMismatch)
    else if s.units != Some(r.units) then Some(UnitsMismatch)
    else if s.capabilities != Some(r.capabilities) then Some(CapabilitiesMismatch)
    else if s.cautions != Some(r.cautions) then Some(CautionsMismatch)
    else if s.comparison != Given(r.comparison) then Some(ComparisonMismatch)
    else None
  }

  // ----- reading a document -----

  type Claims = map<ReadOperation, Supplied>

  /** The frames and the claims of the supplied records, by operation. */
  datatype Gathered = Gathered(frames: Frames, claims: Claims)

  predicate Readable(s: Supplied) {
    s.Supplied? && s.operation.Some? && s.responseHex.Given? && FromHex(s.responseHex.text).Some?
  }

  function BytesOf(s: Supplied): Frame
    requires Readable(s)
  {
    FromHex(s.responseHex.text).value
  }

  function Gather(records: seq<Supplied>): (r: Verdict<Gathered>)
    ensures r.Accepted? ==> r.value.frames.Keys == r.value.claims.Keys
  {
    if records == [] then Accepted(Gathered(map[], map[]))
    else
      var n := |records| - 1;
      var before :- Gather(records[..n]);
      var s := records[n];
      if s.Odd? then Refused(RecordFields)
      else if !Readable(s) then Refused(OperationOrHex)
      else if s.operation.value in before.frames then Refused(DuplicateOperation)
      else Accepted(Gathered(before.frames[s.operation.value := BytesOf(s)], before.claims[s.operation.value := s]))
  }

  /** The first disagreement between the claims and the derived records. */
  function CompareAll(claims: Claims, records: seq<Record>): Option<Reason>
    requires forall i | 0 <= i < |records| :: records[i].operation in claims && claims[records[i].operation].Supplied?
  {
    if records == [] then None
    else
      var first := Compare(claims[records[0].operation], records[0]);
      if first.Some? then first else CompareAll(claims, records[1..])
  }

  lemma {:induction false} GatheredSupplied(records: seq<Supplied>)
    requires Gather(records).Accepted?
    ensures var g := Gather(records).value;
      forall op | op in g.claims :: Readable(g.claims[op]) && g.frames[op] == BytesOf(g.claims[op])
        && g.claims[op].operation == Some(op) && g.claims[op] in records
  {
    hide Readable, BytesOf;
    if records != [] {
      var n := |records| - 1;
      GatheredSupplied(records[..n]);
      ReadableSupplied(records[n]);
    }
  }

  lemma ReadableSupplied(s: Supplied)
    ensures Readable(s) ==> s.Supplied? && s.operation.Some?
  {}

  lemma {:induction false} CreatedRecords(frames: Frames, ops: seq<ReadOperation>)
    requires CreateRecords(frames, ops).Accepted?
    ensures forall r | r in CreateRecords(frames, ops).value ::
      r.operation in frames && r.operation in ops && CreateRecord(r.operation, frames[r.operation]) == Accepted(r)
    ensures forall op | op in ops && op in frames :: exists r | r in CreateRecords(frames, ops).value :: r.operation == op
  {
    hide CreateRecord;
    if ops != [] {
      CreatedRecords(frames, ops[1..]);
      if ops[0] in frames {
        CreatedOperation(ops[0], frames[ops[0]]);
      }
    }
  }

  lemma CreatedOperation(op: ReadOperation, frame: Frame)
    ensures CreateRecord(op, frame).Accepted? ==>
      CreateRecord(op, frame).value.operation == op && CreateRecord(op, frame).value.response == frame
  {}

  /** The bundle the head of a document and the gathered frames make. */
  function Assemble(d: Document, frames: Frames, sensitive: string -> bool): Verdict<Bundle>
    requires d.Document?
  {
    var capturedAt :- ParseTimestamp(d.capturedAt);
    if capturedAt.None? then Refused(CapturedRequired)
    else if d.source.None? then Refused(BadSource)
    else if d.privacy.None? then Refused(BadPrivacy)
    else
      var reviewedAt :- ParseTimestamp(d.reviewedAt);
      CreateBundle(
        Arguments(d.source.value, d.privacy.value, capturedAt.value, d.model, d.firmware, d.app, frames, d.notes,
                  reviewedAt, d.reviewer),
        sensitive)
  }

  lemma AssembledRecords(d: Document, frames: Frames, sensitive: string -> bool)
    requires d.Document? && Assemble(d, frames, sensitive).Accepted?
    ensures var b := Assemble(d, frames, sensitive).value;
      && CreateRecords(frames, OPERATIONS) == Accepted(b.records)
      && (forall i | 0 <= i < |b.records| :: b.records[i].operation in frames)
      && Built(b, sensitive)
  {
    hide CreateRecords, CheckText, CheckReview, Built, CreateBundle;
    var a := Arguments(d.source.value, d.privacy.value, ParseTimestamp(d.capturedAt).value.value, d.model, d.firmware, d.app,
                       frames, d.notes, ParseTimestamp(d.reviewedAt).value, d.reviewer);
    BundleRecords(a, sensitive);
    BuiltAgain(a, sensitive);
  }

  function FromDocument(d: Document, sensitive: string -> bool): Verdict<Bundle> {
    if d.Strange? then Refused(DocumentFields)
    else if d.schema != Given(SCHEMA) then Refused(UnsupportedSchema)
    else if d.records.None? then Refused(RecordsNotList)
    else
      var g :- Gather(d.records.value);
      var b :- Assemble(d, g.frames, sensitive);
      AssembledRecords(d, g.frames, sensitive);
      GatheredSupplied(d.records.value);
      var wrong := CompareAll(g.claims, b.records);
      if wrong.Some? then Refused(wrong.value) else Accepted(b)
  }

  lemma BundleRecords(a: Arguments, sensitive: string -> bool)
    requires CreateBundle(a, sensitive).Accepted?
    ensures var b := CreateBundle(a, sensitive).value;
      && CreateRecords(a.frames, OPERATIONS) == Accepted(b.records)
      && forall i | 0 <= i < |b.records| :: b.records[i].operation in a.frames
  {
    hide CreateRecords, CheckText, CheckReview;
    CreatedRecords(a.frames, OPERATIONS);
  }

  // ----- what gathering does -----

  function OpOf(s: Supplied): ReadOperation
    requires Readable(s)
  {
    s.operation.value
  }

  predicate AllReadable(records: seq<Supplied>) {
    forall i | 0 <= i < |records| :: Readable(records[i])
  }

  predicate Distinct(records: seq<Supplied>)
    requires AllReadable(records)
  {
    forall i, j | 0 <= i < j < |records| :: OpOf(records[i]) != OpOf(records[j])
  }

  predicate Entry(g: Gathered, s: Supplied)
    requires Readable(s) && g.frames.Keys == g.claims.Keys
  {
    OpOf(s) in g.claims && g.claims[OpOf(s)] == s && g.frames[OpOf(s)] == BytesOf(s)
  }

  ghost predicate Names(records: seq<Supplied>, op: ReadOperation)
    requires AllReadable(records)
  {
    exists i | 0 <= i < |records| :: OpOf(records[i]) == op
  }

  /** g holds exactly the supplied records, each under its operation. */
  ghost predicate Holds(g: Gathered, records: seq<Supplied>)
    requires AllReadable(records)
  {
    && g.frames.Keys == g.claims.Keys
    && (forall i | 0 <= i < |records| :: Entry(g, records[i]))
    && (forall op | op in g.claims :: Names(records, op))
  }

  function Added(g: Gathered, s: Supplied): Gathered
    requires Readable(s)
  {
    Gathered(g.frames[OpOf(s) := BytesOf(s)], g.claims[OpOf(s) := s])
  }

  lemma EntryAdded(g: Gathered, s: Supplied, t: Supplied)
    requires Readable(s) && Readable(t) && g.frames.Keys == g.claims.Keys
    ensures OpOf(s) != OpOf(t) && Entry(g, s) ==> Entry(Added(g, t), s)
    ensures Entry(Added(g, t), t)
  {
    hide Readable, BytesOf, OpOf;
  }

  lemma HoldsMore(before: seq<Supplied>, s: Supplied, g: Gathered)
    requires AllReadable(before) && Readable(s) && Distinct(before) && Holds(g, before) && OpOf(s) !in g.frames
    ensures AllReadable(before + [s]) && Distinct(before + [s]) && Holds(Added(g, s), before + [s])
  {
    hide Readable, BytesOf, OpOf, Added, Entry;
    var all := before + [s];
    AddedKeys(g, s);
    forall i | 0 <= i < |before| ensures OpOf(all[i]) != OpOf(s) && Entry(Added(g, s), all[i]) {
      KeyOf(g, before[i]);
      EntryAdded(g, before[i], s);
    }
    EntryAdded(g, s, s);
    assert all[|before|] == s;
    forall op | op in Added(g, s).claims ensures Names(all, op) { NamedMore(before, s, g, op); }
  }

  lemma KeyOf(g: Gathered, s: Supplied)
    requires Readable(s) && g.frames.Keys == g.claims.Keys && Entry(g, s)
    ensures OpOf(s) in g.frames
  {}

  lemma AddedKeys(g: Gathered, s: Supplied)
    requires Readable(s) && g.frames.Keys == g.claims.Keys
    ensures Added(g, s).frames.Keys == Added(g, s).claims.Keys == g.claims.Keys + {OpOf(s)}
  {}

  lemma NamedMore(before: seq<Supplied>, s: Supplied, g: Gathered, op: ReadOperation)
    requires AllReadable(before) && Readable(s) && Holds(g, before) && op in Added(g, s).claims && AllReadable(before + [s])
    ensures Names(before + [s], op)
  {
    hide Readable, BytesOf, OpOf, Entry;
    var all := before + [s];
    if op == OpOf(s) {
      assert OpOf(all[|before|]) == op;
    } else {
      AddedKeys(g, s);
      var i :| 0 <= i < |before| && OpOf(before[i]) == op;
      assert OpOf(all[i]) == op;
    }
  }

  lemma NamedTwice(before: seq<Supplied>, s: Supplied, g: Gathered)
    requires AllReadable(before) && Readable(s) && Holds(g, before) && OpOf(s) in g.claims && AllReadable(before + [s])
    ensures !Distinct(before + [s])
  {
    hide Readable, BytesOf, OpOf, Entry;
    assert Names(before, OpOf(s));
    var i :| 0 <= i < |before| && OpOf(before[i]) == OpOf(s);
    assert OpOf((before + [s])[i]) == OpOf((before + [s])[|before|]);
  }

  /** Records are gathered when every one is readable and no operation comes twice; then each
      frame and each claim is the one supplied for its operation. */
  lemma {:induction false} GatherExactly(records: seq<Supplied>)
    ensures Gather(records).Accepted? <==> AllReadable(records) && Distinct(records)
    ensures Gather(records).Accepted? ==> Holds(Gather(records).value, records)
  {
    if records != [] {
      var n := |records| - 1;
      var before := records[..n];
      GatherExactly(before);
      hide Readable, BytesOf, Entry, Holds, Distinct;
      GatherLast(records);
      assert before + [records[n]] == records;
      if AllReadable(records) {
        DistinctPrefix(records);
        if Distinct(before) {
          var g := Gather(before).value;
          if OpOf(records[n]) in g.frames { NamedTwice(before, records[n], g); } else { HoldsMore(before, records[n], g); }
        }
      }
    }
  }

  lemma DistinctPrefix(records: seq<Supplied>)
    requires AllReadable(records) && records != []
    ensures AllReadable(records[..|records| - 1])
    ensures Distinct(records) ==> Distinct(records[..|records| - 1])
  {
    hide Readable, OpOf;
  }

  lemma GatherLast(records: seq<Supplied>)
    requires records != []
    ensures var n := |records| - 1; var before := Gather(records[..n]);
      Gather(records) ==
        (if before.Refused? then before
         else if records[n].Odd? then Refused(RecordFields)
         else if !Readable(records[n]) then Refused(OperationOrHex)
         else if OpOf(records[n]) in before.value.frames then Refused(DuplicateOperation)
         else Accepted(Added(before.value, records[n])))
  {
    hide BytesOf;
  }

  // ----- the bundles the constructor can build -----

  /** The arguments a bundle would be built from again. */
  function ArgumentsOf(b: Bundle): Arguments {
    Arguments(b.source, b.privacy, Aware(b.capturedAt, 0), Given(b.model), Given(b.firmware), Given(b.app),
              FramesOf(b.records), Given(b.notes),
              if b.reviewedAt.Some? then Some(Aware(b.reviewedAt.value, 0)) else None,
              if b.reviewer.Some? then Some(Given(b.reviewer.value)) else None)
  }

  function FramesOf(records: seq<Record>): Frames {
    if records == [] then map[]
    else FramesOf(records[..|records| - 1])[records[|records| - 1].operation := records[|records| - 1].response]
  }

  predicate Built(b: Bundle, sensitive: string -> bool) {
    CreateBundle(ArgumentsOf(b), sensitive) == Accepted(b)
  }

  predicate OneEach(records: seq<Record>) {
    forall i, j | 0 <= i < j < |records| :: records[i].operation != records[j].operation
  }

  predicate HasFrame(frames: Frames, r: Record) {
    r.operation in frames && frames[r.operation] == r.response
  }

  lemma {:induction false} FramesOfAll(records: seq<Record>)
    requires OneEach(records)
    ensures forall i | 0 <= i < |records| :: HasFrame(FramesOf(records), records[i])
  {
    if records != [] {
      var n := |records| - 1;
      var before := records[..n];
      FramesOfAll(before);
      forall i | 0 <= i < n ensures HasFrame(FramesOf(records), records[i]) {
        assert before[i] == records[i];
        assert HasFrame(FramesOf(before), before[i]);
      }
    }
  }

  lemma {:induction false} FramesOfOnly(records: seq<Record>, op: ReadOperation) returns (r: Record)
    requires op in FramesOf(records)
    ensures r in records && r.operation == op
  {
    var n := |records| - 1;
    if op == records[n].operation {
      r := records[n];
    } else {
      r := FramesOfOnly(records[..n], op);
    }
  }

  lemma {:induction false} CreatedOneEach(frames: Frames, ops: seq<ReadOperation>)
    requires CreateRecords(frames, ops).Accepted?
    requires forall i, j | 0 <= i < j < |ops| :: ops[i] != ops[j]
    ensures OneEach(CreateRecords(frames, ops).value)
  {
    hide CreateRecord;
    if ops != [] {
      CreatedOneEach(frames, ops[1..]);
      if ops[0] in frames {
        CreatedOperation(ops[0], frames[ops[0]]);
        CreatedRecords(frames, ops[1..]);
      }
    }
  }

  /** The records give the frames back, and the frames the records. */
  lemma FramesBack(frames: Frames)
    requires CreateRecords(frames, OPERATIONS).Accepted?
    ensures FramesOf(CreateRecords(frames, OPERATIONS).value) == frames
    ensures OneEach(CreateRecords(frames, OPERATIONS).value)
  {
    hide CreateRecord, CreateRecords, OneEach;
    var records := CreateRecords(frames, OPERATIONS).value;
    CreatedOneEach(frames, OPERATIONS);
    CreatedRecords(frames, OPERATIONS);
    FramesOfAll(records);
    var back := FramesOf(records);
    forall op: ReadOperation ensures op in back ==> op in frames {
      if op in back {
        var r := FramesOfOnly(records, op);
      }
    }
    forall op | op in frames ensures op in back && back[op] == frames[op] {
      AllOperations(op);
      var r :| r in records && r.operation == op;
      CreatedOperation(op, frames[op]);
      assert HasFrame(back, r);
    }
  }

  lemma AllOperations(op: ReadOperation)
    ensures op in OPERATIONS
  {
    assert OPERATIONS[0] == TelemetryRead && OPERATIONS[1] == ConfigurationRead && OPERATIONS[2] == WaterAlarmRead;
    assert OPERATIONS[3] == StateRead;
  }

  /** What the constructor builds, it builds again from the bundle's own content. */
  lemma BuiltAgain(a: Arguments, sensitive: string -> bool)
    requires CreateBundle(a, sensitive).Accepted?
    ensures Built(CreateBundle(a, sensitive).value, sensitive)
  {
    hide CreateRecords;
    FramesBack(a.frames);
  }

  // ----- which arguments make a bundle -----

  /** A text of one to 500 characters without anything sensitive. */
  ghost predicate GoodText(f: Field, sensitive: string -> bool) {
    f.Given? && 1 <= |f.text| <= 500 && !sensitive(f.text)
  }

  lemma CheckTextExactly(f: Field, sensitive: string -> bool)
    ensures CheckText(f, sensitive).Accepted? <==> GoodText(f, sensitive)
    ensures CheckText(f, sensitive).Accepted? ==> CheckText(f, sensitive).value == f.text
  {}

  /** A record is made exactly of a valid response, and keeps it with its request. */
  lemma CreateRecordExactly(op: ReadOperation, frame: Frame)
    ensures CreateRecord(op, frame).Accepted? <==> ValidateReadResponse(frame, op).Success?
    ensures CreateRecord(op, frame).Accepted? ==>
      var r := CreateRecord(op, frame).value;
      r.operation == op && r.response == frame && r.request == BuildReadRequest(op) && r.comparison == "not_performed"
  {
    hide ValidateReadResponse, DecodedOf, UnitsOf, Capabilities, Cautions, BuildReadRequest;
  }

  lemma CheckReviewExactly(privacy: Privacy, at: Option<Time>, reviewer: Option<Field>, sensitive: string -> bool)
    ensures CheckReview(privacy, at, reviewer, sensitive).Accepted? <==>
      if privacy.PublicSanitized?
      then at.Some? && at.value.Aware? && reviewer.Some? && GoodText(reviewer.value, sensitive)
      else at.None? && reviewer.None?
  {
    if reviewer.Some? { CheckTextExactly(reviewer.value, sensitive); }
    hide CheckText, GoodText;
  }

  /** A bundle is made exactly when its time has a zone, its texts are good, there is a frame and
      every frame is a valid response, and the review is named exactly when it is public. */
  lemma BundleExactly(a: Arguments, sensitive: string -> bool)
    ensures CreateBundle(a, sensitive).Accepted? <==>
      && a.capturedAt.Aware? && GoodText(a.model, sensitive) && GoodText(a.firmware, sensitive)
      && GoodText(a.app, sensitive) && GoodText(a.notes, sensitive)
      && a.frames != map[] && (forall op | op in a.frames :: ValidateReadResponse(a.frames[op], op).Success?)
      && (if a.privacy.PublicSanitized?
          then a.reviewedAt.Some? && a.reviewedAt.value.Aware? && a.reviewer.Some? && GoodText(a.reviewer.value, sensitive)
          else a.reviewedAt.None? && a.reviewer.None?)
  {
    CheckTextExactly(a.model, sensitive);
    CheckTextExactly(a.firmware, sensitive);
    CheckTextExactly(a.app, sensitive);
    CheckTextExactly(a.notes, sensitive);
    CheckReviewExactly(a.privacy, a.reviewedAt, a.reviewer, sensitive);
    RecordsExactly(a.frames);
    hide CheckText, CheckReview, CreateRecords, ValidateReadResponse, GoodText;
  }

  lemma RecordsExactly(frames: Frames)
    ensures CreateRecords(frames, OPERATIONS).Accepted? <==>
      forall op | op in frames :: ValidateReadResponse(frames[op], op).Success?
  {
    hide CreateRecord, CreateRecords, ValidateReadResponse;
    CreateRecordsExactly(frames, OPERATIONS);
    forall op | op in frames
      ensures op in OPERATIONS && (CreateRecord(op, frames[op]).Accepted? <==> ValidateReadResponse(frames[op], op).Success?)
    {
      AllOperations(op);
      CreateRecordExactly(op, frames[op]);
    }
  }

  /** And it holds what it was made of: the instant, the texts, and one record a frame in the
      order of the operations. */
  lemma BundleContent(a: Arguments, sensitive: string -> bool)
    requires CreateBundle(a, sensitive).Accepted?
    ensures a.capturedAt.Aware? && (a.reviewedAt.Some? ==> a.reviewedAt.value.Aware?)
    ensures var b := CreateBundle(a, sensitive).value;
      && a.capturedAt == Aware(b.capturedAt, a.capturedAt.offset) && b.source == a.source && b.privacy == a.privacy
      && a.model == Given(b.model) && a.firmware == Given(b.firmware) && a.app == Given(b.app) && a.notes == Given(b.notes)
      && (a.reviewedAt.Some? <==> b.reviewedAt.Some?)
      && (a.reviewedAt.Some? ==> a.reviewedAt.value == Aware(b.reviewedAt.value, a.reviewedAt.value.offset))
      && (a.reviewer == if b.reviewer.Some? then Some(Given(b.reviewer.value)) else None)
      && FramesOf(b.records) == a.frames && OneEach(b.records) && InOrder(b.records)
  {
    BundleHead(a, sensitive);
    BundleRecords(a, sensitive);
    FramesBack(a.frames);
    CreatedInOrder(a.frames);
    hide CreateBundle, CreateRecords, FramesOf, OneEach, InOrder;
  }

  lemma BundleHead(a: Arguments, sensitive: string -> bool)
    requires CreateBundle(a, sensitive).Accepted?
    ensures var b := CreateBundle(a, sensitive).value;
      && a.capturedAt.Aware? && a.model.Given? && a.firmware.Given? && a.app.Given? && a.notes.Given?
      && (a.reviewedAt.Some? ==> a.reviewedAt.value.Aware?) && (a.reviewer.Some? ==> a.reviewer.value.Given?)
      && b.source == a.source && b.privacy == a.privacy && b.capturedAt == a.capturedAt.instant
      && b.model == a.model.text && b.firmware == a.firmware.text && b.app == a.app.text && b.notes == a.notes.text
      && (b.reviewedAt == if a.reviewedAt.Some? then Some(a.reviewedAt.value.instant) else None)
      && (b.reviewer == if a.reviewer.Some? then Some(a.reviewer.value.text) else None)
  {
    hide CreateRecords;
  }

  function Rank(op: ReadOperation): nat {
    match op
    case TelemetryRead => 0
    case ConfigurationRead => 1
    case WaterAlarmRead => 2
    case StateRead => 3
  }

  predicate InOrder(records: seq<Record>) {
    forall i, j | 0 <= i < j < |records| :: Rank(records[i].operation) < Rank(records[j].operation)
  }

  lemma {:induction false} InOrderFrom(frames: Frames, ops: seq<ReadOperation>)
    requires CreateRecords(frames, ops).Accepted?
    requires forall i, j | 0 <= i < j < |ops| :: Rank(ops[i]) < Rank(ops[j])
    ensures InOrder(CreateRecords(frames, ops).value)
  {
    hide CreateRecord, Rank;
    if ops != [] {
      InOrderFrom(frames, ops[1..]);
      if ops[0] in frames {
        CreatedOperation(ops[0], frames[ops[0]]);
        CreatedRecords(frames, ops[1..]);
      }
    }
  }

  lemma CreatedInOrder(frames: Frames)
    requires CreateRecords(frames, OPERATIONS).Accepted?
    ensures InOrder(CreateRecords(frames, OPERATIONS).value)
  {
    hide CreateRecords, InOrder;
    InOrderFrom(frames, OPERATIONS);
  }

  // ----- comparing claims -----

  /** Every claim of s is the one derived for r. */
  predicate Agree(s: Supplied, r: Record)
    requires s.Supplied?
  {
    && s.requestHex == Given(ToHex(r.request)) && s.decoded.Some? && SameValues(s.decoded.value, r.decoded)
    && s.units == Some(r.units) && s.capabilities == Some(r.capabilities) && s.cautions == Some(r.cautions)
    && s.comparison == Given(r.comparison)
  }

  lemma CompareAgrees(s: Supplied, r: Record)
    requires s.Supplied?
    ensures Compare(s, r).None? <==> Agree(s, r)
  {}

  lemma {:induction false} CompareAllAgree(claims: Claims, records: seq<Record>)
    requires forall i | 0 <= i < |records| :: records[i].operation in claims && claims[records[i].operation].Supplied?
    ensures CompareAll(claims, records).None? <==>
      forall i | 0 <= i < |records| :: Agree(claims[records[i].operation], records[i])
  {
    hide Compare, Agree;
    if records != [] {
      CompareAgrees(claims[records[0].operation], records[0]);
      CompareAllAgree(claims, records[1..]);
      assert forall i | 1 <= i < |records| :: records[i] == records[1..][i - 1];
    }
  }

  // ----- which documents are accepted -----

  ghost predicate TextsFine(d: Document, sensitive: string -> bool)
    requires d.Document?
  {
    && CheckText(d.model, sensitive).Accepted? && CheckText(d.firmware, sensitive).Accepted?
    && CheckText(d.app, sensitive).Accepted? && CheckText(d.notes, sensitive).Accepted?
  }

  /** Public evidence names its review and its reviewer; private evidence claims neither. */
  ghost predicate ReviewFine(d: Document, sensitive: string -> bool)
    requires d.Document?
  {
    if d.privacy == Some(PublicSanitized)
    then d.reviewedAt.Stamped? && d.reviewedAt.time.Aware? && d.reviewer.Some?
         && CheckText(d.reviewer.value, sensitive).Accepted?
    else d.reviewedAt.Nothing? && d.reviewer.None?
  }

  /** The response is one the operation accepts, and every claim is the one it implies. */
  ghost predicate Proven(s: Supplied)
    requires Readable(s)
  {
    var r := CreateRecord(OpOf(s), BytesOf(s));
    r.Accepted? && Agree(s, r.value)
  }

  ghost predicate Clean(d: Document, sensitive: string -> bool) {
    && d.Document? && d.schema == Given(SCHEMA) && d.source.Some? && d.privacy.Some?
    && d.capturedAt.Stamped? && d.capturedAt.time.Aware? && TextsFine(d, sensitive) && ReviewFine(d, sensitive)
    && d.records.Some? && d.records.value != [] && AllReadable(d.records.value) && Distinct(d.records.value)
    && forall i | 0 <= i < |d.records.value| :: Proven(d.records.value[i])
  }

  lemma {:induction false} CreateRecordsExactly(frames: Frames, ops: seq<ReadOperation>)
    ensures CreateRecords(frames, ops).Accepted? <==>
      forall op | op in ops && op in frames :: CreateRecord(op, frames[op]).Accepted?
  {
    hide CreateRecord;
    if ops != [] {
      CreateRecordsExactly(frames, ops[1..]);
    }
  }

  lemma SuppliedKnown(s: Supplied)
    requires Readable(s)
    ensures s.Supplied? && s.operation == Some(OpOf(s))
  {}

  lemma EntryMeans(g: Gathered, s: Supplied)
    requires Readable(s) && g.frames.Keys == g.claims.Keys && Entry(g, s)
    ensures OpOf(s) in g.frames && OpOf(s) in g.claims && g.claims[OpOf(s)] == s && g.frames[OpOf(s)] == BytesOf(s)
  {}

  /** Gathered frames make records that agree with the claims exactly when every supplied
      record is proven. */
  lemma ProvenExactly(records: seq<Supplied>, g: Gathered)
    requires AllReadable(records) && Distinct(records) && Holds(g, records)
    ensures (forall i | 0 <= i < |records| :: Proven(records[i])) <==>
      CreateRecords(g.frames, OPERATIONS).Accepted?
      && forall r | r in CreateRecords(g.frames, OPERATIONS).value ::
           r.operation in g.claims && g.claims[r.operation].Supplied? && Agree(g.claims[r.operation], r)
  {
    CreateRecordsExactly(g.frames, OPERATIONS);
    hide CreateRecord, CreateRecords, Agree, Readable, BytesOf, OpOf, Entry, Distinct;
    if forall i | 0 <= i < |records| :: Proven(records[i]) {
      forall op | op in OPERATIONS && op in g.frames ensures CreateRecord(op, g.frames[op]).Accepted? {
        var s := Holder(records, g, op);
      }
      CreatedRecords(g.frames, OPERATIONS);
      forall r | r in CreateRecords(g.frames, OPERATIONS).value
        ensures r.operation in g.claims && g.claims[r.operation].Supplied? && Agree(g.claims[r.operation], r)
      {
        var s := Holder(records, g, r.operation);
      }
    } else if CreateRecords(g.frames, OPERATIONS).Accepted? {
      var i :| 0 <= i < |records| && !Proven(records[i]);
      var op := OpOf(records[i]);
      EntryMeans(g, records[i]);
      AllOperations(op);
      CreatedRecords(g.frames, OPERATIONS);
      var r :| r in CreateRecords(g.frames, OPERATIONS).value && r.operation == op;
    }
  }

  /** The supplied record that g keeps under op. */
  lemma Holder(records: seq<Supplied>, g: Gathered, op: ReadOperation) returns (s: Supplied)
    requires AllReadable(records) && Holds(g, records) && op in g.frames
    ensures s in records && Readable(s) && s.Supplied? && OpOf(s) == op
    ensures g.claims[op] == s && g.frames[op] == BytesOf(s)
  {
    hide Readable, BytesOf, OpOf, Entry;
    assert Names(records, op);
    var i :| 0 <= i < |records| && OpOf(records[i]) == op;
    s := records[i];
    EntryMeans(g, s);
    SuppliedKnown(s);
  }

  /** The head of a document makes a bundle exactly when each of its fields is fine. */
  lemma AssembledExactly(d: Document, frames: Frames, sensitive: string -> bool)
    requires d.Document?
    ensures Assemble(d, frames, sensitive).Accepted? <==>
      && d.source.Some? && d.privacy.Some? && d.capturedAt.Stamped? && d.capturedAt.time.Aware?
      && TextsFine(d, sensitive) && ReviewFine(d, sensitive) && frames != map[]
      && CreateRecords(frames, OPERATIONS).Accepted?
  {
    hide CreateRecords, CheckText;
  }

  lemma FramesEmpty(records: seq<Supplied>, g: Gathered)
    requires AllReadable(records) && Holds(g, records)
    ensures g.frames == map[] <==> records == []
  {
    hide Readable, OpOf, BytesOf;
    if records != [] {
      EntryMeans(g, records[0]);
    } else {
      forall op ensures op !in g.frames {
        if op in g.claims { NamesSome(records, op); }
      }
    }
  }

  lemma NamesSome(records: seq<Supplied>, op: ReadOperation)
    requires AllReadable(records) && Names(records, op)
    ensures records != []
  {}

  /** Once its records are gathered, a document is accepted exactly when its bundle can be
      assembled and every derived record agrees with its claim. */
  lemma GatheredExactly(d: Document, sensitive: string -> bool)
    requires d.Document? && d.schema == Given(SCHEMA) && d.records.Some? && Gather(d.records.value).Accepted?
    ensures var g := Gather(d.records.value).value;
      FromDocument(d, sensitive).Accepted? <==>
        && Assemble(d, g.frames, sensitive).Accepted?
        && CreateRecords(g.frames, OPERATIONS).Accepted?
        && forall r | r in CreateRecords(g.frames, OPERATIONS).value ::
             r.operation in g.claims && g.claims[r.operation].Supplied? && Agree(g.claims[r.operation], r)
  {
    hide Assemble, Gather, CreateRecords, Readable, Agree, CompareAll;
    var g := Gather(d.records.value).value;
    GatheredSupplied(d.records.value);
    if Assemble(d, g.frames, sensitive).Accepted? {
      AssembledRecords(d, g.frames, sensitive);
      SuppliedClaims(d.records.value, g, CreateRecords(g.frames, OPERATIONS).value);
      CompareAllAgree(g.claims, CreateRecords(g.frames, OPERATIONS).value);
    }
  }

  lemma SuppliedClaims(records: seq<Supplied>, g: Gathered, created: seq<Record>)
    requires Gather(records) == Accepted(g) && forall i | 0 <= i < |created| :: created[i].operation in g.frames
    ensures forall i | 0 <= i < |created| ::
      created[i].operation in g.claims && g.claims[created[i].operation].Supplied?
  {
    hide Gather, Readable;
    GatheredSupplied(records);
    forall op | op in g.claims ensures g.claims[op].Supplied? { ReadableSupplied(g.claims[op]); }
  }

  /** A document is accepted exactly when its head is fine, no operation comes twice, and
      every record's claims are those its response bytes imply. */
  lemma AcceptedExactly(d: Document, sensitive: string -> bool)
    ensures FromDocument(d, sensitive).Accepted? <==> Clean(d, sensitive)
  {
    if d.Document? && d.schema == Given(SCHEMA) && d.records.Some? {
      GatherExactly(d.records.value);
      if Gather(d.records.value).Accepted? {
        var g := Gather(d.records.value).value;
        GatheredExactly(d, sensitive);
        AssembledExactly(d, g.frames, sensitive);
        FramesEmpty(d.records.value, g);
        ProvenExactly(d.records.value, g);
        hide FromDocument, Assemble, Gather, TextsFine, ReviewFine, CreateRecords, Readable, Holds, Distinct, Proven, Agree;
      }
    }
  }

  // ----- round trips -----

  lemma SameSelf(v: Values)
    ensures SameValues(v, v)
  {}

  lemma PrintedProven(r: Record)
    requires CreateRecord(r.operation, r.response) == Accepted(r)
    ensures Readable(PrintRecord(r)) && OpOf(PrintRecord(r)) == r.operation && BytesOf(PrintRecord(r)) == r.response
    ensures Proven(PrintRecord(r))
  {
    HexRoundTrip(r.response);
    SameSelf(r.decoded);
    hide FromHex, ToHex, CreateRecord, SameValues;
  }

  lemma BuiltMeans(b: Bundle, sensitive: string -> bool)
    requires Built(b, sensitive)
    ensures CreateRecords(FramesOf(b.records), OPERATIONS) == Accepted(b.records)
    ensures OneEach(b.records) && b.records != []
    ensures forall r | r in b.records :: CreateRecord(r.operation, r.response) == Accepted(r)
  {
    hide CreateRecords, CheckText, CheckReview, CreateRecord, FramesOf;
    FramesBack(FramesOf(b.records));
    FramesOfAll(b.records);
    CreatedRecords(FramesOf(b.records), OPERATIONS);
    if b.records == [] { FramesOfNone(); }
    forall r | r in b.records ensures CreateRecord(r.operation, r.response) == Accepted(r) {
      var i :| 0 <= i < |b.records| && b.records[i] == r;
      assert HasFrame(FramesOf(b.records), b.records[i]);
    }
  }

  lemma FramesOfNone()
    ensures FramesOf([]) == map[]
  {}

  /** The frames of a printed bundle are its own. */
  lemma PrintedGathers(b: Bundle, sensitive: string -> bool)
    requires Built(b, sensitive)
    ensures var printed := PrintRecords(b.records);
      && AllReadable(printed) && Distinct(printed) && Gather(printed).Accepted?
      && Gather(printed).value.frames == FramesOf(b.records)
      && forall i | 0 <= i < |printed| :: Proven(printed[i])
  {
    BuiltMeans(b, sensitive);
    hide Built, CreateRecords, CreateRecord, Proven, Readable, OpOf, BytesOf, FramesOf, Gather, PrintRecord;
    var printed := PrintRecords(b.records);
    forall i | 0 <= i < |printed|
      ensures Readable(printed[i]) && Proven(printed[i]) && OpOf(printed[i]) == b.records[i].operation
        && BytesOf(printed[i]) == b.records[i].response
    {
      PrintedProven(b.records[i]);
    }
    GatherExactly(printed);
    SameFrames(printed, Gather(printed).value, b.records);
  }

  lemma SameFrames(printed: seq<Supplied>, g: Gathered, records: seq<Record>)
    requires |printed| == |records| && OneEach(records) && AllReadable(printed) && Holds(g, printed)
    requires forall i | 0 <= i < |printed| ::
      OpOf(printed[i]) == records[i].operation && BytesOf(printed[i]) == records[i].response
    ensures g.frames == FramesOf(records)
  {
    hide Readable, OpOf, BytesOf, Entry, FramesOf;
    FramesOfAll(records);
    var back := FramesOf(records);
    forall op: ReadOperation ensures op in back ==> op in g.frames {
      if op in back {
        var r := FramesOfOnly(records, op);
        var i :| 0 <= i < |records| && records[i] == r;
        EntryMeans(g, printed[i]);
      }
    }
    forall op | op in g.frames ensures op in back && back[op] == g.frames[op] {
      assert Names(printed, op);
      var i :| 0 <= i < |printed| && OpOf(printed[i]) == op;
      EntryMeans(g, printed[i]);
      assert HasFrame(back, records[i]);
    }
  }

  /** Every bundle the constructor can build is read back from its own document. */
  lemma RoundTrip(b: Bundle, sensitive: string -> bool)
    requires Built(b, sensitive)
    ensures FromDocument(Print(b), sensitive) == Accepted(b)
  {
    var d := Print(b);
    PrintedGathers(b, sensitive);
    PrintedHead(b, sensitive);
    hide Built, CreateRecords, Proven, Readable, FramesOf, Gather, PrintRecords, AllReadable, Distinct, CompareAll;
    assert Clean(d, sensitive) by {
      BuiltMeans(b, sensitive);
      AssembledExactly(d, FramesOf(b.records), sensitive);
    }
    AcceptedExactly(d, sensitive);
  }

  lemma PrintedHead(b: Bundle, sensitive: string -> bool)
    requires Built(b, sensitive)
    ensures Assemble(Print(b), FramesOf(b.records), sensitive) == Accepted(b)
  {
    hide CreateRecords, CheckText, FramesOf, PrintRecords;
  }

  /** create, print, read: the bundle itself comes back. */
  lemma CreatedRoundTrip(a: Arguments, sensitive: string -> bool)
    requires CreateBundle(a, sensitive).Accepted?
    ensures FromDocument(Print(CreateBundle(a, sensitive).value), sensitive) == CreateBundle(a, sensitive)
  {
    hide *;
    BuiltAgain(a, sensitive);
    RoundTrip(CreateBundle(a, sensitive).value, sensitive);
  }

  /** Whatever its record order, hex case or time offsets, an accepted document prints to one
      that is accepted as the same bundle, whose claims are derived from its response bytes. */
  lemma Idempotent(d: Document, sensitive: string -> bool)
    requires FromDocument(d, sensitive).Accepted?
    ensures var b := FromDocument(d, sensitive).value;
      && FromDocument(Print(b), sensitive) == Accepted(b)
      && (forall r | r in b.records :: CreateRecord(r.operation, r.response) == Accepted(r))
  {
    hide Built, CreateRecord, CreateRecords, Print, CompareAll, Assemble;
    var g := Gather(d.records.value).value;
    AssembledRecords(d, g.frames, sensitive);
    var b := FromDocument(d, sensitive).value;
    RoundTrip(b, sensitive);
    BuiltMeans(b, sensitive);
  }

  /** What an accepted document says: its own head, and for each supplied record the bytes it
      spells, under its operation, and no others. */
  lemma AcceptedContent(d: Document, sensitive: string -> bool)
    requires FromDocument(d, sensitive).Accepted?
    ensures d.Document? && d.capturedAt.Stamped? && d.capturedAt.time.Aware? && d.records.Some?
    ensures AllReadable(d.records.value)
    ensures var b := FromDocument(d, sensitive).value;
      && d.source == Some(b.source) && d.privacy == Some(b.privacy) && b.capturedAt == d.capturedAt.time.instant
      && d.model == Given(b.model) && d.firmware == Given(b.firmware) && d.app == Given(b.app) && d.notes == Given(b.notes)
      && SameInstant(d.reviewedAt, PrintTime(b.reviewedAt))
      && (d.reviewer == if b.reviewer.Some? then Some(Given(b.reviewer.value)) else None)
      && (forall i | 0 <= i < |d.records.value| :: Spells(FramesOf(b.records), d.records.value[i]))
      && (forall op | op in FramesOf(b.records) :: Names(d.records.value, op))
      && InOrder(b.records)
  {
    AcceptedExactly(d, sensitive);
    AcceptedAssembles(d, sensitive);
    hide FromDocument, CreateBundle, FramesOf, InOrder, OneEach, Readable, Names, Gather, TextsFine, Proven, Distinct;
    GatherExactly(d.records.value);
    var g := Gather(d.records.value).value;
    var a := Arguments(d.source.value, d.privacy.value, ParseTimestamp(d.capturedAt).value.value, d.model, d.firmware, d.app,
                       g.frames, d.notes, ParseTimestamp(d.reviewedAt).value, d.reviewer);
    BundleContent(a, sensitive);
    forall i | 0 <= i < |d.records.value| ensures Spells(g.frames, d.records.value[i]) {
      EntryMeans(g, d.records.value[i]);
    }
  }

  predicate Spells(frames: Frames, s: Supplied)
    requires Readable(s)
  {
    OpOf(s) in frames && frames[OpOf(s)] == BytesOf(s)
  }

  // ----- what acceptance means, in the supplied values themselves -----

  /** The value states this number of tenths, or the truth value that equals it. */
  predicate States(v: Value, tenths: int) {
    v == Num(tenths) || (v == Truth(true) && tenths == 10) || (v == Truth(false) && tenths == 0)
  }

  /** Equal means identical, but for true and one, and false and zero. */
  lemma SameExactly(a: Value, b: Value)
    ensures Same(a, b) <==>
      a == b || (a == Truth(true) && b == Num(10)) || (a == Num(10) && b == Truth(true))
      || (a == Truth(false) && b == Num(0)) || (a == Num(0) && b == Truth(false))
  {}

  lemma SameStates(v: Value, tenths: int)
    ensures Same(v, Num(tenths)) <==> States(v, tenths)
  {}

  lemma SameTruth(v: Value, flag: bool)
    ensures Same(v, Truth(flag)) <==> States(v, if flag then 10 else 0)
  {}

  lemma SameText(v: Value, text: string)
    ensures Same(v, Text(text)) <==> v == Text(text)
    ensures Same(v, Null) <==> v == Null
  {}

  /** The derived claims of a proven record, with the payload they come from. */
  lemma ProvenClaims(s: Supplied) returns (payload: seq<Byte>)
    requires Readable(s) && Proven(s)
    ensures |BytesOf(s)| == |payload| + 5 && payload == Payload(BytesOf(s)) && |payload| == OpOf(s).ByteCount()
    ensures s.decoded.Some? && SameValues(s.decoded.value, DecodedOf(OpOf(s), payload))
  {
    hide TrailerMatches, DecodedOf, SameValues, FromHex;
    var f := BytesOf(s);
    payload := ValidateReadResponse(f, OpOf(s)).value;
    PayloadLength(f, OpOf(s));
  }

  function Claim(s: Supplied, key: Name): Value
    requires s.Supplied? && s.decoded.Some? && key in s.decoded.value
  {
    s.decoded.value[key]
  }

  lemma NumberClaim(s: Supplied, values: Values, key: Name, tenths: int)
    requires s.Supplied? && s.decoded.Some? && SameValues(s.decoded.value, values)
    requires key in values && values[key] == Num(tenths)
    ensures key in s.decoded.value && States(Claim(s, key), tenths)
  {
    hide Same, States;
    SameStates(Claim(s, key), tenths);
  }

  lemma TruthClaim(s: Supplied, values: Values, key: Name, flag: bool)
    requires s.Supplied? && s.decoded.Some? && SameValues(s.decoded.value, values)
    requires key in values && values[key] == Truth(flag)
    ensures key in s.decoded.value && States(Claim(s, key), if flag then 10 else 0)
  {
    hide Same, States;
    SameTruth(Claim(s, key), flag);
  }

  /** The claim is a truth value that follows from the register, or null when that is unknown. */
  predicate Switches(v: Value, register: int, on: int, off: int) {
    if register == on then States(v, 10) else if register == off then States(v, 0) else v == Null
  }

  lemma SwitchClaim(s: Supplied, values: Values, key: Name, register: int, on: int, off: int)
    requires s.Supplied? && s.decoded.Some? && SameValues(s.decoded.value, values) && on != off
    requires key in values
      && values[key] == (if register == on then Truth(true) else if register == off then Truth(false) else Null)
    ensures key in s.decoded.value && Switches(Claim(s, key), register, on, off)
  {
    hide Same, States;
    SameTruth(Claim(s, key), register == on);
    SameText(Claim(s, key), "");
  }

  lemma TextClaim(s: Supplied, values: Values, key: Name, text: Value)
    requires s.Supplied? && s.decoded.Some? && SameValues(s.decoded.value, values)
    requires key in values && values[key] == text && (text.Text? || text.Null?)
    ensures key in s.decoded.value && Claim(s, key) == text
  {
    hide Same;
    SameText(Claim(s, key), if text.Text? then text.text else "");
  }

  lemma SameKeys(a: Values, b: Values)
    requires SameValues(a, b)
    ensures a.Keys == b.Keys
  {}

  lemma TelemetryValues(payload: seq<Byte>)
    requires |payload| == 44
    ensures |Words(payload)| == 22
    ensures var w, d := Words(payload), DecodedOf(TelemetryRead, payload);
      && d.Keys == {ElapsedBrewTime, WaterLevelAlarm, SteamTemperature, BrewTemperature, Pressure, PumpedVolume, ScaleWeight,
                    PumpActiveTime, Flow, WeightRate}
      && d[ElapsedBrewTime] == Num(w[1]) && d[WaterLevelAlarm] == Truth(w[2] != 0) && d[SteamTemperature] == Num(w[4])
      && d[BrewTemperature] == Num(w[5]) && d[Pressure] == Num(w[6]) && d[PumpedVolume] == Integer(w[7])
      && d[ScaleWeight] == Num(w[8]) && d[PumpActiveTime] == Integer(w[13]) && d[Flow] == Integer(w[18])
      && d[WeightRate] == Num(w[19])
  {
    hide Words;
  }

  /** What an accepted telemetry record claims: ten readings, each that of its register, in
      tenths. */
  lemma TelemetryClaims(s: Supplied)
    requires Readable(s) && Proven(s) && OpOf(s) == TelemetryRead
    ensures |BytesOf(s)| == 49 && s.decoded.Some?
    ensures s.decoded.value.Keys ==
      {ElapsedBrewTime, WaterLevelAlarm, SteamTemperature, BrewTemperature, Pressure, PumpedVolume, ScaleWeight,
       PumpActiveTime, Flow, WeightRate}
    ensures var f := BytesOf(s);
      && States(Claim(s, ElapsedBrewTime), RegisterAt(f, 1))
      && States(Claim(s, WaterLevelAlarm), if RegisterAt(f, 2) != 0 then 10 else 0)
      && States(Claim(s, SteamTemperature), RegisterAt(f, 4))
      && States(Claim(s, BrewTemperature), RegisterAt(f, 5))
      && States(Claim(s, Pressure), RegisterAt(f, 6))
      && States(Claim(s, PumpedVolume), 10 * RegisterAt(f, 7))
      && States(Claim(s, ScaleWeight), RegisterAt(f, 8))
      && States(Claim(s, PumpActiveTime), 10 * RegisterAt(f, 13))
      && States(Claim(s, Flow), 10 * RegisterAt(f, 18))
      && States(Claim(s, WeightRate), RegisterAt(f, 19))
  {
    var payload := ProvenClaims(s);
    var f := BytesOf(s);
    TelemetryValues(payload);
    AllRegistersAt(f, 22);
    hide Readable, Proven, BytesOf, Words, RegisterAt, States, Claim, DecodedOf, SameValues;
    var w, d := Words(payload), DecodedOf(TelemetryRead, payload);
    SameKeys(s.decoded.value, d);
    NumberClaim(s, d, ElapsedBrewTime, w[1]);
    TruthClaim(s, d, WaterLevelAlarm, w[2] != 0);
    NumberClaim(s, d, SteamTemperature, w[4]);
    NumberClaim(s, d, BrewTemperature, w[5]);
    NumberClaim(s, d, Pressure, w[6]);
    NumberClaim(s, d, PumpedVolume, 10 * RegisterAt(f, 7));
    NumberClaim(s, d, ScaleWeight, w[8]);
    NumberClaim(s, d, PumpActiveTime, 10 * RegisterAt(f, 13));
    NumberClaim(s, d, Flow, 10 * RegisterAt(f, 18));
    NumberClaim(s, d, WeightRate, w[19]);
  }

  lemma ConfigurationValues(payload: seq<Byte>)
    requires |payload| == 74
    ensures |Words(payload)| == 37
    ensures var w, d := Words(payload), DecodedOf(ConfigurationRead, payload);
      && d.Keys == {CleaningTime, CleaningRest, CleaningRepetitions, SteamHeatingEnabled, BrewHeatingEnabled,
                    SteamTargetTemperature, BrewTargetTemperature, ManualTime, ManualPressure, HeatingMode}
      && d[CleaningTime] == Num(w[0]) && d[CleaningRest] == Num(w[1]) && d[CleaningRepetitions] == Integer(w[2])
      && d[SteamHeatingEnabled] == Enabled(w[6]) && d[BrewHeatingEnabled] == Enabled(w[7])
      && d[SteamTargetTemperature] == Integer(w[8]) && d[BrewTargetTemperature] == Integer(w[9])
      && d[ManualTime] == Num(w[17]) && d[ManualPressure] == Num(w[19])
      && d[HeatingMode] == (if w[22] == 0 then Text("pulse") else if w[22] == 1 then Text("full_speed") else Null)
  {
    hide Words;
  }

  /** What an accepted configuration record claims: ten settings, each that of its register;
      zero switches a boiler on, and an unknown encoding is null. */
  lemma ConfigurationClaims(s: Supplied)
    requires Readable(s) && Proven(s) && OpOf(s) == ConfigurationRead
    ensures |BytesOf(s)| == 79 && s.decoded.Some?
    ensures s.decoded.value.Keys ==
      {CleaningTime, CleaningRest, CleaningRepetitions, SteamHeatingEnabled, BrewHeatingEnabled, SteamTargetTemperature,
       BrewTargetTemperature, ManualTime, ManualPressure, HeatingMode}
    ensures var f := BytesOf(s);
      && States(Claim(s, CleaningTime), RegisterAt(f, 0)) && States(Claim(s, CleaningRest), RegisterAt(f, 1))
      && States(Claim(s, CleaningRepetitions), 10 * RegisterAt(f, 2))
      && Switches(Claim(s, SteamHeatingEnabled), RegisterAt(f, 6), 0, 1)
      && Switches(Claim(s, BrewHeatingEnabled), RegisterAt(f, 7), 0, 1)
      && States(Claim(s, SteamTargetTemperature), 10 * RegisterAt(f, 8))
      && States(Claim(s, BrewTargetTemperature), 10 * RegisterAt(f, 9))
      && States(Claim(s, ManualTime), RegisterAt(f, 17)) && States(Claim(s, ManualPressure), RegisterAt(f, 19))
      && Claim(s, HeatingMode) == (if RegisterAt(f, 22) == 0 then Text("pulse")
                                   else if RegisterAt(f, 22) == 1 then Text("full_speed") else Null)
  {
    var payload := ProvenClaims(s);
    var f := BytesOf(s);
    ConfigurationValues(payload);
    AllRegistersAt(f, 37);
    hide Readable, Proven, BytesOf, Words, RegisterAt, States, Switches, Claim, DecodedOf, SameValues;
    var w, d := Words(payload), DecodedOf(ConfigurationRead, payload);
    SameKeys(s.decoded.value, d);
    NumberClaim(s, d, CleaningTime, w[0]);
    NumberClaim(s, d, CleaningRest, w[1]);
    NumberClaim(s, d, CleaningRepetitions, 10 * RegisterAt(f, 2));
    SwitchClaim(s, d, SteamHeatingEnabled, w[6], 0, 1);
    SwitchClaim(s, d, BrewHeatingEnabled, w[7], 0, 1);
    NumberClaim(s, d, SteamTargetTemperature, 10 * RegisterAt(f, 8));
    NumberClaim(s, d, BrewTargetTemperature, 10 * RegisterAt(f, 9));
    NumberClaim(s, d, ManualTime, w[17]);
    NumberClaim(s, d, ManualPressure, w[19]);
    TextClaim(s, d, HeatingMode, d[HeatingMode]);
  }

  lemma AlarmValues(payload: seq<Byte>)
    requires |payload| == 2
    ensures |Words(payload)| == 1
    ensures var w, d := Words(payload), DecodedOf(WaterAlarmRead, payload);
      && d.Keys == {WaterAlarmEnabled}
      && d[WaterAlarmEnabled] == (if w[0] == 1 then Truth(true) else if w[0] == 0 then Truth(false) else Null)
  {
    hide Words;
  }

  /** The water alarm setting: here one switches it on. */
  lemma AlarmClaims(s: Supplied)
    requires Readable(s) && Proven(s) && OpOf(s) == WaterAlarmRead
    ensures |BytesOf(s)| == 7 && s.decoded.Some? && s.decoded.value.Keys == {WaterAlarmEnabled}
    ensures Switches(Claim(s, WaterAlarmEnabled), RegisterAt(BytesOf(s), 0), 1, 0)
  {
    var payload := ProvenClaims(s);
    var f := BytesOf(s);
    AlarmValues(payload);
    AllRegistersAt(f, 1);
    hide Readable, Proven, BytesOf, Words, RegisterAt, States, Switches, Claim, DecodedOf, SameValues;
    var d := DecodedOf(WaterAlarmRead, payload);
    SameKeys(s.decoded.value, d);
    SwitchClaim(s, d, WaterAlarmEnabled, Words(payload)[0], 1, 0);
  }

  lemma StateValues(payload: seq<Byte>)
    requires |payload| == 3
    ensures var state, d := StateOfCoils(payload), DecodedOf(StateRead, payload);
      && d.Keys == {StateName, ProfileActive, ManualActive, CleaningActive, FreeVariableActive, UnknownCoils}
      && d[StateName] == Text(ModeText(state.Mode()))
      && d[ProfileActive] == Truth(state.profile) && d[ManualActive] == Truth(state.manual)
      && d[CleaningActive] == Truth(state.cleaning) && d[FreeVariableActive] == Truth(state.freeVariable)
      && d[UnknownCoils] == Integer(UnknownBits(payload))
  {
    hide StateOfCoils, ModeText, UnknownBits;
  }

  /** The operating state: the flags and the name of the mode, and the sum of the coils that
      have no documented meaning, which is zero exactly when none of them is set. */
  lemma StateClaims(s: Supplied)
    requires Readable(s) && Proven(s) && OpOf(s) == StateRead
    ensures |BytesOf(s)| == 8 && s.decoded.Some?
    ensures s.decoded.value.Keys ==
      {StateName, ProfileActive, ManualActive, CleaningActive, FreeVariableActive, UnknownCoils}
    ensures var coils := BytesOf(s)[3..6]; var state := StateOfCoils(coils);
      && Claim(s, StateName) == Text(ModeText(state.Mode()))
      && States(Claim(s, ProfileActive), if state.profile then 10 else 0)
      && States(Claim(s, ManualActive), if state.manual then 10 else 0)
      && States(Claim(s, CleaningActive), if state.cleaning then 10 else 0)
      && States(Claim(s, FreeVariableActive), if state.freeVariable then 10 else 0)
      && States(Claim(s, UnknownCoils), 10 * UnknownBits(coils))
  {
    var payload := ProvenClaims(s);
    var f := BytesOf(s);
    assert payload == f[3..6];
    StateValues(payload);
    hide Readable, Proven, BytesOf, States, Claim, DecodedOf, SameValues, StateOfCoils, ModeText, UnknownBits;
    hide OperatingState.Mode;
    var state, d := StateOfCoils(payload), DecodedOf(StateRead, payload);
    SameKeys(s.decoded.value, d);
    TextClaim(s, d, StateName, d[StateName]);
    TruthClaim(s, d, ProfileActive, state.profile);
    TruthClaim(s, d, ManualActive, state.manual);
    TruthClaim(s, d, CleaningActive, state.cleaning);
    TruthClaim(s, d, FreeVariableActive, state.freeVariable);
    NumberClaim(s, d, UnknownCoils, 10 * UnknownBits(payload));
  }

  /** The undocumented coils are all but bits 0, 1, 4, 5 and 11, with their weights. */
  lemma UnknownExactly(coils: seq<Byte>)
    requires |coils| == 3
    ensures UnknownBits(coils) ==
      WeightIf(coils[0], 4) + WeightIf(coils[0], 8) + WeightIf(coils[0], 0x40) + WeightIf(coils[0], 0x80)
      + 0x100 * (WeightIf(coils[1], 1) + WeightIf(coils[1], 2) + WeightIf(coils[1], 4)
                 + WeightIf(coils[1], 0x10) + WeightIf(coils[1], 0x20) + WeightIf(coils[1], 0x40) + WeightIf(coils[1], 0x80))
      + WeightTimes(0x10000, coils[2])
  {
    LowUnknown(coils[0]);
    HighUnknown(coils[1]);
    hide WeightIf;
  }

  function WeightTimes(weight: int, b: int): int { weight * b }

  function WeightIf(b: Byte, weight: nat): int
    requires weight > 0
  {
    if BitSet(b, weight) then weight else 0
  }

  lemma LowUnknown(a: Byte)
    ensures var v: int := a;
      v / 4 % 4 * 4 + v / 64 * 64 == WeightIf(a, 4) + WeightIf(a, 8) + WeightIf(a, 0x40) + WeightIf(a, 0x80)
  {}

  lemma HighUnknown(b: Byte)
    ensures var v: int := b;
      v % 8 + v / 16 * 16 == WeightIf(b, 1) + WeightIf(b, 2) + WeightIf(b, 4)
        + WeightIf(b, 0x10) + WeightIf(b, 0x20) + WeightIf(b, 0x40) + WeightIf(b, 0x80)
  {
    LowThree(b);
    HighFour(b);
    hide WeightIf;
  }

  lemma LowThree(b: Byte)
    ensures var v: int := b; v % 8 == WeightIf(b, 1) + WeightIf(b, 2) + WeightIf(b, 4)
  {}

  lemma HighFour(b: Byte)
    ensures var v: int := b;
      v / 16 * 16 == WeightIf(b, 0x10) + WeightIf(b, 0x20) + WeightIf(b, 0x40) + WeightIf(b, 0x80)
  {}

  lemma AllRegistersAt(f: Frame, n: nat)
    requires |f| == 2 * n + 5
    ensures |Registers(f)| == n && forall k | 0 <= k < n :: Registers(f)[k] == RegisterAt(f, k)
  {
    hide Words;
    forall k | 0 <= k < n ensures Registers(f)[k] == RegisterAt(f, k) { RegistersAt(f, k); }
  }

  // ----- the same document, written differently -----

  /** The same record with its response bytes spelled in another way. */
  predicate Respelled(s: Supplied, t: Supplied) {
    s.Supplied? && t.Supplied? && Readable(s) && Readable(t) && t == s.(responseHex := t.responseHex) && BytesOf(t) == BytesOf(s)
  }

  predicate IsPermutation(p: seq<nat>) {
    && (forall i | 0 <= i < |p| :: p[i] < |p|)
    && (forall i, j | 0 <= i < j < |p| :: p[i] != p[j])
    && (forall k: nat | k < |p| :: k in p)
  }

  /** ts lists the records of rs in another order: ts[i] is rs[p[i]]. */
  predicate Rearranged(rs: seq<Supplied>, ts: seq<Supplied>, p: seq<nat>) {
    && |rs| == |ts| == |p| && IsPermutation(p)
    && (forall i | 0 <= i < |p| :: Respelled(rs[p[i]], ts[i]))
  }

  predicate SameInstant(a: Stamp, b: Stamp) {
    a == b || (a.Stamped? && b.Stamped? && a.time.Aware? && b.time.Aware? && a.time.instant == b.time.instant)
  }

  predicate SameHead(d: Document, e: Document) {
    && d.Document? && e.Document?
    && e == d.(capturedAt := e.capturedAt, reviewedAt := e.reviewedAt, records := e.records)
    && SameInstant(d.capturedAt, e.capturedAt) && SameInstant(d.reviewedAt, e.reviewedAt)
  }

  lemma RespelledProven(s: Supplied, t: Supplied)
    requires Respelled(s, t)
    ensures Readable(s) && Readable(t) && OpOf(s) == OpOf(t) && BytesOf(s) == BytesOf(t) && (Proven(s) <==> Proven(t))
  {
    hide FromHex, CreateRecord, ToHex, SameValues;
  }

  lemma RearrangedKeeps(rs: seq<Supplied>, ts: seq<Supplied>, p: seq<nat>)
    requires Rearranged(rs, ts, p) && AllReadable(rs) && Distinct(rs)
    requires forall i | 0 <= i < |rs| :: Proven(rs[i])
    ensures AllReadable(ts) && Distinct(ts) && forall i | 0 <= i < |ts| :: Proven(ts[i])
  {
    hide Readable, Proven, OpOf, BytesOf, Respelled;
    forall i | 0 <= i < |ts| ensures Readable(ts[i]) && Proven(ts[i]) && OpOf(ts[i]) == OpOf(rs[p[i]]) {
      RespelledProven(rs[p[i]], ts[i]);
    }
    forall i, j | 0 <= i < j < |ts| ensures OpOf(ts[i]) != OpOf(ts[j]) {
      if p[i] < p[j] {
        assert OpOf(rs[p[i]]) != OpOf(rs[p[j]]);
      } else {
        assert OpOf(rs[p[j]]) != OpOf(rs[p[i]]);
      }
    }
  }

  lemma RearrangedFrames(rs: seq<Supplied>, ts: seq<Supplied>, p: seq<nat>, g: Gathered, h: Gathered)
    requires Rearranged(rs, ts, p) && AllReadable(rs) && AllReadable(ts) && Holds(g, rs) && Holds(h, ts)
    ensures g.frames == h.frames
  {
    hide Readable, Proven, OpOf, BytesOf, Respelled, Entry;
    forall op | op in h.frames ensures op in g.frames && g.frames[op] == h.frames[op] {
      assert Names(ts, op);
      var i :| 0 <= i < |ts| && OpOf(ts[i]) == op;
      RespelledProven(rs[p[i]], ts[i]);
      EntryMeans(h, ts[i]);
      EntryMeans(g, rs[p[i]]);
    }
    forall op: ReadOperation ensures op in g.frames ==> op in h.frames {
      if op in g.frames {
        assert Names(rs, op);
        var k :| 0 <= k < |rs| && OpOf(rs[k]) == op;
        assert k in p;
        var i :| 0 <= i < |p| && p[i] == k;
        RespelledProven(rs[p[i]], ts[i]);
        EntryMeans(h, ts[i]);
      }
    }
  }

  lemma AssembledAlike(d: Document, e: Document, frames: Frames, sensitive: string -> bool)
    requires SameHead(d, e)
    ensures Assemble(d, frames, sensitive) == Assemble(e, frames, sensitive)
  {
    hide CreateRecords, CheckText;
  }

  lemma CleanHead(d: Document, e: Document, sensitive: string -> bool)
    requires SameHead(d, e) && e.records.Some? && e.records.value != [] && Clean(d, sensitive)
    requires AllReadable(e.records.value) && Distinct(e.records.value)
    requires forall i | 0 <= i < |e.records.value| :: Proven(e.records.value[i])
    ensures Clean(e, sensitive)
  {
    hide CheckText, AllReadable, Distinct, Proven;
  }

  lemma AcceptedAssembles(d: Document, sensitive: string -> bool)
    requires FromDocument(d, sensitive).Accepted?
    ensures d.Document? && d.records.Some? && Gather(d.records.value).Accepted?
    ensures FromDocument(d, sensitive) == Assemble(d, Gather(d.records.value).value.frames, sensitive)
  {
    hide Assemble, Gather, CompareAll;
  }

  /** Record order, hex case and spacing, and time offsets do not matter: a document written
      in another way is accepted as the same bundle. */
  lemma WrittenDifferently(d: Document, e: Document, p: seq<nat>, sensitive: string -> bool)
    requires FromDocument(d, sensitive).Accepted?
    requires SameHead(d, e) && e.records.Some?
    requires d.records.Some? ==> Rearranged(d.records.value, e.records.value, p)
    ensures FromDocument(e, sensitive) == FromDocument(d, sensitive)
  {
    AcceptedExactly(d, sensitive);
    AcceptedAssembles(d, sensitive);
    var rs, ts := d.records.value, e.records.value;
    RearrangedKeeps(rs, ts, p);
    CleanHead(d, e, sensitive);
    AcceptedExactly(e, sensitive);
    AcceptedAssembles(e, sensitive);
    hide FromDocument, Clean, Assemble, Rearranged, SameHead, Proven, Readable, AllReadable, Distinct, Holds, Gather;
    GatherExactly(rs);
    GatherExactly(ts);
    RearrangedFrames(rs, ts, p, Gather(rs).value, Gather(ts).value);
    AssembledAlike(d, e, Gather(rs).value.frames, sensitive);
  }

  // ----- bundle_from_dict as it runs -----

  lemma {:induction false} GatherStays(records: seq<Supplied>, n: nat)
    requires n <= |records| && Gather(records[..n]).Refused?
    ensures Gather(records) == Gather(records[..n])
    decreases |records| - n
  {
    if n == |records| {
      assert records[..n] == records;
    } else {
      assert records[..n + 1][..n] == records[..n];
      GatherLast(records[..n + 1]);
      hide Gather;
      GatherStays(records, n + 1);
    }
  }

  method GatherFrames(records: seq<Supplied>) returns (r: Verdict<Gathered>)
    ensures r == Gather(records)
  {
    hide Readable, BytesOf, Gather;
    var frames: Frames, claims: Claims := map[], map[];
    GatherNone();
    for i := 0 to |records|
      invariant Gather(records[..i]) == Accepted(Gathered(frames, claims))
    {
      var supplied := records[i];
      assert records[..i + 1][..i] == records[..i];
      GatherLast(records[..i + 1]);
      if supplied.Odd? {
        GatherStays(records, i + 1);
        return Refused(RecordFields);
      }
      if !Readable(supplied) {
        GatherStays(records, i + 1);
        return Refused(OperationOrHex);
      }
      var operation := OpOf(supplied);
      if operation in frames {
        GatherStays(records, i + 1);
        return Refused(DuplicateOperation);
      }
      frames := frames[operation := BytesOf(supplied)];
      claims := claims[operation := supplied];
    }
    assert records[..|records|] == records;
    return Accepted(Gathered(frames, claims));
  }

  lemma GatherNone()
    ensures Gather([]) == Accepted(Gathered(map[], map[]))
  {}

  method FirstMismatch(claims: Claims, records: seq<Record>) returns (wrong: Option<Reason>)
    requires forall i | 0 <= i < |records| :: records[i].operation in claims && claims[records[i].operation].Supplied?
    ensures wrong == CompareAll(claims, records)
    ensures wrong.None? <==> forall i | 0 <= i < |records| :: Agree(claims[records[i].operation], records[i])
  {
    hide Compare, Agree;
    CompareAllAgree(claims, records);
    for i := 0 to |records|
      invariant CompareAll(claims, records) == CompareAll(claims, records[i..])
    {
      assert records[i..][1..] == records[i + 1..];
      wrong := Compare(claims[records[i].operation], records[i]);
      if wrong.Some? {
        return;
      }
    }
    wrong := None;
  }

  method BundleFromDocument(d: Document, sensitive: string -> bool) returns (r: Verdict<Bundle>)
    ensures r == FromDocument(d, sensitive)
    ensures r.Accepted? <==> Clean(d, sensitive)
    ensures r.Accepted? ==> FromDocument(Print(r.value), sensitive) == r
  {
    AcceptedExactly(d, sensitive);
    if FromDocument(d, sensitive).Accepted? { Idempotent(d, sensitive); }
    hide Clean, Assemble, Gather, CompareAll, Print;
    if d.Strange? {
      return Refused(DocumentFields);
    }
    if d.schema != Given(SCHEMA) {
      return Refused(UnsupportedSchema);
    }
    if d.records.None? {
      return Refused(RecordsNotList);
    }
    var g :- GatherFrames(d.records.value);
    var b :- Assemble(d, g.frames, sensitive);
    AssembledRecords(d, g.frames, sensitive);
    GatheredSupplied(d.records.value);
    var wrong := FirstMismatch(g.claims, b.records);
    if wrong.Some? {
      return Refused(wrong.value);
    }
    return Accepted(b);
  }
}
