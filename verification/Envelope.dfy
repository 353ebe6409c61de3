/**
 * The versioned wire envelope `motus:<version>:<payload>` and its size bound.
 *
 * `format` stands for the build's FORMAT_VERSION, so that two builds can be compared; the
 * shipped build is `format == FORMAT_VERSION`.
 */
module Envelope {
  import opened Wrappers
  import opened Text

  const FORMAT_VERSION: nat := 1
  const MAX_PAYLOAD_BYTES: nat := 4 * 1024 * 1024
  const MAGIC: string := "motus:"
  /** The accumulator must not exceed this before another digit is read. */
  const VERSION_GUARD: nat := 100000

  datatype DecodeError =
    | TooLong
    | NotAnEnvelope
    | NoVersionField
    | NonNumericVersion
    | VersionOutOfRange
    | UnsupportedVersion(found: nat)

  // ---------------------------------------------------------------- printing

  function Digit(d: nat): char
    requires d < 10
  {
    '0' + d as char
  }

  /** std::to_string of a non-negative number. */
  function Decimal(n: nat): string {
    if n < 10 then [Digit(n)] else Decimal(n / 10) + [Digit(n % 10)]
  }

  function EnvelopePrefix(format: nat): string {
    MAGIC + Decimal(format) + ":"
  }

  /** The wire form of a payload; Err is the source's length_error. */
  function Serialize(format: nat, payload: string): Result<string, ()> {
    if |EnvelopePrefix(format)| + |payload| > MAX_PAYLOAD_BYTES then Err(())
    else Ok(EnvelopePrefix(format) + payload)
  }

  // ---------------------------------------------------------------- parsing

  predicate IsDigit(c: char) {
    '0' <= c <= '9'
  }

  function DigitValue(c: char): (d: nat)
    requires IsDigit(c)
    ensures d < 10 && Digit(d) == c
  {
    (c - '0') as nat
  }

  /** What the digit loop has accumulated after reading all of `field`, or why it stopped. */
  function Version(field: string): (v: Result<nat, DecodeError>)
    ensures v.Ok? ==> v.value <= 10 * VERSION_GUARD + 9
    decreases |field|
  {
    if field == [] then Ok(0)
    else
      var last := field[|field| - 1];
      match Version(field[..|field| - 1])
      case Err(error) => Err(error)
      case Ok(before) =>
        if !IsDigit(last) then Err(NonNumericVersion)
        else if before > VERSION_GUARD then Err(VersionOutOfRange)
        else Ok(10 * before + DigitValue(last))
  }

  predicate HasPrefix(text: string, prefix: string) {
    |prefix| <= |text| && text[..|prefix|] == prefix
  }

  /** The payload of a wire body, or the reason it is refused. */
  function Decode(format: nat, wire: string): Result<string, DecodeError> {
    if |wire| > MAX_PAYLOAD_BYTES then Err(TooLong)
    else if !HasPrefix(wire, MAGIC) then Err(NotAnEnvelope)
    else
      match Find(wire, ':', |MAGIC|)
      case None => Err(NoVersionField)
      case Some(end) =>
        if end == |MAGIC| then Err(NoVersionField)
        else
          match Version(wire[|MAGIC|..end])
          case Err(error) => Err(error)
          case Ok(version) =>
            if version != format then Err(UnsupportedVersion(version)) else Ok(wire[end + 1..])
  }

  /** ByteMessage::deserialize with its digit loop. */
  method Deserialize(format: nat, wire: string) returns (r: Result<string, DecodeError>)
    ensures r == Decode(format, wire)
  {
    if |wire| > MAX_PAYLOAD_BYTES {
      return Err(TooLong);
    }
    if !HasPrefix(wire, MAGIC) {
      return Err(NotAnEnvelope);
    }
    var versionBegin := |MAGIC|;
    var found := Find(wire, ':', versionBegin);
    if found.None? || found.value == versionBegin {
      return Err(NoVersionField);
    }
    var versionEnd := found.value;
    ghost var field := wire[versionBegin..versionEnd];
    var version: nat := 0;
    for i := versionBegin to versionEnd
      invariant Version(field[..i - versionBegin]) == Ok(version)
    {
      var c := wire[i];
      var read := i - versionBegin;
      assert field[..read + 1][..read] == field[..read];
      if !IsDigit(c) {
        StoppedEarly(field, read + 1);
        return Err(NonNumericVersion);
      }
      if version > VERSION_GUARD {
        StoppedEarly(field, read + 1);
        return Err(VersionOutOfRange);
      }
      version := version * 10 + DigitValue(c);
    }
    assert field[..versionEnd - versionBegin] == field;
    if version != format {
      return Err(UnsupportedVersion(version));
    }
    return Ok(wire[versionEnd + 1..]);
  }

  /** An error met in the first characters decides the whole field. */
  lemma {:induction false} StoppedEarly(field: string, read: nat)
    requires read <= |field| && Version(field[..read]).Err?
    ensures Version(field) == Version(field[..read])
    decreases |field|
  {
    if read == |field| {
      assert field[..read] == field;
    } else {
      var shorter := field[..|field| - 1];
      assert shorter[..read] == field[..read];
      StoppedEarly(shorter, read);
    }
  }

  // ---------------------------------------------------------------- what is accepted

  function Zeros(n: nat): (zeros: string)
    ensures |zeros| == n
  {
    seq(n, i => '0')
  }

  /** Values whose digits all pass the guard: those up to 1000009. */
  predicate Representable(version: nat) {
    version / 10 <= VERSION_GUARD
  }

  lemma {:induction false} DecimalIsRead(zeros: nat, version: nat)
    requires Representable(version)
    ensures Version(Zeros(zeros) + Decimal(version)) == Ok(version)
    decreases version, zeros
  {
    var field := Zeros(zeros) + Decimal(version);
    if version >= 10 {
      DecimalIsRead(zeros, version / 10);
      assert field[..|field| - 1] == Zeros(zeros) + Decimal(version / 10);
    } else if zeros > 0 {
      DecimalIsRead(zeros - 1, 0);
      assert field[..|field| - 1] == Zeros(zeros - 1) + Decimal(0);
    } else {
      assert field[..0] == [];
    }
  }

  lemma {:induction false} LargeVersionIsRefused(zeros: nat, version: nat)
    requires !Representable(version)
    ensures Version(Zeros(zeros) + Decimal(version)) == Err(VersionOutOfRange)
  {
    var field := Zeros(zeros) + Decimal(version);
    assert field[..|field| - 1] == Zeros(zeros) + Decimal(version / 10);
    if Representable(version / 10) {
      DecimalIsRead(zeros, version / 10);
    } else {
      LargeVersionIsRefused(zeros, version / 10);
    }
  }

  /** A field that reads as `version` is its decimal form after some leading zeros. */
  lemma {:induction false} ReadIsDecimal(field: string, version: nat) returns (zeros: nat)
    requires field != [] && Version(field) == Ok(version)
    ensures Representable(version) && field == Zeros(zeros) + Decimal(version)
    decreases |field|
  {
    var front, last := field[..|field| - 1], field[|field| - 1];
    assert field == front + [last];
    if front == [] {
      zeros := 0;
    } else {
      zeros := ReadIsDecimal(front, Version(front).value);
      if Version(front).value == 0 {
        zeros := zeros + 1;
        assert front == Zeros(zeros);
      } else {
        assert Decimal(version) == Decimal(Version(front).value) + [last];
      }
    }
  }

  lemma {:induction false} DecimalHasDigitsOnly(version: nat)
    ensures forall i | 0 <= i < |Decimal(version)| :: IsDigit(Decimal(version)[i])
  {
    if version >= 10 {
      DecimalHasDigitsOnly(version / 10);
    }
  }

  lemma DecimalIsNotEmpty(version: nat)
    ensures Decimal(version) != []
  {
  }

  function Wire(zeros: nat, version: nat, payload: string): string {
    MAGIC + Zeros(zeros) + Decimal(version) + ":" + payload
  }

  lemma FieldIsFound(field: string, payload: string)
    requires forall i | 0 <= i < |field| :: field[i] != ':'
    ensures var wire, end := "motus:" + field + ":" + payload, 6 + |field|;
            && HasPrefix(wire, "motus:") && |wire| == end + 1 + |payload|
            && Find(wire, ':', 6) == Some(end) && wire[6..end] == field && wire[end + 1..] == payload
  {
    var wire, end := "motus:" + field + ":" + payload, 6 + |field|;
    assert forall i | 6 <= i < end :: wire[i] == field[i - 6];
    assert wire[end] == ':';
  }

  /** Decoding a well-formed body: the version decides, leading zeros do not. */
  lemma DecodeOfWire(format: nat, zeros: nat, version: nat, payload: string)
    requires |Wire(zeros, version, payload)| <= MAX_PAYLOAD_BYTES
    ensures Decode(format, Wire(zeros, version, payload)) ==
            if !Representable(version) then Err(VersionOutOfRange)
            else if version != format then Err(UnsupportedVersion(version))
            else Ok(payload)
    ensures Representable(version) <==> version <= 1000009
  {
    hide Version, Find, HasPrefix, Decimal;
    var field := Zeros(zeros) + Decimal(version);
    DecimalHasDigitsOnly(version);
    FieldIsFound(field, payload);
    assert Wire(zeros, version, payload) == "motus:" + field + ":" + payload;
    assert field != [] by { DecimalIsNotEmpty(version); }
    if Representable(version) {
      DecimalIsRead(zeros, version);
    } else {
      LargeVersionIsRefused(zeros, version);
    }
  }

  /** Exactly which bodies a build accepts, and what it reads from them. */
  lemma AcceptsExactly(format: nat, wire: string, payload: string)
    ensures Decode(format, wire) == Ok(payload)
            <==> |wire| <= MAX_PAYLOAD_BYTES && Representable(format) && exists zeros :: wire == Wire(zeros, format, payload)
  {
    if Decode(format, wire) == Ok(payload) {
      var end := Find(wire, ':', |MAGIC|).value;
      var field := wire[|MAGIC|..end];
      var zeros := ReadIsDecimal(field, format);
      assert wire == wire[..|MAGIC|] + field + wire[end..end + 1] + wire[end + 1..];
      assert wire == Wire(zeros, format, payload);
    }
    if |wire| <= MAX_PAYLOAD_BYTES && Representable(format) {
      forall zeros | wire == Wire(zeros, format, payload) ensures Decode(format, wire) == Ok(payload) {
        DecodeOfWire(format, zeros, format, payload);
      }
    }
  }

  /** The shipped build: `motus:` zeros `1:` payload within 4 MiB, and nothing else. */
  lemma ShippedBuildAccepts(wire: string)
    ensures Decode(FORMAT_VERSION, wire).Ok?
            <==> |wire| <= 4194304 && exists zeros, payload :: wire == "motus:" + Zeros(zeros) + "1:" + payload
  {
    forall zeros, payload ensures Wire(zeros, FORMAT_VERSION, payload) == "motus:" + Zeros(zeros) + "1:" + payload {
      assert Decimal(1) == "1";
    }
    if Decode(FORMAT_VERSION, wire).Ok? {
      var payload := Decode(FORMAT_VERSION, wire).value;
      AcceptsExactly(FORMAT_VERSION, wire, payload);
      var zeros :| wire == Wire(zeros, FORMAT_VERSION, payload);
      assert wire == "motus:" + Zeros(zeros) + "1:" + payload;
    }
    forall zeros, payload | |wire| <= MAX_PAYLOAD_BYTES && wire == "motus:" + Zeros(zeros) + "1:" + payload
      ensures Decode(FORMAT_VERSION, wire).Ok?
    {
      assert wire == Wire(zeros, FORMAT_VERSION, payload);
      AcceptsExactly(FORMAT_VERSION, wire, payload);
    }
  }

  // ---------------------------------------------------------------- what is refused, and as what

  /** Before the version is read: the size, then the magic, then a field that is there and not empty. */
  lemma RefusedBeforeReading(format: nat, wire: string)
    ensures Decode(format, wire) == Err(TooLong) <==> |wire| > 4194304
    ensures Decode(format, wire) == Err(NotAnEnvelope) <==> |wire| <= 4194304 && !HasPrefix(wire, "motus:")
    ensures Decode(format, wire) == Err(NoVersionField)
            <==> |wire| <= 4194304 && HasPrefix(wire, "motus:")
                 && ((forall i | 6 <= i < |wire| :: wire[i] != ':') || wire[6] == ':')
  {
    FieldErrorsOnly(if |wire| >= 6 && Find(wire, ':', 6).Some? then wire[6..Find(wire, ':', 6).value] else []);
  }

  lemma {:induction false} FieldErrorsOnly(field: string)
    ensures Version(field).Err? ==> Version(field) == Err(NonNumericVersion) || Version(field) == Err(VersionOutOfRange)
    decreases |field|
  {
    if field != [] {
      FieldErrorsOnly(field[..|field| - 1]);
    }
  }

  /** The loop got to `i` and stops there at a character that is no digit. */
  predicate StrayAt(field: string, i: nat) {
    i < |field| && Version(field[..i]).Ok? && !IsDigit(field[i])
  }

  /** The loop got to `i` and stops there since what it has read exceeds 100000 and another digit follows. */
  predicate TooLargeAt(field: string, i: nat) {
    i < |field| && Version(field[..i]).Ok? && IsDigit(field[i]) && Version(field[..i]).value > 100000
  }

  /** The field is read from the left, and what stops the loop first names the refusal. */
  lemma {:induction false} FirstProblemNamed(field: string)
    ensures Version(field) == Err(NonNumericVersion) <==> exists i :: StrayAt(field, i)
    ensures Version(field) == Err(VersionOutOfRange) <==> exists i :: TooLargeAt(field, i)
    decreases |field|
  {
    forall i: nat | StrayAt(field, i) ensures Version(field) == Err(NonNumericVersion) {
      assert field[..i + 1][..i] == field[..i];
      StoppedEarly(field, i + 1);
    }
    forall i: nat | TooLargeAt(field, i) ensures Version(field) == Err(VersionOutOfRange) {
      assert field[..i + 1][..i] == field[..i];
      StoppedEarly(field, i + 1);
    }
    if Version(field).Err? {
      var last := |field| - 1;
      var front := field[..last];
      if Version(front).Err? {
        FieldErrorsOnly(front);
        FirstProblemNamed(front);
        forall i: nat | i < |front| ensures front[..i] == field[..i] {}
        assert forall i :: StrayAt(front, i) ==> StrayAt(field, i);
        assert forall i :: TooLargeAt(front, i) ==> TooLargeAt(field, i);
      } else {
        assert StrayAt(field, last) || TooLargeAt(field, last);
      }
    }
  }

  /** A body with a version field is refused as its field is, or for the version it reads. */
  lemma RefusedAsItsField(format: nat, field: string, payload: string)
    requires field != [] && (forall i | 0 <= i < |field| :: field[i] != ':') && 6 + |field| + 1 + |payload| <= 4194304
    ensures Decode(format, "motus:" + field + ":" + payload) ==
            match Version(field)
            case Err(error) => Err(error)
            case Ok(version) => if version == format then Ok(payload) else Err(UnsupportedVersion(version))
  {
    hide Version, Find, HasPrefix;
    FieldIsFound(field, payload);
  }

  // ---------------------------------------------------------------- round trips

  /** Build `reader` understands build `writer`'s output exactly when the versions agree and fit the guard. */
  lemma BuildsUnderstandOnlyThemselves(writer: nat, reader: nat, payload: string)
    requires Serialize(writer, payload).Ok?
    ensures var wire := Serialize(writer, payload).value;
            && (Decode(reader, wire) == Ok(payload) <==> writer == reader && Representable(reader))
            && (Decode(reader, wire).Ok? ==> Decode(reader, wire) == Ok(payload))
  {
    assert Serialize(writer, payload).value == Wire(0, writer, payload);
    DecodeOfWire(reader, 0, writer, payload);
  }

  /** Everything the shipped build serializes it can read back; it refuses exactly the payloads over 4 MiB less the prefix. */
  lemma RoundTrip(payload: string)
    ensures Serialize(FORMAT_VERSION, payload).Ok? <==> |payload| + |"motus:1:"| <= 4194304
    ensures Serialize(FORMAT_VERSION, payload).Ok? ==>
              Serialize(FORMAT_VERSION, payload).value == "motus:1:" + payload
              && Decode(FORMAT_VERSION, Serialize(FORMAT_VERSION, payload).value) == Ok(payload)
  {
    assert Decimal(1) == "1";
    assert EnvelopePrefix(1) == "motus:1:";
    if Serialize(FORMAT_VERSION, payload).Ok? {
      BuildsUnderstandOnlyThemselves(FORMAT_VERSION, FORMAT_VERSION, payload);
    }
  }

  /**
   * Re-serializing an accepted body never fails, grows it or changes what is read from it; it gives the
   * same bytes back exactly when the body begins with the build's own prefix.
   */
  lemma ReserializingNeverGrows(format: nat, wire: string)
    requires Decode(format, wire).Ok?
    ensures var again := Serialize(format, Decode(format, wire).value);
            && again.Ok?
            && |again.value| <= |wire|
            && Decode(format, again.value) == Decode(format, wire)
            && (again.value == wire <==> HasPrefix(wire, EnvelopePrefix(format)))
  {
    var payload := Decode(format, wire).value;
    AcceptsExactly(format, wire, payload);
    var zeros :| wire == Wire(zeros, format, payload);
    assert Serialize(format, payload).value == Wire(0, format, payload);
    assert Zeros(0) == [];
    DecodeOfWire(format, 0, format, payload);
    if zeros > 0 {
      PaddedHasNoPlainPrefix(format, zeros, payload);
    }
  }

  /** A padded body does not begin with the plain prefix, whatever the version. */
  lemma PaddedHasNoPlainPrefix(version: nat, zeros: nat, payload: string)
    requires zeros > 0
    ensures !HasPrefix(Wire(zeros, version, payload), EnvelopePrefix(version))
  {
    var wire, decimal := Wire(zeros, version, payload), Decimal(version);
    DecimalHasDigitsOnly(version);
    var end := |MAGIC| + |decimal|;
    assert EnvelopePrefix(version)[end] == ':';
    assert wire[end] == (Zeros(zeros) + decimal)[|decimal|];
    assert IsDigit(wire[end]);
    assert wire[..|EnvelopePrefix(version)|][end] == wire[end];
  }

  /** A leading zero is lost: this body is accepted and comes back one byte shorter. */
  lemma LeadingZeroIsDropped(payload: string)
    requires |"motus:01:"| + |payload| <= MAX_PAYLOAD_BYTES
    ensures Decode(FORMAT_VERSION, "motus:01:" + payload) == Ok(payload)
    ensures Serialize(FORMAT_VERSION, payload) == Ok("motus:1:" + payload)
  {
    assert Decimal(1) == "1" && Zeros(1) == "0";
    assert Wire(1, 1, payload) == "motus:01:" + payload;
    DecodeOfWire(FORMAT_VERSION, 1, 1, payload);
    RoundTrip(payload);
  }
}
