/**
 * The strict telemetry schema of the package: `BatteryTelemetryModel` and
 * `validate_telemetry` in ev_qa_framework/models.py.
 *
 * A raw record is a map from key to a JSON-like value. Validation follows the
 * schema library's order for every declared field: presence, lax float (or
 * string) coercion, the declared length or range constraint, then the field's
 * own validator. Every field is validated, so a failure lists each violated
 * field once, in declaration order.
 */
module Schema {
  import opened Wrappers

  /** A value as it arrives in a raw record. */
  datatype RawValue =
    | Num(x: real)                            // a Python int or float
    | Bool(b: bool)
    | Str(s: string)
    | Null
    | List(items: seq<RawValue>)
    | Dict(entries: map<string, RawValue>)

  type Record = map<string, RawValue>

  function Get(data: Record, key: string): (r: Option<RawValue>)
    ensures r.Some? <==> key in data
    ensures r.Some? ==> r.value == data[key]
  {
    if key in data then Some(data[key]) else None
  }

  // ---------------------------------------------------------------------------
  // Numeric coercion: the fixed allow-list of number, boolean and decimal string
  // ---------------------------------------------------------------------------

  predicate IsDigit(c: char) { '0' <= c <= '9' }

  predicate AllDigits(s: string) {
    forall i :: 0 <= i < |s| ==> IsDigit(s[i])
  }

  function DigitValue(c: char): nat
    requires IsDigit(c)
  {
    c as int - '0' as int
  }

  /** The value of a string of decimal digits, most significant first. */
  function DigitsValue(s: string): nat
    requires AllDigits(s)
    decreases |s|
  {
    if s == [] then 0 else DigitsValue(s[..|s| - 1]) * 10 + DigitValue(s[|s| - 1])
  }

  function Pow10(n: nat): (p: nat)
    ensures p >= 1
  {
    if n == 0 then 1 else 10 * Pow10(n - 1)
  }

  /** Position of the first '.', or |s| when there is none. */
  function DotIndex(s: string): (k: nat)
    ensures k <= |s|
    ensures k < |s| ==> s[k] == '.'
    ensures forall i :: 0 <= i < k ==> s[i] != '.'
  {
    if s == [] || s[0] == '.' then 0 else 1 + DotIndex(s[1..])
  }

  /** The number a `whole.frac` numeral spells: whole + frac / 10^|frac|. */
  function NumeralValue(whole: string, frac: string): real
    requires AllDigits(whole) && AllDigits(frac)
  {
    DigitsValue(whole) as real + DigitsValue(frac) as real / Pow10(|frac|) as real
  }

  /** `digits`, `digits.`, `.digits` or `digits.digits`, with at least one digit. */
  function ParseUnsigned(s: string): Option<real> {
    var k := DotIndex(s);
    var whole := s[..k];
    var frac := if k < |s| then s[k + 1..] else "";
    if AllDigits(whole) && AllDigits(frac) && |whole| + |frac| > 0 then
      Some(NumeralValue(whole, frac))
    else
      None
  }

  /** A decimal number with an optional sign. */
  function ParseDecimal(s: string): Option<real> {
    if |s| > 0 && s[0] == '-' then
      match ParseUnsigned(s[1..])
      case Some(x) => Some(-x)
      case None => None
    else if |s| > 0 && s[0] == '+' then ParseUnsigned(s[1..])
    else ParseUnsigned(s)
  }

  /** The lax float coercion applied to every numeric field. */
  function ToFloat(v: RawValue): (r: Option<real>)
    ensures v.Num? ==> r == Some(v.x)
    ensures v.Bool? ==> r == Some(if v.b then 1.0 else 0.0)
    ensures v.Null? || v.List? || v.Dict? ==> r == None
  {
    match v
    case Num(x) => Some(x)
    case Bool(b) => Some(if b then 1.0 else 0.0)
    case Str(s) => ParseDecimal(s)
    case Null => None
    case List(_) => None
    case Dict(_) => None
  }

  /** The coercions the schema tests exercise. */
  lemma CoercionExamples()
    ensures ToFloat(Str("50")) == Some(50.0)
    ensures ToFloat(Bool(true)) == Some(1.0)
  {
    assert DotIndex("50") == 2;
    assert DigitsValue("50") == 50 by { assert "50"[..1] == "5"; }
  }

  /** Text that is not a number, null, lists and dictionaries do not coerce. */
  lemma RejectedCoercionExamples()
    ensures ToFloat(Str("строка")) == None
    ensures ToFloat(Null) == None && ToFloat(List([])) == None && ToFloat(Dict(map[])) == None
  {
    assert !IsDigit("строка"[0]);
  }

  /** Every non-empty string of decimal digits coerces to the number it spells. */
  lemma {:induction false} DigitStringCoerces(s: string)
    requires |s| > 0 && AllDigits(s)
    ensures ToFloat(Str(s)) == Some(DigitsValue(s) as real)
  {
    assert s[0] != '-' && s[0] != '+' by { assert IsDigit(s[0]); }
    var k := DotIndex(s);
    assert k == |s|;
    assert s[..k] == s;
  }

  /** A `whole.frac` numeral, with or without a sign, coerces to whole + frac / 10^|frac|, negated after '-'. */
  lemma SignedDecimalCoerces(w: string, f: string)
    requires AllDigits(w) && AllDigits(f) && |w| + |f| > 0
    ensures ToFloat(Str(w + "." + f)) == Some(NumeralValue(w, f))
    ensures ToFloat(Str("+" + w + "." + f)) == Some(NumeralValue(w, f))
    ensures ToFloat(Str("-" + w + "." + f)) == Some(-NumeralValue(w, f))
  {
    var s := w + "." + f;
    FractionParses(w, f);
    assert s[0] != '-' && s[0] != '+' by {
      if |w| > 0 { assert s[0] == w[0]; } else { assert s[0] == '.'; }
    }
    assert "+" + w + "." + f == "+" + s;
    assert ("+" + s)[1..] == s;
    assert "-" + w + "." + f == "-" + s;
    assert ("-" + s)[1..] == s;
  }

  lemma FractionParses(w: string, f: string)
    requires AllDigits(w) && AllDigits(f) && |w| + |f| > 0
    ensures ParseUnsigned(w + "." + f) == Some(NumeralValue(w, f))
  {
    var s := w + "." + f;
    DotAfterDigits(w, f);
    assert s[..|w|] == w;
    assert s[|w| + 1..] == f;
  }

  lemma DotAfterDigits(w: string, f: string)
    requires AllDigits(w)
    ensures DotIndex(w + "." + f) == |w|
  {
    var s := w + "." + f;
    var k := DotIndex(s);
    assert s[|w|] == '.';
  }

  /** Fractional and signed readings as they arrive from text sources. */
  lemma FractionalCoercionExamples()
    ensures ToFloat(Str("3.95")) == Some(3.95)
    ensures ToFloat(Str("-12.5")) == Some(-12.5)
  {
    PackVoltageText();
    ChargeCurrentText();
  }

  lemma PackVoltageText()
    ensures ToFloat(Str("3.95")) == Some(3.95)
  {
    assert "3.95" == "3" + "." + "95";
    PackVoltageValue();
    SignedDecimalCoerces("3", "95");
  }

  lemma PackVoltageValue()
    ensures NumeralValue("3", "95") == 3.95
  {
    assert DigitsValue("3") == 3 by { assert "3"[..0] == ""; }
    assert DigitsValue("95") == 95 by { assert "95"[..1] == "9"; }
    assert Pow10(2) == 100;
  }

  lemma ChargeCurrentText()
    ensures ToFloat(Str("-12.5")) == Some(-12.5)
  {
    assert "-12.5" == "-" + "12" + "." + "5";
    ChargeCurrentValue();
    SignedDecimalCoerces("12", "5");
  }

  lemma ChargeCurrentValue()
    ensures NumeralValue("12", "5") == 12.5
  {
    assert DigitsValue("12") == 12 by { assert "12"[..1] == "1"; }
    assert DigitsValue("5") == 5 by { assert "5"[..0] == ""; }
    assert Pow10(1) == 10;
  }

  /** Free text is rejected: a character outside digits, '.', '+' and '-' defeats coercion. */
  lemma NonNumericTextRejected(s: string, i: nat)
    requires i < |s| && !IsDigit(s[i]) && s[i] != '.' && s[i] != '+' && s[i] != '-'
    ensures ToFloat(Str(s)) == None
  {
    var body := if s[0] == '-' || s[0] == '+' then s[1..] else s;
    var j := if s[0] == '-' || s[0] == '+' then i - 1 else i;
    assert i > 0 || (s[0] != '-' && s[0] != '+');
    assert 0 <= j < |body| && body[j] == s[i];
    UnsignedRejects(body, j);
  }

  lemma UnsignedRejects(s: string, j: nat)
    requires j < |s| && !IsDigit(s[j]) && s[j] != '.'
    ensures ParseUnsigned(s) == None
  {
    var k := DotIndex(s);
    if j < k {
      assert s[..k][j] == s[j];
    } else {
      assert j != k;
      assert s[k + 1..][j - k - 1] == s[j];
    }
  }

  // ---------------------------------------------------------------------------
  // Declared fields and what can go wrong with them
  // ---------------------------------------------------------------------------

  datatype Field = Vin | Voltage | Current | Temperature | Soc | Soh | Time

  function Key(f: Field): string {
    match f
    case Vin => "vin"
    case Voltage => "voltage"
    case Current => "current"
    case Temperature => "temperature"
    case Soc => "soc"
    case Soh => "soh"
    case Time => "timestamp"
  }

  datatype Violation =
    | Missing                     // a required key is absent
    | NotANumber                  // the value does not coerce to a float
    | NotAString                  // the identifier is not a string
    | NotADatetime                // the timestamp is neither a number, a string nor null
    | TooShort | TooLong          // identifier length constraint
    | NotAlphanumeric | ForbiddenLetter
    | BelowMinimum(bound: real)   // a `ge` constraint
    | AboveMaximum(bound: real)   // an `le` constraint
    | PercentOutOfRange           // raised by the percentage validator

  datatype FieldError = FieldError(field: Field, violation: Violation)

  /** The schema library reports every failing field, not only the first. */
  type Failure = seq<FieldError>

  const VinLength: nat := 17
  const VoltageMin: real := 0.0
  const VoltageMax: real := 1000.0
  const TemperatureMin: real := -50.0
  const TemperatureMax: real := 150.0
  const PercentMin: real := 0.0
  const PercentMax: real := 100.0

  // ---------------------------------------------------------------------------
  // Vehicle identifier
  // ---------------------------------------------------------------------------

  predicate IsAsciiLetter(c: char) { 'a' <= c <= 'z' || 'A' <= c <= 'Z' }

  /** `str.isalnum` restricted to the ASCII alphabet. */
  predicate IsAsciiAlnum(c: char) { IsDigit(c) || IsAsciiLetter(c) }

  function Upper(c: char): char {
    if 'a' <= c <= 'z' then (c as int - 32) as char else c
  }

  function UpperStr(s: string): (u: string)
    ensures |u| == |s| && forall i :: 0 <= i < |s| ==> u[i] == Upper(s[i])
  {
    seq(|s|, i requires 0 <= i < |s| => Upper(s[i]))
  }

  const Forbidden: set<char> := {'I', 'O', 'Q'}

  predicate IsAlnumStr(s: string) {
    |s| > 0 && forall i :: 0 <= i < |s| ==> IsAsciiAlnum(s[i])
  }

  /** The identifier rule, stated without upper-casing: 17 ASCII letters or digits, no I, O or Q in either case. */
  predicate VinAccepted(s: string) {
    |s| == VinLength &&
    forall i :: 0 <= i < |s| ==> IsAsciiAlnum(s[i]) && s[i] !in {'I', 'O', 'Q', 'i', 'o', 'q'}
  }

  lemma UpperOfAlnum(c: char)
    requires IsAsciiAlnum(c)
    ensures IsAsciiAlnum(Upper(c)) && Upper(Upper(c)) == Upper(c)
    ensures Upper(c) in Forbidden <==> c in {'I', 'O', 'Q', 'i', 'o', 'q'}
  {
  }

  /** `validate_vin_format`: runs after the length constraint; rejects, or returns the upper-cased identifier. */
  function ValidateVinFormat(v: string): (r: Result<string, Violation>)
    ensures r.Ok? <==> |v| > 0 && forall i :: 0 <= i < |v| ==> IsAsciiAlnum(v[i]) && v[i] !in {'I', 'O', 'Q', 'i', 'o', 'q'}
    ensures r.Ok? ==> r.value == UpperStr(v)
    ensures r.Err? ==> r.error == if IsAlnumStr(v) then ForbiddenLetter else NotAlphanumeric
  {
    if !IsAlnumStr(v) then Err(NotAlphanumeric)
    else
      var u := UpperStr(v);
      if exists i | 0 <= i < |u| :: u[i] in Forbidden then
        var i :| 0 <= i < |u| && u[i] in Forbidden;
        UpperOfAlnum(v[i]);
        Err(ForbiddenLetter)
      else
        assert forall i :: 0 <= i < |v| ==> v[i] !in {'I', 'O', 'Q', 'i', 'o', 'q'} by {
          forall i | 0 <= i < |v| ensures v[i] !in {'I', 'O', 'Q', 'i', 'o', 'q'} {
            UpperOfAlnum(v[i]);
          }
        }
        Ok(u)
  }

  /** The `vin` field: a string of exactly 17 characters, then `validate_vin_format`. */
  function ValidateVin(raw: Option<RawValue>): (r: Result<string, Violation>)
    ensures r.Ok? <==> raw.Some? && raw.value.Str? && VinAccepted(raw.value.s)
    ensures r.Ok? ==> r.value == UpperStr(raw.value.s)
    ensures raw.None? <==> r == Err(Missing)
  {
    match raw
    case None => Err(Missing)
    case Some(Str(s)) =>
      if |s| < VinLength then Err(TooShort)
      else if |s| > VinLength then Err(TooLong)
      else ValidateVinFormat(s)
    case Some(_) => Err(NotAString)
  }

  /** Re-validating a stored (upper-cased) identifier returns it unchanged. */
  lemma VinNormalisationIdempotent(s: string)
    requires ValidateVinFormat(s).Ok?
    ensures ValidateVinFormat(ValidateVinFormat(s).value) == ValidateVinFormat(s)
  {
    var u := UpperStr(s);
    forall i | 0 <= i < |s| ensures IsAsciiAlnum(u[i]) && Upper(u[i]) == u[i] {
      UpperOfAlnum(s[i]);
    }
    assert UpperStr(u) == u;
  }

  // ---------------------------------------------------------------------------
  // Numeric fields
  // ---------------------------------------------------------------------------

  /** A required float field without constraints (`current`). */
  function ValidateFloat(raw: Option<RawValue>): (r: Result<real, Violation>)
    ensures r.Ok? <==> raw.Some? && ToFloat(raw.value).Some?
    ensures r.Ok? ==> r.value == ToFloat(raw.value).value
    ensures raw.None? <==> r == Err(Missing)
  {
    match raw
    case None => Err(Missing)
    case Some(v) =>
      match ToFloat(v)
      case None => Err(NotANumber)
      case Some(x) => Ok(x)
  }

  /** A required float field declared with inclusive `ge` and `le` bounds. */
  function ValidateBounded(raw: Option<RawValue>, lo: real, hi: real): (r: Result<real, Violation>)
    ensures r.Ok? <==> raw.Some? && ToFloat(raw.value).Some? && lo <= ToFloat(raw.value).value <= hi
    ensures r.Ok? ==> r.value == ToFloat(raw.value).value
    ensures raw.None? <==> r == Err(Missing)
  {
    match ValidateFloat(raw)
    case Err(e) => Err(e)
    case Ok(x) =>
      if x < lo then Err(BelowMinimum(lo))
      else if x > hi then Err(AboveMaximum(hi))
      else Ok(x)
  }

  /**
   * Which error a numeric field reports: a value that does not coerce, one
   * below the lower bound, and one above the upper bound each have their own.
   */
  lemma NumericErrorKinds(raw: Option<RawValue>, lo: real, hi: real)
    ensures ValidateFloat(raw) == Err(NotANumber) <==> raw.Some? && ToFloat(raw.value).None?
    ensures ValidateBounded(raw, lo, hi) == Err(NotANumber) <==> raw.Some? && ToFloat(raw.value).None?
    ensures ValidateBounded(raw, lo, hi) == Err(BelowMinimum(lo)) <==>
              raw.Some? && ToFloat(raw.value).Some? && ToFloat(raw.value).value < lo
    ensures ValidateBounded(raw, lo, hi) == Err(AboveMaximum(hi)) <==>
              raw.Some? && ToFloat(raw.value).Some? && lo <= ToFloat(raw.value).value && hi < ToFloat(raw.value).value
  {
  }

  datatype TemperatureWarning = HighTemperature(value: real) | NegativeTemperature(value: real)

  /** A value that passed a validator, with the diagnostics it emitted. */
  datatype Checked = Checked(value: real, warnings: seq<TemperatureWarning>)

  /** `check_temperature_safety`: never rejects; warns above 60 and below 0. */
  function CheckTemperatureSafety(v: real): (r: Checked)
    ensures r.value == v
    ensures HighTemperature(v) in r.warnings <==> v > 60.0
    ensures NegativeTemperature(v) in r.warnings <==> v < 0.0
    ensures |r.warnings| <= 1
  {
    var high := if v > 60.0 then [HighTemperature(v)] else [];
    var negative := if v < 0.0 then [NegativeTemperature(v)] else [];
    Checked(v, high + negative)
  }

  /** The temperature field: its declared bounds, then the warning hook, which never changes the outcome. */
  function ValidateTemperature(raw: Option<RawValue>): (r: Result<real, Violation>)
    ensures r == ValidateBounded(raw, -50.0, 150.0)
  {
    match ValidateBounded(raw, TemperatureMin, TemperatureMax)
    case Err(e) => Err(e)
    case Ok(x) => Ok(CheckTemperatureSafety(x).value)
  }

  /** `check_percentage_range`, run on `soc` and `soh` after their declared bounds. */
  function CheckPercentageRange(v: real): (r: Result<real, Violation>)
    ensures r.Ok? <==> 0.0 <= v <= 100.0
    ensures r.Ok? ==> r.value == v
    ensures r.Err? ==> r.error == PercentOutOfRange
  {
    if !(0.0 <= v <= 100.0) then Err(PercentOutOfRange) else Ok(v)
  }

  /** `soc` and `soh`: the percentage validator rejects nothing the declared bounds let through. */
  function ValidatePercent(raw: Option<RawValue>): (r: Result<real, Violation>)
    ensures r == ValidateBounded(raw, 0.0, 100.0)
  {
    match ValidateBounded(raw, PercentMin, PercentMax)
    case Err(e) => Err(e)
    case Ok(x) => CheckPercentageRange(x)
  }

  // ---------------------------------------------------------------------------
  // Timestamp
  // ---------------------------------------------------------------------------

  /** `Now` is the ingestion time the default factory supplies; the clock itself is not modelled. */
  datatype Timestamp = Now | NoTimestamp | At(raw: RawValue)

  function ValidateTimestamp(raw: Option<RawValue>): (r: Result<Timestamp, Violation>)
    ensures raw.None? ==> r == Ok(Now)
    ensures r.Err? <==> raw.Some? && !(raw.value.Null? || raw.value.Num? || raw.value.Str?)
  {
    match raw
    case None => Ok(Now)
    case Some(Null) => Ok(NoTimestamp)
    case Some(Num(_)) => Ok(At(raw.value))
    case Some(Str(_)) => Ok(At(raw.value))
    case Some(_) => Err(NotADatetime)
  }

  // ---------------------------------------------------------------------------
  // Whole records
  // ---------------------------------------------------------------------------

  /** A validated reading. */
  datatype Telemetry = Telemetry(
    vin: string,
    voltage: real,
    current: real,
    temperature: real,
    soc: real,
    soh: real,
    timestamp: Timestamp)

  predicate NumberIn(data: Record, key: string, lo: real, hi: real) {
    key in data && ToFloat(data[key]).Some? && lo <= ToFloat(data[key]).value <= hi
  }

  /** What the schema demands of each field, stated on the raw record. */
  predicate FieldAccepted(data: Record, f: Field) {
    match f
    case Vin => "vin" in data && data["vin"].Str? && VinAccepted(data["vin"].s)
    case Voltage => NumberIn(data, "voltage", 0.0, 1000.0)
    case Current => "current" in data && ToFloat(data["current"]).Some?
    case Temperature => NumberIn(data, "temperature", -50.0, 150.0)
    case Soc => NumberIn(data, "soc", 0.0, 100.0)
    case Soh => NumberIn(data, "soh", 0.0, 100.0)
    case Time => "timestamp" !in data || data["timestamp"].Null? || data["timestamp"].Num? || data["timestamp"].Str?
  }

  predicate AllFieldsAccepted(data: Record) {
    && FieldAccepted(data, Vin) && FieldAccepted(data, Voltage) && FieldAccepted(data, Current)
    && FieldAccepted(data, Temperature) && FieldAccepted(data, Soc) && FieldAccepted(data, Soh)
    && FieldAccepted(data, Time)
  }

  /** `t` carries the record's values: the identifier upper-cased, the numbers as coerced. */
  predicate Matches(data: Record, t: Telemetry) {
    && "vin" in data && data["vin"].Str? && t.vin == UpperStr(data["vin"].s)
    && "voltage" in data && ToFloat(data["voltage"]) == Some(t.voltage)
    && "current" in data && ToFloat(data["current"]) == Some(t.current)
    && "temperature" in data && ToFloat(data["temperature"]) == Some(t.temperature)
    && "soc" in data && ToFloat(data["soc"]) == Some(t.soc)
    && "soh" in data && ToFloat(data["soh"]) == Some(t.soh)
    && t.timestamp == (if "timestamp" !in data then Now
                       else if data["timestamp"].Null? then NoTimestamp
                       else At(data["timestamp"]))
  }

  /** The invariant every validated reading satisfies. */
  predicate WellFormed(t: Telemetry) {
    && VinAccepted(t.vin) && UpperStr(t.vin) == t.vin
    && 0.0 <= t.voltage <= 1000.0
    && -50.0 <= t.temperature <= 150.0
    && 0.0 <= t.soc <= 100.0
    && 0.0 <= t.soh <= 100.0
    && (t.timestamp.At? ==> t.timestamp.raw.Num? || t.timestamp.raw.Str?)
  }

  function ErrorsOf<T>(f: Field, r: Result<T, Violation>): (es: seq<FieldError>)
    ensures r.Err? ==> es == [FieldError(f, r.error)]
    ensures r.Ok? <==> es == []
  {
    if r.Err? then [FieldError(f, r.error)] else []
  }

  /** The error, if any, that validating field `f` of `data` raises. */
  function CheckField(data: Record, f: Field): (es: seq<FieldError>)
    ensures es == [] <==> FieldAccepted(data, f)
    ensures |es| <= 1 && forall e :: e in es ==> e.field == f
  {
    match f
    case Vin => ErrorsOf(Vin, ValidateVin(Get(data, "vin")))
    case Voltage => ErrorsOf(Voltage, ValidateBounded(Get(data, "voltage"), VoltageMin, VoltageMax))
    case Current => ErrorsOf(Current, ValidateFloat(Get(data, "current")))
    case Temperature => ErrorsOf(Temperature, ValidateTemperature(Get(data, "temperature")))
    case Soc => ErrorsOf(Soc, ValidatePercent(Get(data, "soc")))
    case Soh => ErrorsOf(Soh, ValidatePercent(Get(data, "soh")))
    case Time => ErrorsOf(Time, ValidateTimestamp(Get(data, "timestamp")))
  }

  /** Every field validated in declaration order; one error for each field that fails. */
  function FieldErrors(data: Record): (es: Failure)
    ensures es == [] <==> AllFieldsAccepted(data)
    ensures forall e :: e in es ==> !FieldAccepted(data, e.field)
  {
    CheckField(data, Vin) + CheckField(data, Voltage) + CheckField(data, Current)
    + CheckField(data, Temperature) + CheckField(data, Soc) + CheckField(data, Soh)
    + CheckField(data, Time)
  }

  /** The number a present, coercible field holds. */
  function Coerced(data: Record, key: string): (x: real)
    requires key in data && ToFloat(data[key]).Some?
    ensures ToFloat(data[key]) == Some(x)
  {
    ToFloat(data[key]).value
  }

  /** The reading built from the validated field values of an acceptable record. */
  function Build(data: Record): (t: Telemetry)
    requires AllFieldsAccepted(data)
    ensures Matches(data, t)
    ensures WellFormed(t)
  {
    VinStaysAccepted(data["vin"].s);
    var stamp := Get(data, "timestamp");
    Telemetry(
      UpperStr(data["vin"].s),
      Coerced(data, "voltage"),
      Coerced(data, "current"),
      Coerced(data, "temperature"),
      Coerced(data, "soc"),
      Coerced(data, "soh"),
      if stamp.None? then Now else if stamp.value.Null? then NoTimestamp else At(stamp.value))
  }

  /** `validate_telemetry`: construction of the model from a raw record, raising with every failing field. */
  function ValidateTelemetry(data: Record): (r: Result<Telemetry, Failure>)
    ensures r.Ok? <==> AllFieldsAccepted(data)
    ensures r.Ok? ==> Matches(data, r.value) && WellFormed(r.value)
    ensures r.Err? ==> |r.error| > 0 && forall e :: e in r.error ==> !FieldAccepted(data, e.field)
  {
    var es := FieldErrors(data);
    if es == [] then Ok(Build(data)) else Err(es)
  }

  /** Upper-casing an accepted identifier keeps it accepted, and is a fixed point. */
  lemma VinStaysAccepted(s: string)
    requires VinAccepted(s)
    ensures VinAccepted(UpperStr(s)) && UpperStr(UpperStr(s)) == UpperStr(s)
  {
    var u := UpperStr(s);
    forall i | 0 <= i < |s| ensures IsAsciiAlnum(u[i]) && Upper(u[i]) == u[i] && u[i] !in {'I', 'O', 'Q', 'i', 'o', 'q'} {
      UpperOfAlnum(s[i]);
    }
  }

  /** The failure names every field the record violates. */
  lemma FailureNamesEveryViolatedField(data: Record, f: Field)
    requires !FieldAccepted(data, f)
    ensures ValidateTelemetry(data).Err?
    ensures exists e :: e in ValidateTelemetry(data).error && e.field == f
  {
    var es := FieldErrors(data);
    var mine := CheckField(data, f);
    assert mine[0] in es by {
      match f
      case Vin =>
      case Voltage =>
      case Current =>
      case Temperature =>
      case Soc =>
      case Soh =>
      case Time =>
    }
  }

  /** A missing timestamp is defaulted and never causes a failure. */
  lemma MissingTimestampDefaults(data: Record)
    requires "timestamp" !in data
    ensures ValidateTelemetry(data).Ok? ==> ValidateTelemetry(data).value.timestamp == Now
    ensures ValidateTelemetry(data).Err? ==> forall e :: e in ValidateTelemetry(data).error ==> e.field != Time
  {
  }

  /**
   * `model_dump`: the record a validated reading serialises to. The ingestion
   * time `Now` is symbolic and has no value to write, so its key is omitted.
   */
  function Dump(t: Telemetry): (data: Record)
    ensures "vin" in data && data["vin"] == Str(t.vin)
    ensures ("timestamp" in data) <==> !t.timestamp.Now?
  {
    var base := map["vin" := Str(t.vin), "voltage" := Num(t.voltage), "current" := Num(t.current),
                    "temperature" := Num(t.temperature), "soc" := Num(t.soc), "soh" := Num(t.soh)];
    match t.timestamp
    case Now => base
    case NoTimestamp => base["timestamp" := Null]
    case At(raw) => base["timestamp" := raw]
  }

  /** Round trip: re-validating the serialised form of a well-formed reading gives the same reading. */
  lemma DumpRoundTrip(t: Telemetry)
    requires WellFormed(t)
    ensures ValidateTelemetry(Dump(t)) == Ok(t)
  {
    var data := Dump(t);
    assert AllFieldsAccepted(data);
    var r := ValidateTelemetry(data);
    assert Matches(data, r.value);
  }

  /** The identifier of the schema's example record. */
  const ExampleVin: string := "1HGBH41JXMN109186"

  /** The timestamp string of the schema's example record. */
  const ExampleStamp: string := "2026-01-19T23:00:00"

  /** The example's values without a timestamp: the record the tests and the duplicate schema's docstring use. */
  const ExampleFields: Record :=
    map["vin" := Str(ExampleVin), "voltage" := Num(396.5), "current" := Num(125.3),
        "temperature" := Num(35.2), "soc" := Num(78.5), "soh" := Num(96.2)]

  /** The example record of the schema, with its timestamp. */
  const ExampleRecord: Record := ExampleFields["timestamp" := Str(ExampleStamp)]

  lemma ExampleVinAccepted()
    ensures VinAccepted(ExampleVin) && UpperStr(ExampleVin) == ExampleVin
  {
    assert VinAccepted(ExampleVin);
    assert UpperStr(ExampleVin) == ExampleVin;
  }

  lemma ExampleFieldsAccepted()
    ensures AllFieldsAccepted(ExampleFields) && UpperStr(ExampleVin) == ExampleVin
  {
    ExampleVinAccepted();
  }

  lemma ExampleRecordAccepted()
    ensures AllFieldsAccepted(ExampleRecord) && UpperStr(ExampleVin) == ExampleVin
  {
    ExampleVinAccepted();
  }

  /** The example record of the schema: accepted, with its values and its timestamp string kept. */
  lemma SchemaExample()
    ensures ValidateTelemetry(ExampleRecord)
            == Ok(Telemetry(ExampleVin, 396.5, 125.3, 35.2, 78.5, 96.2, At(Str(ExampleStamp))))
  {
    ExampleRecordAccepted();
    var r := ValidateTelemetry(ExampleRecord);
    assert Matches(ExampleRecord, r.value);
  }

  /** The same values without a timestamp: accepted, and stamped with the ingestion time. */
  lemma UnstampedExample()
    ensures ValidateTelemetry(ExampleFields) == Ok(Telemetry(ExampleVin, 396.5, 125.3, 35.2, 78.5, 96.2, Now))
  {
    ExampleFieldsAccepted();
    var r := ValidateTelemetry(ExampleFields);
    assert Matches(ExampleFields, r.value);
  }
}
