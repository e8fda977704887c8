/**
 * The duplicate schema in ev_qa_models.py: the same `BatteryTelemetryModel`
 * written with pre-2.0 `@validator` decorators, and its own
 * `validate_telemetry`. Its field declarations and validators are modelled
 * here as that file states them; the coercion and constraint machinery of the
 * schema library is shared with the package schema. Under that shared model of
 * the library, `ValidateTelemetry` is proved to accept the same records with
 * the same results as the package schema; the library-version differences
 * that break this agreement are not modelled.
 */
module SchemaV1 {
  import opened Wrappers
  import S = Schema

  const VinLength: nat := 17
  const VoltageMin: real := 0.0
  const VoltageMax: real := 1000.0
  const TemperatureMin: real := -50.0
  const TemperatureMax: real := 150.0
  const PercentMin: real := 0.0
  const PercentMax: real := 100.0

  /** `validate_vin_format`: alphanumeric, then no I, O or Q once upper-cased; returns the upper-cased identifier. */
  function ValidateVinFormat(v: string): (r: Result<string, S.Violation>)
    ensures r.Ok? <==> |v| > 0 && forall i :: 0 <= i < |v| ==> S.IsAsciiAlnum(v[i]) && v[i] !in {'I', 'O', 'Q', 'i', 'o', 'q'}
    ensures r.Ok? ==> r.value == S.UpperStr(v)
  {
    if !S.IsAlnumStr(v) then Err(S.NotAlphanumeric)
    else
      var u := S.UpperStr(v);
      if exists i | 0 <= i < |u| :: u[i] in S.Forbidden then
        var i :| 0 <= i < |u| && u[i] in S.Forbidden;
        S.UpperOfAlnum(v[i]);
        Err(S.ForbiddenLetter)
      else
        assert forall i :: 0 <= i < |v| ==> v[i] !in {'I', 'O', 'Q', 'i', 'o', 'q'} by {
          forall i | 0 <= i < |v| ensures v[i] !in {'I', 'O', 'Q', 'i', 'o', 'q'} {
            S.UpperOfAlnum(v[i]);
          }
        }
        Ok(u)
  }

  function ValidateVin(raw: Option<S.RawValue>): (r: Result<string, S.Violation>)
    ensures r.Ok? <==> raw.Some? && raw.value.Str? && S.VinAccepted(raw.value.s)
    ensures r.Ok? ==> r.value == S.UpperStr(raw.value.s)
  {
    match raw
    case None => Err(S.Missing)
    case Some(Str(s)) =>
      if |s| < VinLength then Err(S.TooShort)
      else if |s| > VinLength then Err(S.TooLong)
      else ValidateVinFormat(s)
    case Some(_) => Err(S.NotAString)
  }

  /** `check_temperature_safety`: prints a warning above 60 or below 0 and returns the value unchanged. */
  function CheckTemperatureSafety(v: real): (r: S.Checked)
    ensures r.value == v
    ensures S.HighTemperature(v) in r.warnings <==> v > 60.0
    ensures S.NegativeTemperature(v) in r.warnings <==> v < 0.0
  {
    var high := if v > 60.0 then [S.HighTemperature(v)] else [];
    var negative := if v < 0.0 then [S.NegativeTemperature(v)] else [];
    S.Checked(v, high + negative)
  }

  /**
   * `check_percentage_range`: this copy names the offending field in its
   * error, so it returns the whole field error.
   */
  function CheckPercentageRange(v: real, field: S.Field): (r: Result<real, S.FieldError>)
    ensures r.Ok? <==> 0.0 <= v <= 100.0
    ensures r.Ok? ==> r.value == v
    ensures r.Err? ==> r.error == S.FieldError(field, S.PercentOutOfRange)
  {
    if !(0.0 <= v <= 100.0) then Err(S.FieldError(field, S.PercentOutOfRange)) else Ok(v)
  }

  function ValidateTemperature(raw: Option<S.RawValue>): (r: Result<real, S.Violation>)
    ensures r == S.ValidateBounded(raw, -50.0, 150.0)
  {
    match S.ValidateBounded(raw, TemperatureMin, TemperatureMax)
    case Err(e) => Err(e)
    case Ok(x) => Ok(CheckTemperatureSafety(x).value)
  }

  function ValidatePercent(raw: Option<S.RawValue>, field: S.Field): (r: Result<real, S.Violation>)
    ensures r == S.ValidateBounded(raw, 0.0, 100.0)
  {
    match S.ValidateBounded(raw, PercentMin, PercentMax)
    case Err(e) => Err(e)
    case Ok(x) =>
      match CheckPercentageRange(x, field)
      case Ok(y) => Ok(y)
      case Err(fe) => Err(fe.violation)
  }

  function CheckField(data: S.Record, f: S.Field): (es: seq<S.FieldError>)
    ensures es == S.CheckField(data, f)
  {
    match f
    case Vin => S.ErrorsOf(S.Vin, ValidateVin(S.Get(data, "vin")))
    case Voltage => S.ErrorsOf(S.Voltage, S.ValidateBounded(S.Get(data, "voltage"), VoltageMin, VoltageMax))
    case Current => S.ErrorsOf(S.Current, S.ValidateFloat(S.Get(data, "current")))
    case Temperature => S.ErrorsOf(S.Temperature, ValidateTemperature(S.Get(data, "temperature")))
    case Soc => S.ErrorsOf(S.Soc, ValidatePercent(S.Get(data, "soc"), S.Soc))
    case Soh => S.ErrorsOf(S.Soh, ValidatePercent(S.Get(data, "soh"), S.Soh))
    case Time => S.ErrorsOf(S.Time, S.ValidateTimestamp(S.Get(data, "timestamp")))
  }

  /** The reading this file's model builds from an acceptable record: the package schema's reading. */
  function Build(data: S.Record): (t: S.Telemetry)
    requires S.AllFieldsAccepted(data)
    ensures t == S.Build(data)
  {
    var vin := ValidateVin(S.Get(data, "vin"));
    var voltage := S.ValidateBounded(S.Get(data, "voltage"), VoltageMin, VoltageMax);
    var current := S.ValidateFloat(S.Get(data, "current"));
    var temperature := ValidateTemperature(S.Get(data, "temperature"));
    var soc := ValidatePercent(S.Get(data, "soc"), S.Soc);
    var soh := ValidatePercent(S.Get(data, "soh"), S.Soh);
    var stamp := S.ValidateTimestamp(S.Get(data, "timestamp"));
    assert vin.Ok? && voltage.Ok? && current.Ok? && temperature.Ok? && soc.Ok? && soh.Ok? && stamp.Ok?;
    S.Telemetry(vin.value, voltage.value, current.value, temperature.value, soc.value, soh.value, stamp.value)
  }

  /**
   * `validate_telemetry` of this file: plain construction of its model. It
   * accepts exactly the records the package schema accepts, and builds the
   * same reading (the same upper-cased identifier, the same values).
   */
  function ValidateTelemetry(data: S.Record): (r: Result<S.Telemetry, S.Failure>)
    ensures r == S.ValidateTelemetry(data)
  {
    var es := CheckField(data, S.Vin) + CheckField(data, S.Voltage) + CheckField(data, S.Current)
      + CheckField(data, S.Temperature) + CheckField(data, S.Soc) + CheckField(data, S.Soh)
      + CheckField(data, S.Time);
    assert es == S.FieldErrors(data);
    if es == [] then Ok(Build(data)) else Err(es)
  }

  /** The documented example keeps voltage 396.5 and the identifier as given. */
  lemma DocumentedExample()
    ensures ValidateTelemetry(S.ExampleFields).Ok?
    ensures ValidateTelemetry(S.ExampleFields).value.voltage == 396.5
    ensures ValidateTelemetry(S.ExampleFields).value.vin == "1HGBH41JXMN109186"
  {
    S.UnstampedExample();
  }

  /** The invalid record of this file's own example: a short identifier, voltage 1500 and charge 105. */
  const InvalidRecord: S.Record :=
    map["vin" := S.Str("SHORT"), "voltage" := S.Num(1500.0), "current" := S.Num(100.0),
        "temperature" := S.Num(35.0), "soc" := S.Num(105.0), "soh" := S.Num(96.0)]

  lemma InvalidRecordFailures()
    ensures CheckField(InvalidRecord, S.Vin) == [S.FieldError(S.Vin, S.TooShort)]
    ensures CheckField(InvalidRecord, S.Voltage) == [S.FieldError(S.Voltage, S.AboveMaximum(1000.0))]
    ensures CheckField(InvalidRecord, S.Soc) == [S.FieldError(S.Soc, S.AboveMaximum(100.0))]
  {
    InvalidVinFails();
    InvalidVoltageFails();
    InvalidSocFails();
  }

  lemma InvalidVinFails()
    ensures CheckField(InvalidRecord, S.Vin) == [S.FieldError(S.Vin, S.TooShort)]
  {
  }

  lemma InvalidVoltageFails()
    ensures CheckField(InvalidRecord, S.Voltage) == [S.FieldError(S.Voltage, S.AboveMaximum(1000.0))]
  {
  }

  lemma InvalidSocFails()
    ensures CheckField(InvalidRecord, S.Soc) == [S.FieldError(S.Soc, S.AboveMaximum(100.0))]
  {
  }

  lemma InvalidRecordPasses()
    ensures CheckField(InvalidRecord, S.Current) == [] && CheckField(InvalidRecord, S.Temperature) == []
    ensures CheckField(InvalidRecord, S.Soh) == [] && CheckField(InvalidRecord, S.Time) == []
  {
  }

  /** The invalid example of this file fails on the identifier, the voltage and the state of charge, in that order. */
  lemma InvalidExample()
    ensures ValidateTelemetry(InvalidRecord) == Err([S.FieldError(S.Vin, S.TooShort),
                                                     S.FieldError(S.Voltage, S.AboveMaximum(1000.0)),
                                                     S.FieldError(S.Soc, S.AboveMaximum(100.0))])
  {
    InvalidRecordFailures();
    InvalidRecordPasses();
    var es := CheckField(InvalidRecord, S.Vin) + CheckField(InvalidRecord, S.Voltage)
      + CheckField(InvalidRecord, S.Current) + CheckField(InvalidRecord, S.Temperature)
      + CheckField(InvalidRecord, S.Soc) + CheckField(InvalidRecord, S.Soh) + CheckField(InvalidRecord, S.Time);
    assert es == [S.FieldError(S.Vin, S.TooShort), S.FieldError(S.Voltage, S.AboveMaximum(1000.0)),
                  S.FieldError(S.Soc, S.AboveMaximum(100.0))];
  }
}
