/**
 * The data-source REST handlers of the system API: the request-field
 * validators, the `±HH:MM` UTC-offset parse, the freshness rule for the
 * latest point values, and the effects of create, update, delete, clone and
 * import on `tbl_data_sources` and `tbl_points`.
 *
 * The tables are maps keyed by their auto-increment id. What a handler
 * decides is a function of the tables it reads (a guard); what it changes is
 * a method on `SystemDb`, proved to follow the guard.
 */
module DataSources {
  import opened Wrappers
  import opened PyText
  import opened Times
  import opened Requests
  import Tables

  // ---------------------------------------------------------------------------
  // Error descriptions
  // ---------------------------------------------------------------------------

  const InvalidId := "API.INVALID_DATA_SOURCE_ID"
  const InvalidName := "API.INVALID_DATA_SOURCE_NAME"
  const InvalidGatewayId := "API.INVALID_GATEWAY_ID"
  const InvalidProtocol := "API.INVALID_DATA_SOURCE_PROTOCOL"
  const InvalidConnection := "API.INVALID_CONNECTION"
  const NameInUseError := "API.DATA_SOURCE_NAME_IS_ALREADY_IN_USE"
  const NotFoundError := "API.DATA_SOURCE_NOT_FOUND"
  const UsedByMeterPrefix := "API.THIS_DATA_SOURCE_IS_BEING_USED_BY_A_METER"

  // ---------------------------------------------------------------------------
  // Field validators
  // ---------------------------------------------------------------------------

  /** The protocols a data source may declare, in the order the handlers list them. */
  const Protocols: seq<string> := [
    "bacnet-ip", "cassandra", "clickhouse", "coap", "controllogix", "dlt645", "dtu-rtu", "dtu-tcp",
    "dtu-mqtt", "elexon-bmrs", "iec104", "influxdb", "lora", "modbus-rtu", "modbus-tcp", "mongodb",
    "mqtt-acrel", "mqtt-adw300", "mqtt-huiju", "mqtt-md4220", "mqtt-seg", "mqtt-weilan", "mqtt", "mysql",
    "opc-ua", "oracle", "postgresql", "profibus", "profinet", "s7", "simulation", "sqlserver",
    "tdengine", "weather"]

  /** The protocol check: a listed string, taken as is (it is not stripped). */
  function RequireProtocol(body: Body): (r: Result<string, ApiError>)
    ensures r.Success? <==> "protocol" in body && body["protocol"].JString? && body["protocol"].s in Protocols
    ensures r.Success? ==> r.value == body["protocol"].s
    ensures r.Failure? ==> r.error == BadRequest(InvalidProtocol)
  {
    if "protocol" in body && body["protocol"].JString? && body["protocol"].s in Protocols
    then Success(body["protocol"].s)
    else Failure(BadRequest(InvalidProtocol))
  }

  /** The validated fields of a data-source request. */
  datatype Fields = Fields(name: string, gatewayId: int, protocol: string, connection: string,
                           description: Option<string>)

  /** What every accepted request satisfies. */
  predicate WellFormed(f: Fields) {
    && f.name != [] && Trimmed(f.name)
    && f.gatewayId >= 1
    && f.protocol in Protocols
    && f.connection != [] && Trimmed(f.connection)
    && (f.description.Some? ==> Trimmed(f.description.value))
  }

  /**
   * The checks of create, update and import, in their order: name, gateway
   * id (whose check differs between the handlers and is passed in), protocol,
   * connection, description. The first failing check decides the error.
   */
  function ValidateFields(body: Body, gatewayId: Result<int, ApiError>): (r: Result<Fields, ApiError>)
    requires gatewayId.Success? ==> gatewayId.value >= 1
    ensures r.Success? ==> gatewayId.Success? && WellFormed(r.value) && r.value.gatewayId == gatewayId.value
  {
    var name := RequireText(body, "name", InvalidName);
    if name.Failure? then Failure(name.error)
    else if gatewayId.Failure? then Failure(gatewayId.error)
    else
      var protocol := RequireProtocol(body);
      if protocol.Failure? then Failure(protocol.error)
      else
        var connection := RequireText(body, "connection", InvalidConnection);
        if connection.Failure? then Failure(connection.error)
        else
          var description := OptionalText(body, "description");
          if description.Failure? then Failure(description.error)
          else Success(Fields(name.value, gatewayId.value, protocol.value, connection.value, description.value))
  }

  /** A request is accepted exactly when every check passes, and the first failing check names the error. */
  lemma ValidateFieldsOrder(body: Body, gatewayId: Result<int, ApiError>)
    requires gatewayId.Success? ==> gatewayId.value >= 1
    ensures ValidateFields(body, gatewayId).Success? <==>
              && RequireText(body, "name", InvalidName).Success? && gatewayId.Success?
              && RequireProtocol(body).Success? && RequireText(body, "connection", InvalidConnection).Success?
              && OptionalText(body, "description").Success?
    ensures RequireText(body, "name", InvalidName).Failure? ==> ValidateFields(body, gatewayId) == Failure(BadRequest(InvalidName))
    ensures RequireText(body, "name", InvalidName).Success? && gatewayId.Failure? ==>
              ValidateFields(body, gatewayId) == Failure(gatewayId.error)
    ensures (RequireText(body, "name", InvalidName).Success? && gatewayId.Success? && RequireProtocol(body).Failure?)
              ==> ValidateFields(body, gatewayId) == Failure(BadRequest(InvalidProtocol))
    ensures (RequireText(body, "name", InvalidName).Success? && gatewayId.Success? && RequireProtocol(body).Success?
              && RequireText(body, "connection", InvalidConnection).Failure?)
              ==> ValidateFields(body, gatewayId) == Failure(BadRequest(InvalidConnection))
    ensures (RequireText(body, "name", InvalidName).Success? && gatewayId.Success? && RequireProtocol(body).Success?
              && RequireText(body, "connection", InvalidConnection).Success? && OptionalText(body, "description").Failure?)
              ==> ValidateFields(body, gatewayId) == Failure(ServerError)
  {
  }

  /** What an accepted request stores: the stripped name and connection, the listed protocol, the normalised description. */
  lemma ValidateFieldsValues(body: Body, gatewayId: Result<int, ApiError>)
    requires gatewayId.Success? ==> gatewayId.value >= 1
    requires ValidateFields(body, gatewayId).Success?
    ensures var f := ValidateFields(body, gatewayId).value;
            && f.name == Strip(body["name"].s) && f.connection == Strip(body["connection"].s)
            && f.protocol == body["protocol"].s && f.gatewayId == gatewayId.value
            && f.description == OptionalText(body, "description").value
  {
    var name := RequireText(body, "name", InvalidName);
    var protocol := RequireProtocol(body);
    var connection := RequireText(body, "connection", InvalidConnection);
    var description := OptionalText(body, "description");
    assert name.Success? && gatewayId.Success? && protocol.Success? && connection.Success? && description.Success?;
    assert ValidateFields(body, gatewayId)
        == Success(Fields(name.value, gatewayId.value, protocol.value, connection.value, description.value));
  }

  /** The gateway-id check of create and update: `data['gateway_id']`, an int above zero. */
  function GatewayIdField(body: Body): (r: Result<int, ApiError>)
    ensures r.Success? ==> r.value >= 1
  {
    RequirePositiveInt(body, "gateway_id", InvalidGatewayId)
  }

  /**
   * The gateway-id check of import: `body['gateway']['id']`. A `gateway`
   * that is present but not an object has no `keys()` and raises.
   */
  function ImportGatewayId(body: Body): (r: Result<int, ApiError>)
    ensures r.Success? <==> "gateway" in body && body["gateway"].JObject?
                            && RequirePositiveInt(body["gateway"].fields, "id", InvalidGatewayId).Success?
    ensures r == Failure(ServerError) <==> "gateway" in body && !body["gateway"].JObject?
    ensures r.Success? ==> r.value >= 1 && r.value == RequirePositiveInt(body["gateway"].fields, "id", InvalidGatewayId).value
  {
    if "gateway" !in body then Failure(BadRequest(InvalidGatewayId))
    else if !body["gateway"].JObject? then Failure(ServerError)
    else RequirePositiveInt(body["gateway"].fields, "id", InvalidGatewayId)
  }

  /** A request body that states the fields `f` (a null description for none). */
  function FieldsBody(f: Fields): Body {
    map["name" := JString(f.name), "gateway_id" := JInt(f.gatewayId), "protocol" := JString(f.protocol),
        "connection" := JString(f.connection),
        "description" := if f.description.Some? then JString(f.description.value) else JNull]
  }

  /**
   * Submitting the stored fields again is accepted and stores the same
   * fields, except for a blank description, stored as `""`, which comes back
   * as no description.
   */
  lemma ResubmitFields(f: Fields)
    requires WellFormed(f)
    ensures f.description != Some("") ==> ValidateFields(FieldsBody(f), GatewayIdField(FieldsBody(f))) == Success(f)
    ensures f.description == Some("") ==>
              ValidateFields(FieldsBody(f), GatewayIdField(FieldsBody(f))) == Success(f.(description := None))
  {
    var b := FieldsBody(f);
    assert b["name"] == JString(f.name) && b["connection"] == JString(f.connection);
    assert b["gateway_id"] == JInt(f.gatewayId) && b["protocol"] == JString(f.protocol);
    TrimmedStrips(f.name);
    TrimmedStrips(f.connection);
    StripEmptyIff(f.name);
    StripEmptyIff(f.connection);
    assert RequireText(b, "name", InvalidName) == Success(f.name);
    assert GatewayIdField(b) == Success(f.gatewayId);
    assert RequireProtocol(b) == Success(f.protocol);
    assert RequireText(b, "connection", InvalidConnection) == Success(f.connection);
    if f.description.Some? {
      assert b["description"] == JString(f.description.value);
      TrimmedStrips(f.description.value);
      assert OptionalText(b, "description") == if f.description == Some("") then Success(None) else Success(f.description);
    } else {
      assert b["description"] == JNull;
    }
  }

  // ---------------------------------------------------------------------------
  // The UTC offset of the configuration
  // ---------------------------------------------------------------------------

  /**
   * `int(s[1:3]) * 60 + int(s[4:6])`, negated when `s[0]` is `-`; None where
   * an `int()` raises.
   */
  function ParseUtcOffset(s: string): (r: Option<int>)
    ensures r.Some? <==> IntOfText(Slice(s, 1, 3)).Some? && IntOfText(Slice(s, 4, 6)).Some?
    ensures r.Some? ==>
              var magnitude := IntOfText(Slice(s, 1, 3)).value * 60 + IntOfText(Slice(s, 4, 6)).value;
              r.value == if StartsWith(s, '-') then -magnitude else magnitude
  {
    var hours := IntOfText(Slice(s, 1, 3));
    var minutes := IntOfText(Slice(s, 4, 6));
    if hours.None? || minutes.None? then None
    else
      var magnitude := hours.value * 60 + minutes.value;
      Some(if StartsWith(s, '-') then -magnitude else magnitude)
  }

  /** `s[0] == c` for text that has a first character (an offset that parses always has one). */
  predicate StartsWith(s: string, c: char) {
    |s| > 0 && s[0] == c
  }

  /** The configuration text `±HH:MM` for an offset of `minutes`. */
  function FormatUtcOffset(minutes: int): (s: string)
    requires -6000 < minutes < 6000
    ensures |s| == 6 && s[0] in "+-" && s[3] == ':'
  {
    var magnitude := if minutes < 0 then -minutes else minutes;
    [if minutes < 0 then '-' else '+'] + TwoDigits(magnitude / 60) + ":" + TwoDigits(magnitude % 60)
  }

  /** Every offset written as `±HH:MM` parses back to itself. */
  lemma UtcOffsetRoundTrip(minutes: int)
    requires -6000 < minutes < 6000
    ensures ParseUtcOffset(FormatUtcOffset(minutes)) == Some(minutes)
  {
    var magnitude := if minutes < 0 then -minutes else minutes;
    var hours, mins := magnitude / 60, magnitude % 60;
    DivMod60(magnitude);
    FormattedParts(minutes);
    TwoDigitsRoundTrip(hours);
    TwoDigitsRoundTrip(mins);
    ParseOffsetOf(FormatUtcOffset(minutes), minutes, hours, mins);
  }

  lemma ParseOffsetOf(s: string, minutes: int, hours: int, mins: int)
    requires StartsWith(s, '-') <==> minutes < 0
    requires hours * 60 + mins == if minutes < 0 then -minutes else minutes
    requires IntOfText(Slice(s, 1, 3)) == Some(hours) && IntOfText(Slice(s, 4, 6)) == Some(mins)
    ensures ParseUtcOffset(s) == Some(minutes)
  {
    ParseParts(s, hours, mins);
  }

  lemma DivMod60(n: nat)
    ensures n / 60 * 60 + n % 60 == n
  {
  }

  lemma FormattedParts(minutes: int)
    requires -6000 < minutes < 6000
    ensures var magnitude := if minutes < 0 then -minutes else minutes;
            var s := FormatUtcOffset(minutes);
            && (StartsWith(s, '-') <==> minutes < 0)
            && Slice(s, 1, 3) == TwoDigits(magnitude / 60)
            && Slice(s, 4, 6) == TwoDigits(magnitude % 60)
  {
    var magnitude := if minutes < 0 then -minutes else minutes;
    var s := FormatUtcOffset(minutes);
    assert s[1..3] == TwoDigits(magnitude / 60);
    assert s[4..6] == TwoDigits(magnitude % 60);
  }

  lemma ParseParts(s: string, hours: int, mins: int)
    requires IntOfText(Slice(s, 1, 3)) == Some(hours) && IntOfText(Slice(s, 4, 6)) == Some(mins)
    ensures ParseUtcOffset(s) == Some(if StartsWith(s, '-') then -(hours * 60 + mins) else hours * 60 + mins)
  {
  }

  /** `-00:30` is thirty minutes west: the sign is read from the text, not from the hours. */
  lemma NegativeHalfHour()
    ensures ParseUtcOffset("-00:30") == Some(-30)
  {
    assert Slice("-00:30", 1, 3) == TwoDigits(0);
    assert Slice("-00:30", 4, 6) == TwoDigits(30);
    TwoDigitsRoundTrip(0);
    TwoDigitsRoundTrip(30);
  }

  // ---------------------------------------------------------------------------
  // Freshness of the latest values
  // ---------------------------------------------------------------------------

  /**
   * `duration = now - at; duration.days == 0 and duration.seconds <= 600`,
   * with `timedelta`'s normalisation: `days` is the floor of the duration in
   * days and `seconds` the whole seconds of the remainder.
   */
  predicate Fresh(now: Time, at: Time) {
    var duration := now - at;
    duration / DayUs == 0 && (duration % DayUs) / SecondUs <= 600
  }

  /** A value is fresh exactly when it is at most 600 whole seconds old and not from the future. */
  lemma FreshIff(now: Time, at: Time)
    ensures Fresh(now, at) <==> 0 <= now - at < 601 * SecondUs
  {
    var d := now - at;
    if 0 <= d < DayUs {
      assert d / DayUs == 0 && d % DayUs == d;
    } else if d < 0 {
      assert d / DayUs < 0;
    } else {
      assert d / DayUs >= 1;
    }
  }

  /** A row of `tbl_analog_value_latest`, `tbl_digital_value_latest` or `tbl_energy_value_latest`. */
  datatype LatestRow = LatestRow(pointId: int, at: Option<Time>, value: real)

  /** A scan row of the point with a datetime: the source reads the clock for it, and only for it. */
  predicate Reads(row: LatestRow, pointId: int) {
    row.pointId == pointId && row.at.Some?
  }

  /** How many clock readings a scan of `rows` for the point takes. */
  function ReadCount(rows: seq<LatestRow>, pointId: int): (c: nat)
    ensures c <= |rows|
  {
    if rows == [] then 0
    else ReadCount(rows[..|rows| - 1], pointId) + (if Reads(rows[|rows| - 1], pointId) then 1 else 0)
  }

  /**
   * Row `i` of a scan whose first reading is `clock(n)` is fresh at its own
   * reading: the clock has been read once for each earlier row of the point.
   */
  predicate FreshAtRead(rows: seq<LatestRow>, pointId: int, clock: nat -> Time, n: nat, i: int)
    requires 0 <= i < |rows|
  {
    Reads(rows[i], pointId) && Fresh(clock(n + ReadCount(rows[..i], pointId)), rows[i].at.value)
  }

  /** Dropping the last row does not change which earlier rows are fresh at their readings. */
  lemma FreshAtReadPrefix(rows: seq<LatestRow>, pointId: int, clock: nat -> Time, n: nat)
    requires rows != []
    ensures forall i | 0 <= i < |rows| - 1 ::
              FreshAtRead(rows[..|rows| - 1], pointId, clock, n, i) == FreshAtRead(rows, pointId, clock, n, i)
  {
    forall i | 0 <= i < |rows| - 1
      ensures FreshAtRead(rows[..|rows| - 1], pointId, clock, n, i) == FreshAtRead(rows, pointId, clock, n, i)
    {
      assert rows[..|rows| - 1][..i] == rows[..i];
    }
  }

  /** The value of the last row of the point that is fresh at its own reading, if any. */
  function LastFresh(rows: seq<LatestRow>, pointId: int, clock: nat -> Time, n: nat): Option<real> {
    if rows == [] then None
    else if FreshAtRead(rows, pointId, clock, n, |rows| - 1) then Some(rows[|rows| - 1].value)
    else LastFresh(rows[..|rows| - 1], pointId, clock, n)
  }

  /** A value is shown exactly when some row of the point is fresh at its own reading. */
  lemma {:induction false} LastFreshShown(rows: seq<LatestRow>, pointId: int, clock: nat -> Time, n: nat)
    ensures LastFresh(rows, pointId, clock, n).Some? <==> exists i | 0 <= i < |rows| :: FreshAtRead(rows, pointId, clock, n, i)
  {
    if rows != [] && !FreshAtRead(rows, pointId, clock, n, |rows| - 1) {
      var prefix := rows[..|rows| - 1];
      FreshAtReadPrefix(rows, pointId, clock, n);
      LastFreshShown(prefix, pointId, clock, n);
      assert LastFresh(rows, pointId, clock, n) == LastFresh(prefix, pointId, clock, n);
      if exists i | 0 <= i < |rows| :: FreshAtRead(rows, pointId, clock, n, i) {
        var i :| 0 <= i < |rows| && FreshAtRead(rows, pointId, clock, n, i);
        assert FreshAtRead(prefix, pointId, clock, n, i);
      }
      if LastFresh(prefix, pointId, clock, n).Some? {
        var i :| 0 <= i < |prefix| && FreshAtRead(prefix, pointId, clock, n, i);
        assert FreshAtRead(rows, pointId, clock, n, i);
      }
    }
  }

  /** A value shown is that of the last row of the point that is fresh at its own reading. */
  lemma {:induction false} LastFreshIsLast(rows: seq<LatestRow>, pointId: int, clock: nat -> Time, n: nat)
    requires LastFresh(rows, pointId, clock, n).Some?
    ensures exists i | 0 <= i < |rows| ::
              && FreshAtRead(rows, pointId, clock, n, i) && LastFresh(rows, pointId, clock, n).value == rows[i].value
              && forall j | i < j < |rows| :: !FreshAtRead(rows, pointId, clock, n, j)
  {
    var last := |rows| - 1;
    if !FreshAtRead(rows, pointId, clock, n, last) {
      var prefix := rows[..last];
      FreshAtReadPrefix(rows, pointId, clock, n);
      LastFreshIsLast(prefix, pointId, clock, n);
      var i :| 0 <= i < |prefix| && FreshAtRead(prefix, pointId, clock, n, i)
               && LastFresh(prefix, pointId, clock, n).value == prefix[i].value
               && forall j | i < j < |prefix| :: !FreshAtRead(prefix, pointId, clock, n, j);
      assert FreshAtRead(rows, pointId, clock, n, i) && rows[i] == prefix[i];
    }
  }

  /**
   * One of the three scans: each row of the point with a datetime reads the
   * clock anew (`datetime.now`), and a row fresh at that reading overwrites
   * the value. `clock(k)` is the k-th reading of the request and `n` the
   * number taken before the scan; `next` counts the ones it took.
   */
  method LatestValue(rows: seq<LatestRow>, pointId: int, clock: nat -> Time, n: nat)
    returns (value: Option<real>, next: nat)
    ensures value == LastFresh(rows, pointId, clock, n)
    ensures next == n + ReadCount(rows, pointId)
  {
    value, next := None, n;
    for i := 0 to |rows|
      invariant value == LastFresh(rows[..i], pointId, clock, n)
      invariant next == n + ReadCount(rows[..i], pointId)
    {
      assert rows[..i + 1][..i] == rows[..i];
      var row := rows[i];
      if row.pointId == pointId && row.at.Some? {
        var now := clock(next);
        next := next + 1;
        if Fresh(now, row.at.value) {
          value := Some(row.value);
        }
      }
    }
    assert rows[..|rows|] == rows;
  }

  /**
   * The clock moves during a scan: two rows of the point stamped at the same
   * time, read 600 and 601 seconds later, give the first row's value, where
   * a single reading at 600 seconds would give the second's.
   */
  lemma ClockMovesDuringScan()
    ensures var rows := [LatestRow(1, Some(0), 5.0), LatestRow(1, Some(0), 7.0)];
            && LastFresh(rows, 1, (k: nat) => (600 + k) * SecondUs, 0) == Some(5.0)
            && LastFresh(rows, 1, (k: nat) => 600 * SecondUs, 0) == Some(7.0)
  {
    var rows := [LatestRow(1, Some(0), 5.0), LatestRow(1, Some(0), 7.0)];
    assert rows[..1] == [rows[0]] && rows[..0] == [];
    assert ReadCount(rows[..1], 1) == 1;
    FreshIff(600 * SecondUs, 0);
    FreshIff(601 * SecondUs, 0);
  }

  // ---------------------------------------------------------------------------
  // Tables and guards
  // ---------------------------------------------------------------------------

  datatype Gateway = Gateway(name: string, uuid: string)

  datatype DataSource = DataSource(name: string, uuid: string, gatewayId: int, protocol: string,
                                   connection: string, description: Option<string>, lastSeen: Option<Time>)

  /** The columns of `tbl_points` other than `name` and `data_source_id`. */
  const PointColumns: set<string> := {"object_type", "units", "high_limit", "low_limit", "higher_limit",
                                       "lower_limit", "ratio", "is_trend", "is_virtual", "address", "description"}

  /** A point row: its name, its data source and its other column values. */
  datatype Point = Point(name: Json, dataSourceId: int, columns: map<string, Json>)

  /** `SELECT name FROM tbl_data_sources WHERE name = %s` finds a row. */
  predicate NameInUse(dataSources: map<int, DataSource>, name: string) {
    exists d | d in dataSources :: dataSources[d].name == name
  }

  /** The decision of create: the field checks, then name uniqueness, then the gateway. */
  function CreateGuard(dataSources: map<int, DataSource>, gateways: map<int, Gateway>, data: Body): (r: Result<Fields, ApiError>)
    ensures r.Success? ==> !NameInUse(dataSources, r.value.name) && r.value.gatewayId in gateways
  {
    var fields := ValidateFields(data, GatewayIdField(data));
    if fields.Failure? then fields
    else if NameInUse(dataSources, fields.value.name) then Failure(BadRequest(NameInUseError))
    else if fields.value.gatewayId !in gateways then Failure(BadRequest(InvalidGatewayId))
    else fields
  }

  /** Create accepts exactly the valid requests with a new name and a known gateway, checked in that order. */
  lemma CreateCheckOrder(dataSources: map<int, DataSource>, gateways: map<int, Gateway>, data: Body)
    ensures var fields := ValidateFields(data, GatewayIdField(data));
            && (fields.Failure? ==> CreateGuard(dataSources, gateways, data) == fields)
            && (fields.Success? && NameInUse(dataSources, fields.value.name) ==>
                  CreateGuard(dataSources, gateways, data) == Failure(BadRequest(NameInUseError)))
            && (fields.Success? && !NameInUse(dataSources, fields.value.name) && fields.value.gatewayId !in gateways ==>
                  CreateGuard(dataSources, gateways, data) == Failure(BadRequest(InvalidGatewayId)))
            && (fields.Success? && !NameInUse(dataSources, fields.value.name) && fields.value.gatewayId in gateways ==>
                  CreateGuard(dataSources, gateways, data) == fields)
  {
  }

  /** The row create (and import) inserts for accepted fields. */
  function NewRow(f: Fields, uuid: string): DataSource {
    DataSource(f.name, uuid, f.gatewayId, f.protocol, f.connection, f.description, None)
  }

  /** Once a data source is created, creating it again is refused for its name. */
  lemma CreateTwiceRefused(dataSources: map<int, DataSource>, gateways: map<int, Gateway>, data: Body,
                           id: int, uuid: string, data': Body)
    requires CreateGuard(dataSources, gateways, data).Success?
    requires ValidateFields(data', GatewayIdField(data')).Success?
    requires ValidateFields(data', GatewayIdField(data')).value.name == CreateGuard(dataSources, gateways, data).value.name
    ensures CreateGuard(dataSources[id := NewRow(CreateGuard(dataSources, gateways, data).value, uuid)], gateways, data')
            == Failure(BadRequest(NameInUseError))
  {
    var ds' := dataSources[id := NewRow(CreateGuard(dataSources, gateways, data).value, uuid)];
    assert ds'[id].name == ValidateFields(data', GatewayIdField(data')).value.name;
  }

  /** The decision of update: path id, field checks, existence, then the gateway; no name check. */
  function UpdateGuard(dataSources: map<int, DataSource>, gateways: map<int, Gateway>, idText: string, data: Body)
    : (r: Result<(int, Fields), ApiError>)
    ensures r.Success? ==> r.value.0 in dataSources && r.value.1.gatewayId in gateways
  {
    var id := ParsePathId(idText);
    if id.None? then Failure(BadRequest(InvalidId))
    else
      var fields := ValidateFields(data, GatewayIdField(data));
      if fields.Failure? then Failure(fields.error)
      else if id.value !in dataSources then Failure(NotFound(NotFoundError))
      else if fields.value.gatewayId !in gateways then Failure(BadRequest(InvalidGatewayId))
      else Success((id.value, fields.value))
  }

  /** Update's checks, in their order: the path id, the fields, the row (404), the gateway. */
  lemma UpdateCheckOrder(dataSources: map<int, DataSource>, gateways: map<int, Gateway>, idText: string, data: Body)
    ensures var id := ParsePathId(idText);
            var fields := ValidateFields(data, GatewayIdField(data));
            var r := UpdateGuard(dataSources, gateways, idText, data);
            && (id.None? ==> r == Failure(BadRequest(InvalidId)))
            && (id.Some? && fields.Failure? ==> r == Failure(fields.error))
            && (id.Some? && fields.Success? && id.value !in dataSources ==> r == Failure(NotFound(NotFoundError)))
            && (id.Some? && fields.Success? && id.value in dataSources && fields.value.gatewayId !in gateways ==>
                  r == Failure(BadRequest(InvalidGatewayId)))
            && (id.Some? && fields.Success? && id.value in dataSources && fields.value.gatewayId in gateways ==>
                  r == Success((id.value, fields.value)))
  {
  }

  /** Update reads only which ids exist, so another row's name never blocks it. */
  lemma UpdateIgnoresNames(dataSources: map<int, DataSource>, dataSources': map<int, DataSource>,
                           gateways: map<int, Gateway>, idText: string, data: Body)
    requires dataSources.Keys == dataSources'.Keys
    ensures UpdateGuard(dataSources, gateways, idText, data) == UpdateGuard(dataSources', gateways, idText, data)
  {
  }

  /** The row update writes: the five fields replaced, uuid and last-seen time kept. */
  function Updated(row: DataSource, f: Fields): (r: DataSource)
    ensures r.uuid == row.uuid && r.lastSeen == row.lastSeen
  {
    row.(name := f.name, gatewayId := f.gatewayId, protocol := f.protocol, connection := f.connection,
         description := f.description)
  }

  /** The guard shared by delete, clone and the item reads: path id, then existence. */
  function FindGuard(dataSources: map<int, DataSource>, idText: string): Result<int, ApiError> {
    FindById(dataSources, idText, InvalidId, NotFoundError)
  }

  /**
   * The meter/point join of delete: the meters bound (in `tbl_meters_points`)
   * to a point of data source `id`.
   */
  function MetersUsing(points: map<int, Point>, meters: map<int, string>, meterPoints: set<(int, int)>, id: int): set<int> {
    set m | m in meters && exists p | p in points :: (m, p) in meterPoints && points[p].dataSourceId == id
  }

  /** `DELETE FROM tbl_points WHERE data_source_id = id`. */
  function Cascade(points: map<int, Point>, id: int): (r: map<int, Point>)
    ensures forall p :: p in r <==> p in points && points[p].dataSourceId != id
    ensures forall p | p in r :: r[p] == points[p]
  {
    map p | p in points && points[p].dataSourceId != id :: points[p]
  }

  /** The ids of the points of data source `id`, `ORDER BY id` (ids lie in `[1, bound)`). */
  function PointIdsOf(points: map<int, Point>, id: int, bound: int): (r: seq<int>)
    ensures Tables.Increasing(r)
    ensures forall p :: p in r <==> p in points && points[p].dataSourceId == id && 1 <= p < bound
  {
    Tables.Ascending(set p | p in points && points[p].dataSourceId == id, 1, bound)
  }

  /** Rows inserted one after the other from auto-increment id `first`. */
  function Appended(rows: seq<Point>, first: int): (r: map<int, Point>)
    ensures forall p :: p in r <==> first <= p < first + |rows|
    ensures forall k | 0 <= k < |rows| :: r[first + k] == rows[k]
  {
    if rows == [] then map[]
    else Appended(rows[..|rows| - 1], first)[first + |rows| - 1 := rows[|rows| - 1]]
  }

  lemma AppendedStep(rows: seq<Point>, k: nat, first: int)
    requires k < |rows|
    ensures Appended(rows[..k + 1], first) == Appended(rows[..k], first)[first + k := rows[k]]
  {
    assert rows[..k + 1][..k] == rows[..k];
  }

  lemma MergeStep(before: map<int, Point>, rows: seq<Point>, k: nat, first: int)
    requires k < |rows|
    ensures (before + Appended(rows[..k], first))[first + k := rows[k]] == before + Appended(rows[..k + 1], first)
  {
    AppendedStep(rows, k, first);
  }

  /** The copies clone inserts: each point of the source, in id order, moved to the new data source. */
  function Copies(points: map<int, Point>, ids: seq<int>, newId: int): (r: seq<Point>)
    requires forall k | 0 <= k < |ids| :: ids[k] in points
    ensures |r| == |ids|
    ensures forall k | 0 <= k < |ids| :: r[k] == points[ids[k]].(dataSourceId := newId)
  {
    seq(|ids|, k requires 0 <= k < |ids| => points[ids[k]].(dataSourceId := newId))
  }

  /** The name of a clone: the stripped name followed by the local time of the clone. */
  function CloneName(name: string, offsetMinutes: int, now: Time, formatLocal: Time -> string): (r: string)
    ensures |r| >= |Strip(name)| && r[..|Strip(name)|] == Strip(name)
  {
    Strip(name) + formatLocal(now + offsetMinutes * MinuteUs)
  }

  /** The decision of import: the field checks (gateway id nested), name uniqueness, then the gateway. */
  function ImportGuard(dataSources: map<int, DataSource>, gateways: map<int, Gateway>, body: Body): (r: Result<Fields, ApiError>)
    ensures r.Success? ==> !NameInUse(dataSources, r.value.name) && r.value.gatewayId in gateways
  {
    var fields := ValidateFields(body, ImportGatewayId(body));
    if fields.Failure? then fields
    else if NameInUse(dataSources, fields.value.name) then Failure(BadRequest(NameInUseError))
    else if fields.value.gatewayId !in gateways then Failure(BadRequest(InvalidGatewayId))
    else fields
  }

  /** Import makes the checks of create, with the gateway id read from `gateway.id`. */
  lemma ImportCheckOrder(dataSources: map<int, DataSource>, gateways: map<int, Gateway>, body: Body)
    ensures var fields := ValidateFields(body, ImportGatewayId(body));
            && (fields.Failure? ==> ImportGuard(dataSources, gateways, body) == fields)
            && (fields.Success? && NameInUse(dataSources, fields.value.name) ==>
                  ImportGuard(dataSources, gateways, body) == Failure(BadRequest(NameInUseError)))
            && (fields.Success? && !NameInUse(dataSources, fields.value.name) && fields.value.gatewayId !in gateways ==>
                  ImportGuard(dataSources, gateways, body) == Failure(BadRequest(InvalidGatewayId)))
            && (fields.Success? && !NameInUse(dataSources, fields.value.name) && fields.value.gatewayId in gateways ==>
                  ImportGuard(dataSources, gateways, body) == fields)
  {
  }

  /**
   * `new_values['points']` as the import loop sees it: a missing key raises;
   * null or an empty value means no points; a list is walked item by item;
   * a non-empty string or object is walked too, and its first item (a
   * character or a key) cannot be indexed by `'name'`; anything else has no
   * `len()`.
   */
  function ImportItems(body: Body): (r: Result<seq<Json>, ApiError>)
    ensures r.Failure? ==> r.error == ServerError
    ensures "points" in body && body["points"].JArray? ==> r == Success(body["points"].items)
    ensures "points" !in body ==> r.Failure?
    ensures r.Success? && r.value != [] ==> body["points"].JArray?
    ensures "points" in body && !body["points"].JArray? ==>
              (r.Success? <==> body["points"] == JNull || body["points"] == JString("") || body["points"] == JObject(map[]))
  {
    if "points" !in body then Failure(ServerError)
    else
      match body["points"]
      case JNull => Success([])
      case JArray(items) => Success(items)
      case JString(s) => if s == "" then Success([]) else Failure(ServerError)
      case JObject(fields) => if fields == map[] then Success([]) else Failure(ServerError)
      case _ => Failure(ServerError)
  }

  /** A value the database driver can bind to a placeholder: a list or an object makes it raise. */
  predicate IsScalar(v: Json) {
    !v.JArray? && !v.JObject?
  }

  /**
   * An import item the point insert can execute: an object with a name and
   * every other column, each of them a value the driver can bind.
   */
  predicate IsPointItem(item: Json) {
    && item.JObject? && "name" in item.fields && PointColumns <= item.fields.Keys
    && IsScalar(item.fields["name"])
    && forall c | c in PointColumns :: IsScalar(item.fields[c])
  }

  /** An item holding a list or an object in a column it inserts makes the whole import fail. */
  lemma NestedValueNotImportable(body: Body, k: int, c: string)
    requires ImportItems(body).Success? && 0 <= k < |ImportItems(body).value|
    requires ImportItems(body).value[k].JObject?
    requires c == "name" || c in PointColumns
    requires c in ImportItems(body).value[k].fields && !IsScalar(ImportItems(body).value[k].fields[c])
    ensures !Importable(body)
  {
  }

  /** The point row an import item becomes, attached to the new data source. */
  function PointOfItem(item: Json, dataSourceId: int): (r: Point)
    requires IsPointItem(item)
    ensures r.dataSourceId == dataSourceId && r.name == item.fields["name"]
  {
    Point(item.fields["name"], dataSourceId, map c | c in PointColumns :: item.fields[c])
  }

  /** The imported row keeps exactly the point columns of the item, with the item's values. */
  lemma PointOfItemColumns(item: Json, dataSourceId: int)
    requires IsPointItem(item)
    ensures PointOfItem(item, dataSourceId).columns.Keys == PointColumns
    ensures forall c | c in PointColumns :: PointOfItem(item, dataSourceId).columns[c] == item.fields[c]
  {
  }

  /** The point list of an import body is present and every item is a complete point object. */
  predicate Importable(body: Body) {
    ImportItems(body).Success? && forall k | 0 <= k < |ImportItems(body).value| :: IsPointItem(ImportItems(body).value[k])
  }

  /** The points of a list of items that are all complete point objects. */
  function ItemPoints(items: seq<Json>, dataSourceId: int): (r: seq<Point>)
    requires forall k | 0 <= k < |items| :: IsPointItem(items[k])
    ensures |r| == |items|
    ensures forall k | 0 <= k < |items| :: r[k] == PointOfItem(items[k], dataSourceId)
  {
    seq(|items|, k requires 0 <= k < |items| => PointOfItem(items[k], dataSourceId))
  }

  /** A point as the point listing returns it, with its three latest values. */
  datatype PointView = PointView(id: int, name: Json, columns: map<string, Json>,
                                 analogValue: Option<real>, digitalValue: Option<real>, energyValue: Option<real>)

  /**
   * The view of point `id` when the listing has read the clock `n` times:
   * the analog scan starts at reading `n`, the digital scan after the analog
   * readings, the energy scan after both.
   */
  function ViewAt(id: int, p: Point, analog: seq<LatestRow>, digital: seq<LatestRow>, energy: seq<LatestRow>,
                  clock: nat -> Time, n: nat): PointView {
    PointView(id, p.name, p.columns,
              LastFresh(analog, id, clock, n),
              LastFresh(digital, id, clock, n + ReadCount(analog, id)),
              LastFresh(energy, id, clock, n + ReadCount(analog, id) + ReadCount(digital, id)))
  }

  /** One point of the listing: its row and the three scans, reading the clock from `clock(n)` on. */
  method PointWithLatest(id: int, p: Point, analog: seq<LatestRow>, digital: seq<LatestRow>, energy: seq<LatestRow>,
                         clock: nat -> Time, n: nat) returns (view: PointView, next: nat)
    ensures view == ViewAt(id, p, analog, digital, energy, clock, n)
    ensures next == n + ReadCount(analog, id) + ReadCount(digital, id) + ReadCount(energy, id)
  {
    var analogValue, digitalValue, energyValue;
    analogValue, next := LatestValue(analog, id, clock, n);
    digitalValue, next := LatestValue(digital, id, clock, next);
    energyValue, next := LatestValue(energy, id, clock, next);
    view := PointView(id, p.name, p.columns, analogValue, digitalValue, energyValue);
  }

  /** The clock readings the three scans take for the points `ids`, in order. */
  function ReadsBefore(ids: seq<int>, analog: seq<LatestRow>, digital: seq<LatestRow>, energy: seq<LatestRow>): nat {
    if ids == [] then 0
    else
      var id := ids[|ids| - 1];
      ReadsBefore(ids[..|ids| - 1], analog, digital, energy)
        + ReadCount(analog, id) + ReadCount(digital, id) + ReadCount(energy, id)
  }

  // ---------------------------------------------------------------------------
  // The system database
  // ---------------------------------------------------------------------------

  class SystemDb {
    var gateways: map<int, Gateway>
    var dataSources: map<int, DataSource>
    var points: map<int, Point>
    var meters: map<int, string>
    var meterPoints: set<(int, int)>
    var nextDataSourceId: int
    var nextPointId: int

    /** Ids below the auto-increment counters; every point's data source and every source's gateway exist. */
    ghost predicate Valid()
      reads this
    {
      && nextDataSourceId >= 1 && nextPointId >= 1
      && (forall d | d in dataSources :: 1 <= d < nextDataSourceId && dataSources[d].gatewayId in gateways)
      && (forall p | p in points :: 1 <= p < nextPointId && points[p].dataSourceId in dataSources)
    }

    /** Every table and counter, for stating that a rolled-back handler leaves them as they were. */
    function Snapshot(): (map<int, Gateway>, map<int, DataSource>, map<int, Point>, map<int, string>,
                          set<(int, int)>, int, int)
      reads this
    {
      (gateways, dataSources, points, meters, meterPoints, nextDataSourceId, nextPointId)
    }

    constructor (gateways: map<int, Gateway>, meters: map<int, string>, meterPoints: set<(int, int)>)
      ensures Valid()
      ensures this.gateways == gateways && this.meters == meters && this.meterPoints == meterPoints
      ensures dataSources == map[] && points == map[]
    {
      this.gateways := gateways;
      this.meters := meters;
      this.meterPoints := meterPoints;
      dataSources := map[];
      points := map[];
      nextDataSourceId := 1;
      nextPointId := 1;
    }

    /** `INSERT INTO tbl_data_sources`: the row gets the next auto-increment id. */
    method InsertDataSource(row: DataSource) returns (id: int)
      requires Valid() && row.gatewayId in gateways
      modifies this
      ensures Valid()
      ensures id == old(nextDataSourceId) && id !in old(dataSources) && nextDataSourceId == id + 1
      ensures dataSources == old(dataSources)[id := row]
      ensures points == old(points) && nextPointId == old(nextPointId)
      ensures gateways == old(gateways) && meters == old(meters) && meterPoints == old(meterPoints)
    {
      id := nextDataSourceId;
      dataSources := dataSources[id := row];
      nextDataSourceId := nextDataSourceId + 1;
    }

    /** `INSERT INTO tbl_points`: the row gets the next auto-increment id. */
    method InsertPoint(row: Point) returns (id: int)
      requires Valid() && row.dataSourceId in dataSources
      modifies this
      ensures Valid()
      ensures id == old(nextPointId) && id !in old(points) && nextPointId == id + 1
      ensures points == old(points)[id := row]
      ensures dataSources == old(dataSources) && nextDataSourceId == old(nextDataSourceId)
      ensures gateways == old(gateways) && meters == old(meters) && meterPoints == old(meterPoints)
    {
      id := nextPointId;
      points := points[id := row];
      nextPointId := nextPointId + 1;
    }

    /** `POST /datasources`: on success exactly one data-source row is added. */
    method Create(data: Body, uuid: string) returns (r: Result<int, ApiError>)
      requires Valid()
      modifies this
      ensures Valid()
      ensures var decision := old(CreateGuard(dataSources, gateways, data));
              decision.Failure? ==> r == Failure(decision.error) && unchanged(this)
      ensures var decision := old(CreateGuard(dataSources, gateways, data));
              decision.Success? ==>
                && r == Success(old(nextDataSourceId)) && r.value !in old(dataSources)
                && dataSources == old(dataSources)[r.value := NewRow(decision.value, uuid)]
                && nextDataSourceId == old(nextDataSourceId) + 1 && nextPointId == old(nextPointId)
                && points == old(points) && gateways == old(gateways)
                && meters == old(meters) && meterPoints == old(meterPoints)
    {
      var decision := CreateGuard(dataSources, gateways, data);
      if decision.Success? {
        var id := InsertDataSource(NewRow(decision.value, uuid));
        r := Success(id);
      } else {
        r := Failure(decision.error);
      }
    }

    /** `PUT /datasources/{id}`: overwrites five fields of that one row. */
    method Update(idText: string, data: Body) returns (r: Result<int, ApiError>)
      requires Valid()
      modifies this
      ensures Valid()
      ensures var decision := old(UpdateGuard(dataSources, gateways, idText, data));
              decision.Failure? ==> r == Failure(decision.error) && unchanged(this)
      ensures var decision := old(UpdateGuard(dataSources, gateways, idText, data));
              decision.Success? ==>
                var (id, f) := decision.value;
                && r == Success(id)
                && dataSources == old(dataSources)[id := Updated(old(dataSources)[id], f)]
                && points == old(points) && gateways == old(gateways)
                && meters == old(meters) && meterPoints == old(meterPoints)
                && nextDataSourceId == old(nextDataSourceId) && nextPointId == old(nextPointId)
    {
      var decision := UpdateGuard(dataSources, gateways, idText, data);
      if decision.Success? {
        var (id, f) := decision.value;
        dataSources := dataSources[id := Updated(dataSources[id], f)];
        r := Success(id);
      } else {
        r := Failure(decision.error);
      }
    }

    /**
     * `DELETE /datasources/{id}`: refused while a meter is bound to one of
     * its points (naming one such meter); otherwise its points go, then the
     * data source itself.
     */
    method Delete(idText: string) returns (r: Result<int, ApiError>)
      requires Valid()
      modifies this
      ensures Valid()
      ensures r.Failure? ==> unchanged(this)
      ensures old(FindGuard(dataSources, idText)).Failure? ==> r == old(FindGuard(dataSources, idText))
      ensures old(FindGuard(dataSources, idText)).Success? ==>
                var id := old(FindGuard(dataSources, idText)).value;
                var using := old(MetersUsing(points, meters, meterPoints, id));
                && (using != {} ==> r.Failure? && exists m | m in using :: r.error == BadRequest(UsedByMeterPrefix + old(meters)[m]))
                && (using == {} ==> r == Success(id))
      ensures r.Success? ==>
                && dataSources == old(dataSources) - {r.value}
                && points == Cascade(old(points), r.value)
                && gateways == old(gateways) && meters == old(meters) && meterPoints == old(meterPoints)
                && nextDataSourceId == old(nextDataSourceId) && nextPointId == old(nextPointId)
    {
      var found := FindGuard(dataSources, idText);
      if found.Success? {
        var id := found.value;
        if exists m, p | m in meters && p in points :: (m, p) in meterPoints && points[p].dataSourceId == id {
          // the join takes one row, in no stated order
          var m, p :| m in meters && p in points && (m, p) in meterPoints && points[p].dataSourceId == id;
          assert m in MetersUsing(points, meters, meterPoints, id);
          r := Failure(BadRequest(UsedByMeterPrefix + meters[m]));
        } else {
          assert MetersUsing(points, meters, meterPoints, id) == {};
          points := Cascade(points, id);
          dataSources := dataSources - {id};
          r := Success(id);
        }
      } else {
        r := found;
      }
    }

    /**
     * `POST /datasources/{id}/clone`: a new data source named after the
     * original and the local time, with a copy of each of its points in id
     * order. `now` is the UTC clock and `formatLocal` the `isoformat` of a
     * local time.
     */
    method Clone(idText: string, uuid: string, utcOffset: string, now: Time, formatLocal: Time -> string)
      returns (r: Result<int, ApiError>)
      requires Valid()
      modifies this
      ensures Valid()
      ensures r.Failure? ==> unchanged(this)
      ensures var found := old(FindGuard(dataSources, idText));
              found.Failure? ==> r == found
      ensures var found := old(FindGuard(dataSources, idText));
              found.Success? && ParseUtcOffset(utcOffset).None? ==> r == Failure(ServerError)
      ensures var found := old(FindGuard(dataSources, idText));
              found.Success? && ParseUtcOffset(utcOffset).Some? ==>
                var source := old(dataSources)[found.value];
                var ids := PointIdsOf(old(points), found.value, old(nextPointId));
                && r == Success(old(nextDataSourceId)) && r.value !in old(dataSources)
                && dataSources == old(dataSources)[r.value := DataSource(
                     CloneName(source.name, ParseUtcOffset(utcOffset).value, now, formatLocal), uuid,
                     source.gatewayId, source.protocol, source.connection, source.description, None)]
                && points == old(points) + Appended(Copies(old(points), ids, r.value), old(nextPointId))
                && nextDataSourceId == old(nextDataSourceId) + 1 && nextPointId == old(nextPointId) + |ids|
                && gateways == old(gateways) && meters == old(meters) && meterPoints == old(meterPoints)
    {
      var found := FindGuard(dataSources, idText);
      if found.Success? {
        var offset := ParseUtcOffset(utcOffset);
        if offset.Some? {
          var newName := CloneName(dataSources[found.value].name, offset.value, now, formatLocal);
          var newId := CopyDataSource(found.value, newName, uuid);
          r := Success(newId);
        } else {
          r := Failure(ServerError);
        }
      } else {
        r := found;
      }
    }

    /** The clone after its checks: the copy of the row, then of its points in id order. */
    method CopyDataSource(id: int, newName: string, uuid: string) returns (newId: int)
      requires Valid() && id in dataSources
      modifies this
      ensures Valid()
      ensures var source := old(dataSources)[id];
              var ids := PointIdsOf(old(points), id, old(nextPointId));
              && newId == old(nextDataSourceId) && newId !in old(dataSources)
              && dataSources == old(dataSources)[newId := DataSource(newName, uuid, source.gatewayId,
                   source.protocol, source.connection, source.description, None)]
              && points == old(points) + Appended(Copies(old(points), ids, newId), old(nextPointId))
              && nextDataSourceId == old(nextDataSourceId) + 1 && nextPointId == old(nextPointId) + |ids|
              && gateways == old(gateways) && meters == old(meters) && meterPoints == old(meterPoints)
    {
      var source := dataSources[id];
      var ids := PointIdsOf(points, id, nextPointId);
      newId := InsertDataSource(DataSource(newName, uuid, source.gatewayId, source.protocol,
                                           source.connection, source.description, None));
      InsertPoints(Copies(points, ids, newId), newId);
    }

    /** Inserts `rows` one after the other, as the clone and import loops do. */
    method InsertPoints(rows: seq<Point>, dataSourceId: int)
      requires Valid() && dataSourceId in dataSources
      requires forall k | 0 <= k < |rows| :: rows[k].dataSourceId == dataSourceId
      modifies this
      ensures Valid()
      ensures points == old(points) + Appended(rows, old(nextPointId)) && nextPointId == old(nextPointId) + |rows|
      ensures dataSources == old(dataSources) && nextDataSourceId == old(nextDataSourceId)
      ensures gateways == old(gateways) && meters == old(meters) && meterPoints == old(meterPoints)
    {
      ghost var first := nextPointId;
      for k := 0 to |rows|
        invariant Valid() && dataSourceId in dataSources
        invariant nextPointId == first + k
        invariant points == old(points) + Appended(rows[..k], first)
        invariant dataSources == old(dataSources) && nextDataSourceId == old(nextDataSourceId)
        invariant gateways == old(gateways) && meters == old(meters) && meterPoints == old(meterPoints)
      {
        InsertNextPoint(rows, k, dataSourceId, old(points), first);
      }
      assert rows[..|rows|] == rows;
    }

    /** One turn of the insert loop: the `k`-th row goes in under the next id. */
    method InsertNextPoint(rows: seq<Point>, k: nat, dataSourceId: int, ghost base: map<int, Point>, ghost first: int)
      requires Valid() && dataSourceId in dataSources
      requires k < |rows| && rows[k].dataSourceId == dataSourceId
      requires nextPointId == first + k && points == base + Appended(rows[..k], first)
      modifies this
      ensures Valid()
      ensures nextPointId == first + k + 1 && points == base + Appended(rows[..k + 1], first)
      ensures dataSources == old(dataSources) && nextDataSourceId == old(nextDataSourceId)
      ensures gateways == old(gateways) && meters == old(meters) && meterPoints == old(meterPoints)
    {
      var id := InsertPoint(rows[k]);
      MergeStep(base, rows, k, first);
    }

    /**
     * `POST /datasources/import`: the data source is inserted, then each
     * point; a missing or malformed point list raises before the commit, so
     * nothing of the import remains.
     */
    method Import(body: Body, uuid: string) returns (r: Result<int, ApiError>)
      requires Valid()
      modifies this
      ensures Valid()
      ensures var decision := old(ImportGuard(dataSources, gateways, body));
              decision.Failure? ==> r == Failure(decision.error) && unchanged(this)
      ensures var decision := old(ImportGuard(dataSources, gateways, body));
              decision.Success? && !Importable(body) ==> r == Failure(ServerError) && Snapshot() == old(Snapshot())
      ensures var decision := old(ImportGuard(dataSources, gateways, body));
              decision.Success? && Importable(body) ==>
                && r == Success(old(nextDataSourceId)) && r.value !in old(dataSources)
                && dataSources == old(dataSources)[r.value := NewRow(decision.value, uuid)]
                && points == old(points) + Appended(ItemPoints(ImportItems(body).value, r.value), old(nextPointId))
                && nextDataSourceId == old(nextDataSourceId) + 1
                && nextPointId == old(nextPointId) + |ImportItems(body).value|
                && gateways == old(gateways) && meters == old(meters) && meterPoints == old(meterPoints)
    {
      var decision := ImportGuard(dataSources, gateways, body);
      if decision.Success? {
        r := ImportAccepted(decision.value, body, uuid);
      } else {
        r := Failure(decision.error);
      }
    }

    /** The import after its checks: the inserts, then the commit or, when the point list raises, none. */
    method ImportAccepted(f: Fields, body: Body, uuid: string) returns (r: Result<int, ApiError>)
      requires Valid() && f.gatewayId in gateways
      modifies this
      ensures Valid()
      ensures !Importable(body) ==> r == Failure(ServerError) && Snapshot() == old(Snapshot())
      ensures Importable(body) ==>
                && r == Success(old(nextDataSourceId)) && r.value !in old(dataSources)
                && dataSources == old(dataSources)[r.value := NewRow(f, uuid)]
                && points == old(points) + Appended(ItemPoints(ImportItems(body).value, r.value), old(nextPointId))
                && nextDataSourceId == old(nextDataSourceId) + 1
                && nextPointId == old(nextPointId) + |ImportItems(body).value|
                && gateways == old(gateways) && meters == old(meters) && meterPoints == old(meterPoints)
    {
      // the transaction, restored when the point list raises before the commit
      var savedDataSources, savedNextDataSourceId := dataSources, nextDataSourceId;
      var newId := InsertDataSource(NewRow(f, uuid));
      var items := ImportItems(body);
      if Importable(body) {
        InsertPoints(ItemPoints(items.value, newId), newId);
        r := Success(newId);
      } else {
        dataSources, nextDataSourceId := savedDataSources, savedNextDataSourceId;
        r := Failure(ServerError);
      }
    }

    /**
     * `GET /datasources/{id}/points`: the points of the data source in id
     * order, each with the last fresh analog, digital and energy value.
     */
    method PointsWithLatest(idText: string, analog: seq<LatestRow>, digital: seq<LatestRow>,
                            energy: seq<LatestRow>, clock: nat -> Time)
      returns (r: Result<seq<PointView>, ApiError>)
      requires Valid()
      ensures FindGuard(dataSources, idText).Failure? ==> r == Failure(FindGuard(dataSources, idText).error)
      ensures r.Success? ==>
                var ids := PointIdsOf(points, FindGuard(dataSources, idText).value, nextPointId);
                && |r.value| == |ids|
                && forall k | 0 <= k < |ids| ::
                     && ids[k] in points
                     && r.value[k] == ViewAt(ids[k], points[ids[k]], analog, digital, energy, clock,
                                             ReadsBefore(ids[..k], analog, digital, energy))
      ensures FindGuard(dataSources, idText).Success? ==> r.Success?
    {
      var found := FindGuard(dataSources, idText);
      if found.Failure? {
        return Failure(found.error);
      }
      var ids := PointIdsOf(points, found.value, nextPointId);
      var views: seq<PointView> := [];
      var n := 0;
      for k := 0 to |ids|
        invariant |views| == k
        invariant n == ReadsBefore(ids[..k], analog, digital, energy)
        invariant forall j | 0 <= j < k :: ids[j] in points && views[j] == ViewAt(ids[j], points[ids[j]],
                    analog, digital, energy, clock, ReadsBefore(ids[..j], analog, digital, energy))
      {
        assert ids[k] in ids;
        assert ids[..k + 1][..k] == ids[..k];
        var view;
        view, n := PointWithLatest(ids[k], points[ids[k]], analog, digital, energy, clock, n);
        views := views + [view];
      }
      r := Success(views);
    }
  }

  // ---------------------------------------------------------------------------
  // Properties of the table effects
  // ---------------------------------------------------------------------------

  /** After a delete no point refers to the data source, and the other points are untouched. */
  lemma DeleteLeavesNoOrphans(points: map<int, Point>, id: int)
    ensures forall p | p in Cascade(points, id) :: Cascade(points, id)[p].dataSourceId != id
    ensures forall p | p in points && points[p].dataSourceId != id :: p in Cascade(points, id) && Cascade(points, id)[p] == points[p]
  {
  }

  /** A clone copies every point of its source exactly once, names and columns unchanged. */
  lemma ClonedPointsMatch(points: map<int, Point>, id: int, bound: int, newId: int, first: int, q: int)
    requires forall p | p in points :: p < bound
    requires q in points && points[q].dataSourceId == id && q >= 1
    ensures var ids := PointIdsOf(points, id, bound);
            exists k | 0 <= k < |ids| ::
              && ids[k] == q
              && first + k in Appended(Copies(points, ids, newId), first)
              && Appended(Copies(points, ids, newId), first)[first + k] == points[q].(dataSourceId := newId)
  {
    var ids := PointIdsOf(points, id, bound);
    assert q in ids;
    var k :| 0 <= k < |ids| && ids[k] == q;
    assert Appended(Copies(points, ids, newId), first)[first + k] == points[q].(dataSourceId := newId);
  }
}
