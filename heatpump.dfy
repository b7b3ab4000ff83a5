/**
 * The heat pumps of a microgrid (`/microgridheatpumps`): the request checks
 * of create and update, their order (which decides the error reported), the
 * rule that names are unique within a microgrid, and what each handler does
 * to `tbl_microgrids_heatpumps`. The microgrid, meter and point tables are
 * only read. As in the data-source module, each decision is a function of
 * the tables (a guard) and each handler a method of `HeatpumpDb` proved to
 * follow it.
 */
module MicrogridHeatpumps {
  import opened Wrappers
  import opened PyText
  import opened Requests
  import opened Tables

  const InvalidId := "API.INVALID_MICROGRID_HEATPUMP_ID"
  const InvalidName := "API.INVALID_MICROGRID_HEATPUMP_NAME"
  const InvalidMicrogridId := "API.INVALID_MICROGRID_ID"
  const InvalidPowerPointId := "API.INVALID_POWER_POINT_ID"
  const InvalidElectricityMeterId := "API.INVALID_ELECTRICITY_METER_ID"
  /** Create reports a bad `heat_meter_id` with this code ... */
  const InvalidSellMeterId := "API.INVALID_SELL_METER_ID"
  /** ... and update with this one. */
  const InvalidHeatMeterId := "API.INVALID_HEAT_METER_ID"
  const InvalidCoolingMeterId := "API.INVALID_COOLING_METER_ID"
  const InvalidCapacity := "API.INVALID_CAPACITY"
  const MicrogridNotFound := "API.MICROGRID_NOT_FOUND"
  const NameInUseError := "API.MICROGRID_HEATPUMP_NAME_IS_ALREADY_IN_USE"
  const PowerPointNotFound := "API.POWER_POINT_NOT_FOUND"
  const ElectricityMeterNotFound := "API.ELECTRICITY_METER_NOT_FOUND"
  const HeatMeterNotFound := "API.HEAT_METER_NOT_FOUND"
  const CoolingMeterNotFound := "API.COOLING_METER_NOT_FOUND"
  const NotFoundError := "API.MICROGRID_HEATPUMP_NOT_FOUND"

  // ---------------------------------------------------------------------------
  // Field validators
  // ---------------------------------------------------------------------------

  /** The validated fields of a create or update request. */
  datatype Fields = Fields(name: string, microgridId: int, powerPointId: int, electricityMeterId: int,
                           heatMeterId: int, coolingMeterId: int, capacity: real)

  /** What every accepted request satisfies. */
  predicate WellFormed(f: Fields) {
    && f.name != [] && Trimmed(f.name)
    && f.microgridId >= 1 && f.powerPointId >= 1 && f.electricityMeterId >= 1
    && f.heatMeterId >= 1 && f.coolingMeterId >= 1
  }

  /** The capacity check: an int (a bool included) or a float, taken as a number. */
  function RequireCapacity(body: Body): (r: Result<real, ApiError>)
    ensures r.Success? <==> "capacity" in body && (body["capacity"].JFloat? || body["capacity"].JInt? || body["capacity"].JBool?)
    ensures r.Failure? ==> r.error == BadRequest(InvalidCapacity)
    ensures r.Success? && body["capacity"].JInt? ==> r.value == body["capacity"].i as real
  {
    if "capacity" in body && AsNumber(body["capacity"]).Some? then Success(AsNumber(body["capacity"]).value)
    else Failure(BadRequest(InvalidCapacity))
  }

  /**
   * The checks of create and update, in their order: name, microgrid id,
   * power point id, the electricity, heat and cooling meter ids, capacity.
   * The handlers differ only in the code of a bad heat meter id, passed in.
   */
  function ValidateFields(body: Body, heatMeterError: string): (r: Result<Fields, ApiError>)
    ensures r.Success? ==> WellFormed(r.value)
  {
    var name := RequireText(body, "name", InvalidName);
    if name.Failure? then Failure(name.error) else
    var microgrid := RequirePositiveInt(body, "microgrid_id", InvalidMicrogridId);
    if microgrid.Failure? then Failure(microgrid.error) else
    var point := RequirePositiveInt(body, "power_point_id", InvalidPowerPointId);
    if point.Failure? then Failure(point.error) else
    var electricity := RequirePositiveInt(body, "electricity_meter_id", InvalidElectricityMeterId);
    if electricity.Failure? then Failure(electricity.error) else
    var heat := RequirePositiveInt(body, "heat_meter_id", heatMeterError);
    if heat.Failure? then Failure(heat.error) else
    var cooling := RequirePositiveInt(body, "cooling_meter_id", InvalidCoolingMeterId);
    if cooling.Failure? then Failure(cooling.error) else
    var capacity := RequireCapacity(body);
    if capacity.Failure? then Failure(capacity.error) else
    Success(Fields(name.value, microgrid.value, point.value, electricity.value, heat.value, cooling.value,
                   capacity.value))
  }

  /** A request is accepted exactly when every check passes, and the first failing check names the error. */
  lemma ValidateFieldsOrder(body: Body, heatMeterError: string)
    ensures var name := RequireText(body, "name", InvalidName);
            var microgrid := RequirePositiveInt(body, "microgrid_id", InvalidMicrogridId);
            var point := RequirePositiveInt(body, "power_point_id", InvalidPowerPointId);
            var electricity := RequirePositiveInt(body, "electricity_meter_id", InvalidElectricityMeterId);
            var heat := RequirePositiveInt(body, "heat_meter_id", heatMeterError);
            var cooling := RequirePositiveInt(body, "cooling_meter_id", InvalidCoolingMeterId);
            var capacity := RequireCapacity(body);
            var r := ValidateFields(body, heatMeterError);
            && (r.Success? <==> name.Success? && microgrid.Success? && point.Success? && electricity.Success?
                                && heat.Success? && cooling.Success? && capacity.Success?)
            && (name.Failure? ==> r == Failure(BadRequest(InvalidName)))
            && (name.Success? && microgrid.Failure? ==> r == Failure(BadRequest(InvalidMicrogridId)))
            && (name.Success? && microgrid.Success? && point.Failure? ==> r == Failure(BadRequest(InvalidPowerPointId)))
            && (name.Success? && microgrid.Success? && point.Success? && electricity.Failure? ==>
                  r == Failure(BadRequest(InvalidElectricityMeterId)))
            && (name.Success? && microgrid.Success? && point.Success? && electricity.Success? && heat.Failure? ==>
                  r == Failure(BadRequest(heatMeterError)))
            && ((name.Success? && microgrid.Success? && point.Success? && electricity.Success? && heat.Success?
                 && cooling.Failure?) ==> r == Failure(BadRequest(InvalidCoolingMeterId)))
            && ((name.Success? && microgrid.Success? && point.Success? && electricity.Success? && heat.Success?
                 && cooling.Success? && capacity.Failure?) ==> r == Failure(BadRequest(InvalidCapacity)))
  {
  }

  /** What an accepted request stores: the stripped name, the ids as given (a `true` as 1), the capacity as a number. */
  lemma ValidateFieldsValues(body: Body, heatMeterError: string)
    requires ValidateFields(body, heatMeterError).Success?
    ensures var f := ValidateFields(body, heatMeterError).value;
            && f.name == Strip(body["name"].s)
            && f.microgridId == AsInt(body["microgrid_id"]).value
            && f.powerPointId == AsInt(body["power_point_id"]).value
            && f.electricityMeterId == AsInt(body["electricity_meter_id"]).value
            && f.heatMeterId == AsInt(body["heat_meter_id"]).value
            && f.coolingMeterId == AsInt(body["cooling_meter_id"]).value
            && f.capacity == AsNumber(body["capacity"]).value
  {
  }

  /** The request body that states the fields `f`. */
  function FieldsBody(f: Fields): Body {
    map["name" := JString(f.name), "microgrid_id" := JInt(f.microgridId), "power_point_id" := JInt(f.powerPointId),
        "electricity_meter_id" := JInt(f.electricityMeterId), "heat_meter_id" := JInt(f.heatMeterId),
        "cooling_meter_id" := JInt(f.coolingMeterId), "capacity" := JFloat(f.capacity)]
  }

  /** Submitting accepted fields again is accepted and gives the same fields. */
  lemma ResubmitFields(f: Fields, heatMeterError: string)
    requires WellFormed(f)
    ensures ValidateFields(FieldsBody(f), heatMeterError) == Success(f)
  {
    var b := FieldsBody(f);
    assert b["name"] == JString(f.name);
    TrimmedStrips(f.name);
    StripEmptyIff(f.name);
    assert RequireText(b, "name", InvalidName) == Success(f.name);
    assert b["microgrid_id"] == JInt(f.microgridId) && b["power_point_id"] == JInt(f.powerPointId);
    assert b["electricity_meter_id"] == JInt(f.electricityMeterId) && b["heat_meter_id"] == JInt(f.heatMeterId);
    assert b["cooling_meter_id"] == JInt(f.coolingMeterId) && b["capacity"] == JFloat(f.capacity);
  }

  // ---------------------------------------------------------------------------
  // Tables
  // ---------------------------------------------------------------------------

  /** A row of `tbl_microgrids` or `tbl_meters`, as far as these handlers read it. */
  datatype Entity = Entity(name: string, uuid: string)

  /** A row of `tbl_microgrids_heatpumps`. */
  datatype Heatpump = Heatpump(name: string, uuid: string, microgridId: int, powerPointId: int,
                               electricityMeterId: int, heatMeterId: int, coolingMeterId: int, capacity: real)

  /** The request fields a stored row holds. */
  function FieldsOf(h: Heatpump): Fields {
    Fields(h.name, h.microgridId, h.powerPointId, h.electricityMeterId, h.heatMeterId, h.coolingMeterId, h.capacity)
  }

  /** `SELECT name FROM tbl_microgrids_heatpumps WHERE microgrid_id = %s AND name = %s` finds a row. */
  predicate NameInUse(heatpumps: map<int, Heatpump>, microgridId: int, name: string) {
    exists h | h in heatpumps :: heatpumps[h].microgridId == microgridId && heatpumps[h].name == name
  }

  /** The same query with `AND id != %s`: a row other than `id` has the name. */
  predicate NameInUseByOther(heatpumps: map<int, Heatpump>, microgridId: int, name: string, id: int) {
    exists h | h in heatpumps :: h != id && heatpumps[h].microgridId == microgridId && heatpumps[h].name == name
  }

  /** Within one microgrid no two heat pumps share a name. */
  predicate UniqueNames(heatpumps: map<int, Heatpump>) {
    forall a, b | a in heatpumps && b in heatpumps && a != b ::
      heatpumps[a].microgridId != heatpumps[b].microgridId || heatpumps[a].name != heatpumps[b].name
  }

  /** Excluding `id` from update's name query is the create query over the table without `id`. */
  lemma NameInUseByOtherIff(heatpumps: map<int, Heatpump>, microgridId: int, name: string, id: int)
    ensures NameInUseByOther(heatpumps, microgridId, name, id) <==> NameInUse(heatpumps - {id}, microgridId, name)
  {
    if NameInUse(heatpumps - {id}, microgridId, name) {
      var h :| h in heatpumps - {id} && (heatpumps - {id})[h].microgridId == microgridId && (heatpumps - {id})[h].name == name;
      assert h in heatpumps && h != id;
    }
    if NameInUseByOther(heatpumps, microgridId, name, id) {
      var h :| h in heatpumps && h != id && heatpumps[h].microgridId == microgridId && heatpumps[h].name == name;
      assert h in heatpumps - {id} && (heatpumps - {id})[h] == heatpumps[h];
    }
  }

  /**
   * Keeping one's own name: in a table with unique names a row's own name
   * is not used by another row, though the create query does find it.
   */
  lemma KeepOwnName(heatpumps: map<int, Heatpump>, id: int)
    requires UniqueNames(heatpumps) && id in heatpumps
    ensures !NameInUseByOther(heatpumps, heatpumps[id].microgridId, heatpumps[id].name, id)
    ensures NameInUse(heatpumps, heatpumps[id].microgridId, heatpumps[id].name)
  {
  }

  /** Writing a row whose name no other row of its microgrid uses keeps names unique. */
  lemma UniqueAfterWrite(heatpumps: map<int, Heatpump>, id: int, row: Heatpump)
    requires UniqueNames(heatpumps)
    requires !NameInUseByOther(heatpumps, row.microgridId, row.name, id)
    ensures UniqueNames(heatpumps[id := row])
  {
    var t := heatpumps[id := row];
    forall a, b | a in t && b in t && a != b
      ensures t[a].microgridId != t[b].microgridId || t[a].name != t[b].name
    {
      if a == id {
        assert b in heatpumps && b != id;
      } else if b == id {
        assert a in heatpumps && a != id;
      } else {
        assert t[a] == heatpumps[a] && t[b] == heatpumps[b];
      }
    }
  }

  // ---------------------------------------------------------------------------
  // Guards
  // ---------------------------------------------------------------------------

  /** The referenced power point and the three meters exist. */
  predicate Referenced(points: map<int, string>, meters: map<int, Entity>, f: Fields) {
    f.powerPointId in points && f.electricityMeterId in meters && f.heatMeterId in meters && f.coolingMeterId in meters
  }

  /** The reference checks that end both create and update: the power point, then each meter. */
  function ReferencesGuard(points: map<int, string>, meters: map<int, Entity>, f: Fields): (r: Result<Fields, ApiError>)
    ensures r.Success? <==> Referenced(points, meters, f)
    ensures r.Success? ==> r.value == f
  {
    if f.powerPointId !in points then Failure(NotFound(PowerPointNotFound))
    else if f.electricityMeterId !in meters then Failure(NotFound(ElectricityMeterNotFound))
    else if f.heatMeterId !in meters then Failure(NotFound(HeatMeterNotFound))
    else if f.coolingMeterId !in meters then Failure(NotFound(CoolingMeterNotFound))
    else Success(f)
  }

  /** The first missing reference names the (404) error. */
  lemma ReferencesCheckOrder(points: map<int, string>, meters: map<int, Entity>, f: Fields)
    ensures var r := ReferencesGuard(points, meters, f);
            && (f.powerPointId !in points ==> r == Failure(NotFound(PowerPointNotFound)))
            && (f.powerPointId in points && f.electricityMeterId !in meters ==>
                  r == Failure(NotFound(ElectricityMeterNotFound)))
            && (f.powerPointId in points && f.electricityMeterId in meters && f.heatMeterId !in meters ==>
                  r == Failure(NotFound(HeatMeterNotFound)))
            && ((f.powerPointId in points && f.electricityMeterId in meters && f.heatMeterId in meters
                 && f.coolingMeterId !in meters) ==> r == Failure(NotFound(CoolingMeterNotFound)))
            && (r.Failure? ==> StatusCode(r.error) == 404)
  {
  }

  /** The decision of create: the fields, the microgrid, the name within it, then the references. */
  function CreateGuard(microgrids: map<int, Entity>, meters: map<int, Entity>, points: map<int, string>,
                       heatpumps: map<int, Heatpump>, data: Body): (r: Result<Fields, ApiError>)
    ensures r.Success? ==>
              && WellFormed(r.value) && r.value.microgridId in microgrids
              && !NameInUse(heatpumps, r.value.microgridId, r.value.name) && Referenced(points, meters, r.value)
  {
    var fields := ValidateFields(data, InvalidSellMeterId);
    if fields.Failure? then fields
    else if fields.value.microgridId !in microgrids then Failure(NotFound(MicrogridNotFound))
    else if NameInUse(heatpumps, fields.value.microgridId, fields.value.name) then Failure(BadRequest(NameInUseError))
    else ReferencesGuard(points, meters, fields.value)
  }

  /** Create's checks, in their order: the fields, the microgrid (404), the name (400), the references (404). */
  lemma CreateCheckOrder(microgrids: map<int, Entity>, meters: map<int, Entity>, points: map<int, string>,
                         heatpumps: map<int, Heatpump>, data: Body)
    ensures var fields := ValidateFields(data, InvalidSellMeterId);
            var r := CreateGuard(microgrids, meters, points, heatpumps, data);
            && (fields.Failure? ==> r == fields)
            && (fields.Success? && fields.value.microgridId !in microgrids ==> r == Failure(NotFound(MicrogridNotFound)))
            && (fields.Success? && fields.value.microgridId in microgrids
                && NameInUse(heatpumps, fields.value.microgridId, fields.value.name) ==>
                  r == Failure(BadRequest(NameInUseError)))
            && (fields.Success? && fields.value.microgridId in microgrids
                && !NameInUse(heatpumps, fields.value.microgridId, fields.value.name) ==>
                  r == ReferencesGuard(points, meters, fields.value))
  {
  }

  /** The decision of update: path id, fields, microgrid, the row itself, the name among other rows, the references. */
  function UpdateGuard(microgrids: map<int, Entity>, meters: map<int, Entity>, points: map<int, string>,
                       heatpumps: map<int, Heatpump>, idText: string, data: Body): (r: Result<(int, Fields), ApiError>)
    ensures r.Success? ==>
              var (id, f) := r.value;
              && id in heatpumps && WellFormed(f) && f.microgridId in microgrids
              && !NameInUseByOther(heatpumps, f.microgridId, f.name, id) && Referenced(points, meters, f)
  {
    var id := ParsePathId(idText);
    if id.None? then Failure(BadRequest(InvalidId))
    else
      var fields := ValidateFields(data, InvalidHeatMeterId);
      if fields.Failure? then Failure(fields.error)
      else if fields.value.microgridId !in microgrids then Failure(NotFound(MicrogridNotFound))
      else if id.value !in heatpumps then Failure(NotFound(NotFoundError))
      else if NameInUseByOther(heatpumps, fields.value.microgridId, fields.value.name, id.value) then
        Failure(BadRequest(NameInUseError))
      else
        var refs := ReferencesGuard(points, meters, fields.value);
        if refs.Failure? then Failure(refs.error) else Success((id.value, fields.value))
  }

  /** Update's checks, in their order: path id, fields, microgrid, row (404), name among others (400), references. */
  lemma UpdateCheckOrder(microgrids: map<int, Entity>, meters: map<int, Entity>, points: map<int, string>,
                         heatpumps: map<int, Heatpump>, idText: string, data: Body)
    ensures var id := ParsePathId(idText);
            var fields := ValidateFields(data, InvalidHeatMeterId);
            var r := UpdateGuard(microgrids, meters, points, heatpumps, idText, data);
            && (id.None? ==> r == Failure(BadRequest(InvalidId)))
            && (id.Some? && fields.Failure? ==> r == Failure(fields.error))
            && (id.Some? && fields.Success? && fields.value.microgridId !in microgrids ==>
                  r == Failure(NotFound(MicrogridNotFound)))
            && (id.Some? && fields.Success? && fields.value.microgridId in microgrids && id.value !in heatpumps ==>
                  r == Failure(NotFound(NotFoundError)))
            && (id.Some? && fields.Success? && fields.value.microgridId in microgrids && id.value in heatpumps
                && NameInUseByOther(heatpumps, fields.value.microgridId, fields.value.name, id.value) ==>
                  r == Failure(BadRequest(NameInUseError)))
            && (id.Some? && fields.Success? && fields.value.microgridId in microgrids && id.value in heatpumps
                && !NameInUseByOther(heatpumps, fields.value.microgridId, fields.value.name, id.value) ==>
                  r == (var refs := ReferencesGuard(points, meters, fields.value);
                        if refs.Failure? then Failure(refs.error) else Success((id.value, fields.value))))
  {
  }

  /** The heat-meter error code only names the error: an accepted request gives the same fields either way. */
  lemma HeatMeterCodeOnlyNamesError(body: Body, e: string, e': string)
    ensures ValidateFields(body, e).Success? <==> ValidateFields(body, e').Success?
    ensures ValidateFields(body, e).Success? ==> ValidateFields(body, e) == ValidateFields(body, e')
  {
  }

  /**
   * Re-submitting a stored row's own fields: update accepts it (its own
   * name does not block it) while create with them is refused for the name.
   */
  lemma UpdateKeepsOwnName(microgrids: map<int, Entity>, meters: map<int, Entity>, points: map<int, string>,
                           heatpumps: map<int, Heatpump>, id: int, data: Body)
    requires UniqueNames(heatpumps) && id >= 1 && id in heatpumps
    requires ValidateFields(data, InvalidHeatMeterId) == Success(FieldsOf(heatpumps[id]))
    requires heatpumps[id].microgridId in microgrids && Referenced(points, meters, FieldsOf(heatpumps[id]))
    ensures UpdateGuard(microgrids, meters, points, heatpumps, NatText(id), data) == Success((id, FieldsOf(heatpumps[id])))
    ensures CreateGuard(microgrids, meters, points, heatpumps, data) == Failure(BadRequest(NameInUseError))
  {
    PathIdRoundTrip(id);
    KeepOwnName(heatpumps, id);
    HeatMeterCodeOnlyNamesError(data, InvalidHeatMeterId, InvalidSellMeterId);
  }

  /** The guard shared by delete and the item read: path id, then existence. */
  function FindGuard(heatpumps: map<int, Heatpump>, idText: string): Result<int, ApiError> {
    FindById(heatpumps, idText, InvalidId, NotFoundError)
  }

  // ---------------------------------------------------------------------------
  // Rows written by create and update
  // ---------------------------------------------------------------------------

  /** A value bound to a statement placeholder. */
  datatype SqlValue = SqlText(text: string) | SqlInt(i: int) | SqlReal(x: real)

  /** The columns create's INSERT names: seven, `electricity_meter_id` missing. */
  const InsertColumnsAsWritten: seq<string> :=
    ["name", "uuid", "microgrid_id", "power_point_id", "heat_meter_id", "cooling_meter_id", "capacity"]

  /** Every column of a heat-pump row but its id. */
  const InsertColumns: seq<string> :=
    ["name", "uuid", "microgrid_id", "power_point_id", "electricity_meter_id", "heat_meter_id", "cooling_meter_id",
     "capacity"]

  /** The eight values create passes to its INSERT, in order. */
  function InsertParams(f: Fields, uuid: string): (p: seq<SqlValue>)
    ensures |p| == 8
  {
    [SqlText(f.name), SqlText(uuid), SqlInt(f.microgridId), SqlInt(f.powerPointId), SqlInt(f.electricityMeterId),
     SqlInt(f.heatMeterId), SqlInt(f.coolingMeterId), SqlReal(f.capacity)]
  }

  /** Columns paired with the values in the same positions. */
  function Zip(columns: seq<string>, values: seq<SqlValue>): (m: map<string, SqlValue>)
    requires |columns| == |values|
    ensures m.Keys == set c | c in columns
  {
    if columns == [] then map[]
    else Zip(columns[..|columns| - 1], values[..|values| - 1])[columns[|columns| - 1] := values[|values| - 1]]
  }

  /** Pairing one more column adds its entry. */
  lemma ZipStep(columns: seq<string>, values: seq<SqlValue>, k: nat)
    requires |columns| == |values| && k < |columns|
    ensures Zip(columns[..k + 1], values[..k + 1]) == Zip(columns[..k], values[..k])[columns[k] := values[k]]
  {
    assert columns[..k + 1][..k] == columns[..k] && values[..k + 1][..k] == values[..k];
  }

  /**
   * Executing an INSERT with one placeholder per column: the driver refuses
   * (an uncaught error, so a 500) when the number of values differs.
   */
  function Bind(columns: seq<string>, values: seq<SqlValue>): (r: Result<map<string, SqlValue>, ApiError>)
    ensures r.Success? <==> |columns| == |values|
    ensures r.Failure? ==> r.error == ServerError
  {
    if |columns| != |values| then Failure(ServerError) else Success(Zip(columns, values))
  }

  /** The row the INSERT stores, when it binds: each column holds the request's value for it. */
  function NewRow(f: Fields, uuid: string): Heatpump {
    Heatpump(f.name, uuid, f.microgridId, f.powerPointId, f.electricityMeterId, f.heatMeterId, f.coolingMeterId,
             f.capacity)
  }

  /** A stored row as column values. */
  function Columns(h: Heatpump): map<string, SqlValue> {
    map["name" := SqlText(h.name), "uuid" := SqlText(h.uuid), "microgrid_id" := SqlInt(h.microgridId),
        "power_point_id" := SqlInt(h.powerPointId), "electricity_meter_id" := SqlInt(h.electricityMeterId),
        "heat_meter_id" := SqlInt(h.heatMeterId), "cooling_meter_id" := SqlInt(h.coolingMeterId),
        "capacity" := SqlReal(h.capacity)]
  }

  /** Create's INSERT as written never executes: eight values for seven placeholders. */
  lemma InsertAsWrittenRaises(f: Fields, uuid: string)
    ensures Bind(InsertColumnsAsWritten, InsertParams(f, uuid)) == Failure(ServerError)
  {
  }

  /** With all eight columns named, the INSERT stores exactly the request's row, and it reads back as the request. */
  lemma InsertBindsEveryColumn(f: Fields, uuid: string)
    ensures Bind(InsertColumns, InsertParams(f, uuid)) == Success(Columns(NewRow(f, uuid)))
    ensures FieldsOf(NewRow(f, uuid)) == f && NewRow(f, uuid).uuid == uuid
  {
    var c, p := InsertColumns, InsertParams(f, uuid);
    assert c[..0] == [] && p[..0] == [];
    ZipStep(c, p, 0);
    ZipStep(c, p, 1);
    ZipStep(c, p, 2);
    ZipStep(c, p, 3);
    ZipStep(c, p, 4);
    ZipStep(c, p, 5);
    ZipStep(c, p, 6);
    ZipStep(c, p, 7);
    assert c[..8] == c && p[..8] == p;
  }

  /** The row update writes as written: `cooling_meter_id` receives the heat meter id; uuid kept. */
  function UpdatedAsWritten(row: Heatpump, f: Fields): (r: Heatpump)
    ensures r.uuid == row.uuid
  {
    Heatpump(f.name, row.uuid, f.microgridId, f.powerPointId, f.electricityMeterId, f.heatMeterId, f.heatMeterId,
             f.capacity)
  }

  /** The row update evidently means to write: every request field in its own column; uuid kept. */
  function Updated(row: Heatpump, f: Fields): (r: Heatpump)
    ensures r.uuid == row.uuid
  {
    Heatpump(f.name, row.uuid, f.microgridId, f.powerPointId, f.electricityMeterId, f.heatMeterId, f.coolingMeterId,
             f.capacity)
  }

  /**
   * Read back, the row written as written holds the request except for the
   * cooling meter, which is the heat meter; the corrected row holds the
   * request itself.
   */
  lemma UpdateReadsBack(row: Heatpump, f: Fields)
    ensures FieldsOf(Updated(row, f)) == f
    ensures FieldsOf(UpdatedAsWritten(row, f)) == f.(coolingMeterId := f.heatMeterId)
    ensures UpdatedAsWritten(row, f) == Updated(row, f) <==> f.coolingMeterId == f.heatMeterId
  {
  }

  /** An update naming heat meter 2 and cooling meter 3 stores cooling meter 2. */
  lemma CoolingMeterOverwritten(row: Heatpump)
    ensures var f := Fields("HP-1", 1, 1, 1, 2, 3, 10.0);
            && UpdatedAsWritten(row, f).coolingMeterId == 2
            && Updated(row, f).coolingMeterId == 3
  {
  }

  // ---------------------------------------------------------------------------
  // What the reads return
  // ---------------------------------------------------------------------------

  /** A microgrid or meter as the listing shows it: `{"id", "name", "uuid"}`. */
  datatype EntityRef = EntityRef(id: int, name: string, uuid: string)

  /** A point as the listing shows it: `{"id", "name"}`. */
  datatype PointRef = PointRef(id: int, name: string)

  /** One heat pump of a listing, each reference resolved, or null where its id is in no table. */
  datatype HeatpumpView = HeatpumpView(id: int, name: string, uuid: string, microgrid: Option<EntityRef>,
                                       powerPoint: Option<PointRef>, electricityMeter: Option<EntityRef>,
                                       heatMeter: Option<EntityRef>, coolingMeter: Option<EntityRef>, capacity: real)

  /** `dict.get`: the entry for `id`, or null. */
  function EntityAt(table: map<int, Entity>, id: int): Option<EntityRef> {
    if id in table then Some(EntityRef(id, table[id].name, table[id].uuid)) else None
  }

  function PointAt(points: map<int, string>, id: int): Option<PointRef> {
    if id in points then Some(PointRef(id, points[id])) else None
  }

  function View(id: int, h: Heatpump, microgrids: map<int, Entity>, meters: map<int, Entity>,
                points: map<int, string>): HeatpumpView {
    HeatpumpView(id, h.name, h.uuid, EntityAt(microgrids, h.microgridId), PointAt(points, h.powerPointId),
                 EntityAt(meters, h.electricityMeterId), EntityAt(meters, h.heatMeterId),
                 EntityAt(meters, h.coolingMeterId), h.capacity)
  }

  /** `ref` is what `dict.get` gives for `id`: null when absent, else the id with the table's name and uuid. */
  predicate ResolvesTo(ref: Option<EntityRef>, table: map<int, Entity>, id: int) {
    && (ref.Some? <==> id in table)
    && (ref.Some? ==> ref.value == EntityRef(id, table[id].name, table[id].uuid))
  }

  /**
   * A reference is shown exactly when its id is in its table, and then with
   * that id and the table's name (and uuid); a missing one is null, never an
   * error. The heat pump's own id, name, uuid and capacity are shown as stored.
   */
  lemma ViewResolves(id: int, h: Heatpump, microgrids: map<int, Entity>, meters: map<int, Entity>,
                     points: map<int, string>)
    ensures var v := View(id, h, microgrids, meters, points);
            && v.id == id && v.name == h.name && v.uuid == h.uuid && v.capacity == h.capacity
            && ResolvesTo(v.microgrid, microgrids, h.microgridId)
            && (v.powerPoint.Some? <==> h.powerPointId in points)
            && (v.powerPoint.Some? ==> v.powerPoint.value == PointRef(h.powerPointId, points[h.powerPointId]))
            && ResolvesTo(v.electricityMeter, meters, h.electricityMeterId)
            && ResolvesTo(v.heatMeter, meters, h.heatMeterId)
            && ResolvesTo(v.coolingMeter, meters, h.coolingMeterId)
  {
  }

  // ---------------------------------------------------------------------------
  // The heat-pump table
  // ---------------------------------------------------------------------------

  class HeatpumpDb {
    var microgrids: map<int, Entity>
    var meters: map<int, Entity>
    var points: map<int, string>
    var heatpumps: map<int, Heatpump>
    var nextId: int

    /** Ids below the auto-increment counter, and names unique within each microgrid. */
    ghost predicate Valid()
      reads this
    {
      && nextId >= 1
      && (forall h | h in heatpumps :: 1 <= h < nextId)
      && UniqueNames(heatpumps)
    }

    constructor (microgrids: map<int, Entity>, meters: map<int, Entity>, points: map<int, string>)
      ensures Valid()
      ensures this.microgrids == microgrids && this.meters == meters && this.points == points
      ensures heatpumps == map[]
    {
      this.microgrids := microgrids;
      this.meters := meters;
      this.points := points;
      heatpumps := map[];
      nextId := 1;
    }

    /**
     * `POST /microgridheatpumps` as written: after its checks the INSERT
     * cannot bind its values, so no request succeeds and no row is added.
     */
    method Create(data: Body, uuid: string) returns (r: Result<int, ApiError>)
      ensures r.Failure?
      ensures var decision := CreateGuard(microgrids, meters, points, heatpumps, data);
              && (decision.Failure? ==> r == Failure(decision.error))
              && (decision.Success? ==> r == Failure(ServerError))
    {
      var decision := CreateGuard(microgrids, meters, points, heatpumps, data);
      if decision.Success? {
        var bound := Bind(InsertColumnsAsWritten, InsertParams(decision.value, uuid));
        InsertAsWrittenRaises(decision.value, uuid);
        r := Failure(bound.error);
      } else {
        r := Failure(decision.error);
      }
    }

    /** `POST /microgridheatpumps` with every column in its INSERT: on success exactly one row is added. */
    method CreateWithAllColumns(data: Body, uuid: string) returns (r: Result<int, ApiError>)
      requires Valid()
      modifies this
      ensures Valid()
      ensures var decision := old(CreateGuard(microgrids, meters, points, heatpumps, data));
              decision.Failure? ==> r == Failure(decision.error) && unchanged(this)
      ensures var decision := old(CreateGuard(microgrids, meters, points, heatpumps, data));
              decision.Success? ==>
                && r == Success(old(nextId)) && r.value !in old(heatpumps)
                && heatpumps == old(heatpumps)[r.value := NewRow(decision.value, uuid)] && nextId == old(nextId) + 1
                && microgrids == old(microgrids) && meters == old(meters) && points == old(points)
    {
      var decision := CreateGuard(microgrids, meters, points, heatpumps, data);
      if decision.Success? {
        var row := NewRow(decision.value, uuid);
        var id := nextId;
        UniqueAfterWrite(heatpumps, id, row);
        heatpumps := heatpumps[id := row];
        nextId := nextId + 1;
        r := Success(id);
      } else {
        r := Failure(decision.error);
      }
    }

    /** `PUT /microgridheatpumps/{id}` as written: the row is rewritten with the cooling meter set to the heat meter. */
    method Update(idText: string, data: Body) returns (r: Result<int, ApiError>)
      requires Valid()
      modifies this
      ensures Valid()
      ensures var decision := old(UpdateGuard(microgrids, meters, points, heatpumps, idText, data));
              decision.Failure? ==> r == Failure(decision.error) && unchanged(this)
      ensures var decision := old(UpdateGuard(microgrids, meters, points, heatpumps, idText, data));
              decision.Success? ==>
                var (id, f) := decision.value;
                && r == Success(id)
                && heatpumps == old(heatpumps)[id := UpdatedAsWritten(old(heatpumps)[id], f)]
                && microgrids == old(microgrids) && meters == old(meters) && points == old(points)
                && nextId == old(nextId)
    {
      var decision := UpdateGuard(microgrids, meters, points, heatpumps, idText, data);
      if decision.Success? {
        var (id, f) := decision.value;
        UniqueAfterWrite(heatpumps, id, UpdatedAsWritten(heatpumps[id], f));
        heatpumps := heatpumps[id := UpdatedAsWritten(heatpumps[id], f)];
        r := Success(id);
      } else {
        r := Failure(decision.error);
      }
    }

    /** `PUT /microgridheatpumps/{id}` writing each field to its own column. */
    method UpdateWithCoolingMeter(idText: string, data: Body) returns (r: Result<int, ApiError>)
      requires Valid()
      modifies this
      ensures Valid()
      ensures var decision := old(UpdateGuard(microgrids, meters, points, heatpumps, idText, data));
              decision.Failure? ==> r == Failure(decision.error) && unchanged(this)
      ensures var decision := old(UpdateGuard(microgrids, meters, points, heatpumps, idText, data));
              decision.Success? ==>
                var (id, f) := decision.value;
                && r == Success(id)
                && heatpumps == old(heatpumps)[id := Updated(old(heatpumps)[id], f)]
                && microgrids == old(microgrids) && meters == old(meters) && points == old(points)
                && nextId == old(nextId)
    {
      var decision := UpdateGuard(microgrids, meters, points, heatpumps, idText, data);
      if decision.Success? {
        var (id, f) := decision.value;
        UniqueAfterWrite(heatpumps, id, Updated(heatpumps[id], f));
        heatpumps := heatpumps[id := Updated(heatpumps[id], f)];
        r := Success(id);
      } else {
        r := Failure(decision.error);
      }
    }

    /** `DELETE /microgridheatpumps/{id}`: removes exactly that row. */
    method Delete(idText: string) returns (r: Result<int, ApiError>)
      requires Valid()
      modifies this
      ensures Valid()
      ensures var found := old(FindGuard(heatpumps, idText));
              found.Failure? ==> r == found && unchanged(this)
      ensures var found := old(FindGuard(heatpumps, idText));
              found.Success? ==>
                && r == found && heatpumps == old(heatpumps) - {found.value}
                && microgrids == old(microgrids) && meters == old(meters) && points == old(points)
                && nextId == old(nextId)
    {
      var found := FindGuard(heatpumps, idText);
      if found.Success? {
        heatpumps := heatpumps - {found.value};
      }
      r := found;
    }

    /** `GET /microgridheatpumps/{id}`: the row with its references resolved. */
    method Get(idText: string) returns (r: Result<HeatpumpView, ApiError>)
      ensures var found := FindGuard(heatpumps, idText);
              && (found.Failure? ==> r == Failure(found.error))
              && (found.Success? ==> r == Success(View(found.value, heatpumps[found.value], microgrids, meters, points)))
    {
      var found := FindGuard(heatpumps, idText);
      if found.Success? {
        r := Success(View(found.value, heatpumps[found.value], microgrids, meters, points));
      } else {
        r := Failure(found.error);
      }
    }

    /** `GET /microgridheatpumps`: every row, ordered by id, with its references resolved. */
    method List() returns (r: seq<HeatpumpView>)
      requires Valid()
      ensures forall k, l | 0 <= k < l < |r| :: r[k].id < r[l].id
      ensures forall k | 0 <= k < |r| :: r[k].id in heatpumps
                                         && r[k] == View(r[k].id, heatpumps[r[k].id], microgrids, meters, points)
      ensures forall id | id in heatpumps :: exists k | 0 <= k < |r| :: r[k].id == id
    {
      var ids := Ascending(heatpumps.Keys, 1, nextId);
      r := [];
      for k := 0 to |ids|
        invariant |r| == k
        invariant forall j | 0 <= j < k :: r[j] == View(ids[j], heatpumps[ids[j]], microgrids, meters, points)
      {
        r := r + [View(ids[k], heatpumps[ids[k]], microgrids, meters, points)];
      }
      forall id | id in heatpumps
        ensures exists k | 0 <= k < |r| :: r[k].id == id
      {
        var k :| 0 <= k < |ids| && ids[k] == id;
        assert r[k].id == id;
      }
    }
  }

  /** A row created (with every column) can be found, and a second create of its name in its microgrid is refused. */
  lemma CreateThenFind(heatpumps: map<int, Heatpump>, id: int, f: Fields, uuid: string,
                       microgrids: map<int, Entity>, meters: map<int, Entity>, points: map<int, string>, data: Body)
    requires id >= 1
    requires ValidateFields(data, InvalidSellMeterId).Success?
    requires ValidateFields(data, InvalidSellMeterId).value.microgridId == f.microgridId
    requires ValidateFields(data, InvalidSellMeterId).value.name == f.name
    requires f.microgridId in microgrids
    ensures FindGuard(heatpumps[id := NewRow(f, uuid)], NatText(id)) == Success(id)
    ensures CreateGuard(microgrids, meters, points, heatpumps[id := NewRow(f, uuid)], data) == Failure(BadRequest(NameInUseError))
  {
    PathIdRoundTrip(id);
    assert heatpumps[id := NewRow(f, uuid)][id] == NewRow(f, uuid);
  }

  /** Deleting a row frees its name in its microgrid; every other row is kept. */
  lemma DeleteFreesName(heatpumps: map<int, Heatpump>, id: int)
    requires UniqueNames(heatpumps) && id in heatpumps
    ensures !NameInUse(heatpumps - {id}, heatpumps[id].microgridId, heatpumps[id].name)
    ensures forall h | h in heatpumps && h != id :: h in heatpumps - {id} && (heatpumps - {id})[h] == heatpumps[h]
  {
    KeepOwnName(heatpumps, id);
    NameInUseByOtherIff(heatpumps, heatpumps[id].microgridId, heatpumps[id].name, id);
  }
}
