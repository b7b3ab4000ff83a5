# MyEMS carbon-discharge aggregation, data sources and microgrid heat pumps in Dafny

This project models three pieces of the MyEMS energy-management system and proves properties of them.

- **The microgrid carbon-discharge aggregator** (`myems-aggregation/microgrid_carbon_discharge.py`) is a batch job. It handles one microgrid at a time, in id order:
  1. It resumes from the latest start time already derived into the carbon database. With nothing derived yet, it starts from the configured epoch floored to the hour.
  2. It reads the hourly discharge energy recorded at or after that cursor, folds it into a time-keyed dict and tracks the window end.
  3. It looks up one emission factor for energy category 1 over that window.
  4. It multiplies every Decimal energy value by a Decimal factor.
  5. It appends the products with a single `INSERT`.

  A failed read of the cursor, or a failed insert, ends the cycle for every later microgrid. The module `CarbonDischarge` states each stage as a function, and the whole cycle as `Cycle`. The methods `RunCycle`, `RunMicrogrid`, `Accumulate`, `ComputeCarbon` and `BuildInsert` follow the source's loops, `break`s, `continue`s and string building. Each is proved equal to its function.
- **The data-source API** (`myems-api/core/datasource.py`) covers:
  - the request-field checks;
  - the `±HH:MM` UTC-offset parse;
  - the freshness rule for the latest point values;
  - what create, update, delete, clone and import do to `tbl_data_sources` and `tbl_points`.

  Module `DataSources` states every handler's decision as a guard function over the tables. Each handler is a method of the class `SystemDb`, proved to follow its guard.
- **The microgrid heat-pump API** (`myems-api/core/microgridheatpump.py`) covers:
  - the request-field checks, and the order of the existence and uniqueness checks;
  - per-microgrid name uniqueness;
  - what create, update and delete do to `tbl_microgrids_heatpumps`;
  - how the reads resolve references.

  This is module `MicrogridHeatpumps`, with the class `HeatpumpDb`.

The supporting modules are:
- `PyText`: the Python string builtins the handlers use, namely `str.strip`, `str.isdigit`, `int(str)` and `str(int)`;
- `Requests`: the JSON body, the HTTP errors, and the field checks shared by both APIs;
- `Times`: microsecond timestamps and their floors;
- `Tables`: `ORDER BY id` over an id-keyed table;
- `Wrappers`: `Option` and `Result`.

## Model

| member | source | states |
|---|---|---|
| PyText.Strip | myems-api/core/datasource.py:86-91 | The stripped text is no longer than the input and has no whitespace at either end. |
| PyText.StripIsSlice | myems-api/core/datasource.py:86-91 | `str.strip` keeps one contiguous slice of the text, and only whitespace lies on either side of it. |
| PyText.StripEmptyIff | myems-api/core/datasource.py:86-89 | A text strips to nothing exactly when it is all whitespace. |
| PyText.StripIdempotent | myems-api/core/datasource.py:91 | Stripping a stripped text changes nothing. |
| PyText.DigitsValuePositive | myems-api/core/datasource.py:205-207 | A digit string denotes a number above zero exactly when one of its digits is not `0`. |
| PyText.NatTextRoundTrip | myems-api/core/datasource.py:189 | `int(str(n)) == n` for every natural number. |
| PyText.IntOfTextAccepts | myems-api/core/datasource.py:46 | `int()` accepts exactly stripped text made of digits with an optional sign. It gives a plain digit string its decimal value, and only a leading `-` makes the result negative. |
| PyText.TwoDigitsRoundTrip | myems-api/core/datasource.py:46 | `int()` reads back any two-digit zero-padded number. |
| Times.FloorToHour | myems-aggregation/microgrid_carbon_discharge.py:138 | The result is an hour boundary, at or before `t` and less than an hour before it. |
| Times.FloorToMinute | myems-aggregation/microgrid_carbon_discharge.py:143 | The result is a minute boundary, at or before `t` and less than a minute before it. |
| Times.FloorToSecond | myems-aggregation/microgrid_carbon_discharge.py:222 | The result is a second boundary, at or before `t` and less than a second before it. It is the time that the 19-character `isoformat` text spells. |
| Tables.Ascending | myems-api/core/microgridheatpump.py:61-66 | The ids are strictly increasing, and an id is listed exactly when it is in the table and in range. |
| Requests.ParsePathId | myems-api/core/datasource.py:205-207 | A path id is accepted exactly when it is all digits and not all zeros. The accepted value is at least 1 and equals the decimal value of the digits. |
| Requests.PathIdRoundTrip | myems-api/core/microgridheatpump.py:233-234 | The id that create puts in `resp.location` is accepted by the item handlers as that same id. |
| Requests.RequireText | myems-api/core/datasource.py:86-91 | A text field is accepted exactly when it is present, a `str`, and not all whitespace. The value is the stripped text, and otherwise the error is the field's 400. |
| Requests.RequireTextStable | myems-api/core/datasource.py:86-91 | Submitting an accepted text value again is accepted and gives the same value. |
| Requests.RequirePositiveInt | myems-api/core/datasource.py:93-98 | An id field is accepted exactly when it is an int above 0 or `true`, since a bool is an int in Python. Otherwise the error is the field's 400. |
| Requests.OptionalText | myems-api/core/datasource.py:147-152 | Absent, null or `""` gives no description, and any other string is stored stripped. A non-string raises a 500. |
| CarbonDischarge.TimeDict.Put | myems-aggregation/microgrid_carbon_discharge.py:175 | Assigning a key keeps the dict's key order valid, with no key listed twice and every listed key present. A key already present keeps its position. A new key goes at the end. |
| CarbonDischarge.LatestStartIsMax | myems-aggregation/microgrid_carbon_discharge.py:132-136 | This is the `MAX` of the microgrid's derived starts. It is null exactly when the microgrid has no row, and otherwise it is the start of one of its rows and at least every other one. |
| CarbonDischarge.ResolveCursor | myems-aggregation/microgrid_carbon_discharge.py:137-145 | It fails exactly when the epoch does not parse. With no previous row the cursor is the epoch floored to the hour. Otherwise it is the previous start floored to the minute plus `minutes_to_count` minutes, which is past that start when the slot size is positive. |
| CarbonDischarge.Window | myems-aggregation/microgrid_carbon_discharge.py:158-163 | Every fetched sample is at or after the cursor. |
| CarbonDischarge.WindowEnd | myems-aggregation/microgrid_carbon_discharge.py:171-177 | The end is at or after the cursor and every sample time, and it is either the cursor or one of the sample times. |
| CarbonDischarge.FoldKeepsLastSample | myems-aggregation/microgrid_carbon_discharge.py:172-175 | A time is a key of the energy dict exactly when some sample has it. Its value is that of the last such sample. |
| CarbonDischarge.WindowLastAt | myems-aggregation/microgrid_carbon_discharge.py:158-163 | For every time at or after the cursor, the window keeps the last energy row of the microgrid, in id order. It keeps nothing before the cursor. |
| CarbonDischarge.MultiplyEntries | myems-aggregation/microgrid_carbon_discharge.py:195-203 | A carbon entry exists exactly for the energy keys whose value is a Decimal, when the factor is a Decimal too. It is energy times factor. |
| CarbonDischarge.RowsOfCarbon | myems-aggregation/microgrid_carbon_discharge.py:218-223 | The inserted tuples are exactly the carbon entries, one per key, with their values. |
| CarbonDischarge.DerivedAt | myems-aggregation/microgrid_carbon_discharge.py:170-203 | A derived entry exists exactly for times at or after the cursor whose last energy row is a Decimal, given a Decimal factor. |
| CarbonDischarge.DerivedValue | myems-aggregation/microgrid_carbon_discharge.py:193-203 | Each derived value is the last energy value at that time times the window's factor. |
| CarbonDischarge.ProcessMicrogrid | myems-aggregation/microgrid_carbon_discharge.py:131-232 | Only a microgrid that continues adds rows, and every row it adds belongs to it. |
| CarbonDischarge.ProcessWindow | myems-aggregation/microgrid_carbon_discharge.py:158-232 | Once the energy query returned, only a window that continues adds rows, and every row belongs to the microgrid. |
| CarbonDischarge.InsertedRows | myems-aggregation/microgrid_carbon_discharge.py:183-223 | When a run inserts rows, its cursor resolved, the factor was looked up over the cursor and the window end, and the rows are the carbon dict's entries in dict order. |
| CarbonDischarge.DerivedValuesAreProducts | myems-aggregation/microgrid_carbon_discharge.py:183-223 | Every inserted row lies at or after the cursor, and its value is the last Decimal energy at its time times the Decimal factor looked up for `[cursor, window end]`. |
| CarbonDischarge.InsertedStarts | myems-aggregation/microgrid_carbon_discharge.py:210-223 | The starts of the inserted rows are exactly the keys of the carbon dict. |
| CarbonDischarge.EmptyWindowSkips | myems-aggregation/microgrid_carbon_discharge.py:158-168 | With no energy row at or after the cursor, the microgrid is skipped: no factor lookup, no insert, and the loop goes on. |
| CarbonDischarge.NonDecimalFactorDerivesNothing | myems-aggregation/microgrid_carbon_discharge.py:199-203 | A factor that is missing or not a Decimal derives no row, and the loop goes on. |
| CarbonDischarge.RunMicrogrids | myems-aggregation/microgrid_carbon_discharge.py:126-232 | The loop only appends rows, and only for microgrids of the list. |
| CarbonDischarge.LatestStartIgnoresOthers | myems-aggregation/microgrid_carbon_discharge.py:132-136 | Rows of other microgrids do not move a microgrid's cursor. |
| CarbonDischarge.FirstRunBound | myems-aggregation/microgrid_carbon_discharge.py:132-145 | After a run that inserted rows, the microgrid's latest start is at or after that run's cursor, its factor was a Decimal, and every time it derived is at or before the new latest start. |
| CarbonDischarge.RunPastLatest | myems-aggregation/microgrid_carbon_discharge.py:140-203 | A run resumed from a latest start derives only times strictly after it, and each of them has a Decimal energy row. |
| CarbonDischarge.RerunAddsNothing | myems-aggregation/microgrid_carbon_discharge.py:140-145 | Processing a microgrid again right after it continued adds no row, whatever faults the second run meets. |
| CarbonDischarge.LaterRowsOfOthers | myems-aggregation/microgrid_carbon_discharge.py:126-136 | Rows that later microgrids of an increasing id list append leave the first microgrid's latest start unchanged. |
| CarbonDischarge.RerunMicrogridsAddsNothing | myems-aggregation/microgrid_carbon_discharge.py:126-232 | After a loop over the microgrids completed, any table with the same latest starts gets no rows from a second loop. |
| CarbonDischarge.IdempotentCycle | myems-aggregation/microgrid_carbon_discharge.py:126-232 | After a completed cycle, a second cycle over the same microgrids and energy data leaves the carbon table unchanged. |
| CarbonDischarge.LatestQueryFailureStopsCycle | myems-aggregation/microgrid_carbon_discharge.py:148-151 | When the cursor query of the k-th microgrid fails, the cycle aborts there. The rows of the earlier microgrids remain, and no later microgrid is processed. |
| CarbonDischarge.InsertFailureStopsCycle | myems-aggregation/microgrid_carbon_discharge.py:229-232 | When the k-th microgrid's insert fails, the cycle aborts there with no row for it. The earlier rows remain. |
| CarbonDischarge.Accumulate | myems-aggregation/microgrid_carbon_discharge.py:170-177 | The loop builds exactly the folded energy dict and the window end. |
| CarbonDischarge.ComputeCarbon | myems-aggregation/microgrid_carbon_discharge.py:193-203 | The loop builds exactly the multiplied carbon dict. |
| CarbonDischarge.ListedIsJoined | myems-aggregation/microgrid_carbon_discharge.py:218-227 | Appending each tuple followed by `", "` gives the tuples joined by `", "`, plus one trailing separator. |
| CarbonDischarge.TrimSeparator | myems-aggregation/microgrid_carbon_discharge.py:227 | Cutting two characters removes exactly that trailing separator. |
| CarbonDischarge.BuildInsert | myems-aggregation/microgrid_carbon_discharge.py:210-227 | The built statement is the header followed by exactly one tuple per carbon entry, in dict order, with no trailing `", "`. |
| CarbonDischarge.CarbonTable.Insert | myems-aggregation/microgrid_carbon_discharge.py:221-228 | Executing and committing the statement appends the rows it lists. Each start is cut to the whole seconds its text spells (`Stored`). |
| CarbonDischarge.StoredKeepsAllButFraction | myems-aggregation/microgrid_carbon_discharge.py:221-223 | A stored row keeps its microgrid id and value. Its start is a whole second, at most one second earlier, and the row is unchanged exactly when its start was already a whole second. |
| CarbonDischarge.DerivedStoredExactly | myems-aggregation/microgrid_carbon_discharge.py:158-223 | When every energy start is a whole second, the derived rows are stored exactly as derived, since each start is the start of an energy row. |
| CarbonDischarge.RunMicrogrid | myems-aggregation/microgrid_carbon_discharge.py:131-232 | Given whole-second energy starts, one loop body returns the outcome of `ProcessMicrogrid` and appends exactly its rows. |
| CarbonDischarge.RunCycle | myems-aggregation/microgrid_carbon_discharge.py:28-232 | Given whole-second energy starts, the outcome and the carbon table are those of `Cycle`. That covers the setup failures, no microgrids, and the loop with its `break`s and `continue`s. |
| CarbonDischarge.FirstCycleExample | myems-aggregation/microgrid_carbon_discharge.py:137-228 | Two hourly samples of 10 and 20 with factor 0.5, starting from the epoch, derive 5 and 10 at the two sample times. |
| DataSources.RequireProtocol | myems-api/core/datasource.py:100-138 | The protocol is accepted exactly when it is one of the 34 listed strings, and it is kept as given. Otherwise the error is `INVALID_DATA_SOURCE_PROTOCOL`. |
| DataSources.ValidateFields | myems-api/core/datasource.py:86-152 | An accepted request is well formed: a non-blank trimmed name and connection, a gateway id of at least 1, a listed protocol, and a trimmed description. |
| DataSources.ValidateFieldsOrder | myems-api/core/datasource.py:86-152 | The request is accepted exactly when every check passes. The first failing check, in the order name, gateway, protocol, connection, description, names the error. |
| DataSources.ValidateFieldsValues | myems-api/core/datasource.py:86-152 | The stored values are the stripped name and connection, the protocol as given, the gateway id, and the normalised description. |
| DataSources.GatewayIdField | myems-api/core/datasource.py:93-98 | An accepted gateway id is at least 1. |
| DataSources.ImportGatewayId | myems-api/core/datasource.py:647-653 | Import reads the gateway id from `gateway.id`. A `gateway` that is not an object raises a 500, and a missing `gateway` gives `INVALID_GATEWAY_ID`. |
| DataSources.ResubmitFields | myems-api/core/datasource.py:86-152 | Submitting stored fields again is accepted with the same fields. The exception is a blank description stored as `""`, which comes back as none. |
| DataSources.ParseUtcOffset | myems-api/core/datasource.py:46-48 | The offset parses exactly when both `int()` calls do. It is then `60*HH + MM` minutes, negated exactly when the text starts with `-`. |
| DataSources.UtcOffsetRoundTrip | myems-api/core/datasource.py:46-48 | Every offset below 100 hours, written as `±HH:MM`, parses back to itself. |
| DataSources.NegativeHalfHour | myems-api/core/datasource.py:46-48 | `-00:30` parses to -30: the sign comes from the text, not from the hours. |
| DataSources.FreshIff | myems-api/core/datasource.py:500-501 | A latest value is fresh exactly when it is not from the future and is less than 601 seconds old, given `timedelta`'s normalisation of `days` and `seconds`. |
| DataSources.LastFreshShown | myems-api/core/datasource.py:497-515 | A value is shown exactly when some row of the point is fresh at the clock reading taken for that row. |
| DataSources.LastFreshIsLast | myems-api/core/datasource.py:497-515 | A value shown is that of the last row of the point that is fresh at its own reading. No later row of the point is fresh at its reading. |
| DataSources.ClockMovesDuringScan | myems-api/core/datasource.py:497-503 | Two rows stamped at the same time and read 600 and 601 seconds later give the first row's value. One reading at 600 seconds would give the second row's. |
| DataSources.LatestValue | myems-api/core/datasource.py:497-503 | The scan reads the clock once per row of the point that has a datetime, and returns the value of the last row fresh at its own reading. `next` counts the readings taken. |
| DataSources.PointWithLatest | myems-api/core/datasource.py:480-518 | One point of the listing runs the analog, digital and energy scans in that order, each starting where the previous one's clock readings ended. |
| DataSources.CreateGuard | myems-api/core/datasource.py:157-173 | An accepted create has a name no data source uses and a gateway that exists. |
| DataSources.CreateCheckOrder | myems-api/core/datasource.py:86-173 | Create makes the field checks, then name uniqueness, then gateway existence, and the first failure decides the error. |
| DataSources.CreateTwiceRefused | myems-api/core/datasource.py:157-164 | Once a data source exists, creating another with its name is refused with `DATA_SOURCE_NAME_IS_ALREADY_IN_USE`. |
| DataSources.UpdateGuard | myems-api/core/datasource.py:312-405 | An accepted update names an existing row and an existing gateway. |
| DataSources.UpdateCheckOrder | myems-api/core/datasource.py:312-405 | The checks run in this order: path id (400), fields, row (404), gateway (400). The first failure decides the error. |
| DataSources.UpdateIgnoresNames | myems-api/core/datasource.py:389-405 | The decision of update depends only on which ids exist, never on the names of the rows, so there is no uniqueness check. |
| DataSources.Updated | myems-api/core/datasource.py:407-416 | Update keeps the row's uuid and last-seen time. |
| Requests.FindById | myems-api/core/datasource.py:261-275 | An id is found exactly when the path id is valid and the row exists. A bad id gives 400 and a missing row gives 404, each with the caller's error code. The data-source guard passes its codes here, and so does the heat-pump guard (myems-api/core/microgridheatpump.py:327-340). |
| DataSources.Cascade | myems-api/core/datasource.py:292 | Exactly the points of other data sources remain, unchanged. |
| DataSources.PointIdsOf | myems-api/core/datasource.py:811-818 | The ids of the data source's points, strictly increasing. |
| DataSources.Appended | myems-api/core/datasource.py:855-873 | Rows inserted one by one take consecutive ids from the counter, in order. |
| DataSources.Copies | myems-api/core/datasource.py:855-873 | The k-th copy is the k-th point, attached to the new data source. |
| DataSources.CloneName | myems-api/core/datasource.py:840-844 | The clone's name starts with the stripped original name. |
| DataSources.ImportGuard | myems-api/core/datasource.py:712-729 | An accepted import has a new name and an existing gateway. |
| DataSources.ImportCheckOrder | myems-api/core/datasource.py:640-729 | Import makes create's checks, in create's order, with the gateway id nested. |
| DataSources.ImportItems | myems-api/core/datasource.py:740-747 | A missing `points` key raises a 500, and a list is walked item by item. A value that is not a list is accepted exactly when it is null, `""` or `{}`, and then gives no points. Any other value raises a 500: a non-empty string or object at the `['name']` lookup, a number or bool at `len()`. |
| DataSources.PointOfItem | myems-api/core/datasource.py:743-758 | The imported point keeps the item's name and is attached to the new data source. |
| DataSources.PointOfItemColumns | myems-api/core/datasource.py:743-758 | The imported point has exactly the point columns, with the item's values. |
| DataSources.NestedValueNotImportable | myems-api/core/datasource.py:740-758 | An item whose name or point column holds a list or an object makes the import not importable. The driver cannot bind such a value, so the import raises before the commit. |
| DataSources.ItemPoints | myems-api/core/datasource.py:740-758 | One point per item, in order. |
| DataSources.SystemDb.InsertDataSource | myems-api/core/datasource.py:175-183 | The row gets the next auto-increment id, and nothing else changes. |
| DataSources.SystemDb.InsertPoint | myems-api/core/datasource.py:743-758 | The point gets the next auto-increment id, and nothing else changes. |
| DataSources.SystemDb.Create | myems-api/core/datasource.py:74-190 | A refused create returns the guard's error and changes nothing. Otherwise exactly one data-source row is added, under the next id. The data-source counter advances by one and the point counter is unchanged. |
| DataSources.SystemDb.Update | myems-api/core/datasource.py:302-420 | A refused update changes nothing. Otherwise only the five fields of that one row are overwritten. |
| DataSources.SystemDb.Delete | myems-api/core/datasource.py:259-299 | Delete is refused, naming a meter, while a meter is bound to one of the data source's points. Otherwise it removes the data source and exactly its points. Gateways, meters, meter bindings and both id counters are kept. |
| DataSources.SystemDb.Clone | myems-api/core/datasource.py:780-880 | A clone adds one data source with the clone name and the original's fields, plus a copy of each of its points in id order. The data-source counter advances by one and the point counter by the number of copies. A bad id or offset changes nothing. |
| DataSources.SystemDb.CopyDataSource | myems-api/core/datasource.py:846-873 | After the checks, one row is inserted, then the copies of the points. The counters advance by one and by the number of copies. |
| DataSources.SystemDb.InsertPoints | myems-api/core/datasource.py:855-873 | The loop adds exactly the given points, under consecutive ids. |
| DataSources.SystemDb.InsertNextPoint | myems-api/core/datasource.py:856-873 | One more imported point is inserted under the next id. The points so far are exactly the first k+1 rows under consecutive ids, and the other tables are unchanged. |
| DataSources.SystemDb.Import | myems-api/core/datasource.py:629-766 | A refused import changes nothing. An import whose point list is malformed, or whose items hold a list or an object in a column, raises before the commit, so every table and counter is left as before. Otherwise one data source and its item points are added, and the counters advance by one and by the number of items. |
| DataSources.SystemDb.ImportAccepted | myems-api/core/datasource.py:731-760 | The inserts, followed either by the commit or, when the point list or one of its values raises, by nothing. On commit the counters advance by one and by the number of items. |
| DataSources.SystemDb.PointsWithLatest | myems-api/core/datasource.py:435-520 | The listing gives the source's points in id order. Each point carries its last fresh analog, digital and energy value. Each scan is judged at the clock readings taken after every earlier point's and scan's readings. A bad or unknown id gives the guard's error. |
| DataSources.DeleteLeavesNoOrphans | myems-api/core/datasource.py:292-293 | After a delete no point refers to the data source, and every other point is kept. |
| DataSources.ClonedPointsMatch | myems-api/core/datasource.py:811-873 | Every point of the source is copied exactly once, with its name and columns. |
| MicrogridHeatpumps.RequireCapacity | myems-api/core/microgridheatpump.py:147-152 | Capacity is accepted exactly when it is an int, a bool or a float. An int keeps its value, and otherwise the error is `INVALID_CAPACITY`. |
| MicrogridHeatpumps.ValidateFields | myems-api/core/microgridheatpump.py:105-152 | An accepted request has a non-blank trimmed name and five ids of at least 1. |
| MicrogridHeatpumps.ValidateFieldsOrder | myems-api/core/microgridheatpump.py:105-152 | The request is accepted exactly when all seven checks pass, and the first failing one names the error. |
| MicrogridHeatpumps.ValidateFieldsValues | myems-api/core/microgridheatpump.py:105-152 | The stored values are the stripped name, the ids as given, and the capacity as a number. |
| MicrogridHeatpumps.ResubmitFields | myems-api/core/microgridheatpump.py:105-152 | Submitting accepted fields again gives the same fields. |
| MicrogridHeatpumps.HeatMeterCodeOnlyNamesError | myems-api/core/microgridheatpump.py:133-138 | Create's `INVALID_SELL_METER_ID` and update's `INVALID_HEAT_METER_ID` differ only in the error code: they accept the same requests and give the same fields. |
| MicrogridHeatpumps.NameInUseByOtherIff | myems-api/core/microgridheatpump.py:440-448 | Update's name query, which excludes the row's own id, is create's query over the table without that row. |
| MicrogridHeatpumps.KeepOwnName | myems-api/core/microgridheatpump.py:440-448 | With unique names, a row's own name is not used by another row, though create's query does find it. |
| MicrogridHeatpumps.UniqueAfterWrite | myems-api/core/microgridheatpump.py:167-175 | Writing a row whose name no other row of its microgrid uses keeps names unique within every microgrid. |
| MicrogridHeatpumps.ReferencesGuard | myems-api/core/microgridheatpump.py:177-215 | The references pass exactly when the point and the three meters exist. |
| MicrogridHeatpumps.ReferencesCheckOrder | myems-api/core/microgridheatpump.py:177-215 | The first missing reference, in the order point, electricity, heat, cooling, names a 404. |
| MicrogridHeatpumps.CreateGuard | myems-api/core/microgridheatpump.py:157-215 | An accepted create is well formed, its microgrid exists, its name is new in that microgrid, and every reference exists. |
| MicrogridHeatpumps.CreateCheckOrder | myems-api/core/microgridheatpump.py:157-215 | The checks run in this order: fields, microgrid (404), name (400), references (404). The first failure decides the error. |
| MicrogridHeatpumps.UpdateGuard | myems-api/core/microgridheatpump.py:363-488 | An accepted update names an existing row and microgrid, uses a name no other row of that microgrid has, and its references exist. |
| MicrogridHeatpumps.UpdateCheckOrder | myems-api/core/microgridheatpump.py:421-448 | The checks run in this order: path id, fields, microgrid (404), heat pump (404), name among other rows (400), references. |
| MicrogridHeatpumps.UpdateKeepsOwnName | myems-api/core/microgridheatpump.py:440-448 | Re-submitting a row's own fields is accepted by update, while create with them is refused for the name. |
| MicrogridHeatpumps.InsertParams | myems-api/core/microgridheatpump.py:219-227 | Create passes eight values. |
| MicrogridHeatpumps.Bind | myems-api/core/microgridheatpump.py:217-227 | A statement binds exactly when there are as many values as columns, and otherwise it raises a 500. |
| MicrogridHeatpumps.InsertAsWrittenRaises | myems-api/core/microgridheatpump.py:217-227 | Create's INSERT as written, with seven columns and eight values, always raises a 500. |
| MicrogridHeatpumps.InsertBindsEveryColumn | myems-api/core/microgridheatpump.py:217-227 | Naming all eight columns binds each column to the request's value for it. The row reads back as the request, with the uuid kept. |
| MicrogridHeatpumps.UpdatedAsWritten | myems-api/core/microgridheatpump.py:490-500 | The row written by update as written keeps its uuid. |
| MicrogridHeatpumps.Updated | myems-api/core/microgridheatpump.py:490-500 | The corrected row keeps its uuid. |
| MicrogridHeatpumps.UpdateReadsBack | myems-api/core/microgridheatpump.py:490-500 | The corrected row reads back as the request. The row as written reads back with the cooling meter replaced by the heat meter. The two agree exactly when the request names the same meter for both. |
| MicrogridHeatpumps.CoolingMeterOverwritten | myems-api/core/microgridheatpump.py:495-500 | An update naming heat meter 2 and cooling meter 3 stores cooling meter 2 as written, and 3 when corrected. |
| MicrogridHeatpumps.ViewResolves | myems-api/core/microgridheatpump.py:68-85 | Each reference is shown exactly when its id is in its table. The microgrid and the three meters are then shown with that id and the table's name and uuid, and the power point with its id and name. A missing reference is null, not an error. The heat pump's own id, name, uuid and capacity are shown as stored. |
| MicrogridHeatpumps.HeatpumpDb.Create | myems-api/core/microgridheatpump.py:93-234 | As written, create never succeeds. A refused request returns the guard's error, and an accepted one fails at the INSERT with a 500. |
| MicrogridHeatpumps.HeatpumpDb.CreateWithAllColumns | myems-api/core/microgridheatpump.py:217-234 | A refused create changes nothing. Otherwise exactly one row is added, under the next id, the counter advances by one, and names stay unique. |
| MicrogridHeatpumps.HeatpumpDb.Update | myems-api/core/microgridheatpump.py:353-508 | A refused update changes nothing. Otherwise only that row is rewritten, with the cooling meter set to the heat meter, and names stay unique. |
| MicrogridHeatpumps.HeatpumpDb.UpdateWithCoolingMeter | myems-api/core/microgridheatpump.py:490-502 | The corrected update rewrites only that row, with every field in its own column. |
| MicrogridHeatpumps.HeatpumpDb.Delete | myems-api/core/microgridheatpump.py:325-349 | A bad or unknown id gives the guard's error and changes nothing. Otherwise exactly that row is removed. |
| MicrogridHeatpumps.HeatpumpDb.Get | myems-api/core/microgridheatpump.py:248-321 | A bad or unknown id gives the guard's error. Otherwise the row is returned with its references resolved. |
| MicrogridHeatpumps.HeatpumpDb.List | myems-api/core/microgridheatpump.py:20-89 | Every row is listed once, in increasing id order, with its references resolved. |
| MicrogridHeatpumps.CreateThenFind | myems-api/core/microgridheatpump.py:167-175 | A created row is found by its id, and creating its name again in its microgrid is refused. |
| MicrogridHeatpumps.DeleteFreesName | myems-api/core/microgridheatpump.py:342-344 | Deleting a row frees its name in its microgrid and keeps every other row. |

## Left out

- The outer `while True` loop of the aggregator, its `time.sleep`, `print` and logger calls. `Cycle` is one pass of that loop.
- Connection set-up: opening and closing the three databases is reduced to a `Setup` value saying which steps succeeded.
- The microgrid list query: the list is that `Setup` value, in id order.
- `get_energy_category_factor` is not part of this model. It is the parameter `Env.factorOf`, returning a Decimal, null or anything else.
- Decimal arithmetic: `Decimal * Decimal` rounds to the context's precision, so it is the parameter `Env.mul` and is not taken to be exact multiplication of reals.
- Database failures are parameters (`Faults`): the cursor query, the energy query and the insert of each microgrid can raise.
- `strptime` of the configured epoch is a parameter that either gives a time or fails (`Config.epoch`).
- Text formatting: `datetime.isoformat()` and `str(Decimal)` are parameters of the statement builder. Only the 19-character cut and the tuple layout are modelled.
- `uuid.uuid4()`, `datetime.utcnow()` and the local-time `isoformat` of a clone's name are parameters. Each `datetime.now()` of the point listing is a reading of the parameter `clock`, taken in the source's order. Nothing is assumed about how readings relate to each other.
- The JSON decoding of a request and a failed read of the request stream (`FAILED_TO_READ_REQUEST_STREAM`) are not modelled.
- A body without a `data` object raises before any check. It is not modelled: the checks start from the decoded `data` object.
- The `admin_control`, `access_control` and `user_logger` decorators are not modelled.
- `resp.location` and the other HTTP response fields are not modelled. The handlers return the new or affected id, or an `ApiError`.
- Floats: `float(capacity)` is the number the check accepts, as a real. `float(row[8])` (the point ratio in the point listing) and `Decimal(row[8])` in clone keep the stored column value unchanged.
- MySQL collation: name comparisons are exact. MySQL's default collation compares names case-insensitively and ignores trailing spaces, which is not modelled.
- Auto-increment: a rolled-back import restores the id counter. MySQL would keep it advanced, which only changes which ids later rows get.
- PyText.IntOfText: `int()` also accepts Unicode decimal digits of any script (`int("٠٨") == 8`) and single underscores between digits. The model accepts ASCII digits only. An underscore needs three characters, but Unicode digits also reach the two-character fields of DataSources.ParseUtcOffset, so an offset written in, say, Arabic-Indic digits parses in the source and is refused in the model.
- `str.isdigit()` also holds for other Unicode digits. The path-id check accepts ASCII digits only.
- The data-source collection and item reads, and the export handler, only format rows. Only the reads the freshness rule and the heat-pump views need are modelled.
- The gateway and meter lookups that the reads build into dicts are map lookups on the in-memory tables.
- Concurrency between requests and between aggregator runs is not modelled. Each handler and each cycle runs alone.
- Data-source name uniqueness is not an invariant of `SystemDb`: update makes no name check, so a rename can repeat another data source's name. `UpdateIgnoresNames` states this instead.
- DataSources.SystemDb.Delete: the meter named in the error is some meter bound to the data source. Which one MySQL's `LIMIT 1` picks is not stated.
- CarbonDischarge.RunCycle and CarbonDischarge.RunMicrogrid: the energy table's schema is not part of this model. Its starts are taken to be whole seconds, as the table's `DATETIME` column would hold them, so the rows the cycle derives are stored as derived. `CarbonTable.Insert` itself cuts any fraction of a second.
- DataSources.IsPointItem: column types are not modelled. MySQL refuses, for example, a text value in a numeric column in strict mode, and that refusal is not modelled. Only a list or an object, which the driver cannot bind at all, makes an import item unusable.

## Findings

| source | as written | input that shows it | evidently intended | confidence | as-written member | corrected member |
|---|---|---|---|---|---|---|
| myems-api/core/microgridheatpump.py:217-227 | The INSERT names seven columns and has seven placeholders, without `electricity_meter_id`, but eight values are passed. The driver refuses the statement, so no heat pump can ever be created. | Any request that passes every check, e.g. name `HP-1`, with existing microgrid, point and meters | Name all eight columns, so that the stored row holds each request field | not executed | MicrogridHeatpumps.InsertAsWrittenRaises | MicrogridHeatpumps.InsertBindsEveryColumn |
| myems-api/core/microgridheatpump.py:499-500 | The update passes `heat_meter_id` for both `heat_meter_id` and `cooling_meter_id`, so the cooling meter is overwritten with the heat meter. | An update naming heat meter 2 and cooling meter 3 stores cooling meter 2 | Pass `cooling_meter_id` for the cooling meter column | not executed | MicrogridHeatpumps.CoolingMeterOverwritten | MicrogridHeatpumps.UpdateReadsBack |
