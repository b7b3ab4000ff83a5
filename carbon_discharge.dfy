/**
 * The incremental carbon-discharge aggregator: one cycle of the batch job
 * that, microgrid by microgrid, resumes from the latest derived row, reads the
 * discharge energy recorded since then, multiplies it by the electricity
 * emission factor and appends the products to the carbon database.
 *
 * The two tables (both named `tbl_microgrid_discharge_hourly`, one in the
 * energy database and one in the carbon database) are sequences of rows in id
 * order. Database failures are parameters (`Faults`); the emission-factor
 * collaborator and Decimal multiplication are function parameters (`Env`).
 */
module CarbonDischarge {
  import opened Wrappers
  import opened PyText
  import opened Times
  import Tables

  /** The only energy category whose factor is resolved: 1, electricity. */
  const ElectricityCategory: int := 1

  /** A value read from a DECIMAL column or returned by the factor resolver. */
  datatype Value = Dec(amount: real) | Null | NotDecimal

  /** A row of the energy database's discharge table. */
  datatype EnergyRow = EnergyRow(microgridId: int, start: Time, value: Value)

  /** A row of the carbon database's discharge table, written by this job. */
  datatype CarbonRow = CarbonRow(microgridId: int, start: Time, value: real)

  /** A fetched `(start_datetime_utc, actual_value)` pair. */
  datatype Sample = Sample(start: Time, value: Value)

  /**
   * The job's configuration: the `start_datetime_utc` epoch (None when the
   * configured text does not parse as `%Y-%m-%d %H:%M:%S`) and the slot size
   * `minutes_to_count`.
   */
  datatype Config = Config(epoch: Option<Time>, minutesToCount: int)

  /** `get_energy_category_factor(category, start, end)`. */
  type FactorResolver = (int, Time, Time) -> Value

  /**
   * `Decimal * Decimal`: the product rounded to the Decimal context's
   * precision, so it is left as a parameter rather than taken to be `*` on reals.
   */
  type DecimalMul = (real, real) -> real

  /** The collaborators a cycle calls: the factor resolver and Decimal multiplication. */
  datatype Env = Env(factorOf: FactorResolver, mul: DecimalMul)

  /** The microgrids whose latest-start query, energy query or insert raises in this cycle. */
  datatype Faults = Faults(latestQueryFails: set<int>, energyQueryFails: set<int>, insertFails: set<int>)

  /** A Python dict keyed by time: keys keep their first insertion position. */
  datatype TimeDict<V> = TimeDict(order: seq<Time>, entries: map<Time, V>) {

    ghost predicate Valid() {
      && (forall i, j | 0 <= i < j < |order| :: order[i] != order[j])
      && (forall t :: t in entries <==> t in order)
    }

    /** `d[t] = v`. */
    function Put(t: Time, v: V): (d: TimeDict<V>)
      ensures d.entries == entries[t := v]
      ensures Valid() ==> d.Valid()
      ensures Valid() ==> d.order == if t in order then order else order + [t]
    {
      if t in entries then TimeDict(order, entries[t := v]) else TimeDict(order + [t], entries[t := v])
    }
  }

  // ---------------------------------------------------------------------------
  // Step 2: the resume cursor
  // ---------------------------------------------------------------------------

  /** `SELECT MAX(start_datetime_utc) ... WHERE microgrid_id = m`; None is SQL NULL. */
  function LatestStart(rows: seq<CarbonRow>, m: int): Option<Time> {
    if rows == [] then None
    else
      var p := LatestStart(rows[..|rows| - 1], m);
      var last := rows[|rows| - 1];
      if last.microgridId != m then p
      else if p.None? || p.value < last.start then Some(last.start)
      else p
  }

  /**
   * The latest start is null exactly when the microgrid has no row, and
   * otherwise the start of one of its rows and at least every other one.
   */
  lemma {:induction false} LatestStartIsMax(rows: seq<CarbonRow>, m: int)
    ensures LatestStart(rows, m).None? <==> forall i | 0 <= i < |rows| :: rows[i].microgridId != m
    ensures LatestStart(rows, m).Some? ==>
              exists i | 0 <= i < |rows| :: rows[i].microgridId == m && rows[i].start == LatestStart(rows, m).value
    ensures LatestStart(rows, m).Some? ==>
              forall i | 0 <= i < |rows| && rows[i].microgridId == m :: rows[i].start <= LatestStart(rows, m).value
  {
    if rows != [] {
      var p := rows[..|rows| - 1];
      LatestStartIsMax(p, m);
      assert forall i | 0 <= i < |p| :: p[i] == rows[i];
      if LatestStart(rows, m).Some? && LatestStart(rows, m) == LatestStart(p, m) {
        var i :| 0 <= i < |p| && p[i].microgridId == m && p[i].start == LatestStart(p, m).value;
        assert rows[i] == p[i];
      }
    }
  }

  /**
   * The cursor: the epoch floored to the hour when nothing was derived yet,
   * otherwise the latest derived start floored to the minute plus one slot.
   * The epoch is parsed first, so a malformed epoch fails even when a latest
   * start exists.
   */
  function ResolveCursor(latest: Option<Time>, cfg: Config): (r: Option<Time>)
    ensures r.None? <==> cfg.epoch.None?
    ensures r.Some? && latest.None? ==>
      r.value % HourUs == 0 && r.value <= cfg.epoch.value < r.value + HourUs
    ensures r.Some? && latest.Some? ==>
      r.value - cfg.minutesToCount * MinuteUs == FloorToMinute(latest.value)
    ensures r.Some? && latest.Some? && cfg.minutesToCount >= 1 ==> r.value > latest.value
  {
    if cfg.epoch.None? then None
    else if latest.None? then Some(FloorToHour(cfg.epoch.value))
    else Some(FloorToMinute(latest.value) + cfg.minutesToCount * MinuteUs)
  }

  // ---------------------------------------------------------------------------
  // Step 3: the window of energy samples and its end
  // ---------------------------------------------------------------------------

  /** `SELECT start_datetime_utc, actual_value ... WHERE microgrid_id = m AND start_datetime_utc >= cursor ORDER BY id`. */
  function Window(energy: seq<EnergyRow>, m: int, cursor: Time): (w: seq<Sample>)
    ensures forall i | 0 <= i < |w| :: w[i].start >= cursor
  {
    if energy == [] then []
    else
      var w := Window(energy[..|energy| - 1], m, cursor);
      var r := energy[|energy| - 1];
      if r.microgridId == m && r.start >= cursor then w + [Sample(r.start, r.value)] else w
  }

  /** The value of the last sample (in fetch order) at time `t`, if any. */
  function LastAt(w: seq<Sample>, t: Time): Option<Value> {
    if w == [] then None
    else if w[|w| - 1].start == t then Some(w[|w| - 1].value)
    else LastAt(w[..|w| - 1], t)
  }

  /** The value of the last energy row (in id order) of microgrid `m` at time `t`, if any. */
  function LastRowAt(energy: seq<EnergyRow>, m: int, t: Time): Option<Value> {
    if energy == [] then None
    else
      var r := energy[|energy| - 1];
      if r.microgridId == m && r.start == t then Some(r.value) else LastRowAt(energy[..|energy| - 1], m, t)
  }

  /** The energy dict built from a window: each time maps to the value of its last sample. */
  function Fold(w: seq<Sample>): (d: TimeDict<Value>)
    ensures d.Valid()
  {
    if w == [] then TimeDict([], map[])
    else Fold(w[..|w| - 1]).Put(w[|w| - 1].start, w[|w| - 1].value)
  }

  /** The window end: the cursor raised to every later sample time. */
  function WindowEnd(start: Time, w: seq<Sample>): (e: Time)
    ensures e >= start
    ensures forall i | 0 <= i < |w| :: w[i].start <= e
    ensures e == start || exists i | 0 <= i < |w| :: w[i].start == e
  {
    if w == [] then start
    else
      var p := WindowEnd(start, w[..|w| - 1]);
      assert forall i | 0 <= i < |w| - 1 :: w[..|w| - 1][i] == w[i];
      if w[|w| - 1].start > p then w[|w| - 1].start else p
  }

  // ---------------------------------------------------------------------------
  // Step 5: multiplying by the factor
  // ---------------------------------------------------------------------------

  /**
   * The carbon dict: for each key of the energy dict in order, energy times
   * factor when both are Decimals; anything else is skipped.
   */
  function Multiply(order: seq<Time>, entries: map<Time, Value>, factor: Value, mul: DecimalMul): (c: TimeDict<real>)
    requires forall t | t in order :: t in entries
    ensures c.Valid()
  {
    if order == [] then TimeDict([], map[])
    else
      var c := Multiply(order[..|order| - 1], entries, factor, mul);
      var t := order[|order| - 1];
      if factor.Dec? && entries[t].Dec? then c.Put(t, mul(entries[t].amount, factor.amount)) else c
  }

  /** The rows the insert adds: one per carbon entry, in dict order. */
  function Rows(m: int, carbon: TimeDict<real>): seq<CarbonRow>
    requires carbon.Valid()
    ensures forall i | 0 <= i < |Rows(m, carbon)| :: Rows(m, carbon)[i].microgridId == m
  {
    seq(|carbon.order|, i requires 0 <= i < |carbon.order| =>
      var t := carbon.order[i];
      assert t in carbon.order;
      CarbonRow(m, t, carbon.entries[t]))
  }

  // ---------------------------------------------------------------------------
  // Step 6: the INSERT statement
  // ---------------------------------------------------------------------------

  const InsertHeader: string :=
    " INSERT INTO tbl_microgrid_discharge_hourly " + "             (microgrid_id, "
    + "              start_datetime_utc, " + "              actual_value) " + " VALUES  "

  /**
   * One value tuple `(id,'YYYY-MM-DDTHH:MM:SS',value)`: `isoFormat` stands for
   * `datetime.isoformat()` (cut to 19 characters) and `decimalText` for `str(Decimal)`.
   */
  function TupleText(r: CarbonRow, isoFormat: Time -> string, decimalText: real -> string): string {
    " (" + IntText(r.microgridId) + "," + "'" + Slice(isoFormat(r.start), 0, 19) + "'," + decimalText(r.value) + ")"
  }

  /** The tuples separated by `", "`, with no separator after the last one. */
  function JoinTuples(rows: seq<CarbonRow>, isoFormat: Time -> string, decimalText: real -> string): string {
    if rows == [] then ""
    else if |rows| == 1 then TupleText(rows[0], isoFormat, decimalText)
    else JoinTuples(rows[..|rows| - 1], isoFormat, decimalText) + ", " + TupleText(rows[|rows| - 1], isoFormat, decimalText)
  }

  /** The statement that inserts exactly `rows`. */
  function InsertStatement(rows: seq<CarbonRow>, isoFormat: Time -> string, decimalText: real -> string): string {
    InsertHeader + JoinTuples(rows, isoFormat, decimalText)
  }

  // ---------------------------------------------------------------------------
  // One microgrid, one cycle
  // ---------------------------------------------------------------------------

  /** Why a cycle stopped early (the source's `break`s). */
  datatype Abort = LatestQueryFailed | EpochInvalid | InsertFailed

  datatype StepOutcome = Continue | Stop(reason: Abort) | Crash

  /** What processing one microgrid did: its outcome, the factor lookup range (if looked up) and the rows added. */
  datatype Step = Step(outcome: StepOutcome, factorRange: Option<(Time, Time)>, inserted: seq<CarbonRow>)

  /** The factor looked up for a window read from `cursor`: category 1 over `[cursor, end]`. */
  function WindowFactor(m: int, cursor: Time, energy: seq<EnergyRow>, env: Env): Value {
    env.factorOf(ElectricityCategory, cursor, WindowEnd(cursor, Window(energy, m, cursor)))
  }

  /** The carbon dict derived from the window read from `cursor`. */
  function Derived(m: int, cursor: Time, energy: seq<EnergyRow>, env: Env): (c: TimeDict<real>)
    ensures c.Valid()
  {
    var d := Fold(Window(energy, m, cursor));
    Multiply(d.order, d.entries, WindowFactor(m, cursor, energy, env), env.mul)
  }

  /** Steps 2 to 6 for microgrid `m`, given the latest derived start of `m`. */
  function ProcessMicrogrid(m: int, latest: Option<Time>, energy: seq<EnergyRow>, cfg: Config,
                            env: Env, faults: Faults): (s: Step)
    ensures s.outcome != Continue ==> s.inserted == []
    ensures forall i | 0 <= i < |s.inserted| :: s.inserted[i].microgridId == m
  {
    if m in faults.latestQueryFails then Step(Stop(LatestQueryFailed), None, [])
    else if ResolveCursor(latest, cfg).None? then Step(Stop(EpochInvalid), None, [])
    else if m in faults.energyQueryFails then Step(Crash, None, [])
    else ProcessWindow(m, ResolveCursor(latest, cfg).value, energy, env, m in faults.insertFails)
  }

  /** Steps 3 (once its query returned) to 6 for microgrid `m`, from `cursor`. */
  function ProcessWindow(m: int, cursor: Time, energy: seq<EnergyRow>, env: Env, insertFails: bool): (s: Step)
    ensures s.outcome != Continue ==> s.inserted == []
    ensures forall i | 0 <= i < |s.inserted| :: s.inserted[i].microgridId == m
  {
    var w := Window(energy, m, cursor);
    if w == [] then Step(Continue, None, [])
    else
      var range := Some((cursor, WindowEnd(cursor, w)));
      var carbon := Derived(m, cursor, energy, env);
      if carbon.order == [] then Step(Continue, range, [])
      else if insertFails then Step(Stop(InsertFailed), range, [])
      else Step(Continue, range, Rows(m, carbon))
  }

  /** How a cycle ended. */
  datatype CycleOutcome =
    | SetupFailed
    | NoMicrogrids
    | Completed
    | Aborted(microgridId: int, reason: Abort)
    | Crashed(microgridId: int)

  /**
   * The microgrid loop: microgrids in id order, each one seeing the rows the
   * earlier ones added; a `Stop` or `Crash` ends the loop. Rows are only ever
   * appended, and only for microgrids of the list.
   */
  function RunMicrogrids(ms: seq<int>, rows: seq<CarbonRow>, energy: seq<EnergyRow>, cfg: Config,
                         env: Env, faults: Faults): (r: (CycleOutcome, seq<CarbonRow>))
    ensures |r.1| >= |rows| && r.1[..|rows|] == rows
    ensures forall i | |rows| <= i < |r.1| :: r.1[i].microgridId in ms
    ensures r.0 != SetupFailed && r.0 != NoMicrogrids
  {
    if ms == [] then (Completed, rows)
    else
      var s := ProcessMicrogrid(ms[0], LatestStart(rows, ms[0]), energy, cfg, env, faults);
      match s.outcome
      case Continue =>
        var r := RunMicrogrids(ms[1..], rows + s.inserted, energy, cfg, env, faults);
        ExtendsThrough(ms, rows, s.inserted, r.1);
        r
      case Stop(reason) => (Aborted(ms[0], reason), rows)
      case Crash => (Crashed(ms[0]), rows)
  }

  /** Rows of `ms[0]` followed by rows of `ms[1..]` are rows of `ms`, and the prefix survives. */
  lemma ExtendsThrough(ms: seq<int>, rows: seq<CarbonRow>, ins: seq<CarbonRow>, out: seq<CarbonRow>)
    requires ms != [] && forall i | 0 <= i < |ins| :: ins[i].microgridId == ms[0]
    requires |out| >= |rows + ins| && out[..|rows + ins|] == rows + ins
    requires forall i | |rows + ins| <= i < |out| :: out[i].microgridId in ms[1..]
    ensures |out| >= |rows| && out[..|rows|] == rows
    ensures forall i | |rows| <= i < |out| :: out[i].microgridId in ms
  {
    assert out[..|rows|] == (rows + ins)[..|rows|] == rows;
    forall i | |rows| <= i < |out|
      ensures out[i].microgridId in ms
    {
      if i < |rows + ins| {
        assert out[i] == (rows + ins)[i] == ins[i - |rows|];
      } else {
        assert out[i].microgridId in ms[1..];
      }
    }
  }

  /** The connections and the microgrid list that step 1 obtains (None: the list query raised). */
  datatype Setup = Setup(systemDbUp: bool, microgrids: Option<seq<int>>, energyDbUp: bool, carbonDbUp: bool)

  /** One pass of the outer `while True` loop, without its sleeps. */
  function Cycle(setup: Setup, rows: seq<CarbonRow>, energy: seq<EnergyRow>, cfg: Config,
                 env: Env, faults: Faults): (r: (CycleOutcome, seq<CarbonRow>))
  {
    if !setup.systemDbUp || setup.microgrids.None? then (SetupFailed, rows)
    else if setup.microgrids.value == [] then (NoMicrogrids, rows)
    else if !setup.energyDbUp || !setup.carbonDbUp then (SetupFailed, rows)
    else RunMicrogrids(setup.microgrids.value, rows, energy, cfg, env, faults)
  }

  // ---------------------------------------------------------------------------
  // Properties of the stages
  // ---------------------------------------------------------------------------

  /** When a window repeats a time, the later sample (in id order) is the one kept. */
  lemma {:induction false} FoldKeepsLastSample(w: seq<Sample>, t: Time)
    ensures t in Fold(w).entries <==> LastAt(w, t).Some?
    ensures t in Fold(w).entries ==> Fold(w).entries[t] == LastAt(w, t).value
  {
    if w != [] {
      FoldKeepsLastSample(w[..|w| - 1], t);
    }
  }

  /**
   * Reading the window from a cursor keeps, for every time at or after the
   * cursor, exactly the last energy row of the microgrid at that time.
   */
  lemma {:induction false} WindowLastAt(energy: seq<EnergyRow>, m: int, cursor: Time, t: Time)
    ensures LastAt(Window(energy, m, cursor), t) == if t >= cursor then LastRowAt(energy, m, t) else None
  {
    if energy != [] {
      var p := energy[..|energy| - 1];
      var r := energy[|energy| - 1];
      var w := Window(p, m, cursor);
      WindowLastAt(p, m, cursor, t);
      assert LastRowAt(energy, m, t) == if r.microgridId == m && r.start == t then Some(r.value) else LastRowAt(p, m, t);
      if r.microgridId == m && r.start >= cursor {
        var w' := w + [Sample(r.start, r.value)];
        assert Window(energy, m, cursor) == w';
        assert w'[..|w'| - 1] == w;
        assert LastAt(w', t) == if r.start == t then Some(r.value) else LastAt(w, t);
      } else {
        assert Window(energy, m, cursor) == w;
      }
    }
  }

  /**
   * A carbon entry exists exactly for the energy entries holding a Decimal
   * when the factor is a Decimal, and it is their product.
   */
  lemma {:induction false} MultiplyEntries(order: seq<Time>, entries: map<Time, Value>, factor: Value, mul: DecimalMul, t: Time)
    requires forall x | x in order :: x in entries
    ensures t in Multiply(order, entries, factor, mul).entries <==>
              t in order && factor.Dec? && entries[t].Dec?
    ensures t in Multiply(order, entries, factor, mul).entries ==>
              Multiply(order, entries, factor, mul).entries[t] == mul(entries[t].amount, factor.amount)
  {
    if order != [] {
      MultiplyEntries(order[..|order| - 1], entries, factor, mul, t);
      assert order == order[..|order| - 1] + [order[|order| - 1]];
    }
  }

  /** The rows a carbon dict turns into are exactly its entries. */
  lemma RowsOfCarbon(m: int, carbon: TimeDict<real>, t: Time)
    requires carbon.Valid()
    ensures t in carbon.entries <==> exists i | 0 <= i < |Rows(m, carbon)| :: Rows(m, carbon)[i].start == t
    ensures forall i | 0 <= i < |Rows(m, carbon)| :: Rows(m, carbon)[i].value == carbon.entries[Rows(m, carbon)[i].start]
  {
    if t in carbon.entries {
      var i :| 0 <= i < |carbon.order| && carbon.order[i] == t;
      assert Rows(m, carbon)[i].start == t;
    }
  }

  /** Rows of other microgrids do not move a microgrid's latest start. */
  lemma {:induction false} LatestStartIgnoresOthers(rows: seq<CarbonRow>, extra: seq<CarbonRow>, m: int)
    requires forall i | 0 <= i < |extra| :: extra[i].microgridId != m
    ensures LatestStart(rows + extra, m) == LatestStart(rows, m)
  {
    if extra != [] {
      var e' := extra[..|extra| - 1];
      assert forall i | 0 <= i < |e'| :: e'[i] == extra[i];
      LatestStartIgnoresOthers(rows, e', m);
      var all := rows + extra;
      assert all[..|all| - 1] == rows + e';
      assert all[|all| - 1] == extra[|extra| - 1];
      assert all[|all| - 1].microgridId != m;
      assert LatestStart(all, m) == LatestStart(all[..|all| - 1], m);
    } else {
      assert rows + extra == rows;
    }
  }

  /**
   * The derived dict holds an entry exactly for the times at or after the
   * cursor whose last energy row of the microgrid is a Decimal, provided the
   * factor is a Decimal; the entry is that energy times the factor.
   */
  lemma DerivedAt(m: int, cursor: Time, energy: seq<EnergyRow>, env: Env, t: Time)
    ensures var f := WindowFactor(m, cursor, energy, env);
            var e := LastRowAt(energy, m, t);
            t in Derived(m, cursor, energy, env).entries <==> t >= cursor && e.Some? && e.value.Dec? && f.Dec?
  {
    var w := Window(energy, m, cursor);
    var d := Fold(w);
    var f := WindowFactor(m, cursor, energy, env);
    assert forall x | x in d.order :: x in d.entries;
    MultiplyEntries(d.order, d.entries, f, env.mul, t);
    FoldKeepsLastSample(w, t);
    WindowLastAt(energy, m, cursor, t);
  }

  /** ... and the entry is that energy times the factor. */
  lemma DerivedValue(m: int, cursor: Time, energy: seq<EnergyRow>, env: Env, t: Time)
    requires t in Derived(m, cursor, energy, env).entries
    ensures LastRowAt(energy, m, t).Some? && LastRowAt(energy, m, t).value.Dec?
    ensures WindowFactor(m, cursor, energy, env).Dec?
    ensures Derived(m, cursor, energy, env).entries[t]
              == env.mul(LastRowAt(energy, m, t).value.amount, WindowFactor(m, cursor, energy, env).amount)
  {
    var w := Window(energy, m, cursor);
    var d := Fold(w);
    var f := WindowFactor(m, cursor, energy, env);
    assert forall x | x in d.order :: x in d.entries;
    MultiplyEntries(d.order, d.entries, f, env.mul, t);
    FoldKeepsLastSample(w, t);
    WindowLastAt(energy, m, cursor, t);
  }

  /** A microgrid that inserts anything had a cursor, looked its factor up, and inserts the rows of its carbon dict. */
  lemma InsertedRows(m: int, latest: Option<Time>, energy: seq<EnergyRow>, cfg: Config, env: Env, faults: Faults)
    requires ProcessMicrogrid(m, latest, energy, cfg, env, faults).inserted != []
    ensures ResolveCursor(latest, cfg).Some?
    ensures var cursor := ResolveCursor(latest, cfg).value;
            var s := ProcessMicrogrid(m, latest, energy, cfg, env, faults);
            && s.factorRange == Some((cursor, WindowEnd(cursor, Window(energy, m, cursor))))
            && s.inserted == Rows(m, Derived(m, cursor, energy, env))
  {
    var cursor := ResolveCursor(latest, cfg).value;
    assert ProcessMicrogrid(m, latest, energy, cfg, env, faults)
        == ProcessWindow(m, cursor, energy, env, m in faults.insertFails);
  }

  /**
   * Every inserted row is the last energy row of the microgrid at that time
   * (at or after the cursor) times the Decimal factor looked up for the window.
   */
  lemma DerivedValuesAreProducts(m: int, latest: Option<Time>, energy: seq<EnergyRow>, cfg: Config,
                                 env: Env, faults: Faults, i: nat)
    requires i < |ProcessMicrogrid(m, latest, energy, cfg, env, faults).inserted|
    ensures var row := ProcessMicrogrid(m, latest, energy, cfg, env, faults).inserted[i];
            var cursor := ResolveCursor(latest, cfg).value;
            var f := WindowFactor(m, cursor, energy, env);
            && ResolveCursor(latest, cfg).Some?
            && ProcessMicrogrid(m, latest, energy, cfg, env, faults).factorRange
                 == Some((cursor, WindowEnd(cursor, Window(energy, m, cursor))))
            && f.Dec?
            && row.start >= cursor
            && LastRowAt(energy, m, row.start).Some?
            && LastRowAt(energy, m, row.start).value.Dec?
            && row.value == env.mul(LastRowAt(energy, m, row.start).value.amount, f.amount)
  {
    InsertedRows(m, latest, energy, cfg, env, faults);
    var cursor := ResolveCursor(latest, cfg).value;
    var carbon := Derived(m, cursor, energy, env);
    var ins := Rows(m, carbon);
    var t := ins[i].start;
    RowsOfCarbon(m, carbon, t);
    assert t in carbon.entries;
    assert ins[i].value == carbon.entries[t];
    DerivedAt(m, cursor, energy, env, t);
    DerivedValue(m, cursor, energy, env, t);
  }

  /** The starts of the inserted rows are exactly the keys of the derived dict. */
  lemma InsertedStarts(m: int, latest: Option<Time>, energy: seq<EnergyRow>, cfg: Config,
                       env: Env, faults: Faults, t: Time)
    requires ProcessMicrogrid(m, latest, energy, cfg, env, faults).inserted != []
    ensures ResolveCursor(latest, cfg).Some?
    ensures var ins := ProcessMicrogrid(m, latest, energy, cfg, env, faults).inserted;
            (exists i | 0 <= i < |ins| :: ins[i].start == t) <==>
              t in Derived(m, ResolveCursor(latest, cfg).value, energy, env).entries
  {
    InsertedRows(m, latest, energy, cfg, env, faults);
    RowsOfCarbon(m, Derived(m, ResolveCursor(latest, cfg).value, energy, env), t);
  }

  lemma {:induction false} LastRowAtIsARow(energy: seq<EnergyRow>, m: int, t: Time)
    requires LastRowAt(energy, m, t).Some?
    ensures exists i | 0 <= i < |energy| :: energy[i].microgridId == m && energy[i].start == t
  {
    var p := energy[..|energy| - 1];
    var r := energy[|energy| - 1];
    if !(r.microgridId == m && r.start == t) {
      LastRowAtIsARow(p, m, t);
      var i :| 0 <= i < |p| && p[i].microgridId == m && p[i].start == t;
      assert energy[i] == p[i];
    }
  }

  /**
   * With no energy row of the microgrid at or after the cursor, the
   * microgrid is skipped: no factor lookup, no insert, and the loop goes on.
   */
  lemma EmptyWindowSkips(m: int, latest: Option<Time>, energy: seq<EnergyRow>, cfg: Config,
                         env: Env, faults: Faults)
    requires m !in faults.latestQueryFails && m !in faults.energyQueryFails
    requires ResolveCursor(latest, cfg).Some?
    requires forall i | 0 <= i < |energy| :: energy[i].microgridId == m ==> energy[i].start < ResolveCursor(latest, cfg).value
    ensures ProcessMicrogrid(m, latest, energy, cfg, env, faults) == Step(Continue, None, [])
  {
    var cursor := ResolveCursor(latest, cfg).value;
    var w := Window(energy, m, cursor);
    if w != [] {
      var t := w[|w| - 1].start;
      WindowLastAt(energy, m, cursor, t);
      assert LastAt(w, t).Some?;
      LastRowAtIsARow(energy, m, t);
    }
  }

  /** A non-Decimal factor (a failed lookup gives None) derives nothing for the microgrid. */
  lemma NonDecimalFactorDerivesNothing(m: int, latest: Option<Time>, energy: seq<EnergyRow>, cfg: Config,
                                       env: Env, faults: Faults)
    requires ProcessMicrogrid(m, latest, energy, cfg, env, faults).factorRange.Some?
    requires var range := ProcessMicrogrid(m, latest, energy, cfg, env, faults).factorRange.value;
             !env.factorOf(ElectricityCategory, range.0, range.1).Dec?
    ensures ProcessMicrogrid(m, latest, energy, cfg, env, faults) ==
              Step(Continue, ProcessMicrogrid(m, latest, energy, cfg, env, faults).factorRange, [])
  {
    var cursor := ResolveCursor(latest, cfg).value;
    assert ProcessMicrogrid(m, latest, energy, cfg, env, faults)
        == ProcessWindow(m, cursor, energy, env, m in faults.insertFails);
    assert Window(energy, m, cursor) != [];
    assert !WindowFactor(m, cursor, energy, env).Dec?;
    var carbon := Derived(m, cursor, energy, env);
    if carbon.order != [] {
      DerivedAt(m, cursor, energy, env, carbon.order[0]);
      assert false;
    }
  }

  // ---------------------------------------------------------------------------
  // Properties of a cycle
  // ---------------------------------------------------------------------------

  /**
   * A run that inserted rows leaves a latest start at or after its cursor,
   * had a Decimal factor, and every time it derived is at or before that
   * latest start.
   */
  lemma FirstRunBound(m: int, rows: seq<CarbonRow>, energy: seq<EnergyRow>, cfg: Config,
                      env: Env, faults: Faults, t: Time)
    requires ProcessMicrogrid(m, LatestStart(rows, m), energy, cfg, env, faults).inserted != []
    ensures ResolveCursor(LatestStart(rows, m), cfg).Some?
    ensures var c1 := ResolveCursor(LatestStart(rows, m), cfg).value;
            var latest' := LatestStart(rows + ProcessMicrogrid(m, LatestStart(rows, m), energy, cfg, env, faults).inserted, m);
            && latest'.Some? && c1 <= latest'.value
            && WindowFactor(m, c1, energy, env).Dec?
            && (t in Derived(m, c1, energy, env).entries ==> t <= latest'.value)
  {
    var latest := LatestStart(rows, m);
    var ins := ProcessMicrogrid(m, latest, energy, cfg, env, faults).inserted;
    var rows' := rows + ins;
    InsertedRows(m, latest, energy, cfg, env, faults);
    var c1 := ResolveCursor(latest, cfg).value;
    var t0 := ins[0].start;
    InsertedStarts(m, latest, energy, cfg, env, faults, t0);
    DerivedAt(m, c1, energy, env, t0);
    assert rows'[|rows|] == ins[0];
    LatestStartIsMax(rows', m);
    if t in Derived(m, c1, energy, env).entries {
      InsertedStarts(m, latest, energy, cfg, env, faults, t);
      var i :| 0 <= i < |ins| && ins[i].start == t;
      assert rows'[|rows| + i] == ins[i];
    }
  }

  /** A run from a latest start only derives times past it, each with a Decimal energy row. */
  lemma RunPastLatest(m: int, latest: Option<Time>, energy: seq<EnergyRow>, cfg: Config, env: Env, faults: Faults)
    requires cfg.minutesToCount >= 1 && latest.Some?
    requires ProcessMicrogrid(m, latest, energy, cfg, env, faults).inserted != []
    ensures var t := ProcessMicrogrid(m, latest, energy, cfg, env, faults).inserted[0].start;
            && t > latest.value
            && LastRowAt(energy, m, t).Some? && LastRowAt(energy, m, t).value.Dec?
  {
    var t := ProcessMicrogrid(m, latest, energy, cfg, env, faults).inserted[0].start;
    InsertedStarts(m, latest, energy, cfg, env, faults, t);
    DerivedAt(m, ResolveCursor(latest, cfg).value, energy, env, t);
  }

  /**
   * Re-running a microgrid right after it was processed adds nothing: its
   * next cursor lies past every start it wrote, and every later time was
   * already seen and yielded no row (whatever factor the new window gets).
   */
  lemma RerunAddsNothing(m: int, rows: seq<CarbonRow>, energy: seq<EnergyRow>, cfg: Config,
                         env: Env, faults: Faults, faults': Faults)
    requires cfg.minutesToCount >= 1
    requires ProcessMicrogrid(m, LatestStart(rows, m), energy, cfg, env, faults).outcome == Continue
    ensures var rows' := rows + ProcessMicrogrid(m, LatestStart(rows, m), energy, cfg, env, faults).inserted;
            ProcessMicrogrid(m, LatestStart(rows', m), energy, cfg, env, faults').inserted == []
  {
    var ins := ProcessMicrogrid(m, LatestStart(rows, m), energy, cfg, env, faults).inserted;
    var rows' := rows + ins;
    var latest' := LatestStart(rows', m);
    var ins' := ProcessMicrogrid(m, latest', energy, cfg, env, faults').inserted;
    if ins == [] {
      assert rows' == rows;
    } else if ins' != [] {
      var t := ins'[0].start;
      FirstRunBound(m, rows, energy, cfg, env, faults, t);
      RunPastLatest(m, latest', energy, cfg, env, faults');
      // the first run saw `t` too, so it derived it, yet `t` lies past what it wrote
      DerivedAt(m, ResolveCursor(LatestStart(rows, m), cfg).value, energy, env, t);
      assert false;
    }
  }

  /** Rows appended for later microgrids of an increasing list leave the first one's latest start alone. */
  lemma LaterRowsOfOthers(ms: seq<int>, rows: seq<CarbonRow>, done: seq<CarbonRow>)
    requires ms != [] && Tables.Increasing(ms)
    requires |done| >= |rows| && done[..|rows|] == rows
    requires forall i | |rows| <= i < |done| :: done[i].microgridId in ms[1..]
    ensures LatestStart(done, ms[0]) == LatestStart(rows, ms[0])
  {
    var extra := done[|rows|..];
    assert done == rows + extra;
    forall i | 0 <= i < |extra| ensures extra[i].microgridId != ms[0] {
      assert extra[i] == done[|rows| + i];
      var k :| 0 <= k < |ms[1..]| && ms[1..][k] == extra[i].microgridId;
      assert ms[0] < ms[k + 1];
    }
    LatestStartIgnoresOthers(rows, extra, ms[0]);
  }

  /**
   * Generalised rerun: once a run over `ms` completed, a run over `ms` from
   * any table whose latest starts agree with the result adds nothing.
   */
  lemma {:induction false} RerunMicrogridsAddsNothing(ms: seq<int>, rows: seq<CarbonRow>, done: seq<CarbonRow>,
                                                      again: seq<CarbonRow>, energy: seq<EnergyRow>, cfg: Config,
                                                      env: Env, faults: Faults, faults': Faults)
    requires cfg.minutesToCount >= 1
    requires Tables.Increasing(ms)
    requires RunMicrogrids(ms, rows, energy, cfg, env, faults) == (Completed, done)
    requires forall m | m in ms :: LatestStart(again, m) == LatestStart(done, m)
    ensures RunMicrogrids(ms, again, energy, cfg, env, faults').1 == again
  {
    if ms != [] {
      var m := ms[0];
      var s := ProcessMicrogrid(m, LatestStart(rows, m), energy, cfg, env, faults);
      var rows' := rows + s.inserted;
      var r := RunMicrogrids(ms[1..], rows', energy, cfg, env, faults);
      assert r == (Completed, done);
      LaterRowsOfOthers(ms, rows', done);
      RerunAddsNothing(m, rows, energy, cfg, env, faults, faults');
      var s' := ProcessMicrogrid(m, LatestStart(again, m), energy, cfg, env, faults');
      assert s'.inserted == [];
      if s'.outcome == Continue {
        assert again + s'.inserted == again;
        forall m' | m' in ms[1..] ensures LatestStart(again, m') == LatestStart(done, m') {
        }
        RerunMicrogridsAddsNothing(ms[1..], rows', done, again, energy, cfg, env, faults, faults');
      }
    }
  }

  /**
   * Idempotent resumption: after a cycle that completed, a second cycle over
   * the same microgrids and the same energy data adds no row, whatever
   * connection or query failures the second cycle meets.
   */
  lemma IdempotentCycle(setup: Setup, setup': Setup, rows: seq<CarbonRow>, energy: seq<EnergyRow>, cfg: Config,
                        env: Env, faults: Faults, faults': Faults)
    requires cfg.minutesToCount >= 1
    requires setup.microgrids.Some? && Tables.Increasing(setup.microgrids.value)
    requires setup'.microgrids == setup.microgrids
    requires Cycle(setup, rows, energy, cfg, env, faults).0 == Completed
    ensures var done := Cycle(setup, rows, energy, cfg, env, faults).1;
            Cycle(setup', done, energy, cfg, env, faults').1 == done
  {
    var done := Cycle(setup, rows, energy, cfg, env, faults).1;
    var ms := setup.microgrids.value;
    RerunMicrogridsAddsNothing(ms, rows, done, done, energy, cfg, env, faults, faults');
  }

  /**
   * Fail-fast: when the latest-start query of the k-th microgrid fails, the
   * cycle stops there; the rows of the microgrids before it stay and no
   * later microgrid is processed.
   */
  lemma {:induction false} LatestQueryFailureStopsCycle(ms: seq<int>, k: nat, rows: seq<CarbonRow>, done: seq<CarbonRow>,
                                                       energy: seq<EnergyRow>, cfg: Config,
                                                       env: Env, faults: Faults)
    requires k < |ms|
    requires ms[k] in faults.latestQueryFails
    requires RunMicrogrids(ms[..k], rows, energy, cfg, env, faults) == (Completed, done)
    ensures RunMicrogrids(ms, rows, energy, cfg, env, faults) == (Aborted(ms[k], LatestQueryFailed), done)
  {
    if k == 0 {
      assert RunMicrogrids(ms[..0], rows, energy, cfg, env, faults) == (Completed, rows);
    } else {
      var m := ms[0];
      var s := ProcessMicrogrid(m, LatestStart(rows, m), energy, cfg, env, faults);
      assert ms[..k][0] == m && ms[..k][1..] == ms[1..][..k - 1];
      assert s.outcome == Continue;
      LatestQueryFailureStopsCycle(ms[1..], k - 1, rows + s.inserted, done, energy, cfg, env, faults);
    }
  }

  /**
   * An insert failure likewise stops the cycle at that microgrid and adds
   * nothing for it: the one statement is never committed.
   */
  lemma {:induction false} InsertFailureStopsCycle(ms: seq<int>, k: nat, rows: seq<CarbonRow>, done: seq<CarbonRow>,
                                                  energy: seq<EnergyRow>, cfg: Config,
                                                  env: Env, faults: Faults)
    requires k < |ms|
    requires RunMicrogrids(ms[..k], rows, energy, cfg, env, faults) == (Completed, done)
    requires ProcessMicrogrid(ms[k], LatestStart(done, ms[k]), energy, cfg, env, faults).outcome == Stop(InsertFailed)
    ensures RunMicrogrids(ms, rows, energy, cfg, env, faults) == (Aborted(ms[k], InsertFailed), done)
  {
    if k == 0 {
      assert RunMicrogrids(ms[..0], rows, energy, cfg, env, faults) == (Completed, rows);
    } else {
      var m := ms[0];
      var s := ProcessMicrogrid(m, LatestStart(rows, m), energy, cfg, env, faults);
      assert ms[..k][0] == m && ms[..k][1..] == ms[1..][..k - 1];
      assert s.outcome == Continue;
      InsertFailureStopsCycle(ms[1..], k - 1, rows + s.inserted, done, energy, cfg, env, faults);
    }
  }

  // ---------------------------------------------------------------------------
  // The job itself, step by step
  // ---------------------------------------------------------------------------

  /** Step 3's loop: builds the energy dict and raises the window end. */
  method Accumulate(start: Time, window: seq<Sample>) returns (energy: TimeDict<Value>, end: Time)
    ensures energy == Fold(window) && end == WindowEnd(start, window)
    ensures energy.Valid()
  {
    energy := TimeDict([], map[]);
    end := start;
    for i := 0 to |window|
      invariant energy == Fold(window[..i])
      invariant end == WindowEnd(start, window[..i])
    {
      assert window[..i + 1][..i] == window[..i];
      var sample := window[i];
      energy := energy.Put(sample.start, sample.value);
      if sample.start > end {
        end := sample.start;
      }
    }
    assert window[..|window|] == window;
  }

  /** Step 5's loop: multiplies each energy value by the factor when both are Decimals. */
  method ComputeCarbon(energy: TimeDict<Value>, factor: Value, mul: DecimalMul) returns (carbon: TimeDict<real>)
    requires energy.Valid()
    ensures carbon == Multiply(energy.order, energy.entries, factor, mul)
  {
    carbon := TimeDict([], map[]);
    if |energy.order| > 0 {
      for i := 0 to |energy.order|
        invariant carbon == Multiply(energy.order[..i], energy.entries, factor, mul)
      {
        assert energy.order[..i + 1][..i] == energy.order[..i];
        var t := energy.order[i];
        assert t in energy.order;
        var value := energy.entries[t];
        if factor.Dec? && value.Dec? {
          carbon := carbon.Put(t, mul(value.amount, factor.amount));
        }
      }
      assert energy.order[..|energy.order|] == energy.order;
    }
  }

  /** The tuples, each followed by `", "`: what the loop of step 6 appends to the header. */
  function Listed(rows: seq<CarbonRow>, isoFormat: Time -> string, decimalText: real -> string): string {
    if rows == [] then ""
    else Listed(rows[..|rows| - 1], isoFormat, decimalText) + (TupleText(rows[|rows| - 1], isoFormat, decimalText) + ", ")
  }

  /** Dropping the final separator from the listed tuples leaves them joined by `", "`. */
  lemma {:induction false} ListedIsJoined(rows: seq<CarbonRow>, isoFormat: Time -> string, decimalText: real -> string)
    requires rows != []
    ensures Listed(rows, isoFormat, decimalText) == JoinTuples(rows, isoFormat, decimalText) + ", "
  {
    if |rows| > 1 {
      ListedIsJoined(rows[..|rows| - 1], isoFormat, decimalText);
    }
  }

  /** The three appends of one loop turn add one tuple and its separator. */
  lemma AppendTuple(prefix: string, listed: string, id: string, iso: string, dec: string)
    ensures prefix + listed + " (" + id + "," + "'" + iso + "'," + dec + "), "
            == prefix + (listed + ((" (" + id + "," + "'" + iso + "'," + dec + ")") + ", "))
  {
    assert "), " == ")" + ", ";
  }

  /** One more row lists one more tuple. */
  lemma ListedStep(rows: seq<CarbonRow>, i: nat, isoFormat: Time -> string, decimalText: real -> string)
    requires i < |rows|
    ensures Listed(rows[..i + 1], isoFormat, decimalText)
            == Listed(rows[..i], isoFormat, decimalText) + (TupleText(rows[i], isoFormat, decimalText) + ", ")
  {
    assert rows[..i + 1][..i] == rows[..i];
  }

  /** Cutting the last two characters drops the final separator. */
  lemma TrimSeparator(prefix: string, rows: seq<CarbonRow>, isoFormat: Time -> string, decimalText: real -> string)
    requires rows != []
    ensures |prefix + Listed(rows, isoFormat, decimalText)| >= 2
    ensures (prefix + Listed(rows, isoFormat, decimalText))[..|prefix + Listed(rows, isoFormat, decimalText)| - 2]
            == prefix + JoinTuples(rows, isoFormat, decimalText)
  {
    ListedIsJoined(rows, isoFormat, decimalText);
    var joined := JoinTuples(rows, isoFormat, decimalText);
    assert prefix + Listed(rows, isoFormat, decimalText) == (prefix + joined) + ", ";
  }

  /**
   * Step 6's string building: the header, then each tuple followed by
   * `", "`, and finally the last two characters cut off. The result is the
   * statement that lists exactly the carbon rows, in dict order.
   */
  method BuildInsert(m: int, carbon: TimeDict<real>, isoFormat: Time -> string, decimalText: real -> string)
    returns (sql: string)
    requires carbon.Valid() && carbon.order != []
    ensures sql == InsertStatement(Rows(m, carbon), isoFormat, decimalText)
  {
    var rows := Rows(m, carbon);
    var header := InsertHeader;
    sql := header;
    for i := 0 to |carbon.order|
      invariant sql == header + Listed(rows[..i], isoFormat, decimalText)
    {
      var t := carbon.order[i];
      assert t in carbon.order;
      var value := carbon.entries[t];
      AppendTuple(header, Listed(rows[..i], isoFormat, decimalText), IntText(m), Slice(isoFormat(t), 0, 19), decimalText(value));
      sql := sql + " (" + IntText(m) + ",";
      sql := sql + "'" + Slice(isoFormat(t), 0, 19) + "',";
      sql := sql + decimalText(value) + "), ";
      assert rows[i] == CarbonRow(m, t, value);
      ListedStep(rows, i, isoFormat, decimalText);
    }
    assert rows[..|rows|] == rows;
    TrimSeparator(header, rows, isoFormat, decimalText);
    sql := sql[..|sql| - 2];
  }

  /** The rows a `DATETIME` column keeps of a batch: each start cut to whole seconds. */
  function Stored(batch: seq<CarbonRow>): (r: seq<CarbonRow>)
    ensures |r| == |batch|
  {
    seq(|batch|, i requires 0 <= i < |batch| => batch[i].(start := FloorToSecond(batch[i].start)))
  }

  /** Every energy start is whole seconds, as a `DATETIME` column holds it. */
  predicate WholeSeconds(energy: seq<EnergyRow>) {
    forall i | 0 <= i < |energy| :: energy[i].start % SecondUs == 0
  }

  /** Storing changes a row only in the fraction of a second its start carries. */
  lemma StoredKeepsAllButFraction(batch: seq<CarbonRow>, i: int)
    requires 0 <= i < |batch|
    ensures Stored(batch)[i].microgridId == batch[i].microgridId && Stored(batch)[i].value == batch[i].value
    ensures Stored(batch)[i].start % SecondUs == 0
    ensures Stored(batch)[i].start <= batch[i].start < Stored(batch)[i].start + SecondUs
    ensures Stored(batch)[i] == batch[i] <==> batch[i].start % SecondUs == 0
  {
  }

  /** A batch derived from whole-second energy starts is stored as it is. */
  lemma DerivedStoredExactly(m: int, cursor: Time, energy: seq<EnergyRow>, env: Env)
    requires WholeSeconds(energy)
    ensures Stored(Rows(m, Derived(m, cursor, energy, env))) == Rows(m, Derived(m, cursor, energy, env))
  {
    var carbon := Derived(m, cursor, energy, env);
    var rows := Rows(m, carbon);
    forall i | 0 <= i < |rows|
      ensures Stored(rows)[i] == rows[i]
    {
      var t := rows[i].start;
      RowsOfCarbon(m, carbon, t);
      DerivedAt(m, cursor, energy, env, t);
      LastRowAtIsARow(energy, m, t);
      var k :| 0 <= k < |energy| && energy[k].microgridId == m && energy[k].start == t;
      StoredKeepsAllButFraction(rows, i);
    }
  }

  /** The carbon database's `tbl_microgrid_discharge_hourly`, rows in id order. */
  class CarbonTable {
    var rows: seq<CarbonRow>

    constructor (initial: seq<CarbonRow>)
      ensures rows == initial
    {
      rows := initial;
    }

    /**
     * Executing and committing an insert statement appends the rows it
     * lists, each start as the whole seconds its 19-character text spells.
     */
    method Insert(sql: string, batch: seq<CarbonRow>, isoFormat: Time -> string, decimalText: real -> string)
      requires sql == InsertStatement(batch, isoFormat, decimalText)
      modifies this
      ensures rows == old(rows) + Stored(batch)
    {
      rows := rows + Stored(batch);
    }
  }

  /**
   * One pass of the outer loop: the setup checks, then the microgrid loop
   * with its `continue`s and `break`s. Its outcome and the table it leaves
   * are those of `Cycle`.
   */
  method RunCycle(setup: Setup, table: CarbonTable, energy: seq<EnergyRow>, cfg: Config, env: Env,
                  faults: Faults, isoFormat: Time -> string, decimalText: real -> string)
    returns (outcome: CycleOutcome)
    requires WholeSeconds(energy)
    modifies table
    ensures (outcome, table.rows) == Cycle(setup, old(table.rows), energy, cfg, env, faults)
  {
    if !setup.systemDbUp || setup.microgrids.None? {
      return SetupFailed;
    }
    var ms := setup.microgrids.value;
    if ms == [] {
      return NoMicrogrids;
    }
    if !setup.energyDbUp || !setup.carbonDbUp {
      return SetupFailed;
    }
    outcome := Completed;
    var i := 0;
    while i < |ms|
      invariant 0 <= i <= |ms|
      invariant outcome == Completed
      invariant RunMicrogrids(ms, old(table.rows), energy, cfg, env, faults)
                  == RunMicrogrids(ms[i..], table.rows, energy, cfg, env, faults)
    {
      var m := ms[i];
      assert ms[i..][0] == m && ms[i..][1..] == ms[i + 1..];
      ghost var before := table.rows;
      var step := RunMicrogrid(m, table, energy, cfg, env, faults, isoFormat, decimalText);
      if step.Stop? {
        assert table.rows == before;
        assert RunMicrogrids(ms[i..], before, energy, cfg, env, faults) == (Aborted(m, step.reason), before);
        outcome := Aborted(m, step.reason);
        break;
      }
      if step.Crash? {
        assert table.rows == before;
        assert RunMicrogrids(ms[i..], before, energy, cfg, env, faults) == (Crashed(m), before);
        outcome := Crashed(m);
        break;
      }
      i := i + 1;
    }
    if i == |ms| {
      assert ms[i..] == [];
    }
  }

  /**
   * Steps 2 to 6 of the loop body for microgrid `m`: what it decides and
   * the rows it adds are those of `ProcessMicrogrid`.
   */
  method RunMicrogrid(m: int, table: CarbonTable, energy: seq<EnergyRow>, cfg: Config, env: Env,
                      faults: Faults, isoFormat: Time -> string, decimalText: real -> string)
    returns (step: StepOutcome)
    requires WholeSeconds(energy)
    modifies table
    ensures var s := ProcessMicrogrid(m, LatestStart(old(table.rows), m), energy, cfg, env, faults);
            step == s.outcome && table.rows == old(table.rows) + s.inserted
  {
    // step 2
    if m in faults.latestQueryFails {
      return Stop(LatestQueryFailed);
    }
    var cursor := ResolveCursor(LatestStart(table.rows, m), cfg);
    if cursor.None? {
      return Stop(EpochInvalid);
    }
    // step 3: this query is outside any try block
    if m in faults.energyQueryFails {
      return Crash;
    }
    var window := Window(energy, m, cursor.value);
    if window == [] {
      return Continue;
    }
    var energyDict, end := Accumulate(cursor.value, window);
    // step 4
    var factor := env.factorOf(ElectricityCategory, cursor.value, end);
    // step 5
    var carbon := ComputeCarbon(energyDict, factor, env.mul);
    assert carbon == Derived(m, cursor.value, energy, env);
    // step 6
    if carbon.order != [] {
      var sql := BuildInsert(m, carbon, isoFormat, decimalText);
      if m in faults.insertFails {
        return Stop(InsertFailed);
      }
      DerivedStoredExactly(m, cursor.value, energy, env);
      table.Insert(sql, Rows(m, carbon), isoFormat, decimalText);
    }
    return Continue;
  }

  // A first cycle over one microgrid with two hourly samples (10 and 20) and
  // a factor of 0.5, starting from the configured epoch.

  function ExampleEnergy(): seq<EnergyRow> {
    [EnergyRow(1, 0, Dec(10.0)), EnergyRow(1, HourUs, Dec(20.0))]
  }

  function ExampleEnv(): Env {
    Env((category: int, start: Time, end: Time) => Dec(0.5), (a: real, b: real) => a * b)
  }

  lemma ExampleWindow()
    ensures Window(ExampleEnergy(), 1, 0) == [Sample(0, Dec(10.0)), Sample(HourUs, Dec(20.0))]
  {
    var e1 := [EnergyRow(1, 0, Dec(10.0))];
    assert ExampleEnergy()[..1] == e1 && e1[..0] == [];
    assert Window(e1, 1, 0) == [Sample(0, Dec(10.0))];
  }

  lemma ExampleFold()
    ensures Fold([Sample(0, Dec(10.0)), Sample(HourUs, Dec(20.0))])
            == TimeDict([0, HourUs], map[0 := Dec(10.0), HourUs := Dec(20.0)])
  {
    var w := [Sample(0, Dec(10.0)), Sample(HourUs, Dec(20.0))];
    var w1 := [Sample(0, Dec(10.0))];
    assert w[..1] == w1 && w1[..0] == [];
    assert Fold(w1) == TimeDict([0], map[0 := Dec(10.0)]);
  }

  lemma ExampleMultiply(mul: DecimalMul)
    requires mul(10.0, 0.5) == 5.0 && mul(20.0, 0.5) == 10.0
    ensures Multiply([0, HourUs], map[0 := Dec(10.0), HourUs := Dec(20.0)], Dec(0.5), mul)
            == TimeDict([0, HourUs], map[0 := 5.0, HourUs := 10.0])
  {
    var o1 := [0];
    assert [0, HourUs][..1] == o1 && o1[..0] == [];
    assert Multiply(o1, map[0 := Dec(10.0), HourUs := Dec(20.0)], Dec(0.5), mul) == TimeDict([0], map[0 := 5.0]);
  }

  lemma ExampleDerived()
    ensures Derived(1, 0, ExampleEnergy(), ExampleEnv()) == TimeDict([0, HourUs], map[0 := 5.0, HourUs := 10.0])
  {
    var env := ExampleEnv();
    ExampleWindow();
    ExampleFold();
    assert WindowFactor(1, 0, ExampleEnergy(), env) == Dec(0.5);
    assert env.mul(10.0, 0.5) == 5.0;
    assert env.mul(20.0, 0.5) == 10.0;
    ExampleMultiply(env.mul);
  }

  lemma ExampleRows()
    ensures Rows(1, TimeDict([0, HourUs], map[0 := 5.0, HourUs := 10.0]))
            == [CarbonRow(1, 0, 5.0), CarbonRow(1, HourUs, 10.0)]
  {
    var r := Rows(1, TimeDict([0, HourUs], map[0 := 5.0, HourUs := 10.0]));
    assert r[0] == CarbonRow(1, 0, 5.0);
    assert r[1] == CarbonRow(1, HourUs, 10.0);
  }

  lemma ExampleProcess()
    ensures ProcessMicrogrid(1, None, ExampleEnergy(), Config(Some(0), 60), ExampleEnv(), Faults({}, {}, {}))
            == Step(Continue, Some((0, HourUs)), [CarbonRow(1, 0, 5.0), CarbonRow(1, HourUs, 10.0)])
  {
    var cfg := Config(Some(0), 60);
    var faults := Faults({}, {}, {});
    var w := Window(ExampleEnergy(), 1, 0);
    assert ResolveCursor(None, cfg) == Some(0);
    ExampleWindow();
    assert WindowEnd(0, w) == HourUs;
    ExampleDerived();
    ExampleRows();
    assert 1 !in faults.latestQueryFails && 1 !in faults.energyQueryFails && 1 !in faults.insertFails;
  }

  /** The example cycle derives the two products at the two sample times. */
  lemma FirstCycleExample()
    ensures Cycle(Setup(true, Some([1]), true, true), [], ExampleEnergy(), Config(Some(0), 60), ExampleEnv(), Faults({}, {}, {}))
            == (Completed, [CarbonRow(1, 0, 5.0), CarbonRow(1, HourUs, 10.0)])
  {
    var rows := [CarbonRow(1, 0, 5.0), CarbonRow(1, HourUs, 10.0)];
    assert LatestStart([], 1) == None;
    ExampleProcess();
    assert [] + rows == rows;
    assert [1][1..] == [];
    assert RunMicrogrids([], rows, ExampleEnergy(), Config(Some(0), 60), ExampleEnv(), Faults({}, {}, {})) == (Completed, rows);
  }
}
