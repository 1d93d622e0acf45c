/** The importer: one resource-day of consumption readings turned into
    time-series points and handed to the sink.

    The consumption query is an input value (the client that fetches it is
    not part of this model), and the sink is an abstract trace: the points a
    call writes, in write order. */
module OctopusInflux {
  import opened Optional
  import opened OctopusEnergy

  const HalfHourlyMeasurement: string := "consumption_half_hourly"
  const DailyMeasurement: string := "consumption_daily"

  /** A point's time: an instant (seconds since the epoch, UTC) for a
      reading, the requested date itself (days since 1970-01-01) for a
      day's total. */
  datatype Time = Instant(seconds: int) | Day(date: int)

  datatype Tags = Tags(resource: string, serial: string, units: string)

  datatype Point = Point(measurement: string, tags: Tags, value: real, time: Time)

  /** One interval reading; `consumption` is `None` when the key is absent. */
  datatype ConsumptionRecord = ConsumptionRecord(intervalStart: int, intervalEnd: int, consumption: Option<real>)

  /** A day's query result; `count` is `None` when the key is absent. */
  datatype ConsumptionQuery = ConsumptionQuery(count: Option<int>, results: seq<ConsumptionRecord>)

  /** What one `resource_to_influx` call did: either it found no data and
      never opened the sink, or it opened the sink, computed `points` (the
      half-hourly points, then the daily one) and the day's total, and wrote
      `writes` in that order. */
  datatype ImportRun =
    | NoData
    | Imported(points: seq<Point>, dayTotal: real, writes: seq<Point>)
  {
    function Written(): seq<Point> {
      if NoData? then [] else writes
    }
  }

  /** A reading's value; a record without a consumption counts as zero. */
  function Reading(rec: ConsumptionRecord): real {
    rec.consumption.GetOr(0.0)
  }

  /** The running total of the readings, added left to right from zero. */
  function DayTotal(records: seq<ConsumptionRecord>): real
    decreases |records|
  {
    if |records| == 0 then 0.0 else DayTotal(records[..|records| - 1]) + Reading(records[|records| - 1])
  }

  /** The sum of the points' values, added left to right from zero. */
  function SumValues(points: seq<Point>): real
    decreases |points|
  {
    if |points| == 0 then 0.0 else SumValues(points[..|points| - 1]) + points[|points| - 1].value
  }

  function HalfHourlyPoint(tags: Tags, rec: ConsumptionRecord): Point {
    Point(HalfHourlyMeasurement, tags, Reading(rec), Instant(rec.intervalEnd))
  }

  function DailyPoint(tags: Tags, total: real, date: int): Point {
    Point(DailyMeasurement, tags, total, Day(date))
  }

  function HalfHourlyPoints(tags: Tags, records: seq<ConsumptionRecord>): (points: seq<Point>)
    ensures |points| == |records|
    ensures forall i | 0 <= i < |records| :: points[i] == HalfHourlyPoint(tags, records[i])
  {
    seq(|records|, i requires 0 <= i < |records| => HalfHourlyPoint(tags, records[i]))
  }

  /** The day's total is the sum of the values of the half-hourly points. */
  lemma {:induction false} DayTotalIsSumOfPoints(tags: Tags, records: seq<ConsumptionRecord>)
    ensures SumValues(HalfHourlyPoints(tags, records)) == DayTotal(records)
    decreases |records|
  {
    if |records| > 0 {
      var n := |records|;
      assert HalfHourlyPoints(tags, records)[..n - 1] == HalfHourlyPoints(tags, records[..n - 1]);
      DayTotalIsSumOfPoints(tags, records[..n - 1]);
    }
  }

  /** What `resource_to_influx` promises about a run over `query`. With a
      count of zero nothing is computed and the sink is not opened.
      Otherwise there is one half-hourly point per record, in record order,
      then one daily point; every point carries `tags`; the daily value is
      the sum of the half-hourly values; and the points are written unless
      this is a dry run. */
  predicate IsImportOf(run: ImportRun, dryRun: bool, query: ConsumptionQuery, tags: Tags, date: int) {
    && (run.NoData? <==> query.count == Some(0))
    && (run.Imported? ==>
          && |run.points| == |query.results| + 1
          && (forall i | 0 <= i < |query.results| ::
                && run.points[i].measurement == HalfHourlyMeasurement
                && run.points[i].value == Reading(query.results[i])
                && run.points[i].time == Instant(query.results[i].intervalEnd))
          && run.points[|query.results|].measurement == DailyMeasurement
          && run.points[|query.results|].time == Day(date)
          && run.points[|query.results|].value == run.dayTotal
          && run.dayTotal == SumValues(run.points[..|query.results|])
          && (forall p | p in run.points :: p.tags == tags)
          && run.writes == (if dryRun then [] else run.points))
  }

  /** `IsImportOf` leaves nothing open: two runs it accepts for the same
      arguments are the same run. */
  lemma {:induction false} ImportIsDetermined(a: ImportRun, b: ImportRun, dryRun: bool, query: ConsumptionQuery,
                                              tags: Tags, date: int)
    requires IsImportOf(a, dryRun, query, tags, date) && IsImportOf(b, dryRun, query, tags, date)
    ensures a == b
  {
    if a.Imported? {
      var n := |query.results|;
      var pa, pb := a.points, b.points;
      assert b.Imported? && |pa| == n + 1 == |pb|;
      forall i | 0 <= i < n
        ensures pa[i] == pb[i]
      {
        assert pa[i].tags == tags by { assert pa[i] in pa; }
        assert pb[i].tags == tags by { assert pb[i] in pb; }
      }
      assert pa[..n] == pb[..n];
      assert a.dayTotal == b.dayTotal;
      assert pa[n] == pb[n] by {
        assert pa[n] in pa && pb[n] in pb;
      }
      assert pa == pb;
    }
  }

  /** `resource_to_influx`: the run `IsImportOf` describes. */
  function ResourceToInflux(dryRun: bool, query: ConsumptionQuery, resource: string, serial: string,
                            units: string, date: int): (run: ImportRun)
    ensures IsImportOf(run, dryRun, query, Tags(resource, serial, units), date)
  {
    if query.count == Some(0) then NoData
    else
      var tags := Tags(resource, serial, units);
      var halfHourly := HalfHourlyPoints(tags, query.results);
      var total := DayTotal(query.results);
      var points := halfHourly + [DailyPoint(tags, total, date)];
      DayTotalIsSumOfPoints(tags, query.results);
      assert points[..|query.results|] == halfHourly;
      Imported(points, total, if dryRun then [] else points)
  }

  /** The loop of `resource_to_influx` as written: it keeps a running total,
      builds each half-hourly point and writes it unless this is a dry run,
      then builds and writes the daily point. It does what `ResourceToInflux`
      describes. */
  method ImportResourceDay(dryRun: bool, query: ConsumptionQuery, resource: string, serial: string,
                           units: string, date: int) returns (run: ImportRun)
    ensures run == ResourceToInflux(dryRun, query, resource, serial, units, date)
  {
    if query.count == Some(0) {
      return NoData;
    }
    var tags := Tags(resource, serial, units);
    var dayTotal := 0.0;
    var points: seq<Point> := [];
    var writes: seq<Point> := [];
    var i := 0;
    while i < |query.results|
      invariant 0 <= i <= |query.results|
      invariant points == HalfHourlyPoints(tags, query.results[..i])
      invariant dayTotal == DayTotal(query.results[..i])
      invariant writes == (if dryRun then [] else points)
    {
      var result := query.results[i];
      var consumption := Reading(result);
      dayTotal := dayTotal + consumption;
      var point := Point(HalfHourlyMeasurement, tags, consumption, Instant(result.intervalEnd));
      if !dryRun {
        writes := writes + [point];
      }
      points := points + [point];
      assert query.results[..i + 1][..i] == query.results[..i];
      i := i + 1;
    }
    assert query.results[..i] == query.results;
    var point := Point(DailyMeasurement, tags, dayTotal, Day(date));
    if !dryRun {
      writes := writes + [point];
    }
    points := points + [point];
    run := Imported(points, dayTotal, writes);
  }

  /** A dry run computes the same points and total and writes nothing. */
  lemma DryRunOnlySuppressesWrites(query: ConsumptionQuery, resource: string, serial: string, units: string,
                                   date: int)
    ensures var dry := ResourceToInflux(true, query, resource, serial, units, date);
            var wet := ResourceToInflux(false, query, resource, serial, units, date);
            && dry.NoData? == wet.NoData?
            && (dry.Imported? ==> dry.points == wet.points && dry.dayTotal == wet.dayTotal)
            && dry.Written() == []
            && wet.Written() == (if wet.NoData? then [] else wet.points)
  {
  }

  /** A non-zero count with no records still writes one daily point of 0. */
  lemma EmptyResultsWriteZeroTotal(count: Option<int>, resource: string, serial: string, units: string,
                                   date: int)
    requires count != Some(0)
    ensures ResourceToInflux(false, ConsumptionQuery(count, []), resource, serial, units, date).Written()
            == [Point(DailyMeasurement, Tags(resource, serial, units), 0.0, Day(date))]
  {
  }

  ///////////////
  // Schedules //
  ///////////////

  /** The identifiers and units the importer passes for each resource. */
  datatype ImporterConfig = ImporterConfig(electricitySerial: string, electricityUnits: string,
                                           gasSerial: string, gasUnits: string)
  {
    function Serial(r: ResourceType): string {
      if r == Electricity then electricitySerial else gasSerial
    }

    function Units(r: ResourceType): string {
      if r == Electricity then electricityUnits else gasUnits
    }
  }

  /** One resource-day import, with the resource and date it was made for. */
  datatype Call = Call(resource: ResourceType, date: int, run: ImportRun)

  /** `electricity_to_influx` / `gas_to_influx`: the day's query for the
      resource, imported under the resource's name, serial and units. */
  function ImportFor(dryRun: bool, config: ImporterConfig, source: (ResourceType, int) -> ConsumptionQuery,
                     r: ResourceType, date: int): (call: Call)
    ensures call.resource == r && call.date == date
    ensures call.run == ResourceToInflux(dryRun, source(r, date), r.Value(), config.Serial(r), config.Units(r), date)
    ensures call.run.NoData? <==> source(r, date).count == Some(0)
    ensures call.run.Imported? ==>
              && |call.run.points| == |source(r, date).results| + 1
              && call.run.points[|source(r, date).results|].time == Day(date)
              && (forall p | p in call.run.points :: p.tags == Tags(r.Value(), config.Serial(r), config.Units(r)))
              && call.run.writes == (if dryRun then [] else call.run.points)
  {
    Call(r, date, ResourceToInflux(dryRun, source(r, date), r.Value(), config.Serial(r), config.Units(r), date))
  }

  /** A resource's import is, in full, the run `IsImportOf` describes for
      that resource's query on that date. */
  lemma ImportForIsImport(dryRun: bool, config: ImporterConfig, source: (ResourceType, int) -> ConsumptionQuery,
                          r: ResourceType, date: int)
    ensures IsImportOf(ImportFor(dryRun, config, source, r, date).run, dryRun, source(r, date),
                       Tags(r.Value(), config.Serial(r), config.Units(r)), date)
  {
  }

  /** `run_date`: electricity, then gas. */
  function RunDate(dryRun: bool, config: ImporterConfig, source: (ResourceType, int) -> ConsumptionQuery,
                   date: int): (calls: seq<Call>)
    ensures |calls| == 2
    ensures calls[0].resource == Electricity && calls[1].resource == Gas
    ensures calls[0].date == date && calls[1].date == date
    ensures calls[0] == ImportFor(dryRun, config, source, Electricity, date)
    ensures calls[1] == ImportFor(dryRun, config, source, Gas, date)
  {
    [ImportFor(dryRun, config, source, Electricity, date), ImportFor(dryRun, config, source, Gas, date)]
  }

  /** `run_dates`: the dates one after another, in the given order. */
  function RunDates(dryRun: bool, config: ImporterConfig, source: (ResourceType, int) -> ConsumptionQuery,
                    dates: seq<int>): (calls: seq<Call>)
    ensures |calls| == 2 * |dates|
    ensures forall i | 0 <= i < |dates| ::
              && calls[2 * i] == ImportFor(dryRun, config, source, Electricity, dates[i])
              && calls[2 * i + 1] == ImportFor(dryRun, config, source, Gas, dates[i])
    decreases |dates|
  {
    if |dates| == 0 then []
    else
      var rest := RunDates(dryRun, config, source, dates[1..]);
      var calls := RunDate(dryRun, config, source, dates[0]) + rest;
      assert forall i | 1 <= i < |dates| :: dates[1..][i - 1] == dates[i] && calls[2 * i] == rest[2 * (i - 1)];
      calls
  }

  /** Running a list of dates is running its parts one after the other. */
  lemma {:induction false} RunDatesAppend(dryRun: bool, config: ImporterConfig,
                                          source: (ResourceType, int) -> ConsumptionQuery, ds1: seq<int>, ds2: seq<int>)
    ensures RunDates(dryRun, config, source, ds1 + ds2)
            == RunDates(dryRun, config, source, ds1) + RunDates(dryRun, config, source, ds2)
    decreases |ds1|
  {
    if |ds1| == 0 {
      assert ds1 + ds2 == ds2;
    } else {
      assert (ds1 + ds2)[0] == ds1[0];
      assert (ds1 + ds2)[1..] == ds1[1..] + ds2;
      RunDatesAppend(dryRun, config, source, ds1[1..], ds2);
    }
  }

  /** Everything written by a sequence of calls, in order. */
  function AllWrites(calls: seq<Call>): seq<Point>
    decreases |calls|
  {
    if |calls| == 0 then [] else calls[0].run.Written() + AllWrites(calls[1..])
  }

  /** A dry run over any dates writes nothing at all. */
  lemma {:induction false} DryRunWritesNothing(config: ImporterConfig,
                                               source: (ResourceType, int) -> ConsumptionQuery, dates: seq<int>)
    ensures AllWrites(RunDates(true, config, source, dates)) == []
    decreases |dates|
  {
    if |dates| > 0 {
      var calls := RunDates(true, config, source, dates);
      var rest := RunDates(true, config, source, dates[1..]);
      DryRunWritesNothing(config, source, dates[1..]);
      assert calls[1..] == [calls[1]] + rest;
      assert calls[1..][1..] == rest;
    }
  }

  /** Importing the same date twice writes its points twice: there is no
      de-duplication. */
  lemma RepeatedDateWritesTwice(config: ImporterConfig, source: (ResourceType, int) -> ConsumptionQuery, date: int)
    ensures AllWrites(RunDates(false, config, source, [date, date]))
            == AllWrites(RunDate(false, config, source, date)) + AllWrites(RunDate(false, config, source, date))
  {
    var day := RunDate(false, config, source, date);
    RunDatesAppend(false, config, source, [date], [date]);
    assert RunDates(false, config, source, [date]) == day by {
      assert [date][1..] == [];
    }
    AllWritesAppend(day, day);
  }

  /** The same holds when the two imports of a date see different answers,
      as they may when each one asks the API again: the writes are the
      first import's followed by the second's, nothing merged or dropped. */
  lemma RepeatedDateRefetched(config: ImporterConfig, first: (ResourceType, int) -> ConsumptionQuery,
                              second: (ResourceType, int) -> ConsumptionQuery, date: int)
    ensures AllWrites(RunDate(false, config, first, date) + RunDate(false, config, second, date))
            == AllWrites(RunDate(false, config, first, date)) + AllWrites(RunDate(false, config, second, date))
  {
    AllWritesAppend(RunDate(false, config, first, date), RunDate(false, config, second, date));
  }

  lemma {:induction false} AllWritesAppend(c1: seq<Call>, c2: seq<Call>)
    ensures AllWrites(c1 + c2) == AllWrites(c1) + AllWrites(c2)
    decreases |c1|
  {
    if |c1| == 0 {
      assert c1 + c2 == c2;
    } else {
      assert (c1 + c2)[1..] == c1[1..] + c2;
      AllWritesAppend(c1[1..], c2);
    }
  }
}
