# octopus-influx in Dafny

A model of the logic inside the Octopus Energy → InfluxDB importer. It has two parts.

- **The API client's URL builders** (`old_octopus_energy.py`). This covers `_iso_format`, which rewrites
  `+00:00` as `Z`. It covers the meter, tariff and consumption paths built from the configured
  MPAN/MPRN, serials, product codes and regions. It covers `date_to_periods`, and the query strings
  of `get_grid_supply_points`, `get_tariff_data` and `get_consumption_for_period`. Each operation
  returns the URL that the client would request.
- **The importer** (`octopus_influx.py`). `resource_to_influx` is a pure function. It maps the
  dry-run flag, a consumption query, and the resource, serial, units and date to an `ImportRun`.
  The run is either `NoData` (the sink is never opened) or the computed points, the day's total and
  the points actually written, in write order. `run_date` / `run_dates` become the ordered list of
  resource-day calls.

Files and modules:

| file | module | contents |
|---|---|---|
| optional.dfy | `Optional` | `Option<T>`: Python's `None` defaults and missing dictionary keys |
| strings.dfy | `Strings` | occurrence search and `str.replace`, with its lemmas |
| decimal.dfy | `Decimal` | `str(int)` for page numbers and its parser (round trip) |
| query.dfy | `Query` | `path?k=v&k=v` rendering, the client's optional `&key=value` fragments, lookup and key order |
| octopus_energy.dfy | `OctopusEnergy` | enums, `Client`, `IsoFormat`, the URL builders, `DateToPeriods` |
| octopus_influx.dfy | `OctopusInflux` | records, points, `ResourceToInflux`, its loop form, `RunDate`/`RunDates` |

Modelling choices:

- Timestamps are integer seconds since the Unix epoch (UTC). Dates are integer day numbers since
  1970-01-01.
- The text produced by Python's `isoformat()` is an input to `IsoFormat`. The `period_from` and
  `period_to` arguments of the URL builders are those texts.
- The day's consumption query comes from `source`, a function of resource kind and date, so the
  model's source answers the same (resource, date) the same way every time. The importer itself
  fetches afresh on every call (octopus_influx.py:96, 105); `RepeatedDateRefetched` covers two
  imports of one date that see different answers.
- The consumption query is an input value. Records have an `interval_start`, an `interval_end` and
  an optional `consumption`. `count` is optional, because the source reads it with `.get`.
- The sink is a trace of points `(measurement, tags, value, time)`. The half-hourly point's time is
  `Instant(interval_end)`. The daily point's time is `Day(date)`: the date object the source hands
  to the client, which the model does not convert.
- The gas branch of `tariff_url` builds `E-1R-<code>-<region>` (old_octopus_energy.py:132), exactly as
  written. The model keeps this prefix.

Behaviours of the code the model keeps:

- The early exit in `resource_to_influx` tests `count == 0` (octopus_influx.py:53-55). A query
  with a non-zero (or missing) count and an empty `results` list writes one daily point of value 0
  (`EmptyResultsWriteZeroTotal`).
- A dry run still enters the `with InfluxDBClient(...)` block (octopus_influx.py:57); only the
  `write` calls are skipped. The model records it as `Imported` with an empty write list.
- The daily point carries the requested date itself as its time (octopus_influx.py:82-87).

## Model

| member | source | states |
|---|---|---|
| `OctopusEnergy.IsoFormat` | old_octopus_energy.py:10-22 | the result contains no `+00:00`, and a text without `+00:00` comes back unchanged |
| `OctopusEnergy.IsoFormatExample` | old_octopus_energy.py:14-16 | the documented example `2021-01-01T23:30:00+00:00` becomes `2021-01-01T23:30:00Z` |
| `OctopusEnergy.IsoFormatRoundTrip` | old_octopus_energy.py:14-22 | on `isoformat()` text (which has no `Z`), writing each `Z` back as `+00:00` restores the input: only the UTC offsets changed |
| `Strings.ReplaceAllRoundTrip` | old_octopus_energy.py:22 | replacing with a character absent from the input, then replacing it back, restores the input |
| `OctopusEnergy.IsoFormatIdempotent` | old_octopus_energy.py:22 | formatting an already formatted text changes nothing |
| `Strings.ReplaceAllUnchanged` | old_octopus_energy.py:22 | `str.replace` returns its input when the pattern does not occur |
| `Strings.ReplaceAllRemovesPattern` | old_octopus_energy.py:22 | after replacing with a single character foreign to the pattern, no occurrence remains, including none formed across a replacement |
| `Strings.NoMatchAfterReplace` | old_octopus_energy.py:22 | the same, at one position of the result |
| `Strings.ReplacedPrefix` | old_octopus_energy.py:22 | a prefix of the result without the replacement character is the same prefix of the input |
| `Strings.ReplaceAllCleanPrefix` | old_octopus_energy.py:22 | text before the first possible `+` passes through the replacement verbatim |
| `OctopusEnergy.MeterUrl` | old_octopus_energy.py:106-118 | the URL is the base, then `<resource>-meter-points/`, then the MPAN for electricity or the MPRN for gas |
| `OctopusEnergy.MeterUrlIdentifiesMeter` | old_octopus_energy.py:114-118 | two meter URLs are equal exactly when resource kind and meter point are equal |
| `OctopusEnergy.TariffUrl` | old_octopus_energy.py:120-134 | the URL is base `/products/<code>/<resource>-tariffs/E-1R-<code>-<region>`, with `E-1R-` for gas too |
| `OctopusEnergy.TariffUrlNamesProduct` | old_octopus_energy.py:130-134 | a tariff URL begins with the base, `/products/` and the resource's product code followed by `/` |
| `OctopusEnergy.TariffUrlIdentifiesRegion` | old_octopus_energy.py:130-134 | for the same product code and resource kind, two tariff URLs are equal exactly when the regions are equal |
| `OctopusEnergy.ConsumptionUrl` | old_octopus_energy.py:136-149 | the meter URL is a prefix, followed by `/meters/<serial of that resource>/consumption` |
| `OctopusEnergy.ConsumptionUrlsDiffer` | old_octopus_energy.py:144-149 | electricity and gas consumption URLs never coincide, whatever the identifiers |
| `OctopusEnergy.DateToPeriods` | old_octopus_energy.py:151-167 | `period_from` is midnight UTC of the date, `period_to` is 23h30m later, and both lie on that date |
| `OctopusEnergy.PeriodsFollowDates` | old_octopus_energy.py:163-164 | the window of an earlier date ends before the window of a later date begins |
| `OctopusEnergy.GridSupplyPointsParams` | old_octopus_energy.py:223 | the `postcode` parameter is present exactly when a postcode is given, and carries it |
| `OctopusEnergy.GridSupplyPointsUrl` | old_octopus_energy.py:223-224 | the URL renders those parameters; without a postcode it is the bare `/industry/grid-supply-points` path |
| `OctopusEnergy.TariffParams` | old_octopus_energy.py:243-246 | `page_size` is always present and first; `page`, `period_from` and `period_to` are each present exactly when given, with `_iso_format`ted periods; keys keep that order |
| `OctopusEnergy.TariffDataUrl` | old_octopus_energy.py:243-246 | the f-string equals the tariff URL plus `/<charge type>` carrying exactly the tariff parameters |
| `OctopusEnergy.ConsumptionParams` | old_octopus_energy.py:267-270 | periods (via `_iso_format`), `order_by` (`-period` when reversed, else `period`) and `page_size` are always present; `page` exactly when given; `group_by` exactly when not half-hourly; keys keep the f-string's order |
| `OctopusEnergy.ConsumptionForPeriodUrl` | old_octopus_energy.py:267-270 | the f-string equals the consumption URL carrying exactly the consumption parameters |
| `Decimal.IntRoundTrip` | old_octopus_energy.py:268 | a page number rendered by `str` is read back as the same number |
| `Decimal.IntToStringInjective` | old_octopus_energy.py:245 | distinct page numbers render as distinct texts |
| `Query.SeparatedPresent` | old_octopus_energy.py:243-245 | the concatenated `&key=value`-or-empty fragments are the rendering of the given parameters |
| `Query.RenderWithLeadingParam` | old_octopus_energy.py:246 | a query whose first parameter is always given renders as `?k0=v0` followed by the optional fragments |
| `Query.RenderNothingPresent` | old_octopus_energy.py:223-224 | a query with nothing given renders as the bare path |
| `Query.RenderOneThenThree` | old_octopus_energy.py:246 | the rendering of one fixed and three optional parameters as a flat concatenation |
| `Query.RenderFourThenTwo` | old_octopus_energy.py:270 | the rendering of four fixed and two optional parameters as a flat concatenation |
| `Query.PresentLookup` | old_octopus_energy.py:267-269 | with distinct keys, the parameter list carries each key exactly when its value was given, with that value |
| `Query.PresentInOrder` | old_octopus_energy.py:243-246 | the given parameters appear in the order of the key list |
| `OctopusInflux.ResourceToInflux` | octopus_influx.py:52-91 | (`IsImportOf`) count 0 ⇔ no data, nothing opened or written; otherwise one half-hourly point per record in order (value = reading, missing = 0, time = interval end), then the daily point (time = date) whose value is the sum of the half-hourly values; all points carry the call's tags; writes = points unless dry run |
| `OctopusInflux.ImportIsDetermined` | octopus_influx.py:52-91 | that description of a run leaves nothing open: two runs satisfying it for the same arguments are equal |
| `OctopusInflux.ImportResourceDay` | octopus_influx.py:57-91 | the loop as written (running total, point per record, conditional writes, daily point) produces exactly that run |
| `OctopusInflux.DayTotalIsSumOfPoints` | octopus_influx.py:59-63 | the running `day_total` equals the left-to-right sum of the half-hourly points' values |
| `OctopusInflux.DryRunOnlySuppressesWrites` | octopus_influx.py:76-91 | dry and real runs compute the same points and total; the dry run writes nothing |
| `OctopusInflux.EmptyResultsWriteZeroTotal` | octopus_influx.py:53-91 | a non-zero count with no records writes exactly one daily point of 0 |
| `OctopusInflux.ImportFor` | octopus_influx.py:93-109 | a resource's import is the `resource_to_influx` run over that resource's query for that date, with the same dry-run flag: no data exactly when that query's count is 0, otherwise one point per record then the daily point dated `date`, every point tagged with the resource's name, serial and units, written unless dry run |
| `OctopusInflux.ImportForIsImport` | octopus_influx.py:93-109 | in full: every point of a resource's import is pinned by that resource's query for the date (values, times, daily total), as `resource_to_influx` describes |
| `OctopusInflux.RunDate` | octopus_influx.py:111-114 | the first call is the electricity import for the date and the second the gas import for the same date |
| `OctopusInflux.RunDates` | octopus_influx.py:116-118 | calls are `(electricity, d1), (gas, d1), (electricity, d2), …`, strictly in input order |
| `OctopusInflux.RunDatesAppend` | octopus_influx.py:116-118 | running a concatenation of date lists is running each list in turn |
| `OctopusInflux.DryRunWritesNothing` | octopus_influx.py:89-91 | a dry run over any list of dates writes nothing |
| `OctopusInflux.RepeatedDateWritesTwice` | octopus_influx.py:116-118 | importing a date twice writes its points twice; nothing is de-duplicated |
| `OctopusInflux.RepeatedDateRefetched` | octopus_influx.py:93-118 | two imports of one date whose fetches return different answers write the first import's points followed by the second's, with nothing merged or dropped |

## Left out

- `get_data` (old_octopus_energy.py:169-178) and `get_meter_point`: the HTTP request and JSON decoding are network I/O. The model stops at the URL.
- `main` (old_octopus_energy.py:289-384): a demonstration script over live data, including the pagination loop.
- `get_consumption_for_date` (old_octopus_energy.py:272-286): it calls `date_to_periods` and then hands `datetime` objects to `isoformat()`. Python's datetime rendering is not modelled.
- Both `__init__` methods: environment-variable fallbacks and their defaults (product code `AGILE-18-02-21`, region `C`) are process-environment reads. Identifiers are plain fields of `Client` and `ImporterConfig`.
- The units strings (`kWh` for electricity, and the gas label) belong to the client module imported by the importer. That module is not part of this model, so units are configuration values.
- Logging setup and every log line, including the warning for a missing day: these are side effects with no contract.
- `InfluxDBClient`, `Point`, `WritePrecision` and the synchronous write API are a foreign library. Writes are an abstract point trace. Closing the client on exit is not modelled.
- `isoparse` and `pytz`: records carry their interval times as integer seconds already.
- Percent-encoding: the client inserts values into query strings verbatim, and the model does the same. `Lookup` reads the parameter list, not the rendered text, so a value containing `&` or `=` is not analysed.
- Exceptions: `float()` of a non-numeric value, a missing `results` key, and sink or source failures. The model does not represent the stop-on-first-error behaviour of `run_dates`.
- OctopusInflux.ResourceToInflux: consumption values and the day's total are exact reals. IEEE rounding of `day_total += consumption` is not modelled; the total is still the left-to-right fold.
- OctopusInflux.ResourceToInflux: `count` is compared with the integer 0 only. A float `0.0` count, which Python also treats as equal, is not a separate case.
- OctopusInflux.RepeatedDateWritesTwice: runs `RunDates` over one `source`, which answers each (resource, date) the same way every time, whereas the program asks the API again on each call and may get a different answer; `RepeatedDateRefetched` states the no-de-duplication property for two different answers.
- OctopusEnergy.DateToPeriods: works on integer seconds. Time zones other than UTC and microsecond fields are not represented.
