/** The URL and query-string builders of the Octopus Energy API client.

    Identifiers come in as a `Client` value; timestamps handed to the API are
    the text that Python's `datetime.isoformat()` produced, which `IsoFormat`
    then rewrites. No request is sent: each operation returns the URL that
    the client would pass to its HTTP layer. */
module OctopusEnergy {
  import opened Optional
  import opened Strings
  import opened Decimal
  import opened Query

  const BaseUrl: string := "https://api.octopus.energy/v1"

  /** How `isoformat()` writes the UTC offset, which the API does not accept. */
  const UtcOffset: string := "+00:00"

  datatype ResourceType = Gas | Electricity {
    function Value(): string {
      match this
      case Gas => "gas"
      case Electricity => "electricity"
    }
  }

  datatype ChargeType = StandingCharges | StandardUnitRates | DayUnitRates | NightUnitRates {
    function Value(): string {
      match this
      case StandingCharges => "standing-charges"
      case StandardUnitRates => "standard-unit-rates"
      case DayUnitRates => "day-unit-rates"
      case NightUnitRates => "night-unit-rates"
    }
  }

  /** Aggregation of consumption data; half-hourly is the API's default and
      has no value (Python's `None`). */
  datatype Aggregate = HalfHourly | Hourly | Daily | Weekly | Monthly | Quarterly {
    function Value(): Option<string> {
      match this
      case HalfHourly => None
      case Hourly => Some("hour")
      case Daily => Some("day")
      case Weekly => Some("week")
      case Monthly => Some("month")
      case Quarterly => Some("quarter")
    }
  }

  /** The configured identifiers of one household's meters and tariffs. */
  datatype Client = Client(
    electricitySerial: string,
    electricityMpan: string,
    electricityProductCode: string,
    electricityRegion: string,
    gasSerial: string,
    gasMprn: string,
    gasProductCode: string,
    gasRegion: string)
  {
    /** The meter point: MPAN for electricity, MPRN for gas. */
    function MeterPoint(r: ResourceType): string {
      if r == Electricity then electricityMpan else gasMprn
    }

    function Serial(r: ResourceType): string {
      if r == Electricity then electricitySerial else gasSerial
    }

    function ProductCode(r: ResourceType): string {
      if r == Electricity then electricityProductCode else gasProductCode
    }

    function Region(r: ResourceType): string {
      if r == Electricity then electricityRegion else gasRegion
    }
  }

  /** `_iso_format`: the `isoformat()` text with every `+00:00` written as
      `Z`. Nothing else changes, so text without `+00:00` comes back as is. */
  function IsoFormat(isoText: string): (r: string)
    ensures !Contains(r, UtcOffset)
    ensures !Contains(isoText, UtcOffset) ==> r == isoText
  {
    ReplaceAllRemovesPattern(isoText, UtcOffset, "Z");
    ReplaceAllUnchanged(isoText, UtcOffset, "Z");
    ReplaceAll(isoText, UtcOffset, "Z")
  }

  /** The example of the client's documentation. */
  lemma IsoFormatExample()
    ensures IsoFormat("2021-01-01T23:30:00+00:00") == "2021-01-01T23:30:00Z"
  {
    var stamp := "2021-01-01T23:30:00";
    assert "2021-01-01T23:30:00+00:00" == stamp + UtcOffset;
    ReplaceAllCleanPrefix(stamp, UtcOffset, UtcOffset, "Z");
    assert UtcOffset[|UtcOffset|..] == "";
  }

  /** `isoformat()` never writes `Z`, so on its output the rewrite loses
      nothing: writing each `Z` back as `+00:00` restores the text. */
  lemma IsoFormatRoundTrip(isoText: string)
    requires 'Z' !in isoText
    ensures ReplaceAll(IsoFormat(isoText), "Z", UtcOffset) == isoText
  {
    ReplaceAllRoundTrip(isoText, UtcOffset, "Z");
  }

  /** Formatting twice is formatting once. */
  lemma IsoFormatIdempotent(isoText: string)
    ensures IsoFormat(IsoFormat(isoText)) == IsoFormat(isoText)
  {
  }

  ///////////////
  // Resources //
  ///////////////

  function MeterUrl(c: Client, r: ResourceType): (url: string)
    ensures url == BaseUrl + "/" + r.Value() + "-meter-points/" + c.MeterPoint(r)
  {
    match r
    case Electricity =>
      var meterUrl := "electricity-meter-points/" + c.electricityMpan;
      MeterPathShape("electricity-meter-points/", "electricity", c.electricityMpan);
      BaseUrl + "/" + meterUrl
    case Gas =>
      var meterUrl := "gas-meter-points/" + c.gasMprn;
      MeterPathShape("gas-meter-points/", "gas", c.gasMprn);
      BaseUrl + "/" + meterUrl
  }

  /** The meter path of either resource has the same shape; stated over an
      abstract kind so that the solver never unfolds the literals. */
  lemma MeterPathShape(kindPath: string, kind: string, id: string)
    requires kindPath == kind + "-meter-points/"
    ensures BaseUrl + "/" + (kindPath + id) == BaseUrl + "/" + kind + "-meter-points/" + id
  {
    Assoc(BaseUrl + "/", kindPath, id);
    Assoc(BaseUrl + "/", kind, "-meter-points/");
  }

  function TariffUrl(c: Client, r: ResourceType): (url: string)
    ensures url == BaseUrl + "/products/" + c.ProductCode(r) + "/" + r.Value() + "-tariffs/E-1R-"
                   + c.ProductCode(r) + "-" + c.Region(r)
  {
    match r
    case Electricity =>
      var tariffUrl := c.electricityProductCode + "/electricity-tariffs/E-1R-" + c.electricityProductCode
                       + "-" + c.electricityRegion;
      TariffPathShape("/electricity-tariffs/E-1R-", "electricity", c.electricityProductCode, c.electricityRegion);
      BaseUrl + "/products/" + tariffUrl
    case Gas =>
      var tariffUrl := c.gasProductCode + "/gas-tariffs/E-1R-" + c.gasProductCode + "-" + c.gasRegion;
      TariffPathShape("/gas-tariffs/E-1R-", "gas", c.gasProductCode, c.gasRegion);
      BaseUrl + "/products/" + tariffUrl
  }

  /** The tariff path of either resource has the same shape, stated over an
      abstract kind like `MeterPathShape`. */
  lemma TariffPathShape(kindPath: string, kind: string, code: string, region: string)
    requires kindPath == "/" + kind + "-tariffs/E-1R-"
    ensures BaseUrl + "/products/" + (code + kindPath + code + "-" + region)
            == BaseUrl + "/products/" + code + "/" + kind + "-tariffs/E-1R-" + code + "-" + region
  {
    var p := BaseUrl + "/products/";
    Assoc(p + code, "/" + kind, "-tariffs/E-1R-");
    Assoc(p + code, "/", kind);
    Assoc(p, code, kindPath);
    Assoc(p, code + kindPath, code);
    Assoc(p, code + kindPath + code, "-");
    Assoc(p, code + kindPath + code + "-", region);
  }

  /** A tariff URL names its product: it starts with the product path of
      the resource's product code. */
  lemma TariffUrlNamesProduct(c: Client, r: ResourceType)
    ensures var head := BaseUrl + "/products/" + c.ProductCode(r) + "/";
            |head| <= |TariffUrl(c, r)| && TariffUrl(c, r)[..|head|] == head
  {
    var head := BaseUrl + "/products/" + c.ProductCode(r) + "/";
    var rest := r.Value() + "-tariffs/E-1R-" + c.ProductCode(r) + "-" + c.Region(r);
    Assoc(head, r.Value() + "-tariffs/E-1R-" + c.ProductCode(r) + "-", c.Region(r));
    Assoc(head, r.Value() + "-tariffs/E-1R-" + c.ProductCode(r), "-");
    Assoc(head, r.Value() + "-tariffs/E-1R-", c.ProductCode(r));
    Assoc(head, r.Value(), "-tariffs/E-1R-");
    assert TariffUrl(c, r) == head + rest;
    assert (head + rest)[..|head|] == head;
  }

  /** For one product code, tariff URLs of a resource kind tell regions
      apart: two clients' URLs coincide exactly when their regions do. */
  lemma TariffUrlIdentifiesRegion(c: Client, c': Client, r: ResourceType)
    requires c.ProductCode(r) == c'.ProductCode(r)
    ensures TariffUrl(c, r) == TariffUrl(c', r) <==> c.Region(r) == c'.Region(r)
  {
    var head := BaseUrl + "/products/" + c.ProductCode(r) + "/" + r.Value() + "-tariffs/E-1R-"
                + c.ProductCode(r) + "-";
    assert TariffUrl(c, r) == head + c.Region(r) && TariffUrl(c', r) == head + c'.Region(r);
    if TariffUrl(c, r) == TariffUrl(c', r) {
      assert (head + c.Region(r))[|head|..] == c.Region(r);
      assert (head + c'.Region(r))[|head|..] == c'.Region(r);
    }
  }

  function ConsumptionUrl(c: Client, r: ResourceType): (url: string)
    ensures |MeterUrl(c, r)| <= |url| && url[..|MeterUrl(c, r)|] == MeterUrl(c, r)
    ensures url[|MeterUrl(c, r)|..] == "/meters/" + c.Serial(r) + "/consumption"
  {
    var serial := if r == Electricity then c.electricitySerial else c.gasSerial;
    var meterUrl := MeterUrl(c, r);
    var tail := "/meters/" + serial + "/consumption";
    Assoc(meterUrl, "/meters/" + serial, "/consumption");
    Assoc(meterUrl, "/meters/", serial);
    assert (meterUrl + tail)[..|meterUrl|] == meterUrl && (meterUrl + tail)[|meterUrl|..] == tail;
    meterUrl + "/meters/" + serial + "/consumption"
  }

  /** A meter URL names its resource kind and its meter point: two meter
      URLs agree exactly when both do. */
  lemma MeterUrlIdentifiesMeter(c1: Client, r1: ResourceType, c2: Client, r2: ResourceType)
    ensures MeterUrl(c1, r1) == MeterUrl(c2, r2) <==> r1 == r2 && c1.MeterPoint(r1) == c2.MeterPoint(r2)
  {
    var u1, u2 := MeterUrl(c1, r1), MeterUrl(c2, r2);
    var n := |BaseUrl + "/"|;
    if r1 != r2 {
      assert u1[n] == r1.Value()[0];
      assert u2[n] == r2.Value()[0];
    } else if u1 == u2 {
      var head := BaseUrl + "/" + r1.Value() + "-meter-points/";
      assert u1 == head + c1.MeterPoint(r1);
      assert u2 == head + c2.MeterPoint(r2);
      assert u1[|head|..] == c1.MeterPoint(r1);
      assert u2[|head|..] == c2.MeterPoint(r2);
    }
  }

  /** Electricity and gas consumption are never fetched from the same URL,
      whatever the configured identifiers. */
  lemma ConsumptionUrlsDiffer(c1: Client, c2: Client)
    ensures ConsumptionUrl(c1, Electricity) != ConsumptionUrl(c2, Gas)
  {
    var n := |BaseUrl + "/"|;
    var e, g := ConsumptionUrl(c1, Electricity), ConsumptionUrl(c2, Gas);
    assert e[n] == MeterUrl(c1, Electricity)[n] == 'e';
    assert g[n] == MeterUrl(c2, Gas)[n] == 'g';
  }

  /////////////
  // Periods //
  /////////////

  const SecondsPerDay: int := 86400

  /** `date_to_periods`: a date (days since 1970-01-01) gives the instants
      (seconds since the epoch, UTC) of its midnight and of 23:30 on it. */
  function DateToPeriods(day: int): (periods: (int, int))
    ensures periods.0 % SecondsPerDay == 0
    ensures periods.0 / SecondsPerDay == day && periods.1 / SecondsPerDay == day
    ensures periods.1 - periods.0 == 23 * 60 * 60 + 30 * 60
  {
    var dateFrom := day * SecondsPerDay;
    var dateTo := dateFrom + 23 * 60 * 60 + 30 * 60;
    (dateFrom, dateTo)
  }

  /** The windows of successive dates do not overlap and come in date order. */
  lemma PeriodsFollowDates(d1: int, d2: int)
    requires d1 < d2
    ensures DateToPeriods(d1).1 < DateToPeriods(d2).0
  {
    assert (d2 - d1) * SecondsPerDay >= SecondsPerDay;
  }

  ///////////////////
  // Query strings //
  ///////////////////

  /** The text of an optional page number. */
  function PageValue(page: Option<int>): Option<string> {
    if page.Some? then Some(IntToString(page.value)) else None
  }

  /** The text of an optional timestamp, as `_iso_format` writes it. */
  function IsoValue(isoText: Option<string>): Option<string> {
    if isoText.Some? then Some(IsoFormat(isoText.value)) else None
  }

  const GridSupplyPointsPath: string := BaseUrl + "/industry/grid-supply-points"

  function GridSupplyPointsParams(postcode: Option<string>): (q: seq<Param>)
    ensures Lookup(q, "postcode") == postcode
    ensures IsSubsequence(Keys(q), ["postcode"])
  {
    PresentLookup(["postcode"], [postcode], 0);
    PresentInOrder(["postcode"], [postcode]);
    Present(["postcode"], [postcode])
  }

  /** `get_grid_supply_points`: the postcode filter appears only when a
      postcode is given, otherwise the URL is the bare path. */
  function GridSupplyPointsUrl(postcode: Option<string>): (url: string)
    ensures url == WithQuery(GridSupplyPointsPath, GridSupplyPointsParams(postcode))
    ensures postcode.None? ==> url == GridSupplyPointsPath
  {
    if postcode.None? then
      RenderNothingPresent(GridSupplyPointsPath, ["postcode"], [postcode]);
      GridSupplyPointsPath
    else
      RenderWithLeadingParam(GridSupplyPointsPath, ["postcode"], [postcode]);
      assert OptionalFields(["postcode"][1..], [postcode][1..]) == "";
      assert "?" + "postcode" + "=" == "?postcode=";
      Assoc(GridSupplyPointsPath, "?postcode=", postcode.value);
      GridSupplyPointsPath + "?postcode=" + postcode.value
  }

  const TariffKeys: seq<string> := ["page_size", "page", "period_from", "period_to"]

  function TariffValues(periodFrom: Option<string>, periodTo: Option<string>, pageSize: int, page: Option<int>)
    : seq<Option<string>>
  {
    [Some(IntToString(pageSize)), PageValue(page), IsoValue(periodFrom), IsoValue(periodTo)]
  }

  /** The parameters of a tariff request: `page_size` always and first, then
      `page`, `period_from` and `period_to`, each exactly when given. */
  function TariffParams(periodFrom: Option<string>, periodTo: Option<string>, pageSize: int, page: Option<int>)
    : (q: seq<Param>)
    ensures |q| > 0 && q[0] == Param("page_size", IntToString(pageSize))
    ensures Lookup(q, "page_size") == Some(IntToString(pageSize))
    ensures Lookup(q, "page") == PageValue(page)
    ensures Lookup(q, "period_from") == IsoValue(periodFrom)
    ensures Lookup(q, "period_to") == IsoValue(periodTo)
    ensures IsSubsequence(Keys(q), TariffKeys)
  {
    var values := TariffValues(periodFrom, periodTo, pageSize, page);
    TariffKeysDistinct();
    PresentLookupAll(TariffKeys, values);
    PresentInOrder(TariffKeys, values);
    Present(TariffKeys, values)
  }

  lemma TariffKeysDistinct()
    ensures Distinct(TariffKeys)
  {
    assert "page_size"[1] != "period_to"[1];
  }

  /** `get_tariff_data`: the URL requested for one charge type. */
  function TariffDataUrl(c: Client, r: ResourceType, charge: ChargeType, periodFrom: Option<string>,
                         periodTo: Option<string>, pageSize: int, page: Option<int>): (url: string)
    ensures url == WithQuery(TariffUrl(c, r) + "/" + charge.Value(), TariffParams(periodFrom, periodTo, pageSize, page))
  {
    var periodFromStr := OptionalField("period_from", IsoValue(periodFrom));
    var periodToStr := OptionalField("period_to", IsoValue(periodTo));
    var pageStr := OptionalField("page", PageValue(page));
    var path := TariffUrl(c, r) + "/" + charge.Value();
    RenderOneThenThree(path, TariffKeys, TariffValues(periodFrom, periodTo, pageSize, page), "?page_size=");
    path + "?page_size=" + IntToString(pageSize) + pageStr + periodFromStr + periodToStr
  }

  const ConsumptionKeys: seq<string> := ["period_from", "period_to", "order_by", "page_size", "page", "group_by"]

  function ConsumptionValues(periodFrom: string, periodTo: string, reverseOrder: bool, pageSize: int,
                             page: Option<int>, groupBy: Aggregate): seq<Option<string>>
  {
    [Some(IsoFormat(periodFrom)), Some(IsoFormat(periodTo)), Some(if reverseOrder then "-period" else "period"),
     Some(IntToString(pageSize)), PageValue(page), groupBy.Value()]
  }

  /** The parameters of a consumption request: the period, the order and the
      page size always, the page when given, and the aggregation unless it is
      the half-hourly default. */
  function ConsumptionParams(periodFrom: string, periodTo: string, reverseOrder: bool, pageSize: int,
                             page: Option<int>, groupBy: Aggregate): (q: seq<Param>)
    ensures |q| >= 4
    ensures Lookup(q, "period_from") == Some(IsoFormat(periodFrom))
    ensures Lookup(q, "period_to") == Some(IsoFormat(periodTo))
    ensures Lookup(q, "order_by") == Some(if reverseOrder then "-period" else "period")
    ensures Lookup(q, "page_size") == Some(IntToString(pageSize))
    ensures Lookup(q, "page") == PageValue(page)
    ensures Lookup(q, "group_by").Some? <==> groupBy != HalfHourly
    ensures Lookup(q, "group_by") == groupBy.Value()
    ensures IsSubsequence(Keys(q), ConsumptionKeys)
  {
    var values := ConsumptionValues(periodFrom, periodTo, reverseOrder, pageSize, page, groupBy);
    ConsumptionKeysDistinct();
    PresentLookupAll(ConsumptionKeys, values);
    assert ConsumptionKeys[4] == "page" && ConsumptionKeys[5] == "group_by";
    PresentInOrder(ConsumptionKeys, values);
    Present(ConsumptionKeys, values)
  }

  lemma ConsumptionKeysDistinct()
    ensures Distinct(ConsumptionKeys)
  {
    assert "page_size"[1] != "period_to"[1];
  }

  /** `get_consumption_for_period`: the URL requested for one meter. */
  function ConsumptionForPeriodUrl(c: Client, r: ResourceType, periodFrom: string, periodTo: string,
                                   reverseOrder: bool, pageSize: int, page: Option<int>, groupBy: Aggregate)
    : (url: string)
    ensures url == WithQuery(ConsumptionUrl(c, r), ConsumptionParams(periodFrom, periodTo, reverseOrder, pageSize, page, groupBy))
  {
    var order := if reverseOrder then "-period" else "period";
    var pageStr := OptionalField("page", PageValue(page));
    var groupByStr := OptionalField("group_by", groupBy.Value());
    RenderFourThenTwo(ConsumptionUrl(c, r), ConsumptionKeys,
                      ConsumptionValues(periodFrom, periodTo, reverseOrder, pageSize, page, groupBy),
                      "?period_from=", "&period_to=", "&order_by=", "&page_size=");
    ConsumptionUrl(c, r) + "?period_from=" + IsoFormat(periodFrom) + "&period_to=" + IsoFormat(periodTo)
      + "&order_by=" + order + "&page_size=" + IntToString(pageSize) + pageStr + groupByStr
  }
}
