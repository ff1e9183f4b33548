/** The Plausible client (class Plausible in src/index.ts): its
    configuration fields and the query parameters each stats operation
    sends. The request itself (URL, headers, transport, JSON) is not
    modelled; each operation stops at the list of parameters it hands to
    the transport, site identifier included. */
module Client {
  import opened Wrappers
  import opened Strings
  import opened Types
  import opened Serializer
  import opened QueryParams

  const DefaultBaseUrl: string := "https://plausible.io"

  // ---------------------------------------------------------------------
  // Options of the three stats operations. An option the caller leaves out
  // or passes as null is None.

  datatype AggregateOptions = AggregateOptions(
    period: Option<Period>,
    metrics: Option<seq<Metric>>,
    compare: Option<bool>,
    filters: Option<Filters>,
    date: Option<DateRange>)

  datatype TimeseriesOptions = TimeseriesOptions(
    period: Option<Period>,
    filters: Option<Filters>,
    metrics: Option<seq<Metric>>,
    interval: Option<Interval>,
    date: Option<DateRange>)

  datatype BreakdownOptions = BreakdownOptions(
    property: Property,
    period: Option<Period>,
    metrics: Option<seq<Metric>>,
    limit: Option<int>,
    page: Option<int>,
    filters: Option<Filters>,
    date: Option<DateRange>)

  /** What the option types admit: a date range comes only with the
      `custom` period. */
  predicate DateWithCustom(period: Option<Period>, date: Option<DateRange>)
  {
    date.Some? ==> period == Some(Custom)
  }

  // ---------------------------------------------------------------------
  // The value each option contributes, after the source's truthiness test

  /** getDate: the two calendar days joined by a comma. */
  function DateText(d: DateRange): string
  {
    d.from + "," + d.to
  }

  function MetricNames(ms: seq<Metric>): (r: seq<string>)
    ensures |r| == |ms|
    ensures forall i :: 0 <= i < |ms| ==> r[i] == MetricName(ms[i])
  {
    if ms == [] then []
    else
      var rest := MetricNames(ms[1..]);
      assert forall i :: 0 < i < |ms| ==> rest[i - 1] == MetricName(ms[i]);
      [MetricName(ms[0])] + rest
  }

  /** `if (opts.period)`: every period tag is a non-empty string. */
  function PeriodValue(p: Option<Period>): (r: Option<string>)
    ensures r.Some? <==> p.Some?
    ensures r.Some? ==> r.value != ""
    ensures r == Some("custom") <==> p == Some(Custom)
  {
    if p.Some? then Some(PeriodName(p.value)) else None
  }

  /** `if (opts.metrics?.length > 0)`: the names joined with commas. */
  function MetricsValue(ms: Option<seq<Metric>>): (r: Option<string>)
    ensures r.Some? <==> ms.Some? && |ms.value| > 0
  {
    if ms.Some? && |ms.value| > 0 then Some(Join(MetricNames(ms.value), ",")) else None
  }

  /** `if (opts.compare)`: only `true` asks for the previous period. */
  function CompareValue(c: Option<bool>): Option<string>
  {
    if c == Some(true) then Some("previous_period") else None
  }

  /** `if (opts.filters)`: a filter tree is an object, so always truthy. */
  function FiltersValue(f: Option<Filters>): (r: Option<string>)
    ensures r.Some? <==> f.Some?
  {
    if f.Some? then Some(Serialize(f.value)) else None
  }

  /** `if ('date' in opts && opts.date)`. */
  function DateValue(d: Option<DateRange>): (r: Option<string>)
    ensures r.Some? <==> d.Some?
  {
    if d.Some? then Some(DateText(d.value)) else None
  }

  /** `if (opts.interval)`: every interval tag is a non-empty string. */
  function IntervalValue(i: Option<Interval>): (r: Option<string>)
    ensures r.Some? <==> i.Some?
    ensures r.Some? ==> r.value != ""
  {
    if i.Some? then Some(IntervalName(i.value)) else None
  }

  /** `if (opts.limit)` and `if (opts.page)`: zero is falsy. */
  function CountValue(n: Option<int>): (r: Option<string>)
    ensures r.Some? <==> n.Some? && n.value != 0
  {
    if n.Some? && n.value != 0 then Some(IntToString(n.value)) else None
  }

  /** The unconditional `append('period', opts.period)` of getTimeseries:
      URLSearchParams turns a missing period into "undefined". */
  function PeriodText(p: Option<Period>): (r: string)
    ensures r != ""
    ensures r == "custom" <==> p == Some(Custom)
    ensures p.None? ==> r == "undefined"
  {
    if p.Some? then PeriodName(p.value) else "undefined"
  }

  // ---------------------------------------------------------------------
  // The three parameter lists, in append order

  const AggregateKeys: seq<string> := ["period", "metrics", "compare", "filters", "date"]
  const TimeseriesKeys: seq<string> := ["period", "filters", "metrics", "interval", "date"]
  const BreakdownKeys: seq<string> := ["property", "period", "metrics", "limit", "page", "filters", "date"]

  /** No key list repeats a key or holds `site_id`. */
  lemma KeyListsDistinct()
    ensures Distinct(AggregateKeys) && "site_id" !in AggregateKeys
    ensures Distinct(TimeseriesKeys) && "site_id" !in TimeseriesKeys
    ensures Distinct(BreakdownKeys) && "site_id" !in BreakdownKeys
  {
  }

  /** What URLSearchParams.get answers for each key of getAggregate's
      request: the option the key's truthiness test lets through, the
      site for `site_id`, nothing for any other key. */
  function AggregateLookup(o: AggregateOptions, site: string, key: string): Option<string>
  {
    if key == "period" then PeriodValue(o.period)
    else if key == "metrics" then MetricsValue(o.metrics)
    else if key == "compare" then CompareValue(o.compare)
    else if key == "filters" then FiltersValue(o.filters)
    else if key == "date" then DateValue(o.date)
    else if key == "site_id" then Some(site)
    else None
  }

  function TimeseriesLookup(o: TimeseriesOptions, site: string, key: string): Option<string>
  {
    if key == "period" then Some(PeriodText(o.period))
    else if key == "filters" then FiltersValue(o.filters)
    else if key == "metrics" then MetricsValue(o.metrics)
    else if key == "interval" then IntervalValue(o.interval)
    else if key == "date" then DateValue(o.date)
    else if key == "site_id" then Some(site)
    else None
  }

  function BreakdownLookup(o: BreakdownOptions, site: string, key: string): Option<string>
  {
    if key == "property" then Some(PropertyName(o.property))
    else if key == "period" then PeriodValue(o.period)
    else if key == "metrics" then MetricsValue(o.metrics)
    else if key == "limit" then CountValue(o.limit)
    else if key == "page" then CountValue(o.page)
    else if key == "filters" then FiltersValue(o.filters)
    else if key == "date" then DateValue(o.date)
    else if key == "site_id" then Some(site)
    else None
  }

  /** The parameters getAggregate appends before getAbstract adds the
      site, one guarded append per option. */
  function AggregateQuery(o: AggregateOptions): (r: seq<Param>)
    ensures |r| <= |AggregateKeys|
  {
    Appended("period", PeriodValue(o.period)) + Appended("metrics", MetricsValue(o.metrics))
      + Appended("compare", CompareValue(o.compare)) + Appended("filters", FiltersValue(o.filters))
      + Appended("date", DateValue(o.date))
  }

  /** The parameters getTimeseries appends: `period` without a guard. */
  function TimeseriesQuery(o: TimeseriesOptions): (r: seq<Param>)
    ensures 1 <= |r| <= |TimeseriesKeys|
    ensures r[0] == ("period", PeriodText(o.period))
  {
    [("period", PeriodText(o.period))] + Appended("filters", FiltersValue(o.filters))
      + Appended("metrics", MetricsValue(o.metrics)) + Appended("interval", IntervalValue(o.interval))
      + Appended("date", DateValue(o.date))
  }

  /** The parameters getBreakdown appends: `property` without a guard. */
  function BreakdownQuery(o: BreakdownOptions): (r: seq<Param>)
    ensures 1 <= |r| <= |BreakdownKeys|
    ensures r[0] == ("property", PropertyName(o.property))
  {
    [("property", PropertyName(o.property))] + Appended("period", PeriodValue(o.period))
      + Appended("metrics", MetricsValue(o.metrics)) + Appended("limit", CountValue(o.limit))
      + Appended("page", CountValue(o.page)) + Appended("filters", FiltersValue(o.filters))
      + Appended("date", DateValue(o.date))
  }

  // ---------------------------------------------------------------------
  // Base URL

  /** The base URL the constructor stores, as the code is written: the
      trailing-slash test reads `charAt(length)`, one past the end. */
  function StoredBaseUrl(arg: Option<string>): string
  {
    if arg.Some? && arg.value != "" then
      if CharAt(arg.value, |arg.value|) == "/" then DropLast(arg.value) else arg.value
    else DefaultBaseUrl
  }

  /** The base URL with the trim the comment describes: the test reads the
      last character. */
  function TrimmedBaseUrl(arg: Option<string>): string
  {
    if arg.Some? && arg.value != "" then
      if CharAt(arg.value, |arg.value| - 1) == "/" then DropLast(arg.value) else arg.value
    else DefaultBaseUrl
  }

  class Plausible {
    var baseUrl: string
    var key: string
    var site: string

    constructor (key: string, site: string, baseUrl: Option<string>)
      ensures this.key == key && this.site == site
      ensures this.baseUrl == StoredBaseUrl(baseUrl)
      ensures baseUrl.Some? && baseUrl.value != "" ==> this.baseUrl == baseUrl.value
      ensures baseUrl.None? || baseUrl.value == "" ==> this.baseUrl == DefaultBaseUrl
    {
      this.key := key;
      this.site := site;
      this.baseUrl := DefaultBaseUrl;
      if baseUrl.Some? && baseUrl.value != "" {
        var url := baseUrl.value;
        if CharAt(url, |url|) == "/" {
          url := DropLast(url);
        }
        this.baseUrl := url;
      }
      StoredBaseUrlUnchanged(baseUrl);
    }

    /** The parameter step of getAbstract: the site identifier goes last. */
    method AbstractParams(params: seq<Param>) returns (sent: seq<Param>)
      ensures sent == params + [("site_id", site)]
    {
      sent := params + [("site_id", site)];
    }

    /** The parameters getAggregate sends. */
    method AggregateParams(o: AggregateOptions) returns (sent: seq<Param>)
      ensures sent == AggregateQuery(o) + [("site_id", site)]
    {
      var params: seq<Param> := [];
      if o.period.Some? {
        params := params + [("period", PeriodName(o.period.value))];
      }
      ghost var p1 := Appended("period", PeriodValue(o.period));
      assert params == p1;
      if o.metrics.Some? && |o.metrics.value| > 0 {
        params := params + [("metrics", Join(MetricNames(o.metrics.value), ","))];
      }
      ghost var p2 := p1 + Appended("metrics", MetricsValue(o.metrics));
      assert params == p2;
      if o.compare == Some(true) {
        params := params + [("compare", "previous_period")];
      }
      ghost var p3 := p2 + Appended("compare", CompareValue(o.compare));
      assert params == p3;
      if o.filters.Some? {
        params := params + [("filters", Serialize(o.filters.value))];
      }
      ghost var p4 := p3 + Appended("filters", FiltersValue(o.filters));
      assert params == p4;
      if o.date.Some? {
        params := params + [("date", DateText(o.date.value))];
      }
      assert params == p4 + Appended("date", DateValue(o.date));
      sent := AbstractParams(params);
    }

    /** The parameters getTimeseries sends. */
    method TimeseriesParams(o: TimeseriesOptions) returns (sent: seq<Param>)
      ensures sent == TimeseriesQuery(o) + [("site_id", site)]
    {
      var params: seq<Param> := [];
      params := params + [("period", PeriodText(o.period))];
      if o.filters.Some? {
        params := params + [("filters", Serialize(o.filters.value))];
      }
      ghost var p2 := [("period", PeriodText(o.period))] + Appended("filters", FiltersValue(o.filters));
      assert params == p2;
      if o.metrics.Some? && |o.metrics.value| > 0 {
        params := params + [("metrics", Join(MetricNames(o.metrics.value), ","))];
      }
      ghost var p3 := p2 + Appended("metrics", MetricsValue(o.metrics));
      assert params == p3;
      if o.interval.Some? {
        params := params + [("interval", IntervalName(o.interval.value))];
      }
      ghost var p4 := p3 + Appended("interval", IntervalValue(o.interval));
      assert params == p4;
      if o.date.Some? {
        params := params + [("date", DateText(o.date.value))];
      }
      assert params == p4 + Appended("date", DateValue(o.date));
      sent := AbstractParams(params);
    }

    /** The parameters getBreakdown sends. */
    method BreakdownParams(o: BreakdownOptions) returns (sent: seq<Param>)
      ensures sent == BreakdownQuery(o) + [("site_id", site)]
    {
      var params: seq<Param> := [];
      params := params + [("property", PropertyName(o.property))];
      if o.period.Some? {
        params := params + [("period", PeriodName(o.period.value))];
      }
      ghost var p2 := [("property", PropertyName(o.property))] + Appended("period", PeriodValue(o.period));
      assert params == p2;
      if o.metrics.Some? && |o.metrics.value| > 0 {
        params := params + [("metrics", Join(MetricNames(o.metrics.value), ","))];
      }
      ghost var p3 := p2 + Appended("metrics", MetricsValue(o.metrics));
      assert params == p3;
      if o.limit.Some? && o.limit.value != 0 {
        params := params + [("limit", IntToString(o.limit.value))];
      }
      ghost var p4 := p3 + Appended("limit", CountValue(o.limit));
      assert params == p4;
      if o.page.Some? && o.page.value != 0 {
        params := params + [("page", IntToString(o.page.value))];
      }
      ghost var p5 := p4 + Appended("page", CountValue(o.page));
      assert params == p5;
      if o.filters.Some? {
        params := params + [("filters", Serialize(o.filters.value))];
      }
      ghost var p6 := p5 + Appended("filters", FiltersValue(o.filters));
      assert params == p6;
      if o.date.Some? {
        params := params + [("date", DateText(o.date.value))];
      }
      assert params == p6 + Appended("date", DateValue(o.date));
      sent := AbstractParams(params);
    }
  }

  // ---------------------------------------------------------------------
  // What each builder sends

  /** URLSearchParams.get on what getAggregate sends answers as the
      lookup table says, for every key: each option its truthiness test
      lets through under its own key, the site under `site_id`, and
      nothing else. */
  lemma AggregateSentLookup(o: AggregateOptions, site: string)
    ensures forall key :: Get(AggregateQuery(o) + [("site_id", site)], key) == AggregateLookup(o, site, key)
  {
    var p1 := Appended("period", PeriodValue(o.period));
    var p2 := p1 + Appended("metrics", MetricsValue(o.metrics));
    var p3 := p2 + Appended("compare", CompareValue(o.compare));
    var p4 := p3 + Appended("filters", FiltersValue(o.filters));
    var p5 := p4 + Appended("date", DateValue(o.date));
    forall key
      ensures Get(p5 + [("site_id", site)], key) == AggregateLookup(o, site, key)
    {
      GetAfter([], "period", PeriodValue(o.period), key);
      assert [] + p1 == p1;
      GetAfter(p1, "metrics", MetricsValue(o.metrics), key);
      GetAfter(p2, "compare", CompareValue(o.compare), key);
      GetAfter(p3, "filters", FiltersValue(o.filters), key);
      GetAfter(p4, "date", DateValue(o.date), key);
      GetAfter(p5, "site_id", Some(site), key);
    }
  }

  /** getAggregate's keys come in the order of the code, `site_id` last,
      none twice. */
  lemma AggregateSentOrder(o: AggregateOptions, site: string)
    ensures Subsequence(Keys(AggregateQuery(o)), AggregateKeys)
    ensures Keys(AggregateQuery(o) + [("site_id", site)]) == Keys(AggregateQuery(o)) + ["site_id"]
    ensures Distinct(Keys(AggregateQuery(o) + [("site_id", site)]))
  {
    var p1 := Appended("period", PeriodValue(o.period));
    var p2 := p1 + Appended("metrics", MetricsValue(o.metrics));
    var p3 := p2 + Appended("compare", CompareValue(o.compare));
    var p4 := p3 + Appended("filters", FiltersValue(o.filters));
    KeysStep([], [], "period", PeriodValue(o.period));
    var k1 := [] + ["period"];
    assert [] + p1 == p1;
    KeysStep(p1, k1, "metrics", MetricsValue(o.metrics));
    var k2 := k1 + ["metrics"];
    KeysStep(p2, k2, "compare", CompareValue(o.compare));
    var k3 := k2 + ["compare"];
    KeysStep(p3, k3, "filters", FiltersValue(o.filters));
    var k4 := k3 + ["filters"];
    KeysStep(p4, k4, "date", DateValue(o.date));
    var k5 := k4 + ["date"];
    assert k5 == AggregateKeys;
    KeyListsDistinct();
    SiteLast(AggregateQuery(o), AggregateKeys, site);
  }

  lemma TimeseriesSentLookup(o: TimeseriesOptions, site: string)
    ensures forall key :: Get(TimeseriesQuery(o) + [("site_id", site)], key) == TimeseriesLookup(o, site, key)
  {
    var p1 := [("period", PeriodText(o.period))];
    var p2 := p1 + Appended("filters", FiltersValue(o.filters));
    var p3 := p2 + Appended("metrics", MetricsValue(o.metrics));
    var p4 := p3 + Appended("interval", IntervalValue(o.interval));
    var p5 := p4 + Appended("date", DateValue(o.date));
    forall key
      ensures Get(p5 + [("site_id", site)], key) == TimeseriesLookup(o, site, key)
    {
      GetAfter([], "period", Some(PeriodText(o.period)), key);
      assert [] + p1 == p1;
      GetAfter(p1, "filters", FiltersValue(o.filters), key);
      GetAfter(p2, "metrics", MetricsValue(o.metrics), key);
      GetAfter(p3, "interval", IntervalValue(o.interval), key);
      GetAfter(p4, "date", DateValue(o.date), key);
      GetAfter(p5, "site_id", Some(site), key);
    }
  }

  /** getTimeseries always sends `period`, first. */
  lemma TimeseriesSentOrder(o: TimeseriesOptions, site: string)
    ensures (TimeseriesQuery(o) + [("site_id", site)])[0] == ("period", PeriodText(o.period))
    ensures Subsequence(Keys(TimeseriesQuery(o)), TimeseriesKeys)
    ensures Keys(TimeseriesQuery(o) + [("site_id", site)]) == Keys(TimeseriesQuery(o)) + ["site_id"]
    ensures Distinct(Keys(TimeseriesQuery(o) + [("site_id", site)]))
  {
    var p1 := [("period", PeriodText(o.period))];
    var p2 := p1 + Appended("filters", FiltersValue(o.filters));
    var p3 := p2 + Appended("metrics", MetricsValue(o.metrics));
    var p4 := p3 + Appended("interval", IntervalValue(o.interval));
    KeysStep([], [], "period", Some(PeriodText(o.period)));
    var k1 := [] + ["period"];
    assert [] + p1 == p1;
    KeysStep(p1, k1, "filters", FiltersValue(o.filters));
    var k2 := k1 + ["filters"];
    KeysStep(p2, k2, "metrics", MetricsValue(o.metrics));
    var k3 := k2 + ["metrics"];
    KeysStep(p3, k3, "interval", IntervalValue(o.interval));
    var k4 := k3 + ["interval"];
    KeysStep(p4, k4, "date", DateValue(o.date));
    var k5 := k4 + ["date"];
    assert k5 == TimeseriesKeys;
    KeyListsDistinct();
    SiteLast(TimeseriesQuery(o), TimeseriesKeys, site);
  }

  lemma BreakdownSentLookup(o: BreakdownOptions, site: string)
    ensures forall key :: Get(BreakdownQuery(o) + [("site_id", site)], key) == BreakdownLookup(o, site, key)
  {
    var p1 := [("property", PropertyName(o.property))];
    var p2 := p1 + Appended("period", PeriodValue(o.period));
    var p3 := p2 + Appended("metrics", MetricsValue(o.metrics));
    var p4 := p3 + Appended("limit", CountValue(o.limit));
    var p5 := p4 + Appended("page", CountValue(o.page));
    var p6 := p5 + Appended("filters", FiltersValue(o.filters));
    var p7 := p6 + Appended("date", DateValue(o.date));
    forall key
      ensures Get(p7 + [("site_id", site)], key) == BreakdownLookup(o, site, key)
    {
      GetAfter([], "property", Some(PropertyName(o.property)), key);
      assert [] + p1 == p1;
      GetAfter(p1, "period", PeriodValue(o.period), key);
      GetAfter(p2, "metrics", MetricsValue(o.metrics), key);
      GetAfter(p3, "limit", CountValue(o.limit), key);
      GetAfter(p4, "page", CountValue(o.page), key);
      GetAfter(p5, "filters", FiltersValue(o.filters), key);
      GetAfter(p6, "date", DateValue(o.date), key);
      GetAfter(p7, "site_id", Some(site), key);
    }
  }

  /** getBreakdown's keys follow its key list. */
  lemma BreakdownKeysInOrder(o: BreakdownOptions)
    ensures Subsequence(Keys(BreakdownQuery(o)), BreakdownKeys)
  {
    var p1 := [("property", PropertyName(o.property))];
    var p2 := p1 + Appended("period", PeriodValue(o.period));
    var p3 := p2 + Appended("metrics", MetricsValue(o.metrics));
    var p4 := p3 + Appended("limit", CountValue(o.limit));
    var p5 := p4 + Appended("page", CountValue(o.page));
    var p6 := p5 + Appended("filters", FiltersValue(o.filters));
    KeysStep([], [], "property", Some(PropertyName(o.property)));
    var k1 := [] + ["property"];
    assert [] + p1 == p1;
    KeysStep(p1, k1, "period", PeriodValue(o.period));
    var k2 := k1 + ["period"];
    KeysStep(p2, k2, "metrics", MetricsValue(o.metrics));
    var k3 := k2 + ["metrics"];
    KeysStep(p3, k3, "limit", CountValue(o.limit));
    var k4 := k3 + ["limit"];
    KeysStep(p4, k4, "page", CountValue(o.page));
    var k5 := k4 + ["page"];
    KeysStep(p5, k5, "filters", FiltersValue(o.filters));
    var k6 := k5 + ["filters"];
    KeysStep(p6, k6, "date", DateValue(o.date));
    var k7 := k6 + ["date"];
    assert k7 == BreakdownKeys;
  }

  /** getBreakdown always sends `property`, first. */
  lemma BreakdownSentOrder(o: BreakdownOptions, site: string)
    ensures (BreakdownQuery(o) + [("site_id", site)])[0] == ("property", PropertyName(o.property))
    ensures Subsequence(Keys(BreakdownQuery(o)), BreakdownKeys)
    ensures Keys(BreakdownQuery(o) + [("site_id", site)]) == Keys(BreakdownQuery(o)) + ["site_id"]
    ensures Distinct(Keys(BreakdownQuery(o) + [("site_id", site)]))
  {
    BreakdownKeysInOrder(o);
    KeyListsDistinct();
    SiteLast(BreakdownQuery(o), BreakdownKeys, site);
  }

  /** For options the types admit, each builder sends a date only
      together with `period=custom`. */
  lemma DateOnlyWithCustom(a: AggregateOptions, t: TimeseriesOptions, b: BreakdownOptions, site: string)
    requires DateWithCustom(a.period, a.date)
    requires DateWithCustom(t.period, t.date)
    requires DateWithCustom(b.period, b.date)
    ensures Get(AggregateQuery(a) + [("site_id", site)], "date").Some? ==>
              Get(AggregateQuery(a) + [("site_id", site)], "period") == Some("custom")
    ensures Get(TimeseriesQuery(t) + [("site_id", site)], "date").Some? ==>
              Get(TimeseriesQuery(t) + [("site_id", site)], "period") == Some("custom")
    ensures Get(BreakdownQuery(b) + [("site_id", site)], "date").Some? ==>
              Get(BreakdownQuery(b) + [("site_id", site)], "period") == Some("custom")
  {
    AggregateSentLookup(a, site);
    TimeseriesSentLookup(t, site);
    BreakdownSentLookup(b, site);
  }

  /** The comma-joined metric names split back into the names: no metric
      name holds a comma or a parenthesis. */
  lemma MetricsRoundTrip(ms: seq<Metric>)
    requires |ms| > 0
    ensures SplitTop(MetricsValue(Some(ms)).value, ',') == MetricNames(ms)
  {
    var names := MetricNames(ms);
    forall i | 0 <= i < |names|
      ensures Depth(names[i]) == 0 && NoTopLevel(names[i], ',', 0)
    {
      assert NoParens(names[i]);
      PlainNoTopLevel(names[i], ',');
    }
    SplitTopJoin(names, ',');
  }

  /** The date parameter splits back at its comma into the two days, for
      days without commas or parentheses, as the YYYY-MM-DD form has. */
  lemma DateTextRoundTrip(d: DateRange)
    requires NoParens(d.from) && NoParens(d.to)
    requires forall i :: 0 <= i < |d.from| ==> d.from[i] != ','
    requires forall i :: 0 <= i < |d.to| ==> d.to[i] != ','
    ensures SplitTop(DateValue(Some(d)).value, ',') == [d.from, d.to]
  {
    PlainNoTopLevel(d.from, ',');
    PlainNoTopLevel(d.to, ',');
    var xs := [d.from, d.to];
    JoinPair(d.from, d.to, [',']);
    SplitTopJoin(xs, ',');
  }

  // ---------------------------------------------------------------------
  // The base URL defect

  /** The path part of getAbstract's endpoint: the base URL, a slash and
      the operation's path. */
  function Endpoint(base: string, path: string): string
  {
    base + "/" + path
  }

  /** As written, the constructor's trim never fires: the character it
      reads is one past the end, so a non-empty argument is stored
      exactly as given, and an absent or empty one gives the default. */
  lemma StoredBaseUrlUnchanged(arg: Option<string>)
    ensures arg.Some? && arg.value != "" ==> StoredBaseUrl(arg) == arg.value
    ensures arg.None? || arg.value == "" ==> StoredBaseUrl(arg) == DefaultBaseUrl
  {
    if arg.Some? && arg.value != "" {
      assert CharAt(arg.value, |arg.value|) == "";
    }
  }

  /** So a base URL given with a trailing slash keeps it, and every
      endpoint built on it has two slashes before the path. */
  lemma TrailingSlashKept(s: string, path: string)
    requires |s| > 0 && s[|s| - 1] == '/'
    ensures StoredBaseUrl(Some(s)) == s
    ensures Endpoint(StoredBaseUrl(Some(s)), path)[|s| - 1..|s| + 1] == "//"
  {
    StoredBaseUrlUnchanged(Some(s));
    var e := Endpoint(s, path);
    assert e[|s| - 1] == s[|s| - 1];
  }

  /** A concrete instance: the base URL of a self-hosted server, written
      with a slash at the end. */
  lemma TrailingSlashExample()
    ensures StoredBaseUrl(Some("https://a.io/")) == "https://a.io/"
    ensures Endpoint(StoredBaseUrl(Some("https://a.io/")), "api") == "https://a.io//api"
  {
    TrailingSlashKept("https://a.io/", "api");
  }

  /** With the test reading the last character, one trailing slash is
      removed and a URL without one is kept, so the endpoint is the same
      whether or not the caller wrote the slash. */
  lemma TrimmedBaseUrlTrims(s: string, path: string)
    requires |s| > 0 && s[|s| - 1] != '/'
    ensures TrimmedBaseUrl(Some(s)) == s
    ensures TrimmedBaseUrl(Some(s + "/")) == s
    ensures Endpoint(TrimmedBaseUrl(Some(s + "/")), path) == Endpoint(TrimmedBaseUrl(Some(s)), path)
  {
    assert CharAt(s, |s| - 1) != "/";
    var t := s + "/";
    assert CharAt(t, |t| - 1) == "/";
    assert DropLast(t) == s;
  }

  // ---------------------------------------------------------------------
  // The request of the repository's test

  /** The options the test passes to getAggregate. */
  function TestOptions(): AggregateOptions
  {
    AggregateOptions(Some(Custom), Some([Pageviews]), None, Some(TestFilters()),
                     Some(DateRange("1970-01-01", "2050-01-01")))
  }

  /** What each of the test's options contributes. */
  lemma TestOptionsValues()
    ensures PeriodValue(TestOptions().period) == Some("custom")
    ensures MetricsValue(TestOptions().metrics) == Some("pageviews")
    ensures CompareValue(TestOptions().compare) == None
    ensures FiltersValue(TestOptions().filters) == Some("event:page==/dashboard*|/love*;event:hostname==socket.dev")
    ensures DateValue(TestOptions().date) == Some("1970-01-01,2050-01-01")
  {
    assert MetricNames([Pageviews]) == ["pageviews"];
    TestFiltersRendering();
    assert DateText(TestOptions().date.value) == "1970-01-01" + "," + "2050-01-01";
    assert "1970-01-01" + "," + "2050-01-01" == "1970-01-01,2050-01-01";
  }

  /** The test's query: the custom period, the one metric, the serialised
      filters and the date range, in that order, and no `compare`. */
  lemma TestOptionsQuery()
    ensures DateWithCustom(TestOptions().period, TestOptions().date)
    ensures AggregateQuery(TestOptions())
         == [("period", "custom"), ("metrics", "pageviews"),
             ("filters", "event:page==/dashboard*|/love*;event:hostname==socket.dev"),
             ("date", "1970-01-01,2050-01-01")]
  {
    TestOptionsValues();
  }
}
