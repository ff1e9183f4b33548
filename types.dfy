/** The client's data model (src/types.ts): the tag sets for periods,
    intervals, properties and metrics, the date range, and the filter tree. */
module Types {

  /** Time periods the API accepts. */
  datatype Period = TwelveMonths | SixMonths | Month | ThirtyDays | SevenDays | Day | Custom

  function PeriodName(p: Period): (r: string)
    ensures r != ""
    ensures r == "custom" <==> p == Custom
  {
    match p
    case TwelveMonths => "12mo"
    case SixMonths => "6mo"
    case Month => "month"
    case ThirtyDays => "30d"
    case SevenDays => "7d"
    case Day => "day"
    case Custom => "custom"
  }

  /** Distinct periods have distinct wire names. */
  lemma PeriodNameInjective(p: Period, q: Period)
    ensures PeriodName(p) == PeriodName(q) ==> p == q
  {
    match p
    case TwelveMonths => assert PeriodName(p)[0] == '1';
    case SixMonths => assert PeriodName(p)[0] == '6';
    case Month => assert PeriodName(p)[0] == 'm';
    case ThirtyDays => assert PeriodName(p)[0] == '3';
    case SevenDays => assert PeriodName(p)[0] == '7';
    case Day => assert PeriodName(p)[0] == 'd';
    case Custom => assert PeriodName(p)[0] == 'c';
  }

  datatype Interval = Date | MonthInterval

  function IntervalName(i: Interval): (r: string)
    ensures r != ""
  {
    match i
    case Date => "date"
    case MonthInterval => "month"
  }

  /** The calendar days a date range covers, each already in the
      YYYY-MM-DD form that getDate cuts out of Date.toISOString. */
  datatype DateRange = DateRange(from: string, to: string)

  /** The event and visit properties a filter or a breakdown can name. */
  datatype Property =
    | EventGoal | EventPage | EventHostname
    | VisitEntryPage | VisitExitPage | VisitSource | VisitReferrer
    | VisitUtmMedium | VisitUtmSource | VisitUtmCampaign | VisitUtmContent | VisitUtmTerm
    | VisitDevice | VisitBrowser | VisitBrowserVersion | VisitOs | VisitOsVersion
    | VisitCountry | VisitRegion | VisitCity

  /** The scope of a property tag: the part before the colon. */
  function Scope(p: Property): string
  {
    if p.EventGoal? || p.EventPage? || p.EventHostname? then "event" else "visit"
  }

  /** The key of a property tag: the part after the colon. */
  function Key(p: Property): (r: string)
    ensures |r| > 0
  {
    match p
    case EventGoal => "goal"
    case EventPage => "page"
    case EventHostname => "hostname"
    case VisitEntryPage => "entry_page"
    case VisitExitPage => "exit_page"
    case VisitSource => "source"
    case VisitReferrer => "referrer"
    case VisitUtmMedium => "utm_medium"
    case VisitUtmSource => "utm_source"
    case VisitUtmCampaign => "utm_campaign"
    case VisitUtmContent => "utm_content"
    case VisitUtmTerm => "utm_term"
    case VisitDevice => "device"
    case VisitBrowser => "browser"
    case VisitBrowserVersion => "browser_version"
    case VisitOs => "os"
    case VisitOsVersion => "os_version"
    case VisitCountry => "country"
    case VisitRegion => "region"
    case VisitCity => "city"
  }

  /** The wire name of a property, `scope:key` as in "event:page". */
  function PropertyName(p: Property): string
  {
    Scope(p) + ":" + Key(p)
  }

  /** Every property name is "event:" or "visit:" followed by a non-empty
      key, so its key is what follows the colon. */
  lemma PropertyNameShape(p: Property)
    ensures |PropertyName(p)| > 6 && PropertyName(p)[5] == ':'
    ensures PropertyName(p)[..5] == "event" || PropertyName(p)[..5] == "visit"
    ensures PropertyName(p)[6..] == Key(p)
  {
    assert PropertyName(p)[..5] == Scope(p);
  }

  /** Characters that can occur in a property name. */
  predicate NameChar(ch: char)
  {
    ('a' <= ch <= 'z') || ch == '_' || ch == ':'
  }

  lemma KeyChars(p: Property)
    ensures forall i :: 0 <= i < |Key(p)| ==> NameChar(Key(p)[i])
  {
    var k := Key(p);
    forall i | 0 <= i < |k|
      ensures NameChar(k[i])
    {
      match p
      case EventGoal => {}
      case EventPage => {}
      case EventHostname => {}
      case VisitEntryPage => {}
      case VisitExitPage => {}
      case VisitSource => {}
      case VisitReferrer => {}
      case VisitUtmMedium => {}
      case VisitUtmSource => {}
      case VisitUtmCampaign => {}
      case VisitUtmContent => {}
      case VisitUtmTerm => {}
      case VisitDevice => {}
      case VisitBrowser => {}
      case VisitBrowserVersion => {}
      case VisitOs => {}
      case VisitOsVersion => {}
      case VisitCountry => {}
      case VisitRegion => {}
      case VisitCity => {}
    }
  }

  /** Property names hold only lower-case letters, `_` and one `:`, so
      none of them contains a parenthesis or a filter combinator. */
  lemma PropertyNameChars(p: Property)
    ensures forall i :: 0 <= i < |PropertyName(p)| ==> NameChar(PropertyName(p)[i])
  {
    KeyChars(p);
    var s, k := Scope(p), Key(p);
    assert PropertyName(p) == s + ":" + k;
    forall i | 0 <= i < |PropertyName(p)|
      ensures NameChar(PropertyName(p)[i])
    {
      if i < |s| {
        assert PropertyName(p)[i] == s[i];
      } else if i > |s| {
        assert PropertyName(p)[i] == k[i - |s| - 1];
      }
    }
  }

  /** Metrics the API can report. */
  datatype Metric =
    | Visitors | Visits | Pageviews | ViewsPerVisit | BounceRate
    | VisitDuration | Events | ConversionRate | TimeOnPage

  function MetricName(m: Metric): (r: string)
    ensures r != ""
    ensures forall i :: 0 <= i < |r| ==> NameChar(r[i]) && r[i] != ':'
  {
    match m
    case Visitors => "visitors"
    case Visits => "visits"
    case Pageviews => "pageviews"
    case ViewsPerVisit => "views_per_visit"
    case BounceRate => "bounce_rate"
    case VisitDuration => "visit_duration"
    case Events => "events"
    case ConversionRate => "conversion_rate"
    case TimeOnPage => "time_on_page"
  }

  // ---------------------------------------------------------------------
  // The filter tree

  /** A group's combinator: `;` (all children hold) or `|` (one holds). */
  datatype Combinator = And | Or

  function CombinatorChar(op: Combinator): (c: char)
    ensures c == ';' || c == '|'
    ensures c != '(' && c != ')'
  {
    match op
    case And => ';'
    case Or => '|'
  }

  /** The any-of combinator; its type admits the one token `|`. */
  datatype AnyOfOperator = Pipe

  function AnyOfToken(op: AnyOfOperator): string
  {
    "|"
  }

  /** The value of an `==` comparison: one string, or a list of
      alternatives any of which matches. */
  datatype EqValue = Plain(text: string) | AnyOf(operator: AnyOfOperator, values: seq<string>)

  /** A leaf comparison. Only `==` admits an any-of list; a `!=`
      comparison always compares with one string. */
  datatype FilterNode =
    | Equals(property: Property, value: EqValue)
    | NotEquals(property: Property, text: string)

  /** A group of children under one combinator. */
  datatype Filters = Filters(operator: Combinator, children: seq<Child>)

  /** A child of a group: a comparison or a nested group. */
  datatype Child = Leaf(node: FilterNode) | Nested(group: Filters)
}
