# plausible-js: filters, query parameters and base URL

A Dafny model of the core of plausible-js, a TypeScript client for the
Plausible Analytics stats API. It covers:

- the `Plausible` client class and its constructor. This includes the
  trailing-slash trim on the base URL, which never fires as written.
- the query parameters that `getAggregate`, `getTimeseries` and
  `getBreakdown` build. Each guarded `append` depends on the truthiness of
  one option, and `getAbstract` appends `site_id` last.
- `getFilters`, which renders a filter tree as the compact string the API
  reads as its `filters` parameter. A comparison renders as property,
  operator and value. An any-of list joins its values with `|`. A group
  joins its children with `;` or `|`. A nested group is parenthesised only
  when it has two or more children. The root adds no parentheses of its
  own.

Modules, one per concern:

- `Wrappers` (`Option`).
- `Strings`: JavaScript's `join`, `charAt`, `slice(0, -1)` and
  `Number.toString` on integers below 10^21 in magnitude, plus a parenthesis-aware splitter used to state that
  a rendering can be read back.
- `Types`: `src/types.ts` as datatypes. Period, property, metric and
  interval are tag sets. A filter node is `Equals` or `NotEquals`, so only
  `==` can carry an any-of list. A child is `Leaf` or `Nested`, which
  replaces the `'property' in filter` probe.
- `Serializer`: `getFilters`.
- `QueryParams`: `URLSearchParams` as the ordered list of pairs that
  `append` grows and `get` reads.
- `Client`: the `Plausible` class.

The builders are imperative methods. Each appends to a local list in the
code's order, and each is proved equal to a query function built from one
guarded pair per option. Lemmas about that function give what
`URLSearchParams.get` answers for every key: each option under its own key,
the site under `site_id`, and nothing for any other key. Further lemmas
show the keys keep the code's order, `site_id` comes last and no key
occurs twice.

Two edge cases follow the code's types:

- A group may have no children (`children: Array<...>`). It renders as the
  empty string.
- An any-of list may be empty (`values: Array<string>`). Its value renders
  as the empty string, so the comparison is the property followed by `==`.

## Model

| member | source | states |
|---|---|---|
| Types.PeriodName | src/types.ts:1-8 | every period has a non-empty wire name, and the name is "custom" exactly for the custom period |
| Types.PeriodNameInjective | src/types.ts:1-8 | distinct period tags have distinct wire names |
| Types.IntervalName | src/types.ts:10 | every interval tag renders as a non-empty string |
| Types.Scope | src/types.ts:17-37 | definition: "event" for the three event properties, "visit" for the rest; see Types.PropertyNameShape |
| Types.Key | src/types.ts:17-37 | the part after the colon is never empty |
| Types.PropertyName | src/types.ts:17-37 | definition: scope, colon, key; see Types.PropertyNameShape and Types.PropertyNameChars |
| Types.PropertyNameShape | src/types.ts:17-37 | every property name is "event" or "visit", then a colon, then a non-empty key |
| Types.KeyChars | src/types.ts:17-37 | the keys of property tags hold only lower-case letters and `_` |
| Types.PropertyNameChars | src/types.ts:17-37 | property names hold only lower-case letters, `_` and `:`, so never a parenthesis or a combinator |
| Types.MetricName | src/types.ts:39-48 | metric names are non-empty and hold only lower-case letters and `_`, so never a comma |
| Types.CombinatorChar | src/types.ts:90-91 | a group's combinator is exactly the semicolon or the pipe, never a parenthesis |
| Types.AnyOfToken | src/types.ts:80-83 | definition: the any-of operator's one token; see Serializer.AnyOfRendering |
| Strings.JoinPair | src/index.ts:209 | joining two strings puts the separator once between them |
| Strings.Join | src/index.ts:209 | definition of `join`; see Strings.JoinPair, Strings.JoinAppend and Strings.SplitTopJoin |
| Strings.JoinAppend | src/index.ts:209 | the join of two non-empty lists is their joins with one separator between |
| Strings.CharAt | src/index.ts:27 | definition of `charAt`: one character for an index in range, "" otherwise; see Client.StoredBaseUrlUnchanged |
| Strings.DropLast | src/index.ts:28 | `slice(0, -1)` removes exactly the last character |
| Strings.SplitTopJoin | src/index.ts:209 | splitting a join at its separator outside parentheses gives back the list, if no element is unbalanced or holds the separator at depth zero |
| Strings.NatToString | src/index.ts:172-173 | the decimal digits of a natural number: non-empty, digits only, no leading zero |
| Strings.IntToString | src/index.ts:172-173 | definition of `toString` on integers, never empty; see Strings.IntToStringDigits and Strings.IntToStringRoundTrip |
| Strings.IntToStringDigits | src/index.ts:172-173 | `toString` of an integer below 10^21 in magnitude is digits, preceded by a minus sign exactly when it is negative |
| Strings.IntToStringRoundTrip | src/index.ts:172-173 | reading back the decimal rendering of an integer gives that integer |
| Serializer.ComparisonToken | src/types.ts:79-86 | a comparison's operator token is two characters ending in `=` |
| Serializer.ValueText | src/index.ts:197-199 | definition: the plain value, or the any-of values joined with the any-of operator; see Serializer.NotEqualsRendering, Serializer.AnyOfRendering and Serializer.SingletonAnyOf |
| Serializer.LeafText | src/index.ts:196-200 | definition: property name, operator token, value; see Serializer.NotEqualsRendering, Serializer.AnyOfRendering and Serializer.SingletonAnyOf |
| Serializer.Serialize | src/index.ts:192-210 | definition of `getFilters`; see Serializer.RootPieces, Serializer.SerializeBalanced and Serializer.CollapsePreservesRendering |
| Serializer.ChildText | src/index.ts:195-208 | definition of the `map` callback; see Serializer.NestedGroupParenthesised and Serializer.SingleChildGroup |
| Serializer.ChildTexts | src/index.ts:193 | the map over a group's children gives one rendering per child |
| Serializer.NotEqualsRendering | src/index.ts:196-200 | a `!=` comparison renders as property, "!=" and its plain value |
| Serializer.AnyOfRendering | src/index.ts:196-199 | an `==` comparison with an any-of list renders as property, "==" and the values joined with a pipe, with no parentheses |
| Serializer.SingletonAnyOf | src/index.ts:197-199 | an any-of list of one value renders as the plain comparison with that value |
| Serializer.EmptyGroup | src/index.ts:193-209 | a group without children renders as the empty string, at the root and when nested |
| Serializer.SingleChildGroup | src/index.ts:203-208 | a group with one child renders as that child whatever its combinator, and stays unwrapped when nested |
| Serializer.GroupConcat | src/index.ts:193-209 | splitting a group's children in two splits its rendering at exactly one combinator token |
| Serializer.TwoChildGroup | src/index.ts:193-209 | a two-child group is the first child's rendering, the combinator, then the second's |
| Serializer.SerializeBalanced | src/index.ts:192-210 | if no value holds a parenthesis, every rendering has balanced parentheses |
| Serializer.ChildBalanced | src/index.ts:203-208 | if no value holds a parenthesis, a child's rendering in its parent is balanced |
| Serializer.NestedGroupParenthesised | src/index.ts:204-205 | a nested group with two or more children renders in its parent as "(", its own rendering, ")"; if no value holds a parenthesis, the result is balanced and the opening parenthesis closes only at the last character |
| Serializer.ChildPiece | src/index.ts:193-209 | if no value holds a parenthesis and the values reaching the top level are free of the parent's combinator, a child's rendering is balanced (net depth zero, never below zero) and has that combinator nowhere at depth zero |
| Serializer.RootPieces | src/index.ts:193-209 | for a non-empty root, when no value holds a parenthesis and no value reaching the top level holds the root's combinator, the rendering split at that combinator outside parentheses gives back exactly the children's renderings, so the root adds no parentheses of its own |
| Serializer.Collapse | src/index.ts:206-207 | collapsing single-child groups keeps the operator and the number of children |
| Serializer.CollapsePreservesRendering | src/index.ts:206-207 | replacing every nested single-child group by its child changes no rendering and leaves no such group |
| Serializer.CollapseChildPreservesRendering | src/index.ts:206-207 | the same for a single child |
| Serializer.PageLeafText | src/index.ts:196-199 | the test's page comparison renders as `event:page==/dashboard*`, a pipe, `/love*` |
| Serializer.HostnameLeafText | src/index.ts:196-200 | the test's hostname comparison renders as `event:hostname==socket.dev` |
| Serializer.TestFiltersPieces | test/test.js:16-33 | the test's two comparisons render as its two pieces |
| Serializer.TestFiltersJoined | test/test.js:16-33 | the test's filters are those two pieces around `;` |
| Serializer.TestFiltersRendering | test/test.js:16-33 | the test's filters render as `event:page==/dashboard*`, a pipe, then `/love*;event:hostname==socket.dev` |
| Serializer.OsAndDeviceJoined | src/index.ts:193-209 | an AND group of an `==` and a `!=` comparison renders as the two comparisons around `;` |
| Serializer.OsAndDeviceRendering | src/index.ts:193-209 | that group renders as `visit:os==Mac;visit:device!=Tablet` |
| Serializer.MixedCombinators | src/index.ts:203-209 | an OR root over a two-child AND group and a comparison renders the AND group in parentheses, joined to the comparison with a pipe |
| Serializer.RootOverNestedGroup | src/index.ts:203-209 | a root whose only child is a two-child group renders as that group in its own parentheses: the root adds none and removes none |
| Serializer.SingleComparisonRoot | src/index.ts:193-200 | a root with one comparison renders as that comparison alone, with no parentheses and no combinator |
| QueryParams.Keys | src/index.ts:89 | the parameter list has one key per pair |
| QueryParams.Get | src/index.ts:89 | definition of `URLSearchParams.get`, the first pair with the key; see QueryParams.GetAfter |
| QueryParams.Appended | src/index.ts:91 | after a guarded append, `get` of its key answers the value when present and nothing otherwise, and `get` of any other key answers nothing |
| QueryParams.GetAfter | src/index.ts:91 | after one guarded append, `get` still answers an earlier pair's value, and otherwise the appended value for its key |
| QueryParams.KeysStep | src/index.ts:91-99 | one guarded append keeps the keys a subsequence of the builder's key list extended by that key |
| QueryParams.SiteLast | src/index.ts:39 | appending `site_id` after keys drawn in order from a repeat-free list without `site_id` puts it last and repeats no key |
| QueryParams.SubsequenceDistinct | src/index.ts:89-100 | keys drawn in order from a repeat-free list repeat none, and each is in that list |
| Client.DateText | src/index.ts:189 | definition: the two days joined by a comma; see Client.DateTextRoundTrip and Client.TestOptionsValues |
| Client.DateTextRoundTrip | src/index.ts:186-190 | the date parameter splits back at its comma into the two days, for days without commas or parentheses as the YYYY-MM-DD form has |
| Client.MetricNames | src/index.ts:92 | the metric names, one per metric, in order |
| Client.PeriodValue | src/index.ts:91 | `period` is appended exactly when a period is given, as its non-empty tag; the value is "custom" exactly for the custom period |
| Client.MetricsValue | src/index.ts:92 | `metrics` is appended exactly when the list is given and non-empty |
| Client.CountValue | src/index.ts:172-173 | `limit` and `page` are appended exactly when given and non-zero |
| Client.CompareValue | src/index.ts:93 | definition: `previous_period` exactly when compare is true; see Client.AggregateSentLookup |
| Client.FiltersValue | src/index.ts:94-96 | `filters` is appended exactly when a filter tree is given |
| Client.DateValue | src/index.ts:98-100 | `date` is appended exactly when a date range is given |
| Client.IntervalValue | src/index.ts:130 | `interval` is appended exactly when an interval is given, as its non-empty tag |
| Client.PeriodText | src/index.ts:124 | getTimeseries's period value is never empty, is "undefined" when no period is given, and is "custom" exactly for the custom period |
| Client.AggregateQuery | src/index.ts:89-100 | getAggregate appends at most one pair per option; see Client.AggregateSentLookup and Client.AggregateSentOrder |
| Client.TimeseriesQuery | src/index.ts:122-133 | getTimeseries's first pair is always `period`, and at most one pair follows per option; see Client.TimeseriesSentLookup |
| Client.BreakdownQuery | src/index.ts:166-179 | getBreakdown's first pair is always `property`, and at most one pair follows per option; see Client.BreakdownSentLookup |
| Client.Plausible.constructor | src/index.ts:21-31 | sets key and site; keeps the field initialiser's default base URL for an absent or empty argument, and otherwise stores the argument unchanged |
| Client.Plausible.AbstractParams | src/index.ts:39 | getAbstract sends its parameters with `site_id` appended last |
| Client.Plausible.AggregateParams | src/index.ts:89-100 | getAggregate sends one guarded pair per option, in the code's order, then `site_id` |
| Client.Plausible.TimeseriesParams | src/index.ts:122-133 | getTimeseries sends `period` unconditionally, then one guarded pair per option, then `site_id` |
| Client.Plausible.BreakdownParams | src/index.ts:166-179 | getBreakdown sends `property` first, then one guarded pair per option, then `site_id` |
| Client.AggregateSentLookup | src/index.ts:89-100 | for every key, `get` finds: period if set, comma-joined metrics if non-empty, `previous_period` for compare true, the serialised filters, the date if present, the site; nothing for any other key |
| Client.AggregateSentOrder | src/index.ts:91-99 | getAggregate's keys follow period, metrics, compare, filters, date; `site_id` comes last; no key occurs twice |
| Client.TimeseriesSentLookup | src/index.ts:122-133 | for every key, `get` finds: the period, or "undefined" when absent; the filters; the metrics if non-empty; the interval; the date; the site; nothing else |
| Client.TimeseriesSentOrder | src/index.ts:124-133 | getTimeseries sends `period` first, keeps the code's key order, puts `site_id` last and repeats no key |
| Client.BreakdownKeysInOrder | src/index.ts:168-179 | getBreakdown's keys are a subsequence of property, period, metrics, limit, page, filters, date |
| Client.BreakdownSentLookup | src/index.ts:166-179 | for every key, `get` finds: the property name, period, metrics, limit and page when non-zero, filters, date, site; nothing else |
| Client.BreakdownSentOrder | src/index.ts:168-179 | getBreakdown sends `property` first, keeps the code's key order, puts `site_id` last and repeats no key |
| Client.DateOnlyWithCustom | src/index.ts:78-83 | for options the types admit, every builder sends a date only together with `period=custom` |
| Client.MetricsRoundTrip | src/index.ts:92 | the comma-joined metrics split back into the metric names |
| Client.Endpoint | src/index.ts:42 | definition: base URL, one slash, path; see Client.TrailingSlashKept and Client.TrimmedBaseUrlTrims |
| Client.StoredBaseUrl | src/index.ts:25-30 | definition of the constructor's base URL as written; see Client.StoredBaseUrlUnchanged |
| Client.TrimmedBaseUrl | src/index.ts:26-28 | definition of the corrected trim; see Client.TrimmedBaseUrlTrims |
| Client.StoredBaseUrlUnchanged | src/index.ts:25-30 | as written, a non-empty base URL is stored exactly as given and an absent or empty one gives the default |
| Client.TrailingSlashKept | src/index.ts:27 | as written, a base URL ending in `/` keeps it, so every endpoint has `//` before the path |
| Client.TrailingSlashExample | src/index.ts:27 | `https://a.io/` is stored unchanged and gives the endpoint `https://a.io//api` |
| Client.TrimmedBaseUrlTrims | src/index.ts:26-28 | with the test on the last character, one trailing slash is removed and a URL without one is kept, so both spellings give the same endpoint |
| Client.TestOptionsValues | test/test.js:9-33 | the test's options give period "custom", metrics "pageviews", no compare, the serialised filters and the date "1970-01-01,2050-01-01" |
| Client.TestOptionsQuery | test/test.js:9-33 | the test's options are ones the types admit, and getAggregate builds exactly period, metrics, filters and date for them, in that order |

## Left out

- The `fetch` call, the request headers, JSON parsing and the throw on an API error (src/index.ts:42-56) are network I/O. The builders stop at the parameter list they hand over.
- `getRealtime` (src/index.ts:63-65) sends no parameters of its own, only `site_id`. This is `AbstractParams` applied to the empty list.
- The query-string text `${params}` and its percent-encoding are `URLSearchParams` library behaviour. `Endpoint` models only the base URL, slash and path.
- `getDate` (src/index.ts:186-190) converts through `Date.toISOString` in UTC. A `DateRange` here holds the two calendar days already as `YYYY-MM-DD` strings, and `DateText` models only the comma join.
- The result types `Aggregated`, `Datapoints`, `Breakdown` and `Breakdowns` (src/types.ts:50-75) have no runtime behaviour.
- `Metric` and `Interval` appear only as tags with their wire names.
- Client.Plausible.AggregateParams: `compare` is modelled as an optional boolean, so only `true` is truthy. Other JavaScript values are not modelled.
- Client.Plausible.BreakdownParams: `limit` and `page` are integers. `NaN`, `Infinity` (truthy, so appended and sent as `Infinity`) and fractional numbers, and how `toString` renders them, are not modelled.
- Strings.IntToStringDigits: holds for JavaScript only for integers below 10^21 in magnitude that a double represents exactly. From 10^21 on, `toString` writes exponent form such as `1e+21`, and integers above 2^53 are not all representable.
- Strings.IntToStringRoundTrip: the same range applies. Outside it the model's digits are not what JavaScript sends.
- Client.CountValue: agrees with the source only for `limit` and `page` below 10^21 in magnitude that a double holds exactly. A larger value such as 1e21 is sent as `1e+21`, not as 22 digits.
- Client.DateOnlyWithCustom: `Omit<Period, 'custom'>` is weaker in TypeScript than it reads. The only demand the model takes from the option types is that a date comes with `custom`.
- The `Plausible` instance is the only state. Concurrent calls and the async plumbing around them are not modelled.

## Findings

| source | as written | input that shows it | evidently intended | confidence | as-written member | corrected member |
|---|---|---|---|---|---|---|
| src/index.ts:27 | the trailing-slash test reads `baseUrl.charAt(baseUrl.length)`, one past the end, which is always "" | base URL `https://a.io/`: stored unchanged, endpoint `https://a.io//api` | test `charAt(baseUrl.length - 1)`, so one trailing slash is removed | high (not executed) | Client.TrailingSlashExample | Client.TrimmedBaseUrlTrims |

The constructor (`Client.Plausible.constructor`) keeps the code as
written. `Client.TrimmedBaseUrl` is the corrected definition, and
`Client.TrimmedBaseUrlTrims` states what it achieves.
