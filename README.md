# Vaccine-slot notifier: a Dafny model of its checker and reporter

The notifier (`bot.py`) polls the public CoWIN "calendar by district"
endpoint for each target configuration. It keeps the sessions that match the
configuration's age tier and pincode range and have free capacity. It
aggregates them per date and per pincode. For the earliest date with slots,
it posts a webhook message and a short social-media text. This project models
that core:

- `types.dfy` (`VaxTypes`): the parsed response (centers and their sessions),
  a configuration, a district roster entry and the aggregate.
  - The aggregate maps each date to the date's pincode entries, held as an
    association list in insertion order, the order in which Python's dict
    iterates them.
  - The order of days is defined here too.
- `aggregation.dfy` (`Aggregation`): `check_district`.
  - `CheckDistrict` is an imperative double loop, proved against a
    specification.
  - The specification is the accepted sessions (`AcceptedAll`) folded into a
    table (`Build`).
- `reporting.dfy` (`Reporting`): `report_availability`.
  - `ComposeReport` picks the earliest date with a min-search loop. It then
    walks that date's entries, accumulating the total, the detail fields, the
    pincodes and the centers, and builds the texts.
  - It is proved against `ReportOn`.
- `availability.dfy` (`Availability`): `check_availability`.
  - It selects the districts.
  - The scan goes district by district, week 0 then week 1. It stops at the
    first response that holds a slot and composes that response's report.
- `twitter_keys.dfy` (`TwitterKeys`): `get_twitter_keys` both as written and
  as evidently intended, plus the missing-key guard of `post_twitter`.
- `text.dfy` (`Text`): decimal rendering of integers and `str.join`, as the
  messages use them.

The upstream response, the environment and the two date formats are
parameters:
- `fetch(district, week)` is the parsed center list;
- `env` maps environment-variable names to values;
- `longDate`/`shortDate` stand for `strftime('%b %d, %Y')` and
  `strftime('%b %d')`.

Three behaviours of `bot.py` that a reader might expect otherwise:
- A lone session with a single seat in a single pincode is reported like any
  other (`Aggregation.SingleSeatKept`). Nothing is filtered out after
  aggregation.
- Only the earliest date of the aggregate is reported (bot.py:200-204); later
  dates play no part in the messages.
- The social-media text has no length cap. The only length test decides
  whether the pincode list is added: the text plus the list must stay under
  100 characters (bot.py:243).

## Model

| member | source | states |
|---|---|---|
| VaxTypes.AgeLimit | bot.py:289 | the configured age limit, 18 when none is configured |
| Aggregation.CheckDistrict | bot.py:289-324 | the returned table is the fold of exactly the accepted sessions, in encounter order, into an empty table; the flag is set iff the table is non-empty; every date entry is non-empty with distinct pincodes and at least one center each |
| Aggregation.AcceptedAllMembership | bot.py:293-307 | a contribution is in the accepted list iff some session of some center passes all four filters (age tier at most the limit, capacity not 0, pincode within the optional bounds) and yields it |
| Aggregation.AcceptedInMembership | bot.py:294-307 | the same, for the sessions of one center |
| Aggregation.PincodeBoundsInclusive | bot.py:302-307 | both pincode bounds are inclusive; one below the minimum or above the maximum is rejected; with no bounds every pincode passes |
| Aggregation.RejectedSessionsIgnored | bot.py:293-307 | removing every rejected session from the response leaves the aggregate unchanged |
| Aggregation.AcceptedAllPruned | bot.py:293-307 | removing every rejected session leaves the accepted list unchanged |
| Aggregation.FindUpsert | bot.py:312-320 | after adding a session to a pincode, that pincode's slots gain its capacity and end with its center name; a pincode seen for the first time starts from capacity 0 and no centers; every other pincode is unchanged |
| Aggregation.FindNone | bot.py:313 | a pincode has no slots recorded iff no entry carries that pincode |
| Aggregation.UpsertWellFormed | bot.py:312-320 | an update leaves a non-empty entry list, keeps pincodes distinct and keeps every entry's center list non-empty |
| Aggregation.UpsertOrder | bot.py:312-320 | a new pincode is appended after the existing ones; updating an existing pincode keeps every pincode in its position |
| Aggregation.LookupAddTo | bot.py:312-321 | adding one accepted session changes only its own (date, pincode) slots, which gain its capacity and its center name; a new pair starts with exactly that session |
| Aggregation.TotalCapacityUpsert | bot.py:315-317 | an update raises the date's total capacity by exactly the session's capacity |
| Aggregation.BuildEmpty | bot.py:309-324 | the table is empty iff no session was accepted, which is when the flag stays false |
| Aggregation.BuildWellFormed | bot.py:309-321 | every table the fold builds is well formed |
| Aggregation.BuildDates | bot.py:310-321 | a date is a key of the table iff some accepted session falls on it |
| Aggregation.BuildLookup | bot.py:312-321 | a (date, pincode) has slots iff some accepted session matches both; its capacity is their summed capacity, and its centers are their center names in encounter order, one per session |
| Aggregation.BuildDateTotal | bot.py:312-321 | a date's total over its pincode entries is the summed capacity of the accepted sessions on that date |
| Aggregation.SingleSeatKept | bot.py:296-321 | one accepted session with capacity 1 yields a one-date, one-pincode table holding that seat, so the flag is set and it is reported |
| Reporting.EarliestDate | bot.py:200-202 | the chosen date is a key of the table and comes no later than every other key |
| Reporting.EarliestUnique | bot.py:200-202 | the earliest key is unique, so the reported date is determined |
| Reporting.ComposeReport | bot.py:199-263 | the report is on the earliest date; its total, detail fields, pretext and social-media text are those of that date's entries, taken in order; the channel is the configured alert channel and the identities `post_twitter` is called with come from the configuration |
| Reporting.DetailFieldsPerPincode | bot.py:210-231 | one detail field per pincode entry, in entry order, never short, each that entry's detail line |
| Reporting.PincodeTextsPerPincode | bot.py:210-214 | one pincode text per entry, in entry order, each the decimal pincode |
| Reporting.OneSlotIff | bot.py:222-228 | a detail line opens with "One slot was found" iff the pincode's capacity is exactly 1 |
| Reporting.CenterTextIff | bot.py:217-220 | the center part is the sole center's name when there is one center; otherwise it is " centers" preceded by digits whose value is the number of centers |
| Reporting.CentersCoverEntries | bot.py:213-215 | there are at least as many centers as pincode entries, and one center overall means a single entry whose only center it is |
| Reporting.TweetSelection | bot.py:236-244 | the text names the sole center when there is one center overall; otherwise the sole pincode when there is one; otherwise it has the pincode list iff the text plus the list is under 100 characters, and nothing added otherwise |
| Reporting.TweetBodyBound | bot.py:241-244 | with several pincodes the text before the date suffix is under 100 characters or is the bare head |
| Text.IntToString | bot.py:214 | decimal rendering is non-empty, and starts with a minus sign iff the number is negative |
| Text.IntRoundTrip | bot.py:214 | the decimal rendering of an integer parses back to it |
| Text.IntToStringInjective | bot.py:214 | distinct pincodes render as distinct texts |
| Text.NatRoundTrip | bot.py:225 | the digits of a natural number parse back to it |
| Availability.CheckAvailability | bot.py:329-349 | an unknown state is the failing lookup; otherwise the queries issued are exactly the scan order up to and including the first response with an accepted session, and the report is that response's report on its earliest date; with no such response every query is issued and nothing is reported |
| Availability.SelectDistrictsSpec | bot.py:335-342 | without configured names the whole roster is checked; with them a district is checked iff it is in the roster and its name is configured; never more districts than the roster |
| Availability.FilterByNameMembership | bot.py:338-342 | a roster entry is selected iff its name is configured; configured names missing from the roster select nothing |
| Availability.FilterByNameAppend | bot.py:338-342 | selection keeps roster order |
| Availability.AllProbesAt | bot.py:344-345 | query 2i+w is district i in week w, for weeks 0 and 1 |
| Availability.FoundIsHit | bot.py:346-347 | the checker's flag is true exactly when the response has an accepted session |
| Availability.FirstHitSnoc | bot.py:344-349 | one more query leaves an earlier hit in place and is the first hit iff it is the first query to find slots |
| Availability.FirstHitPrefix | bot.py:347-349 | a hit at the end of the queries issued so far is the first hit of the whole scan |
| Availability.FirstIndex | bot.py:344-349 | the returned position satisfies the test and no earlier position does; with no position, none satisfies it |
| Availability.ReportedTotal | bot.py:204-212 | a report's slot total is the summed capacity of the accepted sessions on the earliest date; its fields are one per pincode entry of that date |
| TwitterKeys.KeysFor | bot.py:139-166 | as written, "default" reads the four shared variables; any other city gets four literal texts, so all four are present |
| TwitterKeys.KeysIgnoreCity | bot.py:147-152 | as written, every non-default city gets identical credentials |
| TwitterKeys.KeysIgnoreEnvironment | bot.py:149-152 | as written, a city's credentials do not depend on the environment; its API key is the literal text |
| TwitterKeys.PuneAndMumbaiShareKeys | bot.py:149-152 | concrete instance: Pune and Mumbai both get the API key "TWITTER_API_KEY_{city}" |
| TwitterKeys.DefaultKeysFromEnvironment | bot.py:140-146 | the shared account reads TWITTER_API_KEY and friends; the key is present iff the variable is set |
| TwitterKeys.AgeSuffix | bot.py:154-159 | the suffix is "_45" iff the age limit is 45, else empty |
| TwitterKeys.AgeGroupsSeparateAccounts | bot.py:154-159 | a 45+ and any other configuration of the same city use different API keys |
| TwitterKeys.IntendedKeysFor | bot.py:139-166 | intended: the default account reads the shared variables, and a city reads the variables named after its upper-cased name plus the suffix |
| TwitterKeys.CityNamesDistinguishCities | bot.py:148-152 | intended: two cities share an API-key variable iff their upper-cased names are equal |
| TwitterKeys.Upper | bot.py:148 | the upper-cased city has the same length, each character upper-cased |
| TwitterKeys.PostCredentials | bot.py:172-180 | as written: the shared account posts iff Twitter is enabled and TWITTER_API_KEY is set; a city account posts iff Twitter is enabled, whatever the environment holds; the post uses the keys `get_twitter_keys` returns |
| TwitterKeys.IntendedPostCredentials | bot.py:172-180 | intended: an account posts iff Twitter is enabled and its own API-key variable is set, with the credentials read from the environment |
| TwitterKeys.CityPostsOnlyWithItsKey | bot.py:172-180 | intended: a city account posts only when its own API-key variable is set; when it is missing, the code as written still posts with the literal texts |
| TwitterKeys.DefaultPostAgrees | bot.py:172-180 | for the shared account the guard gives the same outcome as written and as intended |

## Left out

- HTTP: the request to the upstream endpoint and the JSON decoding are the
  parameter `fetch`. A response without a "centers" key, or any other
  malformed response, raises in the source and is not modelled.
- Environment reads are the parameter `env`. Configuration loading and
  `districts.json` loading are outside the model, and the roster directory is
  a parameter.
- The clock, `strptime` and `strftime` are left out:
  - `get_day_for_week` is outside the model;
  - dates are already parsed;
  - the two formats are the parameters `longDate`/`shortDate`.
- The driver loop, the sleeps between queries and after posting, `print` and
  logging are left out.
- Dispatch of the composed messages is left out: `post_webhook` and the
  Twitter API call are I/O, and the report returns what would be sent.
  `PostCredentials` and `IntendedPostCredentials` model only the guard of
  `post_twitter`.
- TwitterKeys.Upper: only ASCII letters are upper-cased; Python's `str.upper`
  also maps non-ASCII letters.
- Reporting.EarliestDate: requires a non-empty table. The source's `keys[0]`
  raises on an empty one, and its only caller passes a non-empty table.
- Integers are unbounded, as Python's are, so no width is modelled.

## Findings

| source | as written | input that shows it | evidently intended | confidence | as-written member | corrected member |
|---|---|---|---|---|---|---|
| bot.py:149-152 | the four city credential names are plain string literals with no `f` prefix, so `{city}` is not substituted. They are returned as the credentials themselves, not read from the environment. | cities "Pune" and "Mumbai" with default age limit and an empty environment: both get API key "TWITTER_API_KEY_{city}", and `post_twitter`'s missing-key guard cannot fire | read `TWITTER_API_KEY_<CITY>` (plus "_45" for 45+) etc. from the environment, so each city posts from its own account and only when configured | not executed | TwitterKeys.PuneAndMumbaiShareKeys | TwitterKeys.CityNamesDistinguishCities |
