# api-sport request and aggregation layer in Dafny

This project models the data-acquisition core of `api-sport`, a command-line
tool that fetches football fixtures and teams from the api-sports.io REST
API. The core is the `AbstractData` base class and the two commands
`get-matchs` and `get-teams`.

- **Sport client** (`sport_client.dfy`). A client holds a host, a sport tag,
  a resource path and default query parameters. Its constructor has the
  defaults `"games"` and `{timezone: "Europe/Paris"}`.
  - `fetchData` checks the `SPORT_API_KEY` credential.
  - It merges the call's parameters with the client defaults by object
    spread, so the defaults win.
  - It renders the query string without encoding and logs a DEBUG trace of
    the URL.
  - It sends a GET with the `x-rapidapi-host` and `x-rapidapi-key` headers.
  - It logs the provider's `errors` at ERROR level and tags every item of
    `response` with `sport`.
  - `getData` runs one `fetchData` per league-season and joins them
    fail-fast, in input order.
- **Object model** (`assoc.dfy`, `json.dfy`). JavaScript objects are ordered
  association lists. Object spread is a left fold of property assignment:
  an existing key keeps its place and a new key is appended. JSON values
  support template-literal rendering, property reads (a read from `null` or
  `undefined` throws) and truthiness.
- **Request builder** (`request.dfy`). This covers the parameter merge, the
  query string and the URL, together with parsers that read the query
  string and the URL back.
- **Logger** (`logger.dfy`). A DEBUG entry is printed only with `--verbose`.
  Every printed line is `[LEVEL] message`.
- **Commands** (`orchestrator.dfy`). Each command fans out over a client
  registry, one batch per sport that has a configuration. A sport without
  one yields an `undefined` placeholder; in `get-teams` it also logs an INFO
  notice. The commands then flatten with `flat()`, drop falsy entries with
  `filter(Boolean)`, and either hand the records to the writers with their
  count or log the error and exit with status 1.
- **Football clients** (`football.dfy`). These are the fixtures client
  (path `fixtures`, default `timezone=Europe/Paris`) and the teams client
  (path `teams`, no defaults). The file also gives their exact request URLs
  for league 39 / season 2023 and an end-to-end run with a stub provider.
- **Shared** (`wrappers.dfy`). `Option`, `Result` and the fail-fast join
  that models `Promise.all`.

**Parameters and ordering.**
- The HTTP transport with JSON decoding is a parameter `fetch: HttpRequest -> Result<Json>`.
- The credential is a parameter `Option<string>`.
- The `verbose` flag is a parameter.
- The configuration's `leagues` mapping is a parameter.
- A run's log is ordered in three parts:
  1. first, everything logged while the calls are dispatched: the DEBUG URL traces and the skipped-sport INFO notices, in registry order;
  2. then the provider ERROR lines of every call whose body was read, in call order;
  3. last, the `catch` block's ERROR line, if there is one.
- Response timing is not modelled. On a successful run every call has settled by the time `Promise.all` resolves, so part 2 is exactly what the program prints. On a failing run the program exits at the first rejection, so it prints part 2 only for the calls that settled before it; the model prints it for all of them (see `Orchestrator.Finish` under "## Left out").

**Behaviour of the code worth noting.**
- Provider errors are logged as one line, not one per error. `fetchData`
  logs `r.errors.requests` once whenever `r.errors.length !== 0`. For an
  `errors` array that value is `undefined`, so the line reads
  `[ERROR] undefined`.
- Only `get-teams` reports a sport missing from the configuration, with an
  INFO line. `get-matchs` skips it silently.
- The credential is checked by every `fetchData` call, before it sends
  anything. For a batch with at least one league-season, the batch, and with
  it the run, then fails with that message. A configured sport with an empty
  league-season list makes no call, so its batch yields no records and no
  error.
- Partial failures are not tolerated: one failing call fails its sport's
  batch, and one failing batch fails the run.

## Model

| member | source | states |
|---|---|---|
| `Wrappers.JoinAllFailFast` | src/api/AbstractData.ts:21-26 | a `Promise.all` join succeeds exactly when every task does, and a failing join carries the first failing task's error with all earlier tasks succeeded |
| `Wrappers.JoinAllAppend` | src/api/AbstractData.ts:21-26 | joining a concatenation of task lists equals joining the two joins |
| `Assoc.Lookup` | src/api/AbstractData.ts:38 | a property read `o[k]` is `undefined` exactly when `k` is not one of the object's keys, and otherwise yields a value stored under `k` |
| `Assoc.Put` | src/api/AbstractData.ts:33-36 | assigning a property keeps an existing key's position and appends a new key; the new key reads the new value, every other key reads as before |
| `Assoc.AssignKeys` | src/api/AbstractData.ts:33-36 | after spreading `s` onto `t`, the keys are the keys of `t` followed by the keys of `s` not already in `t`, in `s`'s order |
| `Assoc.AssignLookup` | src/api/AbstractData.ts:33-36 | after a spread, a key of the source reads the source's value, any other key reads the target's value |
| `Assoc.AssignUnique` | src/api/AbstractData.ts:33-36 | spreading never duplicates a property |
| `Assoc.AssignFresh` | src/api/AbstractData.ts:33-36 | spreading properties whose keys are all new appends them in order |
| `Assoc.AssignIsMapUnion` | src/api/AbstractData.ts:33-36 | as a plain map, a spread is the right-biased union of the two objects |
| `Json.NatToStringRoundTrip` | src/api/AbstractData.ts:38 | the decimal text a non-negative integer renders as in `${...}` reads back as that integer |
| `Json.IntToStringRoundTrip` | src/api/AbstractData.ts:38 | the text any integer renders as in `${...}`, with a leading `-` for a negative one, reads back as that integer |
| `Json.Render` | src/api/AbstractData.ts:38 | `${v}` of an empty array is the empty string |
| `Json.RenderNumberReadsBack` | src/api/AbstractData.ts:38 | `${v}` of a number is decimal text that reads back as that number |
| `Json.RenderScalarInjective` | src/api/AbstractData.ts:38 | `undefined`, `null`, `true`, `false` and the numbers all render to different texts, so `${v}` of such a value determines it |
| `Request.RenderArrayIsJoin` | src/api/AbstractData.ts:56 | an array renders as the `,`-join of its elements' texts, with `null` and `undefined` elements as empty text, as `${r.errors.requests}` does for an array |
| `Request.RenderNumbersRoundTrip` | src/api/AbstractData.ts:38 | a non-empty array of numbers, rendered and split on `,`, gives one piece per number that reads back as that number |
| `Json.Prop` | src/api/AbstractData.ts:56-58 | a property read fails exactly on `null` or `undefined`; on an object it is the property's value or `undefined` |
| `Logger.Emit` | src/index.ts:19-24 | one logger call prints nothing exactly when the entry is DEBUG and `verbose` is off, and otherwise prints the single line `[LEVEL] message` |
| `Logger.Output` | src/index.ts:19-24 | with `verbose`, every logger call prints its formatted line, in order; without it, at most one line per call |
| `Logger.QuietOutputDropsDebug` | src/index.ts:19-24 | without `verbose` the output is exactly the verbose output of the non-DEBUG entries |
| `Logger.QuietOutputHasNoDebugLine` | src/index.ts:20-23 | every line printed without `verbose` is the formatted line of some non-DEBUG entry |
| `Request.Merge` | src/api/AbstractData.ts:33-36 | the merged parameters have unique keys: the call's keys first, then the defaults' new keys; a default wins over a call parameter of the same name; as a map, it is the union of the call parameters and the defaults, with the defaults winning |
| `Request.MergeExample` | src/api/AbstractData.ts:33-36 | call `{a: 1}` with defaults `{a: 2, b: 3}` gives `{a: 2, b: 3}` |
| `Request.MergeNoDefaults` | src/api/AbstractData.ts:33-36 | with no defaults the merged parameters are the call's, unchanged and in order |
| `Request.QueryString` | src/api/AbstractData.ts:37-39 | the query string is empty exactly when there are no parameters |
| `Request.QueryStringSnoc` | src/api/AbstractData.ts:37-39 | adding a parameter at the end adds `&key=value` at the end (just `key=value` for the first) |
| `Request.QueryStringRoundTrip` | src/api/AbstractData.ts:37-39 | when no key holds `&` or `=` and no rendered value holds `&`, splitting the query string at `&` and each pair at its first `=` gives back the keys and rendered values in order |
| `Request.QueryStringNotInjective` | src/api/AbstractData.ts:37-39 | without encoding, the value `1&b=2` of `a` gives the same query string as the two parameters `a=1`, `b=2` |
| `Request.UrlRoundTrip` | src/api/AbstractData.ts:43-45 | `https://{host}/{path}?{query}` splits back into host, path and query when the host has no `/` and the path no `?` |
| `SportClient.SeasonParams` | src/api/AbstractData.ts:23 | the copy of a league-season has unique keys |
| `SportClient.SeasonParamsCopies` | src/api/AbstractData.ts:23 | the copy holds the configured league and season under `league` and `season`, and no other key (key order and extra keys: see "## Left out") |
| `SportClient.NewClient` | src/api/AbstractData.ts:5-17 | an omitted path is `games`; omitted defaults are exactly `{timezone: "Europe/Paris"}`; given values are kept |
| `SportClient.BuildRequest` | src/api/AbstractData.ts:30-51 | the request fails with `SPORT_API_KEY is not defined` exactly when the credential is absent or empty; otherwise it is a GET with the host and key headers set, and, when the client's host holds no `/` and its path no `?`, its URL splits back into that host, that path and the query string of the merged parameters |
| `SportClient.Decorate` | src/api/AbstractData.ts:58-63 | a decorated item has `sport` set to the tag, every other own property of the item with its value, and the item's key order, with `sport` last unless the item already had it |
| `SportClient.ReadBody` | src/api/AbstractData.ts:52-64 | a body yields records exactly when `errors.length` can be read and `response` is an array; the records are the decorated items, one per item, in order; exactly when `errors.length !== 0`, one ERROR entry is logged, whose message is `errors.requests` rendered as a string |
| `SportClient.ArrayErrorsLogUndefined` | src/api/AbstractData.ts:56 | a non-empty `errors` array logs exactly the entry `[ERROR] undefined` |
| `SportClient.ErrorsDoNotSuppressData` | src/api/AbstractData.ts:56-63 | a non-empty `errors` array gives the same records as an empty one and adds exactly one log entry |
| `SportClient.FetchData` | src/api/AbstractData.ts:29-65 | without a credential no request is sent, nothing is logged and the call fails; with one, exactly the built request is sent after one DEBUG `fetching {url}` entry; a transport failure is the call's failure and logs nothing more; otherwise the call's result and its later log entries are those of reading the body; every record is tagged with the client's sport |
| `SportClient.GetData` | src/api/AbstractData.ts:19-27 | a batch sends one request per league-season, in input order (none without a credential), and every record is tagged with the client's sport |
| `SportClient.GetDataSingle` | src/api/AbstractData.ts:19-27 | a batch of one league-season has that one call's result |
| `SportClient.CallResultsIndex` | src/api/AbstractData.ts:22-24 | the `i`-th per-call result is the result of `fetchData` for the `i`-th league-season |
| `SportClient.GetDataJoins` | src/api/AbstractData.ts:19-27 | a batch's result is the fail-fast join of its per-call results, in input order |
| `SportClient.GetDataFailFast` | src/api/AbstractData.ts:21-26 | a batch succeeds exactly when every call does, and a failing batch fails with its first failing call's error |
| `SportClient.GetDataAppend` | src/api/AbstractData.ts:19-27 | the batch of `a ++ b` sends, logs and returns what the batch of `a` does followed by what the batch of `b` does |
| `Orchestrator.Slot` | src/index.ts:149-155 | an unconfigured sport sends nothing and yields the `undefined` placeholder, logging the one INFO entry `no configuration available` in `get-teams` and nothing in `get-matchs` (lines 74-77); a configured sport sends and logs what its batch does and yields the batch's records as one array entry, or the batch's error |
| `Orchestrator.Collect` | src/index.ts:72-79 | the joined slots hold one entry per registry entry |
| `Orchestrator.FlatMembers` | src/index.ts:80 | the entries of `flat()` are the non-array entries and the elements of the array entries |
| `Orchestrator.FilterTruthy` | src/index.ts:81 | `filter(Boolean)` keeps exactly the truthy entries |
| `Orchestrator.FilterTruthyCounts` | src/index.ts:81 | `filter(Boolean)` keeps every truthy entry as often as it occurs and drops every falsy one |
| `Orchestrator.FilterTruthyAppend` | src/index.ts:81 | filtering a concatenation is the concatenation of the filtered parts, so the order of kept entries is preserved |
| `Orchestrator.FilterKeepsRecords` | src/index.ts:80-81 | tagged records are all truthy, so filtering keeps them all, in order |
| `Orchestrator.ExpectedTagged` | src/index.ts:72-81 | every record a command produces carries the sport tag of one of the registry's clients |
| `Orchestrator.CollectAggregates` | src/index.ts:72-81 | flattening the slots and dropping falsy entries gives exactly the configured sports' batches concatenated in registry order, with no placeholder left over; the command fails exactly when one batch fails, with the first failing batch's error |
| `Orchestrator.Log` | src/index.ts:98-99 | a failed run's log ends with the ERROR entry of its error |
| `Orchestrator.Finish` | src/index.ts:82-101 | the printed lines are the gated log, with the provider ERROR lines of every call (see "## Left out"); a successful join is saved with the filtered aggregate and its length as the count; a failed one exits with code 1 and its last line is `[ERROR] message` |
| `Orchestrator.RunRecordsTagged` | src/index.ts:72-82 | every record a command saves carries the sport tag of one of the registry's clients |
| `Orchestrator.SingleClientRecordsTagged` | src/index.ts:72-82 | with a registry of one client, every record a command saves carries that client's sport tag |
| `Orchestrator.Run` | src/index.ts:65-101 | a command saves exactly when all configured batches succeed, saving their records in registry order with their count; otherwise it exits with code 1 after printing `[ERROR]` and the first failure's message |
| `Orchestrator.QuietRunHasNoDebugLine` | src/index.ts:19-24 | without `--verbose` a run prints no `[DEBUG] ` line, and how it ends does not depend on the flag |
| `Orchestrator.CollectAppend` | src/index.ts:72-79 | fanning out over a concatenated registry does the first part's work and then the second part's |
| `Orchestrator.ExpectedAppend` | src/index.ts:72-81 | the records of a concatenated registry are the first part's followed by the second part's, fail-fast |
| `Orchestrator.SkippedSportContributesNothing` | src/index.ts:147-159 | a registry sport missing from the configuration sends no request and changes neither the records nor the error; it adds exactly one INFO `no configuration available` entry, at its place, in `get-teams`, and none in `get-matchs` |
| `Football.MatchesMergeAppendsTimezone` | src/api/matchs/football.ts:4-8 | for call parameters without `timezone`, the fixtures client's merge appends `timezone=Europe/Paris` after them |
| `Football.MatchesQueryEndsWithTimezone` | src/api/matchs/football.ts:5-7 | the fixtures client's query string ends with `timezone=Europe/Paris` after the call's own pairs |
| `Football.MatchesTimezoneAlwaysParis` | src/api/matchs/football.ts:5-7 | whatever the call passes, the fixtures client sends `timezone` as `Europe/Paris`, in the call's position if it had one, else last |
| `Football.TeamsQueryIsCallParams` | src/api/teams/football-teams.ts:4-6 | the teams client sends exactly the call's parameters, in order |
| `Football.MatchesRequestExample` | src/api/matchs/football.ts:4-8 | league 39, season 2023 gives `GET https://v3.football.api-sports.io/fixtures?league=39&season=2023&timezone=Europe/Paris` |
| `Football.TeamsRequestExample` | src/api/teams/football-teams.ts:4-6 | league 39, season 2023 gives `GET https://v3.football.api-sports.io/teams?league=39&season=2023` |
| `Football.MatchesRecordsTagged` | src/api/matchs/football.ts:5 | every record a command saves through the fixtures client carries `sport: "football"` |
| `Football.TeamsRecordsTagged` | src/api/teams/football-teams.ts:5 | every record a command saves through the teams client carries `sport: "football"` |
| `Football.EndToEndOneFixture` | src/index.ts:72-82 | with football league 39 / season 2023 configured and a provider answering `{errors: [], response: [{fixture: {id: 1}}]}`, `get-matchs` saves exactly `[{fixture: {id: 1}, sport: "football"}]` with count 1 |

## Left out

- The HTTP transport, `response.json()` and JSON parsing are not modelled. They are the abstract parameter `fetch`, which either fails with a message or returns the decoded body.
- The timing of `Promise.all` is not modelled. Calls are joined in input order, and a failing join takes the first failure in input order; the real join rejects with whichever call fails first in time. The order of the provider ERROR lines is likewise taken to be call order, and there are no timeouts (the source has none).
- `process.env.SPORT_API_KEY` is the parameter `credential`. The `verbose` flag and the configuration's `leagues` are parameters too.
- Not modelled, because they are I/O:
  - yargs option parsing;
  - the `ora` spinner (only its count is kept);
  - the `ShellString` file writes and their two INFO `saving to` lines;
  - the DEBUG line holding the SQL text;
  - `process.exit`.
- `getConfigurations`, `jsonToSQL` and the `LogLevel` enum are not part of this model. The levels are assumed to print as `DEBUG`, `INFO` and `ERROR`. A failure inside `getConfigurations` or `jsonToSQL` is not modelled.
- `src/api/football.ts` extends `AbstractSport`, which is not part of this model, so it is left out.
- The contents of the `SPORTS_API` and `TEAMS_API` registries are not part of this model. A registry is a parameter, and `football.dfy` builds the one-client registries it needs.
- Object keys that look like array indices are enumerated first in JavaScript. The model keeps plain insertion order.
- Numbers are integers. Floating-point values and their rendering are left out.
- `Json.Prop`: property reads by array index, and properties other than `length` on arrays and strings, read as `undefined`. Inherited properties such as `map` are only modelled where the source calls them: `response.map` on a non-array fails.
- `SportClient.SeasonParams`: the spread `{ ...leaguesSeason }` copies the configured object's keys in the order the configuration file lists them; the model assumes `league` comes before `season`, and copies only those two keys, so extra keys in a configured league-season object are dropped.
- `Orchestrator.Finish`: on a failing run the model prints the provider ERROR lines of every call, while the program prints only those of calls that settled before the first rejection reached the `catch` (`process.exit(1)` at src/index.ts:100 ends the process). Which calls those are depends on response timing, which the model does not represent.
- `Orchestrator.Slot`: configuration values that are present but falsy (`null`, `false`, `0`) are not modelled, because `Leagues` maps sports to lists. The `?? []` fallback is unreachable, since `getData` always returns a promise, and is left out.
- `SportClient.GetDataFailFast`: states the `i`-th call's result as `CallResults(...)[i]`. `SportClient.CallResultsIndex` separately identifies that entry with `fetchData` on the `i`-th league-season.
