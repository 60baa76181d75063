/** A sport client: fixed host, sport tag, resource path and default query
    parameters, plus the two operations the base class gives every sport:
    fetching one league-season and fetching a batch of them. The HTTP
    transport is the parameter `fetch`; the credential is the parameter
    `credential` (the `SPORT_API_KEY` environment variable). */
module SportClient {
  import opened Wrappers
  import opened Assoc
  import opened Json
  import opened Logger
  import opened Request

  /** One query unit taken from the configuration. */
  datatype LeagueSeason = LeagueSeason(league: int, season: int)

  /** `{ ...leagueSeason }`: a copy of the configured object, whose keys come
      in the order the configuration lists them; this model takes `league`
      before `season`. */
  function SeasonParams(ls: LeagueSeason): (p: Params)
    ensures UniqueKeys(p)
  {
    [("league", JNum(ls.league)), ("season", JNum(ls.season))]
  }

  /** The copy holds the configured league and season under their own
      names, and no other key. */
  lemma SeasonParamsCopies(ls: LeagueSeason)
    ensures Keys(SeasonParams(ls)) == ["league", "season"]
    ensures Lookup(SeasonParams(ls), "league") == Some(JNum(ls.league))
    ensures Lookup(SeasonParams(ls), "season") == Some(JNum(ls.season))
  {
    assert Keys(SeasonParams(ls)[1..]) == ["season"];
  }

  datatype Client = Client(host: string, sport: string, path: string, defaults: Params)

  /** The constructor. An omitted path is `"games"`; omitted defaults are
      the single parameter `timezone=Europe/Paris`. */
  function NewClient(host: string, sport: string, path: Option<string>, defaults: Option<Params>): (c: Client)
    ensures c.host == host && c.sport == sport
    ensures c.path == (match path case Some(p) => p case None => "games")
    ensures defaults.Some? ==> c.defaults == defaults.value
    ensures defaults.None? ==>
      Keys(c.defaults) == ["timezone"] && Lookup(c.defaults, "timezone") == Some(JStr("Europe/Paris"))
  {
    var p := match path case Some(p) => p case None => "games";
    var d := match defaults case Some(d) => d case None => [("timezone", JStr("Europe/Paris"))];
    Client(host, sport, p, d)
  }

  datatype HttpRequest = HttpRequest(verb: string, url: string, headers: Assoc<string>)

  /** The HTTP transport with JSON decoding: a request either fails
      (network error, body that is not JSON) or yields the decoded body. */
  type Fetch = HttpRequest -> Result<Json>

  const MissingKeyMessage: string := "SPORT_API_KEY is not defined"

  /** `!process.env.SPORT_API_KEY` is false: the variable is set and not empty. */
  predicate HasKey(credential: Option<string>)
  {
    credential.Some? && credential.value != ""
  }

  /** The request `fetchData` sends for one parameter object, or the
      configuration error it raises before sending anything. */
  function BuildRequest(c: Client, credential: Option<string>, params: Params): (r: Result<HttpRequest>)
    requires UniqueKeys(params) && UniqueKeys(c.defaults)
    ensures r.Err? <==> !HasKey(credential)
    ensures r.Err? ==> r.message == MissingKeyMessage
    ensures r.Ok? ==> r.value.verb == "GET"
    ensures r.Ok? ==> Lookup(r.value.headers, "x-rapidapi-host") == Some(c.host)
    ensures r.Ok? ==> Lookup(r.value.headers, "x-rapidapi-key") == Some(credential.value)
    ensures r.Ok? && '/' !in c.host && '?' !in c.path ==>
      ParseUrl(r.value.url) == Some((c.host, c.path, QueryString(Merge(params, c.defaults))))
  {
    if !HasKey(credential) then Err(MissingKeyMessage)
    else
      var query := QueryString(Merge(params, c.defaults));
      var headers := [("x-rapidapi-host", c.host), ("x-rapidapi-key", credential.value)];
      UrlRoundTrip(c.host, c.path, query);
      Ok(HttpRequest("GET", Url(c.host, c.path, query), headers))
  }

  /** With a credential, the request is a GET of the merged query on the
      client's host and path, with the host and key headers. */
  lemma BuildRequestShape(c: Client, key: string, params: Params)
    requires UniqueKeys(params) && UniqueKeys(c.defaults) && key != ""
    ensures BuildRequest(c, Some(key), params)
         == Ok(HttpRequest("GET", Url(c.host, c.path, QueryString(Merge(params, c.defaults))),
                           [("x-rapidapi-host", c.host), ("x-rapidapi-key", key)]))
  {
  }

  /** A record carries the sport tag `tag`. */
  predicate Tagged(r: Json, tag: string)
  {
    r.JObj? && Lookup(r.fields, "sport") == Some(JStr(tag))
  }

  /** `{ ...m, sport: tag }`: a shallow copy of a response item whose `sport`
      field is the tag, every other field kept with its value, and the key
      order of the item kept (`sport` last unless the item had one). */
  function Decorate(tag: string, item: Json): (d: Json)
    ensures Tagged(d, tag)
    ensures forall k :: k != "sport" ==> Lookup(d.fields, k) == Lookup(OwnEntries(item), k)
    ensures Keys(d.fields) ==
      if "sport" in Keys(OwnEntries(item)) then Keys(OwnEntries(item)) else Keys(OwnEntries(item)) + ["sport"]
  {
    JObj(Put(OwnEntries(item), "sport", JStr(tag)))
  }

  /** The entries logged and the records produced once a response body has
      arrived. */
  datatype Settled = Settled(logs: seq<Entry>, result: Result<seq<Json>>)

  /** `r.errors.length` can be read. */
  predicate ErrorsReadable(body: Json)
  {
    Prop(body, "errors").Ok? && Prop(Prop(body, "errors").value, "length").Ok?
  }

  /** The provider reported errors: `r.errors.length !== 0`. */
  predicate ReportsErrors(body: Json)
  {
    ErrorsReadable(body) && Prop(Prop(body, "errors").value, "length").value != JNum(0)
  }

  /** The elements of `r.response` when it is an array. */
  function ResponseItems(body: Json): Option<seq<Json>>
  {
    match Prop(body, "response")
    case Ok(JArr(items)) => Some(items)
    case _ => None
  }

  /** The `.then` callbacks of `fetchData`: log the provider's errors, if
      any, then decorate every response item. */
  function ReadBody(tag: string, body: Json): (s: Settled)
    ensures s.result.Ok? <==> ErrorsReadable(body) && ResponseItems(body).Some?
    ensures s.result.Ok? ==>
      && |s.result.value| == |ResponseItems(body).value|
      && forall i :: 0 <= i < |s.result.value| ==> s.result.value[i] == Decorate(tag, ResponseItems(body).value[i])
    ensures |s.logs| == (if ReportsErrors(body) then 1 else 0)
    ensures forall e :: e in s.logs ==> e.level == ERROR
    ensures ReportsErrors(body) ==>
      s.logs == [Entry(ERROR, Render(Prop(Prop(body, "errors").value, "requests").value))]
  {
    match Prop(body, "errors")
    case Err(e) => Settled([], Err(e))
    case Ok(errors) =>
      match Prop(errors, "length")
      case Err(e) => Settled([], Err(e))
      case Ok(length) =>
        var logs := if length != JNum(0) then [Entry(ERROR, Render(Prop(errors, "requests").value))] else [];
        match Prop(body, "response")
        case Err(e) => Settled(logs, Err(e))
        case Ok(JArr(items)) => Settled(logs, Ok(seq(|items|, i requires 0 <= i < |items| => Decorate(tag, items[i]))))
        case Ok(JUndefined) => Settled(logs, Err("Cannot read properties of undefined (reading 'map')"))
        case Ok(JNull) => Settled(logs, Err("Cannot read properties of null (reading 'map')"))
        case Ok(_) => Settled(logs, Err("r.response.map is not a function"))
  }

  /** A non-empty `errors` array adds a log entry but takes nothing away:
      the records are those of the same body without errors. */
  lemma ErrorsDoNotSuppressData(tag: string, errors: seq<Json>, response: Json)
    ensures ReadBody(tag, JObj([("errors", JArr(errors)), ("response", response)])).result
         == ReadBody(tag, JObj([("errors", JArr([])), ("response", response)])).result
    ensures |ReadBody(tag, JObj([("errors", JArr(errors)), ("response", response)])).logs| == if errors == [] then 0 else 1
  {
    var b1 := JObj([("errors", JArr(errors)), ("response", response)]);
    var b2 := JObj([("errors", JArr([])), ("response", response)]);
    assert Prop(b1, "response") == Ok(response) == Prop(b2, "response");
    assert Prop(b1, "errors") == Ok(JArr(errors));
    assert Prop(b2, "errors") == Ok(JArr([]));
  }

  /** A provider `errors` array that is not empty logs the line
      `[ERROR] undefined`: an array has no `requests` property. */
  lemma ArrayErrorsLogUndefined(tag: string, body: Json, errors: seq<Json>)
    requires Prop(body, "errors") == Ok(JArr(errors)) && errors != []
    ensures ReadBody(tag, body).logs == [Entry(ERROR, "undefined")]
  {
    assert Prop(JArr(errors), "length") == Ok(JNum(|errors|));
    assert ReportsErrors(body);
    assert Prop(JArr(errors), "requests") == Ok(JUndefined);
  }

  /** Everything one `fetchData` call does: the requests it hands to the
      transport, what it logs before its first `await` (while the batch is
      being dispatched), what it logs once the response has arrived, and its
      result. */
  datatype Call<T> = Call(sent: seq<HttpRequest>, dispatchLogs: seq<Entry>, settleLogs: seq<Entry>, result: Result<T>)

  /** `fetchData(params)`. */
  function FetchData(c: Client, credential: Option<string>, params: Params, fetch: Fetch): (call: Call<seq<Json>>)
    requires UniqueKeys(params) && UniqueKeys(c.defaults)
    ensures !HasKey(credential) ==> call == Call([], [], [], Err(MissingKeyMessage))
    ensures HasKey(credential) ==> call.sent == [BuildRequest(c, credential, params).value]
    ensures HasKey(credential) ==> call.dispatchLogs == [Entry(DEBUG, "fetching " + call.sent[0].url)]
    ensures HasKey(credential) && fetch(call.sent[0]).Err? ==> call.result == Err(fetch(call.sent[0]).message)
    ensures HasKey(credential) && fetch(call.sent[0]).Ok? ==>
      call.result == ReadBody(c.sport, fetch(call.sent[0]).value).result
    ensures HasKey(credential) && fetch(call.sent[0]).Err? ==> call.settleLogs == []
    ensures HasKey(credential) && fetch(call.sent[0]).Ok? ==>
      call.settleLogs == ReadBody(c.sport, fetch(call.sent[0]).value).logs
    ensures call.result.Ok? ==> forall r :: r in call.result.value ==> Tagged(r, c.sport)
  {
    match BuildRequest(c, credential, params)
    case Err(e) => Call([], [], [], Err(e))
    case Ok(req) =>
      var debug := [Entry(DEBUG, "fetching " + req.url)];
      match fetch(req)
      case Err(e) => Call([req], debug, [], Err(e))
      case Ok(body) =>
        var s := ReadBody(c.sport, body);
        Call([req], debug, s.logs, s.result)
  }

  /** Two calls running side by side and joined fail-fast. */
  function Together<T>(a: Call<seq<T>>, b: Call<seq<T>>): Call<seq<T>>
  {
    Call(a.sent + b.sent, a.dispatchLogs + b.dispatchLogs, a.settleLogs + b.settleLogs, Both(a.result, b.result))
  }

  lemma TogetherAssociative<T>(a: Call<seq<T>>, b: Call<seq<T>>, c: Call<seq<T>>)
    ensures Together(Together(a, b), c) == Together(a, Together(b, c))
  {
    BothAssociative(a.result, b.result, c.result);
    SeqAssoc(a.sent, b.sent, c.sent);
    SeqAssoc(a.dispatchLogs, b.dispatchLogs, c.dispatchLogs);
    SeqAssoc(a.settleLogs, b.settleLogs, c.settleLogs);
  }

  lemma TogetherUnit<T>(a: Call<seq<T>>)
    ensures Together(Call([], [], [], Ok([])), a) == a
  {
    BothUnit(a.result);
    assert [] + a.sent == a.sent;
    assert [] + a.dispatchLogs == a.dispatchLogs;
    assert [] + a.settleLogs == a.settleLogs;
  }

  /** The request `fetchData` sends for one league-season. */
  function SeasonRequest(c: Client, credential: Option<string>, ls: LeagueSeason): HttpRequest
    requires UniqueKeys(c.defaults) && HasKey(credential)
  {
    BuildRequest(c, credential, SeasonParams(ls)).value
  }

  /** `getData(leagueSeasons)`: one `fetchData` per league-season, joined
      with `Promise.all` and flattened. */
  function GetData(c: Client, credential: Option<string>, lss: seq<LeagueSeason>, fetch: Fetch): (call: Call<seq<Json>>)
    requires UniqueKeys(c.defaults)
    ensures |call.sent| == if HasKey(credential) then |lss| else 0
    ensures HasKey(credential) ==>
      forall i :: 0 <= i < |lss| ==> call.sent[i] == SeasonRequest(c, credential, lss[i])
    ensures call.result.Ok? ==> forall r :: r in call.result.value ==> Tagged(r, c.sport)
  {
    if |lss| == 0 then Call([], [], [], Ok([]))
    else
      var first := FetchData(c, credential, SeasonParams(lss[0]), fetch);
      var rest := GetData(c, credential, lss[1..], fetch);
      TogetherTagged(first, rest, c.sport);
      TogetherSent(c, credential, lss, first.sent, rest.sent);
      Together(first, rest)
  }

  lemma TogetherSent(c: Client, credential: Option<string>, lss: seq<LeagueSeason>, first: seq<HttpRequest>, rest: seq<HttpRequest>)
    requires UniqueKeys(c.defaults) && |lss| > 0
    requires HasKey(credential) ==> first == [SeasonRequest(c, credential, lss[0])]
    requires HasKey(credential) ==>
      |rest| == |lss| - 1 && forall i :: 0 <= i < |rest| ==> rest[i] == SeasonRequest(c, credential, lss[1..][i])
    ensures HasKey(credential) ==> forall i :: 0 <= i < |lss| ==> (first + rest)[i] == SeasonRequest(c, credential, lss[i])
  {
    if HasKey(credential) {
      KeyedTogetherSent(c, credential, lss, first, rest);
    }
  }

  lemma KeyedTogetherSent(c: Client, credential: Option<string>, lss: seq<LeagueSeason>, first: seq<HttpRequest>, rest: seq<HttpRequest>)
    requires UniqueKeys(c.defaults) && HasKey(credential) && |lss| > 0
    requires first == [SeasonRequest(c, credential, lss[0])]
    requires |rest| == |lss| - 1 && forall i :: 0 <= i < |rest| ==> rest[i] == SeasonRequest(c, credential, lss[1..][i])
    ensures forall i :: 0 <= i < |lss| ==> (first + rest)[i] == SeasonRequest(c, credential, lss[i])
  {
    forall i | 0 <= i < |lss| ensures (first + rest)[i] == SeasonRequest(c, credential, lss[i]) {
      if i > 0 {
        assert lss[1..][i - 1] == lss[i];
      }
    }
  }

  /** Joining two tagged batches gives a tagged batch. */
  lemma TogetherTagged(a: Call<seq<Json>>, b: Call<seq<Json>>, tag: string)
    requires a.result.Ok? ==> forall r :: r in a.result.value ==> Tagged(r, tag)
    requires b.result.Ok? ==> forall r :: r in b.result.value ==> Tagged(r, tag)
    ensures Together(a, b).result.Ok? ==> forall r :: r in Together(a, b).result.value ==> Tagged(r, tag)
  {
  }

  /** A batch of one is that one call. */
  lemma GetDataSingle(c: Client, credential: Option<string>, ls: LeagueSeason, fetch: Fetch)
    requires UniqueKeys(c.defaults)
    ensures GetData(c, credential, [ls], fetch).result == FetchData(c, credential, SeasonParams(ls), fetch).result
  {
    var r := FetchData(c, credential, SeasonParams(ls), fetch).result;
    assert [ls][1..] == [];
    BothUnit(r);
  }

  /** The result of the `fetchData` call for one league-season. */
  function CallResult(c: Client, credential: Option<string>, ls: LeagueSeason, fetch: Fetch): Result<seq<Json>>
    requires UniqueKeys(c.defaults)
  {
    FetchData(c, credential, SeasonParams(ls), fetch).result
  }

  /** The results of the individual `fetchData` calls, in input order. */
  function CallResults(c: Client, credential: Option<string>, lss: seq<LeagueSeason>, fetch: Fetch): (rs: seq<Result<seq<Json>>>)
    requires UniqueKeys(c.defaults)
    ensures |rs| == |lss|
  {
    if |lss| == 0 then []
    else [CallResult(c, credential, lss[0], fetch)] + CallResults(c, credential, lss[1..], fetch)
  }

  lemma {:induction false} CallResultsIndex(c: Client, credential: Option<string>, lss: seq<LeagueSeason>, fetch: Fetch, i: nat)
    requires UniqueKeys(c.defaults) && i < |lss|
    ensures CallResults(c, credential, lss, fetch)[i] == CallResult(c, credential, lss[i], fetch)
  {
    if i > 0 {
      CallResultsIndex(c, credential, lss[1..], fetch, i - 1);
      assert lss[1..][i - 1] == lss[i];
    }
  }

  /** The batch result is the fail-fast join of the per-call results, in
      input order. */
  lemma {:induction false} GetDataJoins(c: Client, credential: Option<string>, lss: seq<LeagueSeason>, fetch: Fetch)
    requires UniqueKeys(c.defaults)
    ensures GetData(c, credential, lss, fetch).result == JoinAll(CallResults(c, credential, lss, fetch))
  {
    if |lss| > 0 {
      GetDataJoins(c, credential, lss[1..], fetch);
      assert CallResults(c, credential, lss, fetch)[1..] == CallResults(c, credential, lss[1..], fetch);
    }
  }

  /** The batch succeeds exactly when every call does; a failing batch fails
      with the error of its first failing call in input order (the `i`-th
      call's result is `CallResults(...)[i]`, see `CallResultsIndex`). */
  lemma GetDataFailFast(c: Client, credential: Option<string>, lss: seq<LeagueSeason>, fetch: Fetch)
    requires UniqueKeys(c.defaults)
    ensures var rs := CallResults(c, credential, lss, fetch);
      GetData(c, credential, lss, fetch).result.Ok? <==> forall i :: 0 <= i < |rs| ==> rs[i].Ok?
    ensures var rs := CallResults(c, credential, lss, fetch);
      GetData(c, credential, lss, fetch).result.Err? ==>
        exists i :: 0 <= i < |rs| && GetData(c, credential, lss, fetch).result == rs[i] && forall j :: 0 <= j < i ==> rs[j].Ok?
  {
    GetDataJoins(c, credential, lss, fetch);
    JoinAllFailFast(CallResults(c, credential, lss, fetch));
  }

  /** Splitting the input splits the batch: requests, logs and results of
      `getData(a ++ b)` are those of `getData(a)` followed by those of
      `getData(b)`. */
  lemma {:induction false} GetDataAppend(c: Client, credential: Option<string>, a: seq<LeagueSeason>, b: seq<LeagueSeason>, fetch: Fetch)
    requires UniqueKeys(c.defaults)
    ensures GetData(c, credential, a + b, fetch) == Together(GetData(c, credential, a, fetch), GetData(c, credential, b, fetch))
  {
    if |a| == 0 {
      assert a + b == b;
      TogetherUnit(GetData(c, credential, b, fetch));
    } else {
      assert (a + b)[0] == a[0];
      assert (a + b)[1..] == a[1..] + b;
      GetDataAppend(c, credential, a[1..], b, fetch);
      TogetherAssociative(FetchData(c, credential, SeasonParams(a[0]), fetch),
                          GetData(c, credential, a[1..], fetch), GetData(c, credential, b, fetch));
    }
  }
}
