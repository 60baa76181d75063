/** The two concrete football clients, one for fixtures and one for teams,
    and the exact requests and records they produce. */
module Football {
  import opened Wrappers
  import opened Assoc
  import opened Json
  import opened Logger
  import opened Request
  import opened SportClient
  import opened Orchestrator

  const Host: string := "v3.football.api-sports.io"

  /** The matches client: path `fixtures`, default `timezone=Europe/Paris`. */
  function MatchesClient(): Client
  {
    NewClient(Host, "football", Some("fixtures"), Some([("timezone", JStr("Europe/Paris"))]))
  }

  /** The teams client: path `teams`, no default parameters. */
  function TeamsClient(): Client
  {
    NewClient(Host, "football", Some("teams"), Some([]))
  }

  const Timezone: (string, Json) := ("timezone", JStr("Europe/Paris"))

  /** Merging with the matches client's defaults appends the time zone when
      the call does not set it. */
  lemma MatchesMergeAppendsTimezone(params: Params)
    requires UniqueKeys(params) && "timezone" !in Keys(params)
    ensures Merge(params, MatchesClient().defaults) == params + [Timezone]
  {
    assert MatchesClient().defaults == [Timezone];
    AssignFresh([], params);
    assert [] + params == params;
    AssignFresh(params, [Timezone]);
  }

  lemma TimezonePair()
    ensures Pair(Timezone.0, Timezone.1) == "timezone=Europe/Paris"
  {
  }

  /** The matches client appends `timezone=Europe/Paris` after the call's own
      parameters whenever the call does not set `timezone` itself. */
  lemma MatchesQueryEndsWithTimezone(params: Params)
    requires UniqueKeys(params) && "timezone" !in Keys(params)
    ensures QueryString(Merge(params, MatchesClient().defaults))
         == (if |params| == 0 then "" else QueryString(params) + "&") + "timezone=Europe/Paris"
  {
    MatchesMergeAppendsTimezone(params);
    QueryStringSnoc(params, Timezone.0, Timezone.1);
    TimezonePair();
  }

  /** A call that sets `timezone` itself is overridden by the default. */
  lemma MatchesTimezoneAlwaysParis(params: Params)
    requires UniqueKeys(params)
    ensures Lookup(Merge(params, MatchesClient().defaults), "timezone") == Some(JStr("Europe/Paris"))
    ensures Keys(Merge(params, MatchesClient().defaults)) ==
      if "timezone" in Keys(params) then Keys(params) else Keys(params) + ["timezone"]
  {
    var d := MatchesClient().defaults;
    assert Keys(d) == ["timezone"];
    assert NewKeys(["timezone"], Keys(params)) == if "timezone" in Keys(params) then [] else ["timezone"];
  }

  /** The teams client sends the call's parameters unchanged, in order. */
  lemma TeamsQueryIsCallParams(params: Params)
    requires UniqueKeys(params)
    ensures Merge(params, TeamsClient().defaults) == params
  {
    MergeNoDefaults(params);
  }

  lemma Render39And2023()
    ensures Render(JNum(39)) == "39" && Render(JNum(2023)) == "2023"
  {
    assert NatToString(3) == "3";
    assert NatToString(39) == "39";
    assert NatToString(2) == "2";
    assert NatToString(20) == "20";
    assert NatToString(202) == "202";
    assert NatToString(2023) == "2023";
  }

  lemma SeasonPairs()
    ensures Pairs(SeasonParams(LeagueSeason(39, 2023))) == ["league=39", "season=2023"]
  {
    Render39And2023();
    assert Pair("league", JNum(39)) == "league=39";
    assert Pair("season", JNum(2023)) == "season=2023";
  }

  lemma SeasonJoin()
    ensures Join('&', ["league=39", "season=2023"]) == "league=39&season=2023"
  {
    assert ["league=39", "season=2023"][1..] == ["season=2023"];
  }

  /** The query string of league 39, season 2023 on its own. */
  lemma SeasonQueryExample()
    ensures QueryString(SeasonParams(LeagueSeason(39, 2023))) == "league=39&season=2023"
    ensures "timezone" !in Keys(SeasonParams(LeagueSeason(39, 2023)))
  {
    SeasonPairs();
    SeasonJoin();
    KeysIndex(SeasonParams(LeagueSeason(39, 2023)));
  }

  const HostUrl: string := "https://v3.football.api-sports.io"

  lemma HostUrlLiteral()
    ensures "https://" + Host == HostUrl
  {
  }

  /** The fixtures URL for league 39, season 2023, written in pieces. */
  lemma MatchesUrlLiteral()
    ensures Url(Host, "fixtures", "league=39&season=2023" + "&" + "timezone=Europe/Paris")
         == HostUrl + "/fixtures?" + "league=39&season=2023" + "&timezone=Europe/Paris"
  {
    var l, t := "league=39&season=2023", "timezone=Europe/Paris";
    UrlPieces(Host, "fixtures", l + "&" + t);
    HostUrlLiteral();
    assert "/" + "fixtures" + "?" == "/fixtures?";
    assert "&" + t == "&timezone=Europe/Paris";
    SeqAssoc(l, "&", t);
    SeqAssoc(HostUrl + "/fixtures?", l, "&timezone=Europe/Paris");
  }

  /** The fixtures request for league 39, season 2023: URL
      `https://v3.football.api-sports.io/fixtures?league=39&season=2023&timezone=Europe/Paris`. */
  lemma MatchesRequestExample(key: string)
    requires key != ""
    ensures BuildRequest(MatchesClient(), Some(key), SeasonParams(LeagueSeason(39, 2023)))
         == Ok(HttpRequest("GET",
                  HostUrl + "/fixtures?" + "league=39&season=2023" + "&timezone=Europe/Paris",
                  [("x-rapidapi-host", Host), ("x-rapidapi-key", key)]))
  {
    var params := SeasonParams(LeagueSeason(39, 2023));
    SeasonQueryExample();
    MatchesQueryEndsWithTimezone(params);
    BuildRequestShape(MatchesClient(), key, params);
    MatchesUrlLiteral();
  }

  /** The teams request for league 39, season 2023: URL
      `https://v3.football.api-sports.io/teams?league=39&season=2023`. */
  lemma TeamsRequestExample(key: string)
    requires key != ""
    ensures BuildRequest(TeamsClient(), Some(key), SeasonParams(LeagueSeason(39, 2023)))
         == Ok(HttpRequest("GET",
                  HostUrl + "/teams?" + "league=39&season=2023",
                  [("x-rapidapi-host", Host), ("x-rapidapi-key", key)]))
  {
    var params := SeasonParams(LeagueSeason(39, 2023));
    SeasonQueryExample();
    TeamsQueryIsCallParams(params);
    BuildRequestShape(TeamsClient(), key, params);
    TeamsUrlLiteral();
  }

  lemma TeamsUrlLiteral()
    ensures Url(Host, "teams", "league=39&season=2023") == HostUrl + "/teams?" + "league=39&season=2023"
  {
    UrlPieces(Host, "teams", "league=39&season=2023");
    HostUrlLiteral();
    assert "/" + "teams" + "?" == "/teams?";
  }

  /** A registry holding only the football fixtures client. */
  function FootballMatchesRegistry(): Registry
  {
    [("football", MatchesClient())]
  }

  /** The provider answering every request with one fixture and no errors. */
  function OneFixture(): Json
  {
    JObj([("errors", JArr([])), ("response", JArr([JObj([("fixture", JObj([("id", JNum(1))]))])]))])
  }

  /** The provider stub of the scenario. */
  function OneFixtureFetch(): Fetch
  {
    (r: HttpRequest) => Ok(OneFixture())
  }

  function FixtureItem(): Json
  {
    JObj([("fixture", JObj([("id", JNum(1))]))])
  }

  function TaggedFixture(): Json
  {
    JObj([("fixture", JObj([("id", JNum(1))])), ("sport", JStr("football"))])
  }

  lemma FixtureDecorated()
    ensures Decorate("football", FixtureItem()) == TaggedFixture()
  {
    assert "sport" !in Keys(FixtureItem().fields);
  }

  lemma OneFixtureErrors()
    ensures ErrorsReadable(OneFixture())
    ensures ResponseItems(OneFixture()) == Some([FixtureItem()])
  {
    var body := OneFixture();
    assert Prop(body, "errors") == Ok(JArr([]));
    assert Prop(JArr([]), "length") == Ok(JNum(0));
    assert Prop(body, "response") == Ok(JArr([FixtureItem()]));
  }

  lemma OneFixtureBody()
    ensures ReadBody("football", OneFixture()).result == Ok([TaggedFixture()])
  {
    FixtureDecorated();
    OneFixtureErrors();
    var r := ReadBody("football", OneFixture()).result;
    assert r.Ok? && |r.value| == 1;
    assert r.value[0] == Decorate("football", FixtureItem());
    assert r.value == [TaggedFixture()];
  }

  lemma OneFixtureCall(key: string)
    requires key != ""
    ensures FetchData(MatchesClient(), Some(key), SeasonParams(LeagueSeason(39, 2023)), OneFixtureFetch()).result
         == Ok([TaggedFixture()])
  {
    var call := FetchData(MatchesClient(), Some(key), SeasonParams(LeagueSeason(39, 2023)), OneFixtureFetch());
    OneFixtureBody();
    assert MatchesClient().sport == "football";
    assert OneFixtureFetch()(call.sent[0]) == Ok(OneFixture());
  }

  lemma OneFixtureBatch(key: string)
    requires key != ""
    ensures GetData(MatchesClient(), Some(key), [LeagueSeason(39, 2023)], OneFixtureFetch()).result == Ok([TaggedFixture()])
  {
    OneFixtureCall(key);
    GetDataSingle(MatchesClient(), Some(key), LeagueSeason(39, 2023), OneFixtureFetch());
  }

  lemma OneFixtureExpected(key: string)
    requires key != ""
    ensures Expected(FootballMatchesRegistry(), [("football", [LeagueSeason(39, 2023)])], Some(key), OneFixtureFetch())
         == Ok([TaggedFixture()])
  {
    OneFixtureSport(key);
    ExpectedSingle("football", MatchesClient(), [("football", [LeagueSeason(39, 2023)])], Some(key), OneFixtureFetch());
  }

  lemma OneFixtureSport(key: string)
    requires key != ""
    ensures SportRecords("football", MatchesClient(), [("football", [LeagueSeason(39, 2023)])], Some(key), OneFixtureFetch())
         == Ok([TaggedFixture()])
  {
    var leagues := [("football", [LeagueSeason(39, 2023)])];
    OneFixtureBatch(key);
    assert Lookup(leagues, "football") == Some([LeagueSeason(39, 2023)]);
  }

  /** End to end: with league 39 / season 2023 configured for football and
      the provider returning `{ fixture: { id: 1 } }` with no errors, the
      command saves exactly that fixture tagged with `sport: "football"`. */
  lemma EndToEndOneFixture(key: string, verbose: bool)
    requires key != ""
    ensures Run(GetMatchs, verbose, FootballMatchesRegistry(), [("football", [LeagueSeason(39, 2023)])],
                Some(key), OneFixtureFetch()).status
         == Saved([TaggedFixture()], 1)
  {
    OneFixtureExpected(key);
  }

  /** A registry holding only the football teams client. */
  function FootballTeamsRegistry(): Registry
  {
    [("football", TeamsClient())]
  }

  /** Every record a command saves through the fixtures client is tagged
      `football`. */
  lemma MatchesRecordsTagged(cmd: Command, verbose: bool, leagues: Leagues, credential: Option<string>, fetch: Fetch)
    ensures ValidRegistry(FootballMatchesRegistry())
    ensures var o := Run(cmd, verbose, FootballMatchesRegistry(), leagues, credential, fetch);
      o.status.Saved? ==> forall x :: x in o.status.records ==> Tagged(x, "football")
  {
    assert UniqueKeys(MatchesClient().defaults);
    SingleClientRecordsTagged(cmd, verbose, "football", MatchesClient(), leagues, credential, fetch);
  }

  /** Every record a command saves through the teams client is tagged
      `football`. */
  lemma TeamsRecordsTagged(cmd: Command, verbose: bool, leagues: Leagues, credential: Option<string>, fetch: Fetch)
    ensures ValidRegistry(FootballTeamsRegistry())
    ensures var o := Run(cmd, verbose, FootballTeamsRegistry(), leagues, credential, fetch);
      o.status.Saved? ==> forall x :: x in o.status.records ==> Tagged(x, "football")
  {
    assert UniqueKeys(TeamsClient().defaults);
    SingleClientRecordsTagged(cmd, verbose, "football", TeamsClient(), leagues, credential, fetch);
  }
}
