/** The two commands, `get-matchs` and `get-teams`: fan out over a client
    registry, one batch per configured sport, then flatten, drop falsy
    entries, and either hand the records on or log the error and exit 1. */
module Orchestrator {
  import opened Wrappers
  import opened Assoc
  import opened Json
  import opened Logger
  import opened SportClient

  datatype Command = GetMatchs | GetTeams

  /** `Object.entries(SPORTS_API)` or `Object.entries(TEAMS_API)`. */
  type Registry = seq<(string, Client)>

  /** `config.leagues`: the league-seasons to fetch, per sport. */
  type Leagues = Assoc<seq<LeagueSeason>>

  predicate ValidRegistry(reg: Registry)
  {
    forall i :: 0 <= i < |reg| ==> UniqueKeys(reg[i].1.defaults)
  }

  const NoConfigMessage: string := "no configuration available"

  /** The `map` callback for one registry entry. An unconfigured sport yields
      the `undefined` placeholder (and, in `get-teams`, an INFO entry); a
      configured one yields the array its batch resolves to. The result is a
      one-element list so that slots join like batches. */
  function Slot(cmd: Command, sport: string, client: Client, leagues: Leagues, credential: Option<string>, fetch: Fetch): (call: Call<seq<Json>>)
    requires UniqueKeys(client.defaults)
    ensures Lookup(leagues, sport).None? ==>
      && call.sent == [] && call.settleLogs == []
      && call.dispatchLogs == (if cmd == GetTeams then [Entry(INFO, NoConfigMessage)] else [])
      && call.result == Ok([JUndefined])
    ensures Lookup(leagues, sport).Some? ==>
      var batch := GetData(client, credential, Lookup(leagues, sport).value, fetch);
      && call.sent == batch.sent
      && call.dispatchLogs == batch.dispatchLogs
      && call.settleLogs == batch.settleLogs
      && (batch.result.Ok? ==> call.result == Ok([JArr(batch.result.value)]))
      && (batch.result.Err? ==> call.result == Err(batch.result.message))
  {
    match Lookup(leagues, sport)
    case None =>
      Call([], if cmd == GetTeams then [Entry(INFO, NoConfigMessage)] else [], [], Ok([JUndefined]))
    case Some(lss) =>
      var batch := GetData(client, credential, lss, fetch);
      Call(batch.sent, batch.dispatchLogs, batch.settleLogs,
           if batch.result.Ok? then Ok([JArr(batch.result.value)]) else Err(batch.result.message))
  }

  /** `Promise.all(Object.entries(registry).map(...))`: the slots of every
      registry entry, in registry order, joined fail-fast. */
  function Collect(cmd: Command, reg: Registry, leagues: Leagues, credential: Option<string>, fetch: Fetch): (call: Call<seq<Json>>)
    requires ValidRegistry(reg)
    ensures call.result.Ok? ==> |call.result.value| == |reg|
  {
    if |reg| == 0 then Call([], [], [], Ok([]))
    else Together(Slot(cmd, reg[0].0, reg[0].1, leagues, credential, fetch), Collect(cmd, reg[1..], leagues, credential, fetch))
  }

  /** `Array.prototype.flat()` to depth one. */
  function Flat(xs: seq<Json>): seq<Json>
  {
    if |xs| == 0 then [] else (if xs[0].JArr? then xs[0].elems else [xs[0]]) + Flat(xs[1..])
  }

  /** `filter(Boolean)`. */
  function FilterTruthy(xs: seq<Json>): (r: seq<Json>)
    ensures forall x :: x in r <==> x in xs && Truthy(x)
  {
    if |xs| == 0 then [] else (if Truthy(xs[0]) then [xs[0]] else []) + FilterTruthy(xs[1..])
  }

  /** `flat()` opens every array entry in place and keeps every other entry:
      its entries are the non-array entries and the elements of the array
      entries. */
  lemma {:induction false} FlatMembers(xs: seq<Json>, x: Json)
    ensures x in Flat(xs) <==> (x in xs && !x.JArr?) || (exists i :: 0 <= i < |xs| && xs[i].JArr? && x in xs[i].elems)
  {
    if |xs| > 0 {
      FlatMembers(xs[1..], x);
      var head := if xs[0].JArr? then xs[0].elems else [xs[0]];
      assert Flat(xs) == head + Flat(xs[1..]);
      assert xs == [xs[0]] + xs[1..];
      if exists i :: 0 <= i < |xs| && xs[i].JArr? && x in xs[i].elems {
        var i :| 0 <= i < |xs| && xs[i].JArr? && x in xs[i].elems;
        if i > 0 {
          assert xs[1..][i - 1] == xs[i];
        }
      }
      if exists i :: 0 <= i < |xs[1..]| && xs[1..][i].JArr? && x in xs[1..][i].elems {
        var i :| 0 <= i < |xs[1..]| && xs[1..][i].JArr? && x in xs[1..][i].elems;
        assert xs[i + 1] == xs[1..][i];
      }
    }
  }

  /** `filter(Boolean)` keeps every truthy entry as often as it occurs, and
      in order (see `FilterTruthyAppend`), and no falsy one. */
  lemma {:induction false} FilterTruthyCounts(xs: seq<Json>)
    ensures forall x :: multiset(FilterTruthy(xs))[x] == if Truthy(x) then multiset(xs)[x] else 0
  {
    if |xs| > 0 {
      FilterTruthyCounts(xs[1..]);
      var head := if Truthy(xs[0]) then [xs[0]] else [];
      assert FilterTruthy(xs) == head + FilterTruthy(xs[1..]);
      assert xs == [xs[0]] + xs[1..];
      assert multiset(xs) == multiset([xs[0]]) + multiset(xs[1..]);
    }
  }

  function Aggregate(slots: seq<Json>): seq<Json>
  {
    FilterTruthy(Flat(slots))
  }

  /** The records one registry entry contributes, without placeholders:
      none for an unconfigured sport, its batch otherwise. */
  function SportRecords(sport: string, client: Client, leagues: Leagues, credential: Option<string>, fetch: Fetch): Result<seq<Json>>
    requires UniqueKeys(client.defaults)
  {
    match Lookup(leagues, sport)
    case None => Ok([])
    case Some(lss) => GetData(client, credential, lss, fetch).result
  }

  /** Reference definition of a command's records: the fail-fast
      concatenation of the configured sports' batches, in registry order. */
  function Expected(reg: Registry, leagues: Leagues, credential: Option<string>, fetch: Fetch): Result<seq<Json>>
    requires ValidRegistry(reg)
  {
    if |reg| == 0 then Ok([])
    else Both(SportRecords(reg[0].0, reg[0].1, leagues, credential, fetch), Expected(reg[1..], leagues, credential, fetch))
  }

  /** A registry of one entry expects that entry's records. */
  lemma ExpectedSingle(sport: string, client: Client, leagues: Leagues, credential: Option<string>, fetch: Fetch)
    requires UniqueKeys(client.defaults)
    ensures ValidRegistry([(sport, client)])
    ensures Expected([(sport, client)], leagues, credential, fetch) == SportRecords(sport, client, leagues, credential, fetch)
  {
    var reg := [(sport, client)];
    assert reg[1..] == [];
    BothUnit(SportRecords(sport, client, leagues, credential, fetch));
  }

  /** Every expected record carries the sport tag of one of the registry's
      clients. */
  lemma {:induction false} ExpectedTagged(reg: Registry, leagues: Leagues, credential: Option<string>, fetch: Fetch)
    requires ValidRegistry(reg)
    ensures Expected(reg, leagues, credential, fetch).Ok? ==>
      forall x :: x in Expected(reg, leagues, credential, fetch).value ==>
        exists i :: 0 <= i < |reg| && Tagged(x, reg[i].1.sport)
  {
    if |reg| > 0 {
      var tail := reg[1..];
      assert ValidRegistry(tail) by {
        forall i | 0 <= i < |tail| ensures UniqueKeys(tail[i].1.defaults) {
          assert tail[i] == reg[i + 1];
        }
      }
      ExpectedTagged(tail, leagues, credential, fetch);
      var mine := SportRecords(reg[0].0, reg[0].1, leagues, credential, fetch);
      var rest := Expected(tail, leagues, credential, fetch);
      if mine.Ok? && rest.Ok? {
        forall x | x in mine.value + rest.value ensures exists i :: 0 <= i < |reg| && Tagged(x, reg[i].1.sport) {
          if x in mine.value {
            assert Tagged(x, reg[0].1.sport);
          } else {
            var i :| 0 <= i < |tail| && Tagged(x, tail[i].1.sport);
            assert tail[i] == reg[i + 1];
          }
        }
      }
    }
  }

  lemma {:induction false} FlatAppend(a: seq<Json>, b: seq<Json>)
    ensures Flat(a + b) == Flat(a) + Flat(b)
  {
    if |a| == 0 {
      assert a + b == b;
    } else {
      assert (a + b)[1..] == a[1..] + b;
      FlatAppend(a[1..], b);
      SeqAssoc(if a[0].JArr? then a[0].elems else [a[0]], Flat(a[1..]), Flat(b));
    }
  }

  lemma {:induction false} FilterTruthyAppend(a: seq<Json>, b: seq<Json>)
    ensures FilterTruthy(a + b) == FilterTruthy(a) + FilterTruthy(b)
  {
    if |a| == 0 {
      assert a + b == b;
    } else {
      assert (a + b)[1..] == a[1..] + b;
      FilterTruthyAppend(a[1..], b);
      SeqAssoc(if Truthy(a[0]) then [a[0]] else [], FilterTruthy(a[1..]), FilterTruthy(b));
    }
  }

  lemma {:induction false} FilterKeepsRecords(xs: seq<Json>, tag: string)
    requires forall x :: x in xs ==> Tagged(x, tag)
    ensures FilterTruthy(xs) == xs
  {
    if |xs| > 0 {
      assert xs[0] in xs;
      assert Truthy(xs[0]);
      var tail := xs[1..];
      assert forall x :: x in tail ==> Tagged(x, tag) by {
        forall x | x in tail ensures Tagged(x, tag) {
          assert x in xs;
        }
      }
      FilterKeepsRecords(tail, tag);
      assert [xs[0]] + tail == xs;
    }
  }

  /** Flattening the slots and dropping falsy entries leaves exactly the
      configured sports' records, in registry order: no placeholder of a
      skipped sport survives, and no record is lost. Failure is the same
      failure. */
  lemma {:induction false} CollectAggregates(cmd: Command, reg: Registry, leagues: Leagues, credential: Option<string>, fetch: Fetch)
    requires ValidRegistry(reg)
    ensures Collect(cmd, reg, leagues, credential, fetch).result.Ok? <==> Expected(reg, leagues, credential, fetch).Ok?
    ensures Collect(cmd, reg, leagues, credential, fetch).result.Ok? ==>
      Aggregate(Collect(cmd, reg, leagues, credential, fetch).result.value) == Expected(reg, leagues, credential, fetch).value
    ensures Collect(cmd, reg, leagues, credential, fetch).result.Err? ==>
      Collect(cmd, reg, leagues, credential, fetch).result.message == Expected(reg, leagues, credential, fetch).message
  {
    if |reg| > 0 {
      var (sport, client) := reg[0];
      var tail := reg[1..];
      assert ValidRegistry(tail) by {
        forall i | 0 <= i < |tail| ensures UniqueKeys(tail[i].1.defaults) {
          assert tail[i] == reg[i + 1];
        }
      }
      assert UniqueKeys(client.defaults) by { assert reg[0].1 == client; }
      CollectAggregates(cmd, tail, leagues, credential, fetch);
      var slot := Slot(cmd, sport, client, leagues, credential, fetch);
      var rest := Collect(cmd, tail, leagues, credential, fetch);
      var mine := SportRecords(sport, client, leagues, credential, fetch);
      assert slot.result.Ok? <==> mine.Ok?;
      if slot.result.Ok? && rest.result.Ok? {
        FlatAppend(slot.result.value, rest.result.value);
        FilterTruthyAppend(Flat(slot.result.value), Flat(rest.result.value));
        if Lookup(leagues, sport).None? {
          assert Aggregate(slot.result.value) == [];
        } else {
          assert Flat(slot.result.value) == mine.value + [] by {
            assert slot.result.value == [JArr(mine.value)];
          }
          assert mine.value + [] == mine.value;
          FilterKeepsRecords(mine.value, client.sport);
        }
      }
    }
  }

  /** How a command ends: the records handed to the JSON and SQL writers
      together with the count the spinner reports, or exit status 1. */
  datatype Status = Saved(records: seq<Json>, count: nat) | Exited(code: int)

  /** The console lines the logger prints and how the command ends. */
  datatype Outcome = Outcome(lines: seq<string>, status: Status)

  /** The entries a run logs: everything logged while the batches are
      dispatched (fetch traces and, in `get-teams`, skipped-sport notices,
      in registry order), then what reading each response body logs, in
      call order, then the fatal error, if any. Response timing is not
      modelled: on a failing run the process exits at the first rejection,
      before later responses are read, whereas this log keeps them all. */
  function Log(call: Call<seq<Json>>): (log: seq<Entry>)
    ensures call.result.Err? ==> |log| > 0 && log[|log| - 1] == Entry(ERROR, call.result.message)
  {
    call.dispatchLogs + call.settleLogs + (if call.result.Err? then [Entry(ERROR, call.result.message)] else [])
  }

  /** The `try` block after `Promise.all` has settled, and its `catch`. */
  function Finish(call: Call<seq<Json>>, verbose: bool): (o: Outcome)
    ensures o.lines == Output(verbose, Log(call))
    ensures o.status.Saved? <==> call.result.Ok?
    ensures o.status.Saved? ==> o.status.records == Aggregate(call.result.value) && o.status.count == |o.status.records|
    ensures o.status.Exited? ==> o.status.code == 1 && |o.lines| > 0 && o.lines[|o.lines| - 1] == "[ERROR] " + call.result.message
  {
    var log := Log(call);
    match call.result
    case Ok(slots) =>
      var records := Aggregate(slots);
      Outcome(Output(verbose, log), Saved(records, |records|))
    case Err(e) =>
      OutputAppend(verbose, call.dispatchLogs + call.settleLogs, [Entry(ERROR, e)]);
      Outcome(Output(verbose, log), Exited(1))
  }

  /** One run of `get-matchs` or `get-teams` up to the hand-off to the
      writers. */
  function Run(cmd: Command, verbose: bool, reg: Registry, leagues: Leagues, credential: Option<string>, fetch: Fetch): (o: Outcome)
    requires ValidRegistry(reg)
    ensures o.status.Saved? <==> Expected(reg, leagues, credential, fetch).Ok?
    ensures o.status.Saved? ==>
      o.status.records == Expected(reg, leagues, credential, fetch).value && o.status.count == |o.status.records|
    ensures o.status.Exited? ==>
      && o.status.code == 1
      && |o.lines| > 0
      && o.lines[|o.lines| - 1] == "[ERROR] " + Expected(reg, leagues, credential, fetch).message
  {
    CollectAggregates(cmd, reg, leagues, credential, fetch);
    Finish(Collect(cmd, reg, leagues, credential, fetch), verbose)
  }

  /** Every record a command saves carries the sport tag of one of the
      registry's clients. */
  lemma RunRecordsTagged(cmd: Command, verbose: bool, reg: Registry, leagues: Leagues, credential: Option<string>, fetch: Fetch)
    requires ValidRegistry(reg)
    ensures var o := Run(cmd, verbose, reg, leagues, credential, fetch);
      o.status.Saved? ==> forall x :: x in o.status.records ==> exists i :: 0 <= i < |reg| && Tagged(x, reg[i].1.sport)
  {
    ExpectedTagged(reg, leagues, credential, fetch);
  }

  /** With a registry of one client, every saved record carries that
      client's sport tag. */
  lemma SingleClientRecordsTagged(cmd: Command, verbose: bool, sport: string, client: Client,
                                  leagues: Leagues, credential: Option<string>, fetch: Fetch)
    requires UniqueKeys(client.defaults)
    ensures ValidRegistry([(sport, client)])
    ensures var o := Run(cmd, verbose, [(sport, client)], leagues, credential, fetch);
      o.status.Saved? ==> forall x :: x in o.status.records ==> Tagged(x, client.sport)
  {
    var reg := [(sport, client)];
    RunRecordsTagged(cmd, verbose, reg, leagues, credential, fetch);
    var o := Run(cmd, verbose, reg, leagues, credential, fetch);
    if o.status.Saved? {
      forall x | x in o.status.records ensures Tagged(x, client.sport) {
        var i :| 0 <= i < |reg| && Tagged(x, reg[i].1.sport);
        assert i == 0;
      }
    }
  }

  lemma QuietFinishHasNoDebugLine(call: Call<seq<Json>>)
    ensures forall l :: l in Finish(call, false).lines ==> !(|l| >= 8 && l[..8] == "[DEBUG] ")
  {
    var log := Log(call);
    QuietOutputHasNoDebugLine(log);
    forall l | l in Output(false, log) ensures !(|l| >= 8 && l[..8] == "[DEBUG] ") {
      var e :| e in log && e.level != DEBUG && l == Format(e);
      FormatNotDebug(e);
    }
  }

  /** A non-DEBUG entry never prints as a `[DEBUG] ` line. */
  lemma FormatNotDebug(e: Entry)
    requires e.level != DEBUG
    ensures !(|Format(e)| >= 8 && Format(e)[..8] == "[DEBUG] ")
  {
    assert Format(e)[1] == LevelName(e.level)[0];
  }

  /** Without `--verbose` no DEBUG line reaches the console, and how the
      command ends does not depend on the flag. */
  lemma QuietRunHasNoDebugLine(cmd: Command, reg: Registry, leagues: Leagues, credential: Option<string>, fetch: Fetch)
    requires ValidRegistry(reg)
    ensures forall l :: l in Run(cmd, false, reg, leagues, credential, fetch).lines ==> !(|l| >= 8 && l[..8] == "[DEBUG] ")
    ensures Run(cmd, false, reg, leagues, credential, fetch).status == Run(cmd, true, reg, leagues, credential, fetch).status
  {
    QuietFinishHasNoDebugLine(Collect(cmd, reg, leagues, credential, fetch));
  }

  lemma ValidRegistryAppend(a: Registry, b: Registry)
    ensures ValidRegistry(a + b) <==> ValidRegistry(a) && ValidRegistry(b)
  {
    if ValidRegistry(a + b) {
      assert forall i :: 0 <= i < |a| ==> a[i] == (a + b)[i];
      assert forall i :: 0 <= i < |b| ==> b[i] == (a + b)[|a| + i];
    }
  }

  lemma {:induction false} CollectAppend(cmd: Command, a: Registry, b: Registry, leagues: Leagues, credential: Option<string>, fetch: Fetch)
    requires ValidRegistry(a) && ValidRegistry(b)
    ensures ValidRegistry(a + b)
    ensures Collect(cmd, a + b, leagues, credential, fetch)
         == Together(Collect(cmd, a, leagues, credential, fetch), Collect(cmd, b, leagues, credential, fetch))
  {
    ValidRegistryAppend(a, b);
    if |a| == 0 {
      assert a + b == b;
      TogetherUnit(Collect(cmd, b, leagues, credential, fetch));
    } else {
      assert (a + b)[0] == a[0];
      assert (a + b)[1..] == a[1..] + b;
      ValidRegistryAppend([a[0]], a[1..]);
      assert [a[0]] + a[1..] == a;
      CollectAppend(cmd, a[1..], b, leagues, credential, fetch);
      TogetherAssociative(Slot(cmd, a[0].0, a[0].1, leagues, credential, fetch),
                          Collect(cmd, a[1..], leagues, credential, fetch), Collect(cmd, b, leagues, credential, fetch));
    }
  }

  lemma {:induction false} ExpectedAppend(a: Registry, b: Registry, leagues: Leagues, credential: Option<string>, fetch: Fetch)
    requires ValidRegistry(a) && ValidRegistry(b)
    ensures ValidRegistry(a + b)
    ensures Expected(a + b, leagues, credential, fetch) == Both(Expected(a, leagues, credential, fetch), Expected(b, leagues, credential, fetch))
  {
    ValidRegistryAppend(a, b);
    if |a| == 0 {
      assert a + b == b;
      BothUnit(Expected(b, leagues, credential, fetch));
    } else {
      assert (a + b)[0] == a[0];
      assert (a + b)[1..] == a[1..] + b;
      ValidRegistryAppend([a[0]], a[1..]);
      assert [a[0]] + a[1..] == a;
      ExpectedAppend(a[1..], b, leagues, credential, fetch);
      BothAssociative(SportRecords(a[0].0, a[0].1, leagues, credential, fetch),
                      Expected(a[1..], leagues, credential, fetch), Expected(b, leagues, credential, fetch));
    }
  }

  /** A sport in the registry but not in the configuration sends no request
      and contributes no record and no error; in `get-teams` it adds exactly
      one INFO entry, at its place in registry order. */
  lemma SkippedSportContributesNothing(cmd: Command, r1: Registry, sport: string, client: Client, r2: Registry,
                                       leagues: Leagues, credential: Option<string>, fetch: Fetch)
    requires ValidRegistry(r1) && ValidRegistry(r2) && UniqueKeys(client.defaults)
    requires Lookup(leagues, sport).None?
    ensures ValidRegistry(r1 + [(sport, client)] + r2) && ValidRegistry(r1 + r2)
    ensures Expected(r1 + [(sport, client)] + r2, leagues, credential, fetch) == Expected(r1 + r2, leagues, credential, fetch)
    ensures Collect(cmd, r1 + [(sport, client)] + r2, leagues, credential, fetch).sent
         == Collect(cmd, r1 + r2, leagues, credential, fetch).sent
    ensures Collect(cmd, r1 + [(sport, client)] + r2, leagues, credential, fetch).dispatchLogs
         == Collect(cmd, r1, leagues, credential, fetch).dispatchLogs
            + (if cmd == GetTeams then [Entry(INFO, NoConfigMessage)] else [])
            + Collect(cmd, r2, leagues, credential, fetch).dispatchLogs
  {
    var x: Registry := [(sport, client)];
    SkippedSlot(cmd, sport, client, leagues, credential, fetch);
    ValidRegistryAppend(r1, x);
    ValidRegistryAppend(r1 + x, r2);
    ValidRegistryAppend(r1, r2);
    SkippedSportExpected(r1, sport, client, r2, leagues, credential, fetch);
    SkippedSportCollect(cmd, r1, sport, client, r2, leagues, credential, fetch);
  }

  /** The registry of a skipped sport alone: no request, no record. */
  lemma SkippedSlot(cmd: Command, sport: string, client: Client, leagues: Leagues, credential: Option<string>, fetch: Fetch)
    requires UniqueKeys(client.defaults) && Lookup(leagues, sport).None?
    ensures ValidRegistry([(sport, client)])
    ensures Collect(cmd, [(sport, client)], leagues, credential, fetch).sent == []
    ensures Collect(cmd, [(sport, client)], leagues, credential, fetch).dispatchLogs
         == if cmd == GetTeams then [Entry(INFO, NoConfigMessage)] else []
    ensures Expected([(sport, client)], leagues, credential, fetch) == Ok([])
  {
    var x: Registry := [(sport, client)];
    assert x[1..] == [];
    ExpectedSingle(sport, client, leagues, credential, fetch);
    var slot := Slot(cmd, sport, client, leagues, credential, fetch);
    assert slot.dispatchLogs + [] == slot.dispatchLogs;
  }

  lemma SkippedSportExpected(r1: Registry, sport: string, client: Client, r2: Registry,
                             leagues: Leagues, credential: Option<string>, fetch: Fetch)
    requires ValidRegistry(r1) && ValidRegistry(r2) && UniqueKeys(client.defaults)
    requires ValidRegistry([(sport, client)]) && Expected([(sport, client)], leagues, credential, fetch) == Ok([])
    ensures ValidRegistry(r1 + [(sport, client)] + r2) && ValidRegistry(r1 + r2)
    ensures Expected(r1 + [(sport, client)] + r2, leagues, credential, fetch) == Expected(r1 + r2, leagues, credential, fetch)
  {
    var x: Registry := [(sport, client)];
    ExpectedAppend(r1, x, leagues, credential, fetch);
    ExpectedAppend(r1 + x, r2, leagues, credential, fetch);
    ExpectedAppend(r1, r2, leagues, credential, fetch);
    var e1 := Expected(r1, leagues, credential, fetch);
    BothUnit(e1);
    assert Both(e1, Ok([])) == e1;
  }

  lemma SkippedSportCollect(cmd: Command, r1: Registry, sport: string, client: Client, r2: Registry,
                            leagues: Leagues, credential: Option<string>, fetch: Fetch)
    requires ValidRegistry(r1) && ValidRegistry(r2) && ValidRegistry([(sport, client)])
    requires Collect(cmd, [(sport, client)], leagues, credential, fetch).sent == []
    ensures ValidRegistry(r1 + [(sport, client)] + r2) && ValidRegistry(r1 + r2)
    ensures Collect(cmd, r1 + [(sport, client)] + r2, leagues, credential, fetch).sent
         == Collect(cmd, r1 + r2, leagues, credential, fetch).sent
    ensures Collect(cmd, r1 + [(sport, client)] + r2, leagues, credential, fetch).dispatchLogs
         == Collect(cmd, r1, leagues, credential, fetch).dispatchLogs
            + Collect(cmd, [(sport, client)], leagues, credential, fetch).dispatchLogs
            + Collect(cmd, r2, leagues, credential, fetch).dispatchLogs
  {
    var x: Registry := [(sport, client)];
    CollectAppend(cmd, r1, x, leagues, credential, fetch);
    CollectAppend(cmd, r1 + x, r2, leagues, credential, fetch);
    CollectAppend(cmd, r1, r2, leagues, credential, fetch);
    var c1 := Collect(cmd, r1, leagues, credential, fetch);
    assert c1.sent + [] == c1.sent;
  }
}
