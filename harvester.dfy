/** One harvest run: resolve the credentials, query each provider's connector
    inside its own failure boundary, and produce the snapshot that is written
    to disk (or nothing, when no credentials can be found).

    The run is modelled by straight-line methods (`HarvestSpotify`,
    `HarvestApple`, `Harvest`) that update the snapshot's slots step by step,
    and proved against reference functions (`SpotifyRun`, `AppleRun`) built
    on one generic rule, `RunQueries`: perform the queries in order, store
    each result under its key, and at the first failure record the failure
    under "error" and stop. */
module Harvester {
  import opened Connectors

  datatype Option<T> = None | Some(value: T)

  /** The placeholder that marks a provider as deliberately not configured. */
  const Sentinel := "FILL_ME_IN"
  const SpotifyBaseUrl := "https://generic.wg.spotify.com/podcasters/v0"
  /** Length, in days, of the trailing window of the Spotify series queries. */
  const WindowDays := 30
  const ErrorKey := "error"

  /** Constructor arguments, in the order they are looked up. */
  const SpotifyRequired := ["client_id", "podcast_id", "sp_dc", "sp_key"]
  const AppleRequired := ["podcast_id", "myacinfo", "itctx"]

  /** One provider's section of the credentials document. */
  type Section = map<string, string>
  /** The credentials document: one section per provider name. */
  type Secrets = map<string, Section>

  /** The local secrets file: missing, present but not loadable, or loaded. */
  datatype LocalFile = Absent | Unreadable | Loaded(secrets: Secrets)

  datatype Resolution = Use(secrets: Secrets) | NoSource | LoadError

  /** What a provider block can raise: the lookup of a missing constructor
      argument, or a failure inside the connector. The text `str(e)` of the
      exception is represented by this value. */
  datatype Failure = MissingKey(key: string) | Raised(message: string)

  /** A value stored in a provider slot: a query result or the failure. */
  datatype Value = Data(payload: Payload) | Error(failure: Failure)

  type Slot = map<string, Value>

  datatype Snapshot = Snapshot(timestamp: string, spotify: Slot, apple: Slot)

  /** What a run leaves behind: a written snapshot, or nothing written
      because no credentials were found, or nothing written because loading
      the local file raised out of the run. */
  datatype Outcome = Written(snapshot: Snapshot) | NoSecrets | SecretsUnreadable

  /** The local file, when it exists, is the only source; the fallback store
      is used only when the local file is absent. */
  function ResolveSecrets(local: LocalFile, fallback: Option<Secrets>): (r: Resolution)
    ensures r.Use? <==> local.Loaded? || (local.Absent? && fallback.Some?)
    ensures r.LoadError? <==> local.Unreadable?
    ensures r.Use? && local.Loaded? ==> r.secrets == local.secrets
    ensures r.Use? && !local.Loaded? ==> fallback.Some? && r.secrets == fallback.value
  {
    match local
    case Loaded(s) => Use(s)
    case Unreadable => LoadError
    case Absent => if fallback.Some? then Use(fallback.value) else NoSource
  }

  /** A dictionary lookup with a default of nothing. */
  function Get(conf: Section, key: string): Option<string> {
    if key in conf then Some(conf[key]) else None
  }

  /** A provider's section, or the empty section when there is none. */
  function SectionOf(secrets: Secrets, provider: string): Section {
    if provider in secrets then secrets[provider] else map[]
  }

  /** A provider is skipped only when its podcast id is present and equal to
      the sentinel; a missing podcast id is not the sentinel. */
  predicate IsSentinel(conf: Section) {
    Get(conf, "podcast_id") == Some(Sentinel)
  }

  /** The first of `keys` that `conf` lacks: the key whose lookup raises
      when the constructor arguments are evaluated left to right. */
  function FirstMissing(conf: Section, keys: seq<string>): (r: Option<string>)
    ensures r.None? <==> forall i | 0 <= i < |keys| :: keys[i] in conf
    ensures r.Some? ==> exists i | 0 <= i < |keys| ::
      keys[i] == r.value && r.value !in conf && forall j | 0 <= j < i :: keys[j] in conf
  {
    if keys == [] then None
    else if keys[0] !in conf then Some(keys[0])
    else
      var r := FirstMissing(conf, keys[1..]);
      assert r.Some? ==> exists i | 0 <= i < |keys[1..]| ::
        keys[1..][i] == r.value && r.value !in conf && forall j | 0 <= j < i :: keys[1..][j] in conf;
      r
  }

  /** One query of a provider block: the key its result is stored under, the
      call made, and the scripted reply. */
  datatype Query = Query(key: string, call: Call, reply: Reply)

  /** A provider slot together with the connector calls that produced it. */
  datatype Run = Run(slot: Slot, calls: seq<Call>)

  /** Performs `queries` in order starting from `slot`: each success is
      stored under its key; the first failure is stored under "error" and
      ends the block, leaving earlier results in place. */
  function RunQueries(slot: Slot, queries: seq<Query>): Run
    decreases |queries|
  {
    if queries == [] then Run(slot, [])
    else
      var q := queries[0];
      match q.reply
      case Fail(m) => Run(slot[ErrorKey := Error(Raised(m))], [q.call])
      case Ok(p) =>
        var rest := RunQueries(slot[q.key := Data(p)], queries[1..]);
        Run(rest.slot, [q.call] + rest.calls)
  }

  /** The connector was constructed with `ctor`; a failing constructor is
      recorded like a failing query, otherwise the queries run. */
  function Attempt(ctor: Call, build: Build, queries: seq<Query>): Run {
    match build
    case BuildFailed(m) => Run(map[ErrorKey := Error(Raised(m))], [ctor])
    case Built =>
      var r := RunQueries(map[], queries);
      Run(r.slot, [ctor] + r.calls)
  }

  /** The Spotify queries: metadata, then the listener series and the
      audience aggregate over the window ending today. */
  function SpotifyQueries(today: int, script: SpotifyScript): seq<Query> {
    var end := today;
    var start := end - WindowDays;
    [Query("metadata", Metadata, script.metadata),
     Query("listeners", Listeners(start, end), script.listeners),
     Query("aggregate", Aggregate(start, end), script.aggregate)]
  }

  function AppleQueries(script: AppleScript): seq<Query> {
    [Query("overview", Overview, script.overview),
     Query("trends", Trends, script.trends)]
  }

  /** Reference definition of the Spotify block. */
  function SpotifyRun(secrets: Secrets, today: int, script: SpotifyScript): Run {
    var conf := SectionOf(secrets, "spotify");
    if IsSentinel(conf) then Run(map[], [])
    else
      match FirstMissing(conf, SpotifyRequired)
      case Some(k) => Run(map[ErrorKey := Error(MissingKey(k))], [])
      case None =>
        assert SpotifyRequired[0] in conf && SpotifyRequired[1] in conf;
        assert SpotifyRequired[2] in conf && SpotifyRequired[3] in conf;
        var ctor := NewSpotify(SpotifyBaseUrl, conf["client_id"], conf["podcast_id"], conf["sp_dc"], conf["sp_key"]);
        Attempt(ctor, script.build, SpotifyQueries(today, script))
  }

  /** Reference definition of the Apple block. */
  function AppleRun(secrets: Secrets, script: AppleScript): Run {
    var conf := SectionOf(secrets, "apple");
    if IsSentinel(conf) then Run(map[], [])
    else
      match FirstMissing(conf, AppleRequired)
      case Some(k) => Run(map[ErrorKey := Error(MissingKey(k))], [])
      case None =>
        assert AppleRequired[0] in conf && AppleRequired[1] in conf && AppleRequired[2] in conf;
        var ctor := NewApple(conf["podcast_id"], conf["myacinfo"], conf["itctx"]);
        Attempt(ctor, script.build, AppleQueries(script))
  }

  /** The Spotify block of a run, step by step. */
  method HarvestSpotify(secrets: Secrets, today: int, script: SpotifyScript) returns (slot: Slot, calls: seq<Call>)
    ensures Run(slot, calls) == SpotifyRun(secrets, today, script)
    ensures IsSentinel(SectionOf(secrets, "spotify")) ==> slot == map[] && calls == []
    ensures forall c | c in calls :: c.IsSpotify()
    ensures forall c | c in calls && (c.Listeners? || c.Aggregate?) ::
      c.end == today && c.start == today - WindowDays && c.start < c.end
  {
    slot, calls := map[], [];
    var conf := SectionOf(secrets, "spotify");
    if Get(conf, "podcast_id") == Some(Sentinel) {
      return;
    }
    var missing := FirstMissing(conf, SpotifyRequired);
    if missing.Some? {
      slot := slot[ErrorKey := Error(MissingKey(missing.value))];
      return;
    }
    assert SpotifyRequired[0] in conf && SpotifyRequired[1] in conf;
    assert SpotifyRequired[2] in conf && SpotifyRequired[3] in conf;
    calls := calls + [NewSpotify(SpotifyBaseUrl, conf["client_id"], conf["podcast_id"], conf["sp_dc"], conf["sp_key"])];
    if script.build.BuildFailed? {
      slot := slot[ErrorKey := Error(Raised(script.build.message))];
      return;
    }
    ghost var queries := SpotifyQueries(today, script);

    calls := calls + [Metadata];
    match script.metadata {
      case Fail(m) =>
        slot := slot[ErrorKey := Error(Raised(m))];
        return;
      case Ok(p) =>
        slot := slot["metadata" := Data(p)];
    }
    ghost var afterMetadata := slot;

    var end := today;
    var start := end - WindowDays;

    calls := calls + [Listeners(start, end)];
    match script.listeners {
      case Fail(m) =>
        slot := slot[ErrorKey := Error(Raised(m))];
        assert RunQueries(afterMetadata, queries[1..]) == Run(slot, [Listeners(start, end)]);
        return;
      case Ok(p) =>
        slot := slot["listeners" := Data(p)];
    }
    ghost var afterListeners := slot;

    calls := calls + [Aggregate(start, end)];
    match script.aggregate {
      case Fail(m) =>
        slot := slot[ErrorKey := Error(Raised(m))];
      case Ok(p) =>
        slot := slot["aggregate" := Data(p)];
    }
    assert queries[1..][1..] == queries[2..];
    assert RunQueries(afterListeners, queries[2..]) == Run(slot, [Aggregate(start, end)]);
    assert RunQueries(afterMetadata, queries[1..]) == Run(slot, [Listeners(start, end), Aggregate(start, end)]);
  }

  /** The Apple block of a run, step by step. */
  method HarvestApple(secrets: Secrets, script: AppleScript) returns (slot: Slot, calls: seq<Call>)
    ensures Run(slot, calls) == AppleRun(secrets, script)
    ensures IsSentinel(SectionOf(secrets, "apple")) ==> slot == map[] && calls == []
    ensures forall c | c in calls :: c.IsApple()
  {
    slot, calls := map[], [];
    var conf := SectionOf(secrets, "apple");
    if Get(conf, "podcast_id") == Some(Sentinel) {
      return;
    }
    var missing := FirstMissing(conf, AppleRequired);
    if missing.Some? {
      slot := slot[ErrorKey := Error(MissingKey(missing.value))];
      return;
    }
    assert AppleRequired[0] in conf && AppleRequired[1] in conf && AppleRequired[2] in conf;
    calls := calls + [NewApple(conf["podcast_id"], conf["myacinfo"], conf["itctx"])];
    if script.build.BuildFailed? {
      slot := slot[ErrorKey := Error(Raised(script.build.message))];
      return;
    }
    ghost var queries := AppleQueries(script);

    calls := calls + [Overview];
    match script.overview {
      case Fail(m) =>
        slot := slot[ErrorKey := Error(Raised(m))];
        return;
      case Ok(p) =>
        slot := slot["overview" := Data(p)];
    }
    ghost var afterOverview := slot;

    calls := calls + [Trends];
    match script.trends {
      case Fail(m) =>
        slot := slot[ErrorKey := Error(Raised(m))];
      case Ok(p) =>
        slot := slot["trends" := Data(p)];
    }
    assert RunQueries(afterOverview, queries[1..]) == Run(slot, [Trends]);
  }

  /** One harvest run. `today` is the current date as a day number and
      `timestamp` the creation instant; `calls` lists every connector call
      made, Spotify's before Apple's. */
  method Harvest(local: LocalFile, fallback: Option<Secrets>, timestamp: string, today: int,
                 spotify: SpotifyScript, apple: AppleScript)
    returns (outcome: Outcome, calls: seq<Call>)
    ensures outcome.Written? <==> ResolveSecrets(local, fallback).Use?
    ensures local.Unreadable? ==> outcome == SecretsUnreadable
    ensures local.Absent? && fallback.None? ==> outcome == NoSecrets
    ensures !outcome.Written? ==> calls == []
    ensures outcome.Written? ==>
      var secrets := ResolveSecrets(local, fallback).secrets;
      var s := SpotifyRun(secrets, today, spotify);
      var a := AppleRun(secrets, apple);
      outcome.snapshot == Snapshot(timestamp, s.slot, a.slot) && calls == s.calls + a.calls
    ensures outcome.Written? && IsSentinel(SectionOf(ResolveSecrets(local, fallback).secrets, "apple")) ==>
      forall c | c in calls :: !c.IsApple()
    ensures outcome.Written? && IsSentinel(SectionOf(ResolveSecrets(local, fallback).secrets, "spotify")) ==>
      forall c | c in calls :: !c.IsSpotify()
  {
    var secrets: Secrets;
    match local {
      case Unreadable =>
        return SecretsUnreadable, [];
      case Loaded(s) =>
        secrets := s;
      case Absent =>
        if fallback.None? {
          return NoSecrets, [];
        }
        secrets := fallback.value;
    }

    var results := Snapshot(timestamp, map[], map[]);
    var spotifySlot, spotifyCalls := HarvestSpotify(secrets, today, spotify);
    results := results.(spotify := spotifySlot);
    var appleSlot, appleCalls := HarvestApple(secrets, apple);
    results := results.(apple := appleSlot);

    outcome := Written(results);
    calls := spotifyCalls + appleCalls;
  }

  // Properties of the generic rule

  /** The keys under which `queries` store their results. */
  function KeysOf(queries: seq<Query>): set<string> {
    set i | 0 <= i < |queries| :: queries[i].key
  }

  /** The calls `queries` make when all of them are performed. */
  function CallsOf(queries: seq<Query>): seq<Call> {
    seq(|queries|, i requires 0 <= i < |queries| => queries[i].call)
  }

  /** No two queries share a key, and none is stored under "error". */
  predicate DistinctKeys(queries: seq<Query>) {
    && (forall i, j | 0 <= i < j < |queries| :: queries[i].key != queries[j].key)
    && (forall i | 0 <= i < |queries| :: queries[i].key != ErrorKey)
  }

  predicate AllOk(queries: seq<Query>) {
    forall i | 0 <= i < |queries| :: queries[i].reply.Ok?
  }

  /** The slot after storing every result of `queries`, in order. */
  function Stored(slot: Slot, queries: seq<Query>): Slot
    requires AllOk(queries)
    decreases |queries|
  {
    if queries == [] then slot
    else Stored(slot[queries[0].key := Data(queries[0].reply.payload)], queries[1..])
  }

  /** With distinct keys, `Stored` adds exactly the queries' keys, each
      holding its own result, and leaves every other entry as it was. */
  lemma {:induction false} StoredContents(slot: Slot, queries: seq<Query>)
    requires AllOk(queries) && DistinctKeys(queries)
    ensures Stored(slot, queries).Keys == slot.Keys + KeysOf(queries)
    ensures forall i | 0 <= i < |queries| ::
      Stored(slot, queries)[queries[i].key] == Data(queries[i].reply.payload)
    ensures forall x | x in slot && x !in KeysOf(queries) :: Stored(slot, queries)[x] == slot[x]
    decreases |queries|
  {
    if queries != [] {
      var q, rest := queries[0], queries[1..];
      var next := slot[q.key := Data(q.reply.payload)];
      assert DistinctKeys(rest) by {
        forall i | 0 <= i < |rest| ensures rest[i] == queries[i + 1] { }
      }
      StoredContents(next, rest);
      assert KeysOf(queries) == {q.key} + KeysOf(rest) by {
        forall x | x in KeysOf(queries) ensures x in {q.key} + KeysOf(rest) {
          var i :| 0 <= i < |queries| && queries[i].key == x;
          if i > 0 { assert rest[i - 1].key == x; }
        }
      }
      assert q.key !in KeysOf(rest) by {
        forall i | 0 <= i < |rest| ensures rest[i].key != q.key {
          assert rest[i] == queries[i + 1];
        }
      }
      forall i | 0 <= i < |queries|
        ensures Stored(slot, queries)[queries[i].key] == Data(queries[i].reply.payload)
      {
        if i > 0 { assert queries[i] == rest[i - 1]; }
      }
    }
  }

  /** A prefix of distinct queries is distinct and stores under fewer keys. */
  lemma DistinctPrefix(queries: seq<Query>, k: nat)
    requires k <= |queries| && DistinctKeys(queries)
    ensures DistinctKeys(queries[..k]) && KeysOf(queries[..k]) <= KeysOf(queries)
  {
    forall x | x in KeysOf(queries[..k]) ensures x in KeysOf(queries) {
      var i :| 0 <= i < k && queries[..k][i].key == x;
      assert queries[i].key == x;
    }
  }

  /** When every query succeeds, all results are stored and every call is
      made, in order. */
  lemma {:induction false} RunQueriesAllOk(slot: Slot, queries: seq<Query>)
    requires AllOk(queries)
    ensures RunQueries(slot, queries) == Run(Stored(slot, queries), CallsOf(queries))
    decreases |queries|
  {
    if queries != [] {
      var q, rest := queries[0], queries[1..];
      RunQueriesAllOk(slot[q.key := Data(q.reply.payload)], rest);
      assert CallsOf(queries) == [q.call] + CallsOf(rest);
    }
  }

  /** When the queries before index `k` succeed and query `k` fails, the
      slot holds the earlier results plus the error, and the calls stop
      with query `k`. */
  lemma {:induction false} RunQueriesStopsAtFailure(slot: Slot, queries: seq<Query>, k: nat)
    requires k < |queries|
    requires AllOk(queries[..k])
    requires queries[k].reply.Fail?
    ensures RunQueries(slot, queries) ==
      Run(Stored(slot, queries[..k])[ErrorKey := Error(Raised(queries[k].reply.message))],
          CallsOf(queries[..k + 1]))
    decreases k
  {
    var q, rest := queries[0], queries[1..];
    if k == 0 {
      assert CallsOf(queries[..1]) == [q.call];
    } else {
      assert queries[..k][0] == q;
      assert rest[..k - 1] == queries[..k][1..];
      assert rest[..k] == queries[..k + 1][1..];
      RunQueriesStopsAtFailure(slot[q.key := Data(q.reply.payload)], rest, k - 1);
      assert CallsOf(queries[..k + 1]) == [q.call] + CallsOf(rest[..k]);
    }
  }

  // Properties of the provider blocks

  /** Every step of the Spotify block succeeds. */
  predicate SpotifySucceeds(conf: Section, script: SpotifyScript) {
    && FirstMissing(conf, SpotifyRequired).None?
    && script.build.Built?
    && script.metadata.Ok? && script.listeners.Ok? && script.aggregate.Ok?
  }

  /** Every step of the Apple block succeeds. */
  predicate AppleSucceeds(conf: Section, script: AppleScript) {
    && FirstMissing(conf, AppleRequired).None?
    && script.build.Built?
    && script.overview.Ok? && script.trends.Ok?
  }

  lemma SpotifyQueriesDistinct(today: int, script: SpotifyScript)
    ensures DistinctKeys(SpotifyQueries(today, script))
    ensures KeysOf(SpotifyQueries(today, script)) == {"metadata", "listeners", "aggregate"}
  {
    var queries := SpotifyQueries(today, script);
    assert queries[0].key == "metadata" && queries[1].key == "listeners" && queries[2].key == "aggregate";
  }

  lemma AppleQueriesDistinct(script: AppleScript)
    ensures DistinctKeys(AppleQueries(script))
    ensures KeysOf(AppleQueries(script)) == {"overview", "trends"}
  {
    var queries := AppleQueries(script);
    assert queries[0].key == "overview" && queries[1].key == "trends";
  }

  /** The Spotify slot is empty for the sentinel, holds exactly the three
      results when every step succeeds, and holds "error" exactly when a step
      fails; the constructor is called, as the first call, exactly when the
      provider is configured and every constructor argument is present. */
  lemma SpotifySlotShape(secrets: Secrets, today: int, script: SpotifyScript)
    ensures var conf, r := SectionOf(secrets, "spotify"), SpotifyRun(secrets, today, script);
      && r.slot.Keys <= {"metadata", "listeners", "aggregate", ErrorKey}
      && (forall c | c in r.calls :: c.IsSpotify())
      && (IsSentinel(conf) ==> r.slot == map[] && r.calls == [])
      && (!IsSentinel(conf) ==> (ErrorKey in r.slot <==> !SpotifySucceeds(conf, script)))
      && (!IsSentinel(conf) && SpotifySucceeds(conf, script) ==>
            r.slot.Keys == {"metadata", "listeners", "aggregate"})
      && (r.calls != [] <==> !IsSentinel(conf) && FirstMissing(conf, SpotifyRequired).None?)
      && (r.calls != [] ==> r.calls[0].NewSpotify?)
  {
    var conf := SectionOf(secrets, "spotify");
    var queries := SpotifyQueries(today, script);
    SpotifyQueriesDistinct(today, script);
    if !IsSentinel(conf) && FirstMissing(conf, SpotifyRequired).None? && script.build.Built? {
      if SpotifySucceeds(conf, script) {
        RunQueriesAllOk(map[], queries);
        StoredContents(map[], queries);
      } else {
        var k := if script.metadata.Fail? then 0 else if script.listeners.Fail? then 1 else 2;
        RunQueriesStopsAtFailure(map[], queries, k);
        DistinctPrefix(queries, k);
        StoredContents(map[], queries[..k]);
      }
    }
  }

  /** The Apple counterpart of `SpotifySlotShape`. */
  lemma AppleSlotShape(secrets: Secrets, script: AppleScript)
    ensures var conf, r := SectionOf(secrets, "apple"), AppleRun(secrets, script);
      && r.slot.Keys <= {"overview", "trends", ErrorKey}
      && (forall c | c in r.calls :: c.IsApple())
      && (IsSentinel(conf) ==> r.slot == map[] && r.calls == [])
      && (!IsSentinel(conf) ==> (ErrorKey in r.slot <==> !AppleSucceeds(conf, script)))
      && (!IsSentinel(conf) && AppleSucceeds(conf, script) ==> r.slot.Keys == {"overview", "trends"})
      && (r.calls != [] <==> !IsSentinel(conf) && FirstMissing(conf, AppleRequired).None?)
      && (r.calls != [] ==> r.calls[0].NewApple?)
  {
    var conf := SectionOf(secrets, "apple");
    var queries := AppleQueries(script);
    AppleQueriesDistinct(script);
    if !IsSentinel(conf) && FirstMissing(conf, AppleRequired).None? && script.build.Built? {
      if AppleSucceeds(conf, script) {
        RunQueriesAllOk(map[], queries);
        StoredContents(map[], queries);
      } else {
        var k := if script.overview.Fail? then 0 else 1;
        RunQueriesStopsAtFailure(map[], queries, k);
        DistinctPrefix(queries, k);
        StoredContents(map[], queries[..k]);
      }
    }
  }

  /** When every Spotify step succeeds the slot maps each query's key to its
      result, and the connector is built from the section's fields and then
      queried once each, in order, with the same window. */
  lemma SpotifyComplete(secrets: Secrets, today: int, script: SpotifyScript)
    requires !IsSentinel(SectionOf(secrets, "spotify"))
    requires SpotifySucceeds(SectionOf(secrets, "spotify"), script)
    ensures var conf, r := SectionOf(secrets, "spotify"), SpotifyRun(secrets, today, script);
      && r.slot == map["metadata" := Data(script.metadata.payload),
                       "listeners" := Data(script.listeners.payload),
                       "aggregate" := Data(script.aggregate.payload)]
      && "client_id" in conf && "podcast_id" in conf && "sp_dc" in conf && "sp_key" in conf
      && r.calls == [NewSpotify(SpotifyBaseUrl, conf["client_id"], conf["podcast_id"], conf["sp_dc"], conf["sp_key"]),
                     Metadata, Listeners(today - WindowDays, today), Aggregate(today - WindowDays, today)]
  {
    var queries := SpotifyQueries(today, script);
    var conf := SectionOf(secrets, "spotify");
    assert SpotifyRequired[0] in conf && SpotifyRequired[1] in conf;
    assert SpotifyRequired[2] in conf && SpotifyRequired[3] in conf;
    SpotifyQueriesDistinct(today, script);
    RunQueriesAllOk(map[], queries);
    StoredContents(map[], queries);
    assert queries[0].key == "metadata" && queries[1].key == "listeners" && queries[2].key == "aggregate";
  }

  /** When every Apple step succeeds the slot holds exactly the overview and
      the trends, and the connector is built from the section's fields. */
  lemma AppleComplete(secrets: Secrets, script: AppleScript)
    requires !IsSentinel(SectionOf(secrets, "apple"))
    requires AppleSucceeds(SectionOf(secrets, "apple"), script)
    ensures var conf, r := SectionOf(secrets, "apple"), AppleRun(secrets, script);
      && r.slot == map["overview" := Data(script.overview.payload), "trends" := Data(script.trends.payload)]
      && "podcast_id" in conf && "myacinfo" in conf && "itctx" in conf
      && r.calls == [NewApple(conf["podcast_id"], conf["myacinfo"], conf["itctx"]), Overview, Trends]
  {
    var queries := AppleQueries(script);
    var conf := SectionOf(secrets, "apple");
    assert AppleRequired[0] in conf && AppleRequired[1] in conf && AppleRequired[2] in conf;
    AppleQueriesDistinct(script);
    RunQueriesAllOk(map[], queries);
    StoredContents(map[], queries);
    assert queries[0].key == "overview" && queries[1].key == "trends";
  }

  /** A failing Spotify query does not clear the results stored before it:
      the slot holds those results and "error", and no later query is made. */
  lemma SpotifyFailureKeepsEarlierResults(secrets: Secrets, today: int, script: SpotifyScript, k: nat)
    requires !IsSentinel(SectionOf(secrets, "spotify"))
    requires FirstMissing(SectionOf(secrets, "spotify"), SpotifyRequired).None? && script.build.Built?
    requires k < 3
    requires forall i | 0 <= i < k :: SpotifyQueries(today, script)[i].reply.Ok?
    requires SpotifyQueries(today, script)[k].reply.Fail?
    ensures var queries, r := SpotifyQueries(today, script), SpotifyRun(secrets, today, script);
      && r.slot.Keys == KeysOf(queries[..k]) + {ErrorKey}
      && r.slot[ErrorKey] == Error(Raised(queries[k].reply.message))
      && (forall i | 0 <= i < k :: r.slot[queries[i].key] == Data(queries[i].reply.payload))
      && r.calls[1..] == CallsOf(queries[..k + 1])
  {
    var queries := SpotifyQueries(today, script);
    SpotifyQueriesDistinct(today, script);
    RunQueriesStopsAtFailure(map[], queries, k);
    DistinctPrefix(queries, k);
    StoredContents(map[], queries[..k]);
  }

  /** Metadata succeeded, then the listener series raised: the metadata stays
      next to the error and the aggregate query is never made. */
  lemma SpotifyListenersFailure(secrets: Secrets, today: int, script: SpotifyScript)
    requires !IsSentinel(SectionOf(secrets, "spotify"))
    requires FirstMissing(SectionOf(secrets, "spotify"), SpotifyRequired).None? && script.build.Built?
    requires script.metadata.Ok? && script.listeners.Fail?
    ensures var r := SpotifyRun(secrets, today, script);
      && r.slot == map["metadata" := Data(script.metadata.payload),
                       ErrorKey := Error(Raised(script.listeners.message))]
      && r.calls[1..] == [Metadata, Listeners(today - WindowDays, today)]
      && (forall c | c in r.calls :: !c.Aggregate?)
  {
    var queries := SpotifyQueries(today, script);
    var r := SpotifyRun(secrets, today, script);
    SpotifyFailureKeepsEarlierResults(secrets, today, script, 1);
    assert queries[..1] == [queries[0]];
    assert KeysOf(queries[..1]) == {"metadata"};
    assert CallsOf(queries[..2]) == [Metadata, Listeners(today - WindowDays, today)];
    assert r.calls[0].NewSpotify?;
    assert r.calls == [r.calls[0]] + r.calls[1..];
  }

  /** A failing Apple trends query leaves the overview in the slot. */
  lemma AppleTrendsFailure(secrets: Secrets, script: AppleScript)
    requires !IsSentinel(SectionOf(secrets, "apple"))
    requires FirstMissing(SectionOf(secrets, "apple"), AppleRequired).None? && script.build.Built?
    requires script.overview.Ok? && script.trends.Fail?
    ensures AppleRun(secrets, script) ==
      Run(map["overview" := Data(script.overview.payload), ErrorKey := Error(Raised(script.trends.message))],
          AppleRun(secrets, script).calls)
    ensures |AppleRun(secrets, script).calls| == 3 && AppleRun(secrets, script).calls[2] == Trends
  {
    var queries := AppleQueries(script);
    AppleQueriesDistinct(script);
    RunQueriesStopsAtFailure(map[], queries, 1);
    assert queries[..1] == [queries[0]];
    assert Stored(map[], queries[..1]) == map["overview" := Data(script.overview.payload)];
    assert KeysOf(queries[..1]) == {"overview"};
  }

  /** A missing podcast id is not the sentinel: construction is attempted and
      the lookup of the first absent argument is recorded as the error. */
  lemma SpotifyMissingPodcastId(secrets: Secrets, today: int, script: SpotifyScript)
    requires "podcast_id" !in SectionOf(secrets, "spotify")
    ensures !IsSentinel(SectionOf(secrets, "spotify"))
    ensures var conf := SectionOf(secrets, "spotify");
      SpotifyRun(secrets, today, script) ==
        Run(map[ErrorKey := Error(MissingKey(if "client_id" in conf then "podcast_id" else "client_id"))], [])
  {
    var conf := SectionOf(secrets, "spotify");
    if "client_id" in conf {
      assert SpotifyRequired[1..] == ["podcast_id", "sp_dc", "sp_key"];
      assert FirstMissing(conf, SpotifyRequired) == FirstMissing(conf, SpotifyRequired[1..]);
    }
  }

  /** The Apple counterpart: podcast id is the first argument looked up. */
  lemma AppleMissingPodcastId(secrets: Secrets, script: AppleScript)
    requires "podcast_id" !in SectionOf(secrets, "apple")
    ensures !IsSentinel(SectionOf(secrets, "apple"))
    ensures AppleRun(secrets, script) == Run(map[ErrorKey := Error(MissingKey("podcast_id"))], [])
  {
  }

  /** A failing Apple query does not clear the results stored before it:
      the slot holds those results and "error", and no later query is made. */
  lemma AppleFailureKeepsEarlierResults(secrets: Secrets, script: AppleScript, k: nat)
    requires !IsSentinel(SectionOf(secrets, "apple"))
    requires FirstMissing(SectionOf(secrets, "apple"), AppleRequired).None? && script.build.Built?
    requires k < 2
    requires forall i | 0 <= i < k :: AppleQueries(script)[i].reply.Ok?
    requires AppleQueries(script)[k].reply.Fail?
    ensures var queries, r := AppleQueries(script), AppleRun(secrets, script);
      && r.slot.Keys == KeysOf(queries[..k]) + {ErrorKey}
      && r.slot[ErrorKey] == Error(Raised(queries[k].reply.message))
      && (forall i | 0 <= i < k :: r.slot[queries[i].key] == Data(queries[i].reply.payload))
      && r.calls[1..] == CallsOf(queries[..k + 1])
  {
    var queries := AppleQueries(script);
    AppleQueriesDistinct(script);
    RunQueriesStopsAtFailure(map[], queries, k);
    DistinctPrefix(queries, k);
    StoredContents(map[], queries[..k]);
  }

  /** A Spotify constructor that raises leaves only its error in the slot;
      the constructor, called with the section's fields, is the only call. */
  lemma SpotifyBuildFailure(secrets: Secrets, today: int, script: SpotifyScript)
    requires !IsSentinel(SectionOf(secrets, "spotify"))
    requires FirstMissing(SectionOf(secrets, "spotify"), SpotifyRequired).None?
    requires script.build.BuildFailed?
    ensures var conf, r := SectionOf(secrets, "spotify"), SpotifyRun(secrets, today, script);
      && r.slot == map[ErrorKey := Error(Raised(script.build.message))]
      && "client_id" in conf && "podcast_id" in conf && "sp_dc" in conf && "sp_key" in conf
      && r.calls == [NewSpotify(SpotifyBaseUrl, conf["client_id"], conf["podcast_id"], conf["sp_dc"], conf["sp_key"])]
  {
    var conf := SectionOf(secrets, "spotify");
    assert SpotifyRequired[0] in conf && SpotifyRequired[1] in conf;
    assert SpotifyRequired[2] in conf && SpotifyRequired[3] in conf;
  }

  /** An Apple constructor that raises leaves only its error in the slot;
      the constructor, called with the section's fields, is the only call. */
  lemma AppleBuildFailure(secrets: Secrets, script: AppleScript)
    requires !IsSentinel(SectionOf(secrets, "apple"))
    requires FirstMissing(SectionOf(secrets, "apple"), AppleRequired).None?
    requires script.build.BuildFailed?
    ensures var conf, r := SectionOf(secrets, "apple"), AppleRun(secrets, script);
      && r.slot == map[ErrorKey := Error(Raised(script.build.message))]
      && "podcast_id" in conf && "myacinfo" in conf && "itctx" in conf
      && r.calls == [NewApple(conf["podcast_id"], conf["myacinfo"], conf["itctx"])]
  {
    var conf := SectionOf(secrets, "apple");
    assert AppleRequired[0] in conf && AppleRequired[1] in conf && AppleRequired[2] in conf;
  }

  /** When a required Spotify key is absent (and the provider is not the
      sentinel), the slot holds only the lookup error of the first absent key
      in argument order, and no connector call is made. */
  lemma SpotifyMissingKey(secrets: Secrets, today: int, script: SpotifyScript, k: string)
    requires !IsSentinel(SectionOf(secrets, "spotify"))
    requires k in SpotifyRequired && k !in SectionOf(secrets, "spotify")
    ensures var conf := SectionOf(secrets, "spotify");
      exists i | 0 <= i < |SpotifyRequired| ::
        && SpotifyRequired[i] !in conf
        && (forall j | 0 <= j < i :: SpotifyRequired[j] in conf)
        && SpotifyRun(secrets, today, script) == Run(map[ErrorKey := Error(MissingKey(SpotifyRequired[i]))], [])
  {
    var conf := SectionOf(secrets, "spotify");
    var i :| 0 <= i < |SpotifyRequired| && SpotifyRequired[i] == k;
    assert FirstMissing(conf, SpotifyRequired).Some?;
  }

  /** The Apple counterpart of `SpotifyMissingKey`. */
  lemma AppleMissingKey(secrets: Secrets, script: AppleScript, k: string)
    requires !IsSentinel(SectionOf(secrets, "apple"))
    requires k in AppleRequired && k !in SectionOf(secrets, "apple")
    ensures var conf := SectionOf(secrets, "apple");
      exists i | 0 <= i < |AppleRequired| ::
        && AppleRequired[i] !in conf
        && (forall j | 0 <= j < i :: AppleRequired[j] in conf)
        && AppleRun(secrets, script) == Run(map[ErrorKey := Error(MissingKey(AppleRequired[i]))], [])
  {
    var conf := SectionOf(secrets, "apple");
    var i :| 0 <= i < |AppleRequired| && AppleRequired[i] == k;
    assert FirstMissing(conf, AppleRequired).Some?;
  }
}
