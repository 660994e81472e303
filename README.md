# Podcast metrics harvester — a Dafny model

This project models `harvest()`, the pipeline that collects podcast metrics
from two analytics providers, Spotify and Apple, and writes them as one
timestamped snapshot. One run does three things:

1. It resolves the credentials. A local secrets file is used when it exists.
   Otherwise a fallback secret store is used. With neither, the run stops and
   nothing is written.
2. It builds a snapshot with a `timestamp` and one slot per provider. Each
   slot starts empty.
3. It fills each slot on its own. A provider whose `podcast_id` is the
   sentinel `"FILL_ME_IN"` is skipped. Otherwise a connector is built from the
   required section keys and queried in order. Each result is stored under a
   fixed key. The first failure is stored under `"error"` and ends that
   provider's block. The other provider is not affected.

Files:

- `connectors.dfy` (module `Connectors`): the two connectors as scripted
  oracles. A constructor either builds or fails. Each query returns an opaque
  `Payload` or fails with a message. Every call the harvester makes is
  recorded as a `Call` with its arguments.
- `harvester.dfy` (module `Harvester`): credential resolution, the reference
  functions `SpotifyRun` and `AppleRun`, the straight-line methods
  `HarvestSpotify`, `HarvestApple` and `Harvest`, and the lemmas.

The methods follow the source step by step: they update the slot map one
assignment at a time and return at the first failure, as the `try` blocks
do. Each method is proved equal to a reference function. Those functions are
built on `RunQueries`, one generic rule: perform the queries in order, store
each result under its key, and at the first failure store the failure under
`"error"` and stop. The lemmas state what that rule and the two provider
blocks guarantee.

The current date is a day number (`today: int`). The timestamp is an opaque
string. The text of a caught exception is kept abstract: a slot's `"error"`
holds a `Failure`. It is either `MissingKey(k)` (the `KeyError` from looking
up a missing constructor argument) or `Raised(message)` (a failure inside a
connector).

A note on earlier results: a failing query does not remove the results stored
before it. So a slot can hold both earlier results and `error`. For example,
if Spotify `metadata()` succeeds and `listeners()` fails, the slot holds both
`metadata` and `error` (`SpotifyListenersFailure`,
`RunQueriesStopsAtFailure`).

A missing `podcast_id`, or a missing provider section, is not the sentinel.
`get` gives nothing, which is not `"FILL_ME_IN"`, so the constructor
arguments are looked up and the first missing one is recorded as the error
(`SpotifyMissingPodcastId`, `AppleMissingPodcastId`).

## Model

| member | source | states |
|---|---|---|
| `Harvester.ResolveSecrets` | harvester.py:12-22 | Credentials are found exactly when the local file loads, or when it is absent and the fallback exists. A loaded local file is used alone and the fallback is ignored. The fallback's content is used only when the local file is absent. A local file that fails to load is an error of its own. |
| `Harvester.FirstMissing` | harvester.py:34-40 | Returns nothing exactly when every required key is present. Otherwise it returns the first required key, in lookup order, that the section lacks; every key before it is present. |
| `Harvester.HarvestSpotify` | harvester.py:30-51 | The step-by-step Spotify block equals the reference `SpotifyRun`. For the sentinel the slot is empty and no call is made. Every call goes to the Spotify connector. Every listeners and aggregate call gets `end == today` and `start == today - 30`, so `start < end` and both get the same pair. |
| `Harvester.HarvestApple` | harvester.py:53-65 | The step-by-step Apple block equals the reference `AppleRun`. For the sentinel the slot is empty and no call is made. Every call goes to the Apple connector. |
| `Harvester.Harvest` | harvester.py:8-68 | A snapshot is written exactly when credentials resolve, even when both providers fail. An unloadable local file, or no source at all, writes nothing and makes no call. A written snapshot has the given timestamp. Its Spotify slot depends only on the Spotify section and script, and its Apple slot only on the Apple ones. A sentinel provider receives no call at all. |
| `Harvester.StoredContents` | harvester.py:42-49 | Storing the results of queries with distinct keys adds exactly those keys. Each key holds its own query's result. Every other entry is unchanged. |
| `Harvester.RunQueriesAllOk` | harvester.py:42-49 | When every query succeeds, the slot gets all the results and every call is made, in order. |
| `Harvester.RunQueriesStopsAtFailure` | harvester.py:42-51 | When queries before index k succeed and query k fails, the slot holds the earlier results plus the error with query k's message. Calls stop with query k. |
| `Harvester.SpotifySlotShape` | harvester.py:30-51 | The Spotify slot only ever uses the keys metadata, listeners, aggregate and error. It is empty with no calls for the sentinel. Otherwise it has "error" exactly when some step fails. When all steps succeed it has exactly the three result keys. The constructor is called, as the first call, exactly when the provider is not the sentinel and all four required keys are present. |
| `Harvester.AppleSlotShape` | harvester.py:53-65 | The Apple slot only ever uses the keys overview, trends and error. It is empty with no calls for the sentinel. Otherwise it has "error" exactly when some step fails. When all steps succeed it has exactly overview and trends. The constructor is called, as the first call, exactly when the provider is not the sentinel and all three required keys are present. |
| `Harvester.SpotifyComplete` | harvester.py:34-49 | When every Spotify step succeeds, the slot is exactly metadata, listeners and aggregate with the connector's results. The connector is built from the base URL and the section's client_id, podcast_id, sp_dc and sp_key. The calls are metadata, listeners and aggregate, in that order, with the same 30-day window. |
| `Harvester.AppleComplete` | harvester.py:57-63 | When every Apple step succeeds, the slot is exactly overview and trends. The connector is built from the section's podcast_id, myacinfo and itctx, then queried for overview and then trends. |
| `Harvester.SpotifyFailureKeepsEarlierResults` | harvester.py:42-51 | If Spotify query k fails after the earlier ones succeed, the slot holds exactly the earlier results plus "error" with query k's message. No query after k is made. |
| `Harvester.SpotifyListenersFailure` | harvester.py:42-51 | If metadata succeeds and listeners fails, the slot is exactly metadata plus the listeners error. After the constructor the calls are exactly metadata and listeners over the 30-day window; no aggregate call of any window is made. |
| `Harvester.AppleTrendsFailure` | harvester.py:62-65 | If overview succeeds and trends fails, the slot is exactly overview plus the trends error. The trends call is the last one made. |
| `Harvester.AppleFailureKeepsEarlierResults` | harvester.py:62-65 | If Apple query k fails after the earlier ones succeed, the slot holds exactly the earlier results plus "error" with query k's message. No query after k is made. |
| `Harvester.SpotifyBuildFailure` | harvester.py:34-51 | A Spotify constructor that raises leaves only its error, with its message, in the slot. The constructor, called with the base URL and the section's four fields, is the only call. |
| `Harvester.AppleBuildFailure` | harvester.py:57-65 | An Apple constructor that raises leaves only its error, with its message, in the slot. The constructor, called with the section's three fields, is the only call. |
| `Harvester.SpotifyMissingKey` | harvester.py:32-51 | When any required Spotify key is absent and the provider is not the sentinel, the slot holds only the MissingKey error for the first absent key in argument order (client_id, podcast_id, sp_dc, sp_key). No connector call is made. |
| `Harvester.AppleMissingKey` | harvester.py:55-65 | When any required Apple key is absent and the provider is not the sentinel, the slot holds only the MissingKey error for the first absent key in argument order (podcast_id, myacinfo, itctx). No connector call is made. |
| `Harvester.SpotifyMissingPodcastId` | harvester.py:32-40 | A Spotify section without podcast_id, or no section at all, is not the sentinel. No connector is built. The slot holds only the MissingKey error for client_id if that is absent too, and for podcast_id otherwise. |
| `Harvester.AppleMissingPodcastId` | harvester.py:55-61 | An Apple section without podcast_id, or no section at all, is not the sentinel. No connector is built. The slot holds only the MissingKey error for podcast_id. |

## Left out

- File I/O: the paths, `json.load` of the local file, `json.dump` of the snapshot and the completion message. "Written" is the `Written(snapshot)` outcome. A local file that exists but does not load becomes `SecretsUnreadable`, because the exception leaves `harvest()` and nothing is written.
- The fallback secret store is a plain optional value. Its lazy loading inside the streamlit library is not modelled. So a store that fails only when a section is first read is not modelled either.
- Connector internals and the network. Connectors are scripted oracles. A query's reply does not depend on its arguments, but the arguments are recorded in the call log.
- The exact text of exception messages (`str(e)`). A slot's error holds the `Failure` value instead.
- Wall-clock time and ISO-8601 formatting. The timestamp is an opaque string and the date is an integer day number.
- Harvest: the `OverflowError` that date arithmetic raises within 30 days of the earliest representable date is not modelled, because day numbers are unbounded integers.
- Harvest: section values are modelled as strings. Non-string JSON values, and a document or section that is not a JSON object, are not modelled.
- The dashboard (rendering of the snapshot) is not part of this model.
