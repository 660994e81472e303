/** The two provider connectors, seen from the harvester as scripted oracles.
    Their internals (HTTP sessions, authentication, response parsing) are not
    part of this model: each constructor either builds a connector or raises,
    and each query either returns an opaque payload or raises with a message.
    Every call the harvester makes is recorded as a `Call`, so that what was
    constructed and queried, and with which arguments, can be stated. */
module Connectors {

  /** Provider-defined data, forwarded into the snapshot without inspection. */
  datatype Payload = Payload(json: string)

  /** The outcome of one query call. */
  datatype Reply = Ok(payload: Payload) | Fail(message: string)

  /** The outcome of a constructor call, once all its arguments were evaluated. */
  datatype Build = Built | BuildFailed(message: string)

  /** Scripted behaviour of the Spotify connector for one run. */
  datatype SpotifyScript = SpotifyScript(build: Build, metadata: Reply, listeners: Reply, aggregate: Reply)

  /** Scripted behaviour of the Apple connector for one run. */
  datatype AppleScript = AppleScript(build: Build, overview: Reply, trends: Reply)

  /** One call into a connector, with the arguments it received. */
  datatype Call =
    | NewSpotify(baseUrl: string, clientId: string, podcastId: string, spDc: string, spKey: string)
    | Metadata
    | Listeners(start: int, end: int)
    | Aggregate(start: int, end: int)
    | NewApple(podcastId: string, myacinfo: string, itctx: string)
    | Overview
    | Trends
  {
    predicate IsSpotify() {
      NewSpotify? || Metadata? || Listeners? || Aggregate?
    }

    predicate IsApple() {
      NewApple? || Overview? || Trends?
    }
  }
}
