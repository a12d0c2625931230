/** Evidence rows as the query tools deliver them. */
module Evidence {
  import opened Basics

  datatype Source =
    Identity | Endpoint | DataSecurity | NetworkFlow | Dns | Asset | ThreatIntel | FalsePositiveMatch

  /** What the conflict rules read off a row's raw data and entities (accounts lower-cased,
      host keys lower-cased). */
  datatype Signals = Signals(
    account: Option<string>,
    loginOk: bool,
    loginAbsent: bool,
    process: bool,
    upload: bool,
    externalFlow: bool,
    silent: bool,
    isolated: bool,
    hosts: set<string>)

  /** Time stamps count microseconds. */
  datatype Evidence = Evidence(
    id: string,
    eventId: string,
    source: Source,
    kind: string,
    confidence: real,
    timestamp: Option<int>,
    entities: seq<string>,
    text: string,
    signals: Signals,
    conflicting: bool)
}
