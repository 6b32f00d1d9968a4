# domainfront, modelled and proved in Dafny

domainfront tunnels HTTP requests through CDN edges ("fronts"). Its hard parts are concurrent protocols
and stateful loops: a bounded queue of ready fronts shared by crawler, requests and config updates; a
conditional config refresh that stores HTTP validators next to the payload they belong to; a race of
providers for one connection; a pause gate; and a retry loop. This project models those parts and proves
what they keep over every run.

`dafny verify dfyconfig.toml` checks the whole project.

## How it is organised

Each concurrent component is a step machine: a state, an `Enabled` condition and an `Apply` effect per
atomic step, and results about every schedule (`Runs`, `Exec`) of any length over any number of threads.
Each component that updates objects in place is also a class or a loop, proved against functions on values
whose properties are proved as lemmas. What the network, clocks and other threads do enters as a parameter
(a `World`, an arrival, an outcome of a write), so a result holds for all of their behaviours.

| file | contents |
|---|---|
| Common.dfy | options, sequences without repetitions, pigeonhole |
| PoolProtocol.dfy, PoolScans.dfy | the ready queue and `queued` flags under all interleavings, and scans under `scanMu` |
| QueueSpec.dfy, FrontPool.dfy | the pool's operations run alone: exact queue rotations, and how long an untried provider can wait |
| FrontCache.dfy | `candidates` ordering, saving and loading front timestamps |
| PauseGate.dfy, PauseProtocol.dfy | the gate as an object, and under all interleavings |
| ConfigRefresh.dfy, ConfigClient.dfy, ConfigProtocol.dfy | a refresh as functions, as the client's code, and in runs of many processes with crashes and torn files |
| ConfigCollector.dfy | the fetchers, the deadline and the collector of one refresh under all interleavings |
| ConnectedRace.dfy, ConnectedLane.dfy | the race of `NewConnectedRoundTripper`, and one lane's loop |
| ConnectedConn.dfy, SingleUse.dfy | the connected round-tripper as an object, and under concurrent callers |
| RetryLoop.dfy, RetryLedger.dfy | the request retry loop over the pool, and an account of its fronts |
| Crawler.dfy | the overshoot of a crawl pass |
| H2Headers.dfy | upgrade refusal and connection-header stripping for HTTP/2 |

## Findings

- The comment that torn writes and replaced files end in a full GET (config_fetch.go:226-227) holds: a process
  uses stored validators only when the sidecar names the digest of the payload it started from
  (`ConfigProtocol.MismatchMeansFullGet`), and in every run they then name that payload
  (`ConfigProtocol.ValidatorsNameTheirPayload`).
- A completed refresh is resumed in full by the next process unless its validators make the sidecar larger than
  the 64 KiB that are read back (config_fetch.go:204-207), and then without validators
  (`ConfigProtocol.RestartResumes`).
- A deadline discards no response that was queued when the collector gave up
  (`ConfigCollector.NothingAppliedOnlyIf`).
- After a final resume no waiter waits behind a pause, and each finishes within seven steps of its own
  (`PauseProtocol.ResumeReleases`, `PauseProtocol.FinalResumeFrees`).
- The "full, drop" branch of `addReady` is reachable exactly when there are more fronts than queue slots
  (`PoolProtocol.DropReachableIff`).
- A crawl pass that starts with fewer than two ready fronts, with no other thread adding any, can leave n fronts
  ready exactly when n is at most the queue's capacity, `crawlerConcurrency + 4`, and the number of fronts that
  were ready or candidates (`Crawler.OvershootExact`); what others add comes on top, up to the capacity
  (`Crawler.OvershootBounded`).
- Two candidates that share provider, domain and address are both restored from the cache to the oldest kept
  timestamp of the two (`FrontCache.SaveThenLoad`).
- `stripConnHeaders` removes every field HTTP/2 forbids (section 8.1.2.2 of RFC 7540) if and only if those
  fields are stored under names that `Header.Del` gets at: canonical ones, or invalid ones that Connection lists
  letter for letter. `rewriteRequest` copies header keys as the caller stored them, and a field stored as
  `upgrade` is left in place (`H2Headers.FramedIsClean`, `H2Headers.LowerCaseFieldSurvives`).

## Model

| member | source | states |
|---|---|---|
| PoolProtocol.QueuedFlagCountsCopies | front.go:120-149 | in every interleaving, the copies of a front in the queue plus the threads between its compare-and-swap and send or drop, or between its receive and flag reset, number one if `queued` is set and zero otherwise; the queue never holds a front twice or more fronts than its capacity |
| PoolProtocol.QuiescentFlagIsMembership | front.go:19-21 | when no thread is between two atomic points, `queued` is true exactly of the fronts in the queue |
| PoolProtocol.NeverFull | front.go:125-130 | with capacity for every front in existence no interleaving reaches the drop branch |
| PoolProtocol.DropReachableIff | front.go:125-130 | some interleaving reaches the drop branch if and only if there are more fronts than slots |
| PoolProtocol.EmptyAnswerMeansTaken | front.go:196-218 | when `tryTakeFrom` answers "none" among any other threads, every matching front that was ready when it took `scanMu` was received by a `Take` or a drain and not by another scan |
| PoolProtocol.EarlyFallbackMeansTaken | front.go:151-194 | when `TakePreferringUntried`, among any other threads, falls back after pulling fewer than eight fronts, every front it wanted that was ready when it took `scanMu` was received by a `Take` or a drain and not by another scan |
| PoolScans.ScanAccounts | front.go:163-218 | in every interleaving, when a scan is about to finish, each front it pulled or was given is its answer, or was put back, found queued again, or dropped by a queue that filled up meanwhile; its answer is one it wanted or the first it was given, and a scan that was given one has an answer |
| PoolScans.TallyCounts | front.go:163-218 | what a scan counts as pulled, put back, found queued again and dropped are the steps its thread took |
| PoolScans.ScanLosesNothing | front.go:151-218 | with capacity for every front in existence a scan drops none, among any other threads |
| PoolScans.NeverStuck | front.go:120-230 | a thread in the middle of an operation on the queue can always move |
| FrontPool.Pool.AddReady | front.go:120-131 | a front is queued once at the tail, or left out when the queue is full, and the flags stay exact |
| FrontPool.Pool.Take | front.go:138-149 | the head of the queue, the end of the wait, or blocking, for every choice the select may make |
| FrontPool.Pool.TakePreferringUntried | front.go:156-194 | returns the first front of an untried provider among the first nine, else the head; the queue is the unscanned suffix followed by the skipped fronts in order, even when it started full |
| QueueSpec.PreferredRemoved | front.go:163-194 | a call removes the front it returns from the queue and loses no other |
| QueueSpec.UntriedWithinNinths | front.go:151-194 | with a fixed `tried`, if the first untried front is at position p, repeated calls, each fallback returned for requeue or as failed, fall back on floor(p/9) calls and then return that front |
| FrontPool.Pool.TryTakeFrom | front.go:196-218 | run alone, returns the first accepted front, at position i, and leaves what came after it followed by what came before; without one the queue is untouched |
| QueueSpec.TakeFromRemoves | front.go:199-218 | it removes only the first match, and without one nothing in the queue matches |
| FrontPool.Pool.Return | front.go:232-242 | a requeued front keeps its timestamp and is queued; a failed one loses its timestamp and is not |
| FrontPool.Pool.Replace | front.go:91-118 | the candidate set is swapped, the ready queue drained with flags exact, and each new front in turn takes over the timestamp of the old candidate with its key, even when fronts are old and new at once or share keys |
| FrontPool.InheritedIsPrevious | front.go:89-105 | so a new front has the timestamp that the old candidate with its key had before, provided the fronts in both sets are the last of their key |
| FrontPool.LastIsLast | front.go:97-100 | of old candidates that share a key the last one counts |
| FrontCache.Candidates | front.go:271-322 | a permutation of the pool, fronts that succeeded first, most recent first, ties by address |
| FrontCache.FrontsToCache | cache.go:55-78 | the cached entries are those of the first `maxSize` succeeded fronts in order |
| FrontCache.ApplyCachedState | cache.go:80-96 | each front gets the timestamp of the last cached entry with its key if that is younger than `maxAge` |
| FrontCache.SaveKeepsMostRecent | cache.go:58-78 | a save keeps a most-recent set of at most `maxSize`, and all succeeded fronts when they fit |
| FrontCache.SaveThenLoad | cache.go:58-96 | saving and loading onto a fresh front restores the timestamp of the last kept candidate with its key exactly when that is younger than `maxAge`, and leaves zero without one; with shared keys it is the oldest kept |
| FrontCache.DistinctSaveThenLoad | cache.go:58-96 | with distinct keys a timestamp is restored exactly when it was non-zero, within the cap and younger than `maxAge` |
| FrontCache.LoadIgnoresStrangers | cache.go:80-96 | a fresh front whose key was not saved stays at zero |
| FrontCache.SaveAndLoad | cache.go:55-96 | the fronts of one pool saved and loaded onto the fresh fronts of another, keys being distinct: each has the timestamp of the old front with its provider, domain and address exactly when that was non-zero, within the cap of the most-recent-first order and younger than `maxAge`, and zero otherwise |
| PauseGate.Gate.Pause | pause.go:24-32 | a pause from running makes a fresh open channel; one while paused changes nothing |
| PauseGate.Gate.Resume | pause.go:34-42 | closes the channel of the current stretch |
| PauseProtocol.NoLostWakeup | pause.go:10-13 | in every interleaving the channel a waiter sleeps on is closed or the gate's own, and no channel is closed twice |
| PauseProtocol.TrueMeansRunning | pause.go:55-77 | a `wait` that reported true held the mutex at an instant when the gate was running |
| PauseProtocol.ResumeReleases | pause.go:34-42 | in every interleaving, a call of `resume` that is over held the mutex of a running gate since it began, and every channel a waiter slept on when it began is closed |
| PauseProtocol.PauseStops | pause.go:24-32 | a call of `pause` that is over held the mutex of a paused gate since it began |
| PauseProtocol.FinalResumeFrees | pause.go:34-77 | after a call of `resume` that is over, with no pause about to take effect when it began or locking the mutex since, the gate runs and every waiter finishes as below |
| PauseProtocol.WaitersFinish | pause.go:55-77 | in a running gate, with no pause about to take effect or locking the mutex any more, a waiter takes at most seven more steps of its own under any schedule, and is never stuck except behind a mutex holder that is no pause and can move |
| PauseProtocol.EndedWaitersFinish | pause.go:50-77 | once its context has ended a waiter takes at most six more steps of its own, whatever pauses and resumes others make, and is never stuck except behind a mutex holder that can move |
| PauseProtocol.FalseMeansEnded | pause.go:55-77 | `wait` reports false only if its context has ended |
| ConfigClient.Client.FetchAndApplyConfig | config_fetch.go:34-112 | for every order of arrivals and every outcome of the writes: a 200 with new bytes that parse and apply, met with the gate open before the collector gave up or met another, leaves the providers, certificates, candidates, digest and sole validator of its answer, and its payload in the file if that write completes; without one, only validators change, each to what its URL's last unchanged answer left |
| ConfigClient.Client.LoadConfigValidators | config_fetch.go:195-224 | the configured URLs' validators are restored if the sidecar names the digest in use and every configured timestamp parses, and nothing otherwise |
| ConfigClient.Client.ApplyConfig | domainfront.go:272-305 | on error nothing changes; otherwise providers, certificates and candidate keys are those of the config and the ready queue is empty |
| ConfigClient.Client.Start | domainfront.go:198-220 | built from the persisted payload, with its digest and validators, if it parses and applies; else from the seed, without a digest; fails exactly when neither applies |
| ConfigRefresh.RefreshAppliesFirstUsable | config_fetch.go:58-111 | for all that the collector may meet, in any order: a payload is applied if and only if some 200 carries other bytes that parse and apply, met with the gate open before giving up or meeting another such; memory is then that payload's, otherwise only validators change |
| ConfigRefresh.RefreshRemembers | config_fetch.go:69-76 | after a refresh that applied nothing, the validator of each URL is what its last unchanged answer left, field by field, for a 304 and for a 200 with the same bytes; without one it is what it was |
| ConfigRefresh.BootstrapMeans | domainfront.go:198-220 | a new client is built from the persisted payload if that applies, else from the seed, and fails exactly when neither applies |
| ConfigRefresh.NothingAppliedKeepsPayload | config_fetch.go:58-111 | if none is applied, providers, certificates, candidates, ready queue and payload file are unchanged whatever became of the sidecar write |
| ConfigRefresh.RefreshKeepsFilesInSync | config_fetch.go:51-57 | a refresh whose writes complete leaves payload file and sidecar in step with memory, if they were |
| ConfigRefresh.ValidatorsSurviveRestart | config_fetch.go:195-239 | a restart that finds both files as a completed refresh left them has the configured URLs' validators back exactly when the sidecar is small enough to be read |
| ConfigCollector.NothingAppliedOnlyIf | config_fetch.go:58-128 | in every interleaving of fetchers, deadline and collector, a refresh that applied nothing met every URL's answer, or its client had ended, or the deadline had passed and it had met every response sent by the time it gave up; and no response it met was usable, but one for which the client ended while the gate was shut |
| ConfigCollector.AppliesOnlyUsable | config_fetch.go:58-111 | a payload was applied if and only if the last response met was usable with the gate open, and none before was usable; otherwise only validators changed |
| ConfigCollector.CollectorIsCollect | config_fetch.go:58-128 | the collector ends with what the refresh function computes from the responses it met |
| ConfigCollector.CollectorEnds | config_fetch.go:58-128 | the collector makes at most four moves for each URL and one more, and after the deadline it can always move without another response |
| ConfigCollector.NoFetcherBlocks | config_fetch.go:44-50 | a fetcher always finds room in the results channel |
| ConfigCollector.RaceIsARun | config_fetch.go:34-112 | with honest sources the race and the writes after it are a run of the process machine, so what is proved of its runs holds |
| ConfigProtocol.ValidatorsNameTheirPayload | config_fetch.go:98-103 | over every run of starts, refreshes, failed or torn writes, crashes and outside changes, by any number of processes, each validator in memory was issued by its own URL for the payload whose digest is `configHash`, and each one in the sidecar for the digest beside it |
| ConfigProtocol.AcceptedNotModifiedIsCurrent | config_fetch.go:151-163 | an accepted 304 always means the client already holds the bytes that source was serving |
| ConfigProtocol.HashIsOfActiveConfig | config_fetch.go:97-103 | a non-empty `configHash` is the digest of the payload that the active providers, certificates and candidate keys were built from; an empty one goes with no validators |
| ConfigProtocol.RefreshIsARun | config_fetch.go:34-112 | the refresh that the client's code computes is a run of the machine, so the results above hold of it |
| ConfigProtocol.RestartResumes | domainfront.go:198-220 | at any point of any run, a new process with the same URLs that finds the files in step with a process's memory resumes with its providers, certificates, candidate keys and digest, and with its validators exactly when the sidecar is small enough to be read |
| ConfigProtocol.MismatchMeansFullGet | config_fetch.go:195-227 | at any point of any run, a process restores its URLs' validators when the sidecar names the digest of the payload it started from, and otherwise has none, so that its next refresh accepts no 304 |
| ConnectedRace.NoLaneBlocks | connected.go:42-44 | in every interleaving a lane about to send finds room in the results channel |
| ConnectedRace.LaneKeepsOutcome | connected.go:43-44 | a lane sends what it finished with |
| ConnectedRace.EveryConnectionHasOneOwner | connected.go:45-75 | no result is received twice, and a received connection belongs to exactly one of: the caller, one `Close` made, the release goroutine about to make it |
| ConnectedRace.FirstConnectedWins | connected.go:58-81 | the winner is the first connected result received; without one the caller's context ended or every lane failed |
| ConnectedRace.SettledAccounts | connected.go:45-81 | when caller and release goroutine are done every lane's result was received exactly once, and each connected lane was closed exactly once unless it won |
| ConnectedRace.RaceSettles | connected.go:41-81 | every run is finite, and one not settled can always go on |
| ConnectedLane.ConnectVia | connected.go:90-189 | at most `maxRetries` turns, each on the first ready front of the provider not tried before or, without one, the first such candidate of one snapshot; the lane ends at the first turn whose provider does not map the host, that lacks a test URL for an unvetted front, connects, or fails to with its context ended, with the result for it, and otherwise only when the pool is closed, its budget is used, or every ready front and candidate was tried; only a connected lane still holds a front and a connection |
| ConnectedLane.LaneAccounts | connected.go:97-215 | over a whole lane: the fronts marked succeeded are exactly the unvetted ones that passed the check, those marked failed exactly those whose dial or vetting failed with the context live and the gate running; the fronts taken from the ready queue are, each once, the ones given back untouched, those failed, and the one the result holds; and the turns are as many as the fronts by fate, so no front is tried twice |
| ConnectedLane.DialUnvetted | connected.go:196-215 | an unvetted front connects only after passing the check on a first connection, which is always closed |
| ConnectedConn.ConnectedRoundTripper.RoundTrip | connected.go:268-307 | only the first use reports the front, and the connection stays open only if a response carries it |
| ConnectedConn.ConnectedRoundTripper.Close | connected.go:314-320 | gives the front back untouched and closes the connection once; a no-op after any use |
| SingleUse.ServedExactlyOnce | connected.go:256-320 | however many threads call RoundTrip and Close, once all have returned the front was reported exactly once and the connection closed or carried exactly once; a `Close` that was served gave the front back untouched and closed the connection |
| SingleUse.ServedAtMostOnce | connected.go:256-320 | at every point of every interleaving at most one call is served |
| RetryLoop.RoundTrip | roundtrip.go:52-131 | whatever other threads take, add and mark between its pool operations: the loop ends with the first attempt that is answered or finds no body and not before, leaves the queue and `tried` set of the retry function and every front's timestamp as the attempts and the others made it, and a connection open only if a response carries it |
| RetryLoop.AttemptWith | roundtrip.go:74-127 | from any state of the pool, an attempt gives its front back once, with a zero timestamp after a refused request or a failed dial with the gate running, the time of a response, or what it had, and closes its connection or hands it on |
| RetryLoop.StampMeans | front.go:236-249 | the timestamp of a front after the attempts, from what the last of them saw and what others set |
| RetryLedger.FrontsConserved | roundtrip.go:68-128 | whatever other threads do between its pool operations, every front taken is given back exactly once: fronts queued afterwards, failed, received by others, dropped by a full queue and found queued again are together those queued before and those others added |
| RetryLedger.NothingDropped | front.go:120-131 | among these threads, with capacity for all fronts nothing the loop gives back is dropped, and what it finds queued again others had added meanwhile |
| RetryLedger.ConservedAlone | roundtrip.go:68-128 | without other threads, the fronts queued afterwards and those failed are together those queued before |
| RetryLoop.AttemptsBounded | roundtrip.go:68 | at most `maxRetries` attempts, and exactly as many when nothing else ends the loop |
| RetryLoop.ConnectionsSettled | roundtrip.go:88-127 | every dialed connection is closed or carried, and only the last attempt of a loop that responded carries one |
| RetryLoop.TriedIsRefused | roundtrip.go:105-117 | `tried` holds exactly the providers that connected and then failed a request that was not a refused upgrade |
| RetryLoop.AttemptsSpreadOverProviders | roundtrip.go:62-69 | with at most nine ready fronts of k providers, all mapped, connecting and answering retryably, the first min(`maxRetries`, k) attempts use different providers |
| Crawler.OvershootBounded | domainfront.go:375-414 | a pass starting with fewer than two ready fronts never has more than `crawlerConcurrency` vets in flight, and none when it returns; the queue never holds more than its capacity, nor more than `crawlerConcurrency` + 4 fronts, or than were ready or candidates, plus what other threads added |
| Crawler.OvershootExact | domainfront.go:384-413 | without additions by others some interleaving leaves n or more fronts ready if and only if n is at most the capacity, `crawlerConcurrency` + 4, and the number of fronts that were ready or candidates |
| H2Headers.HasConnectionUpgrade | roundtrip.go:220-232 | true exactly when some Connection value has, between two commas or ends, spaces, "upgrade" in any case, and spaces |
| H2Headers.Request.StripConnHeaders | roundtrip.go:234-252 | removes the five fixed fields and the canonical form of every token that some Connection value has, padded with spaces, between two commas or ends, even Connection itself, and changes no other field |
| H2Headers.Request.SendOverConn | roundtrip.go:178-208 | over HTTP/2 a request is refused exactly when it asks for an upgrade and otherwise framed stripped with scheme https; over HTTP/1.1 its headers are untouched |
| H2Headers.FramedIsClean | roundtrip.go:234-252 | what goes to the HTTP/2 transport holds no forbidden field and all others unchanged if and only if the forbidden fields were stored under canonical names, or invalid ones listed letter for letter |
| H2Headers.LowerCaseFieldSurvives | roundtrip.go:241-252 | a forbidden field stored as `upgrade` is not removed |

## Left out

- TLS dialing, certificate checks, the HTTP transports, gzip, YAML and JSON: library calls, represented by outcomes or uninterpreted functions.
- Real time, jitter and timers: timestamps are naturals with 0 for "never succeeded", and a deadline is a step that may happen at any time; what the collector may do once it has passed is modelled in ConfigCollector.
- The digest is taken to be injective and never empty, and sources to be honest: each ETag or Last-Modified value a URL issues belongs to one payload, and a 304 to a conditional request means the value sent names the payload being served.
- A torn sidecar is taken not to parse: the beginning of a JSON object is not one. A torn payload file may hold anything.
- Overlapping writes of one file by two processes that leave a mixture which parses, and the replacement by JSON of bytes in an ETag that are not UTF-8: the results about sidecars and restarts assume that neither happens.
- FrontCache.CachedFront: leaves out SNI and verify hostname, which are saved but never loaded.
- RetryLedger.FrontsConserved: takes a scan as one step; the fronts of an interleaved scan are accounted for in PoolScans.ScanAccounts.
- RetryLoop.RoundTrip: other threads act between the loop's pool operations, not in the middle of a scan (PoolProtocol interleaves scans, and PoolScans accounts for their fronts), and do not replace the candidate set; a Take that stays blocked is described by how it ends, with the caller's context.
- H2Headers.FramedIsClean: header names and values are ASCII; what the transport then does with a field that was left in place, and Unicode spaces and case folding in header values are not modelled.
- Concurrent calls of `frontPool.Close`, and `NewConnectedRoundTripper`'s choice of providers to race: not part of this model.
- `Provider.Lookup`, `ExpandedProvider`, `GenerateSNI`, host:port splitting, error classification, logging and options are not modelled; a lookup is an outcome here.
