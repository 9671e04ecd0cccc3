# The routing and caching core of mrp, modelled in Dafny

mrp is a reverse proxy for developers: one port, a YAML file of virtual servers, HTTPS interception with
certificates signed on demand, and hot reload. This project models its core and proves what the core is
for. `dafny verify dfyconfig.toml` checks everything.

What it says, in one paragraph per part:

- **Route table and fingerprint** (`Routes`, `Tables`, `Config`, `Prefixes`, `Targets`, `Ordering`,
  `Fingerprints`). An accepted configuration builds an index by domain that answers like a scan of the
  servers in file order: longest prefix on segment boundaries, earliest on ties, whatever the order of the
  routes inside a server. Which configurations are accepted, what is built from each field, what is picked
  and which error comes first are stated on the fields of the file alone. The fingerprint text is uniquely decodable for every accepted configuration
  without NUL, headers as texts, so two of them have one fingerprint if and only if their tables are the
  same, upstreams included, up to the place of the `=` in a header; without `=` in a header name, if and only if they are the
  same. Both conditions are needed: with either broken there are accepted configurations of different
  tables and one fingerprint, and a reload from one to the other is taken for no change.
- **Path rewriting** (`Urls`, `Rewrite`, `Forwarding`). The decoded path and its percent-encoding (section
  2.1 of RFC 3986) are stripped and joined in step. The slice expression is in range for every picked
  route; the raw path decodes to the path exactly under a condition on the inputs; and then the inbound
  encoding goes out byte for byte.
- **Certificates** (`Cache`, `Sums`, `CertFlight`). N concurrent handshakes as interleaved atomic steps. Every
  maximal run ends with every caller back, whatever signing does, panics included; signings are conserved;
  between two drops of a name it is signed at most once.
- **DNS** (`HostPort`, `Resolver`, `DnsFlight`, `DnsLookups`). N concurrent dials against updates of the
  server list. One lookup per key at a time, never a nil connection with a nil error, two passes at most, no
  deadlock. After an update an old answer can still get into the cache if and only if some dial is asking an
  old list, or has its answer yet to store. Answers are conserved like signings, between any two moments. The
  comment at internal/dns/resolver.go:38 promises one query when the time to live runs out; that is not so,
  and a run with two at one instant after an expiry is given for every host. The exact law, in every
  reachable state, after an expiry as much as on an empty cache: before the key is next dropped as many
  lookups can succeed as dials may ask, and the promise holds at an expiry if and only if the dial that
  notices it is the only one that has missed, is about to look or may look again.
- **Hot reload** (`Reload`, `ReloadRuns`). The object, and a state machine of file writes, poll ticks, SIGHUP
  reloads and their steps under the lock. At every moment requests are routed as by the version served; it
  never goes back; a failed reload changes nothing. What is live is what the file says if and only if the
  version served says the same as the current one; so, with one content per metadata, a tick that skips is
  right if and only if the version served says the same as the one whose metadata the poller keeps. It is
  always right after a tick with a reload if metadata that comes back means that nothing has changed in
  between. Two gaps are shown: a change between the first load and the first Stat, with the exact condition
  under which a skip on that Stat is right, and a file put back with its old metadata after a reload read
  another version.
- **CONNECT** (`Tunnel`). Handlers that take a connection over, to any depth, against net/http's hooks:
  exactly one frame closes the connection, the deepest that took it over. A target is relayed if and only if
  no server of the file has its name, protocol and port.
- **DNS messages** (`DnsQuestion`). The decoder of the test server accepts exactly the well-formed questions
  (sections 3.1, 4.1.1 and 4.1.2 of RFC 1035), and the round trip holds exactly for names of labels of 1 to
  63 bytes and the empty name. Its replies are read back field by field. Their time to live is not the one
  given: it is written into the upper half of its four bytes, so it is read as 65536 times as long.

Conventions. A `char` is one byte of a Go string. Where the source changes an object in place the model has
a class with the same fields, and each method is proved against a function on the object's value; the
theorems are about those functions. A caller of a concurrent operation is a program counter between two
atomic operations (a critical section of a mutex, an atomic load or store, a channel operation), and a run
is any sequence of steps. Library code and the outside are parameters: `parse` is net/url's parser, `isIP`
whether net.ParseIP accepts a text, an `Outcome` what signing does, an `Input` or a `World` what DNS servers
and sockets answer, `now` and `Clock` clock readings, a `Document` what a configuration file decodes to.

## Model

| member | source | states |
|---|---|---|
| Fingerprints.FingerprintDecodes | internal/route/route.go:33-59 | A decoder recovers domains, entries, protocols, ports, routes, bodies, hosts and both header lists, targets as summaries, from the fingerprint of every well-formed table without NUL; a header comes back split at the first `=` of its text, which is the header itself when its name has none. |
| Fingerprints.EqualFingerprintsIffSameView | internal/route/route.go:135-148 | Two such tables have equal fingerprints if and only if they are the same with header lists compared by the texts of their headers. |
| Fingerprints.ShownIsText | internal/route/route.go:49-59 | Two headers are shown alike exactly when they print the same text. |
| Fingerprints.EqualFingerprintsIffSameTable | internal/route/route.go:135-148 | Without `=` in header names: equal fingerprints if and only if the same table, which means field by field and route by route, either both without a target or both with one and the same summary. |
| Configs.FingerprintTellsConfigurations | internal/config/config.go:79-99 | The same for the tables of any two accepted configurations: the only conditions left are on NUL and `=`. Another upstream is another summary, so another fingerprint. |
| Fingerprints.SameTableSamePick | internal/route/route.go:98-111 | Tables that are the same pick the same route for every protocol, port, domain and path. |
| Fingerprints.EqualsSignInNameCollides | internal/route/route.go:49-59 | For every domain, route, name and value: with `=` in a header name there is a different table with the same fingerprint. |
| Fingerprints.NulInBodyCollides | internal/route/route.go:33-47 | For every domain, route, body, host and header: with NUL in a body there is a different table with the same fingerprint. |
| Reloads.OneServerBuilds | internal/config/config.go:79-169 | A configuration of one server with one status route is accepted, whatever its request headers, body and trimmed host, and builds the table of that route. |
| Reloads.CollidingReloadIsSkipped | internal/proxy/proxy.go:99-108 | For every two header texts that differ in the place of the `=`: both files are accepted and build different tables, and a reload of the second after the first succeeds and leaves the first live. |
| Reloads.NulReloadIsSkipped | internal/proxy/proxy.go:99-108 | The same for every body with a NUL in it. |
| Tables.Table.Fingerprint | internal/route/route.go:135-148 | The loops over sorted domains, entries and routes print the specified text whatever the order of the map's keys. |
| Tables.RouteFingerprint | internal/route/route.go:33-47 | The loops print the text of a route that FingerprintDecodes takes apart: its seven fields joined by NUL and a newline, the target by its summary. |
| Tables.HeaderFingerprint | internal/route/route.go:49-59 | Headers print in the order of their sorted names. |
| Ordering.SortKeys | internal/route/route.go:137 | Sorting gives the one strictly ascending list of the keys, in whatever order the map yields them. |
| Ordering.SortedIsUnique | internal/route/route.go:137 | There is only one such list. |
| Ordering.LessIff | internal/route/route.go:137 | The order of keys is that of the first difference, a byte or the end of the shorter key. |
| Targets.SummaryTellsKind | internal/route/target.go:19-37 | The summary of a URL target contains `://` and starts with its scheme; that of a directory contains none and is the directory. |
| Targets.EqualSummariesEqualKinds | internal/route/target.go:12-16 | Targets with equal summaries are both URLs, or the same directory. |
| Targets.DirectoryTarget | internal/route/target.go:19-37 | Without `://`, a text with a separator, or one of the two dots, is that directory. |
| Targets.UrlTarget | internal/route/target.go:20-31 | A text with `://` is accepted exactly when net/url accepts it with scheme http or https and a host, and becomes that URL; otherwise which error. |
| Targets.ShorthandTarget | internal/route/target.go:40-56 | Any other text is accepted exactly without a colon, or when it stands for a non-empty host and a port 1-65535 in plain decimal, and becomes an http URL of that host; otherwise which error. |
| Targets.ValidPortIff | internal/route/target.go:59-62 | A port is valid exactly when it is the decimal form of a number from 1 to 65535. |
| Targets.EqualShorthandsEqualTargets | internal/route/target.go:40-56 | Two such hosts with one summary are the same target. |
| Tables.Table.Add | internal/route/route.go:86-95 | Fails exactly when the domain has an entry of that protocol and port, and then changes nothing; else the entry with its routes comes last. |
| Tables.Table.Pick | internal/route/route.go:98-111 | The nested loops give the best candidate of the matching entries; see BestIsFirstLongest. |
| Tables.Table.Has | internal/route/route.go:114-121 | True exactly when some entry of the domain matches protocol and port. |
| Routes.BestIsFirstLongest | internal/route/route.go:98-111 | The picked route is the longest matching prefix and the earliest of that length, and there is none exactly when nothing matches. |
| Routes.EqualLengthPrefixesAgree | internal/route/route.go:159-170 | Matching prefixes of equal length are the same prefix. |
| Tables.PickImpliesHas | internal/route/route.go:114-121 | A pick succeeds only where Has says true. |
| Configs.PickIsScan | internal/config/config.go:79-99 | Picking from the built index is scanning all servers in file order for the longest matching prefix, earliest on ties. |
| Configs.PickIsFileBest | internal/route/route.go:98-111 | On the fields of the file: the picked route is built from the one whose server fits the request and whose trimmed prefix matches the path, the longest such and the first of its length; there is none exactly when nothing fits. |
| Configs.RouteOrderIsIrrelevant | internal/config/config.go:117-169 | Permuting routes inside servers changes neither acceptance nor any picked route. |
| Configs.BuildTable | internal/config/config.go:79-99 | The loop over servers builds the specified index or stops at the first error with that error. |
| Configs.BuildRoutes | internal/config/config.go:117-169 | The loop with its set of seen prefixes gives the routes, or the first error, of the function that RoutesAcceptedIff, RoutesReportFirstFault and RouteKeepsItsFields are about. |
| Configs.RoutesAcceptedIff | internal/config/config.go:117-169 | Routes are accepted exactly when on each the trimmed prefix starts with a slash, exactly one of a status and a trimmed upstream is there, the status is 200-599, there is no body with 204 or 304, an upstream without a status is a target, and no two trimmed prefixes are equal. |
| Configs.RouteReportsFirstFault | internal/config/config.go:121-166 | A route is refused for the first of its eight faults in the order of the checks, and accepted exactly without one. |
| Configs.RoutesReportFirstFault | internal/config/config.go:117-169 | Refused routes get the error of the first route that is not valid or repeats a prefix, and of the first of its faults. |
| Configs.TableAcceptedIff | internal/config/config.go:79-169 | A configuration is accepted exactly when every server has a name, a supported protocol, a port 0-65535 and acceptable routes, and no two have the same name, protocol and port after trimming and lower-casing. |
| Configs.ServerReportsFirstFault | internal/config/config.go:81-98 | A server is refused for the first of: no name, unsupported protocol, port out of range, its routes, its place taken; and added without one. |
| Configs.TableReportsFirstFault | internal/config/config.go:79-99 | A refused configuration gets the error of its first faulty server. |
| Configs.EntriesAreServers | internal/config/config.go:79-99 | The entries under a domain are those of the servers whose trimmed, lower-cased domain it is, and no others. |
| Configs.RouteKeepsItsFields | internal/config/config.go:117-169 | What an accepted route takes over from its configuration, field by field: a body only with a status, a target exactly without one. |
| Configs.BuiltTablesAreAccepted | internal/config/config.go:79-169 | Every built table: non-empty domains, protocols and ports in range and distinct per domain, prefixes that start with a slash and are distinct, status or target but not both, bodies only where allowed. |
| Configs.BuiltIsWellFormed | internal/config/config.go:79-169 | Every built table is well-formed in the sense of the fingerprint's decoder; in particular no target summary starts with a newline. |
| Prefixes.MatchesBySegments | internal/route/route.go:159-170 | Prefix matching is prefix matching of segment lists, strict for a prefix that ends in a slash; `/` matches everything. |
| Prefixes.RewriteReplacesSegments | internal/route/path.go:36-46 | Rewriting replaces the prefix's segments by the base's if and only if the prefix is literally there, is not the whole path (unless it ends in a slash) and leaves no second slash behind a slash. |
| Prefixes.JoiningSegments | internal/route/path.go:36-46 | Joining puts the rest's segments after the base's without an empty one between, for all texts. |
| Urls.EscapedPathDecodes | internal/route/path.go:11 | Whatever the raw path, EscapedPath is a valid encoding that decodes to the path. |
| Urls.UnescapeIff | internal/route/path.go:11 | A text decodes to a path exactly when it writes each byte as it is, `%` excepted, or as an escape with two digits of either case. |
| Urls.EscapedByte | internal/route/path.go:28 | The default encoding leaves exactly the ordinary bytes, and writes any other as an escape in upper case that means that byte. |
| Urls.EscapedPathIsSafe | internal/route/path.go:11 | Whatever the raw path, no space, control, delimiter or non-ASCII byte is sent. |
| Urls.GoodRawPathIsSent | internal/route/path.go:11 | A raw path of allowed bytes that decodes to the path is sent as it came. |
| Rewrite.SliceInRange | internal/route/path.go:17-23 | The slice is in range for every aligned path and every base. |
| Rewrite.PickedIsAligned | internal/route/route.go:159-170 | A path that matches a prefix is aligned with it, prefix `/` and paths like `*` or the empty one included. |
| Rewrite.SliceNeedsAlignment | internal/route/path.go:23 | Without the match there is an input for which the slice is out of range. |
| Rewrite.RawPathDecodesIff | internal/route/path.go:9-33 | The raw path is empty or decodes to the path if and only if the guard gave up the encoding, or the prefix (where it is stripped) has no `%` and not both the base ends in a slash and the encoded rest starts with `%2F`. |
| Rewrite.OutboundEncoding | internal/route/handler.go:57-69 | Scheme, host, query and decoded path that go out, and the encoding: the base's and the inbound one's rest byte for byte when usable, the default encoding otherwise; it always decodes to the path. |
| Rewrite.RawPathIsNeeded | internal/route/path.go:28-31 | Where the remainder is usable a raw path is set exactly when the default encoding is another one. |
| Forwarding.PickedRouteForwards | internal/route/handler.go:57-69 | For every accepted configuration and picked route: accepted prefix, no failure, and the outbound path and encoding as above. |
| Forwarding.RoutedTargetIsIntercepted | internal/proxy/connect.go:51-68 | A CONNECT to a target with a routed path is never relayed past its routes: it gets a 502 exactly without an authority, and is intercepted exactly with one and the answer written. |
| Forwarding.ConnectChoiceIff | internal/proxy/connect.go:51-68 | For every accepted configuration and target: relayed if and only if no server has that name with a fitting protocol and port; else a 502, a failed write or an interception, each if and only if its condition holds. |
| Forwarding.TargetAsWritten | internal/proxy/target.go:20-32 | What a request names as host, with a port, without one and in brackets, and which protocol, port and lower-cased domain that is. |
| Forwarding.ConnectByConfiguration | internal/proxy/connect.go:22-68 | From the host of the CONNECT to the choice: relayed if and only if no server of the file has the name, the case of letters aside, for https and the port. |
| Caches.Cache.Get | internal/cache/cache.go:26-36 | A hit exactly before the entry's expiry; a stale entry is dropped. |
| Caches.Cache.Put | internal/cache/cache.go:38-48 | The new store: nothing for a non-positive ttl, the store emptied first exactly when a positive capacity has been reached, then the entry with its expiry; see HitIffLatestUnexpiredPut and NoOverflowBelowCapacity. |
| Caches.Cache.Evict | internal/cache/cache.go:51-55 | The store without that key. |
| Caches.Cache.Clear | internal/cache/cache.go:58-62 | The empty store. |
| Caches.Cache.Size | internal/cache/cache.go:64-68 | The number of entries. |
| Caches.HitIffLatestUnexpiredPut | internal/cache/cache.go:26-62 | After any timestamped sequence of operations a lookup gives a value if and only if the latest put of that key, made less than a ttl ago and with no evict, clear or overflow since, put it; an overflow is a put with at least a positive capacity of entries stored. |
| Caches.SizeBounded | internal/cache/cache.go:38-48 | A positive capacity is never exceeded, and a non-positive ttl stores nothing. |
| Caches.NoOverflowBelowCapacity | internal/cache/cache.go:38-48 | While fewer keys than the capacity have been put since the last clear, or without a capacity, no put ends the life of another key. |
| CertFlight.NextKeepsInv | internal/ca/ca.go:69-112 | Every step of every caller, the clock and ClearCache keep the invariant: an undelivered call has one live leader, a name in flight belongs to one leader between begin and end, a leader about to sign finds nothing cached. |
| CertFlight.OneLeaderPerName | internal/ca/ca.go:95-104 | Two callers between begin and end never have the same name. |
| CertFlight.SigningsAreConserved | internal/ca/ca.go:69-112 | At every moment of every run, for every name: successful signings = entries dropped + 1 if cached + 1 if a leader has signed but not stored. |
| CertFlight.OneSigningBetweenDrops | internal/ca/ca.go:69-92 | While no entry of a name is dropped, it is successfully signed at most once. |
| CertFlight.CacheIsReplay | internal/ca/ca.go:69-92 | At every moment of every run the cache is what a timestamped sequence of cache operations makes of an empty one, each put of it a step that stores a signed certificate: so the cache law holds of the machine. |
| CertFlight.CachedCertificateIsRecent | internal/ca/ca.go:25-26 | At every moment of every run at most 512 certificates are cached, and one served from the cache was signed for the name and stored less than 24 hours before. |
| CertFlight.KeyIffSameFold | internal/ca/ca.go:70 | Two handshakes share a certificate exactly when their names differ in the case of letters at most. |
| CertFlight.CallerStepsAreBounded | internal/ca/ca.go:69-112 | However they interleave, N callers make at most 9 N steps. |
| CertFlight.MaximalRunEnds | internal/ca/ca.go:69-112 | A run in which no caller can go on has every caller returned or unwound, nothing in flight and every channel closed, whether signing succeeded, failed or panicked. |
| CertFlight.BlockedOnLiveLeader | internal/ca/ca.go:40-48 | A caller that cannot go on waits for a call whose leader can: no deadlock. |
| CertFlight.LeaderCanStep | internal/ca/ca.go:45-48 | A leader never closes a closed channel. |
| CertFlight.DeliveredIsFinal | internal/ca/ca.go:45-48 | A delivered call keeps its pair. |
| CertFlight.OneResultPerCall | internal/ca/ca.go:40-48 | Leader and followers return the same pair; it is empty only if the leader's signing panicked and the leader unwound. |
| CertFlight.Authority.BeginCall | internal/ca/ca.go:95-104 | The call in flight, or a new one of which the caller is the leader. |
| CertFlight.Authority.EndCall | internal/ca/ca.go:107-112 | Deregistered, assigned and closed, nothing else changed. |
| CertFlight.Authority.Clear | internal/ca/ca.go:115-117 | The cache emptied, nothing else changed. |
| CertFlight.Authority.GetCertificate | internal/ca/ca.go:69-92 | With no other caller interfering, whatever its three clock readings and the signing: the method ends where the steps of the machine end. |
| HostPort.SplitJoined | internal/proxy/connect.go:89 | SplitHostPort undoes JoinHostPort for a bracket-free host and a plain port. |
| HostPort.SplitIff | internal/proxy/target.go:43 | SplitHostPort gives a host and a port exactly for the texts that stand for them, brackets around the host or a host without a colon. |
| HostPort.JoinedIff | internal/proxy/connect.go:89 | The joined form has brackets exactly when the host has a colon. |
| HostPort.HostAndPortRecoversIff | internal/proxy/target.go:42-68 | From the joined form the tunnel dials, name and port 1-65535 come back if and only if the name is not empty and has no brackets. |
| HostPort.HostAndPortFallsBack | internal/proxy/target.go:42-51 | A plain name, a bracketed one, and one with a port out of range or not a number: the name and the fallback. |
| HostPort.SplitIsNameAndPort | internal/proxy/target.go:42-51 | What splits is its host, unless that is empty, and its port if that is a number 1-65535, else the fallback. |
| HostPort.UnsplitIsName | internal/proxy/target.go:63-68 | What does not split is a name as a whole, one pair of brackets taken off, with the fallback. |
| HostPort.NormalizeIsIdempotent | internal/dns/resolver.go:277-292 | An accepted nameserver entry is normalized to a form that is normalized to itself. |
| HostPort.NormalizedListIsStable | internal/dns/resolver.go:265-275 | So is an accepted list. |
| HostPort.NormalizeIff | internal/dns/resolver.go:277-292 | An entry is normalized to a text exactly when, trimmed, it names an address with a port 1-65535, or an address alone, whose port is then 53, and the text is the two joined. |
| HostPort.NormalizeRefuses | internal/dns/resolver.go:277-292 | A refused entry is refused for its host first, then for its port, and named in the error. |
| HostPort.NormalizedEntryByEntry | internal/dns/resolver.go:265-275 | A list is normalized entry by entry in order, and its error is that of the first entry refused. |
| DnsFlight.UpdateSettles | internal/dns/resolver.go:73-92 | Updating to the same entries again, or to the reported addresses, reports no change and makes none. |
| Resolvers.StableSortIsV4First | internal/dns/resolver.go:210-220 | Whatever stable sort under the comparison is used, the result is the IPv4 addresses in their order followed by the others in theirs. |
| Resolvers.StableSortInOrder | internal/dns/resolver.go:210-220 | Under it IPv4 stands before the rest, and within a family the order of the answer stays. |
| Resolvers.TargetsSplit | internal/dns/resolver.go:210-226 | Whatever stable sort is used: one target per address in the order of the sort, and each splits into the text of its address and the port, bracketed exactly when the text has a colon. |
| Resolvers.V4FirstPermutes | internal/dns/resolver.go:210-220 | That is a permutation of the answer. |
| Resolvers.FormatTargets | internal/dns/resolver.go:210-226 | The loop gives the targets that TargetsSplit takes apart: one per address, IPv4 first, each an address joined with the port. |
| Resolvers.BuildResolvers | internal/dns/resolver.go:239-248 | One server per address in order, or the system's alone; never none. |
| Resolvers.ServersInOrder | internal/dns/resolver.go:239-248 | The k-th server is that of the k-th address; without addresses the system alone. |
| Resolvers.NormalizeEntries | internal/dns/resolver.go:265-275 | The loop gives the normalized list or the first error. |
| Resolvers.Resolve | internal/dns/resolver.go:192-208 | The targets, in the sense of TargetsSplit, of the first server in order that gives an address, or the error of the last one if none does. |
| DnsFlight.FailoverInOrder | internal/dns/resolver.go:192-208 | On the configured list: the first server in its order that gives an address decides; if none does the error is the last one's, an answer without addresses included; an empty list asks the system. |
| Resolvers.ResolutionIsUnique | internal/dns/resolver.go:192-208 | The answers determine that result. |
| Resolvers.ResolutionIsSound | internal/dns/resolver.go:192-208 | With at least one server the result is addresses or an error, never both, never neither. |
| Resolvers.ConnectAny | internal/dns/resolver.go:125-135 | The connection of the first address that accepts one, or the error of the last. |
| Resolvers.DialIsUnique | internal/dns/resolver.go:125-135 | The attempts determine that result. |
| DnsFlight.AttemptsInOrder | internal/dns/resolver.go:125-135 | Targets are tried in their order: the first that accepts gives the connection, else the last one the error. |
| DnsFlight.NextKeepsInv | internal/dns/resolver.go:107-189 | Every step of every dial, the clock, ClearCache and both steps of an update keep the invariant: calls, leaders, non-empty cached and delivered answers, generations. |
| DnsFlight.InflightIffOneLeader | internal/dns/resolver.go:142-184 | A key is in flight exactly when a leader is between begin and finish, and then it is the only one. |
| DnsFlight.KeyIffSameDial | internal/dns/resolver.go:143 | Two dials, of hosts without brackets, share an answer exactly when host and port are the same. |
| DnsFlight.CacheIsReplay | internal/dns/resolver.go:142-163 | At every moment of every run the cache is what a timestamped sequence of cache operations makes of an empty one, each put of it a step that stores an answer. |
| DnsFlight.CachedAnswerIsRecent | internal/dns/resolver.go:24 | At every moment of every run at most 512 answers are cached, and one used from the cache was stored for that host and port less than a ttl before. |
| DnsFlight.NeverNilAndNil | internal/dns/resolver.go:107-163 | A dial that has returned, as leader, follower, cache hit or after the retry, has a connection or an error and not both. |
| DnsFlight.TwoPassesAtMost | internal/dns/resolver.go:107-123 | A dial looks its host up at most twice. |
| DnsFlight.MaximalRunEnds | internal/dns/resolver.go:107-184 | N dials make at most 19 N steps, and a run in which none can go on has all returned with a connection or an error and nothing in flight. |
| DnsFlight.BlockedOnLiveLeader | internal/dns/resolver.go:142-184 | A dial that cannot go on waits for a call whose leader can. |
| DnsFlight.StaleWasCarriedAtStore | internal/dns/resolver.go:73-87 | After an update has stored and cleared, an answer of an older list is cached only if a dial for that key had loaded that list when the update stored. |
| DnsFlight.StaleAnswerOutlivesUpdate | internal/dns/resolver.go:155-162 | That happens: for every host, pair of lists and useful answers there is such a run. |
| DnsFlight.OlderCanReturnIff | internal/dns/resolver.go:73-87 | From any reachable moment with no older answer cached and a positive ttl: one can still get there if and only if some dial is asking an older list or has its answer yet to store. |
| DnsLookups.AnswersAreConserved | internal/dns/resolver.go:142-163 | At every moment of every run, for every key and ttl: successful lookups = entries dropped + answers put in vain + 1 if cached + dials with an answer yet to store. |
| DnsLookups.AnswersBalance | internal/dns/resolver.go:142-163 | The same from any state: with the answers held at first on the left, so between any two moments. |
| DnsLookups.OneAnswerIff | internal/dns/resolver.go:142-163 | Between any two moments without a drop of the key: successful lookups = answers put in vain + what is added to those held; if none was held, as after an expiry, at most one has succeeded if and only if no answer was put where one was and at most one is held. |
| DnsLookups.SecondBeganLater | internal/dns/resolver.go:166-184 | Of any two lookups for a key, successful or not, the leader of the second registered, and found nothing in flight, after the first had been made. |
| DnsLookups.AskedTwiceHow | internal/dns/resolver.go:166-184 | Two successful lookups between drops: a dial that had missed before anything was stored registers in between, while an answer is held, and finds nothing in flight. |
| DnsLookups.AskedTwiceIff | internal/dns/resolver.go:166-184 | From any moment at which no answer is held until the next drop: more than one lookup succeeds if and only if some dial registers so and asks. |
| DnsLookups.LookupsUseAskers | internal/dns/resolver.go:142-163 | Between any two moments without a drop, every successful lookup uses up a dial that might ask, and none is added. |
| DnsLookups.SucceedingLookupsIff | internal/dns/resolver.go:142-184 | From any reachable state, before the key is next dropped, k lookups for it can succeed if and only if at least k dials may ask: they have missed, or the key is not cached and they are to look or hold an old answer. |
| DnsLookups.FurtherLookupIff | internal/dns/resolver.go:142-184 | One more can succeed if and only if some dial may ask. |
| DnsLookups.OneLookupIff | internal/dns/resolver.go:142-184 | At most one succeeds in every run before the next drop if and only if at most one dial may ask. |
| DnsLookups.OneLookupPerExpiryIff | internal/dns/resolver.go:38-40 | The comment's promise at an expiry: once a dial has noticed that the entry has run out, at most one lookup succeeds before the next drop in every run, if and only if no other dial for the key has missed, is about to look, or holds the old answer and may look again. |
| DnsLookups.MissedBeforeStored | internal/dns/resolver.go:142-163 | Between any two moments without a drop, a dial that asks at the second had missed if the key was cached at the first. |
| DnsLookups.AskingMeansMissedBefore | internal/dns/resolver.go:142-163 | The same while a fresh answer is cached, whatever was dropped before. |
| DnsLookups.TwoQueriesAtOneInstant | internal/dns/resolver.go:38-40 | It happens, for every host, list, positive ttl and addresses: an answer a dial has cached runs out, and then, with no time passing and nothing dropped but the expired entry, two lookups for the key succeed. |
| DnsFlight.Resolver.Update | internal/dns/resolver.go:73-87 | Rejects a bad entry and changes nothing, reports an equal list and changes nothing, else stores the list, clears the cache and reports a change. |
| DnsFlight.UpdateReplaces | internal/dns/resolver.go:73-87 | An accepted list that differs becomes the server list and empties the cache, an equal one or a refused one leaves everything; calls in flight are left alone. |
| DnsFlight.UpdateIsSteps | internal/dns/resolver.go:73-87 | The method's effect is that of the machine's two steps, store and clear. |
| DnsFlight.Resolver.ClearCache | internal/dns/resolver.go:229-231 | The cache emptied, nothing else changed. |
| DnsFlight.Resolver.DropCached | internal/dns/resolver.go:187-189 | The joined key gone from the cache, nothing else changed. |
| DnsFlight.Resolver.BeginCall | internal/dns/resolver.go:166-175 | The call in flight, or a new one of which the caller is the leader. |
| DnsFlight.Resolver.FinishCall | internal/dns/resolver.go:178-184 | Deregistered, assigned and closed, nothing else changed. |
| DnsFlight.Resolver.LookupHost | internal/dns/resolver.go:142-163 | From where the method returns, the dial ends where it would have ended from before the lookup. |
| DnsFlight.Resolver.DialHost | internal/dns/resolver.go:107-123 | With no other caller interfering, whatever the clock readings, answers, sockets and context of both passes: the method ends where the steps of the machine end. |
| Reloads.Proxy.RoutesChanged | internal/proxy/proxy.go:98-99 | True without a live table and when the fingerprints differ. |
| Reloads.Proxy.Reload | internal/proxy/proxy.go:91-114 | The new table, server list, caches and error as the function Reloaded says, every error path included. |
| Reloads.Proxy.ResetCaches | internal/proxy/proxy.go:117-123 | Both caches emptied, nothing else changed. |
| Reloads.LoadDocument | internal/config/config.go:47-61 | A fresh table for an acceptable document, else the error. |
| ReloadRuns.ReloadedAgrees | internal/proxy/proxy.go:45-58 | On the object, the first reload in New included: it succeeds if and only if the document is acceptable, then what is live is what the document says, and otherwise nothing changes; if anything changes both caches are empty afterwards, and lookups in flight are left alone. |
| ReloadRuns.ReloadIsIdleIff | internal/proxy/proxy.go:91-114 | A reload succeeds and leaves everything as it was, caches included, if and only if what is live is what the document says already. |
| ReloadRuns.AcceptsIff | internal/config/config.go:47-99 | A reload accepts exactly a readable document of valid servers in different places and of nameservers that name addresses; and which error any other gives. |
| ReloadRuns.CompleteIsReloaded | internal/proxy/proxy.go:91-114 | The steps of an undisturbed reload make of the live table and nameservers what Reloaded says, and fail when it fails. |
| ReloadRuns.NextKeepsInv | internal/proxy/proxy.go:91-206 | Every step of a reload, write, signal and tick keeps the invariant on lock, live configuration, versions read and the poller's variables. |
| ReloadRuns.PicksAsServed | internal/proxy/proxy.go:133-134 | At every moment, in the middle of a reload too, every pick on the live table is that of the version served, swapped in or found in place. |
| ReloadRuns.ReloadEndsRight | internal/proxy/proxy.go:91-114 | A reload succeeds if and only if the version it read is acceptable, and then routes and nameservers are what that version says. |
| ReloadRuns.ServedNeverGoesBack | internal/proxy/proxy.go:41-42 | The version served never decreases, whoever reloads. |
| ReloadRuns.FailedReloadChangesNothing | internal/proxy/proxy.go:94-104 | A reload that fails leaves routes and nameservers as it found them under the lock. |
| ReloadRuns.LockIsGivenBack | internal/proxy/proxy.go:92-93 | The holder can always go on and gives the lock back after at most five steps. |
| ReloadRuns.TickReloadsIff | internal/proxy/proxy.go:180-204 | A tick starts a reload exactly when the file is there and its size or time is not the one kept, and keeps both; else nothing changes. |
| ReloadRuns.LiveIsCurrentIff | internal/proxy/proxy.go:91-114 | At every moment outside a swap: live routes and nameservers are what the file says if and only if the version served says the same as the current version. |
| ReloadRuns.SkipIsRightIff | internal/proxy/proxy.go:193-204 | With one content per metadata, a skipped tick is right if and only if the version served says the same as the version whose metadata is kept. |
| ReloadRuns.SkippedTickIsRight | internal/proxy/proxy.go:180-204 | If metadata that comes back means no change in between, a tick that finds the metadata of an earlier tick again is right to skip: the file is live if that tick's reload succeeded, and cannot be loaded if it failed. |
| ReloadRuns.RestoredFileIsMissed | internal/proxy/proxy.go:193-204 | One content per metadata is not enough: there is a run after which the live configuration is not the file's and ticks skip. |
| ReloadRuns.RestoredFileHappens | internal/proxy/proxy.go:193-204 | There are such versions, for every nameserver entry that is accepted. |
| ReloadRuns.FirstStatSkipIff | internal/proxy/proxy.go:170-175 | A skip on the metadata of the first Stat is right if and only if a newer version has been served since the start, or what New loaded says the same as the file did at that Stat. |
| ReloadRuns.QuietStartIsRight | internal/proxy/proxy.go:170-175 | So it is right when nothing was written between the load in New and the first Stat, in the middle of other reloads too. |
| ReloadRuns.ChangeBeforeFirstStatIsMissed | internal/proxy/proxy.go:170-175 | A change between the load in New and the first Stat is missed, whatever the two versions say. |
| Tunnels.NextKeepsInv | internal/frontend/frontend.go:86-100 | Every step of a server, hook, handler and frame keeps the invariant on flags, channels and who has the connection. |
| Tunnels.OnlyTheDeepestCloses | internal/proxy/connect.go:23-33 | A frame that closes the connection, or is about to, is the deepest, and its own server was not hijacked. |
| Tunnels.ClosedIsFinal | internal/frontend/frontend.go:75-80 | Once closed, the connection is not taken over and not closed by anybody else. |
| Tunnels.ClosedExactlyOnce | internal/proxy/connect.go:23-68 | At every moment at most the deepest frame has closed; a run with d takeovers has at most 6 (d + 1) steps, and one that cannot go on has closed exactly once. |
| Tunnels.ChoiceDecides | internal/proxy/connect.go:51-68 | Of the choices for a CONNECT only an interception puts another server on the connection; after any other the frame closes it. |
| DnsQuestion.ParseDNSQuestion | internal/testutil/dns.go:74-103 | The loop over offsets stays in range, ends, and gives the specified question; see ParseAcceptsIff. |
| DnsQuestion.ParseAcceptsIff | internal/testutil/dns.go:74-103 | On arbitrary bytes: accepted exactly when one question is asked whose name is a list of labels of 1 to 63 bytes followed by at least four bytes, and with which result. |
| DnsQuestion.DNSQuestion | internal/testutil/dns.go:120-134 | The loop writes the specified bytes, empty labels left out. |
| DnsQuestion.DNSReply | internal/testutil/dns.go:105-118 | Header, question and one answer per record. |
| DnsQuestion.ReplyHeaderIsRead | internal/testutil/dns.go:105-113 | The six header fields a client reads: identifier, flags 0x8180, one question, the number of answers, nothing else. |
| DnsQuestion.QuestionEnds | internal/testutil/dns.go:130-133 | A question ends with a zero byte, the type and class IN. |
| DnsQuestion.AnswersAreRead | internal/testutil/dns.go:136-148 | After the question a client reads one record per address in order, named by a pointer to the question, with the type asked, class IN and the address; the time to live it reads is 65536 times the one given. |
| DnsQuestion.RoundTripIff | internal/testutil/dns.go:74-134 | Identifier, name and type come back from a reply, whatever answers follow, if and only if the name is empty or all its dot-separated parts have 1 to 63 bytes. |

## Left out

- FingerprintDecodes: targets come back as their summaries, which is all the text holds; what net/url prints is known only to start with the scheme (`PrintsScheme`).
- EqualFingerprintsIffSameTable: assumes no NUL anywhere and no `=` in a header name; EqualFingerprintsIffSameView says what is left without the second; for NUL a family of collisions in bodies is shown, and which tables with a NUL have a twin was not attempted.
- SkippedTickIsRight: assumes more than one content per metadata, because that weaker reading is false (RestoredFileIsMissed); SkipIsRightIff says exactly when it holds under the weaker reading.
- AskingMeansMissedBefore: one way; the equivalences are AskedTwiceIff and FurtherLookupIff.
- TwoQueriesAtOneInstant and SucceedingLookupsIff count lookups that some server answers; for those that fail SecondBeganLater says when the next one begins.
- GetCertificate: the method is one caller's; other callers and clears between its steps are in the machine.
- LookupHost: the same, updates included; so is DialHost.
- StableSortIsV4First: the library's sort is any stable sort, given by what it promises; the model's FormatTargets takes its result as a value instead of sorting an array in place.
- Atoi also fails in Go when a number leaves the int range; every caller modelled rejects such a number anyway.
- Trimming and lower-casing are modelled on ASCII; Go also folds and trims other Unicode letters and spaces.
- net/url.Parse, net.ParseIP and YAML decoding are parameters; reading a file gives one version, never a mixture of two.
- InstallHandlers and the pointers between tables, entries, routes and handlers: tables hold values, so aliasing of an entry added twice is not captured.
- Key pairs, X.509, TLS handshakes and the signing itself: signing succeeds, fails or panics.
- TargetOf: a CONNECT and a request by path are modelled; for an absolute URL targetOf reads net/url's host and port. absoluteTarget and passthroughURL format.
- Sockets, real DNS queries, copying of bytes in a tunnel, transports, static files: what the outside answers is a parameter; the literal-address shortcut of DialContext is one branch before dialHost.
- An upgraded request (for example a websocket) is taken over and closed by the library's reverse proxy; it counts as a relay in the CONNECT machine.
- Serve's accept loop and its backoff, drain on exit, logging, flags, signals, status and header handlers, and the control panel mrp.hta.
- Fairness: the machines show that somebody can always go on and that steps are bounded, not that a scheduler gives each its turn.
