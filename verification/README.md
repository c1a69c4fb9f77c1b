# Nullgate panel: a verified model

This project models the decision-making core of the panel and proves what it promises:

* the **Xray supervisor and the traffic collector** as a machine of interleaved steps around one
  mutex (`Machine`, `MachineSafety`, `MachineTheorems`), and once more as sequential code with
  every failure point, to prove that quota and expiry are enforced (`Statistics`, `Enforcement`,
  `Persistence`, `Convergence`);
* the **three renderers of one policy**: server config, share links and client JSON (`Policy`,
  `ServerConfig`, `Links`, `ClientConfig`), their agreement (`Agreement`, `Endpoints`,
  `ThreeWay`, and by name in `Access`) and the exact extent of their known disagreements (`Divergence`);
* **inbound allocation and routing**: the table of custom inbounds, the handlers that change it,
  the registry in front of the panel and the server config behind it (`Inbounds`, `Routing`,
  `PanelServer`, `PortsAndRoutes`), and all of it together, from link to inbound (`EndToEnd`);
* the **printers and their parsers**: decimal, percent-encoding (sections 2.1 and 2.3 of RFC
  3986), base64 (section 4 of RFC 4648), links and subscriptions (`Decimal`, `Encoding`, `Names`,
  `LinkText`, `LinkReading`, `LinkFields`);
* the **login limiter** (`Limiter`, `LimiterRuns`) and the **migration runner** (`Migrations`).

`dafny verify dfyconfig.toml` checks everything.

Code that changes variables step by step is modelled by methods and classes with the same loops
and branches, each proved against a function of its inputs; the theorems are about those
functions. The interleavings are modelled by a transition function, because Dafny has no threads:
each step is one access to a shared variable or one outside call. Configs and links are
structured records; links are printed and read back separately.

Assumptions, stated where they are used:

* The fingerprint is injective on the configs compared (the code truncates SHA-256 to 8 bytes).
* Client ids are UUIDs and hosts in links are DNS names or IPv4 addresses.
* The Reality key pair is stored as a pair, and ids, tags and random paths come from outside.
* The clock never goes back (the limiter reads a monotonic one).
* A port column is a 32-bit integer.
* Settings, keys, clients and customs that one rendering reads come from one snapshot, although the code
  reads them in separate queries.
* The built-in paths are different literal paths that begin with a slash and have no inner slash behind a
  prefix that could be registered (where a request through the whole router is concerned).

Where the code and its own comments disagree, the model follows the code: the limiter is called
"fixed-window" but keeps a sliding log; its sweep is said to bound memory but deletes nothing; and
`Stop` alone is not final: a watchdog that already saw a dead child, or a collector tick that already
read the counters, can still spawn another.

## Model

| member | source | states |
|---|---|---|
| MachineTheorems.OneChild | internal/xray/supervisor.go:343-400 | In every reachable interleaving at most one Xray child is alive; while `mu` is free it is the current one, and `running` holds exactly when `cur` is set |
| MachineTheorems.LateReaperHarmless | internal/xray/supervisor.go:368-376 | The critical section of a reaper of an old child leaves the live child alive, current and marked running |
| MachineTheorems.TrafficConserved | internal/api/traffic.go:66-89 | For every existing client and direction: bytes metered = usage table + unread counters + deltas in flight + lost, in every reachable state |
| MachineTheorems.LossesExactly | internal/xray/supervisor.go:314-319 | "Lost" grows at exactly three kinds of step and by exactly the bytes concerned: an answer lost after the reset, a failed upsert, a child exit with unread counters |
| MachineTheorems.OwnStepPossible | internal/xray/supervisor.go:368-396 | Whoever holds `mu`, one of the holder's own steps (or the exit it waits for) is possible: no self-deadlock on `p.done` or inside the hook |
| MachineTheorems.OwnStepsProgress | internal/xray/supervisor.go:304-341 | Each such step strictly lowers a well-founded measure of the distance to the release |
| MachineTheorems.OtherStepsHarmless | internal/xray/supervisor.go:403-419 | Steps of everybody else leave the holder and that measure unchanged |
| MachineTheorems.LockIsReleased | internal/xray/supervisor.go:379-419 | From every reachable state there is a finite run that frees `mu` |
| MachineTheorems.SyncingHookDeadlocks | internal/api/traffic.go:44-48 | Why the hook passes doSync=false: once a hook under `mu` is at the sync, no run of any length changes the holder, so `mu` is never freed |
| MachineTheorems.SyncingHookArrives | internal/api/traffic.go:104-119 | And a hook started with doSync=true over a live child can get there |
| MachineTheorems.HookStays | internal/xray/supervisor.go:298-302 | `SetPersistUsage` installs the hook for good |
| MachineTheorems.HookComesFirst | internal/xray/supervisor.go:314-336 | With the hook installed, every run to a point where the child is about to be replaced or stopped passes through the hook first |
| MachineTheorems.RestartIsSound | internal/xray/supervisor.go:304-341 | A `Restart` that returns success, by skipping or by spawning, leaves a current child launched from the config just built, after any earlier failures (fingerprint injective on the builds made) |
| MachineTheorems.FingerprintDescribesChild | internal/xray/supervisor.go:309-340 | Whenever `mu` is free and `running` holds, the fingerprint is that of the current child's config, and `active` comes from a build with that fingerprint |
| MachineTheorems.UnchangedIsSkipped | internal/xray/supervisor.go:310-313 | A restart that is not forced (the tick's and the watchdog's never are) and whose build shows nothing new leaves the running child alone |
| MachineTheorems.ChangedIsReplaced | internal/xray/supervisor.go:310-336 | A forced restart, one that shows something new, and one without a running child go on to replace it |
| MachineTheorems.StopLeavesNothing | internal/xray/supervisor.go:403-419 | When `Stop` releases the lock, the flag is set and no child is alive or current |
| MachineTheorems.StopIsFinalExactly | internal/xray/supervisor.go:403-419 | Once `Stop` has returned and no handler asks for a restart, a child can still be spawned exactly when a watchdog iteration had seen a dead child before, or a collector tick is past its query and can still find that the admitted clients differ from the active ones |
| MachineTheorems.StaleWatchdogAfterStop | internal/xray/supervisor.go:441-475 | The first case is reachable: the watchdog looks, `Stop` runs, the watchdog restarts |
| MachineTheorems.PendingTickAfterStop | internal/api/traffic.go:104-119 | The second case is reachable: a tick has read the counters, `Stop` runs, the tick restarts |
| Statistics.EqualStringSets | internal/api/traffic.go:122-137 | True exactly when the two lists are equal as multisets |
| Statistics.Aggregate | internal/xray/supervisor.go:516-536 | Per client and direction the result is the int64 sum of exactly the well-formed counters, and a client has an entry exactly when it has such a counter |
| Statistics.CounterExactly | internal/xray/supervisor.go:519-534 | A counter counts exactly when its name has four parts, the first "user", and its value is a number; it belongs to the second part, as uplink exactly when the fourth says so |
| Statistics.CounterReadsBack | internal/xray/supervisor.go:518-535 | The counter names Xray prints are attributed to their client and direction, with their value |
| Statistics.CounterAdds | internal/xray/supervisor.go:518-535 | A printed counter adds its number to the total of its client and direction and to no other |
| Enforcement.PersistAll | internal/api/traffic.go:76-89 | In whatever order the map is walked, the table gains exactly the non-zero deltas of existing clients whose statement succeeded |
| Enforcement.Supervisor.CollectOnce | internal/api/traffic.go:66-120 | The tick, and the hook variant without the sync, under every combination of failures |
| Enforcement.Supervisor.Sync | internal/api/traffic.go:104-119 | Restart is asked for exactly when the admitted ids differ from `active` as multisets |
| Enforcement.Supervisor.RestartLocked | internal/xray/supervisor.go:304-341 | Skip, persist, write, stop, spawn, record: the whole new state for every failure point, whose meaning the next six rows give |
| Enforcement.Supervisor.StopLocked | internal/xray/supervisor.go:379-400 | The child is gone and its unread counters with it; without a child nothing changes |
| Enforcement.Supervisor.Stop | internal/xray/supervisor.go:403-419 | Persist first, then set the flag and stop |
| Persistence.RestartOutcome | internal/xray/supervisor.go:304-341 | A restart succeeds exactly when the build does and either nothing has changed or nothing else fails; then `active` is the list just loaded and a new child, counted once, runs exactly the config rendered from that reading |
| Persistence.RestartSaves | internal/xray/supervisor.go:314-319 | Per client and direction: a restart that does not leave the child alone adds its counters to the table when the hook is installed, the query and its answer arrive, and the row exists and is written; everything else about the totals is stated too |
| Persistence.StopSaves | internal/xray/supervisor.go:403-419 | `Stop` does the same and leaves neither child nor counters |
| Persistence.TickSaves | internal/api/traffic.go:72-89 | A tick moves what it reads to the table, once, whatever restart it asks for |
| Persistence.HealthyEndLosesNothing | internal/xray/supervisor.go:403-419 | With the hook installed and its statements working, no byte of an existing client is lost at a shutdown or a replacing restart |
| Persistence.HookKept | internal/xray/supervisor.go:298-302 | Ticks and `Stop` never change the hook |
| Convergence.LoadedExactly | internal/xray/config.go:41-62 | An id is loaded exactly when a row with it is not expired and has no quota or some of it left |
| Convergence.LoadedInOrder | internal/xray/config.go:41-62 | The loaded clients are the entitled rows in table order, each with its own name and protocols |
| Convergence.StepConsistent | internal/xray/supervisor.go:304-419 | Whatever the operation and its failures, in a world that admins may have edited: a running child lets in nobody outside `active`, and the fingerprint is that of its config |
| Convergence.RestartConverges | internal/xray/supervisor.go:309-340 | A restart (or skip) of the sync makes `active` the admitted ids, and the hook inside it adds nothing |
| Convergence.NextTickIdle | internal/api/traffic.go:66-136 | Once `active` is the admitted list and the counters are read, a tick changes nothing at all, whatever fails in it |
| Convergence.EnforcementConverges | internal/api/traffic.go:104-136 | While a child runs, after any history, one tick whose sync does not fail leaves `active` equal to the admitted clients as a multiset and no expired or over-quota client with a credential in any inbound; every later tick in that world is idle |
| Convergence.RestartRecovers | internal/api/traffic.go:66-71 | While no child runs, after any history, ticks change nothing, and one restart that does not fail (the watchdog's, say) has the same effect |
| Policy.UserProtocols | internal/xray/config.go:91-102 | A protocol is allowed exactly when it is on globally and, if the client has a list, listed |
| Policy.SettingsRead | internal/xray/config.go:140-166 | Stored toggles decide alone; without any the six built-in protocols are on; a stored SNI wins over the configured one |
| Policy.TrimSlash | internal/xray/config.go:387-392 | All leading slashes are removed, and only those |
| Policy.UnslashedExactly | internal/xray/config.go:387-392 | What is returned is the rest behind the leading slashes |
| ServerConfig.IdsFor | internal/xray/config.go:192-206 | Credentials of a built-in inbound: the granted clients in order |
| ServerConfig.PatchVision | internal/xray/config.go:241-245 | The loop that patches the flow sets it on every credential and touches nothing else |
| ServerConfig.RenderReality | internal/xray/config.go:226-268 | The Reality inbound, vision flow over TCP only |
| ServerConfig.RenderCustom | internal/xray/config.go:317-385 | `None` exactly for a Reality inbound without a key; otherwise port, listener, credentials, flow and transport by kind |
| ServerConfig.BuildBuiltins | internal/xray/config.go:208-268 | Exactly the enabled built-in inbounds, in order |
| ServerConfig.Build | internal/xray/config.go:126-314 | Built-in inbounds, then the custom ones that render, then the statistics API; `active` is the id list of the same snapshot |
| ServerConfig.AccountsExactly | internal/xray/config.go:192-206 | A credential is in a built-in inbound exactly when some client is granted the protocol, and then with that flow |
| ServerConfig.CustomAccountsExactly | internal/xray/config.go:317-342 | A credential is in a custom inbound exactly when some client is granted its tag |
| ServerConfig.OnlyAdmittedIds | internal/xray/config.go:167-206 | No inbound holds a credential of anyone outside the admitted list |
| ServerConfig.EveryInboundShaped | internal/xray/config.go:192-275 | Every inbound listens on 0.0.0.0 exactly when it is Reality and on 127.0.0.1 otherwise; its credentials carry the id as email, are passwords exactly for trojan, and ask for vision exactly for Reality over TCP |
| Access.BuiltinListeners | internal/xray/config.go:208-262 | The tag and port of each built-in inbound |
| Links.BuildLinks | internal/xray/links.go:115-214 | The list of links: the granted built-in ones in order, then the granted and reachable custom ones |
| Links.SubBody | internal/xray/links.go:289-295 | The body is the base64 of the newline-joined links |
| Access.BuiltinLinksExactly | internal/xray/links.go:115-190 | Each built-in link is there exactly when its protocol is on and on the client's list if there is one; the Reality link also needs a public host, port and key |
| Access.CustomLinkExactly | internal/xray/links.go:192-212 | A custom link is there exactly when its tag is on the client's list, if there is one, and, for Reality, the public key is set and the port is mapped or reached directly |
| Access.RealityEndpointExactly | internal/xray/links.go:101-111 | The second proxy for the mapped port, the inbound's own port without a main proxy, otherwise none |
| ClientConfig.RenderOutbound | internal/xray/clientjson.go:181-264 | The outbound of a custom inbound, or none when its Reality endpoint cannot be resolved |
| ClientConfig.ClientJSON | internal/xray/clientjson.go:45-171 | The tagged outbounds in order, or the error when there is none |
| Access.BuiltinsBehind | internal/xray/clientjson.go:71-120 | Protocol, transport, path, service, SNI and address behind each built-in key |
| Access.CustomBehind | internal/xray/clientjson.go:181-264 | The same for every custom inbound that can be stored |
| Access.TagsApart | internal/xray/clientjson.go:59-69 | Outbounds of different keys have different tags: at most the first is "proxy", every other one is "alt-" and its key |
| Agreement.KeysAgree | internal/xray/clientjson.go:45-140 | For every client, toggle map, override list and list of customs: the keys of the links and of the proxy outbounds are the same multiset |
| Agreement.ErrorExactlyWithoutLinks | internal/xray/clientjson.go:136-140 | `ClientJSON` reports its error exactly when the link list is empty |
| Agreement.MainOutboundExactly | internal/xray/clientjson.go:124-135 | An outbound tagged "proxy" exists exactly when a built-in one is rendered or the first granted custom inbound is reachable |
| Agreement.MainOutboundMissing | internal/xray/clientjson.go:124-135 | Such a config: an unreachable first custom inbound takes the tag, the second has "alt-" |
| Endpoints.EndpointsAgree | internal/xray/links.go:115-284 | Every link has an outbound, and every outbound a link, with the same key, protocol, credential, host, numeric port, transport, path or service, SNI and flow (port settings in plain digits) |
| ThreeWay.EveryOutboundIsServed | internal/xray/config.go:208-277 | Every outbound of an admitted client is accepted by an inbound built from the same snapshot: tag, protocol, transport, path (with "?ed=2048" behind it exactly for the built-in WebSocket ones), service, SNI and credential with the same flow; vision exactly for Reality over TCP |
| ThreeWay.MissingOnlyUnreachable | internal/xray/links.go:101-111 | An inbound with the client's credential is missing from the links only when its Reality endpoint is unresolvable |
| ThreeWay.ThreeWayAgreement | internal/xray/clientjson.go:45-140 | Both directions for every admitted client: whatever is offered is served, and whatever is served is offered unless it cannot be reached |
| ThreeWay.CustomRealityPort | internal/xray/links.go:101-111 | The endpoint of a Reality inbound is its own listen port, or the second proxy that forwards to it |
| Divergence.XhttpModeAgreesExactly | internal/xray/clientjson.go:196-262 | For custom xhttp inbounds link and JSON name the same mode exactly when the inbound is not Reality |
| Divergence.XhttpModeDiverges | internal/xray/links.go:236-262 | Such an inbound, reachable and storable |
| Divergence.AlpnAgreesExactly | internal/xray/clientjson.go:236-242 | For custom TLS inbounds, VMess included, the JSON offers the link's protocol list exactly when the transport is not xhttp, where it puts the joined list into one string |
| Divergence.AlpnDiverges | internal/xray/clientjson.go:236-242 | Such an inbound |
| Divergence.BuiltinAlpnAgrees | internal/xray/clientjson.go:281-287 | The built-in xhttp outbound offers the same protocols as its link |
| Divergence.HostAgreesExactly | internal/xray/links.go:236-283 | Link and JSON of a custom inbound name the same HTTP host exactly outside two families: Reality xhttp (only the JSON has one) and TLS gRPC (only the link has one) |
| Divergence.HostDiverges | internal/xray/clientjson.go:185-262 | An inbound of each family |
| Divergence.BuiltinHostsAgree | internal/xray/clientjson.go:71-120 | The six built-in links and outbounds name the same host |
| EndToEnd.SimplePathsServe | internal/api/proxy.go:57-81 | Different literal built-in paths of one segment always meet the condition on the router below |
| EndToEnd.FixedArrivesExactly | internal/api/proxy.go:52-81 | For every request equal to a built-in path or below it, and every valid table: it takes that path's fixed route exactly when no TLS row has it and no longer built-in path does |
| EndToEnd.CustomArrivesExactly | internal/api/proxy.go:169-186 | For every request equal to a TLS row's path or below it: it is dialled at that row's port exactly when no TLS row with a longer path has it |
| EndToEnd.MethodTaken | internal/api/proxy.go:169-186 | A valid table where a gRPC call "/abc/Tun" of one inbound is dialled at another, whose path is longer |
| EndToEnd.SessionTaken | internal/api/proxy.go:52-81 | A valid table where a session below the built-in XHTTP path is dialled at a custom inbound |
| EndToEnd.RealityConnects | internal/xray/links.go:101-111 | Every Reality outbound of an admitted client connects to an inbound with the client's credential that listens alone on its port: directly on that port, or through the TCP proxy that forwards to it |
| EndToEnd.LinksReachInbounds | internal/api/proxy.go:186-208 | Every link of an admitted client names the endpoint of an outbound. If that uses TLS, exactly one inbound listens where its requests are dialled, one with the client's credential: always for the stream's path (or "/" and the gRPC service), and for a request below it (an XHTTP session, a gRPC method) exactly when no longer path takes that. If it uses Reality, it connects as above |
| EndToEnd.ClientLinksReachInbounds | internal/api/handlers.go:27-88 | The same for the links the server hands out, for every valid table, client, address, name template and date |
| Decimal.FillBackwards | internal/api/handlers.go:249-269 | The digits land at the end of the buffer; 20 bytes always leave room for the sign |
| Decimal.Itoa64 | internal/api/handlers.go:249-269 | The decimal text of every int64, the minimum included as the code prints it |
| Decimal.Itoa | internal/api/proxy.go:146-166 | The same text |
| Decimal.Int64RoundTrip | internal/api/handlers.go:249-269 | Printing and parsing returns n exactly when n is above the int64 minimum |
| Decimal.Atoi | internal/xray/clientjson.go:293-302 | 0 on any non-digit, otherwise the value in wrapping int64 arithmetic |
| Decimal.AtoiSafe | internal/api/handlers.go:564-576 | Accepts exactly the non-empty digit strings, same wrapping value |
| Decimal.AtoiOfText | internal/xray/clientjson.go:293-302 | The hand-written parsers invert the printers for every n >= 0 |
| Decimal.PortsAgreeExactly | internal/config/config.go:106-115 | A port text that passes `portOrEmpty` is the same number in links and JSON exactly when it has no plus sign or is port 443 |
| Decimal.PortKeptExactly | internal/config/config.go:106-115 | Plain digits are kept exactly when they denote 1 to 65535, and then mean that number to everybody |
| Decimal.PlusPortDiverges | internal/config/config.go:106-115 | "+8443": accepted, printed in links, and read as 443 by the client JSON |
| Encoding.PyQuote | internal/xray/links.go:45-60 | The percent-encoding of the UTF-8 bytes |
| Encoding.QuoteRoundTrip | internal/xray/links.go:45-60 | Decoding returns the quoted text for every string |
| Encoding.QuoteEmitsSafe | internal/xray/links.go:45-67 | Only unreserved characters and % are ever emitted, so no delimiter |
| Encoding.LeftAsIsExactly | internal/xray/links.go:48-56 | Exactly the unreserved characters are left as they are |
| Encoding.Alphabets | internal/xray/links.go:62-67 | The base64 alphabet and the upper-case hexadecimal digits |
| Encoding.Base64RoundTrip | internal/xray/links.go:289-295 | Base64 decoding inverts encoding on all byte sequences |
| Encoding.JoinSplitExactly | internal/xray/links.go:289-295 | Joining and splitting returns the lines exactly for non-empty lists of separator-free lines |
| Names.FmtNameExpands | internal/xray/links.go:71-84 | Every template can be taken apart into placeholders, one wherever one begins, and single characters; the name is that text with each placeholder replaced by its value, once (values are not scanned again), blanks collapsed, ends trimmed, and a fallback when nothing is left |
| Names.FmtNameDefault | internal/xray/links.go:71-84 | The empty template means name, hyphen, label |
| Names.Placeholders | internal/xray/links.go:71-84 | The eight placeholders and what stands for each |
| Names.SpacesExactly | internal/xray/links.go:71-84 | White space is exactly the Unicode white space |
| Names.WordsOf | internal/xray/links.go:71-84 | Words are what stands between blanks |
| Names.TrimEndsExactly | internal/xray/links.go:71-84 | Hyphens, underscores and blanks are cut at the ends and nowhere else |
| Access.BuiltinNamesFilled | internal/xray/links.go:115-190 | The values each built-in link fills into the template |
| Access.CustomNameFilled | internal/xray/links.go:226-235 | The same for custom links |
| LinkText.LinkRoundTrip | internal/xray/links.go:171-190 | Scheme, id, host, port, every parameter and the display name can be read back from the printed link |
| LinkFields.TextsNameEndpoints | internal/xray/links.go:115-284 | Whoever looks up "security", "type", "sni", "path", "serviceName", "flow", "pbk", "sid", "host", "alpn", "mode", "fp", "encryption" and "headerType" in the text of any vless or trojan link finds exactly the endpoint of an outbound of the client JSON with the same key, and the values that go with it |
| LinkFields.RecordsComplete | internal/xray/links.go:241-262 | The record of every VMess link: host, SNI, address, port, id, header type, protocol list and gRPC path |
| LinkText.VmessReadsBack | internal/xray/links.go:241-262 | The record of a VMess link reads back from its text |
| LinkText.HostPortComplete | web/src/lib/panel/format.ts:76-89 | Any match of the client's host expression is what the scan returns, so the match is unique |
| LinkText.HostPortSound | web/src/lib/panel/format.ts:76-89 | Whatever the scan returns is a match of the expression |
| LinkText.LinkHostOfText | web/src/lib/panel/format.ts:76-89 | `linkHost` returns the printed host:port exactly when the port is all digits, and a dash otherwise |
| LinkText.LinkLabelOfText | web/src/lib/panel/format.ts:92-102 | `linkLabel` returns the printed display name, whatever characters it has |
| LinkText.BodyRoundTripExactly | internal/xray/links.go:289-295 | Decoding a subscription body returns the lines exactly for non-empty lists of newline-free lines |
| LinkReading.LinksAreClean | internal/xray/links.go:115-284 | Every vless or trojan link handed out has clean parts, for any client name, template and path |
| LinkReading.LinksReadBack | web/src/lib/panel/format.ts:76-102 | All of the above for every such link that `BuildLinks` produces, with any port setting `portOrEmpty` accepts |
| LinkReading.SubscriptionRoundTrip | internal/xray/links.go:289-295 | Decoding the subscription body and splitting it returns exactly the links in order if and only if there is a link, for any client name, template, path and accepted port setting |
| Inbounds.NormPathExactly | internal/api/handlers.go:301-317 | Which of the two: an input becomes a path exactly when its trimmed, slash-led form is that path followed by slashes only; a blank one gets the default, and every result is the default or a well-shaped path |
| Inbounds.FoldExactly | internal/api/handlers.go:437-449 | Two texts are the same in lower case exactly when they differ in case only |
| Inbounds.TrimExactly | internal/api/handlers.go:301-317 | Blanks, or slashes, are removed at both ends and nowhere else |
| Inbounds.HostOkExactly | internal/api/handlers.go:295 | Exactly the host names with two or more labels: one to 63 small letters, digits and inner hyphens each, the last one two to 63 small letters |
| Inbounds.PatternsExactly | internal/api/handlers.go:296-297 | Exactly which service names and paths match |
| Inbounds.FreeLocalPort | internal/api/handlers.go:553-562 | The least usable port of the range; 0 exactly when there is none |
| Inbounds.LocalPortExists | internal/api/handlers.go:351-354 | With at most 20 rows and no failing query a port is free, so the zero-port rejection cannot happen |
| Inbounds.WithoutDeletes | internal/api/handlers.go:509-523 | Deletion by tag keeps exactly the rows of other tags, in their order |
| Inbounds.WithoutKeepsRows | internal/api/handlers.go:509-523 | Deleting the rows of a tag keeps the table valid |
| Inbounds.HistoryKeepsTable | internal/api/handlers.go:320-523 | Over every run of creates and deletes: at most 20 rows, well-formed, pairwise different listen ports and tags, TLS paths different ignoring case and never colliding with built-in ones |
| PanelServer.Server.PortTaken | internal/api/handlers.go:537-551 | True exactly on a failed query, a built-in port, or a port some row uses |
| PanelServer.Server.CheckPath | internal/api/handlers.go:432-455 | 500 exactly when the query fails for an unreserved path, 400 when the path collides or is taken, 200 otherwise |
| PanelServer.Server.CheckReality | internal/api/handlers.go:359-406 | The Reality half accepts exactly the requests described, with the requested port, path and SNI |
| PanelServer.Server.CheckTls | internal/api/handlers.go:407-482 | The TLS half accepts exactly the requests described, with a free local port |
| PanelServer.Server.Validate | internal/api/handlers.go:334-482 | Exactly which requests reach the insert, with what row, and the status of every refusal |
| PanelServer.Server.CreateInbound | internal/api/handlers.go:320-506 | Accepted exactly when room, shape, keys, port, path and storage allow; then one admissible row that answers the request is appended and the routes are rebuilt; otherwise nothing changes. The table invariant is kept |
| PanelServer.TlsRequestAccepted | internal/api/handlers.go:320-482 | Every TLS request with a name, a supported combination, a free path and a fresh tag is accepted while there are fewer than 20 rows |
| PanelServer.RealityRequestAccepted | internal/api/handlers.go:359-406 | The same for VLESS over Reality with a key, a free port and a valid SNI |
| PanelServer.RequestedSni | internal/api/handlers.go:379-389 | A requested SNI is used in lower case; only without one the stored SNI is |
| PanelServer.RequestedName | internal/api/handlers.go:333-339 | The stored name is the requested one between its blanks, cut to 30 characters |
| PanelServer.RequestedService | internal/api/handlers.go:392-398 | A gRPC service is stored behind one slash, whatever blanks and slashes surround it |
| PanelServer.RequestedPath | internal/api/handlers.go:399-405 | A well-shaped requested path is stored as it is, up to slashes at its end |
| PanelServer.NoPathRequested | internal/api/handlers.go:392-405 | Without a path a random one is stored, none for TCP, and Reality over gRPC is refused |
| PanelServer.StoredService | internal/api/handlers.go:484-500 | The stored service name is that of the path, empty for other transports |
| PanelServer.Server.DeleteInbound | internal/api/handlers.go:509-523 | Every row of the tag goes, all others stay as often and in their order; 404 without such a row; the invariant is kept and the routes rebuilt |
| PanelServer.Server.SyncCustomRoutes | internal/api/proxy.go:90-128 | The registry becomes that of the rows that arrive, which are all of them unless the row stream breaks or a row does not scan; it stays when the query fails |
| Routing.BuildRegistry | internal/api/proxy.go:104-128 | One route per registrable TLS row that arrives, a later row of the same path replacing an earlier one |
| Routing.LookupCustom | internal/api/proxy.go:169-186 | In whatever order the map is walked, the route of the longest whole-segment prefix, or none |
| Routing.LongestIsUnique | internal/api/proxy.go:169-186 | Two longest matches are the same path |
| Routing.ReservedNeverCaptured | internal/api/proxy.go:111-144 | For any table contents: no request whose path begins with /api, /sub or /panel (in any case) is captured |
| Routing.ReservedExactly | internal/api/proxy.go:132-136 | Reserved are exactly the paths whose first characters spell /api, /sub or /panel in any case |
| Routing.BuiltinCapturedExactly | internal/api/proxy.go:132-144 | A request equal to a built-in path can be captured by some table exactly when that path has an inner slash behind a registrable prefix; a single-segment one never |
| Routing.BuiltinCapturedOnce | internal/api/proxy.go:132-144 | Such a case, with a row the handler stores: "/ab" in front of "/ab/c" |
| PortsAndRoutes.PortsDistinct | internal/xray/config.go:208-277 | With spare, different panel ports, all listen ports of the built config are pairwise different and none is the panel's own |
| PortsAndRoutes.PortsDistinctExactly | internal/api/handlers.go:553-562 | All configs built from valid tables have distinct ports if and only if AppPort and APIPort differ and lie outside the fixed and the scanned ports |
| PortsAndRoutes.EveryRequestRouted | internal/api/proxy.go:169-186 | For every request path: the best matching TLS row's local port is dialled; without a matching row the panel answers itself |
| PortsAndRoutes.PartialRegistryRoutes | internal/api/proxy.go:104-128 | A registry read from a stream that broke, or without some rows, sends a request only to a row whose path it has, the longest among those that arrived |
| PortsAndRoutes.OwnPathReachesInbound | internal/api/proxy.go:90-128 | A request for a TLS inbound's own path dials its local port, where exactly that inbound listens |
| PortsAndRoutes.LoadedWellFormed | internal/xray/config.go:65-87 | The customs loaded from a valid table are the combinations the agreement results require |
| Limiter.Compact | internal/api/server.go:392-397 | In-place compaction keeps exactly the entries inside the window and overwrites none before it is read |
| Limiter.Append | internal/api/server.go:402 | `append`, in place or into a larger buffer |
| Limiter.NonEmpty | internal/api/server.go:405-411 | The sweep loop removes exactly the keys with an empty list |
| Limiter.LoginLimiter.Allow | internal/api/server.go:388-413 | Granted exactly when fewer than `max` logged grants lie in the window; the logs of all other keys are untouched, although every key has its own shared buffer |
| Limiter.LoginLimiter.Reset | internal/api/server.go:415-419 | Exactly the key's log is dropped |
| LimiterRuns.LogIsWindow | internal/api/server.go:388-413 | Forgetting loses nothing: inside the current window the log equals the full history of grants since the last reset |
| LimiterRuns.DeniedExactly | internal/api/server.go:388-413 | An attempt is denied exactly when `max` grants since the last reset lie in the window that ends now |
| LimiterRuns.RateIsLimited | internal/api/server.go:376-413 | Over every run with a non-decreasing clock, no interval of the window's length holds more than `max` grants of a key between resets |
| LimiterRuns.SweepDeletesNothing | internal/api/server.go:403-411 | The sweep above 4096 keys never deletes an entry |
| LimiterRuns.KeysAreUnbounded | internal/api/server.go:403-411 | The map can reach any size although the comment says memory is bounded |
| Migrations.SortByVersion | internal/db/db.go:60-61 | The in-place sort yields the version-sorted list |
| Migrations.SortedIsOrdered | internal/db/db.go:60-61 | ... which is ordered and a permutation of the input |
| Migrations.ListMigrations | internal/db/db.go:45-61 | Exactly the entries that have a version, each with it, in ascending order |
| Migrations.VersionOfNumber | internal/db/db.go:53-58 | The digits in front of a name, with their sign, are its version, up to the int64 range |
| Migrations.NoNumber | internal/db/db.go:53-58 | A name without a number in front is skipped |
| Migrations.SmallerFirst | internal/db/db.go:53-61 | Of two listed names the one with the smaller number comes first, and both come |
| Migrations.TwoBeforeTen | internal/db/db.go:60-61 | "2_x" comes before "10_x" |
| Migrations.Database.Migrate | internal/db/db.go:35-95 | One run, cut short at any statement, commit with a lost answer included |
| Migrations.RunExtends | internal/db/db.go:62-93 | A run that finds the first k migrations committed leaves the first j >= k committed, all of them if it completes |
| Migrations.RunStopsExactly | internal/db/db.go:62-93 | A run stops at the first migration whose statements fail and commits nothing of that one, except when only the answer to its commit was lost |
| Migrations.CommittedIsPrefix | internal/db/db.go:35-95 | Over any sequence of runs the committed bodies are a prefix of the sorted list, each once; a completed run has applied all |
| Migrations.CompletedIsFinal | internal/db/db.go:62-70 | After a completed run every later run changes nothing |
| Migrations.FirstRunAppliesAllExactly | internal/db/db.go:62-70 | A healthy first run applies every script exactly when no two share a version |
| Migrations.SecondBodySkipped | internal/db/db.go:62-70 | Two scripts with one number: the run completes without the second |

## Left out

- HTTP, WebSocket, cookies, reverse-proxy plumbing, bcrypt, key generation, binary download: library calls or I/O.
- SQL and Redis: tables are maps and sequences whose operations may fail; int64 overflow of stored totals is not modelled.
- The live totals cache and the hub broadcast after the upserts: output only, no later step reads them.
- DNS, routing rules, sniffing, buffers, socket options, Reality key and short-id fields inside the configs: static data that no property depends on.
- VMess links: their JSON text is a parameter, so only their structured fields and the newline-free base64 body are claimed; `linkLabel` is not claimed for them.
- IPv6 literals in links: printed without brackets, outside the hosts considered.
- Text is a sequence of Unicode characters; invalid UTF-8 input is not modelled, and lower and upper case are mapped for ASCII letters only.
- JSON numbers in the statistics are given after their conversion to int64; the precision of doubles is not modelled.
- The message texts of refusals: the status is modelled.
- PanelServer.Server.CreateInbound: one atomic step, because the code's check and insert are not one transaction; two concurrent requests are not modelled.
- The panel's own mux patterns: only the five built-in paths and the custom routes are dispatched in the model, and request paths are taken as cleaned.
- Enforcement.Supervisor.CollectOnce: the reading of the counters is one step, and its link to the printed statistics is Statistics.Aggregate and Statistics.CounterReadsBack; interleavings are in the machine.
- Limiter.LoginLimiter.Allow: the time is a parameter, and the limiter's own mutex makes the call one step.
- Migrations.Database.Migrate: two processes that migrate at the same time are not modelled.
- Migrations.SortByVersion: an insertion sort stands for the library's sort; with distinct versions the result is the same.
- Config.Load and the environment: configuration values are parameters; only `portOrEmpty` is modelled.
- React views, live hooks, demo backend, date and byte formatting: user interface.
