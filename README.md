# VPN monitor: liveness probing and deregistration

This project models the VPN liveness monitor of the skywire services
(`skywire-services/pkg/vpn-monitor/api/api.go`). The monitor runs cycles.
Each cycle refreshes the roster of registered VPN servers from the service
directory ("SD") and probes every server in roster order. A probe opens a
dmsg transport to the server, runs a `vpn-client` session through the
visor (the monitor's own skywire node) and removes the transport again.
Servers found offline have their hex keys collected in a dead list, and
the whole list is sent to the directory in one signed DELETE request.

The network does not appear in the model. Each visor call, roster query
and deregistration request is replaced by the answer it gives, passed in
as a value:

- `Probe.VisorReplies` holds the visor's answers for one probe.
- `Directory.RosterReply` holds the answer to the roster query.
- `Directory.ReportEnv` holds the answer to the deregistration request.

Modules, one per component:

- `Wrappers`: Option and Result.
- `Cipher`: 33-byte public keys and their lower-case hex text, proved injective.
- `Vpn`: the session errors. There are three sentinels; their texts are a parameter.
- `Probe`: `RunVpnClient` and `IsOnline`, pure over the visor's replies. Each
  also returns the visor calls it issued, in order. The module also holds a
  separate, closed classification rule (`Alive` over a `ProbeOutcome`).
- `Directory`: the roster query and the deregistration request.
- `Cycle`: a function specifying one `deregister` cycle. It includes a
  log of every outgoing interaction, and the lemmas about cycles.
- `Monitor`: the `Api` class. Its fields `vpnKeys` and `deadVPNs` are
  updated in place by `GetVPNKeys`, `TestVPN`, `ProbeAll`, `Deregister`
  and `InitDeregistrationLoop`. Each method is proved equal to the `Cycle`
  specification.
- `Seqs`: generic facts about sequences, used by the proofs.

In four places the code does not do what a reader of the monitor's
purpose might expect, and the model follows the code:

- A failed roster fetch does not skip the cycle, as a skip-the-cycle policy
  would. `getVPNKeys` returns early
  and leaves the previous roster in `vpnKeys`, so that roster is probed and
  reported again (`Cycle.Refresh`).
- A session with no error is alive even when its connection summary is
  empty. The code reads the latency only when the summary is non-empty, and
  never uses it.
- Cancellation does not end the sleep between cycles. `time.Sleep` ignores
  the context, so a cancellation that arrives during the sleep is seen only
  by the `select` before the next cycle. That check is the one the model
  has: one cancellation flag per loop entry.
- An app-error text that is none of the three sentinel texts is ignored.
  `RunVpnClient` compares the text only with those three; for any other
  text, such as a handshake failure, it goes on to fetch the connection
  summary and stop the app. When both succeed, it returns no error and the
  server counts as alive (`Probe.UnrecognisedAppErrorIgnored`).

## Model

| member | source | states |
|---|---|---|
| `Cipher.Hex` | skywire-services/pkg/vpn-monitor/api/api.go:177 | the hex text of a key has two characters per byte |
| `Cipher.HexDigit` | skywire-services/pkg/vpn-monitor/api/api.go:177 | a nibble below 10 is written as a decimal digit, one of 10 or more as a lower-case letter `a`-`f` |
| `Cipher.HexAt` | skywire-services/pkg/vpn-monitor/api/api.go:177 | byte `i` of the key is written at characters `2i` and `2i + 1`, as its two hex digits, high nibble first |
| `Cipher.HexInjective` | skywire-services/pkg/vpn-monitor/api/api.go:177 | distinct keys have distinct hex texts, so the dead list names keys unambiguously |
| `Probe.RunVpnClient` | skywire-services/pkg/vpn-monitor/api/api.go:317-349 | a failure of SetAppPK or StartApp returns that error. The app-error text maps to ErrSetupNode, ErrNotPermitted or ErrServerOffline, tried in that order. A failure of GetAppConnectionsSummary or StopApp returns that error. Every error comes with an empty summary. The result has no error exactly when the app started, its error text is none of the three sentinel texts, and the summary and stop calls succeed; it then carries the fetched summary. The calls issued are a prefix of the five app-control calls |
| `Probe.IsOnline` | skywire-services/pkg/vpn-monitor/api/api.go:181-221 | if AddTransport fails, the probe is dead and issues that call alone: no session, no removal. Once connected, the verdict is alive exactly when the session error is nil, ErrSetupNode or ErrNotPermitted. The transport removal is issued last on every connected path |
| `Probe.UnrecognisedAppErrorIgnored` | skywire-services/pkg/vpn-monitor/api/api.go:328-348 | a non-empty app-error text that matches no sentinel text gives no session error when the summary and stop calls succeed, so a connected probe is alive |
| `Probe.OfflineIsDead` | skywire-services/pkg/vpn-monitor/api/api.go:199-209 | a connected probe whose session ends in any error other than the two benign ones, ErrServerOffline included, is dead |
| `Probe.VerdictIgnoresLatency` | skywire-services/pkg/vpn-monitor/api/api.go:199-220 | replacing the connection summary, latency zero or not, never changes the verdict |
| `Probe.VerdictIgnoresTeardown` | skywire-services/pkg/vpn-monitor/api/api.go:211-214 | what RemoveTransport answers changes neither the verdict nor the calls issued |
| `Probe.SessionErrorKind` | skywire-services/pkg/vpn-monitor/api/api.go:328-348 | the session's error is the error kind of the session result read off the replies: nil with the summary for a clean session, the matching sentinel for the three recognised app errors, a non-sentinel error otherwise |
| `Probe.IsOnlineClassifies` | skywire-services/pkg/vpn-monitor/api/api.go:184-209 | the probe's verdict equals the closed classification rule `Alive` applied to the probe's outcome (connection failure, or the session result) |
| `Directory.GetVPNs` | skywire-services/pkg/vpn-monitor/api/api.go:270-288 | the roster query succeeds exactly when the body decoded, with the decoded list. Otherwise it returns the error of the failing step and no partial data |
| `Directory.KeysOf` | skywire-services/pkg/vpn-monitor/api/api.go:299-302 | one key per listed service, the key of its address, in the order listed |
| `Directory.DeregisterRequest` | skywire-services/pkg/vpn-monitor/api/api.go:233-266 | a DELETE with the keys as body goes out only when the URL parses and the keys marshal. The result has no error exactly when it went out and the answer had status 200. Each failure (bad URL, marshal, send, other status) is reported as its own error |
| `Cycle.Refresh` | skywire-services/pkg/vpn-monitor/api/api.go:290-305 | on a decoded list, the roster is rebuilt with one key per service, in order (an empty list gives an empty roster). On a fetch error, the previous roster is kept |
| `Cycle.Probes` | skywire-services/pkg/vpn-monitor/api/api.go:154-156 | one probe per roster entry |
| `Cycle.ProbesAt` | skywire-services/pkg/vpn-monitor/api/api.go:154-156 | entry `i` of the probes is the probe of roster key `i`, answered by the visor's replies for that entry |
| `Cycle.FirstCancel` | skywire-services/pkg/vpn-monitor/api/api.go:129-137 | the number of cycles run is the index of the first set cancellation flag: all earlier flags are unset |
| `Cycle.FirstCancelIsFirst` | skywire-services/pkg/vpn-monitor/api/api.go:129-137 | any index that ends a run of unset flags at a set flag, or at the end, is that number |
| `Cycle.CountPlusDead` | skywire-services/pkg/vpn-monitor/api/api.go:168-179 | each probed key is counted online or listed dead, never both: count plus dead list length equals the roster length |
| `Cycle.DeadMember` | skywire-services/pkg/vpn-monitor/api/api.go:176-178 | a text is in the dead list exactly when it is the hex of a roster entry probed offline |
| `Cycle.DeadKeyMember` | skywire-services/pkg/vpn-monitor/api/api.go:176-178 | a key's hex is in the dead list exactly when some roster entry with that key was probed offline |
| `Cycle.DeadKeysAppend` | skywire-services/pkg/vpn-monitor/api/api.go:154-156 | the dead list of a roster is the dead list of its first part followed by that of the rest, so roster order is kept |
| `Cycle.ProbeDialsOnce` | skywire-services/pkg/vpn-monitor/api/api.go:181-214 | a probe opens exactly one transport, to the probed key, and calls no reporter |
| `Cycle.ProbesDial` | skywire-services/pkg/vpn-monitor/api/api.go:154-156 | probing a roster opens one transport per key, in roster order, and calls no reporter |
| `Cycle.ProbeStep` | skywire-services/pkg/vpn-monitor/api/api.go:168-179 | probing one more roster entry extends the count, the dead list and the log by that entry's probe alone |
| `Cycle.CycleSummary` | skywire-services/pkg/vpn-monitor/api/api.go:141-179 | after a cycle, the roster is the refreshed one. Count plus dead equals roster size. The dead list is that of the refreshed roster's probes, in roster order, reset and never carried over |
| `Cycle.CycleDeadInRoster` | skywire-services/pkg/vpn-monitor/api/api.go:168-179 | every dead entry is the hex of a key in that cycle's roster |
| `Cycle.CycleLogShape` | skywire-services/pkg/vpn-monitor/api/api.go:141-166 | a cycle queries the roster, then probes (none when the roster is empty), then calls the reporter only when the dead list is non-empty. An empty roster leaves the dead list empty |
| `Cycle.CycleQueriesFirst` | skywire-services/pkg/vpn-monitor/api/api.go:144-145 | a cycle begins with exactly one roster query |
| `Cycle.CycleInteractions` | skywire-services/pkg/vpn-monitor/api/api.go:151-163 | a cycle opens one transport per roster key, in order, and none for an empty roster. It calls the reporter exactly once, with the whole dead list, when that list is non-empty, and never otherwise |
| `Cycle.CycleIgnoresPreviousDead` | skywire-services/pkg/vpn-monitor/api/api.go:148-149 | the previous cycle's dead list has no influence on the next cycle |
| `Cycle.CycleReportFailureSwallowed` | skywire-services/pkg/vpn-monitor/api/api.go:223-229 | whatever the deregistration request answers, the roster, the dead list and the count are unchanged |
| `Cycle.ThreeProbes` | skywire-services/pkg/vpn-monitor/api/api.go:154-156 | three probes, the first online and the others not, give count 1 and the last two hex keys as the dead list, in order |
| `Cycle.ThreeServerScenario` | skywire-services/pkg/vpn-monitor/api/api.go:141-179 | roster [A, B, C], with A clean, B's transport failing and C reporting "server offline": one online, dead list [hex B, hex C], one reporter call with exactly that list |
| `Monitor.Api.constructor` | skywire-services/pkg/vpn-monitor/api/api.go:73-92 | a new monitor has an empty roster, an empty dead list and an empty log |
| `Monitor.Api.GetVPNKeys` | skywire-services/pkg/vpn-monitor/api/api.go:290-305 | the roster becomes `Refresh` of the old roster and the reply, built by appending in a loop. One roster query is logged |
| `Monitor.Api.TestVPN` | skywire-services/pkg/vpn-monitor/api/api.go:168-179 | the count grows by one when the key's probe is online. Otherwise the key's hex is appended to the dead list. The probe's visor calls are logged |
| `Monitor.Api.VpnDeregister` | skywire-services/pkg/vpn-monitor/api/api.go:223-230 | sends the request; its error is swallowed; nothing but the log changes |
| `Monitor.Api.ProbeAll` | skywire-services/pkg/vpn-monitor/api/api.go:154-156 | probing the roster in order adds `OnlineCount` of its probes to the count and appends `DeadKeys` of the roster to the dead list |
| `Monitor.Api.Deregister` | skywire-services/pkg/vpn-monitor/api/api.go:141-166 | the new state and the count are those of `Cycle.DeregisterCycle`, and count plus dead list length equals the roster length |
| `Monitor.Api.NextCycle` | skywire-services/pkg/vpn-monitor/api/api.go:129-137 | running one more cycle moves the state from `Cycles(n)` to `Cycles(n + 1)` |
| `Monitor.Api.InitDeregistrationLoop` | skywire-services/pkg/vpn-monitor/api/api.go:125-138 | the cancellation flag is checked before each cycle. Exactly the cycles before the first set flag run, and the state is that after that many cycles |

## Left out

- The HTTP front end is not modelled: `New`'s router and middleware, `health`, `writeJSON` and `log`. These are plumbing with no decision logic. The constructor keeps only the fields the cycle uses.
- `startVisor` and its fatal exit are not modelled. They are a foreign constructor and process termination; the visor appears only through its replies.
- The `internal/vpn` package is not part of this model. The `Error()` texts of its three sentinels are a parameter (`Vpn.SentinelTexts`).
- Visor, HTTP and JSON calls are inputs, not behaviour. This covers `AddTransport`, `SetAppPK`, `StartApp`, `GetAppError`, `GetAppConnectionsSummary`, `StopApp`, `RemoveTransport`, `http.Get`, `io.ReadAll`, `json.Unmarshal`, `url.Parse`, `json.Marshal` and `http.DefaultClient.Do`. Failures of these calls are error texts: the directory exchanges never produce the vpn sentinels, and the visor's failures are texts too, because the visor cannot return the sentinels of `internal/vpn`, a package internal to the monitor's own repository (skywire-services).
- Each probe's visor replies depend only on its position in the roster (`CycleEnv.visor`). Any influence of one probe on the next through the visor is not modelled.
- All sleeps and durations are left out: the 10 s transport timeout, the 15 s, 2 s and 4 s settle delays, and the sleep between cycles. They affect timing only.
- Logging is left out, including the `RemoveTransport` error, which is only logged. `GetAppError`'s own error result is discarded by the code and does not appear in the model.
- The `NM-PK` and `NM-Sign` headers and the signature are not modelled. The deregistration request carries only its method, URL and body of hex keys.
- URL construction is not modelled as `fmt.Sprintf` formatting. It is modelled as concatenation with the fixed paths.
- `Monitor.Api.TestVPN`: the online count is a plain `nat` returned from the method, not an `int64` updated through a pointer with `atomic.AddInt64`. Probing is sequential and the count never exceeds the roster length, so neither the atomicity nor the 64-bit width can be observed.
- `Monitor.Api.InitDeregistrationLoop`: the endless loop on a context is modelled as a bounded loop over a sequence of cancellation flags, one per loop entry. A cancellation that arrives during the sleep is seen only at the next flag, because `time.Sleep` does not watch the context; the flags model exactly that.
- The latency read from the first summary entry is not kept in `Probe.ProbeResult`. Both of `isOnline`'s returns give the same value, so the latency cannot be observed; `Probe.VerdictIgnoresLatency` proves this.
