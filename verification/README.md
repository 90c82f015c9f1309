# tssh core in Dafny

This project models two pieces of decision logic from tssh, an SSH proxy with a
terminal device picker.

1. **The SSH proxy's per-connection logic** (`sshproxy/sshproxy_unix.go`).
   - The connection context holds the "tailscaleDevice" and "sshClient" values.
   - The connection hook stores the device and installs a cleanup closure.
   - `sshConn.Close` runs cleanup and then the underlying close.
   - The public-key callback dials the destination through a guard and stores
     the outbound client.
   - The channel handler accepts "session" (section 6.1 of RFC 4254) and
     "direct-tcpip" (section 7.2 of RFC 4254). It rejects every other type
     with SSH_OPEN_UNKNOWN_CHANNEL_TYPE (code 3, section 5.1 of RFC 4254).
     For an accepted type it mirrors the channel on the outbound client and
     closes what it opened.
   - The channel-request relay (`forwardChannelRequest` and
     `proxyChannelStreams`) forwards the channel requests of section 5.4 of
     RFC 4254.
   The Go `select` of the relay loop becomes a given trace of events, so the
   loop is a fold over that trace (`ProxyRelay.Relay`). The same loop is also
   written as a `while` loop with early returns (`ProxyRelay.RelayLoop`) and
   proved equal to the fold. `ProxyLifecycle` strings the hooks together:
   connection hook, then any sequence of authentications and channel opens.
   It proves the invariants of the context that every reachable connection
   keeps.
2. **The device picker** (`ui/ui.go`, with the `Action` enumeration of
   `tssh.go`).
   - `state` and `Action` are Go `int`s with iota constants, so they are
     `newtype`s over `int`. This keeps "unknown state renders the empty
     string" expressible.
   - The transitions are pure functions: `handleKeyPress`, `handleResult`
     (the "tag:e2e" filter), `handleAction`, `handleDefault`, `View`, and
     the `Update` dispatch.
   - The list and spinner widgets are opaque. Handing a message to one is
     recorded as a `Delegate` effect.

Modules: `Wrappers` (Option, Result), `ProxyContext`, `ProxyChannel`,
`ProxyRelay`, `ProxyLifecycle`, `DeviceItems`, `Picker`.

Two things the source does that the model keeps as written:
- The destination guard `!ok && tailscaleServer == ""` rejects only a missing
  or non-string device value. The connection hook always stores `""`, so
  every accepted connection dials the empty address
  (`ProxyContext.EmptyDeviceIsDialed`).
- The relay loop returns on the first post to `done`. It does not wait for
  both copy directions (`ProxyRelay.FirstDoneEndsLoop`).

Further facts about the code:
- `proxyChannel` makes the done signal with room for two posts
  (`sshproxy/sshproxy_unix.go:156`), and both primary copy directions post to
  it. The request loop still returns on the first post
  (`sshproxy/sshproxy_unix.go:218-219`).
- `forwardChannelRequest` always calls `Reply(reply, nil)`
  (`sshproxy/sshproxy_unix.go:253`), whether or not the request wanted a
  reply. Whether that call sends anything is decided by the SSH library,
  which is not part of this model.
- `errorChan` is unbuffered (`sshproxy/sshproxy_unix.go:49`), so a report
  waits for a reader. Reports are modelled as values the handler produces;
  the waiting is not modelled.

## Model

| member | source | states |
|---|---|---|
| ProxyContext.AsString | sshproxy/sshproxy_unix.go:228 | the comma-ok string assertion holds exactly for a present string value, and yields "" when it fails |
| ProxyContext.AsClient | sshproxy/sshproxy_unix.go:109 | the comma-ok client assertion holds exactly for a present client value (nil or not), and yields nil when it fails |
| ProxyContext.ConnCallback | sshproxy/sshproxy_unix.go:98-116 | the connection hook stores a present empty device string and leaves the client slot, user and version alone |
| ProxyContext.Cleanup | sshproxy/sshproxy_unix.go:106-113 | cleanup closes at most one client: the stored one, exactly when it is present, of client type and not nil; otherwise it does nothing |
| ProxyContext.SshConnClose | sshproxy/sshproxy_unix.go:30-34 | closing the wrapped connection runs the cleanup first and the underlying close last, and returns the underlying close's error |
| ProxyContext.DestinationGuardFails | sshproxy/sshproxy_unix.go:228-231 | the guard as written (`!ok && s == ""`) fails exactly when the device value is absent or not a string |
| ProxyContext.DialDestination | sshproxy/sshproxy_unix.go:224-245 | the guard fails exactly when the device value is absent or not a string; otherwise the result is the dial to that string with the connection's user and version |
| ProxyContext.ProxyAuthCallback | sshproxy/sshproxy_unix.go:84-94 | authentication succeeds exactly when the dial does; on success only the client slot changes, to the dialled client; on failure the context is unchanged |
| ProxyContext.EmptyDeviceIsDialed | sshproxy/sshproxy_unix.go:228-240 | after the connection hook, the guard always passes and the dial goes to the empty address |
| ProxyContext.GuardFailsIffNotString | sshproxy/sshproxy_unix.go:228-231 | a present empty device string passes the guard |
| ProxyContext.CloseAfterAuthClosesClient | sshproxy/sshproxy_unix.go:87-113 | after a successful authentication, close closes exactly the stored client and then the connection |
| ProxyChannel.ChannelHandler | sshproxy/sshproxy_unix.go:118-152 | an unsupported type is rejected with UnknownChannelType and the echoed type, and nothing is accepted or opened; a supported type starts by accepting iff the accept succeeds, and a failed accept only reports the failure, with nothing to close |
| ProxyChannel.Supported | sshproxy/sshproxy_unix.go:120 | the only channel types relayed are "session" and "direct-tcpip" |
| ProxyChannel.RejectMessage | sshproxy/sshproxy_unix.go:121 | the rejection text is "channel type ", the requested type, then " is not supported" |
| ProxyChannel.AfterAccept | sshproxy/sshproxy_unix.go:135-151 | the steps between accepting and the deferred close neither accept nor close the inbound channel again |
| ProxyChannel.ChannelHandlerBalanced | sshproxy/sshproxy_unix.go:128-148 | on every exit path the inbound channel is closed exactly once and last iff it was accepted; the outbound channel is closed exactly once, just before it, iff it was opened |
| ProxyChannel.SupportedChannelMirrored | sshproxy/sshproxy_unix.go:136-151 | with a stored client, exactly one outbound open happens, with the same type and extra data; the pair is bridged iff that open succeeds |
| ProxyChannel.AcceptedWithoutClient | sshproxy/sshproxy_unix.go:133-140 | with no usable client, the accepted inbound channel is closed and nothing is opened outbound |
| ProxyChannel.OpenedShape | sshproxy/sshproxy_unix.go:142-151 | the open path: on a failed open the error is reported and only the inbound channel is closed; on success the outbound channel is closed before the inbound one |
| ProxyChannel.UnsupportedChannelRejected | sshproxy/sshproxy_unix.go:120-126 | an unsupported type yields one rejection, plus a report only when rejecting fails |
| ProxyRelay.ForwardChannelRequest | sshproxy/sshproxy_unix.go:247-257 | the request is sent with type, want-reply and payload unchanged; a send failure gives an error and no reply; otherwise the reply carries the peer's boolean and a nil payload, and an error arises iff the reply fails |
| ProxyRelay.Relay | sshproxy/sshproxy_unix.go:196-222 | the loop consumes no more events than the trace holds, forwards at most one request per event, and reports at most one error |
| ProxyRelay.RelayMeetsSpec | sshproxy/sshproxy_unix.go:198-222 | the loop forwards every consumed request to the other side in trace order; it stops at the first nil request, done post or failed forward; it reports exactly one error iff a forward failed |
| ProxyRelay.RelayLoop | sshproxy/sshproxy_unix.go:198-222 | the loop written with early returns computes the same result as the fold |
| ProxyRelay.StoppedIgnoresRest | sshproxy/sshproxy_unix.go:199-221 | once the loop has returned, appending events to the trace changes nothing |
| ProxyRelay.ForwardDirection | sshproxy/sshproxy_unix.go:201-217 | each forwarded request came from an incoming request, goes to the other side and carries that request |
| ProxyRelay.FirstDoneEndsLoop | sshproxy/sshproxy_unix.go:218-219 | the first done post ends the loop after the forwards before it, without an error |
| ProxyLifecycle.Accepted | sshproxy/sshproxy_unix.go:103-104 | a freshly accepted connection holds a present empty device string and no client |
| ProxyLifecycle.RunInvariant | sshproxy/sshproxy_unix.go:87-104 | on every reachable context the device stays "", and the client slot is unset or holds the non-nil client of the last successful dial |
| ProxyLifecycle.CloseClosesLastClient | sshproxy/sshproxy_unix.go:106-113 | closing at any point closes the client of the last successful authentication once, then the connection; with none it only closes the connection |
| ProxyLifecycle.ReachableChannelOpens | sshproxy/sshproxy_unix.go:134-142 | on a reachable context the handler never uses a nil client, and reports the client missing iff no authentication has succeeded |
| ProxyLifecycle.ChannelOpenWithStoredClient | sshproxy/sshproxy_unix.go:136-142 | with the client slot unset or non-nil, the handler never panics, and it reports the client missing iff the slot is unset |
| ProxyLifecycle.SecondAuthOrphansFirstClient | sshproxy/sshproxy_unix.go:87-94 | a second successful authentication overwrites the stored client, so the first client is not closed on connection close |
| DeviceItems.ItemFor | ui/ui.go:116 | a listed device's item has its hostname as name, its user as info, and the device-SSH action |
| DeviceItems.TagItems | ui/ui.go:114-118 | the inner loop yields only copies of the device's item, at most one per tag |
| DeviceItems.FilterItems | ui/ui.go:112-119 | the outer loop yields only device-SSH items |
| DeviceItems.CollectItems | ui/ui.go:112-119 | the nested loops produce exactly the filtered item list |
| DeviceItems.TagItemsCopies | ui/ui.go:114-118 | one device yields its item once per occurrence of "tag:e2e" among its tags, and nothing else |
| DeviceItems.ItemCountIsTagCount | ui/ui.go:112-119 | the number of items equals the total count of "tag:e2e" across all devices' tags |
| DeviceItems.FilterConcat | ui/ui.go:113-119 | filtering distributes over concatenation of device lists, so items follow device order |
| DeviceItems.ItemsAreTaggedDevices | ui/ui.go:113-119 | every item is the item of a device carrying the tag, and every such device is listed |
| Picker.Initial | ui/ui.go:207-211 | the program starts on the menu screen with no error and an empty device list |
| Picker.HandleKeyPress | ui/ui.go:71-90 | "ctrl+c" and "q" quit on every screen; other keys go to the menu on the menu screen, to the device list on the device screen, and nowhere otherwise; the model never changes |
| Picker.HandleResult | ui/ui.go:104-124 | an error moves to the failure screen and stores the error, keeping the device list; success moves to the device screen with the filtered items and keeps the error |
| Picker.HandleDefault | ui/ui.go:144-156 | other messages go to the menu on the menu screen, to the device list on the device screen, to the spinner on the loading screen, and nowhere otherwise; the model never changes |
| Picker.HandleAction | ui/ui.go:126-142 | the SSH action moves to the loading screen and starts the fetch; the device action opens a session, then either moves to the failure screen with the session's error, or moves back to the menu and hands the menu the nil message; other actions do nothing |
| Picker.View | ui/ui.go:158-172 | the screen depends on the state alone: menu, loading (with " Fetching Devices..."), device list, or "Failure: " and the error; an unknown state renders the empty string |
| Picker.Update | ui/ui.go:54-69 | dispatch by message kind: window messages go to the device list, ticks to the spinner, keys, fetch results, chosen items and other messages to their handlers; only fetch results and chosen items change the model |
| Picker.UpdatePreservesValid | ui/ui.go:54-69 | every transition keeps the state within the four screens and keeps an error on the failure screen |
| Picker.ReachableValid | ui/ui.go:54-69 | every model reachable from a valid one by a message sequence is valid |
| Picker.ViewOfReachable | ui/ui.go:158-172 | from the initial model, the view is never the empty string and never the nil-error failure screen |
| Picker.KeyRoutingMatchesDefault | ui/ui.go:79-89 | non-quit keys are routed like other messages, except on the loading screen, where keys go nowhere and other messages reach the spinner |
| Picker.ResultItems | ui/ui.go:112-121 | after a successful fetch the list has one item per tag occurrence, each naming a tagged device, and every tagged device is listed |

## Left out

- Byte-stream bridging (`proxyStreams`, `proxyStderrStreams`): these are concurrent `io.Copy` goroutines. In the model a successful bridge is one opaque `Bridge` step.
- `proxyChannel`'s wiring: it passes the remote channel where the remote request stream is expected. The relay is modelled by the signature of `proxyChannelStreams`, with the request streams as a trace.
- `New`, `Start`, `Errors`, `ListenAndServe` and the shutdown goroutine: server plumbing and concurrency. This includes the blocking of the unbuffered error channel.
- The SSH dial, handshake, signer and host-key handling: foreign library calls. The dial is an abstract function from the dial configuration to a client or a failure.
- The `time.Sleep` in the connection hook: timing only.
- The version string format: diagnostic only.
- The offered public key in the authentication callback: the source never reads it.
- `sshproxy/sshproxy_windows.go`: a stub that always fails.
- `ui/components/list.go`: styling and thin wrappers over a list widget. Widget state is opaque.
- Concurrency of the fetch result: `go m.fetchDevices()` (`ui/ui.go:130`) applies its result by calling `m.Update` from its own goroutine (`ui/ui.go:176`), outside the program's message queue, while the program keeps calling `Update` and `View` on the same model. The model assumes all transitions are serialised; `Picker.ViewOfReachable` holds only under that assumption (`handleResult` writes the state before the error, `ui/ui.go:107-108`).
- `sshDevice` and `fetchDevices`: an SSH client session and a background API call. Their outcomes are parameters or effects (`OpenSsh`, `StartFetch`).
- `handleWindow` and `handleTick`: they only hand the message to a widget, recorded as a `Delegate` effect. The transient loading state inside the device action is not observable in a pure model and is not kept.
- `tailscale/tailscale.go` and `cmd/main.go`: an API client wrapper and command-line wiring.
- Error texts: each reported error is a constructor of `ProxyContext.ProxyError`, not a formatted string.
