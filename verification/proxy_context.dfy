/** Per-connection state of the SSH proxy (sshproxy/sshproxy_unix.go):
    the values the connection and authentication hooks keep in the connection
    context, the cleanup closure the wrapped connection runs on close, the
    destination guard and dial, and the public-key authentication callback.

    The Go context is a dynamically typed key/value store; only the two keys the
    proxy uses are modelled, each as an optional dynamically typed value, so the
    source's comma-ok type assertions can be stated literally. */
module ProxyContext {
  import opened Wrappers

  newtype uint8 = x: int | 0 <= x < 256

  type Bytes = seq<uint8>

  /** Opaque identity of an outbound SSH client, a non-nil `*gossh.Client`. */
  type ClientId = nat

  /** A value stored in the context under some key. */
  datatype Value =
    | StrValue(s: string)
    /** A `*gossh.Client`; `None` is a typed nil pointer. */
    | ClientValue(ptr: Option<ClientId>)
    /** Any value of another dynamic type. */
    | OtherValue

  /** The connection context: the user and version reported by the
      connection, and the values under the keys "tailscaleDevice" and
      "sshClient" (`None` when the key was never set). */
  datatype Context = Context(
    user: string,
    serverVersion: string,
    device: Option<Value>,
    sshClient: Option<Value>)

  /** Every fault the modelled handlers report on the error stream, plus the two
      dial failures that make authentication fail. */
  datatype ProxyError =
    | ServerUnresolved          // "failed to connect to server"
    | DestinationDialFailed     // "failed to connect to destination SSH server"
    | RejectFailed              // "error rejecting SSH channel"
    | AcceptFailed              // "failed to accept session channel"
    | ClientMissing             // "could not retrieve client from context"
    | RemoteOpenFailed          // "failed to open remote channel"
    | ForwardFailed(cause: ForwardError)  // "failed to forward request"

  /** The two ways forwarding one channel request fails. */
  datatype ForwardError = SendFailed | ReplyFailed

  /** `v.(string)` in comma-ok form: the asserted string (Go's zero value ""
      when the assertion fails) and whether it held. */
  function AsString(v: Option<Value>): (r: (string, bool))
    ensures r.1 <==> v.Some? && v.value.StrValue?
    ensures r.1 ==> r.0 == v.value.s
    ensures !r.1 ==> r.0 == ""
  {
    match v
    case Some(StrValue(s)) => (s, true)
    case _ => ("", false)
  }

  /** `v.(*gossh.Client)` in comma-ok form: the (possibly nil) pointer and
      whether the assertion held. */
  function AsClient(v: Option<Value>): (r: (Option<ClientId>, bool))
    ensures r.1 <==> v.Some? && v.value.ClientValue?
    ensures r.1 ==> r.0 == v.value.ptr
    ensures !r.1 ==> r.0 == None
  {
    match v
    case Some(ClientValue(p)) => (p, true)
    case _ => (None, false)
  }

  /** The connection hook: records the (always empty) destination device
      under "tailscaleDevice" and hands back the context the cleanup closure
      will read. The sleep before it is timing only and not modelled. */
  function ConnCallback(ctx: Context): (r: Context)
    ensures AsString(r.device) == ("", true)
    ensures r.sshClient == ctx.sshClient
    ensures r.user == ctx.user && r.serverVersion == ctx.serverVersion
  {
    ctx.(device := Some(StrValue("")))
  }

  /** Something the proxy does to a connection resource. */
  datatype ConnEffect =
    | CloseClient(client: ClientId)   // outbound client closed
    | CloseUnderlying                 // the raw inbound net.Conn closed

  /** The cleanup closure, run against the context as it is at close time:
      it closes the stored outbound client when the assertion holds and the
      pointer is not nil, and does nothing otherwise. */
  function Cleanup(ctx: Context): (r: seq<ConnEffect>)
    ensures |r| <= 1
    ensures |r| == 1 <==> ctx.sshClient.Some? && ctx.sshClient.value.ClientValue?
                          && ctx.sshClient.value.ptr.Some?
    ensures |r| == 1 ==> r[0] == CloseClient(ctx.sshClient.value.ptr.value)
  {
    var (client, ok) := AsClient(ctx.sshClient);
    if ok && client.Some? then [CloseClient(client.value)] else []
  }

  /** The result of closing the wrapped connection: what was done, in order,
      and the error returned (that of the underlying close). */
  datatype CloseResult = CloseResult(effects: seq<ConnEffect>, err: Option<string>)

  /** `sshConn.Close`: cleanup first, then the underlying close, whose error
      is the one returned; an error from closing the client is dropped. */
  function SshConnClose(ctx: Context, underlyingErr: Option<string>): (r: CloseResult)
    ensures |r.effects| >= 1 && r.effects[|r.effects| - 1] == CloseUnderlying
    ensures forall i :: 0 <= i < |r.effects| - 1 ==> r.effects[i].CloseClient?
    ensures r.effects[..|r.effects| - 1] == Cleanup(ctx)
    ensures r.err == underlyingErr
  {
    CloseResult(Cleanup(ctx) + [CloseUnderlying], underlyingErr)
  }

  /** The configuration handed to the SSH dial: the address, the user of the
      inbound connection and the version string of its context. The signer is
      a placeholder in the source and is not modelled. */
  datatype DialConfig = DialConfig(addr: string, user: string, clientVersion: string)

  /** The outbound dial, left abstract: the client it yields, or None when the
      connect or handshake fails. */
  type Dialer = DialConfig -> Option<ClientId>

  /** The guard of `dialDestination`: as written it rejects only when the
      assertion failed AND the asserted string is empty. */
  predicate DestinationGuardFails(ctx: Context): (r: bool)
    ensures r <==> !(ctx.device.Some? && ctx.device.value.StrValue?)
  {
    var (server, ok) := AsString(ctx.device);
    !ok && server == ""
  }

  /** `dialDestination`: the guard, then the dial to the device string. */
  function DialDestination(ctx: Context, dial: Dialer): (r: Result<ClientId, ProxyError>)
    ensures r == Err(ServerUnresolved) <==> !(ctx.device.Some? && ctx.device.value.StrValue?)
    ensures ctx.device.Some? && ctx.device.value.StrValue? ==>
      var cfg := DialConfig(ctx.device.value.s, ctx.user, ctx.serverVersion);
      (r.Ok? <==> dial(cfg).Some?) && (r.Ok? ==> r.value == dial(cfg).value)
    ensures r.Err? ==> r.error in {ServerUnresolved, DestinationDialFailed}
  {
    if DestinationGuardFails(ctx) then Err(ServerUnresolved)
    else
      var (server, _) := AsString(ctx.device);
      match dial(DialConfig(server, ctx.user, ctx.serverVersion))
      case Some(client) => Ok(client)
      case None => Err(DestinationDialFailed)
  }

  /** The outcome of the public-key callback: whether the inbound connection
      is allowed, and the context afterwards. */
  datatype AuthResult = AuthResult(allowed: bool, ctx: Context)

  /** `proxyAuthCallback`: dials the destination; on success stores the new
      client under "sshClient" and allows the connection, otherwise refuses
      it and leaves the context alone. The offered key is not consulted. */
  function ProxyAuthCallback(ctx: Context, dial: Dialer): (r: AuthResult)
    ensures r.allowed <==> DialDestination(ctx, dial).Ok?
    ensures r.allowed ==>
      r.ctx == ctx.(sshClient := Some(ClientValue(Some(DialDestination(ctx, dial).value))))
    ensures !r.allowed ==> r.ctx == ctx
  {
    match DialDestination(ctx, dial)
    case Err(_) => AuthResult(false, ctx)
    case Ok(client) => AuthResult(true, ctx.(sshClient := Some(ClientValue(Some(client)))))
  }

  /** The destination guard lets a present empty string through: the
      connection hook always stores "", so every dial of an accepted
      connection is made to the empty address. */
  lemma EmptyDeviceIsDialed(ctx: Context, dial: Dialer)
    ensures DialDestination(ConnCallback(ctx), dial).Ok?
            <==> dial(DialConfig("", ctx.user, ctx.serverVersion)).Some?
  {
  }

  /** Because the guard's empty-string test is joined by `&&`, a present
      empty device string passes it. */
  lemma GuardFailsIffNotString(ctx: Context)
    ensures ctx.device == Some(StrValue("")) ==> !DestinationGuardFails(ctx)
  {
  }

  /** Closing after a successful authentication closes exactly the client the
      authentication stored, and then the connection. */
  lemma CloseAfterAuthClosesClient(ctx: Context, dial: Dialer, underlyingErr: Option<string>)
    requires ProxyAuthCallback(ctx, dial).allowed
    ensures SshConnClose(ProxyAuthCallback(ctx, dial).ctx, underlyingErr).effects
            == [CloseClient(DialDestination(ctx, dial).value), CloseUnderlying]
  {
  }
}
