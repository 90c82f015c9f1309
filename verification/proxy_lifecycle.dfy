/** The life of one inbound connection to the SSH proxy, as a state machine
    over the context: the connection hook runs first, then any sequence of
    authentication attempts and channel opens, and finally the wrapped
    connection is closed. Only authentication changes the context; channel
    opens read it. */
module ProxyLifecycle {
  import opened Wrappers
  import opened ProxyContext
  import opened ProxyChannel

  /** A hook invocation on an established connection. */
  datatype ConnEvent =
    | Authenticate(dial: Dialer)
    | OpenChannel(nc: NewChannel, env: ChannelEnv)

  /** The context of a freshly accepted connection once the connection hook
      has run. */
  function Accepted(user: string, version: string): (r: Context)
    ensures r.device == Some(StrValue("")) && r.sshClient == None
  {
    ConnCallback(Context(user, version, None, None))
  }

  /** The context after one event. */
  function Step(ctx: Context, e: ConnEvent): Context
  {
    match e
    case Authenticate(dial) => ProxyAuthCallback(ctx, dial).ctx
    case OpenChannel(_, _) => ctx
  }

  /** The context after a sequence of events, oldest first. */
  function Run(ctx: Context, events: seq<ConnEvent>): Context
    decreases |events|
  {
    if |events| == 0 then ctx
    else Step(Run(ctx, events[..|events| - 1]), events[|events| - 1])
  }

  /** Reference definition: the client produced by the last authentication
      whose dial (with configuration `cfg`) succeeded, if any. */
  function LastDialed(cfg: DialConfig, events: seq<ConnEvent>): Option<ClientId>
    decreases |events|
  {
    if |events| == 0 then None
    else
      var e := events[|events| - 1];
      if e.Authenticate? && e.dial(cfg).Some? then e.dial(cfg)
      else LastDialed(cfg, events[..|events| - 1])
  }

  /** The invariant of a connection's context: the device value is the empty
      string the hook stored, user and version are those of the connection,
      and the client slot is unset or holds the non-nil client of the last
      successful dial, which always targets the empty address. */
  lemma {:induction false} RunInvariant(user: string, version: string, events: seq<ConnEvent>)
    ensures var ctx := Run(Accepted(user, version), events);
      && ctx.device == Some(StrValue(""))
      && ctx.user == user && ctx.serverVersion == version
      && (match LastDialed(DialConfig("", user, version), events)
          case None => ctx.sshClient == None
          case Some(c) => ctx.sshClient == Some(ClientValue(Some(c))))
    decreases |events|
  {
    if |events| > 0 {
      RunInvariant(user, version, events[..|events| - 1]);
    }
  }

  /** Closing the connection at any point closes the client of the last
      successful authentication, once, and then the connection; with no
      successful authentication it only closes the connection. */
  lemma CloseClosesLastClient(user: string, version: string, events: seq<ConnEvent>, underlyingErr: Option<string>)
    ensures SshConnClose(Run(Accepted(user, version), events), underlyingErr).effects
      == (match LastDialed(DialConfig("", user, version), events)
          case None => []
          case Some(c) => [CloseClient(c)]) + [CloseUnderlying]
  {
    RunInvariant(user, version, events);
  }

  /** On any reachable context the handler never dereferences a nil client,
      and a supported, accepted channel reports the client missing exactly
      when no authentication has succeeded. */
  lemma ReachableChannelOpens(user: string, version: string, events: seq<ConnEvent>, nc: NewChannel, env: ChannelEnv)
    ensures var r := ChannelHandler(nc, Run(Accepted(user, version), events), env);
      && NilClientPanic !in r
      && (Supported(nc.chanType) && env.acceptOk ==>
            (Report(ClientMissing) in r <==> LastDialed(DialConfig("", user, version), events).None?))
  {
    RunInvariant(user, version, events);
    ChannelOpenWithStoredClient(nc, Run(Accepted(user, version), events), env);
  }

  /** The handler on a context whose client slot is unset or holds a
      non-nil client. */
  lemma ChannelOpenWithStoredClient(nc: NewChannel, ctx: Context, env: ChannelEnv)
    requires ctx.sshClient.None? || (ctx.sshClient.value.ClientValue? && ctx.sshClient.value.ptr.Some?)
    ensures var r := ChannelHandler(nc, ctx, env);
      && NilClientPanic !in r
      && (Supported(nc.chanType) && env.acceptOk ==> (Report(ClientMissing) in r <==> ctx.sshClient.None?))
  {
    if !Supported(nc.chanType) {
      UnsupportedChannelRejected(nc, ctx, env);
    } else if !env.acceptOk {
      assert ChannelHandler(nc, ctx, env) == [Report(AcceptFailed)];
    } else if ctx.sshClient.Some? {
      StoredClientPath(nc, ctx, env, ctx.sshClient.value.ptr.value);
    } else {
      AcceptedWithoutClient(nc, ctx, env);
    }
  }

  /** The accepted path with a stored non-nil client neither panics nor
      reports the client missing. */
  lemma StoredClientPath(nc: NewChannel, ctx: Context, env: ChannelEnv, c: ClientId)
    requires Supported(nc.chanType) && env.acceptOk
    requires ctx.sshClient == Some(ClientValue(Some(c)))
    ensures NilClientPanic !in ChannelHandler(nc, ctx, env)
    ensures Report(ClientMissing) !in ChannelHandler(nc, ctx, env)
  {
    OpenedShape(nc, ctx, env, c);
  }

  /** A second successful authentication overwrites the stored client, so
      the first outbound client is not closed when the connection closes. */
  lemma SecondAuthOrphansFirstClient(user: string, version: string, d1: Dialer, d2: Dialer, c1: ClientId, c2: ClientId)
    requires d1(DialConfig("", user, version)) == Some(c1)
    requires d2(DialConfig("", user, version)) == Some(c2)
    requires c1 != c2
    ensures CloseClient(c1) !in SshConnClose(Run(Accepted(user, version), [Authenticate(d1), Authenticate(d2)]), None).effects
  {
    var events := [Authenticate(d1), Authenticate(d2)];
    assert events[..1] == [Authenticate(d1)];
    assert events[..1][..0] == [];
    CloseClosesLastClient(user, version, events, None);
  }
}
