/** The channel-open handler of the SSH proxy (`channelHandler` in
    sshproxy/sshproxy_unix.go): which channel types are accepted, what is
    opened on the outbound client, and which channels are closed on every
    exit path. Channel types and reasons are those of the SSH connection
    protocol, RFC 4254 (sections 5.1, 6.1 and 7.2). */
module ProxyChannel {
  import opened Wrappers
  import opened ProxyContext

  /** Reason codes of SSH_MSG_CHANNEL_OPEN_FAILURE, section 5.1 of RFC 4254.
      Only `UnknownChannelType` is used by the proxy; the others complete the
      list of codes. */
  newtype RejectionReason = x: int | 1 <= x <= 4 witness 3
  const AdministrativelyProhibited: RejectionReason := 1
  const ConnectionFailed: RejectionReason := 2
  const UnknownChannelType: RejectionReason := 3
  const ResourceShortage: RejectionReason := 4

  /** An inbound channel-open request: its type and type-specific data. */
  datatype NewChannel = NewChannel(chanType: string, extraData: Bytes)

  /** What the SSH library and the outbound client do with the calls the
      handler makes: whether rejecting fails, whether accepting the inbound
      channel succeeds, whether opening the outbound channel succeeds. */
  datatype ChannelEnv = ChannelEnv(rejectFails: bool, acceptOk: bool, remoteOpenOk: bool)

  /** One step of the handler, in the order it happens. */
  datatype ChanEffect =
    | Reject(reason: RejectionReason, message: string)
    | AcceptLocal
    | OpenRemote(client: ClientId, chanType: string, extraData: Bytes)
    | Bridge                      // `proxyChannel` runs on the accepted pair
    | CloseRemote
    | CloseLocal
    | Report(err: ProxyError)
    | NilClientPanic              // `OpenChannel` called on a nil client

  /** The channel types the proxy relays: "session" (section 6.1 of RFC 4254)
      and "direct-tcpip" (section 7.2 of RFC 4254). */
  predicate Supported(chanType: string): (r: bool)
    ensures r <==> chanType in {"session", "direct-tcpip"}
  {
    chanType == "session" || chanType == "direct-tcpip"
  }

  /** The diagnostic text sent back with a rejection. */
  function RejectMessage(chanType: string): (r: string)
    ensures |r| == |chanType| + 30
    ensures r[13..13 + |chanType|] == chanType
    ensures r[..13] == "channel type " && r[13 + |chanType|..] == " is not supported"
  {
    "channel type " + chanType + " is not supported"
  }

  /** The handler as written: reject unknown types; otherwise accept, fetch
      the client (only the type assertion is checked), open the same channel
      outbound and bridge the pair, with the deferred closes running in
      reverse order on the way out. */
  function ChannelHandler(nc: NewChannel, ctx: Context, env: ChannelEnv): (r: seq<ChanEffect>)
    ensures |r| >= 1
    ensures !Supported(nc.chanType) ==>
      r[0] == Reject(UnknownChannelType, RejectMessage(nc.chanType))
      && (forall e :: e in r ==> !e.AcceptLocal? && !e.OpenRemote?)
    ensures Supported(nc.chanType) ==> (r[0] == AcceptLocal <==> env.acceptOk)
    ensures Supported(nc.chanType) && !env.acceptOk ==> r == [Report(AcceptFailed)]
  {
    if !Supported(nc.chanType) then
      [Reject(UnknownChannelType, RejectMessage(nc.chanType))]
      + (if env.rejectFails then [Report(RejectFailed)] else [])
    else if !env.acceptOk then
      [Report(AcceptFailed)]
    else
      [AcceptLocal] + AfterAccept(nc, ctx, env) + [CloseLocal]
  }

  /** The part of the handler between accepting the inbound channel and the
      deferred close of it. */
  function AfterAccept(nc: NewChannel, ctx: Context, env: ChannelEnv): (r: seq<ChanEffect>)
    ensures AcceptLocal !in r && CloseLocal !in r
  {
    var (client, ok) := AsClient(ctx.sshClient);
    if !ok then [Report(ClientMissing)]
    else if client.None? then [NilClientPanic]
    else
      [OpenRemote(client.value, nc.chanType, nc.extraData)]
      + (if env.remoteOpenOk then [Bridge, CloseRemote] else [Report(RemoteOpenFailed)])
  }

  /** How many times `e` occurs in `s`. */
  function Occurrences(s: seq<ChanEffect>, e: ChanEffect): nat
  {
    multiset(s)[e]
  }

  /** The resource discipline the handler keeps: the inbound channel is closed
      exactly once and last if and only if it was accepted, and the outbound
      channel is closed exactly once, before the inbound one, if and only if
      an open was attempted and succeeded. */
  ghost predicate Balanced(r: seq<ChanEffect>, env: ChannelEnv)
  {
    && Occurrences(r, AcceptLocal) <= 1
    && (AcceptLocal in r <==> CloseLocal in r)
    && (AcceptLocal in r ==> Occurrences(r, CloseLocal) == 1 && r[|r| - 1] == CloseLocal)
    && (CloseRemote in r <==> (exists i :: 0 <= i < |r| && r[i].OpenRemote?) && env.remoteOpenOk)
    && (CloseRemote in r ==> Occurrences(r, CloseRemote) == 1
                             && r[|r| - 2] == CloseRemote)
  }

  /** Every exit path of the handler leaves the channels balanced, including
      a missing client and a failed outbound open. */
  lemma ChannelHandlerBalanced(nc: NewChannel, ctx: Context, env: ChannelEnv)
    ensures Balanced(ChannelHandler(nc, ctx, env), env)
  {
    var r := ChannelHandler(nc, ctx, env);
    if !Supported(nc.chanType) {
      assert forall i :: 0 <= i < |r| ==> r[i].Reject? || r[i].Report?;
    } else if !env.acceptOk {
      assert r == [Report(AcceptFailed)];
    } else if ctx.sshClient.Some? && ctx.sshClient.value.ClientValue? && ctx.sshClient.value.ptr.Some? {
      SupportedChannelMirrored(nc, ctx, env, ctx.sshClient.value.ptr.value);
    } else {
      AcceptedWithoutClient(nc, ctx, env);
    }
  }

  /** With no usable client, the accepted inbound channel is closed and
      nothing is opened outbound. */
  lemma AcceptedWithoutClient(nc: NewChannel, ctx: Context, env: ChannelEnv)
    requires Supported(nc.chanType) && env.acceptOk
    requires !(ctx.sshClient.Some? && ctx.sshClient.value.ClientValue? && ctx.sshClient.value.ptr.Some?)
    ensures var r := ChannelHandler(nc, ctx, env);
      && Balanced(r, env)
      && r == [AcceptLocal, if AsClient(ctx.sshClient).1 then NilClientPanic else Report(ClientMissing), CloseLocal]
  {
    var r := ChannelHandler(nc, ctx, env);
    var middle := if AsClient(ctx.sshClient).1 then NilClientPanic else Report(ClientMissing);
    assert AfterAccept(nc, ctx, env) == [middle];
    assert r == [AcceptLocal, middle, CloseLocal];
    BalancedWithoutOpen(r, middle, env);
  }

  /** The exit paths that accept the inbound channel but never open an
      outbound one close only the inbound channel. */
  lemma BalancedWithoutOpen(r: seq<ChanEffect>, middle: ChanEffect, env: ChannelEnv)
    requires middle.Report? || middle.NilClientPanic?
    requires r == [AcceptLocal, middle, CloseLocal]
    ensures Balanced(r, env)
  {
    assert multiset(r) == multiset{AcceptLocal, middle, CloseLocal};
  }

  /** The exit paths that open an outbound channel close it, when the open
      succeeded, before the inbound one. */
  lemma BalancedWithOpen(r: seq<ChanEffect>, open: ChanEffect, env: ChannelEnv)
    requires open.OpenRemote?
    requires env.remoteOpenOk ==> r == [AcceptLocal, open, Bridge, CloseRemote, CloseLocal]
    requires !env.remoteOpenOk ==> r == [AcceptLocal, open, Report(RemoteOpenFailed), CloseLocal]
    ensures Balanced(r, env)
    ensures Occurrences(r, open) == 1
    ensures forall i :: 0 <= i < |r| && r[i].OpenRemote? ==> r[i] == open
    ensures Bridge in r <==> env.remoteOpenOk
  {
    if env.remoteOpenOk {
      assert multiset(r) == multiset{AcceptLocal, open, Bridge, CloseRemote, CloseLocal};
    } else {
      assert multiset(r) == multiset{AcceptLocal, open, Report(RemoteOpenFailed), CloseLocal};
    }
    assert r[1].OpenRemote?;
  }

  /** A supported channel with a stored client is mirrored by exactly one
      outbound open of the same type and extra data, on that client, and the
      pair is bridged exactly when that open succeeds. */
  lemma SupportedChannelMirrored(nc: NewChannel, ctx: Context, env: ChannelEnv, client: ClientId)
    requires Supported(nc.chanType) && env.acceptOk
    requires ctx.sshClient == Some(ClientValue(Some(client)))
    ensures var r := ChannelHandler(nc, ctx, env);
      && Balanced(r, env)
      && (forall i :: 0 <= i < |r| && r[i].OpenRemote? ==>
            r[i] == OpenRemote(client, nc.chanType, nc.extraData))
      && Occurrences(r, OpenRemote(client, nc.chanType, nc.extraData)) == 1
      && (Bridge in r <==> env.remoteOpenOk)
  {
    var r := ChannelHandler(nc, ctx, env);
    var open := OpenRemote(client, nc.chanType, nc.extraData);
    OpenedShape(nc, ctx, env, client);
    if env.remoteOpenOk {
      assert r == [AcceptLocal, open, Bridge, CloseRemote, CloseLocal];
    } else {
      assert r == [AcceptLocal, open, Report(RemoteOpenFailed), CloseLocal];
    }
    BalancedWithOpen(r, open, env);
  }

  /** The effects of the paths that reach the outbound open. */
  lemma OpenedShape(nc: NewChannel, ctx: Context, env: ChannelEnv, client: ClientId)
    requires Supported(nc.chanType) && env.acceptOk
    requires ctx.sshClient == Some(ClientValue(Some(client)))
    ensures var open := OpenRemote(client, nc.chanType, nc.extraData);
      ChannelHandler(nc, ctx, env)
      == if env.remoteOpenOk then [AcceptLocal, open, Bridge, CloseRemote, CloseLocal]
         else [AcceptLocal, open, Report(RemoteOpenFailed), CloseLocal]
  {
    var open := OpenRemote(client, nc.chanType, nc.extraData);
    if env.remoteOpenOk {
      assert AfterAccept(nc, ctx, env) == [open, Bridge, CloseRemote];
    } else {
      assert AfterAccept(nc, ctx, env) == [open, Report(RemoteOpenFailed)];
    }
  }

  /** A rejected channel type opens nothing, reports at most the failure to
      reject, and is never closed (it was never open). */
  lemma UnsupportedChannelRejected(nc: NewChannel, ctx: Context, env: ChannelEnv)
    requires !Supported(nc.chanType)
    ensures ChannelHandler(nc, ctx, env)
      == [Reject(UnknownChannelType, RejectMessage(nc.chanType))]
         + (if env.rejectFails then [Report(RejectFailed)] else [])
    ensures forall e :: e in ChannelHandler(nc, ctx, env) ==> e.Reject? || e == Report(RejectFailed)
  {
  }
}
