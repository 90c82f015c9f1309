/** Forwarding of channel requests between the two halves of a proxied
    channel (`forwardChannelRequest` and `proxyChannelStreams` in
    sshproxy/sshproxy_unix.go). Channel requests are those of section 5.4 of
    RFC 4254. The loop's `select` over the two request streams and the done
    signal is replaced by the sequence of events it happened to observe, so
    the loop becomes a fold over that trace. */
module ProxyRelay {
  import opened Wrappers
  import opened ProxyContext

  /** A channel request: its type, whether the sender wants a reply, and its
      payload. */
  datatype Request = Request(reqType: string, wantReply: bool, payload: Bytes)

  /** A reply sent back to the requester: success flag and payload (`None`
      is Go's nil). */
  datatype Reply = Reply(ok: bool, payload: Option<Bytes>)

  /** What the channel a request is forwarded to does with it: `SendRequest`
      fails, or it returns the peer's boolean answer. */
  datatype SendOutcome = SendError | PeerAnswered(ok: bool)

  /** The behaviour of the two SSH calls made while forwarding one request:
      sending it on the peer channel, and replying to the original. */
  datatype ForwardEnv = ForwardEnv(send: SendOutcome, replyFails: bool)

  /** What forwarding one request did: the request sent to the peer, the
      reply given to the original sender (if the reply call was made), and
      the error returned. */
  datatype ForwardStep = ForwardStep(sent: Request, reply: Option<Reply>, err: Option<ForwardError>)

  /** `forwardChannelRequest`: send the request unchanged on the peer
      channel; if that fails, return an error without replying; otherwise
      reply to the original with the peer's boolean and a nil payload. */
  function ForwardChannelRequest(req: Request, env: ForwardEnv): (r: ForwardStep)
    ensures r.sent == req
    ensures r.err.None? ==> env.send.PeerAnswered? && r.reply == Some(Reply(env.send.ok, None))
    ensures env.send.SendError? <==> r.err == Some(SendFailed)
    ensures env.send.SendError? ==> r.reply.None?
    ensures env.send.PeerAnswered? ==>
      r.reply == Some(Reply(env.send.ok, None)) && (r.err.Some? <==> env.replyFails)
    ensures r.err.Some? && env.send.PeerAnswered? ==> r.err == Some(ReplyFailed)
  {
    match env.send
    case SendError => ForwardStep(req, None, Some(SendFailed))
    case PeerAnswered(ok) =>
      ForwardStep(req, Some(Reply(ok, None)), if env.replyFails then Some(ReplyFailed) else None)
  }

  /** The two halves of a proxied channel. */
  datatype Side = Local | Remote

  function Peer(s: Side): Side
  {
    match s
    case Local => Remote
    case Remote => Local
  }

  /** One observation of the loop's `select`. */
  datatype RelayEvent =
    /** A request arrived on `from`'s request stream; `env` says how
        forwarding it to the other side goes. */
    | Incoming(from: Side, req: Request, env: ForwardEnv)
    /** `from`'s request stream yielded nil (it was closed). */
    | Closed(from: Side)
    /** A completion post arrived on the done signal. */
    | DonePost

  /** Why the loop returned, or `Waiting` if the trace ran out first. */
  datatype StopReason = StreamClosed(side: Side) | DoneSignalled | ForwardFailure | Waiting

  /** A request forwarded to side `to`. */
  datatype Forwarded = Forwarded(to: Side, step: ForwardStep)

  /** What the loop did with a trace: the forwards in order, the errors it
      reported, how many events it consumed, and why it stopped. */
  datatype RelayResult = RelayResult(
    forwarded: seq<Forwarded>,
    errors: seq<ProxyError>,
    consumed: nat,
    stop: StopReason)

  /** The forward an incoming request leads to. */
  function ForwardOf(e: RelayEvent): Forwarded
    requires e.Incoming?
  {
    Forwarded(Peer(e.from), ForwardChannelRequest(e.req, e.env))
  }

  /** An event after which the loop goes on waiting: a request whose
      forwarding succeeds. */
  predicate Continues(e: RelayEvent)
  {
    e.Incoming? && ForwardChannelRequest(e.req, e.env).err.None?
  }

  /** The stop reason an ending event leads to. */
  function StopOf(e: RelayEvent): StopReason
    requires !Continues(e)
  {
    match e
    case Closed(s) => StreamClosed(s)
    case DonePost => DoneSignalled
    case Incoming(_, _, _) => ForwardFailure
  }

  /** The loop's behaviour, as an independent description: the consumed
      events are a run of continuing events, ended by the first event that
      does not continue (if any); every consumed request is forwarded to the
      other side, in trace order; exactly one error is reported, and only
      when a forward failed. */
  ghost predicate RelaySpec(trace: seq<RelayEvent>, r: RelayResult)
  {
    && r.consumed <= |trace|
    && (forall i :: 0 <= i < r.consumed - 1 ==> Continues(trace[i]))
    && (r.stop == Waiting <==> (r.consumed == |trace| && forall i :: 0 <= i < |trace| ==> Continues(trace[i])))
    && (r.stop != Waiting ==>
          (r.consumed >= 1 && !Continues(trace[r.consumed - 1]) && r.stop == StopOf(trace[r.consumed - 1])))
    && |r.forwarded| == (if r.stop.StreamClosed? || r.stop.DoneSignalled? then r.consumed - 1 else r.consumed)
    && (forall i :: 0 <= i < |r.forwarded| ==> trace[i].Incoming? && r.forwarded[i] == ForwardOf(trace[i]))
    && (r.stop == ForwardFailure ==>
          |r.errors| == 1 && r.errors[0] == ForwardFailed(r.forwarded[|r.forwarded| - 1].step.err.value))
    && (r.stop != ForwardFailure ==> r.errors == [])
  }

  /** `proxyChannelStreams` as a fold over the observed trace: forward each
      local request to the remote side and each remote request to the local
      side; return at the first nil request, the first done post, or the
      first forwarding error, reporting that error. */
  function Relay(trace: seq<RelayEvent>): (r: RelayResult)
    ensures r.consumed <= |trace|
    ensures |r.forwarded| <= r.consumed
    ensures |r.errors| <= 1
    ensures r.stop == Waiting ==> r.consumed == |trace|
    decreases |trace|
  {
    if |trace| == 0 then RelayResult([], [], 0, Waiting)
    else
      match trace[0]
      case Closed(s) => RelayResult([], [], 1, StreamClosed(s))
      case DonePost => RelayResult([], [], 1, DoneSignalled)
      case Incoming(from, req, env) =>
        var f := ForwardOf(trace[0]);
        if f.step.err.Some? then
          RelayResult([f], [ForwardFailed(f.step.err.value)], 1, ForwardFailure)
        else
          var rest := Relay(trace[1..]);
          RelayResult([f] + rest.forwarded, rest.errors, rest.consumed + 1, rest.stop)
  }

  /** The fold meets the independent description of the loop. */
  lemma {:induction false} RelayMeetsSpec(trace: seq<RelayEvent>)
    ensures RelaySpec(trace, Relay(trace))
    decreases |trace|
  {
    if |trace| > 0 && Continues(trace[0]) {
      var tail := trace[1..];
      RelayMeetsSpec(tail);
      var rest := Relay(tail);
      var r := Relay(trace);
      assert r.forwarded == [ForwardOf(trace[0])] + rest.forwarded;
      assert forall i :: 1 <= i < |trace| ==> trace[i] == tail[i - 1];
      assert forall i :: 1 <= i < |r.forwarded| ==> r.forwarded[i] == rest.forwarded[i - 1];
      if r.stop == Waiting {
        assert forall i :: 0 <= i < |trace| ==> Continues(trace[i]);
      }
    }
  }

  /** The loop as the source writes it: one `select` per iteration, with a
      return from inside the loop body. */
  method RelayLoop(trace: seq<RelayEvent>) returns (r: RelayResult)
    ensures r == Relay(trace)
  {
    var forwarded: seq<Forwarded> := [];
    var i := 0;
    while i < |trace|
      invariant 0 <= i <= |trace|
      invariant |forwarded| == i
      invariant forall j :: 0 <= j < i ==> Continues(trace[j]) && forwarded[j] == ForwardOf(trace[j])
      invariant Relay(trace) == var rest := Relay(trace[i..]);
        RelayResult(forwarded + rest.forwarded, rest.errors, i + rest.consumed, rest.stop)
    {
      assert trace[i..][1..] == trace[i + 1..];
      match trace[i]
      case Closed(s) =>
        return RelayResult(forwarded, [], i + 1, StreamClosed(s));
      case DonePost =>
        return RelayResult(forwarded, [], i + 1, DoneSignalled);
      case Incoming(from, req, env) =>
        var step := ForwardChannelRequest(req, env);
        if step.err.Some? {
          return RelayResult(forwarded + [Forwarded(Peer(from), step)], [ForwardFailed(step.err.value)],
                             i + 1, ForwardFailure);
        }
        forwarded := forwarded + [Forwarded(Peer(from), step)];
        i := i + 1;
    }
    r := RelayResult(forwarded, [], i, Waiting);
  }

  /** Once the loop has returned, later events are never looked at:
      extending the trace changes nothing. */
  lemma {:induction false} StoppedIgnoresRest(trace: seq<RelayEvent>, more: seq<RelayEvent>)
    requires Relay(trace).stop != Waiting
    ensures Relay(trace + more) == Relay(trace)
    decreases |trace|
  {
    assert (trace + more)[0] == trace[0];
    if Continues(trace[0]) {
      assert (trace + more)[1..] == trace[1..] + more;
      StoppedIgnoresRest(trace[1..], more);
    }
  }

  /** Requests from one side are all forwarded to the other side. */
  lemma ForwardDirection(trace: seq<RelayEvent>, i: nat)
    requires i < |Relay(trace).forwarded|
    ensures trace[i].Incoming?
    ensures Relay(trace).forwarded[i].to == Peer(trace[i].from)
    ensures Relay(trace).forwarded[i].step.sent == trace[i].req
  {
    RelayMeetsSpec(trace);
  }

  /** A single done post ends the loop, however many copy directions have
      yet to post: after a run of successful forwards, the first done post
      is the last event consumed. */
  lemma {:induction false} FirstDoneEndsLoop(prefix: seq<RelayEvent>, rest: seq<RelayEvent>)
    requires forall i :: 0 <= i < |prefix| ==> Continues(prefix[i])
    ensures var r := Relay(prefix + [DonePost] + rest);
      r.stop == DoneSignalled && r.consumed == |prefix| + 1 && |r.forwarded| == |prefix| && r.errors == []
    decreases |prefix|
  {
    var t := prefix + [DonePost] + rest;
    if |prefix| == 0 {
      assert t[0] == DonePost;
    } else {
      assert t[0] == prefix[0];
      assert t[1..] == prefix[1..] + [DonePost] + rest;
      FirstDoneEndsLoop(prefix[1..], rest);
    }
  }
}
