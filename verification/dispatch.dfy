/** `Proxy::proxy` as a whole: the gate's verdict becomes a response, and
    an admitted CONNECT is acknowledged at once while its tunnel runs as a
    detached task (`Proxy::process_connect`). */
module Dispatch {
  import opened Base
  import opened Headers
  import opened Gate
  import opened Tunnel

  datatype Response = Response(status: nat, headers: HeaderList, body: Bytes)

  /** `Response::new(Body::empty())`: status 200, no headers, no body. */
  const EmptyOk: Response := Response(200, [], [])

  /** The 400 answer the gate builds: no headers, no body. */
  const EmptyBadRequest: Response := Response(400, [], [])

  /** An error of the outbound HTTP client on the forwarding path. */
  datatype ClientError = ClientError

  /** Everything outside the gate that a request meets: the response of
      `require_basic_auth`, name resolution, whether the connection upgrade
      succeeds, what each tunnel socket does, the relay outcome, and the
      result of forwarding a plain request. */
  datatype Environment = Environment(
    basicAuthChallenge: Response,
    resolve: string -> Option<seq<SocketAddr>>,
    upgraded: bool,
    world: nat -> Probe,
    relay: IoOutcome,
    forwarded: Result<Response, ClientError>)

  /** What handling one request produces: the response to the client, and
      the report of the tunnel task when one ran. */
  datatype Handled = Handled(response: Result<Response, ClientError>, tunnel: Option<Report>)

  /** `Proxy::process_connect`: the empty 200 answer is returned whatever
      the detached tunnel later does. That spawned work unwraps the URI authority and
      the upgrade; when either is missing it stops before any socket. */
  function ProcessConnect(req: Request, env: Environment): (h: Handled)
    ensures h.response == Ok(Response(200, [], []))
    ensures h.tunnel.Some? <==> req.authority.Some? && env.upgraded
    ensures h.tunnel.Some? ==>
      h.tunnel.value == Tunnel.Tunnel(env.resolve(req.authority.value), env.world, env.relay)
    ensures h.tunnel.Some? && env.resolve(req.authority.value).None? ==>
      h.tunnel.value == Report([], Unresolved)
  {
    var task :=
      if req.authority.Some? && env.upgraded
      then Some(Tunnel.Tunnel(env.resolve(req.authority.value), env.world, env.relay))
      else None;
    Handled(Ok(EmptyOk), task)
  }

  /** `Proxy::proxy`: the gate, then the handler for the request's method. */
  function Proxy(req: Request, p: Policy, noHttpToken: bool, u: Utils, env: Environment): (h: Handled)
    ensures !HostPasses(req, p, u) || !TokenPasses(req, p, noHttpToken, u) ==>
      h == Handled(Ok(Response(400, [], [])), None)
    ensures HostPasses(req, p, u) && TokenPasses(req, p, noHttpToken, u) && !CredentialsPass(req, p, u) ==>
      h == Handled(Ok(env.basicAuthChallenge), None)
    ensures Admitted(req, p, noHttpToken, u) && req.verb == ConnectMethod ==>
      h == ProcessConnect(req, env) && h.response == Ok(Response(200, [], []))
    ensures Admitted(req, p, noHttpToken, u) && req.verb != ConnectMethod ==>
      h == Handled(env.forwarded, None)
    ensures h.tunnel.Some? ==> Admitted(req, p, noHttpToken, u) && req.verb == ConnectMethod
  {
    match Check(req, p, noHttpToken, u)
    case BadRequest => Handled(Ok(EmptyBadRequest), None)
    case ProxyAuthRequired => Handled(Ok(env.basicAuthChallenge), None)
    case ToConnect => ProcessConnect(req, env)
    case ToForward => Handled(env.forwarded, None)
  }

  /** With `example.org` the only allowed host, a CONNECT to `evil.com:443`
      is answered 400 and no socket is opened. */
  lemma DisallowedHostScenario(u: Utils, env: Environment, hs: HeaderList, p: Policy, noHttpToken: bool)
    requires p.allowedHosts == ["example.org"]
    requires !u.isHostAllowed("evil.com", ["example.org"])
    ensures Proxy(Request("CONNECT", Some("evil.com"), Some("evil.com:443"), hs), p, noHttpToken, u, env)
            == Handled(Ok(Response(400, [], [])), None)
  {
  }

  /** With no allowlists and no token, a CONNECT to a reachable
      `example.org:443` is acknowledged and relayed through the first
      candidate. */
  lemma OpenProxyScenario(u: Utils, env: Environment, hs: HeaderList, noHttpToken: bool,
                          target: SocketAddr)
    requires env.upgraded
    requires env.resolve("example.org:443") == Some([target])
    requires env.world(0).socketCreated && Reaches(env.world(0))
    ensures var h := Proxy(Request("CONNECT", Some("example.org"), Some("example.org:443"), hs),
                           Policy([], [], ""), noHttpToken, u, env);
      h.response == Ok(Response(200, [], []))
      && h.tunnel == Some(Report([Attempt(target, env.world(0).local, true, true)], Relayed(env.relay)))
  {
    FirstReachableCandidateWins([target], env.world, env.relay, 0);
  }
}
