# proxerver request gate and CONNECT tunnel, in Dafny

This project models the decision logic of proxerver's HTTP proxy handler
(`src/http.rs`). It covers three pieces:

- **`Proxy::proxy`**: the access-control gate, and dispatch on the request method.
- **`Proxy::process_connect`**: the immediate acknowledgement of a CONNECT request.
- **`Proxy::tunnel`**: the candidate loop that picks the connection the CONNECT relay will use.

Modules:

- `Base` (`base.dfy`): `Option`, `Result`, bytes, Rust's whitespace class and the shape of a hex SHA-256 digest.
- `Text` (`text.dfy`): `HeaderValue::to_str().unwrap_or_default()`, and `str::trim` as a forward and a backward scan past whitespace.
- `Headers` (`headers.dfy`): `HeaderMap::get`. Names are compared without regard to ASCII case, and the first value stored under a name is the one returned.
- `Gate` (`gate.dfy`): the request, the policy, the verdict, and the gate itself.
  - `Check` applies the three checks in source order: host allowlist, then secret token, then credentials.
  - Its contract gives each verdict an if-and-only-if in terms of three separate predicates: `HostPasses`, `TokenPasses` and `CredentialsPass`.
- `Tunnel` (`tunnel.dfy`): resolution, then one attempt per candidate address until the first success.
- `Dispatch` (`dispatch.dfy`): `process_connect` and the composition of gate and handlers into `Proxy`.

Several helpers live in the utilities module, which is not part of this model:

- `is_host_allowed`, `is_allowed_credentials` and `to_sha256` are fields of the `Gate.Utils` datatype. Every lemma holds for any functions of those shapes.
- The response built by `require_basic_auth` is the `basicAuthChallenge` field of `Dispatch.Environment`.

The outside world is also taken as inputs to `Dispatch.Environment` and `Tunnel.Tunnel`:

- **`world: nat -> Probe`**, indexed by candidate position. It says whether `TcpSocket::new_v4` succeeds, which local address `get_rand_ipv4_socket_addr` draws, and whether bind and connect succeed.
- **`to_socket_addrs`**: the resolution result.
- **Connection upgrade**: whether it succeeds.
- **`copy_bidirectional`**: the relay's outcome.
- **`process_request`**: the result of forwarding a plain request.

The `no_http_token` option is a plain boolean argument.

Behaviour the model takes from the code as written, which a reader might expect otherwise:

- The alternate header `x-https-secret-token` satisfies the token check on presence alone, but only when `x-http-secret-token` is absent. A present but mismatching `x-http-secret-token` gives 400 even when the alternate header is also present (src/http.rs:55-69).
- A failure of `TcpSocket::new_v4` ends the whole tunnel task with an error (`?`, src/http.rs:125). It is not treated as a per-candidate failure.
- An I/O error of the relay is returned from the tunnel task (`?`, src/http.rs:130). Either way, no further candidate is tried after a relay starts.
- A CONNECT request without a URI authority, or whose upgrade fails, panics inside the spawned task (`unwrap`, src/http.rs:95-96). The client still has its 200 answer, and no socket is opened. The model records this as "no tunnel report".

The gate is a pure function of immutable inputs. Repeating it on the same request and policy therefore gives the same verdict by construction.

## Model

| member | source | states |
|---|---|---|
| Text.ToStrOrEmpty | src/http.rs:56 | a header value whose bytes are all visible ASCII or tab reads as exactly those characters (the bytes round-trip); any other value reads as the empty string |
| Text.Trim | src/http.rs:56-57 | the result has no whitespace at either end and is a contiguous slice of the input surrounded only by whitespace |
| Text.TrimRecoversCore | src/http.rs:56-57 | trimming a trimmed core surrounded by any whitespace returns exactly that core (trim characterised independently of its computation) |
| Text.TrimIdempotent | src/http.rs:56-57 | trimming twice equals trimming once |
| Headers.Get | src/http.rs:55 | lookup yields nothing iff no header has the name (ASCII case ignored), else the value of the first header with that name |
| Headers.GetIgnoresOtherHeader | src/http.rs:64 | inserting a header with a different name anywhere leaves the value found for a name unchanged |
| Headers.GetIsCaseInsensitive | src/http.rs:75 | two spellings of a name differing only in ASCII case find the same header |
| Gate.Check | src/http.rs:42-90 | 400 iff the host check or the token check fails; 407 iff both pass and the credential check fails; CONNECT dispatch iff all three pass and the method is CONNECT; forward dispatch iff all pass and the method is anything else |
| Gate.HostRejectionComesFirst | src/http.rs:43-50 | with a non-empty allowlist rejecting the URI host (empty when absent), every method and header set gets 400, so missing credentials never yield 407 |
| Gate.MismatchNotRescuedByAltHeader | src/http.rs:55-63 | with the token check active, a present but mismatching x-http-secret-token gives 400 even when x-https-secret-token is also present |
| Gate.AltHeaderAcceptedOnPresence | src/http.rs:64-69 | with the token check active and x-http-secret-token absent, an x-https-secret-token of any value passes the token check, so a request passing host and credentials is dispatched |
| Gate.MissingTokenRejected | src/http.rs:64-69 | with the token check active, a request with neither token header gets 400 |
| Gate.GateHeaderNamesDistinct | src/http.rs:55-75 | the three header names the gate reads (x-http-secret-token, x-https-secret-token, proxy-authorization) denote distinct headers |
| Gate.TokenHeadersIgnoredWhenInactive | src/http.rs:52-54 | with an empty secret or no_http_token set, inserting either token header anywhere in the request does not change the verdict |
| Gate.CredentialsIgnoredWhenNoneConfigured | src/http.rs:72-74 | with no credentials configured, inserting a Proxy-Authorization header anywhere does not change the verdict |
| Gate.DigestHeaderReadsBack | src/http.rs:56 | a header carrying a 64-digit hex digest reads back, after to_str and trim, as the digest itself |
| Gate.HashedSecretAdmitted | src/http.rs:52-63 | secret "abc" and the hex digest of "abc" in x-http-secret-token, with no other check configured: the request is dispatched |
| Gate.UnhashedSecretRejected | src/http.rs:55-63 | secret "abc" with the unhashed "abc" in x-http-secret-token gives 400 |
| Tunnel.Returned | src/http.rs:119-139 | the tunnel task returns an error iff socket creation failed or the relay failed; an unresolvable authority and exhausted candidates both return Ok |
| Tunnel.TryFrom | src/http.rs:124-134 | from position i the attempts are the candidates i, i+1, ... in order, each with its own draw; every earlier attempt failed; the loop relays iff the last attempt bound and connected; otherwise it stopped at a socket-creation failure or at the end of the list |
| Tunnel.Tunnel | src/http.rs:123-139 | a failed resolution makes no attempt; otherwise attempts follow resolution order with the k-th draw for the k-th candidate, only the last attempt may succeed, relay iff it did, socket error only where socket creation failed, exhaustion only after every candidate |
| Tunnel.OnlyLastAttemptSucceeds | src/http.rs:128-132 | two successful attempts are the same attempt, the last one, and the tunnel then relays: at most one connection reaches the relay |
| Tunnel.FirstReachableCandidateWins | src/http.rs:124-132 | when every socket up to j is created, all earlier candidates fail and candidate j binds and connects, exactly j+1 attempts are made and candidate j is relayed |
| Tunnel.ThirdOfThreeCandidates | src/http.rs:123-134 | three candidates with a failed bind, then a failed connect, then success: three attempts in order, each from its own draw, and only the third is relayed |
| Dispatch.ProcessConnect | src/http.rs:93-101 | the answer is always the empty 200 response whatever the tunnel does; the tunnel runs iff the authority is present and the upgrade succeeds, and then it is exactly the tunnel loop on the resolution of the request's own authority; an unresolvable authority opens no socket |
| Dispatch.Proxy | src/http.rs:42-90 | a host or token failure gives the empty 400 with no tunnel; a credential failure gives the Basic challenge with no tunnel; an admitted CONNECT is handled exactly by ProcessConnect (empty 200, tunnel on its authority); any other admitted method gets the forwarded result; a tunnel runs only for an admitted CONNECT |
| Dispatch.DisallowedHostScenario | src/http.rs:43-50 | with only example.org allowed, CONNECT evil.com:443 gets 400 and no socket is opened |
| Dispatch.OpenProxyScenario | src/http.rs:86-134 | with an empty policy, CONNECT example.org:443 resolving to one reachable address is acknowledged with 200 and relayed through that address |

## Left out

- `Proxy::process_request` (src/http.rs:104-117): forwarding a plain request through hyper's client and `get_current_server_ip` is network I/O. Its result is an input (`Environment.forwarded`).
- `start_proxy` (src/http.rs:143-182): the hyper server, the service factory and the `Arc<Mutex<…>>` wrappers. These are connection plumbing and synchronisation around data never written, so the policy is an immutable value.
- `copy_bidirectional`, `tokio::task::spawn` and `hyper::upgrade::on` (src/http.rs:94-98, 130): concurrent byte copying. Only "the relay starts on the chosen connection", and its outcome, are modelled.
- `Opt::parse` (src/http.rs:40): command-line parsing. `no_http_token` is a boolean argument.
- `println!` logging (src/http.rs:34-38, 136).
- `is_host_allowed`, `is_allowed_credentials`, `to_sha256`, `require_basic_auth` and `get_rand_ipv4_socket_addr`: the utilities module is not part of this model. They are uninterpreted inputs, so host matching and credential parsing are not pinned down.
- Request details the gate does not read (HTTP version, body, header ordering on the wire) are not represented.
- Socket addresses are opaque values. IPv4/IPv6 families and the connect timeout are not modelled: a connect from an IPv4 socket that does not succeed is a connect failure like any other.
- Request host and authority: the model takes the URI host (src/http.rs:43) and the URI authority (src/http.rs:95) as two independent inputs, while `http::Uri` derives the host from the authority. No stated property depends on their agreement, but "the tunnel target is the host that passed the allowlist" is not stated.
- Digest shape: `HashedSecretAdmitted` and `UnhashedSecretRejected` assume the unseen `to_sha256` returns 64 hex digits (either case); its real output format is not part of this model.
