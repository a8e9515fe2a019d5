/** The access-control gate at the head of `Proxy::proxy`: host allowlist,
    then secret token, then proxy credentials, the first failing check
    deciding the answer; a request that passes all three is dispatched on
    its method. */
module Gate {
  import opened Base
  import opened Text
  import opened Headers

  /** The parts of an inbound request the gate and the dispatcher read.
      `host` and `authority` are those of the request URI, absent when the
      URI has none. */
  datatype Request = Request(verb: string, host: Option<string>, authority: Option<string>,
                             headers: HeaderList)

  /** The startup configuration: `login:password` entries, allowed host
      names and the secret token (empty when disabled). */
  datatype Policy = Policy(allowedCredentials: seq<string>, allowedHosts: seq<string>,
                           secretToken: string)

  /** The helpers of the utilities module, whose definitions are not part of
      this model: any functions of these shapes may be supplied. */
  datatype Utils = Utils(isHostAllowed: (string, seq<string>) -> bool,
                         isAllowedCredentials: (string, seq<string>) -> bool,
                         toSha256: string -> string)

  /** What the gate decides: reject with 400, reject with the 407 Basic
      challenge, or pass the request on to the CONNECT or the forwarding
      handler. */
  datatype Verdict = BadRequest | ProxyAuthRequired | ToConnect | ToForward

  const ConnectMethod: string := "CONNECT"

  /** The URI host, or the empty string when the URI has none. */
  function TargetHost(req: Request): string {
    req.host.GetOr("")
  }

  /** The token check runs only with a secret configured and not switched
      off for the plain-HTTP listener. */
  predicate TokenCheckActive(p: Policy, noHttpToken: bool) {
    p.secretToken != "" && !noHttpToken
  }

  predicate HostPasses(req: Request, p: Policy, u: Utils) {
    p.allowedHosts == [] || u.isHostAllowed(TargetHost(req), p.allowedHosts)
  }

  /** A token header value, read as text and trimmed, is the digest of the
      trimmed secret. */
  predicate TokenValueMatches(v: Bytes, secret: string, u: Utils) {
    Trim(ToStrOrEmpty(v)) == u.toSha256(Trim(secret))
  }

  /** The hashed-token header is present and its value matches. */
  predicate HashedTokenMatches(req: Request, p: Policy, u: Utils) {
    var t := Get(req.headers, SecretTokenHeader);
    t.Some? && TokenValueMatches(t.value, p.secretToken, u)
  }

  /** The alternate header stands in for the hashed token, whatever its
      value, but only when the hashed-token header is absent. */
  predicate AltTokenStandsIn(req: Request) {
    Get(req.headers, SecretTokenHeader).None? && Get(req.headers, AltSecretTokenHeader).Some?
  }

  predicate TokenPasses(req: Request, p: Policy, noHttpToken: bool, u: Utils) {
    !TokenCheckActive(p, noHttpToken) || HashedTokenMatches(req, p, u) || AltTokenStandsIn(req)
  }

  predicate CredentialsPass(req: Request, p: Policy, u: Utils) {
    var a := Get(req.headers, ProxyAuthorization);
    p.allowedCredentials == []
    || (a.Some? && u.isAllowedCredentials(ToStrOrEmpty(a.value), p.allowedCredentials))
  }

  predicate Admitted(req: Request, p: Policy, noHttpToken: bool, u: Utils) {
    HostPasses(req, p, u) && TokenPasses(req, p, noHttpToken, u) && CredentialsPass(req, p, u)
  }

  /** The gate, checks in source order with an early answer on the first
      failure. */
  function Check(req: Request, p: Policy, noHttpToken: bool, u: Utils): (v: Verdict)
    ensures v == BadRequest <==> !HostPasses(req, p, u) || !TokenPasses(req, p, noHttpToken, u)
    ensures v == ProxyAuthRequired <==>
      HostPasses(req, p, u) && TokenPasses(req, p, noHttpToken, u) && !CredentialsPass(req, p, u)
    ensures v == ToConnect <==> Admitted(req, p, noHttpToken, u) && req.verb == ConnectMethod
    ensures v == ToForward <==> Admitted(req, p, noHttpToken, u) && req.verb != ConnectMethod
  {
    var host := req.host.GetOr("");
    if p.allowedHosts != [] && !u.isHostAllowed(host, p.allowedHosts) then BadRequest
    else if p.secretToken != [] && !noHttpToken
            && (match Get(req.headers, SecretTokenHeader)
                case Some(v) => !TokenValueMatches(v, p.secretToken, u)
                case None => Get(req.headers, AltSecretTokenHeader).None?)
    then BadRequest
    else if p.allowedCredentials != []
            && (match Get(req.headers, ProxyAuthorization)
                case Some(v) => !u.isAllowedCredentials(ToStrOrEmpty(v), p.allowedCredentials)
                case None => true)
    then ProxyAuthRequired
    else if req.verb == ConnectMethod then ToConnect
    else ToForward
  }

  /** A host outside a non-empty allowlist is answered 400 whatever the
      method and headers, so a missing credential never turns it into 407. */
  lemma HostRejectionComesFirst(req: Request, p: Policy, noHttpToken: bool, u: Utils)
    requires p.allowedHosts != [] && !u.isHostAllowed(TargetHost(req), p.allowedHosts)
    ensures forall m: string, hs: HeaderList ::
      Check(Request(m, req.host, req.authority, hs), p, noHttpToken, u) == BadRequest
  {
  }

  /** A mismatching hashed token is answered 400 even when the alternate
      header is present too. */
  lemma MismatchNotRescuedByAltHeader(req: Request, p: Policy, noHttpToken: bool, u: Utils)
    requires TokenCheckActive(p, noHttpToken)
    requires Get(req.headers, SecretTokenHeader).Some?
    requires Get(req.headers, AltSecretTokenHeader).Some?
    requires !HashedTokenMatches(req, p, u)
    ensures Check(req, p, noHttpToken, u) == BadRequest
  {
  }

  /** With the token check active, the alternate header alone, whatever its
      value, satisfies it when the hashed-token header is absent. */
  lemma AltHeaderAcceptedOnPresence(req: Request, p: Policy, noHttpToken: bool, u: Utils)
    requires TokenCheckActive(p, noHttpToken)
    requires Get(req.headers, SecretTokenHeader).None?
    requires Get(req.headers, AltSecretTokenHeader).Some?
    requires HostPasses(req, p, u) && CredentialsPass(req, p, u)
    ensures Check(req, p, noHttpToken, u) in {ToConnect, ToForward}
  {
  }

  /** With the token check active, a request carrying neither token header
      is answered 400. */
  lemma MissingTokenRejected(req: Request, p: Policy, noHttpToken: bool, u: Utils)
    requires TokenCheckActive(p, noHttpToken)
    requires Get(req.headers, SecretTokenHeader).None?
    requires Get(req.headers, AltSecretTokenHeader).None?
    ensures Check(req, p, noHttpToken, u) == BadRequest
  {
  }

  /** The names the gate reads are pairwise distinct header names. */
  lemma GateHeaderNamesDistinct()
    ensures !SameName(SecretTokenHeader, AltSecretTokenHeader)
    ensures !SameName(SecretTokenHeader, ProxyAuthorization)
    ensures !SameName(AltSecretTokenHeader, ProxyAuthorization)
  {
    assert LowerAscii(SecretTokenHeader)[0] != LowerAscii(ProxyAuthorization)[0];
    assert |LowerAscii(SecretTokenHeader)| != |LowerAscii(AltSecretTokenHeader)|;
    assert |LowerAscii(AltSecretTokenHeader)| != |LowerAscii(ProxyAuthorization)|;
  }

  function InsertHeader(req: Request, k: nat, h: Header): Request
    requires k <= |req.headers|
  {
    req.(headers := req.headers[..k] + [h] + req.headers[k..])
  }

  /** With the token check inactive, adding either token header anywhere in
      the request changes nothing. */
  lemma TokenHeadersIgnoredWhenInactive(req: Request, k: nat, h: Header, p: Policy,
                                        noHttpToken: bool, u: Utils)
    requires k <= |req.headers|
    requires !TokenCheckActive(p, noHttpToken)
    requires SameName(h.name, SecretTokenHeader) || SameName(h.name, AltSecretTokenHeader)
    ensures Check(InsertHeader(req, k, h), p, noHttpToken, u) == Check(req, p, noHttpToken, u)
  {
    GateHeaderNamesDistinct();
    GetIgnoresOtherHeader(req.headers, k, h, ProxyAuthorization);
  }

  /** With no credentials configured, adding a `Proxy-Authorization` header
      anywhere in the request changes nothing. */
  lemma CredentialsIgnoredWhenNoneConfigured(req: Request, k: nat, h: Header, p: Policy,
                                             noHttpToken: bool, u: Utils)
    requires k <= |req.headers|
    requires p.allowedCredentials == []
    requires SameName(h.name, ProxyAuthorization)
    ensures Check(InsertHeader(req, k, h), p, noHttpToken, u) == Check(req, p, noHttpToken, u)
  {
    GateHeaderNamesDistinct();
    GetIgnoresOtherHeader(req.headers, k, h, SecretTokenHeader);
    GetIgnoresOtherHeader(req.headers, k, h, AltSecretTokenHeader);
  }

  /** Hex digits are visible ASCII and not whitespace. */
  lemma HexDigitIsPlainText(c: char)
    requires IsHexDigit(c)
    ensures c as int < 256 && IsVisibleAscii(c as int as Byte) && !IsWhitespace(c)
  {
  }

  /** A digest of hex digits is visible ASCII with nothing to trim, so the
      header carrying it reads back as the digest itself. */
  lemma DigestHeaderReadsBack(d: string)
    requires IsHexDigest(d)
    ensures Trim(ToStrOrEmpty(Latin1Bytes(d))) == d
  {
    forall i | 0 <= i < |d| {
      HexDigitIsPlainText(d[i]);
    }
    var v := Latin1Bytes(d);
    assert AllVisibleAscii(v) by {
      forall i | 0 <= i < |v| ensures IsVisibleAscii(v[i]) {
        assert v[i] == d[i] as int as Byte;
      }
    }
    var s := ToStrOrEmpty(v);
    assert s == d by {
      assert |s| == |d|;
      forall i | 0 <= i < |s| ensures s[i] == d[i] {
        assert s[i] as int == v[i] as int;
      }
    }
    assert [] + d + [] == d;
    TrimRecoversCore([], d, []);
  }

  /** The secret `abc` has nothing to trim. */
  lemma AbcIsTrimmed()
    ensures Trim("abc") == "abc"
  {
    assert [] + "abc" + [] == "abc";
    TrimRecoversCore([], "abc", []);
  }

  /** With secret `abc`, a request carrying the hex digest of `abc` in the
      hashed-token header passes the token check and, with no other check
      configured, is dispatched. */
  lemma HashedSecretAdmitted(u: Utils, req: Request)
    requires IsHexDigest(u.toSha256("abc"))
    requires req.headers == [Header(SecretTokenHeader, Latin1Bytes(u.toSha256("abc")))]
    ensures Check(req, Policy([], [], "abc"), false, u) in {ToConnect, ToForward}
  {
    var p := Policy([], [], "abc");
    AbcIsTrimmed();
    DigestHeaderReadsBack(u.toSha256("abc"));
    assert Get(req.headers, SecretTokenHeader) == Some(Latin1Bytes(u.toSha256("abc")));
    assert HashedTokenMatches(req, p, u);
    assert Admitted(req, p, false, u);
  }

  /** With secret `abc`, a request carrying `abc` itself, unhashed, in the
      hashed-token header is answered 400. */
  lemma UnhashedSecretRejected(u: Utils, req: Request)
    requires IsHexDigest(u.toSha256("abc"))
    requires req.headers == [Header(SecretTokenHeader, Latin1Bytes("abc"))]
    ensures Check(req, Policy([], [], "abc"), false, u) == BadRequest
  {
    AbcIsTrimmed();
    var v := Latin1Bytes("abc");
    assert Get(req.headers, SecretTokenHeader) == Some(v);
    assert |Trim(ToStrOrEmpty(v))| <= 3;
  }
}
