/** `Proxy::tunnel`: resolve the CONNECT authority, then try the candidate
    addresses one after another, each from a freshly drawn local address,
    and relay through the first one that binds and connects. */
module Tunnel {
  import opened Base

  datatype SocketAddr = SocketAddr(ip: seq<Byte>, port: nat)

  /** What the network does at one candidate position: whether
      `TcpSocket::new_v4` succeeds, the local address drawn by the random
      egress selector, and whether binding to it and connecting succeed. */
  datatype Probe = Probe(socketCreated: bool, local: SocketAddr, bindOk: bool, connectOk: bool)

  /** The socket at this position both binds and connects. */
  predicate Reaches(p: Probe) {
    p.bindOk && p.connectOk
  }

  /** One connection attempt: the destination, the local address it was
      bound from, whether the bind succeeded and whether a connect was made
      and succeeded (no connect is made after a failed bind). */
  datatype Attempt = Attempt(dest: SocketAddr, local: SocketAddr, bound: bool, connected: bool) {
    predicate Succeeded() {
      bound && connected
    }
  }

  /** The result of `copy_bidirectional` on the chosen connection. */
  datatype IoOutcome = IoOk | IoError

  /** How the tunnel task ends: the authority did not resolve, every
      candidate failed, creating a socket failed (the `?` on
      `TcpSocket::new_v4`), or a connection was relayed. */
  datatype Ending = Unresolved | Exhausted | SocketError | Relayed(relay: IoOutcome)

  datatype Report = Report(attempts: seq<Attempt>, ending: Ending)

  /** The `std::io::Result<()>` the tunnel task returns. */
  function Returned(r: Report): (o: IoOutcome)
    ensures o == IoError <==> r.ending == SocketError || r.ending == Relayed(IoError)
  {
    match r.ending
    case SocketError => IoError
    case Relayed(relay) => relay
    case _ => IoOk
  }

  /** The attempt made on candidate `j`, with the `j`-th local address draw. */
  function AttemptAt(cands: seq<SocketAddr>, world: nat -> Probe, j: nat): Attempt
    requires j < |cands|
  {
    Attempt(cands[j], world(j).local, world(j).bindOk, world(j).bindOk && world(j).connectOk)
  }

  /** The loop over the candidates from position `i` on. */
  function TryFrom(cands: seq<SocketAddr>, world: nat -> Probe, relay: IoOutcome, i: nat): (r: Report)
    requires i <= |cands|
    decreases |cands| - i
    ensures var n := |r.attempts|;
      && i + n <= |cands|
      && (forall k :: 0 <= k < n ==> r.attempts[k] == AttemptAt(cands, world, i + k))
      && (forall j :: i <= j < i + n ==> world(j).socketCreated)
      && (forall j :: i <= j < i + n - 1 ==> !Reaches(world(j)))
      && (r.ending.Relayed? <==> n > 0 && Reaches(world(i + n - 1)))
      && (r.ending.Relayed? ==> r.ending.relay == relay)
      && (r.ending == SocketError ==> i + n < |cands| && !world(i + n).socketCreated)
      && (r.ending == Exhausted ==> i + n == |cands|)
      && r.ending != Unresolved
  {
    if i == |cands| then Report([], Exhausted)
    else if !world(i).socketCreated then Report([], SocketError)
    else
      var a := AttemptAt(cands, world, i);
      if a.Succeeded() then Report([a], Relayed(relay))
      else
        var rest := TryFrom(cands, world, relay, i + 1);
        Report([a] + rest.attempts, rest.ending)
  }

  /** The tunnel task after the connection upgrade: `resolved` is the result
      of `to_socket_addrs` on the authority, `world` what each socket does
      and `relay` the outcome of the byte relay, should one start. */
  function Tunnel(resolved: Option<seq<SocketAddr>>, world: nat -> Probe, relay: IoOutcome): (r: Report)
    ensures resolved.None? ==> r == Report([], Unresolved)
    ensures resolved.Some? ==>
      var cands := resolved.value;
      var n := |r.attempts|;
      && n <= |cands|
      && (forall k :: 0 <= k < n ==> r.attempts[k] == AttemptAt(cands, world, k))
      && (forall k :: 0 <= k < n ==> world(k).socketCreated)
      && (forall k :: 0 <= k < n - 1 ==> !r.attempts[k].Succeeded())
      && (r.ending.Relayed? <==> n > 0 && r.attempts[n - 1].Succeeded())
      && (r.ending.Relayed? ==> r.ending.relay == relay)
      && (r.ending == SocketError ==> n < |cands| && !world(n).socketCreated)
      && (r.ending == Exhausted ==> n == |cands|)
      && r.ending != Unresolved
  {
    match resolved
    case None => Report([], Unresolved)
    case Some(cands) => TryFrom(cands, world, relay, 0)
  }

  /** No two attempts succeed: the relay is fed by exactly one connection,
      the last attempt made. */
  lemma OnlyLastAttemptSucceeds(resolved: Option<seq<SocketAddr>>, world: nat -> Probe,
                                relay: IoOutcome, a: nat, b: nat)
    requires var r := Tunnel(resolved, world, relay);
      a < |r.attempts| && b < |r.attempts| && r.attempts[a].Succeeded() && r.attempts[b].Succeeded()
    ensures a == b == |Tunnel(resolved, world, relay).attempts| - 1
    ensures Tunnel(resolved, world, relay).ending.Relayed?
  {
  }

  /** The relayed candidate is the first one, in resolution order, whose
      socket binds and connects, provided every socket before it could be
      created. */
  lemma FirstReachableCandidateWins(cands: seq<SocketAddr>, world: nat -> Probe, relay: IoOutcome,
                                    j: nat)
    requires j < |cands|
    requires forall k :: 0 <= k <= j ==> world(k).socketCreated
    requires forall k :: 0 <= k < j ==> !Reaches(world(k))
    requires Reaches(world(j))
    ensures var r := Tunnel(Some(cands), world, relay);
      |r.attempts| == j + 1 && r.ending == Relayed(relay)
      && r.attempts[j] == Attempt(cands[j], world(j).local, true, true)
  {
  }

  /** Three candidates where the first bind fails, the second connect fails
      and the third candidate is reached: three attempts, in order, each
      from its own draw, and the third alone is relayed. */
  lemma ThirdOfThreeCandidates(cands: seq<SocketAddr>, world: nat -> Probe, relay: IoOutcome)
    requires |cands| == 3
    requires world(0).socketCreated && !world(0).bindOk
    requires world(1).socketCreated && world(1).bindOk && !world(1).connectOk
    requires world(2).socketCreated && Reaches(world(2))
    ensures Tunnel(Some(cands), world, relay) ==
      Report([Attempt(cands[0], world(0).local, false, false),
              Attempt(cands[1], world(1).local, true, false),
              Attempt(cands[2], world(2).local, true, true)],
             Relayed(relay))
  {
    FirstReachableCandidateWins(cands, world, relay, 2);
    var r := Tunnel(Some(cands), world, relay);
    assert r.attempts[0] == AttemptAt(cands, world, 0);
    assert r.attempts[1] == AttemptAt(cands, world, 1);
  }
}
