/** Dialing an SSH server, directly or through a ProxyJump chain (internal/forward/ssh.go).
    Only the ownership of connections and clients is modelled; what the network does at each
    hop is an input. */
module DialChain {

  import opened Wrappers

  datatype Hop = Hop(user: string, host: string, port: int)

  datatype Method = Key | Password(pw: string)

  /** What happens at one hop.  A handshake shows the host key to the callback before it tries any
      method, so AuthRejected means that the hop's key was accepted.  A handshake that times out
      may still have raced to an SSH connection by the time it is aborted. */
  datatype Outcome = Unreachable | HandshakeFails | HostKeyRejected | AuthRejected | TimesOut(raced: bool) | Connects

  /** An SSH client: the hop it speaks to, the client its transport runs through, and the methods
      it was offered. */
  datatype Client = Client(hop: Hop, via: Option<nat>, methods: seq<Method>)

  /** Why a dial failed: no host-key callback could be built, or this happened at this hop. */
  datatype Failure = NoCallback | AtHop(hop: nat, what: Outcome)

  datatype Result = Dialed(client: nat) | Failed(why: Failure)

  function Chain(jumps: seq<Hop>, target: Hop): seq<Hop> { jumps + [target] }

  /** The methods offered to hop i of a chain over |jumps| bastions. */
  function OfferAt(i: nat, jumps: seq<Hop>, intermed: seq<Method>, final: seq<Method>): seq<Method> {
    if i < |jumps| then intermed else final
  }

  /** The clients of the first k hops, dialed one through the other; n0 is the first one's number. */
  function LiveChain(n0: nat, jumps: seq<Hop>, target: Hop, intermed: seq<Method>, final: seq<Method>,
                     k: nat): (cs: seq<Client>)
    requires k <= |jumps| + 1
    ensures |cs| == k
  {
    if k == 0 then []
    else
      LiveChain(n0, jumps, target, intermed, final, k - 1)
      + [Client(Chain(jumps, target)[k - 1], if k == 1 then None else Some(n0 + k - 2),
                OfferAt(k - 1, jumps, intermed, final))]
  }

  /** The handshakes begun when the first k hops were reached. */
  function Offered(jumps: seq<Hop>, target: Hop, intermed: seq<Method>, final: seq<Method>,
                   k: nat): (os: seq<(Hop, seq<Method>)>)
    requires k <= |jumps| + 1
    ensures |os| == k
  {
    if k == 0 then []
    else
      Offered(jumps, target, intermed, final, k - 1)
      + [(Chain(jumps, target)[k - 1], OfferAt(k - 1, jumps, intermed, final))]
  }

  /** Each client of a chain speaks to its own hop, through the client before it; bastions see
      only the intermediate methods and the target only the final ones. */
  lemma {:induction false} LiveChainLinks(n0: nat, jumps: seq<Hop>, target: Hop, intermed: seq<Method>,
                                          final: seq<Method>, k: nat, i: nat)
    requires i < k <= |jumps| + 1
    ensures var c := LiveChain(n0, jumps, target, intermed, final, k)[i];
      && c.hop == (if i < |jumps| then jumps[i] else target)
      && c.methods == (if i < |jumps| then intermed else final)
      && c.via == (if i == 0 then None else Some(n0 + i - 1))
    ensures Offered(jumps, target, intermed, final, k)[i]
      == (if i < |jumps| then (jumps[i], intermed) else (target, final))
  {
    if i < k - 1 { LiveChainLinks(n0, jumps, target, intermed, final, k - 1, i); }
  }

  predicate AllConnect(outcomes: seq<Outcome>, n: nat)
    requires n <= |outcomes|
  {
    forall i | 0 <= i < n :: outcomes[i].Connects?
  }

  /** The first hop that does not connect, or the number of hops. */
  function FirstFailing(outcomes: seq<Outcome>): (k: nat)
    ensures k <= |outcomes| && AllConnect(outcomes, k) && (k < |outcomes| ==> !outcomes[k].Connects?)
  {
    if outcomes == [] || !outcomes[0].Connects? then 0
    else
      var k := 1 + FirstFailing(outcomes[1..]);
      assert forall i | 1 <= i < k :: outcomes[i] == outcomes[1..][i - 1];
      k
  }

  /** How a dial ends: None is success. */
  function FailureOf(callbackOk: bool, outcomes: seq<Outcome>): Option<Failure> {
    var k := FirstFailing(outcomes);
    if !callbackOk then Some(NoCallback)
    else if k < |outcomes| then Some(AtHop(k, outcomes[k]))
    else None
  }

  lemma FirstFailingIs(outcomes: seq<Outcome>, k: nat)
    requires k <= |outcomes| && AllConnect(outcomes, k) && (k < |outcomes| ==> !outcomes[k].Connects?)
    ensures FirstFailing(outcomes) == k
  {
  }

  /** The network as one process sees it. */
  class Net {
    var clients: seq<Client>
    var closed: set<nat>                       // clients closed
    var conns: nat                             // connections opened
    var connsClosed: set<nat>                  // connections closed, or owned by a closed client
    var connOf: seq<nat>                       // the connection each client owns
    var offers: seq<(Hop, seq<Method>)>        // every handshake begun
    var leashes: seq<(nat, seq<nat>)>          // final client -> intermediates it keeps alive

    constructor ()
      ensures Valid() && clients == [] && closed == {} && conns == 0 && offers == [] && leashes == []
    {
      clients, closed, conns, connsClosed, connOf, offers, leashes := [], {}, 0, {}, [], [], [];
    }

    /** Every client owns a connection, and closing the client closes it. */
    ghost predicate Valid()
      reads this
    {
      && |connOf| == |clients|
      && (forall i | 0 <= i < |connOf| :: connOf[i] < conns)
      && (forall i | i in closed :: i < |clients| && connOf[i] in connsClosed)
    }

    method Close(c: nat)
      requires Valid() && c < |clients|
      modifies this`closed, this`connsClosed
      ensures Valid() && closed == old(closed) + {c} && connsClosed == old(connsClosed) + {connOf[c]}
    {
      closed, connsClosed := closed + {c}, connsClosed + {connOf[c]};
    }

    method CloseAll(cs: seq<nat>)
      requires Valid() && forall i | 0 <= i < |cs| :: cs[i] < |clients|
      modifies this`closed, this`connsClosed
      ensures Valid()
      ensures closed == old(closed) + (set c | c in cs)
      ensures connsClosed == old(connsClosed) + (set c | c in cs :: connOf[c])
    {
      var i := 0;
      while i < |cs|
        invariant 0 <= i <= |cs| && Valid()
        invariant closed == old(closed) + (set c | c in cs[..i])
        invariant connsClosed == old(connsClosed) + (set c | c in cs[..i] :: connOf[c])
      {
        assert cs[..i + 1] == cs[..i] + [cs[i]];
        Close(cs[i]);
        i := i + 1;
      }
      assert cs[..i] == cs;
    }

    /** Closing a partial chain closes its clients and, with them, their connections. */
    method Abandon(dialed: seq<nat>, ghost n0: nat, ghost k0: nat)
      requires Valid() && n0 + |dialed| <= |clients|
      requires forall j | 0 <= j < |dialed| :: dialed[j] == n0 + j
      requires forall c | n0 <= c < n0 + |dialed| :: connOf[c] == k0 + (c - n0)
      modifies this`closed, this`connsClosed
      ensures Valid() && old(closed) <= closed && old(connsClosed) <= connsClosed
      ensures forall c | n0 <= c < n0 + |dialed| :: c in closed
      ensures forall k | k0 <= k < k0 + |dialed| :: k in connsClosed
    {
      CloseAll(dialed);
      forall c | n0 <= c < n0 + |dialed| ensures c in closed && connOf[c] in connsClosed {
        assert dialed[c - n0] == c;
      }
      forall k | k0 <= k < k0 + |dialed| ensures k in connsClosed {
        assert connOf[n0 + (k - k0)] == k;
      }
    }

    /** handshake over an open connection, bounded by a timeout: a client that owns the
        connection, or nothing with the connection (and any raced client) closed. */
    method Handshake(hop: Hop, via: Option<nat>, methods: seq<Method>, conn: nat, o: Outcome) returns (c: Option<nat>)
      requires Valid() && conn < conns && !o.Unreachable?
      modifies this
      ensures Valid() && conns == old(conns) && leashes == old(leashes)
      ensures offers == old(offers) + [(hop, methods)]
      ensures old(clients) <= clients && old(connOf) <= connOf && old(closed) <= closed
      ensures o.Connects? ==> c == Some(|old(clients)|) && clients == old(clients) + [Client(hop, via, methods)]
      ensures o.Connects? ==> connOf == old(connOf) + [conn] && closed == old(closed) && connsClosed == old(connsClosed)
      ensures !o.Connects? ==> c == None && connsClosed == old(connsClosed) + {conn}
      ensures !o.Connects? ==> forall i | |old(clients)| <= i < |clients| :: i in closed
    {
      offers := offers + [(hop, methods)];
      if o.Connects? {
        c := Some(|clients|);
        clients, connOf := clients + [Client(hop, via, methods)], connOf + [conn];
        return;
      }
      if o.TimesOut? && o.raced {
        clients, connOf := clients + [Client(hop, via, methods)], connOf + [conn];
        Close(|clients| - 1);
      }
      connsClosed := connsClosed + {conn};
      c := None;
    }

    /** One hop: open a connection (directly or through the previous client) and shake hands.
        A hop that fails leaves nothing open. */
    method DialHop(hop: Hop, via: Option<nat>, methods: seq<Method>, o: Outcome) returns (c: Option<nat>)
      requires Valid()
      modifies this
      ensures Valid() && leashes == old(leashes) && (c.Some? <==> o.Connects?)
      ensures old(clients) <= clients && old(connOf) <= connOf && old(closed) <= closed
        && old(connsClosed) <= connsClosed
      ensures o.Connects? ==> c == Some(|old(clients)|) && clients == old(clients) + [Client(hop, via, methods)]
      ensures o.Connects? ==> conns == old(conns) + 1 && connOf == old(connOf) + [old(conns)]
      ensures o.Connects? ==> closed == old(closed) && connsClosed == old(connsClosed)
      ensures old(conns) <= conns && offers == old(offers) + if o.Unreachable? then [] else [(hop, methods)]
      ensures !o.Connects? ==> forall i | |old(clients)| <= i < |clients| :: i in closed
      ensures !o.Connects? ==> forall k | old(conns) <= k < conns :: k in connsClosed
    {
      if o.Unreachable? {
        return None;
      }
      var conn := conns;
      conns := conns + 1;
      c := Handshake(hop, via, methods, conn, o);
    }

    /** The hops one after the other, each through the client before it, up to the first that
        fails; the clients before that one are still open. */
    method DialHops(jumps: seq<Hop>, target: Hop, intermed: seq<Method>, final: seq<Method>, outcomes: seq<Outcome>)
      returns (dialed: seq<nat>, ghost reached: nat)
      requires Valid() && |outcomes| == |jumps| + 1
      modifies this
      ensures Valid() && leashes == old(leashes) && old(closed) <= closed && old(connsClosed) <= connsClosed
      ensures |dialed| == FirstFailing(outcomes) && forall j | 0 <= j < |dialed| :: dialed[j] == |old(clients)| + j
      ensures old(clients) + LiveChain(|old(clients)|, jumps, target, intermed, final, |dialed|) <= clients
      ensures forall c | |old(clients)| <= c < |old(clients)| + |dialed| ::
        connOf[c] == old(conns) + (c - |old(clients)|)
      ensures forall c | |old(clients)| + |dialed| <= c < |clients| :: c in closed
      ensures old(conns) + |dialed| <= conns && forall k | old(conns) + |dialed| <= k < conns :: k in connsClosed
      ensures |dialed| == |outcomes| ==> |clients| == |old(clients)| + |dialed| && closed == old(closed)
      ensures |dialed| == |outcomes| ==> conns == old(conns) + |dialed| && connsClosed == old(connsClosed)
      ensures reached <= |outcomes| && offers == old(offers) + Offered(jumps, target, intermed, final, reached)
    {
      var chain := Chain(jumps, target);
      ghost var n0, k0 := |clients|, conns;
      dialed := [];
      var prev: Option<nat> := None;
      var i := 0;
      while i < |chain|
        invariant 0 <= i <= |chain| && Valid()
        invariant clients == old(clients) + LiveChain(n0, jumps, target, intermed, final, i) && conns == k0 + i
        invariant closed == old(closed) && connsClosed == old(connsClosed) && leashes == old(leashes)
        invariant |dialed| == i && forall j | 0 <= j < i :: dialed[j] == n0 + j
        invariant prev == if i == 0 then None else Some(n0 + i - 1)
        invariant AllConnect(outcomes, i)
        invariant forall c | n0 <= c < n0 + i :: connOf[c] == k0 + (c - n0)
        invariant offers == old(offers) + Offered(jumps, target, intermed, final, i)
      {
        var c := DialHop(chain[i], prev, OfferAt(i, jumps, intermed, final), outcomes[i]);
        if c.None? {
          FirstFailingIs(outcomes, i);
          reached := if outcomes[i].Unreachable? then i else i + 1;
          return dialed, reached;
        }
        dialed := dialed + [c.value];
        prev := c;
        i := i + 1;
      }
      FirstFailingIs(outcomes, i);
      reached := |chain|;
    }

    /** dialConn.  `outcomes[i]` is what happens at hop i; `callbackOk` is whether the host-key
        callback could be built. */
    method DialConn(jumps: seq<Hop>, target: Hop, intermed: seq<Method>, final: seq<Method>,
                    callbackOk: bool, outcomes: seq<Outcome>) returns (r: Result, ghost reached: nat)
      requires Valid() && |outcomes| == |jumps| + 1
      modifies this
      ensures Valid() && old(clients) <= clients && old(conns) <= conns
      ensures old(closed) <= closed && old(connsClosed) <= connsClosed
      // It fails exactly when the callback or some hop does, and says where and how first ...
      ensures match FailureOf(callbackOk, outcomes) case Some(f) => r == Failed(f) case None => r.Dialed?
      // ... and then every connection and every client it opened is closed.
      ensures r.Failed? ==> forall c | |old(clients)| <= c < |clients| :: c in closed
      ensures r.Failed? ==> forall k | old(conns) <= k < conns :: k in connsClosed
      // On success there is one live client per hop, each dialed through the previous one, and
      // the caller gets the last; bastions are leashed to it.
      ensures r.Dialed? ==>
        clients == old(clients) + LiveChain(|old(clients)|, jumps, target, intermed, final, |jumps| + 1)
      ensures r.Dialed? ==> r.client == |clients| - 1 && closed == old(closed) && connsClosed == old(connsClosed)
      ensures r.Dialed? ==> conns == old(conns) + |jumps| + 1
      ensures r.Dialed? ==>
        forall c | |old(clients)| <= c < |clients| :: connOf[c] == old(conns) + (c - |old(clients)|)
      ensures leashes == if r.Failed? || jumps == [] then old(leashes)
                         else old(leashes) + [(r.client, seq(|jumps|, i requires i >= 0 => |old(clients)| + i))]
      // Handshakes begin hop by hop, each with that hop's methods.
      ensures reached <= |jumps| + 1 && offers == old(offers) + Offered(jumps, target, intermed, final, reached)
    {
      reached := 0;
      if !callbackOk {
        assert offers == old(offers) + [];
        return Failed(NoCallback), reached;
      }
      ghost var n0, k0 := |clients|, conns;
      var dialed;
      dialed, reached := DialHops(jumps, target, intermed, final, outcomes);
      if |dialed| <= |jumps| {
        Abandon(dialed, n0, k0);
        return Failed(AtHop(|dialed|, outcomes[|dialed|])), reached;
      }
      var last := dialed[|dialed| - 1];
      var intermediates := dialed[..|dialed| - 1];
      if |intermediates| > 0 {
        assert intermediates == seq(|jumps|, i requires i >= 0 => n0 + i);
        leashes := leashes + [(last, intermediates)];
      }
      return Dialed(last), reached;
    }

    /** The leash goroutine: once the final client has ended, its intermediates are closed. */
    method FinalEnded(k: nat)
      requires Valid() && k < |leashes|
      requires forall i | 0 <= i < |leashes[k].1| :: leashes[k].1[i] < |clients|
      modifies this`closed, this`connsClosed
      ensures Valid() && closed == old(closed) + set c | c in leashes[k].1
      ensures connsClosed == old(connsClosed) + set c | c in leashes[k].1 :: connOf[c]
    {
      CloseAll(leashes[k].1);
    }
  }

  /** The end of a dialed chain: its final client (closed by the tuber, or dropped by the server)
      and then, by the leash, its bastions. */
  method EndChain(net: Net, ghost n0: nat, ghost k0: nat, jumps: seq<Hop>)
    requires net.Valid() && |net.clients| == n0 + |jumps| + 1 && net.conns == k0 + |jumps| + 1
    requires forall c | n0 <= c < |net.clients| :: net.connOf[c] == k0 + (c - n0)
    requires jumps != [] ==>
      && net.leashes != []
      && net.leashes[|net.leashes| - 1].1 == seq(|jumps|, i requires i >= 0 => n0 + i)
    modifies net`closed, net`connsClosed
    ensures net.Valid()
    ensures forall c | n0 <= c < |net.clients| :: c in net.closed
    ensures forall k | k0 <= k < net.conns :: k in net.connsClosed
  {
    net.Close(|net.clients| - 1);
    if |jumps| > 0 {
      ghost var held := net.leashes[|net.leashes| - 1].1;
      net.FinalEnded(|net.leashes| - 1);
      forall c | n0 <= c < |net.clients| - 1 ensures c in net.closed {
        assert held[c - n0] == c;
      }
    }
    forall k | k0 <= k < net.conns ensures k in net.connsClosed {
      var c := n0 + (k - k0);
      assert net.connOf[c] == k && c in net.closed;
    }
  }

  /** A dial and, if it succeeds, the end of its chain: whatever happened at the hops, no client it
      made and no connection it opened is left. */
  method DialThenEnd(net: Net, jumps: seq<Hop>, target: Hop, intermed: seq<Method>, final: seq<Method>,
                     callbackOk: bool, outcomes: seq<Outcome>)
    requires net.Valid() && |outcomes| == |jumps| + 1
    modifies net
    ensures net.Valid()
    ensures forall c | |old(net.clients)| <= c < |net.clients| :: c in net.closed
    ensures forall k | old(net.conns) <= k < net.conns :: k in net.connsClosed
  {
    ghost var n0, k0 := |net.clients|, net.conns;
    var r: Result;
    ghost var reached: nat;
    r, reached := net.DialConn(jumps, target, intermed, final, callbackOk, outcomes);
    if r.Dialed? {
      EndChain(net, n0, k0, jumps);
    }
  }
}
