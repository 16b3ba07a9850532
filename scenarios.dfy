/** Whole runs of the connection machinery of lib/proxy.c, each driven by
    a fixed resolver answer and fixed readiness events. */
module Scenarios {
  import opened Wire
  import opened Config
  import Socks5
  import opened Connector

  /** Settings with no proxy host: every request connects directly. */
  const NoProxy: Settings := Settings([], 0, ProxyNone, [], [], [])

  /** A SOCKS5 proxy at "px", port 1080, without credentials. */
  const Socks5Proxy: Settings := Settings([112, 120], 1080, ProxySocks5, [], [], [])

  const Target: TargetHost := [104, 111, 115, 116]

  /** The candidates of the fallback run: a failed socket, a refused
      connect on 5, and connects under way on 6 and 7. */
  const FallbackCandidates: seq<Attempt> := [SocketFails, Refused(5), InProgress(6), InProgress(7)]

  /** A direct request walks its candidates at once: the failed socket is
      skipped, the refused connect closed, and the first connect under way
      is registered, armed, and returned. */
  method FallbackStarted() returns (c: Connector, r: Request, fd: int)
    ensures fresh(c) && fresh(r) && c.Valid() && c.Current(r) && c.cfg == NoProxy
    ensures fd == 6 && c.registry == map[6 := r] && c.closed == [5] && c.notices == []
    ensures r.id == 0 && r.fd == 6 && r.driver == Direct && r.watch == Armed(6, ConnectWatch)
    ensures r.gai == FallbackCandidates && r.cur == 2
  {
    c := new Connector(NoProxy);
    fd := c.ProxyConnect(Some(Target), 80, true, Some(FallbackCandidates));
    NextLiveIsFirst(FallbackCandidates, 0, 2);
    assert FallbackCandidates[..2] == [SocketFails] + [Refused(5)];
    RefusedFdsSplit([SocketFails], [Refused(5)]);
    r := c.registry[fd];
  }

  /** When the connect on 6 fails, the walk resumes with 7 under the same
      descriptor number, and the callback finally gets that number, once. */
  method Fallback() returns (c: Connector, fd: int)
    ensures fd == 6
    ensures c.closed == [5, 6, 7]
    ensures c.notices == [Notice(0, 6)]
    ensures c.registry == map[]
  {
    var r;
    c, r, fd := FallbackStarted();
    c.ProxyConnected(r, false, true, None, []);
    assert NextLive(FallbackCandidates, 3) == 3;
    assert FallbackCandidates[3..3] == [];
    assert c.closed == [5, 6, 7];
    c.ProxyConnected(r, true, true, None, []);
  }

  /** When the resumed walk finds nothing it returns -1, which the test for
      a new descriptor takes as one: the request stays armed on its closed
      descriptor with a NULL cursor, and the next failure report
      dereferences that cursor. Nobody is called back. */
  method ExhaustedResumeFaults() returns (c: Connector, fd: int)
    ensures fd == 7
    ensures c.faulted
    ensures c.closed == [8, 7, -1]
    ensures c.notices == []
  {
    c := new Connector(NoProxy);
    fd := c.ProxyConnect(Some(Target), 80, true, Some([InProgress(7), Refused(8)]));
    assert LiveFd([InProgress(7), Refused(8)], 0) == 7;
    assert c.closed == [] by {
      assert [InProgress(7), Refused(8)][..0] == [];
    }
    var r := c.registry[fd];
    c.ProxyConnected(r, false, true, None, []);
    assert NextLive(r.gai, 1) == 2;
    assert r.gai[1..2] == [Refused(8)];
    assert RefusedFds([Refused(8)]) == [8];
    assert LiveFd(r.gai, 1) == -1;
    assert c.closed == [8, 7, -1];
    c.ProxyConnected(r, false, true, None, []);
  }

  /** A request whose candidates all fail before any connect is under way
      is freed as a success inside proxy_connect: -1 comes back and the
      callback is never called. */
  method SynchronousExhaustion() returns (c: Connector, fd: int)
    ensures fd == -1
    ensures c.closed == [5]
    ensures c.notices == [] && c.registry == map[]
  {
    c := new Connector(NoProxy);
    fd := c.ProxyConnect(Some(Target), 80, true, Some([Refused(5), SocketFails]));
    assert NextLive([Refused(5), SocketFails], 0) == 2;
    assert [Refused(5), SocketFails][..2] == [Refused(5)] + [SocketFails];
    RefusedFdsSplit([Refused(5)], [SocketFails]);
  }

  /** Cancelling a pending request closes its descriptor and silences it:
      no callback, no registry entry, and a later close of the same number
      only closes it again. */
  method Cancel() returns (c: Connector, fd: int)
    ensures fd == 9
    ensures c.closed == [9, 9]
    ensures c.notices == [] && c.registry == map[]
  {
    c := new Connector(NoProxy);
    fd := c.ProxyConnect(Some(Target), 80, true, Some([InProgress(9)]));
    assert LiveFd([InProgress(9)], 0) == 9;
    assert c.closed == [] by {
      assert [InProgress(9)][..0] == [];
    }
    c.ProxyDisconnect(fd);
    c.ProxyDisconnect(fd);
  }

  /** The SOCKS5 greeting without credentials offers only "no
      authentication". */
  lemma OpenSocks5Proxy(source: int)
    requires source > 0
    ensures DriverOpen(Socks5Proxy, Socks5Driver, Target, 80, source, true, None, [])
      == Step(Continue(Socks5MethodWatch), [[5, 1, 0]])
  {
    assert Socks5.Greeting([]) == [5, 1, 0];
    assert Accepted([Socks5.Greeting([])], [], FailsIfShort, 0);
  }

  /** The proxy choosing method 0 draws the CONNECT request for the target
      by name. */
  lemma NoAuthSelected()
    ensures Socks5.React(Socks5Context(Socks5Proxy, Target, 80), Socks5.AwaitMethod, Received([5, 0]), [])
      == Step(Continue(Socks5.AwaitConnectReply), [[5, 1, 0, 3, 4, 104, 111, 115, 116, 0, 80]])
  {
    assert Socks5.SelectMethod(Received([5, 0])) == Socks5.NoAuthentication;
    assert Socks5.ConnectRequest(Target, 80) == [5, 1, 0, 3, 4, 104, 111, 115, 116, 0, 80];
    assert Accepted([Socks5.ConnectRequest(Target, 80)], [], FailsIfShortUnsigned, 0);
  }

  /** A version-5 reply with status 0 grants the CONNECT. */
  lemma ConnectReplyGranted()
    ensures Socks5.React(Socks5Context(Socks5Proxy, Target, 80), Socks5.AwaitConnectReply,
                         Received([5, 0, 0, 1, 10, 0, 0, 1, 0, 80]), []) == Step(Succeeded, [])
  {
    assert Socks5.ConnectGranted(Received([5, 0, 0, 1, 10, 0, 0, 1, 0, 80]));
  }

  /** A SOCKS5 request without credentials, once its first leg is up: the
      leg went to the proxy and the greeting offers only "no
      authentication". */
  method Socks5Greeted() returns (c: Connector, r: Request)
    ensures fresh(c) && fresh(r) && c.Valid() && c.Current(r) && c.cfg == Socks5Proxy
    ensures c.registry == map[4 := r] && c.notices == []
    ensures r.id == 0 && r.fd == 4 && r.host == Target && r.port == 80
    ensures r.watch == Armed(4, Socks5MethodWatch)
    ensures |c.lookups| == 1 && c.lookups[0].0.Some? && c.lookups[0].0.value == [112, 120] && c.lookups[0].1 == 1080
    ensures c.sent == [Packet(4, [5, 1, 0])]
  {
    c := new Connector(Socks5Proxy);
    var fd := c.ProxyConnect(Some(Target), 80, true, Some([InProgress(4)]));
    assert LiveFd([InProgress(4)], 0) == 4;
    r := c.registry[fd];
    assert r.id == 0 && r.fd == 4 && c.registry == map[4 := r];
    OpenSocks5Proxy(4);
    c.ProxyConnected(r, true, true, None, []);
  }

  /** The proxy picks "no authentication" and the CONNECT request names the
      target by name; the request then waits for the proxy's reply. */
  method Socks5Negotiation() returns (c: Connector, r: Request)
    ensures fresh(c) && fresh(r) && c.Valid() && c.Current(r) && c.cfg == Socks5Proxy
    ensures c.registry == map[4 := r] && c.notices == []
    ensures r.id == 0 && r.fd == 4 && r.host == Target && r.port == 80
    ensures r.watch == Armed(4, Socks5ConnectWatch)
    ensures |c.lookups| == 1 && c.lookups[0].0.Some? && c.lookups[0].0.value == [112, 120] && c.lookups[0].1 == 1080
    ensures c.sent == [Packet(4, [5, 1, 0]), Packet(4, [5, 1, 0, 3, 4, 104, 111, 115, 116, 0, 80])]
  {
    c, r := Socks5Greeted();
    NoAuthSelected();
    c.S5CanRead(r, Received([5, 0]), []);
  }

  /** A granted reply to the CONNECT request hands the descriptor to the
      callback, once. */
  method Socks5Handshake() returns (c: Connector)
    ensures |c.lookups| == 1 && c.lookups[0].0.Some? && c.lookups[0].0.value == [112, 120] && c.lookups[0].1 == 1080
    ensures c.sent == [Packet(4, [5, 1, 0]), Packet(4, [5, 1, 0, 3, 4, 104, 111, 115, 116, 0, 80])]
    ensures c.notices == [Notice(0, 4)] && c.registry == map[]
  {
    var r;
    c, r := Socks5Negotiation();
    ConnectReplyGranted();
    c.S5CanRead(r, Received([5, 0, 0, 1, 10, 0, 0, 1, 0, 80]), []);
  }
}
