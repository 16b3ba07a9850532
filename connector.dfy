/** The connection machinery of lib/proxy.c: a pending request (struct PHB)
    with its descriptor, its armed watch and its cursor over the resolved
    addresses; the registry phb_hash from descriptors to pending requests;
    proxy_connect, proxy_connect_none, proxy_connected, phb_free,
    phb_connected and proxy_disconnect; and the event handlers of the three
    proxy drivers, each running the driver's step function.

    The operating system, the resolver and the event loop are inputs: each
    resolved address carries the outcome its socket()/connect() pair has,
    each readiness event carries what getsockopt, read and write return, and
    the callback a caller registers is recorded in a log of notices. */
module Connector {
  import opened Wire
  import opened Config
  import Socks4
  import Socks5
  import Http

  /** A descriptor socket() hands out: positive, as 0 is standard input. */
  type Descriptor = fd: int | fd > 0 witness 1

  /** A target host proxy_connect accepts: at most 128 bytes. */
  type TargetHost = h: CString | |h| <= 128

  /** What happens to one resolved address: socket() fails, connect()
      fails outright, or connect() is under way on a new descriptor. */
  datatype Attempt = SocketFails | Refused(fd: Descriptor) | InProgress(fd: Descriptor)

  /** The event handler a watch runs when its descriptor becomes ready:
      proxy_connected, http_canread, s4_canread, s5_canread, s5_readauth
      and s5_canread_again. */
  datatype Handler =
    | ConnectWatch | HttpReplyWatch | Socks4ReplyWatch
    | Socks5MethodWatch | Socks5AuthWatch | Socks5ConnectWatch

  /** A request's watch: none, or one on a descriptor with its handler. */
  datatype Watch = Idle | Armed(fd: int, handler: Handler)

  /** One invocation of a caller's callback: the request and the
      descriptor passed (-1 for failure). */
  datatype Notice = Notice(request: nat, fd: int)

  /** One message handed to write(2) or send(2) on a descriptor. */
  datatype Packet = Packet(fd: int, data: seq<byte>)

  /** Index of the first candidate from `from` on whose connect is under
      way, or |gai| when there is none. */
  function NextLive(gai: seq<Attempt>, from: nat): (k: nat)
    requires from <= |gai|
    ensures from <= k <= |gai|
    ensures k < |gai| ==> gai[k].InProgress?
    ensures forall i | from <= i < k :: !gai[i].InProgress?
    decreases |gai| - from
  {
    if from == |gai| || gai[from].InProgress? then from else NextLive(gai, from + 1)
  }

  /** The descriptors of the refused candidates, in order: each is closed
      as the cursor passes it. */
  function RefusedFds(gai: seq<Attempt>): seq<int>
  {
    if gai == [] then []
    else RefusedFds(gai[..|gai| - 1]) + (if gai[|gai| - 1].Refused? then [gai[|gai| - 1].fd] else [])
  }

  /** The descriptor the candidate walk returns: the first live one, or -1. */
  function LiveFd(gai: seq<Attempt>, from: nat): (fd: int)
    requires from <= |gai|
    ensures fd == -1 || fd > 0
  {
    var k := NextLive(gai, from);
    if k < |gai| then gai[k].fd else -1
  }

  /** The walk stops at the first live candidate: none of the candidates
      it skipped is live, and it ends at the list's end only when no live
      candidate is left. */
  lemma {:induction false} NextLiveIsFirst(gai: seq<Attempt>, from: nat, k: nat)
    requires from <= k <= |gai|
    requires forall i | from <= i < k :: !gai[i].InProgress?
    requires k == |gai| || gai[k].InProgress?
    ensures NextLive(gai, from) == k
  {
  }

  /** Walking over skipped candidates closes exactly the refused ones, and
      only those: socket failures close nothing. */
  lemma {:induction false} RefusedFdsSplit(a: seq<Attempt>, b: seq<Attempt>)
    ensures RefusedFds(a + b) == RefusedFds(a) + RefusedFds(b)
    decreases |b|
  {
    if b != [] {
      var last := b[|b| - 1];
      assert (a + b)[..|a + b| - 1] == a + b[..|b| - 1];
      RefusedFdsSplit(a, b[..|b| - 1]);
    } else {
      assert a + b == a;
    }
  }

  lemma RefusedFdsBound(gai: seq<Attempt>)
    ensures |RefusedFds(gai)| <= |gai|
    ensures forall i | 0 <= i < |RefusedFds(gai)| :: RefusedFds(gai)[i] > 0
  {
  }

  /** The candidate list after the resolution step: the resolver's answer
      when the cursor was NULL and it answered, the old list otherwise. */
  function Candidates(gai: seq<Attempt>, cur: nat, dns: Option<seq<Attempt>>): seq<Attempt>
  {
    if cur == |gai| && dns.Some? then dns.value else gai
  }

  /** The cursor after the resolution step. */
  function Start(gai: seq<Attempt>, cur: nat, dns: Option<seq<Attempt>>): (c: nat)
    requires cur <= |gai|
    ensures c <= |Candidates(gai, cur, dns)|
  {
    if cur == |gai| && dns.Some? then 0 else cur
  }

  lemma RefusedFdsStep(gai: seq<Attempt>, c: nat, k: nat)
    requires c <= k < |gai|
    ensures RefusedFds(gai[c..k + 1]) == RefusedFds(gai[c..k]) + (if gai[k].Refused? then [gai[k].fd] else [])
  {
    assert gai[c..k + 1][..k - c] == gai[c..k];
  }

  /** A pending request: struct PHB. `cur` is the cursor gai_cur as an
      index into `gai`; it stands for NULL when it equals |gai|. */
  class Request {
    const id: nat
    /** The connector proxy_connect chose, which fixes proxy_func. */
    const driver: Driver
    const host: TargetHost
    const port: u16
    /** Whether func is still set. */
    var hasCallback: bool
    var fd: int
    var watch: Watch
    var gai: seq<Attempt>
    var cur: nat

    /** g_new0 followed by the field settings of proxy_connect and the
        per-driver setup. */
    constructor(id: nat, driver: Driver, host: TargetHost, port: u16)
      ensures this.id == id && this.driver == driver && this.host == host && this.port == port
      ensures hasCallback && fd == 0 && watch == Idle && gai == [] && cur == 0
    {
      this.id := id;
      this.driver := driver;
      this.host := host;
      this.port := port;
      hasCallback := true;
      fd := 0;
      watch := Idle;
      gai := [];
      cur := 0;
    }

    ghost predicate CursorOk()
      reads this`gai, this`cur
    {
      cur <= |gai|
    }
  }

  function Tagged(fd: int, out: seq<seq<byte>>): (ps: seq<Packet>)
    ensures |ps| == |out|
    ensures forall i | 0 <= i < |out| :: ps[i] == Packet(fd, out[i])
  {
    seq(|out|, i requires 0 <= i < |out| => Packet(fd, out[i]))
  }

  function LiftHttp(n: Next<Http.Phase>): Next<Handler>
  {
    match n
    case Continue(_) => Continue(HttpReplyWatch)
    case Succeeded => Succeeded
    case Failed => Failed
  }

  function LiftSocks4(n: Next<Socks4.Phase>): Next<Handler>
  {
    match n
    case Continue(_) => Continue(Socks4ReplyWatch)
    case Succeeded => Succeeded
    case Failed => Failed
  }

  /** The SOCKS5 phases are the handlers that wait for each reply. */
  function Socks5Watch(p: Socks5.Phase): Handler
  {
    match p
    case AwaitMethod => Socks5MethodWatch
    case AwaitAuth => Socks5AuthWatch
    case AwaitConnectReply => Socks5ConnectWatch
  }

  function Socks5Phase(h: Handler): Socks5.Phase
  {
    match h
    case Socks5AuthWatch => Socks5.AwaitAuth
    case Socks5ConnectWatch => Socks5.AwaitConnectReply
    case _ => Socks5.AwaitMethod
  }

  function LiftSocks5(n: Next<Socks5.Phase>): Next<Handler>
  {
    match n
    case Continue(p) => Continue(Socks5Watch(p))
    case Succeeded => Succeeded
    case Failed => Failed
  }

  /** What the SOCKS5 driver works with: the configured credentials and
      the request's target. */
  function Socks5Context(cfg: Settings, host: TargetHost, port: u16): (c: Socks5.Context)
    ensures Socks5.ValidContext(c)
  {
    Socks5.Context(cfg.proxyUser, cfg.proxyPass, host, port)
  }

  /** The proxy_func a request runs once its first leg is up, on the
      descriptor proxy_connected hands it (-1 after a failed connect, on
      which getsockopt fails): phb_connected for a direct request, the
      driver's first step (http_canwrite, s4_canwrite, s5_canwrite)
      otherwise. */
  function DriverOpen(cfg: Settings, driver: Driver, host: TargetHost, port: u16, source: int,
                      sockOk: bool, lookup: Option<Socks4.Ipv4>, results: seq<int>): (s: Step<Handler>)
    ensures driver == Direct ==> s == Step(Succeeded, [])
    ensures driver != Direct && !(sockOk && source >= 0) ==> s == Step(Failed, [])
    ensures s.next == Succeeded ==> driver == Direct
    ensures driver == HttpDriver ==> s.next == Continue(HttpReplyWatch) || s.next == Failed
    ensures driver == Socks4Driver ==> s.next == Continue(Socks4ReplyWatch) || s.next == Failed
    ensures driver == Socks5Driver ==> s.next == Continue(Socks5MethodWatch) || s.next == Failed
    ensures driver == Socks5Driver && sockOk && source >= 0 ==> s.out == [Socks5.Greeting(cfg.proxyUser)]
  {
    var ok := sockOk && source >= 0;
    match driver
    case Direct => Step(Succeeded, [])
    case HttpDriver =>
      var s := Http.Open(host, port, cfg.proxyUser, cfg.credential, ok, results);
      Step(LiftHttp(s.next), s.out)
    case Socks4Driver =>
      var s := Socks4.Open(IsSocks4A(cfg), host, port, ok, lookup, results);
      Step(LiftSocks4(s.next), s.out)
    case Socks5Driver =>
      var s := Socks5.Open(Socks5Context(cfg, host, port), ok, results);
      Step(LiftSocks5(s.next), s.out)
  }

  /** The module state of lib/proxy.c for a fixed configuration, with the
      effects on the outside world as logs. */
  class Connector {
    const cfg: Settings
    /** phb_hash: pending requests by descriptor. */
    var registry: map<int, Request>
    /** Callback invocations, in order. */
    var notices: seq<Notice>
    /** Descriptors passed to closesocket, in order. */
    var closed: seq<int>
    /** Messages handed to write/send, in order. */
    var sent: seq<Packet>
    /** Resolver queries (host, port); a NULL host is None. */
    var lookups: seq<(Option<CString>, u16)>
    /** Set when the code dereferences a NULL cursor. */
    var faulted: bool
    /** The id the next request gets. */
    var nextId: nat
    /** Every request created so far, by id. */
    ghost var issued: seq<Request>
    /** Ids of requests not yet freed. */
    ghost var live: set<nat>
    /** Ids of requests freed by proxy_disconnect. */
    ghost var cancelled: set<nat>

    constructor(cfg: Settings)
      ensures this.cfg == cfg && Valid()
      ensures registry == map[] && notices == [] && closed == [] && sent == [] && lookups == []
      ensures !faulted && issued == [] && live == {} && cancelled == {}
    {
      this.cfg := cfg;
      registry := map[];
      notices := [];
      closed := [];
      sent := [];
      lookups := [];
      faulted := false;
      nextId := 0;
      issued := [];
      live := {};
      cancelled := {};
    }

    /** The registry maps each descriptor to a live request holding it;
        each callback fired at most once per request, and never for a
        request that is still pending or was cancelled. */
    ghost predicate Valid()
      reads this`registry, this`notices, this`issued, this`live, this`cancelled, this`nextId, registry.Values`fd
    {
      |issued| == nextId &&
      (forall i | 0 <= i < |issued| :: issued[i].id == i) &&
      (forall r | r in live :: r < |issued|) &&
      (forall r | r in cancelled :: r < |issued|) &&
      live !! cancelled &&
      (forall i, j | 0 <= i < j < |notices| :: notices[i].request != notices[j].request) &&
      (forall n | n in notices :: n.request < |issued| && n.request !in live && n.request !in cancelled) &&
      (forall k | k in registry ::
         k > 0 && registry[k].fd == k && registry[k].id in live && issued[registry[k].id] == registry[k])
    }

    /** r is a request of this connector that has not been freed. */
    ghost predicate Current(r: Request)
      reads this`live, this`issued
    {
      r.id in live && r.id < |issued| && issued[r.id] == r
    }

    /** phb_free: drop the registry entry under the request's descriptor;
        on failure close the descriptor when it is positive and call the
        callback with -1 when it is still set. */
    method PhbFree(r: Request, success: bool)
      requires Valid() && Current(r)
      modifies this`registry, this`closed, this`notices, this`live
      ensures registry == old(registry) - {r.fd}
      ensures closed == old(closed) + (if !success && r.fd > 0 then [r.fd] else [])
      ensures notices == old(notices) + (if !success && r.hasCallback then [Notice(r.id, -1)] else [])
      ensures live == old(live) - {r.id}
      ensures Valid()
    {
      registry := registry - {r.fd};
      if !success {
        if r.fd > 0 {
          closed := closed + [r.fd];
        }
        if r.hasCallback {
          notices := notices + [Notice(r.id, -1)];
        }
      }
      live := live - {r.id};
    }

    /** phb_connected: free the request first, then call the callback once
        with the descriptor, so the registry no longer holds it then. */
    method PhbConnected(r: Request, source: int)
      requires Valid() && Current(r)
      modifies this`registry, this`closed, this`notices, this`live
      ensures registry == old(registry) - {r.fd} && r.fd !in registry
      ensures closed == old(closed)
      ensures notices == old(notices) + [Notice(r.id, source)]
      ensures live == old(live) - {r.id}
      ensures Valid()
    {
      PhbFree(r, true);
      notices := notices + [Notice(r.id, source)];
    }

    /** proxy_disconnect: a descriptor without a pending request is just
        closed; a pending one loses its watch and its callback and is
        freed as failed, so it is closed and nobody is notified. */
    method ProxyDisconnect(fd: int)
      requires Valid()
      modifies this`registry, this`closed, this`notices, this`live, this`cancelled
      modifies if fd in registry then {registry[fd]} else {}
      ensures fd !in old(registry) ==>
        registry == old(registry) && closed == old(closed) + [fd] && live == old(live) && cancelled == old(cancelled)
      ensures fd in old(registry) ==>
        registry == old(registry) - {fd} && closed == old(closed) + [fd] &&
        live == old(live) - {old(registry)[fd].id} && cancelled == old(cancelled) + {old(registry)[fd].id} &&
        old(registry)[fd].watch == Idle && !old(registry)[fd].hasCallback
      ensures notices == old(notices)
      ensures Valid()
    {
      if fd !in registry {
        closed := closed + [fd];
        return;
      }
      var r := registry[fd];
      r.watch := Idle;
      r.hasCallback := false;
      PhbFree(r, false);
      cancelled := cancelled + {r.id};
    }

    /** The candidate loop of proxy_connect_none, from the cursor on: skip
        failed sockets, close refused connects, and on the first connect
        under way arm one write watch and store its descriptor. */
    method Walk(r: Request) returns (fd: int)
      requires r.CursorOk()
      modifies this`closed, r`cur, r`watch, r`fd
      ensures r.CursorOk()
      ensures r.cur == NextLive(r.gai, old(r.cur))
      ensures closed == old(closed) + RefusedFds(r.gai[old(r.cur)..r.cur])
      ensures fd == LiveFd(r.gai, old(r.cur))
      ensures r.cur < |r.gai| ==> r.fd == fd && r.watch == Armed(fd, ConnectWatch)
      ensures r.cur == |r.gai| ==> r.fd == old(r.fd) && r.watch == old(r.watch)
    {
      ghost var c := r.cur;
      fd := -1;
      while r.cur < |r.gai|
        invariant c <= r.cur <= |r.gai|
        invariant forall i | c <= i < r.cur :: !r.gai[i].InProgress?
        invariant closed == old(closed) + RefusedFds(r.gai[c..r.cur])
        invariant r.fd == old(r.fd) && r.watch == old(r.watch) && fd == -1
        decreases |r.gai| - r.cur
      {
        var a := r.gai[r.cur];
        RefusedFdsStep(r.gai, c, r.cur);
        if a.InProgress? {
          r.watch := Armed(a.fd, ConnectWatch);
          r.fd := a.fd;
          fd := a.fd;
          NextLiveIsFirst(r.gai, c, r.cur);
          return;
        }
        if a.Refused? {
          closed := closed + [a.fd];
        }
        fd := -1;
        r.cur := r.cur + 1;
      }
      NextLiveIsFirst(r.gai, c, r.cur);
    }

    /** The resolution step and the loop of proxy_connect_none: the resolver
        is asked only when the cursor is NULL; a successful answer becomes
        the candidate list with the cursor at its head. */
    method Advance(r: Request, host: Option<CString>, port: u16, dns: Option<seq<Attempt>>) returns (fd: int)
      requires r.CursorOk()
      modifies this`lookups, this`closed, r`gai, r`cur, r`watch, r`fd
      ensures r.CursorOk()
      ensures lookups == old(lookups) + (if old(r.cur) == |old(r.gai)| then [(host, port)] else [])
      ensures r.gai == Candidates(old(r.gai), old(r.cur), dns)
      ensures r.cur == NextLive(r.gai, Start(old(r.gai), old(r.cur), dns))
      ensures closed == old(closed) + RefusedFds(r.gai[Start(old(r.gai), old(r.cur), dns)..r.cur])
      ensures fd == LiveFd(r.gai, Start(old(r.gai), old(r.cur), dns))
      ensures r.cur < |r.gai| ==> r.fd == fd && r.watch == Armed(fd, ConnectWatch)
      ensures r.cur == |r.gai| ==> r.fd == old(r.fd) && r.watch == old(r.watch)
    {
      if r.cur == |r.gai| {
        lookups := lookups + [(host, port)];
        if dns.Some? {
          r.gai, r.cur := dns.value, 0;
        }
      }
      fd := Walk(r);
    }

    /** proxy_connect_none: the candidate walk, after which a top-level call
        (host not NULL) that found nothing frees the request as a success,
        so without a callback. */
    method ConnectNone(r: Request, host: Option<CString>, port: u16, dns: Option<seq<Attempt>>) returns (fd: int)
      requires r.CursorOk()
      requires host.Some? ==> Valid() && Current(r) && r !in registry.Values
      modifies this`lookups, this`closed, r`gai, r`cur, r`watch, r`fd, this`registry, this`notices, this`live
      ensures r.CursorOk()
      ensures lookups == old(lookups) + (if old(r.cur) == |old(r.gai)| then [(host, port)] else [])
      ensures r.gai == Candidates(old(r.gai), old(r.cur), dns)
      ensures r.cur == NextLive(r.gai, Start(old(r.gai), old(r.cur), dns))
      ensures closed == old(closed) + RefusedFds(r.gai[Start(old(r.gai), old(r.cur), dns)..r.cur])
      ensures fd == LiveFd(r.gai, Start(old(r.gai), old(r.cur), dns))
      ensures r.cur < |r.gai| ==> r.fd == fd && r.watch == Armed(fd, ConnectWatch)
      ensures r.cur == |r.gai| ==> r.fd == old(r.fd) && r.watch == old(r.watch)
      ensures notices == old(notices)
      ensures fd < 0 && host.Some? ==> registry == old(registry) - {old(r.fd)} && live == old(live) - {r.id}
      ensures !(fd < 0 && host.Some?) ==> registry == old(registry) && live == old(live)
      ensures host.Some? ==> Valid()
    {
      fd := Advance(r, host, port, dns);
      if fd < 0 && host.Some? {
        PhbFree(r, true);
      }
    }
  
    /** Rejected arguments of proxy_connect: no host, a port that is not
        positive, no callback, or a host longer than 128 bytes. */
    static predicate Rejects(host: Option<CString>, port: int, hasCallback: bool)
    {
      host.None? || port <= 0 || !hasCallback || |host.value| > 128
    }

    /** proxy_connect: reject bad arguments with -1 and no trace; otherwise
        create a request, run the connector the settings select (which
        walks the resolved candidates of the first leg's endpoint) and
        register the request under the descriptor returned unless that is
        -1. The caller is never called back from within. */
    method ProxyConnect(host: Option<CString>, port: int, hasCallback: bool, dns: Option<seq<Attempt>>) returns (fd: int)
      requires Valid()
      modifies this`registry, this`closed, this`notices, this`live, this`issued, this`lookups, this`nextId
      ensures Valid()
      ensures notices == old(notices)
      ensures fd == -1 || fd > 0
      ensures fd == -1 ==> registry == old(registry) && live == old(live)
      ensures Rejects(host, port, hasCallback) ==>
        fd == -1 && closed == old(closed) && lookups == old(lookups) && issued == old(issued)
      ensures !Rejects(host, port, hasCallback) ==>
        var e := Endpoint(cfg, host.value, U16(port));
        var gai := if dns.Some? then dns.value else [];
        lookups == old(lookups) + [(Some(e.0), e.1)] &&
        fd == LiveFd(gai, 0) &&
        closed == old(closed) + RefusedFds(gai[..NextLive(gai, 0)]) &&
        |issued| == |old(issued)| + 1
      ensures fd != -1 ==>
        fd in registry && fresh(registry[fd]) && registry == old(registry)[fd := registry[fd]] &&
        registry[fd].id == |old(issued)| && live == old(live) + {registry[fd].id} &&
        registry[fd].driver == SelectDriver(cfg) && registry[fd].host == host.value &&
        registry[fd].port == U16(port) && registry[fd].hasCallback &&
        registry[fd].watch == Armed(fd, ConnectWatch) && registry[fd].CursorOk() &&
        registry[fd].gai == (if dns.Some? then dns.value else []) &&
        registry[fd].cur == NextLive(registry[fd].gai, 0)
    {
      if Rejects(host, port, hasCallback) {
        return -1;
      }
      var target: TargetHost := host.value;
      var r := NewRequest(target, U16(port));
      var e := Endpoint(cfg, target, U16(port));
      fd := ConnectNone(r, Some(e.0), e.1, dns);
      assert r.gai == (if dns.Some? then dns.value else []) && r.cur == NextLive(r.gai, 0);
      assert r.gai[..r.cur] == r.gai[0..r.cur];
      if fd != -1 {
        assert r.cur < |r.gai| && r.fd == fd > 0;
        Register(r);
      } else {
        assert 0 !in old(registry) && r.id !in old(live);
      }
    }

    /** The registry insertion at the end of proxy_connect: the request is
        filed under its descriptor. */
    method Register(r: Request)
      requires Valid() && Current(r) && r.fd > 0
      modifies this`registry
      ensures registry == old(registry)[r.fd := r] && Valid()
    {
      registry := registry[r.fd := r];
    }

    /** g_new0 and the field settings of proxy_connect and of the chosen
        connector: a fresh request with its callback set. */
    method NewRequest(host: TargetHost, port: u16) returns (r: Request)
      requires Valid()
      modifies this`issued, this`live, this`nextId
      ensures Valid() && Current(r) && fresh(r) && r !in registry.Values
      ensures r.id == old(nextId) && issued == old(issued) + [r] && live == old(live) + {r.id}
      ensures r.driver == SelectDriver(cfg) && r.host == host && r.port == port
      ensures r.hasCallback && r.fd == 0 && r.watch == Idle && r.gai == [] && r.cur == 0
    {
      r := new Request(nextId, SelectDriver(cfg), host, port);
      nextId := nextId + 1;
      issued := issued + [r];
      live := live + {r.id};
    }

    /** The effect of a handler that ends a driver step: the step's messages
        were handed to write on `source`, the closes in `pre` happened
        first, and then the request failed (phb_free with failure), was
        handed over (phb_connected with `source`) or waits on a new watch. */
    twostate predicate Settled(r: Request, source: int, step: Step<Handler>, pre: seq<int>)
      reads this, r
    {
      sent == old(sent) + Tagged(source, step.out) &&
      match step.next
      case Failed =>
        registry == old(registry) - {r.fd} && live == old(live) - {r.id} && r.watch == Idle &&
        closed == old(closed) + pre + (if r.fd > 0 then [r.fd] else []) &&
        notices == old(notices) + (if r.hasCallback then [Notice(r.id, -1)] else [])
      case Succeeded =>
        registry == old(registry) - {r.fd} && live == old(live) - {r.id} && r.watch == Idle &&
        closed == old(closed) + pre &&
        notices == old(notices) + [Notice(r.id, source)]
      case Continue(h) =>
        registry == old(registry) && live == old(live) && r.watch == Armed(source, h) &&
        closed == old(closed) + pre &&
        notices == old(notices)
    }

    /** Hands the step's messages to write and ends the step. */
    method Settle(r: Request, source: int, step: Step<Handler>)
      requires Valid() && Current(r) && r.watch == Idle
      modifies this`sent, this`registry, this`closed, this`notices, this`live, r`watch
      ensures Settled(r, source, step, [])
      ensures Valid()
    {
      sent := sent + Tagged(source, step.out);
      match step.next {
        case Failed => PhbFree(r, false);
        case Succeeded => PhbConnected(r, source);
        case Continue(h) => r.watch := Armed(source, h);
      }
    }

    /** proxy_connected: when the connect failed, move the cursor on and,
        while candidates remain, start the next one and keep the old
        descriptor number for it (a -1 from the walk is taken for a new
        descriptor too); with no candidate left, close the descriptor and
        go on with -1. Then drop the candidates and the watch and run the
        request's proxy_func, or phb_connected for a direct request. A
        failed connect with the cursor already NULL dereferences it. */
    method ProxyConnected(r: Request, connectOk: bool, sockOk: bool, lookup: Option<Socks4.Ipv4>, results: seq<int>)
      requires Valid() && Current(r) && r.CursorOk() && r.watch == Armed(r.fd, ConnectWatch)
      modifies this`sent, this`registry, this`closed, this`notices, this`live, this`faulted, this`lookups
      modifies r`watch, r`fd, r`gai, r`cur
      ensures Valid() && r.CursorOk() && lookups == old(lookups)
      ensures !connectOk && old(r.cur) == |old(r.gai)| ==>
        faulted && registry == old(registry) && notices == old(notices) && closed == old(closed) &&
        sent == old(sent) && live == old(live) && r.watch == old(r.watch) &&
        r.gai == old(r.gai) && r.cur == old(r.cur) && r.fd == old(r.fd)
      ensures !connectOk && old(r.cur) + 1 < |old(r.gai)| ==>
        var k := NextLive(old(r.gai), old(r.cur) + 1);
        faulted == old(faulted) && r.gai == old(r.gai) && r.cur == k &&
        r.fd == old(r.fd) && r.watch == Armed(old(r.fd), ConnectWatch) &&
        registry == old(registry) && notices == old(notices) && sent == old(sent) && live == old(live) &&
        closed == old(closed) + RefusedFds(old(r.gai)[old(r.cur) + 1..k]) +
          [old(r.fd), LiveFd(old(r.gai), old(r.cur) + 1)]
      ensures connectOk || old(r.cur) + 1 == |old(r.gai)| ==>
        var source := if connectOk then old(r.fd) else -1;
        faulted == old(faulted) && r.gai == [] && r.fd == old(r.fd) &&
        Settled(r, source, DriverOpen(cfg, r.driver, r.host, r.port, source, sockOk, lookup, results),
                if connectOk then [] else [old(r.fd)])
    {
      var source := r.fd;
      if !connectOk {
        if r.cur == |r.gai| {
          // phb->gai_cur->ai_next with gai_cur NULL
          faulted := true;
          return;
        }
        r.cur := r.cur + 1;
        if r.cur < |r.gai| {
          var resumed := Resume(r);
          if resumed {
            return;
          }
        }
        closed := closed + [source];
        source := -1;
      }
      HandOver(r, source, sockOk, lookup, results);
    }

    /** The resumption inside proxy_connected: drop the watch, walk on from
        the cursor, and when the walk returns anything but 0 (so also -1
        when it found nothing) close the old descriptor and the returned
        one, keep the old number and arm a new write watch on it. */
    method Resume(r: Request) returns (resumed: bool)
      requires Valid() && Current(r) && r.cur < |r.gai|
      modifies this`closed, this`lookups, this`registry, this`notices, this`live
      modifies r`watch, r`fd, r`gai, r`cur
      ensures Valid() && r.CursorOk() && resumed
      ensures var k := NextLive(old(r.gai), old(r.cur));
        r.gai == old(r.gai) && r.cur == k &&
        r.fd == old(r.fd) && r.watch == Armed(old(r.fd), ConnectWatch) &&
        registry == old(registry) && notices == old(notices) && live == old(live) && lookups == old(lookups) &&
        closed == old(closed) + RefusedFds(old(r.gai)[old(r.cur)..k]) + [old(r.fd), LiveFd(old(r.gai), old(r.cur))]
    {
      var source := r.fd;
      r.watch := Idle;
      var newFd := ConnectNone(r, None, 0, None);
      resumed := newFd != 0;
      if resumed {
        r.watch := Idle;
        closed := closed + [source, newFd];
        r.fd := source;
        r.watch := Armed(source, ConnectWatch);
      }
    }

    /** The end of proxy_connected: drop the candidate list and the watch,
        then run proxy_func, or phb_connected for a direct request. */
    method HandOver(r: Request, source: int, sockOk: bool, lookup: Option<Socks4.Ipv4>, results: seq<int>)
      requires Valid() && Current(r)
      modifies this`sent, this`registry, this`closed, this`notices, this`live
      modifies r`watch, r`gai, r`cur
      ensures Valid() && r.gai == [] && r.cur == 0
      ensures Settled(r, source, DriverOpen(cfg, r.driver, r.host, r.port, source, sockOk, lookup, results), [])
    {
      r.gai, r.cur := [], 0;
      r.watch := Idle;
      Settle(r, source, DriverOpen(cfg, r.driver, r.host, r.port, source, sockOk, lookup, results));
    }

    /** http_canread: read the header block and hand the request over iff
        it starts with an accepted status line. */
    method HttpCanRead(r: Request, peer: seq<byte>, stale: byte)
      requires Valid() && Current(r) && r.watch == Armed(r.fd, HttpReplyWatch)
      modifies this`sent, this`registry, this`closed, this`notices, this`live, r`watch
      ensures Valid()
      ensures Settled(r, r.fd, Step(if Http.StatusOk(Http.HeaderBlock(peer, stale)) then Succeeded else Failed, []), [])
    {
      r.watch := Idle;
      var line := Http.ReadHeaderBlock(peer, stale);
      if Http.StatusOk(line) {
        PhbConnected(r, r.fd);
      } else {
        PhbFree(r, false);
      }
    }

    /** s4_canread: hand the request over iff the reply is granted. */
    method S4CanRead(r: Request, reply: Read)
      requires Valid() && Current(r) && r.watch == Armed(r.fd, Socks4ReplyWatch)
      modifies this`sent, this`registry, this`closed, this`notices, this`live, r`watch
      ensures Valid()
      ensures Settled(r, r.fd, Step(if Socks4.ReplyGranted(reply) then Succeeded else Failed, []), [])
    {
      r.watch := Idle;
      Settle(r, r.fd, Step(if Socks4.ReplyGranted(reply) then Succeeded else Failed, []));
    }

    /** s5_canread, s5_readauth and s5_canread_again: the SOCKS5 driver's
        reaction to the reply its armed watch waits for. */
    method S5CanRead(r: Request, reply: Read, results: seq<int>)
      requires Valid() && Current(r) && r.watch.Armed? && r.watch.fd == r.fd
      requires r.watch.handler in {Socks5MethodWatch, Socks5AuthWatch, Socks5ConnectWatch}
      modifies this`sent, this`registry, this`closed, this`notices, this`live, r`watch
      ensures Valid()
      ensures var s := Socks5.React(Socks5Context(cfg, r.host, r.port), Socks5Phase(old(r.watch.handler)), reply, results);
        Settled(r, r.fd, Step(LiftSocks5(s.next), s.out), [])
    {
      var phase := Socks5Phase(r.watch.handler);
      r.watch := Idle;
      var s := Socks5.React(Socks5Context(cfg, r.host, r.port), phase, reply, results);
      Settle(r, r.fd, Step(LiftSocks5(s.next), s.out));
    }
}
}
