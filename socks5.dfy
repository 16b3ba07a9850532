/** The SOCKS5 handshake of lib/proxy.c (s5_canwrite, s5_canread,
    s5_readauth, s5_sendconnect, s5_canread_again): the method-selection
    greeting and CONNECT request of RFC 1928 (sections 3 and 4), the
    username/password sub-negotiation of RFC 1929 (section 2), the checks on
    each reply, and the driver's state machine. */
module Socks5 {
  import opened Wire

  const Version: byte := 5
  const NoAuth: byte := 0x00
  const UserPass: byte := 0x02
  const NoAcceptable: byte := 0xFF
  const AuthVersion: byte := 1
  const CommandConnect: byte := 1
  const DomainName: byte := 3
  /** Size of the stack buffer every SOCKS5 message is built in. */
  const BufferSize: nat := 512

  /** The method-selection message: "no authentication", and also
      "username/password" when a proxy user is configured. */
  function Greeting(user: CString): seq<byte>
  {
    if |user| > 0 then [Version, 2, NoAuth, UserPass] else [Version, 1, NoAuth]
  }

  /** The username/password request: version 1, then each field behind a
      one-byte length. */
  function AuthRequest(user: seq<byte>, pass: seq<byte>): seq<byte>
    requires |user| < 256 && |pass| < 256
  {
    [AuthVersion, |user|] + user + [|pass|] + pass
  }

  /** The CONNECT request with a domain-name destination: version, command,
      reserved, address type 3, length byte, the name, port big-endian. */
  function ConnectRequest(host: seq<byte>, port: u16): seq<byte>
    requires |host| < 256
  {
    [Version, CommandConnect, 0, DomainName, |host|] + host + [port / 256, port % 256]
  }

  /** Fills the greeting into s5_canwrite's buffer; the result is what is written. */
  method BuildGreeting(user: CString) returns (wire: seq<byte>)
    ensures wire == Greeting(user)
    ensures |wire| == if |user| > 0 then 4 else 3
  {
    var buf := new byte[BufferSize];
    var i := 0;
    buf[0] := Version;
    if |user| > 0 {
      buf[1], buf[2], buf[3] := 2, NoAuth, UserPass;
      i := 4;
    } else {
      buf[1], buf[2] := 1, NoAuth;
      i := 3;
    }
    wire := buf[..i];
  }

  /** Fills the sub-negotiation into s5_canread's buffer. The configured
      user and password are at most 127 bytes each (they live in 128-byte
      arrays), so both length bytes are exact and the 3 + 127 + 127 bytes
      fit the 512-byte buffer. */
  method BuildAuth(user: CString, pass: CString) returns (wire: seq<byte>)
    requires |user| < 128 && |pass| < 128
    ensures wire == AuthRequest(user, pass)
    ensures |wire| == 3 + |user| + |pass| <= BufferSize
  {
    var buf := new byte[BufferSize];
    var i, j := |user|, |pass|;
    buf[0] := AuthVersion;
    buf[1] := i;
    MemCopy(buf, 2, user);
    ghost var head := buf[..2 + i];
    assert head == [AuthVersion, i] + user by {
      assert head[..2] == buf[..2];
      assert head[2..] == buf[2..2 + i];
    }
    buf[2 + i] := j;
    assert buf[..2 + i] == head;
    MemCopy(buf, 2 + i + 1, pass);
    assert buf[..3 + i] == head + [j] by {
      assert buf[..3 + i][..2 + i] == buf[..2 + i];
    }
    wire := buf[..3 + i + j];
    assert wire[..3 + i] == buf[..3 + i];
    assert wire[3 + i..] == buf[3 + i..3 + i + j] == pass;
    assert wire == wire[..3 + i] + wire[3 + i..];
  }

  /** Fills the CONNECT request into s5_sendconnect's buffer. The 128-byte
      bound on target hosts keeps the length byte exact and the 7 + 128
      bytes inside the 512-byte buffer. */
  method BuildConnect(host: CString, port: u16) returns (wire: seq<byte>)
    requires |host| <= 128
    ensures wire == ConnectRequest(host, port)
    ensures |wire| == 7 + |host| <= BufferSize
  {
    var buf := new byte[BufferSize];
    var hlen := |host|;
    buf[0] := Version;
    buf[1] := CommandConnect;
    buf[2] := 0;
    buf[3] := DomainName;
    buf[4] := hlen;
    ghost var fixed := buf[..5];
    MemCopy(buf, 5, host);
    ghost var head := buf[..5 + hlen];
    assert head == fixed + host by {
      assert head[..5] == buf[..5];
      assert head[5..] == buf[5..5 + hlen];
    }
    buf[5 + hlen] := port / 256;
    buf[5 + hlen + 1] := port % 256;
    assert buf[..5 + hlen] == head;
    wire := buf[..5 + hlen + 2];
    assert wire == buf[..5 + hlen] + [buf[5 + hlen], buf[5 + hlen + 1]];
  }

  /** The methods a greeting offers, as the proxy reads it. */
  function OfferedMethods(g: seq<byte>): Option<set<byte>>
  {
    if |g| >= 2 && g[0] == Version && g[1] as int == |g| - 2
    then Some(set i | 2 <= i < |g| :: g[i])
    else None
  }

  /** The proxy's view of a sub-negotiation request: user and password. */
  function ParseAuth(b: seq<byte>): Option<(seq<byte>, seq<byte>)>
  {
    if |b| >= 2 && b[0] == AuthVersion && 2 + b[1] as int < |b| && |b| == 3 + b[1] as int + b[2 + b[1]] as int
    then Some((b[2..2 + b[1]], b[3 + b[1]..]))
    else None
  }

  /** The proxy's view of a CONNECT request: destination name and port. */
  function ParseConnect(b: seq<byte>): Option<(seq<byte>, u16)>
  {
    if |b| >= 5 && b[..4] == [Version, CommandConnect, 0, DomainName] && |b| == 7 + b[4] as int
    then
      var port: u16 := b[5 + b[4]] as int * 256 + b[6 + b[4]] as int;
      Some((b[5..5 + b[4]], port))
    else None
  }

  /** The greeting offers "username/password" exactly when a user is set. */
  lemma GreetingOffers(user: CString)
    ensures OfferedMethods(Greeting(user)) == Some(if |user| > 0 then {NoAuth, UserPass} else {NoAuth})
  {
    var g := Greeting(user);
    if |user| > 0 {
      assert g[2] == NoAuth && g[3] == UserPass;
      assert (set i | 2 <= i < |g| :: g[i]) == {NoAuth, UserPass};
    } else {
      assert g[2] == NoAuth;
      assert (set i | 2 <= i < |g| :: g[i]) == {NoAuth};
    }
  }

  lemma AuthRoundTrip(user: seq<byte>, pass: seq<byte>)
    requires |user| < 256 && |pass| < 256
    ensures ParseAuth(AuthRequest(user, pass)) == Some((user, pass))
  {
    var b := AuthRequest(user, pass);
    assert b[2 + |user|] == |pass|;
    assert b[2..2 + |user|] == user;
    assert b[3 + |user|..] == pass;
  }

  lemma ConnectRoundTrip(host: seq<byte>, port: u16)
    requires |host| < 256
    ensures ParseConnect(ConnectRequest(host, port)) == Some((host, port))
  {
    var b := ConnectRequest(host, port);
    assert b[..4] == [Version, CommandConnect, 0, DomainName];
    assert b[5..5 + |host|] == host;
  }

  /** What s5_canread makes of the 2-byte method reply. */
  datatype Selection = Rejected | PasswordAuth | NoAuthentication

  function SelectMethod(r: Read): Selection
  {
    if !(r.Received? && |r.data| >= 2) then Rejected
    else if r.data[0] != Version || r.data[1] == NoAcceptable then Rejected
    else if r.data[1] == UserPass then PasswordAuth
    else NoAuthentication
  }

  /** Every well-formed reply other than 0x02 and 0xFF means "no
      authentication", whatever method it names. */
  lemma SelectionCases(r: Read)
    ensures SelectMethod(r) == Rejected <==>
      !(r.Received? && |r.data| >= 2 && r.data[0] == Version && r.data[1] != NoAcceptable)
    ensures SelectMethod(r) == PasswordAuth <==>
      r.Received? && |r.data| >= 2 && r.data[0] == Version && r.data[1] == UserPass
    ensures SelectMethod(r) == NoAuthentication <==>
      r.Received? && |r.data| >= 2 && r.data[0] == Version && r.data[1] != UserPass && r.data[1] != NoAcceptable
  {
  }

  /** s5_readauth's test: the reply is version 1, status 0. */
  predicate AuthGranted(r: Read)
  {
    r.Received? && |r.data| >= 2 && r.data[0] == AuthVersion && r.data[1] == 0
  }

  /** The sub-negotiation reply is granted iff it is version 1 (not 5) with
      status 0. */
  lemma AuthReplyExamples()
    ensures AuthGranted(Received([1, 0]))
    ensures !AuthGranted(Received([5, 0]))
    ensures !AuthGranted(Received([1, 1]))
    ensures !AuthGranted(Received([1]))
    ensures !AuthGranted(ReadFailed)
  {
  }

  /** s5_canread_again's test: ten bytes arrived, version 5, reply 0. */
  predicate ConnectGranted(r: Read)
  {
    r.Received? && |r.data| >= 10 && r.data[0] == Version && r.data[1] == 0
  }

  /** Length of a complete CONNECT reply under section 6 of RFC 1928, by the
      address type it carries. */
  function RfcReplyLength(atyp: byte, nameLength: byte): Option<nat>
  {
    if atyp == 1 then Some(10)
    else if atyp == 3 then Some(7 + nameLength)
    else if atyp == 4 then Some(22)
    else None
  }

  /** The driver reads the reply as a fixed 10 bytes: right for an IPv4
      bound address, twelve bytes short for IPv6, and a granted reply with
      a bound name of under three bytes, sent whole, is refused. */
  lemma FixedReplyLength(name: seq<byte>, rest: seq<byte>)
    requires |name| < 3
    ensures RfcReplyLength(1, 0) == Some(10)
    ensures RfcReplyLength(4, 0) == Some(10 + 12)
    ensures var reply := [Version, 0, 0, DomainName, |name|] + name + [0, 80];
      RfcReplyLength(3, |name|) == Some(|reply|) && !ConnectGranted(Received(reply))
  {
  }

  datatype Phase = AwaitMethod | AwaitAuth | AwaitConnectReply

  /** What the driver knows: the configured credentials (at most 127 bytes
      each) and the target (at most 128 bytes). */
  datatype Context = Context(user: CString, pass: CString, host: CString, port: u16)

  predicate ValidContext(c: Context)
  {
    |c.user| < 128 && |c.pass| < 128 && |c.host| <= 128
  }

  /** s5_canwrite: after a clean TCP leg, write the greeting (a short write
      fails) and wait for the method reply. */
  function Open(c: Context, sockOk: bool, results: seq<int>): (s: Step<Phase>)
    ensures s.next == Continue(AwaitMethod) || s.next == Failed
    ensures !sockOk ==> s == Step(Failed, [])
    ensures sockOk ==> s.out == [Greeting(c.user)]
    ensures s.next == Continue(AwaitMethod) <==>
      sockOk && WriteResult(results, 0, |Greeting(c.user)|) >= |Greeting(c.user)|
  {
    if !sockOk then Step(Failed, [])
    else Transmit([Greeting(c.user)], results, FailsIfShort, Continue(AwaitMethod))
  }

  /** s5_sendconnect: write the CONNECT request and wait for its reply. The
      length it compares write's result with is a size_t, so the comparison
      is unsigned and a failed write (-1) goes unnoticed: only a short write
      of zero or more bytes fails the request. */
  function SendConnect(c: Context, results: seq<int>): (s: Step<Phase>)
    requires ValidContext(c)
    ensures s.out == [ConnectRequest(c.host, c.port)]
    ensures s.next == Continue(AwaitConnectReply) || s.next == Failed
    ensures s.next == Failed <==> 0 <= AsSize(WriteResult(results, 0, 7 + |c.host|)) < 7 + |c.host|
  {
    Transmit([ConnectRequest(c.host, c.port)], results, FailsIfShortUnsigned, Continue(AwaitConnectReply))
  }

  /** A CONNECT write that fails with -1 is taken for a complete one: the
      driver goes on to wait for the reply. A write of fewer bytes than the
      request fails it. */
  lemma SendConnectIgnoresError(c: Context, short: nat)
    requires ValidContext(c) && short < 7 + |c.host|
    ensures SendConnect(c, [-1]).next == Continue(AwaitConnectReply)
    ensures SendConnect(c, [short]).next == Failed
  {
  }

  /** One readiness event of the driver: the reply read in `phase`, and what
      the writes it triggers return. */
  function React(c: Context, phase: Phase, r: Read, results: seq<int>): (s: Step<Phase>)
    requires ValidContext(c)
    ensures s.next != Continue(AwaitMethod) && |s.out| <= 1
    ensures s.next == Succeeded <==> phase == AwaitConnectReply && ConnectGranted(r)
    ensures s.next == Continue(AwaitAuth) ==>
      phase == AwaitMethod && SelectMethod(r) == PasswordAuth && s.out == [AuthRequest(c.user, c.pass)]
    ensures s.next == Continue(AwaitConnectReply) ==>
      s.out == [ConnectRequest(c.host, c.port)] &&
      ((phase == AwaitMethod && SelectMethod(r) == NoAuthentication) || (phase == AwaitAuth && AuthGranted(r)))
    ensures phase == AwaitMethod && SelectMethod(r) == Rejected ==> s == Step(Failed, [])
    ensures phase == AwaitMethod && SelectMethod(r) == PasswordAuth ==>
      s.out == [AuthRequest(c.user, c.pass)] &&
      (s.next == Continue(AwaitAuth) <==>
       WriteResult(results, 0, |AuthRequest(c.user, c.pass)|) >= |AuthRequest(c.user, c.pass)|)
    ensures phase == AwaitMethod && SelectMethod(r) == NoAuthentication ==> s == SendConnect(c, results)
    ensures phase == AwaitAuth && AuthGranted(r) ==> s == SendConnect(c, results)
    ensures phase == AwaitAuth && !AuthGranted(r) ==> s == Step(Failed, [])
    ensures phase == AwaitConnectReply ==> s.out == [] && (s.next == Succeeded || s.next == Failed)
  {
    match phase
    case AwaitMethod =>
      (match SelectMethod(r)
       case Rejected => Step(Failed, [])
       case PasswordAuth =>
         Transmit([AuthRequest(c.user, c.pass)], results, FailsIfShort, Continue(AwaitAuth))
       case NoAuthentication => SendConnect(c, results))
    case AwaitAuth =>
      if AuthGranted(r) then SendConnect(c, results) else Step(Failed, [])
    case AwaitConnectReply =>
      Step(if ConnectGranted(r) then Succeeded else Failed, [])
  }

  datatype Event = Event(reply: Read, results: seq<int>)

  /** Runs the driver from `phase` over successive readiness events until it
      succeeds, fails, or the events run out. */
  function Drive(c: Context, phase: Phase, events: seq<Event>): Step<Phase>
    requires ValidContext(c)
    decreases |events|
  {
    if events == [] then Step(Continue(phase), [])
    else
      var s := React(c, phase, events[0].reply, events[0].results);
      if s.next.Continue? then
        var rest := Drive(c, s.next.phase, events[1..]);
        Step(rest.next, s.out + rest.out)
      else s
  }

  /** A whole SOCKS5 exchange: greeting, then the events. */
  function Conversation(c: Context, sockOk: bool, greetResults: seq<int>, events: seq<Event>): Step<Phase>
    requires ValidContext(c)
  {
    var s := Open(c, sockOk, greetResults);
    if s.next.Continue? then
      var rest := Drive(c, s.next.phase, events);
      Step(rest.next, s.out + rest.out)
    else s
  }

  /** The message after the greeting is the sub-negotiation when the proxy
      picked 0x02, and the CONNECT request directly otherwise. */
  lemma {:induction false} SecondMessage(c: Context, sockOk: bool, greetResults: seq<int>, events: seq<Event>)
    requires ValidContext(c)
    requires |Conversation(c, sockOk, greetResults, events).out| >= 2
    ensures sockOk && |events| >= 1
    ensures Conversation(c, sockOk, greetResults, events).out[0] == Greeting(c.user)
    ensures Conversation(c, sockOk, greetResults, events).out[1] ==
      if SelectMethod(events[0].reply) == PasswordAuth then AuthRequest(c.user, c.pass)
      else ConnectRequest(c.host, c.port)
  {
    var s := Open(c, sockOk, greetResults);
    assert s.next == Continue(AwaitMethod) && s.out == [Greeting(c.user)];
    assert events != [];
    var t := React(c, AwaitMethod, events[0].reply, events[0].results);
    assert t.out != [];
  }

  /** A successful exchange sent exactly: the greeting, the sub-negotiation
      if and only if the proxy picked 0x02, and the CONNECT request; and
      the proxy granted the authentication (when asked) and the connection. */
  lemma {:induction false} SuccessfulConversation(c: Context, sockOk: bool, greetResults: seq<int>, events: seq<Event>)
    requires ValidContext(c)
    requires Conversation(c, sockOk, greetResults, events).next == Succeeded
    ensures sockOk && |events| >= 2 && SelectMethod(events[0].reply) != Rejected
    ensures var auth := SelectMethod(events[0].reply) == PasswordAuth;
      |events| >= (if auth then 3 else 2) &&
      Conversation(c, sockOk, greetResults, events).out ==
        [Greeting(c.user)] + (if auth then [AuthRequest(c.user, c.pass)] else []) + [ConnectRequest(c.host, c.port)] &&
      (auth ==> AuthGranted(events[1].reply)) &&
      ConnectGranted(events[if auth then 2 else 1].reply)
  {
    var s := Open(c, sockOk, greetResults);
    assert s.next == Continue(AwaitMethod) && s.out == [Greeting(c.user)];
    assert events != [];
    var t := React(c, AwaitMethod, events[0].reply, events[0].results);
    assert t.next.Continue?;
    var e1 := events[1..];
    var d1 := Drive(c, t.next.phase, e1);
    assert Drive(c, AwaitMethod, events) == Step(d1.next, t.out + d1.out);
    assert e1 != [];
    var u := React(c, t.next.phase, e1[0].reply, e1[0].results);
    assert events[1] == e1[0];
    if SelectMethod(events[0].reply) == PasswordAuth {
      assert t == Step(Continue(AwaitAuth), [AuthRequest(c.user, c.pass)]);
      assert u.next.Continue?;
      assert AuthGranted(e1[0].reply);
      assert u == Step(Continue(AwaitConnectReply), [ConnectRequest(c.host, c.port)]);
      var e2 := e1[1..];
      var d2 := Drive(c, AwaitConnectReply, e2);
      assert d1 == Step(d2.next, u.out + d2.out);
      assert e2 != [];
      var v := React(c, AwaitConnectReply, e2[0].reply, e2[0].results);
      assert d2 == v;
      assert events[2] == e2[0];
    } else {
      assert t == Step(Continue(AwaitConnectReply), [ConnectRequest(c.host, c.port)]);
      assert d1 == u;
    }
  }

  /** The exchanges of RFC 1928: with credentials the greeting lists two
      methods; a proxy choosing 0x02 gets the sub-negotiation next, one
      choosing 0x00 the CONNECT request; the reply "[0x05, 0x00, ...]" of
      ten bytes succeeds and "[0x05, 0x01, ...]" fails. */
  lemma MethodReplyExamples(c: Context, tail: seq<byte>)
    requires ValidContext(c) && |c.user| > 0 && |tail| == 8
    ensures Greeting(c.user) == [5, 2, 0, 2]
    ensures React(c, AwaitMethod, Received([5, 2]), []) ==
      Step(Continue(AwaitAuth), [AuthRequest(c.user, c.pass)])
    ensures React(c, AwaitMethod, Received([5, 0]), []) ==
      Step(Continue(AwaitConnectReply), [ConnectRequest(c.host, c.port)])
    ensures React(c, AwaitConnectReply, Received([5, 0] + tail), []).next == Succeeded
    ensures React(c, AwaitConnectReply, Received([5, 1] + tail), []).next == Failed
  {
  }
}
