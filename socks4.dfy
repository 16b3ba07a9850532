/** The SOCKS4 / SOCKS4A handshake of lib/proxy.c (s4_canwrite, s4_canread):
    the 9-byte CONNECT request, the host-name trailer of the 4A extension,
    and the acceptance test on the proxy's reply. */
module Socks4 {
  import opened Wire

  const Version: byte := 4
  const CommandConnect: byte := 1
  /** Reply code "request granted". */
  const Granted: byte := 90
  /** The SOCKS4A destination 0.0.0.1: "no address, the host name follows". */
  const NameFollows: Ipv4 := [0, 0, 0, 1]

  type Ipv4 = s: seq<byte> | |s| == 4 witness [0, 0, 0, 0]

  /** The request: version, command, destination port (big-endian),
      destination address, and the NUL that ends an empty user id. */
  function Request(port: u16, dest: Ipv4): (p: seq<byte>)
  {
    [Version, CommandConnect, port / 256, port % 256] + dest + [0]
  }

  /** The second write of SOCKS4A: the host name with its terminating NUL. */
  function HostTrailer(host: CString): seq<byte>
  {
    host + [0]
  }

  /** Where the request points: the SOCKS4A marker, or the target's IPv4
      address looked up by the client. */
  function Destination(is4a: bool, looked: Ipv4): Ipv4
  {
    if is4a then NameFollows else looked
  }

  /** Fills the 12-byte packet of s4_canwrite and returns the 9 bytes written. */
  method BuildRequest(port: u16, is4a: bool, looked: Ipv4) returns (wire: seq<byte>)
    ensures |wire| == 9
    ensures wire == Request(port, Destination(is4a, looked))
  {
    var packet := new byte[12];
    packet[0] := Version;
    packet[1] := CommandConnect;
    packet[2] := port / 256;
    packet[3] := port % 256;
    if is4a {
      packet[4], packet[5], packet[6], packet[7] := 0, 0, 0, 1;
    } else {
      packet[4], packet[5], packet[6], packet[7] := looked[0], looked[1], looked[2], looked[3];
    }
    packet[8] := 0;
    wire := packet[..9];
  }

  /** The proxy's view of a request: port and destination, when well formed. */
  function ParseRequest(p: seq<byte>): Option<(u16, Ipv4)>
  {
    if |p| == 9 && p[0] == Version && p[1] == CommandConnect && p[8] == 0
    then
      var port: u16 := p[2] as int * 256 + p[3] as int;
      var dest: Ipv4 := p[4..8];
      Some((port, dest))
    else None
  }

  /** The proxy's view of the 4A trailer: the bytes up to the NUL that ends it. */
  function ParseTrailer(t: seq<byte>): Option<CString>
  {
    if |t| >= 1 && t[|t| - 1] == 0 && forall i | 0 <= i < |t| - 1 :: t[i] != 0
    then
      var host: CString := t[..|t| - 1];
      Some(host)
    else None
  }

  lemma RequestRoundTrip(port: u16, dest: Ipv4)
    ensures ParseRequest(Request(port, dest)) == Some((port, dest))
  {
    var p := Request(port, dest);
    assert p[4..8] == dest;
  }

  lemma TrailerRoundTrip(host: CString)
    ensures ParseTrailer(HostTrailer(host)) == Some(host)
  {
    assert HostTrailer(host)[..|host|] == host;
  }

  /** The messages s4_canwrite hands to write, in order. */
  function Messages(is4a: bool, host: CString, port: u16, looked: Ipv4): seq<seq<byte>>
  {
    [Request(port, Destination(is4a, looked))] + (if is4a then [HostTrailer(host)] else [])
  }

  datatype Phase = AwaitReply

  /** s4_canwrite once the TCP leg is up: fail if the socket reports an
      error or (SOCKS4 only) the target does not resolve, otherwise send the
      request (and the 4A trailer), each write having to transfer exactly
      its length, and wait for the reply. */
  function Open(is4a: bool, host: CString, port: u16, sockOk: bool, lookup: Option<Ipv4>, results: seq<int>): (s: Step<Phase>)
    ensures s.next == Continue(AwaitReply) || s.next == Failed
    ensures !sockOk || (!is4a && lookup.None?) ==> s == Step(Failed, [])
    ensures sockOk && (is4a || lookup.Some?) ==>
      1 <= |s.out| && s.out <= Messages(is4a, host, port, if lookup.Some? then lookup.value else NameFollows)
    ensures s.next == Continue(AwaitReply) ==> |s.out| == (if is4a then 2 else 1)
    ensures s.next == Continue(AwaitReply) <==>
      sockOk && (is4a || lookup.Some?) &&
      forall i | 0 <= i < |s.out| :: WriteResult(results, i, |s.out[i]|) == |s.out[i]|
    ensures s.next == Failed && sockOk && (is4a || lookup.Some?) ==>
      WriteResult(results, |s.out| - 1, |s.out[|s.out| - 1]|) != |s.out[|s.out| - 1]| &&
      forall i | 0 <= i < |s.out| - 1 :: WriteResult(results, i, |s.out[i]|) == |s.out[i]|
  {
    if !sockOk then Step(Failed, [])
    else if !is4a && lookup.None? then Step(Failed, [])
    else
      var looked := if lookup.Some? then lookup.value else NameFollows;
      var t := Transmit(Messages(is4a, host, port, looked), results, FailsIfNotExact, Continue(AwaitReply));
      assert forall i | 0 <= i < |t.out| ::
        Accepted(t.out, results, FailsIfNotExact, i) <==> WriteResult(results, i, |t.out[i]|) == |t.out[i]|;
      t
  }

  /** s4_canread's test: at least 4 bytes arrived and the second is "granted".
      The version byte is not looked at. */
  predicate ReplyGranted(r: Read)
  {
    r.Received? && |r.data| >= 4 && r.data[1] == Granted
  }

  /** What the driver sends for a target, in every case that gets as far as
      sending: one 9-byte request whose fields read back as the target port
      and the destination, and, for SOCKS4A only, a trailer that reads back
      as the host name. */
  lemma {:induction false} MessagesRoundTrip(is4a: bool, host: CString, port: u16, sockOk: bool, lookup: Option<Ipv4>, results: seq<int>)
    requires Open(is4a, host, port, sockOk, lookup, results).out != []
    ensures var s := Open(is4a, host, port, sockOk, lookup, results);
      sockOk && (is4a || lookup.Some?) &&
      ParseRequest(s.out[0]) == Some((port, if is4a then NameFollows else lookup.value)) &&
      |s.out| <= 2 && (|s.out| == 2 ==> is4a && ParseTrailer(s.out[1]) == Some(host)) &&
      (s.next != Failed ==> |s.out| == if is4a then 2 else 1)
  {
    var looked := if lookup.Some? then lookup.value else NameFollows;
    var msgs := Messages(is4a, host, port, looked);
    RequestRoundTrip(port, Destination(is4a, looked));
    TrailerRoundTrip(host);
    var s := Open(is4a, host, port, sockOk, lookup, results);
    assert s == Transmit(msgs, results, FailsIfNotExact, Continue(AwaitReply));
    if s.next != Continue(AwaitReply) {
      var k :| 0 <= k < |msgs| && s.out == msgs[..k + 1];
      assert s.out[0] == msgs[0];
    }
  }

  /** The reply is granted iff at least four bytes arrived and the second is
      90: a reply "[0x00, 0x5A, ...]" passes and "[0x00, 0x5B, ...]" fails. */
  lemma ReplyExamples(rest: seq<byte>)
    requires |rest| >= 2
    ensures ReplyGranted(Received([0x00, 0x5A] + rest))
    ensures !ReplyGranted(Received([0x00, 0x5B] + rest))
    ensures !ReplyGranted(Received([0x00, 0x5A, 0x00]))
    ensures !ReplyGranted(ReadFailed)
  {
  }

  /** The version byte of the reply is ignored: replies that differ only in
      byte 0 get the same verdict. */
  lemma ReplyIgnoresVersion(v0: byte, v1: byte, rest: seq<byte>)
    ensures ReplyGranted(Received([v0] + rest)) == ReplyGranted(Received([v1] + rest))
  {
  }
}
