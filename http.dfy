/** The HTTP CONNECT handshake of lib/proxy.c (http_canwrite, http_canread):
    the request head of section 9.3.6 of RFC 9110 with an optional
    "Proxy-Authorization: Basic" line (section 2 of RFC 7617), the reader
    that collects the proxy's header block byte by byte, and the status test
    applied to what it collected. */
module Http {
  import opened Wire

  /** Size of the command buffer every line is formatted into. */
  const CommandSize: nat := 384
  /** Size of the buffer the reply's header block is read into. */
  const LineSize: nat := 8192
  /** The reader stops after this many bytes, one short of the buffer. */
  const MaxRead: nat := LineSize - 1

  const Colon: byte := 58

  /** "host:port", as "%s:%d" prints it. */
  function Authority(host: CString, port: u16): seq<byte>
  {
    host + [Colon] + Decimal(port)
  }

  /** "CONNECT ", " HTTP/1.1" and "Host: " as octets (see HeadWords). */
  const ConnectWord: seq<byte> := [67, 79, 78, 78, 69, 67, 84, 32]
  const VersionWord: seq<byte> := [32, 72, 84, 84, 80, 47, 49, 46, 49]
  const HostWord: seq<byte> := [72, 111, 115, 116, 58, 32]

  lemma HeadWords()
    ensures ConnectWord == Ascii("CONNECT ")
    ensures VersionWord == Ascii(" HTTP/1.1")
    ensures HostWord == Ascii("Host: ")
  {
  }

  /** The request line and the Host header for an authority. */
  function Head(auth: seq<byte>): seq<byte>
  {
    ConnectWord + auth + VersionWord + [CR, LF] + HostWord + auth + [CR, LF]
  }

  /** The head http_canwrite formats for the target. */
  function ConnectHead(host: CString, port: u16): seq<byte>
  {
    Head(Authority(host, port))
  }

  /** The credentials line; `credential` is the base64 text of "user:pass". */
  function AuthLine(credential: CString): seq<byte>
  {
    Ascii("Proxy-Authorization: Basic ") + credential + [CR, LF]
  }

  /** The empty line that ends the request. */
  const BlankLine: seq<byte> := [CR, LF]

  /** What formatting into the 384-byte command buffer leaves: the text,
      cut to 383 bytes when it is longer. */
  function Snprintf(s: seq<byte>): (r: seq<byte>)
    ensures |r| < CommandSize
    ensures r <= s
    ensures |s| < CommandSize ==> r == s
  {
    if |s| < CommandSize then s else s[..CommandSize - 1]
  }

  /** The sends of http_canwrite, in order. */
  function Messages(host: CString, port: u16, user: CString, credential: CString): seq<seq<byte>>
  {
    [Snprintf(ConnectHead(host, port))] +
    (if |user| > 0 then [Snprintf(AuthLine(credential))] else []) +
    [Snprintf(BlankLine)]
  }

  datatype Phase = AwaitStatus

  /** http_canwrite: fail if the socket reports an error, otherwise send the
      request head, the credentials line when a proxy user is configured,
      and the blank line, failing on the first send that returns -1, and
      wait for the reply. */
  function Open(host: CString, port: u16, user: CString, credential: CString, sockOk: bool, results: seq<int>): (s: Step<Phase>)
    ensures s.next == Continue(AwaitStatus) || s.next == Failed
    ensures !sockOk ==> s == Step(Failed, [])
    ensures sockOk ==> 1 <= |s.out| && s.out <= Messages(host, port, user, credential)
    ensures s.next == Continue(AwaitStatus) ==> s.out == Messages(host, port, user, credential)
    ensures s.next == Continue(AwaitStatus) <==>
      sockOk && forall i | 0 <= i < |s.out| :: WriteResult(results, i, |s.out[i]|) >= 0
    ensures s.next == Failed && sockOk ==>
      WriteResult(results, |s.out| - 1, |s.out[|s.out| - 1]|) < 0 &&
      forall i | 0 <= i < |s.out| - 1 :: WriteResult(results, i, |s.out[i]|) >= 0
  {
    if !sockOk then Step(Failed, [])
    else
      var t := Transmit(Messages(host, port, user, credential), results, FailsIfNegative, Continue(AwaitStatus));
      assert forall i | 0 <= i < |t.out| ::
        Accepted(t.out, results, FailsIfNegative, i) <==> WriteResult(results, i, |t.out[i]|) >= 0;
      t
  }

  /** Index of the first b in s, or |s| when there is none. */
  function FirstIndex(s: seq<byte>, b: byte): (r: nat)
    ensures r <= |s|
    ensures forall i | 0 <= i < r :: s[i] != b
    ensures r < |s| ==> s[r] == b
  {
    if s == [] then 0
    else if s[0] == b then 0
    else 1 + FirstIndex(s[1..], b)
  }

  /** Index of the last b in s, or -1 when there is none. */
  function LastIndex(s: seq<byte>, b: byte): (r: int)
    ensures -1 <= r < |s|
    ensures r >= 0 ==> s[r] == b
    ensures forall i | r < i < |s| :: s[i] != b
  {
    if s == [] then -1
    else if s[|s| - 1] == b then |s| - 1
    else LastIndex(s[..|s| - 1], b)
  }

  /** The proxy's view of a request head: the request line up to the first
      CR, and a Host header that repeats its authority. */
  function ParseHead(h: seq<byte>): Option<(CString, u16)>
  {
    var i := FirstIndex(h, CR);
    if 17 <= i && i + 2 <= |h| && h[i + 1] == LF &&
       h[..8] == ConnectWord && h[i - 9..i] == VersionWord &&
       h[i + 2..] == HostWord + h[8..i - 9] + [CR, LF]
    then SplitAuthority(h[8..i - 9])
    else None
  }

  /** An authority split at its last colon into a NUL-free host and a
      decimal port. */
  function SplitAuthority(auth: seq<byte>): Option<(CString, u16)>
  {
    var j := LastIndex(auth, Colon);
    if 0 <= j && j + 1 < |auth| && IsDigits(auth[j + 1..]) && DigitsValue(auth[j + 1..]) < 65536 &&
       forall k | 0 <= k < j :: auth[k] != 0
    then
      var host: CString := auth[..j];
      var port: u16 := DigitsValue(auth[j + 1..]);
      Some((host, port))
    else None
  }

  lemma FirstIndexOf(a: seq<byte>, b: byte, c: seq<byte>)
    requires forall i | 0 <= i < |a| :: a[i] != b
    ensures FirstIndex(a + [b] + c, b) == |a|
  {
    var s := a + [b] + c;
    assert s[|a|] == b;
  }

  lemma LastIndexOf(a: seq<byte>, b: byte, c: seq<byte>)
    requires forall i | 0 <= i < |c| :: c[i] != b
    ensures LastIndex(a + [b] + c, b) == |a|
  {
    var s := a + [b] + c;
    assert s[|a|] == b;
  }

  /** The head reads back as its authority when the authority has no CR. */
  lemma HeadFrame(auth: seq<byte>)
    requires forall i | 0 <= i < |auth| :: auth[i] != CR
    ensures ParseHead(Head(auth)) == SplitAuthority(auth)
  {
    var line := ConnectWord + auth + VersionWord;
    var tail := HostWord + auth + [CR, LF];
    var h := Head(auth);
    assert h == line + [CR] + ([LF] + tail);
    assert forall i | 0 <= i < |line| :: line[i] != CR by {
      forall i | 0 <= i < |line|
        ensures line[i] != CR
      {
        if 8 <= i < 8 + |auth| {
          assert line[i] == auth[i - 8];
        }
      }
    }
    FirstIndexOf(line, CR, [LF] + tail);
    assert h[..8] == ConnectWord;
    assert h[8..|line| - 9] == auth;
    assert h[|line| - 9..|line|] == VersionWord;
    assert h[|line| + 2..] == tail;
  }

  /** "host:port" splits back into the host and the port. */
  lemma AuthorityRoundTrip(host: CString, port: u16)
    ensures SplitAuthority(Authority(host, port)) == Some((host, port))
  {
    var d := Decimal(port);
    var auth := Authority(host, port);
    assert forall i | 0 <= i < |d| :: d[i] != Colon;
    LastIndexOf(host, Colon, d);
    assert auth[..|host|] == host;
    assert auth[|host| + 1..] == d;
    DecimalRoundTrip(port);
  }

  /** The request head reads back as the target host and port, for any host
      without a CR in it. */
  lemma HeadRoundTrip(host: CString, port: u16)
    requires forall i | 0 <= i < |host| :: host[i] != CR
    ensures ParseHead(ConnectHead(host, port)) == Some((host, port))
  {
    var d := Decimal(port);
    var auth := Authority(host, port);
    assert forall i | 0 <= i < |auth| :: auth[i] != CR by {
      forall i | 0 <= i < |auth|
        ensures auth[i] != CR
      {
        if i > |host| {
          assert auth[i] == d[i - 1 - |host|];
        }
      }
    }
    HeadFrame(auth);
    AuthorityRoundTrip(host, port);
  }

  /** Without truncation the head is at most 295 bytes: the 128-byte bound
      on target hosts keeps it inside the 384-byte command buffer. */
  lemma HeadFits(host: CString, port: u16)
    requires |host| <= 128
    ensures |ConnectHead(host, port)| <= 295 < CommandSize
    ensures Snprintf(ConnectHead(host, port)) == ConnectHead(host, port)
  {
    PortDigits(port);
  }

  /** A credentials line is sent whole when the base64 text is at most 354
      bytes; the base64 of "user:pass" for 127-byte fields is 340. */
  lemma AuthLineFits(credential: CString)
    requires |credential| <= 354
    ensures Snprintf(AuthLine(credential)) == AuthLine(credential)
  {
  }

  /** What a completed http_canwrite sent: the head, which reads back as the
      target, the credentials line exactly when a user is configured, and
      the blank line. */
  lemma {:induction false} SuccessfulOpen(host: CString, port: u16, user: CString, credential: CString, sockOk: bool, results: seq<int>)
    requires |host| <= 128 && forall i | 0 <= i < |host| :: host[i] != CR
    requires |credential| <= 354
    requires Open(host, port, user, credential, sockOk, results).next == Continue(AwaitStatus)
    ensures sockOk
    ensures var out := Open(host, port, user, credential, sockOk, results).out;
      |out| == (if |user| > 0 then 3 else 2) &&
      ParseHead(out[0]) == Some((host, port)) &&
      (|user| > 0 ==> out[1] == AuthLine(credential)) &&
      out[|out| - 1] == BlankLine
  {
    HeadFits(host, port);
    AuthLineFits(credential);
    HeadRoundTrip(host, port);
  }

  // ---- The header-block reader of http_canread ----

  predicate IsBreak(b: byte)
  {
    b == CR || b == LF
  }

  /** The reader's line-feed counter after the bytes s: a LF adds one, a CR
      leaves it, any other byte resets it. */
  function Nlc(s: seq<byte>): nat
  {
    if s == [] then 0
    else if s[|s| - 1] == LF then Nlc(s[..|s| - 1]) + 1
    else if s[|s| - 1] == CR then Nlc(s[..|s| - 1])
    else 0
  }

  /** Start of the longest run of CR and LF bytes that ends s. */
  function BreakStart(s: seq<byte>): (t: nat)
    ensures t <= |s|
    ensures forall i | t <= i < |s| :: IsBreak(s[i])
    ensures t > 0 ==> !IsBreak(s[t - 1])
  {
    if s == [] || !IsBreak(s[|s| - 1]) then |s| else BreakStart(s[..|s| - 1])
  }

  function LfCount(s: seq<byte>): nat
  {
    if s == [] then 0 else (if s[0] == LF then 1 else 0) + LfCount(s[1..])
  }

  lemma {:induction false} LfCountAppend(s: seq<byte>, b: byte)
    ensures LfCount(s + [b]) == LfCount(s) + (if b == LF then 1 else 0)
  {
    if s != [] {
      assert (s + [b])[1..] == s[1..] + [b];
      LfCountAppend(s[1..], b);
    }
  }

  /** The counter is the number of line feeds in the trailing run of CR and
      LF bytes: it reaches 2 exactly when the input ends in an empty line,
      two LFs with nothing but CRs between them. */
  lemma {:induction false} NlcCountsTrailingBreaks(s: seq<byte>)
    ensures Nlc(s) == LfCount(s[BreakStart(s)..])
  {
    if s != [] && IsBreak(s[|s| - 1]) {
      var p := s[..|s| - 1];
      NlcCountsTrailingBreaks(p);
      var t := BreakStart(p);
      assert s[t..] == p[t..] + [s[|s| - 1]];
      LfCountAppend(p[t..], s[|s| - 1]);
    }
  }

  /** Carriage returns leave the counter as it is. */
  lemma {:induction false} CrsKeepNlc(p: seq<byte>, crs: seq<byte>)
    requires forall i | 0 <= i < |crs| :: crs[i] == CR
    ensures Nlc(p + crs) == Nlc(p)
    decreases |crs|
  {
    if crs != [] {
      var q := crs[..|crs| - 1];
      CrsKeepNlc(p, q);
      assert (p + crs)[..|p + crs| - 1] == p + q;
      assert (p + crs)[|p + crs| - 1] == CR;
    } else {
      assert p + crs == p;
    }
  }

  /** A counter value of 2 is reached right after a blank line: from a
      counter of 0 (after any byte other than CR or LF, possibly followed by
      CRs, as in "...OK\r"), a LF, only CRs, then a LF. */
  lemma BlankLineCounts(a: seq<byte>, crs: seq<byte>)
    requires Nlc(a) == 0
    requires forall i | 0 <= i < |crs| :: crs[i] == CR
    ensures Nlc(a + [LF] + crs + [LF]) == 2
  {
    var one := a + [LF];
    assert one[..|one| - 1] == a;
    CrsKeepNlc(one, crs);
    var s := one + crs + [LF];
    assert s[..|s| - 1] == one + crs;
  }

  /** The usual end of an HTTP header block, CR LF CR LF after a line's
      last character, brings the counter to 2. */
  lemma CrlfTerminator(a: seq<byte>)
    requires Nlc(a) == 0
    ensures Nlc(a + [CR, LF, CR, LF]) == 2
  {
    var p := a + [CR];
    assert p[..|p| - 1] == a;
    BlankLineCounts(p, [CR]);
    assert p + [LF] + [CR] + [LF] == a + [CR, LF, CR, LF];
  }

  /** Where the reader stops consuming, looking from `from` on: at the
      8191-byte limit, once the counter reaches 2, or when the input ends. */
  function StopAt(peer: seq<byte>, from: nat): (k: nat)
    requires from <= |peer| && from <= MaxRead
    ensures from <= k <= |peer| && k <= MaxRead
    ensures k == MaxRead || k == |peer| || Nlc(peer[..k]) == 2
    ensures forall j | from <= j < k :: Nlc(peer[..j]) != 2
    decreases MaxRead - from
  {
    if from == MaxRead || from == |peer| || Nlc(peer[..from]) == 2 then from
    else StopAt(peer, from + 1)
  }

  /** What http_canread leaves before the NUL it writes: the bytes consumed
      and, when the input ran out before the limit and before a blank line,
      one more buffer byte, because the position advances on the failed read
      too. The unset bytes of the stack buffer are all `stale`. */
  function HeaderBlock(peer: seq<byte>, stale: byte): (r: seq<byte>)
    ensures |r| <= MaxRead
    ensures r <= peer + [stale]
    ensures |r| > |peer| ==> forall j | 0 <= j <= |peer| :: Nlc(peer[..j]) != 2
  {
    var k := StopAt(peer, 0);
    if k < MaxRead && Nlc(peer[..k]) != 2 then peer[..k] + [stale] else peer[..k]
  }

  /** The pos/nlc loop of http_canread over the bytes the proxy sends; each
      read returns one byte while there are bytes left. */
  method ReadHeaderBlock(peer: seq<byte>, stale: byte) returns (line: seq<byte>)
    ensures line == HeaderBlock(peer, stale)
    ensures |line| <= LineSize - 1
  {
    var inputline := new byte[LineSize](_ => stale);
    var pos, nlc := 0, 0;
    while pos < MaxRead && nlc != 2
      invariant 0 <= pos <= |peer| && pos <= MaxRead
      invariant nlc == Nlc(peer[..pos])
      invariant inputline[..pos] == peer[..pos]
      invariant forall j | pos <= j < LineSize :: inputline[j] == stale
      invariant forall j | 0 <= j < pos :: Nlc(peer[..j]) != 2
      decreases MaxRead - pos
    {
      var at := pos;
      pos := pos + 1;
      if at >= |peer| {
        // read() returned 0 or -1, after pos was advanced
        assert StopAt(peer, 0) == at;
        inputline[pos] := 0;
        line := inputline[..pos];
        assert line == inputline[..at] + [inputline[at]];
        return;
      }
      inputline[at] := peer[at];
      assert peer[..pos][..at] == peer[..at];
      if inputline[at] == LF {
        nlc := nlc + 1;
      } else if inputline[at] != CR {
        nlc := 0;
      }
    }
    assert StopAt(peer, 0) == pos;
    inputline[pos] := 0;
    line := inputline[..pos];
  }

  /** The accepted status lines. */
  const Good10: seq<byte> := Ascii("HTTP/1.0 200")
  const Good11: seq<byte> := Ascii("HTTP/1.1 200")

  predicate IsGood(s: seq<byte>)
  {
    s == Good10 || s == Good11
  }

  /** The memcmp test on the buffer: its first 12 bytes spell an accepted
      status. A block shorter than that fails, on the NUL after it. */
  predicate StatusOk(line: seq<byte>)
  {
    |line| >= 12 && IsGood(line[..12])
  }

  lemma NoLfPrefix(s: seq<byte>, k: nat)
    requires k <= |s| && forall i | 0 <= i < |s| :: s[i] != LF
    ensures Nlc(s[..k]) == 0
  {
    assert forall i | 0 <= i < k :: s[..k][i] == s[i];
    NlcWithoutLf(s[..k]);
  }

  lemma GoodHasNoLf(s: seq<byte>)
    requires IsGood(s)
    ensures |s| == 12 && forall i | 0 <= i < |s| :: s[i] != LF
  {
    assert Good10 == [72, 84, 84, 80, 47, 49, 46, 48, 32, 50, 48, 48];
    assert Good11 == [72, 84, 84, 80, 47, 49, 46, 49, 32, 50, 48, 48];
  }

  lemma {:induction false} NlcWithoutLf(s: seq<byte>)
    requires forall i | 0 <= i < |s| :: s[i] != LF
    ensures Nlc(s) == 0
  {
    if s != [] {
      NlcWithoutLf(s[..|s| - 1]);
    }
  }

  /** The reader reads all of an accepted status line: it holds no line
      feed, so the counter stays 0 over it. */
  lemma GoodStartRead(peer: seq<byte>)
    requires |peer| >= 12 && IsGood(peer[..12])
    ensures StopAt(peer, 0) >= 12
  {
    GoodHasNoLf(peer[..12]);
    forall j | 0 <= j <= 12
      ensures Nlc(peer[..j]) == 0
    {
      NoLfPrefix(peer[..12], j);
      assert peer[..12][..j] == peer[..j];
    }
  }

  /** Once the reader got at least 12 bytes, the buffer starts with them. */
  lemma LongBlockPrefix(peer: seq<byte>, stale: byte)
    requires StopAt(peer, 0) >= 12
    ensures HeaderBlock(peer, stale)[..12] == peer[..12]
  {
    var k := StopAt(peer, 0);
    assert HeaderBlock(peer, stale)[..12] == peer[..k][..12];
  }

  /** The reply succeeds iff the proxy's first 12 bytes are an accepted
      status, or it sent exactly 11 bytes that, with the stale byte the
      failed read left behind, spell one. */
  lemma StatusVerdict(peer: seq<byte>, stale: byte)
    ensures StatusOk(HeaderBlock(peer, stale)) <==>
      (|peer| >= 12 && IsGood(peer[..12])) || (|peer| == 11 && IsGood(peer + [stale]))
  {
    var k := StopAt(peer, 0);
    var line := HeaderBlock(peer, stale);
    if |peer| >= 12 && IsGood(peer[..12]) {
      GoodStartRead(peer);
      LongBlockPrefix(peer, stale);
    } else if |peer| == 11 && IsGood(peer + [stale]) {
      GoodHasNoLf(peer + [stale]);
      assert forall i | 0 <= i < |peer| :: peer[i] == (peer + [stale])[i];
      NoLfPrefix(peer, k);
      assert k == 11 && peer[..k] == peer;
      assert line == peer + [stale] && line[..12] == line;
    } else {
      if k >= 12 {
        LongBlockPrefix(peer, stale);
      } else if k < MaxRead && Nlc(peer[..k]) != 2 {
        assert k == |peer| && peer[..k] == peer;
      }
    }
  }

  /** The reader never takes more than 8191 bytes and always stops right
      after the first blank line within them. */
  lemma ReaderStops(peer: seq<byte>, stale: byte, a: seq<byte>, crs: seq<byte>)
    requires Nlc(a) == 0
    requires forall i | 0 <= i < |crs| :: crs[i] == CR
    requires |a + [LF] + crs + [LF]| <= MaxRead && a + [LF] + crs + [LF] <= peer
    ensures |HeaderBlock(peer, stale)| <= |a + [LF] + crs + [LF]|
    ensures StopAt(peer, 0) < |a + [LF] + crs + [LF]| ==> Nlc(peer[..StopAt(peer, 0)]) == 2
  {
    var b := a + [LF] + crs + [LF];
    BlankLineCounts(a, crs);
    assert peer[..|b|] == b;
  }
}
