/** Vocabulary shared by the proxy handshake drivers of lib/proxy.c: octets,
    NUL-free C strings, ASCII literals, the unsigned short a port is passed
    as, the decimal text "%d" prints, the abstract outcome of read(2) and
    write(2), and the shape of one handshake step. */
module Wire {

  /** One octet, as C's unsigned char holds it. */
  type byte = b: int | 0 <= b < 256

  /** A NUL-free byte string: the bytes strlen counts in a C string. */
  type CString = s: seq<byte> | forall i | 0 <= i < |s| :: s[i] != 0

  /** A value of C's unsigned short. */
  type u16 = n: int | 0 <= n < 65536

  const CR: byte := 13
  const LF: byte := 10

  datatype Option<T> = None | Some(value: T)

  /** The conversion C applies when an int argument meets an unsigned short
      parameter: reduction modulo 2^16. */
  function U16(n: int): (r: u16)
    ensures 0 <= n < 65536 ==> r == n
    ensures (n - r) % 65536 == 0
  {
    n % 65536
  }

  /** The octets of an ASCII literal. */
  function Ascii(s: string): (b: seq<byte>)
    requires forall i | 0 <= i < |s| :: s[i] as int < 256
    ensures |b| == |s|
    ensures forall i | 0 <= i < |s| :: b[i] == s[i] as int
  {
    seq(|s|, i requires 0 <= i < |s| => s[i] as int)
  }

  predicate IsDigits(s: seq<byte>)
  {
    forall i | 0 <= i < |s| :: 48 <= s[i] <= 57
  }

  /** The text printf's "%d" produces for a non-negative int. */
  function Decimal(n: nat): (d: seq<byte>)
    ensures 1 <= |d| && IsDigits(d)
    ensures d[0] == 48 ==> n == 0
  {
    if n < 10 then [48 + n] else Decimal(n / 10) + [48 + n % 10]
  }

  /** The value a string of decimal digits denotes. */
  function DigitsValue(s: seq<byte>): nat
    requires IsDigits(s)
  {
    if s == [] then 0 else DigitsValue(s[..|s| - 1]) * 10 + (s[|s| - 1] - 48)
  }

  /** Decimal is undone by DigitsValue: the port printed into an HTTP request
      reads back as the same number. */
  lemma {:induction false} DecimalRoundTrip(n: nat)
    ensures DigitsValue(Decimal(n)) == n
  {
    if n >= 10 {
      var d := Decimal(n / 10);
      DecimalRoundTrip(n / 10);
      assert (d + [48 + n % 10])[..|d|] == d;
    }
  }

  function Pow10(k: nat): (p: nat)
    ensures p >= 1
  {
    if k == 0 then 1 else 10 * Pow10(k - 1)
  }

  /** A number below 10^k prints in at most k digits. */
  lemma {:induction false} DecimalLength(n: nat, k: nat)
    requires 1 <= k && n < Pow10(k)
    ensures |Decimal(n)| <= k
  {
    if n >= 10 {
      assert k != 1 by { assert Pow10(1) == 10; }
      DecimalLength(n / 10, k - 1);
    }
  }

  /** A port prints in at most five digits. */
  lemma PortDigits(port: u16)
    ensures |Decimal(port)| <= 5
  {
    assert Pow10(5) == 100000 by {
      assert Pow10(1) == 10;
      assert Pow10(2) == 100;
      assert Pow10(3) == 1000;
      assert Pow10(4) == 10000;
    }
    DecimalLength(port, 5);
  }

  /** What one read(2) returned: -1, or the bytes it delivered (0 bytes is
      end of stream). */
  datatype Read = ReadFailed | Received(data: seq<byte>)

  /** The fate of a request after one handshake step: wait for the next
      readiness event in the given phase, hand the connection over, or fail. */
  datatype Next<P> = Continue(phase: P) | Succeeded | Failed

  /** One handshake step: its outcome and the messages it handed to write(2),
      in order (the last one may have been refused). */
  datatype Step<P> = Step(next: Next<P>, out: seq<seq<byte>>)

  /** How a driver judges what write(2) returned for a message of n bytes:
      the HTTP driver only rejects -1, the SOCKS4 driver wants exactly n,
      the SOCKS5 driver rejects fewer than n, comparing as signed numbers
      (against an int, or an unsigned int on an LP64 target) or, where the
      length is a size_t, as unsigned ones. */
  datatype WriteCheck = FailsIfNegative | FailsIfNotExact | FailsIfShort | FailsIfShortUnsigned

  /** 2^64: size_t and ssize_t on an LP64 target are 64 bits wide. */
  const SizeModulus: nat := 0x1_0000_0000_0000_0000

  /** The usual arithmetic conversion of an ssize_t to size_t. */
  function AsSize(result: int): (r: nat)
    ensures r < SizeModulus
    ensures 0 <= result < SizeModulus ==> r == result
    ensures result < 0 && result + SizeModulus >= 0 ==> r == result + SizeModulus
  {
    result % SizeModulus
  }

  predicate WriteOk(check: WriteCheck, n: nat, result: int)
  {
    match check
    case FailsIfNegative => result >= 0
    case FailsIfNotExact => result == n
    case FailsIfShort => result >= n
    case FailsIfShortUnsigned => AsSize(result) >= n
  }

  /** Under the unsigned comparison a failed write (-1) passes the test for
      any message shorter than 2^64 - 1 bytes, and only a short write of
      zero or more bytes fails. */
  lemma UnsignedShortCheck(n: nat, result: int)
    requires n < SizeModulus - 1 && -1 <= result < SizeModulus
    ensures WriteOk(FailsIfShortUnsigned, n, result) <==> result < 0 || result >= n
  {
  }

  /** What the i-th write of a step returned; a write past the end of the
      given list transferred all n bytes. */
  function WriteResult(results: seq<int>, i: nat, n: nat): int
  {
    if i < |results| then results[i] else n
  }

  predicate Accepted(msgs: seq<seq<byte>>, results: seq<int>, check: WriteCheck, i: nat)
    requires i < |msgs|
  {
    WriteOk(check, |msgs[i]|, WriteResult(results, i, |msgs[i]|))
  }

  /** Index of the first message whose write the check refuses, or |msgs|
      when every write goes through. */
  function FirstRefused(msgs: seq<seq<byte>>, results: seq<int>, check: WriteCheck, from: nat): (k: nat)
    requires from <= |msgs|
    ensures from <= k <= |msgs|
    ensures forall i | from <= i < k :: Accepted(msgs, results, check, i)
    ensures k < |msgs| ==> !Accepted(msgs, results, check, k)
    decreases |msgs| - from
  {
    if from == |msgs| then from
    else if !Accepted(msgs, results, check, from) then from
    else FirstRefused(msgs, results, check, from + 1)
  }

  /** Sends msgs in order, each with one write, and stops at the first write
      the check refuses: the step fails having handed over the messages up
      to and including that one, or reaches `done` having sent them all. */
  function Transmit<P>(msgs: seq<seq<byte>>, results: seq<int>, check: WriteCheck, done: Next<P>): (s: Step<P>)
    requires done != Failed
    ensures s.next == done <==> forall i | 0 <= i < |msgs| :: Accepted(msgs, results, check, i)
    ensures s.next != done ==> s.next == Failed
    ensures s.next == done ==> s.out == msgs
    ensures s.next != done ==> exists k | 0 <= k < |msgs| ::
      s.out == msgs[..k + 1] && !Accepted(msgs, results, check, k) &&
      forall i | 0 <= i < k :: Accepted(msgs, results, check, i)
    ensures s.next == done <==> forall i | 0 <= i < |s.out| :: Accepted(s.out, results, check, i)
    ensures s.next != done ==>
      1 <= |s.out| && !Accepted(s.out, results, check, |s.out| - 1) &&
      forall i | 0 <= i < |s.out| - 1 :: Accepted(s.out, results, check, i)
  {
    var k := FirstRefused(msgs, results, check, 0);
    if k == |msgs| then Step(done, msgs)
    else
      assert msgs[..k + 1][k] == msgs[k];
      assert !Accepted(msgs[..k + 1], results, check, k);
      var sent := msgs[..k + 1];
      assert forall i | 0 <= i < k :: Accepted(sent, results, check, i) by {
        forall i | 0 <= i < k ensures Accepted(sent, results, check, i) {
          assert sent[i] == msgs[i] && Accepted(msgs, results, check, i);
        }
      }
      Step(Failed, sent)
  }

  /** memcpy(buf + at, src, |src|): src lands at offset `at`, the rest of
      the buffer is untouched. */
  method MemCopy(buf: array<byte>, at: nat, src: seq<byte>)
    requires at + |src| <= buf.Length
    modifies buf
    ensures buf[..at] == old(buf[..at])
    ensures buf[at..at + |src|] == src
    ensures buf[at + |src|..] == old(buf[at + |src|..])
  {
    var k := 0;
    while k < |src|
      invariant 0 <= k <= |src|
      invariant buf[..at] == old(buf[..at])
      invariant buf[at..at + k] == src[..k]
      invariant buf[at + k..] == old(buf[at + k..])
    {
      buf[at + k] := src[k];
      k := k + 1;
    }
  }
}
