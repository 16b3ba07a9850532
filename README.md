# Proxy connection core of lib/proxy.c, in Dafny

This project models how bitlbee opens an outgoing TCP connection, directly or
through an HTTP, SOCKS4/4A or SOCKS5 proxy, and proves properties of that
model. It covers the following parts:

- **Handshake messages.** The HTTP `CONNECT` head, the `Proxy-Authorization`
  line and the blank line. The 9-byte SOCKS4 request and the SOCKS4A host
  trailer. The SOCKS5 greeting, the username/password sub-negotiation and the
  `CONNECT` request with a domain-name destination. Each has a byte-level
  definition. The SOCKS4 request and the three SOCKS5 messages, which the
  code fills into a stack buffer byte by byte, also have a method that fills
  an `array` the way the code does. The HTTP lines, which `g_snprintf`
  formats into the stack buffer `cmd`, are byte sequences cut to that buffer
  by `Http.Snprintf`; no array method models them. The HTTP head, the SOCKS4 request, the
  SOCKS4A trailer, the SOCKS5 greeting (which methods it offers), the
  sub-negotiation and the SOCKS5 `CONNECT` request also have a parser
  standing in for the proxy, with a round-trip lemma.
- **Reply tests.** The HTTP status test, `s4_canread`'s granted test, the
  SOCKS5 method choice, the authentication verdict and the 10-byte CONNECT
  reply test.
- **HTTP reply reader.** `http_canread`'s `pos`/`nlc` loop is an imperative
  method over a `byte` array. It is proved equal to a specification function
  of the bytes the proxy sends.
- **Drivers.** Each proxy driver is a step function: a phase and a readiness
  event go in; the messages written and the next phase, success or failure
  come out. For SOCKS5, a fold over events gives whole conversations.
- **Candidate walk.** `proxy_connect_none`'s walk over the resolved addresses
  is imperative, with the cursor `gai_cur` as an index into the list.
- **Module state.** A `Connector` class holds the registry `phb_hash`, from
  descriptor to pending request, and logs for the side effects: callback
  invocations, `closesocket` calls, writes and resolver queries. A `Request`
  class is the `struct PHB` with its descriptor, its armed watch, its
  candidate list and its cursor. `proxy_connect`, `proxy_connected`,
  `phb_free`, `phb_connected`, `proxy_disconnect` and the read handlers are
  methods on these classes.

The invariant `Connector.Valid` is established by the constructor and kept
by every entry point: `proxy_connect`, `proxy_connected`, `proxy_disconnect`
and the read handlers. It says:

- each registry entry sits under its own descriptor and belongs to a live
  request;
- no request is notified twice;
- no notified request is still pending, and no cancelled request is ever
  notified.

Several quirks of the code are reproduced as written, and lemmas or the
scenarios in `scenarios.dfy` show them:

- `proxy_connected` tests the resumed walk's result for non-zero (line 120).
  A walk that found nothing returns -1, which passes that test. The request
  then stays armed on its closed descriptor with a NULL cursor, and the next
  failure report dereferences that cursor (`Scenarios.ExhaustedResumeFaults`).
- `http_canread` advances `pos` even when the read fails (line 231). An
  11-byte reply is therefore judged together with one stale buffer byte
  (`Http.StatusVerdict`).
- `s4_canread` ignores the version byte of the reply (line 313).
- `s5_canread_again` reads the CONNECT reply as exactly 10 bytes (line 395).
  Short domain-name replies are refused, and IPv6 replies are not consumed
  whole (`Socks5.FixedReplyLength`).
- `s5_canread` treats every method other than 0x02 and 0xFF as "no
  authentication" (lines 459-477).
- When the walk finds nothing at the top level, `proxy_connect_none` frees
  the request with `success` TRUE (lines 209-211). The caller gets -1 back
  and no callback, so a caller waiting for a failure callback never gets one
  (`Scenarios.SynchronousExhaustion`).
- `s5_sendconnect` compares what `write` returned with a `size_t` length
  (line 420). The comparison is unsigned, so a failed write (-1) counts as a
  complete one and the driver goes on to wait for the CONNECT reply
  (`Socks5.SendConnectIgnoresError`).

Files:

- `wire.dfy`: bytes, C strings, `unsigned short`, decimal printing, reads,
  and the step type with the drivers' write checks.
- `config.dfy`: the proxy settings and the dispatch table.
- `socks4.dfy`, `socks5.dfy` and `http.dfy`: the three drivers.
- `connector.dfy`: requests, the registry and the lifecycle.
- `scenarios.dfy`: whole runs over fixed inputs.

## Model

| member | source | states |
|---|---|---|
| Wire.U16 | lib/proxy.c:292-300 | the int-to-unsigned-short conversion keeps values below 65536 and is congruent to its argument modulo 65536 |
| Wire.DecimalRoundTrip | lib/proxy.c:264-265 | the "%d" text of a port reads back as that port |
| Wire.PortDigits | lib/proxy.c:264-265 | a port prints in at most five digits |
| Wire.FirstRefused | lib/proxy.c:264-283 | the index where sending stops is the first write the driver's check refuses: every earlier write was accepted |
| Wire.Transmit | lib/proxy.c:264-283 | a step reaches its next phase iff every write is accepted and then sent all messages; otherwise it failed having sent exactly the messages up to the first refused write |
| Wire.AsSize | lib/proxy.c:420 | converting write's ssize_t result to size_t keeps non-negative values and maps a negative one to it plus 2^64 |
| Wire.UnsignedShortCheck | lib/proxy.c:420 | an unsigned "write result below length" test lets through exactly the negative results and the complete writes |
| Wire.MemCopy | lib/proxy.c:467-469 | memcpy puts the source bytes at the offset and leaves the rest of the buffer unchanged |
| Config.DriverChoice | lib/proxy.c:531-537 | a proxy driver is chosen iff a proxy host, a positive port and a type 1..4 are set; type 1 gives HTTP, 3 gives SOCKS5, 2 and 4 give the one SOCKS4 driver |
| Config.SelectDriver | lib/proxy.c:531-537 | a proxy driver is only chosen with a proxy host, a positive port and a type 1..4; SOCKS4A gets the SOCKS4 driver |
| Config.EndpointChoice | lib/proxy.c:292-300 | a proxied request's first leg goes to the configured proxy host and port; a direct one goes to the target |
| Socks4.BuildRequest | lib/proxy.c:339-355 | the 9 bytes written are version 4, CONNECT, the big-endian port, the looked-up address or 0.0.0.1 for SOCKS4A, and an empty user id |
| Socks4.RequestRoundTrip | lib/proxy.c:339-355 | a proxy parsing the request reads back the port and the destination address |
| Socks4.TrailerRoundTrip | lib/proxy.c:357-363 | the SOCKS4A trailer reads back as the host name up to its NUL |
| Socks4.MessagesRoundTrip | lib/proxy.c:320-373 | whatever s4_canwrite sends needs a clean socket and an address (or SOCKS4A); its request carries the target port and destination; the trailer is sent only for SOCKS4A and names the host; a step that does not fail sent both messages for SOCKS4A and one otherwise |
| Socks4.Open | lib/proxy.c:320-373 | a socket error, or a SOCKS4 target that does not resolve, fails with nothing sent; otherwise the messages sent are a prefix of request and 4A trailer, and the driver waits for the reply iff every write transferred exactly its length, having sent two messages for SOCKS4A and one otherwise; on failure the last message sent is the first inexact write and nothing follows it |
| Socks4.ReplyGranted | lib/proxy.c:313 | the reply is granted when at least 4 bytes arrived and the second is 90 |
| Socks4.ReplyExamples | lib/proxy.c:305-318 | a reply with code 90 and at least 4 bytes is granted; code 91, a 3-byte reply or a failed read is not |
| Socks4.ReplyIgnoresVersion | lib/proxy.c:313 | replies differing only in byte 0 get the same verdict |
| Socks5.BuildGreeting | lib/proxy.c:493-504 | the greeting written is [5, 1, 0], or [5, 2, 0, 2] when a proxy user is configured |
| Socks5.GreetingOffers | lib/proxy.c:493-504 | the greeting offers username/password exactly when a user is configured, and always offers no authentication |
| Socks5.BuildAuth | lib/proxy.c:463-470 | the sub-negotiation is version 1 and the length-prefixed user and password; it fits the 512-byte buffer |
| Socks5.AuthRoundTrip | lib/proxy.c:463-470 | a proxy parsing the sub-negotiation reads back user and password |
| Socks5.BuildConnect | lib/proxy.c:405-419 | the CONNECT request is 5, 1, 0, 3, the host length, the host and the big-endian port; it fits the 512-byte buffer |
| Socks5.ConnectRoundTrip | lib/proxy.c:410-419 | a proxy parsing the CONNECT request reads back host name and port |
| Socks5.Open | lib/proxy.c:482-519 | a socket error fails with nothing sent; otherwise the greeting is sent and the driver waits for the method reply iff the write was not short |
| Socks5.SendConnect | lib/proxy.c:405-426 | the CONNECT request is sent, and the driver fails iff write's result, read as a size_t, is below the request's length; otherwise it waits for the CONNECT reply |
| Socks5.SendConnectIgnoresError | lib/proxy.c:420 | a CONNECT write that returns -1 is taken as complete, while a short non-negative write fails the request |
| Socks5.React | lib/proxy.c:388-480 | a refused method reply fails with nothing sent; choice 0x02 sends the sub-negotiation and waits for the auth reply iff that write was not short; any other choice, or a granted sub-negotiation, runs the CONNECT step; a refused sub-negotiation fails; the CONNECT reply succeeds iff granted, with nothing sent; at most one message goes out per reply |
| Socks5.SelectMethod | lib/proxy.c:455-477 | the method reply is read as refused, username/password or no authentication |
| Socks5.AuthGranted | lib/proxy.c:439 | the sub-negotiation reply is granted when it is version 1 with status 0 |
| Socks5.AuthReplyExamples | lib/proxy.c:437-442 | [1, 0] is granted; [5, 0], [1, 1], a 1-byte reply and a failed read are not |
| Socks5.ConnectGranted | lib/proxy.c:395-398 | the CONNECT reply is granted when 10 bytes arrived, version 5, status 0 |
| Socks5.SelectionCases | lib/proxy.c:455-477 | a method reply is refused iff it is short, not version 5 or 0xFF; it asks for authentication iff it names 0x02; every other method means no authentication |
| Socks5.FixedReplyLength | lib/proxy.c:395-400 | the fixed 10-byte read matches an IPv4 reply under section 6 of RFC 1928, is 12 bytes short of an IPv6 one, and refuses a granted domain-name reply sent whole with a bound name under 3 bytes |
| Socks5.SecondMessage | lib/proxy.c:448-480 | after the greeting, the next message sent is the sub-negotiation when the proxy chose 0x02 and the CONNECT request otherwise |
| Socks5.SuccessfulConversation | lib/proxy.c:388-519 | a successful exchange sent the greeting, then the sub-negotiation exactly when the proxy chose 0x02, then the CONNECT request; the proxy granted the authentication when asked, and the connection |
| Socks5.MethodReplyExamples | lib/proxy.c:388-480 | with credentials the greeting is [5, 2, 0, 2]; choice 0x02 leads to the sub-negotiation and 0x00 to the CONNECT request; a 10-byte reply [5, 0, ...] succeeds and [5, 1, ...] fails |
| Http.Snprintf | lib/proxy.c:264-282 | formatting into the 384-byte buffer keeps a prefix of the text, below 384 bytes, and the whole text when it fits |
| Http.AuthorityRoundTrip | lib/proxy.c:264-265 | "host:port" splits back at its last colon into the host and the port |
| Http.HeadWords | lib/proxy.c:264 | the byte words of the head spell "CONNECT ", " HTTP/1.1" and "Host: " |
| Http.HeadRoundTrip | lib/proxy.c:264-265 | for a target host without a CR byte, the CONNECT head reads back as the target host and port |
| Http.HeadFits | lib/proxy.c:264-265 | for a host of at most 128 bytes the head is at most 295 bytes and is sent untruncated |
| Http.AuthLineFits | lib/proxy.c:275 | a credentials line with up to 354 bytes of base64 is sent untruncated |
| Http.Open | lib/proxy.c:248-290 | a socket error fails with nothing sent; otherwise the messages sent are a prefix of head, credentials line and blank line, and the driver waits for the status iff no send returned a negative value, having then sent them all; on failure the last message sent is the first negative send and nothing follows it |
| Http.SuccessfulOpen | lib/proxy.c:248-290 | a completed http_canwrite had a clean socket and sent the head naming the target, the credentials line exactly when a user is configured, and the blank line |
| Http.CrlfTerminator | lib/proxy.c:231-237 | a line's last character followed by CR LF CR LF brings the counter to 2 |
| Http.StopAt | lib/proxy.c:231 | the reader stops at the 8191-byte limit, at the end of input, or when the break counter reaches 2, and at the first such point |
| Http.ReadHeaderBlock | lib/proxy.c:222-238 | the buffer loop leaves exactly the header block the proxy's bytes determine, plus one stale byte after a failed read, and at most 8191 bytes |
| Http.HeaderBlock | lib/proxy.c:222-238 | the header block is a prefix of the proxy's bytes followed by the stale byte, at most 8191 bytes long, and holds the stale byte only when no blank line arrived |
| Http.StatusOk | lib/proxy.c:240-241 | the status test accepts a line starting with "HTTP/1.0 200" or "HTTP/1.1 200" |
| Http.NlcCountsTrailingBreaks | lib/proxy.c:231-237 | the counter nlc equals the number of line feeds in the run of CR/LF bytes at the end of what was read |
| Http.BlankLineCounts | lib/proxy.c:231-237 | from a counter of 0, a LF, only CRs, then a LF bring the counter to 2, so a blank line after any CR-terminated line counts |
| Http.ReaderStops | lib/proxy.c:231-237 | the reader never reads past the first blank line in the input and stops right after it, including the usual CR LF CR LF ending |
| Http.GoodStartRead | lib/proxy.c:231-241 | the reader consumes the whole of an accepted status line, which holds no line feed |
| Http.StatusVerdict | lib/proxy.c:240-245 | the reply is accepted iff the proxy's first 12 bytes are "HTTP/1.0 200" or "HTTP/1.1 200", or it sent exactly 11 bytes that spell one with the stale byte |
| Connector.NextLive | lib/proxy.c:176-207 | the walk stops at the first candidate whose connect is under way, or at the end of the list |
| Connector.NextLiveIsFirst | lib/proxy.c:176-207 | any index after skipped candidates that is live or the end is where the walk stops |
| Connector.RefusedFdsSplit | lib/proxy.c:193-198 | the descriptors closed over two stretches of candidates are those of the first followed by those of the second |
| Connector.RefusedFdsBound | lib/proxy.c:193-198 | the walk closes at most one positive descriptor per candidate |
| Connector.DriverOpen | lib/proxy.c:143-147 | a direct request succeeds at once; a proxied one fails with nothing sent on a socket error; otherwise it arms the driver's first reply watch or fails, and a direct request is the only one that succeeds here |
| Connector.Connector.constructor | lib/proxy.c:53 | the module starts with an empty registry and no effects, and satisfies the invariant |
| Connector.Connector.PhbFree | lib/proxy.c:69-87 | the registry entry goes; on failure the positive descriptor is closed and a set callback gets -1; the request is no longer live |
| Connector.Connector.PhbConnected | lib/proxy.c:91-106 | the request leaves the registry before its callback gets the descriptor, once, and nothing is closed |
| Connector.Connector.ProxyDisconnect | lib/proxy.c:574-594 | an unregistered descriptor is only closed; a registered request loses its watch and its callback, is closed, removed and marked cancelled; nobody is notified |
| Connector.Connector.Walk | lib/proxy.c:176-207 | the cursor moves to the first live candidate; the refused candidates passed are closed in order; the live one's descriptor is stored, armed with a write watch and returned, or -1 when none is left |
| Connector.Connector.Advance | lib/proxy.c:158-207 | the resolver is asked only when the cursor is NULL, and its answer replaces the candidates; then the walk runs from the cursor |
| Connector.Connector.ConnectNone | lib/proxy.c:152-214 | the walk's result is returned; a top-level call that found nothing frees the request without notifying anyone |
| Connector.Connector.Register | lib/proxy.c:567-569 | a request with a positive descriptor is filed under that descriptor, and the invariant still holds |
| Connector.Connector.NewRequest | lib/proxy.c:555-563 | a fresh request with its callback set and the driver the settings choose |
| Connector.Connector.ProxyConnect | lib/proxy.c:541-572 | bad arguments give -1 and no effect; otherwise the first leg's endpoint is resolved, the refused candidates are closed, the first live descriptor is returned and the new request is registered under it, armed; nobody is notified from within |
| Connector.Connector.Settle | lib/proxy.c:248-290 | a driver step's messages are written on the descriptor, then the request fails, is handed over, or waits on the next watch |
| Connector.Connector.ProxyConnected | lib/proxy.c:108-150 | a failed connect with candidates left resumes the walk under the old descriptor number; with none left the descriptor is closed and the driver runs on -1; a clean connect drops the candidates and runs the driver, or hands a direct request over; a NULL cursor is dereferenced |
| Connector.Connector.Resume | lib/proxy.c:117-126 | the walk resumes from the cursor, the old descriptor and the walk's result are closed, and the request is re-armed on the old number, even when the walk returned -1 |
| Connector.Connector.HandOver | lib/proxy.c:137-147 | the candidates and the watch are dropped and the request's first driver step runs on the descriptor |
| Connector.Connector.HttpCanRead | lib/proxy.c:222-246 | the request is handed over iff the header block starts with an accepted status; otherwise it fails |
| Connector.Connector.S4CanRead | lib/proxy.c:305-318 | the request is handed over iff the reply is granted; otherwise it fails |
| Connector.Connector.S5CanRead | lib/proxy.c:388-480 | the SOCKS5 driver reacts to the reply its watch waits for: it writes the next message and re-arms, hands the request over, or fails it |
| Scenarios.FallbackStarted | lib/proxy.c:176-207 | a direct request skips a failed socket, closes a refused connect, and is registered and armed under the first connect under way, whose descriptor is returned |
| Scenarios.Fallback | lib/proxy.c:108-150 | when that connect fails, the walk resumes on the next candidate under the same descriptor number; the callback gets that number once, and the registry ends empty |
| Scenarios.ExhaustedResumeFaults | lib/proxy.c:117-130 | a resumed walk that finds nothing leaves the request armed with a NULL cursor, and the next failure report dereferences it; nobody is notified |
| Scenarios.SynchronousExhaustion | lib/proxy.c:209-211 | when every candidate fails at once, proxy_connect returns -1, the registry stays empty and the callback is never called |
| Scenarios.Cancel | lib/proxy.c:574-594 | cancelling closes the descriptor and silences the request; a second cancel only closes the number again |
| Scenarios.Socks5Greeted | lib/proxy.c:482-519 | a SOCKS5 request's first leg goes to the proxy and the greeting offers only no authentication |
| Scenarios.Socks5Negotiation | lib/proxy.c:405-480 | the proxy choosing 0x00 draws the CONNECT request naming the target |
| Scenarios.Socks5Handshake | lib/proxy.c:388-403 | a granted CONNECT reply hands the descriptor to the callback, once, and empties the registry |

## Left out

- The operating system, the resolver and the event loop are inputs, not
  models:
  - each resolved address carries the outcome of its `socket()`/`connect()`
    pair;
  - each handler call carries what `getsockopt`, `read`, `write` and
    `gethostbyname` returned.
- Watch ids (`inpa`) and `b_event_remove` are not modelled. A request holds
  at most one armed watch, and that watch records its descriptor and handler.
- `dup2` is not modelled: after a resumed walk the request keeps the old
  descriptor number, and both closes are logged.
- `sock_make_blocking`, `sock_make_nonblocking`, the `iface_out` bind and the
  debug output are not modelled. They only affect the socket's mode or the
  log.
- `tobase64` is not modelled. The base64 text of "user:pass" is a
  configuration input (`Config.Settings.credential`).
- Memory release (`g_free`, `freeaddrinfo`) is not modelled. A freed request
  leaves the ghost set of live requests.
- Connector.Attempt: descriptors from `socket()` are positive. A socket
  numbered 0 would make `proxy_connected` treat the resumed walk as failed;
  that branch is not modelled.
- Connector.Connector.ProxyConnected: the NULL dereference is recorded as the
  `faulted` flag, with nothing else changed. What the process does after it
  is not modelled.
- Socks5.React: the sub-negotiation's length check (line 470) is read as on
  an LP64 target, where the `unsigned int` length widens to a signed
  comparison and a failed write (-1) is caught. On a 32-bit ABI that check
  would be unsigned and let -1 through; that reading is not modelled.
- Http.ReadHeaderBlock: the bytes of the uninitialised stack buffer are
  modelled as a single `stale` value.
- Http.HeadRoundTrip: `proxy_connect` accepts any host of at most 128 bytes,
  but the round trip is proved only for hosts without a CR byte; a CR inside
  the host would end the request line early for a parser.
- Http.SuccessfulOpen: a target host containing a CR byte is excluded, and
  so is base64 text longer than 354 bytes, which `snprintf` truncates.
- Connector.Connector.ProxyConnect: the dispatch table is called through
  `DriverOpen` and `ConnectNone`. `proxy_connect_http`,
  `proxy_connect_socks4` and `proxy_connect_socks5` are not separate
  members, because they only store the target and the driver and then walk
  the proxy's candidates.
