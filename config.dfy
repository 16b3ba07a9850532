/** The proxy settings of lib/proxy.c (the globals proxyhost, proxyport,
    proxytype, proxyuser, proxypass) and the dispatch table
    proxy_connect_funcs_array that picks a connector from them. */
module Config {
  import opened Wire

  /** A value that fits one of the 128-byte settings arrays with its NUL. */
  type Setting = s: CString | |s| < 128

  /** The proxy type numbers. */
  const ProxyNone: int := 0
  const ProxyHttp: int := 1
  const ProxySocks4: int := 2
  const ProxySocks5: int := 3
  const ProxySocks4A: int := 4

  /** The connectors the table holds. */
  datatype Driver = Direct | HttpDriver | Socks4Driver | Socks5Driver

  /** proxy_connect_funcs_array, indexed by proxy type; SOCKS4A shares the
      SOCKS4 connector. */
  const DriverTable: seq<Driver> := [Direct, HttpDriver, Socks4Driver, Socks5Driver, Socks4Driver]

  /** The settings; `credential` stands for the base64 text of
      "user:pass" that tobase64 produces, a C string as "%s" prints it. */
  datatype Settings = Settings(
    proxyHost: Setting, proxyPort: int, proxyType: int,
    proxyUser: Setting, proxyPass: Setting, credential: CString)

  /** The table entry when a proxy host, a positive port and a type inside
      the table are set, the direct connector otherwise. */
  function SelectDriver(cfg: Settings): (d: Driver)
    ensures d != Direct ==> |cfg.proxyHost| > 0 && cfg.proxyPort > 0 && ProxyHttp <= cfg.proxyType <= ProxySocks4A
    ensures |cfg.proxyHost| > 0 && cfg.proxyPort > 0 && cfg.proxyType == ProxySocks4A ==> d == Socks4Driver
  {
    if |cfg.proxyHost| > 0 && cfg.proxyPort > 0 && 0 <= cfg.proxyType < |DriverTable|
    then DriverTable[cfg.proxyType]
    else Direct
  }

  /** The SOCKS4 connector sends the 4A form iff the type is SOCKS4A. */
  predicate IsSocks4A(cfg: Settings)
  {
    cfg.proxyType == ProxySocks4A
  }

  /** Where the first TCP leg goes: the proxy (its port as an unsigned
      short) for a proxied request, the target itself otherwise. */
  function Endpoint(cfg: Settings, host: CString, port: u16): (e: (CString, u16))
  {
    if SelectDriver(cfg) == Direct then (host, port)
    else (cfg.proxyHost, U16(cfg.proxyPort))
  }

  /** Which connector each setting selects: a proxy only with a host, a
      positive port and a known type; HTTP for type 1, SOCKS5 for type 3,
      the one SOCKS4 connector for types 2 and 4. */
  lemma DriverChoice(cfg: Settings)
    ensures SelectDriver(cfg) != Direct <==>
      |cfg.proxyHost| > 0 && cfg.proxyPort > 0 && ProxyHttp <= cfg.proxyType <= ProxySocks4A
    ensures SelectDriver(cfg) == HttpDriver <==>
      |cfg.proxyHost| > 0 && cfg.proxyPort > 0 && cfg.proxyType == ProxyHttp
    ensures SelectDriver(cfg) == Socks4Driver <==>
      |cfg.proxyHost| > 0 && cfg.proxyPort > 0 && (cfg.proxyType == ProxySocks4 || cfg.proxyType == ProxySocks4A)
    ensures SelectDriver(cfg) == Socks5Driver <==>
      |cfg.proxyHost| > 0 && cfg.proxyPort > 0 && cfg.proxyType == ProxySocks5
  {
  }

  /** A proxied request's first leg goes to the proxy, and the proxy port is
      the configured one whenever it fits an unsigned short. */
  lemma EndpointChoice(cfg: Settings, host: CString, port: u16)
    ensures SelectDriver(cfg) == Direct ==> Endpoint(cfg, host, port) == (host, port)
    ensures SelectDriver(cfg) != Direct ==>
      Endpoint(cfg, host, port).0 == cfg.proxyHost && |cfg.proxyHost| > 0 &&
      (cfg.proxyPort < 65536 ==> Endpoint(cfg, host, port).1 == cfg.proxyPort)
  {
  }
}
