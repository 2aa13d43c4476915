/**
 * The TLS policy of the client: which context, if any, is handed to the
 * TCP client. A context is a record of the options chosen, not a TLS
 * implementation.
 */
module Tls {
  import opened Outcomes

  /** The port that selects TLS. */
  const SecurePort: nat := 443

  datatype Purpose = ServerAuth

  /** `ssl.OP_*` flags that switch a feature off. */
  datatype TlsOption = NoSslV2 | NoSslV3 | NoTlsV1 | NoTlsV1_1 | NoCompression

  datatype TlsContext = TlsContext(
    purpose: Purpose,
    options: set<TlsOption>,
    ciphers: string,
    alpnProtocols: seq<string>)

  /**
   * The context built for port 443: the default server-authenticating
   * context (whose own options are `defaults`) with TLSv1, TLSv1.1 and
   * compression disabled, only ECDHE+AESGCM ciphers, and "h2" as the only
   * ALPN protocol (RFC 7301; section 3.3 of RFC 7540).
   */
  function H2Context(defaults: set<TlsOption>): TlsContext
  {
    TlsContext(ServerAuth, defaults + {NoTlsV1, NoTlsV1_1, NoCompression}, "ECDHE+AESGCM", ["h2"])
  }

  /** The `ssl_context` a connection to `port` ends up with. */
  function ContextFor(port: nat, defaults: set<TlsOption>): Option<TlsContext>
  {
    if port != SecurePort then None else Some(H2Context(defaults))
  }

  /**
   * A context exists exactly for port 443; it authenticates the server,
   * keeps every default option, adds the three the client requires, and
   * offers only ECDHE+AESGCM and "h2".
   */
  lemma ContextPolicy(port: nat, defaults: set<TlsOption>)
    ensures ContextFor(port, defaults).Some? <==> port == SecurePort
    ensures ContextFor(port, defaults).Some? ==>
      var c := ContextFor(port, defaults).value;
      && c.purpose == ServerAuth
      && defaults <= c.options
      && {NoTlsV1, NoTlsV1_1, NoCompression} <= c.options
      && c.options - {NoTlsV1, NoTlsV1_1, NoCompression} <= defaults
      && c.ciphers == "ECDHE+AESGCM"
      && c.alpnProtocols == ["h2"]
  {
  }
}
