/** CreateNetwork (network_builder.go): defaults and overrides for the client
    server, then the server constructor's checks. */
module NetworkBuilder {
  import opened Wrappers
  import opened Durations
  import opened Network

  const DefaultServerAddress: string := "localhost:8080"
  const DefaultMaxConnectionNumber: int := 100
  const DefaultMaxMessageSize: int := 2048
  const DefaultIdleTimeout: Duration := 5 * Minute
  const IncorrectMaxMessageSize: string := "incorrect max message size"

  /** The network section of the configuration; zero or empty means "not set". */
  datatype NetworkConfig = NetworkConfig(
    address: string,
    maxConnections: int,
    maxMessageSize: string,
    idleTimeout: Duration)

  /** `parseSize` stands for tools.ParseSize. A bad size is reported before the
      server's own checks run. */
  function CreateNetwork(cfg: Option<NetworkConfig>, loggerPresent: bool, parseSize: string -> Result<int, string>)
    : (r: Result<TCPServer, string>)
    ensures r == Failure(IncorrectMaxMessageSize) <==>
      cfg.Some? && cfg.value.maxMessageSize != "" && parseSize(cfg.value.maxMessageSize).Failure?
    ensures r == Failure(LoggerInvalid) <==>
      !loggerPresent && !(cfg.Some? && cfg.value.maxMessageSize != "" && parseSize(cfg.value.maxMessageSize).Failure?)
    ensures r == Failure(InvalidMaxConnections) <==>
      && loggerPresent && cfg.Some? && cfg.value.maxConnections < 0
      && !(cfg.value.maxMessageSize != "" && parseSize(cfg.value.maxMessageSize).Failure?)
    ensures r.Success? ==> r.value.address != "" && r.value.maxConnections > 0 && r.value.idleTimeout != 0
  {
    var address := if cfg.Some? && cfg.value.address != "" then cfg.value.address else DefaultServerAddress;
    var maxConnectionsNumber := if cfg.Some? && cfg.value.maxConnections != 0 then cfg.value.maxConnections else DefaultMaxConnectionNumber;
    var idleTimeout := if cfg.Some? && cfg.value.idleTimeout != 0 then cfg.value.idleTimeout else DefaultIdleTimeout;
    if cfg.Some? && cfg.value.maxMessageSize != "" && parseSize(cfg.value.maxMessageSize).Failure? then
      Failure(IncorrectMaxMessageSize)
    else
      var maxMessageSize := if cfg.Some? && cfg.value.maxMessageSize != "" then parseSize(cfg.value.maxMessageSize).value else DefaultMaxMessageSize;
      NewTCPServer(address, maxConnectionsNumber, maxMessageSize, idleTimeout, loggerPresent)
  }

  /** Without a configuration: localhost:8080, 100 connections, 2048-byte
      messages, five minutes idle. */
  lemma CreateNetworkDefaults(parseSize: string -> Result<int, string>)
    ensures CreateNetwork(None, true, parseSize) == Success(TCPServer("localhost:8080", 100, 300_000_000_000, 2048))
    ensures CreateNetwork(Some(NetworkConfig("", 0, "", 0)), true, parseSize) == CreateNetwork(None, true, parseSize)
  {
  }

  /** Each set field replaces its own default, each unset one keeps it. */
  lemma CreateNetworkResolution(c: NetworkConfig, parseSize: string -> Result<int, string>)
    requires CreateNetwork(Some(c), true, parseSize).Success?
    ensures var s := CreateNetwork(Some(c), true, parseSize).value;
      && s.address == (if c.address != "" then c.address else DefaultServerAddress)
      && s.maxConnections == (if c.maxConnections != 0 then c.maxConnections else DefaultMaxConnectionNumber)
      && s.messageSize == (if c.maxMessageSize != "" then parseSize(c.maxMessageSize).value else DefaultMaxMessageSize)
      && s.idleTimeout == (if c.idleTimeout != 0 then c.idleTimeout else DefaultIdleTimeout)
  {
  }
}
