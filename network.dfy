/** The TCP server's constructor checks (tcp_server.go:25-47); accepting and
    serving connections is not part of this model. */
module Network {
  import opened Wrappers
  import opened Durations

  const LoggerInvalid: string := "logger is invalid"
  const InvalidMaxConnections: string := "invalid number of max connections"

  /** The server's settings: the semaphore is sized by `maxConnections`. */
  datatype TCPServer = TCPServer(address: string, maxConnections: int, idleTimeout: Duration, messageSize: int)

  /** NewTCPServer: a nil logger is rejected first, then a connection limit
      that is not positive; anything else is accepted unchanged. */
  function NewTCPServer(address: string, maxConnectionsNumber: int, maxMessageSize: int,
                        idleTimeout: Duration, loggerPresent: bool): (r: Result<TCPServer, string>)
    ensures r.Success? <==> loggerPresent && maxConnectionsNumber > 0
    ensures !loggerPresent ==> r == Failure(LoggerInvalid)
    ensures loggerPresent && maxConnectionsNumber <= 0 ==> r == Failure(InvalidMaxConnections)
    ensures r.Success? ==> r.value == TCPServer(address, maxConnectionsNumber, idleTimeout, maxMessageSize)
  {
    if !loggerPresent then Failure(LoggerInvalid)
    else if maxConnectionsNumber <= 0 then Failure(InvalidMaxConnections)
    else Success(TCPServer(address, maxConnectionsNumber, idleTimeout, maxMessageSize))
  }
}
