/** Command identifiers shared by the log encoding and the replay path. Only
    the two the log writes are needed; their values only have to differ. */
module Compute {

  const SetCommandID: int := 1
  const DelCommandID: int := 3
}
