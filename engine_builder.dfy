/** CreateEngine (engine_builder.go): the engine type check and the fixed
    partition count. */
module EngineBuilder {
  import opened Wrappers

  const InMemoryEngine: string := "in_memory"
  const SupportedEngineTypes: set<string> := {InMemoryEngine}
  const DefaultPartitionsNumber: int := 10
  const EngineTypeIncorrect: string := "engine type is incorrect"

  datatype EngineConfig = EngineConfig(engineType: string)

  /** in_memory.NewEngine(HashTableBuilder, partitions, logger), the call CreateEngine makes. */
  datatype EngineSetup = InMemory(partitions: int)

  /** An unset type is accepted; a set one must be supported. The partition
      count is the default whatever the configuration says. */
  function CreateEngine(cfg: Option<EngineConfig>): (r: Result<EngineSetup, string>)
    ensures r.Failure? <==> cfg.Some? && cfg.value.engineType != "" && cfg.value.engineType !in SupportedEngineTypes
    ensures r.Failure? ==> r.error == EngineTypeIncorrect
    ensures r.Success? ==> r.value == InMemory(DefaultPartitionsNumber)
  {
    if cfg.None? then Success(InMemory(DefaultPartitionsNumber))
    else if cfg.value.engineType != "" && cfg.value.engineType !in SupportedEngineTypes then Failure(EngineTypeIncorrect)
    else Success(InMemory(DefaultPartitionsNumber))
  }

  /** The nil configuration, the unset type and "in_memory" all build the same
      ten-partition engine. */
  lemma CreateEngineAccepted()
    ensures CreateEngine(None) == Success(InMemory(10))
    ensures CreateEngine(Some(EngineConfig(""))) == Success(InMemory(10))
    ensures CreateEngine(Some(EngineConfig("in_memory"))) == Success(InMemory(10))
  {
  }
}
