/** CreateReplica (replication_builder.go): picks master or slave, resolves the
    master address, the sync interval and the log directory, and builds the
    network endpoint the replica uses. */
module ReplicationBuilder {
  import opened Wrappers
  import opened Durations
  import opened Network
  import WalBuilder

  const DefaultReplicationType: string := "master"
  const DefaultReplicationMasterAddress: string := "localhost:3232"
  const DefaultReplicationSyncInterval: Duration := Second
  const MaxReplicasNumber: int := 5
  const MaxMessageSize: int := 16 * 0x10_0000
  const ReplicaTypeIncorrect: string := "replica type is incorrect"

  /** The replication section of the configuration; zero or empty means "not set". */
  datatype ReplicationConfig = ReplicationConfig(replicaType: string, masterAddress: string, syncInterval: Duration)

  /** The arguments of network.NewTCPClient. */
  datatype ClientArgs = ClientArgs(address: string, maxMessageSize: int, idleTimeout: Duration)

  /** replication.NewMaster(server, walDirectory) or replication.NewSlave(client, syncInterval). */
  datatype Replica =
    | Master(server: TCPServer, walDirectory: string)
    | Slave(client: ClientArgs, syncInterval: Duration)

  predicate IsReplicaType(t: string) {
    t == "master" || t == "slave"
  }

  /** The sync interval after defaulting. */
  function SyncInterval(cfg: Option<ReplicationConfig>): (d: Duration)
    ensures d != 0
    ensures cfg.Some? && cfg.value.syncInterval != 0 ==> d == cfg.value.syncInterval
    ensures cfg.None? || cfg.value.syncInterval == 0 ==> d == DefaultReplicationSyncInterval
  {
    if cfg.Some? && cfg.value.syncInterval != 0 then cfg.value.syncInterval else DefaultReplicationSyncInterval
  }

  /** The master address after defaulting. */
  function MasterAddress(cfg: Option<ReplicationConfig>): (a: string)
    ensures a != ""
    ensures cfg.Some? && cfg.value.masterAddress != "" ==> a == cfg.value.masterAddress
    ensures cfg.None? || cfg.value.masterAddress == "" ==> a == DefaultReplicationMasterAddress
  {
    if cfg.Some? && cfg.value.masterAddress != "" then cfg.value.masterAddress else DefaultReplicationMasterAddress
  }

  /** `dial` stands for network.NewTCPClient and gives its error, if any. */
  function CreateReplica(replicationCfg: Option<ReplicationConfig>, walCfg: Option<WalBuilder.WALConfig>,
                         loggerPresent: bool, dial: ClientArgs -> Option<string>): (r: Result<Replica, string>)
    ensures replicationCfg.Some? && replicationCfg.value.replicaType != "" && !IsReplicaType(replicationCfg.value.replicaType) ==>
      r == Failure(ReplicaTypeIncorrect)
    ensures r.Failure? && (replicationCfg.None? || replicationCfg.value.replicaType in {"", "master"}) ==>
      !loggerPresent && r == Failure(LoggerInvalid)
    ensures r.Failure? && replicationCfg.Some? && replicationCfg.value.replicaType == "slave" ==>
      var args := ClientArgs(MasterAddress(replicationCfg), MaxMessageSize, Scale(SyncInterval(replicationCfg), 3));
      dial(args).Some? && r == Failure(dial(args).value)
    ensures r.Success? && r.value.Master? ==>
      && (replicationCfg.None? || replicationCfg.value.replicaType in {"", "master"})
      && r.value.server.address == MasterAddress(replicationCfg)
      && r.value.server.maxConnections == MaxReplicasNumber
      && r.value.server.messageSize == MaxMessageSize
      && r.value.server.idleTimeout == Scale(SyncInterval(replicationCfg), 3)
      && r.value.walDirectory ==
           (if walCfg.Some? && walCfg.value.dataDirectory != "" then walCfg.value.dataDirectory else WalBuilder.DefaultWALDataDirectory)
      && r.value.walDirectory != ""
    ensures r.Success? && r.value.Slave? ==>
      && replicationCfg.Some? && replicationCfg.value.replicaType == "slave"
      && r.value.client == ClientArgs(MasterAddress(replicationCfg), MaxMessageSize, Scale(SyncInterval(replicationCfg), 3))
      && r.value.syncInterval == SyncInterval(replicationCfg)
  {
    if replicationCfg.Some? && replicationCfg.value.replicaType != "" && !IsReplicaType(replicationCfg.value.replicaType) then
      Failure(ReplicaTypeIncorrect)
    else
      var replicaType := if replicationCfg.Some? && replicationCfg.value.replicaType != "" then replicationCfg.value.replicaType else DefaultReplicationType;
      var masterAddress := MasterAddress(replicationCfg);
      var syncInterval := SyncInterval(replicationCfg);
      var walDirectory := if walCfg.Some? && walCfg.value.dataDirectory != "" then walCfg.value.dataDirectory else WalBuilder.DefaultWALDataDirectory;
      var idleTimeout := Scale(syncInterval, 3);
      if replicaType == "master" then
        match NewTCPServer(masterAddress, MaxReplicasNumber, MaxMessageSize, idleTimeout, loggerPresent)
        case Failure(e) => Failure(e)
        case Success(server) => Success(Master(server, walDirectory))
      else
        var args := ClientArgs(masterAddress, MaxMessageSize, idleTimeout);
        match dial(args)
        case Some(e) => Failure(e)
        case None => Success(Slave(args, syncInterval))
  }

  /** The master shares the log directory with the log writer: the same
      configured directory, or the same default. */
  lemma MasterUsesWalDirectory(replicationCfg: Option<ReplicationConfig>, walCfg: Option<WalBuilder.WALConfig>,
                               loggerPresent: bool, dial: ClientArgs -> Option<string>,
                               parseSize: string -> Result<int, string>)
    requires CreateReplica(replicationCfg, walCfg, loggerPresent, dial).Success?
    requires CreateReplica(replicationCfg, walCfg, loggerPresent, dial).value.Master?
    requires WalBuilder.CreateWAL(walCfg, parseSize).Success?
    ensures var dir := CreateReplica(replicationCfg, walCfg, loggerPresent, dial).value.walDirectory;
      && (walCfg.Some? ==> dir == WalBuilder.CreateWAL(walCfg, parseSize).value.value.readerDirectory)
      && (walCfg.None? ==> dir == WalBuilder.DefaultWALDataDirectory)
  {
  }

  /** A master can fail only on the type check or in the server's constructor;
      with a logger it never fails, since five connections are allowed. */
  lemma MasterWithLoggerSucceeds(replicationCfg: Option<ReplicationConfig>, walCfg: Option<WalBuilder.WALConfig>,
                                 dial: ClientArgs -> Option<string>)
    requires replicationCfg.None? || replicationCfg.value.replicaType in {"", "master"}
    ensures CreateReplica(replicationCfg, walCfg, true, dial).Success?
    ensures CreateReplica(replicationCfg, walCfg, true, dial).value.Master?
    ensures !CreateReplica(replicationCfg, walCfg, false, dial).Success?
  {
  }

  /** A slave fails exactly when dialling the master fails, with that error. */
  lemma SlaveFailsOnlyOnDial(replicationCfg: ReplicationConfig, walCfg: Option<WalBuilder.WALConfig>,
                             loggerPresent: bool, dial: ClientArgs -> Option<string>)
    requires replicationCfg.replicaType == "slave"
    ensures var args := ClientArgs(MasterAddress(Some(replicationCfg)), MaxMessageSize, Scale(SyncInterval(Some(replicationCfg)), 3));
      && (CreateReplica(Some(replicationCfg), walCfg, loggerPresent, dial).Failure? <==> dial(args).Some?)
      && (dial(args).Some? ==> CreateReplica(Some(replicationCfg), walCfg, loggerPresent, dial) == Failure(dial(args).value))
  {
  }

  /** Without a configuration: a master on localhost:3232 with a one-second
      sync interval, hence a three-second idle timeout, over the default log
      directory. A one-minute interval gives three minutes. */
  lemma CreateReplicaDefaults(dial: ClientArgs -> Option<string>)
    ensures CreateReplica(None, None, true, dial) ==
      Success(Master(TCPServer("localhost:3232", 5, 3_000_000_000, 16777216), "./data/kv-storage/wal"))
    ensures CreateReplica(Some(ReplicationConfig("", "", 0)), None, true, dial) == CreateReplica(None, None, true, dial)
    ensures CreateReplica(Some(ReplicationConfig("master", "localhost:4442", Minute)), None, true, dial) ==
      Success(Master(TCPServer("localhost:4442", 5, 180_000_000_000, 16777216), "./data/kv-storage/wal"))
  {
  }

  /** The outcomes replication_builder_test.go expects. */
  lemma CreateReplicaExpectedOutcomes(dial: ClientArgs -> Option<string>)
    ensures CreateReplica(None, None, true, dial).Success?
    ensures CreateReplica(Some(ReplicationConfig("", "localhost:4441", 0)), None, true, dial) ==
      Success(Master(TCPServer("localhost:4441", 5, 3_000_000_000, 16777216), "./data/kv-storage/wal"))
    ensures CreateReplica(Some(ReplicationConfig("non-master", "", 0)), None, true, dial) == Failure("replica type is incorrect")
    ensures CreateReplica(Some(ReplicationConfig("master", "localhost:4442", Minute)), None, true, dial).Success?
  {
  }
}
