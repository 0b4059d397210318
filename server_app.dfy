/** The server application's start-up (TseServerApp, and its copy
    TrafficStateEstimationServerApp): the configured processor lists are
    completed with the processors the estimation needs, and the database
    location and the storage implementation fall back to their defaults.
    Processors are named by their class; `instanceof` is a name test. */
module ServerApps {
  import opened Wrappers

  const SPATIO_TEMPORAL_PROCESSOR: string := "SpatioTemporalProcessor"
  const THRESHOLD_PROCESSOR: string := "ThresholdProcessor"
  const DEFAULT_DATABASE_FILE_NAME: string := "FcdData.sqlite"

  /** The storage implementation in use. */
  datatype StorageKind = FcdDatabaseHelper | ConfiguredStorage(className: string)

  /** Paths.get(directory, fileName). */
  datatype DatabasePath = DatabasePath(directory: string, fileName: string)

  /** The list after completion: a missing list becomes the required
      processor alone; a list without it gets it appended at the end; a list
      that has it is kept. The given order is always kept. */
  function WithRequired(list: Option<seq<string>>, required: string): (r: seq<string>)
    ensures required in r
    ensures list.None? ==> r == [required]
    ensures list.Some? ==> |list.value| <= |r| <= |list.value| + 1 && r[..|list.value|] == list.value
    ensures list.Some? && required in list.value ==> r == list.value
  {
    match list
    case None => [required]
    case Some(ps) => if required in ps then ps else ps + [required]
  }

  /** Completing twice completes once. */
  lemma WithRequiredIdempotent(list: Option<seq<string>>, required: string)
    ensures WithRequired(Some(WithRequired(list, required)), required) == WithRequired(list, required)
  {
  }

  /** Completing for one processor keeps the other required one. */
  lemma WithRequiredKeeps(list: Option<seq<string>>, required: string, other: string)
    requires list.Some? && other in list.value
    ensures other in WithRequired(list, required)
  {
    var ps := list.value;
    var r := WithRequired(list, required);
    var i :| 0 <= i < |ps| && ps[i] == other;
    assert r[i] == r[..|ps|][i];
  }

  /** The configuration fields start-up reads and completes (CTseServerApp). */
  class ServerConfig {
    var traversalBasedProcessors: Option<seq<string>>
    var timeBasedProcessors: Option<seq<string>>
    var databasePath: Option<string>
    var databaseFileName: Option<string>
    var fcdDataStorage: Option<StorageKind>
    var isPersistent: bool

    /** The configuration defaults: nothing configured, not persistent. */
    constructor ()
      ensures traversalBasedProcessors == None && timeBasedProcessors == None
      ensures databasePath == None && databaseFileName == None && fcdDataStorage == None
      ensures !isPersistent
    {
      traversalBasedProcessors := None;
      timeBasedProcessors := None;
      databasePath := None;
      databaseFileName := None;
      fcdDataStorage := None;
      isPersistent := false;
    }

    /** addRequiredProcessors: the spatio-temporal processor among the
        traversal-based processors, the threshold processor among the
        time-based ones. */
    method AddRequiredProcessors()
      modifies this`traversalBasedProcessors, this`timeBasedProcessors
      ensures traversalBasedProcessors == Some(WithRequired(old(traversalBasedProcessors), SPATIO_TEMPORAL_PROCESSOR))
      ensures timeBasedProcessors == Some(WithRequired(old(timeBasedProcessors), THRESHOLD_PROCESSOR))
    {
      if traversalBasedProcessors.None? {
        traversalBasedProcessors := Some([SPATIO_TEMPORAL_PROCESSOR]);
      } else if SPATIO_TEMPORAL_PROCESSOR !in traversalBasedProcessors.value {
        traversalBasedProcessors := Some(traversalBasedProcessors.value + [SPATIO_TEMPORAL_PROCESSOR]);
      }
      if timeBasedProcessors.None? {
        timeBasedProcessors := Some([THRESHOLD_PROCESSOR]);
      } else if THRESHOLD_PROCESSOR !in timeBasedProcessors.value {
        timeBasedProcessors := Some(timeBasedProcessors.value + [THRESHOLD_PROCESSOR]);
      }
    }
  }

  /** The database location: the configured directory, else the
      application's configuration path; the configured file name, else
      "FcdData.sqlite". */
  function DatabaseLocation(databasePath: Option<string>, databaseFileName: Option<string>,
                            configurationPath: string): (p: DatabasePath)
    ensures databasePath.Some? ==> p.directory == databasePath.value
    ensures databasePath.None? ==> p.directory == configurationPath
    ensures p.fileName == databaseFileName.GetOr(DEFAULT_DATABASE_FILE_NAME)
  {
    DatabasePath(if databasePath == None then configurationPath else databasePath.value,
                 if databaseFileName == None then DEFAULT_DATABASE_FILE_NAME else databaseFileName.value)
  }

  /** initKernel, up to the kernel's construction: the processor lists are
      completed first, then the database location and the storage (the
      configured one, else the database helper) are chosen. */
  method InitKernel(config: ServerConfig, configurationPath: string)
    returns (path: DatabasePath, storage: StorageKind)
    modifies config
    ensures config.traversalBasedProcessors == Some(WithRequired(old(config.traversalBasedProcessors), SPATIO_TEMPORAL_PROCESSOR))
    ensures config.timeBasedProcessors == Some(WithRequired(old(config.timeBasedProcessors), THRESHOLD_PROCESSOR))
    ensures config.databasePath == old(config.databasePath) && config.databaseFileName == old(config.databaseFileName)
    ensures config.fcdDataStorage == old(config.fcdDataStorage) && config.isPersistent == old(config.isPersistent)
    ensures path == DatabaseLocation(config.databasePath, config.databaseFileName, configurationPath)
    ensures storage == config.fcdDataStorage.GetOr(FcdDatabaseHelper)
  {
    config.AddRequiredProcessors();
    var directory := if config.databasePath.None? then configurationPath else config.databasePath.value;
    var fileName := if config.databaseFileName.None? then DEFAULT_DATABASE_FILE_NAME else config.databaseFileName.value;
    path := DatabasePath(directory, fileName);
    storage := if config.fcdDataStorage.None? then FcdDatabaseHelper else config.fcdDataStorage.value;
  }
}
