/** The repository that hands out task artifact states, and the state object
    with its three operations: the up-to-date query, the update after a
    successful execution and the explicit invalidation. The repository keeps
    the history store's two maps as fields, opens the store lazily on the
    first request, and asks the persistent cache to commit after an update. */
module ArtifactState {
  import opened FileSystems
  import opened TaskHistory
  import opened ChangeDetection

  /** What the persistent cache lookup yields: whether the cache reports
      itself valid, and the history it holds. */
  datatype PersistentCache = PersistentCache(valid: bool, contents: HistoryStore)

  /** The store the repository starts from: an invalid cache is read as an
      empty store, not as an error. */
  function OpenedStore(cache: PersistentCache): (h: HistoryStore)
    ensures !cache.valid ==> forall task: Task, fs: FileSystem :: !UpToDate(h, task, fs)
  {
    if cache.valid then cache.contents else EmptyStore
  }

  class TaskArtifactStateRepository {
    const cache: PersistentCache
    var storeOpen: bool
    var records: map<TaskId, Record>
    var owners: map<Path, TaskId>
    var commitRequested: bool

    /** The history store held in this repository's fields. */
    function Store(): HistoryStore
      reads this
    {
      HistoryStore(records, owners)
    }

    constructor (cache: PersistentCache)
      ensures this.cache == cache
      ensures !storeOpen && !commitRequested && Store() == EmptyStore
    {
      this.cache := cache;
      storeOpen := false;
      records, owners := map[], map[];
      commitRequested := false;
    }

    /** A new state object for the task on every call; the store is opened
        on the first call only. */
    method GetStateFor(task: Task) returns (state: TaskArtifactState)
      modifies this
      ensures fresh(state)
      ensures state.repository == this && state.task == task && !state.invalidated
      ensures storeOpen && commitRequested == old(commitRequested)
      ensures Store() == if old(storeOpen) then old(Store()) else OpenedStore(cache)
    {
      if !storeOpen {
        var h := OpenedStore(cache);
        records, owners := h.records, h.owners;
        storeOpen := true;
      }
      state := new TaskArtifactState(this, task);
    }
  }

  class TaskArtifactState {
    const repository: TaskArtifactStateRepository
    const task: Task
    var invalidated: bool

    constructor (repository: TaskArtifactStateRepository, task: Task)
      ensures this.repository == repository && this.task == task && !invalidated
    {
      this.repository := repository;
      this.task := task;
      invalidated := false;
    }

    /** The up-to-date query against the current file system. It reads the
        store and changes nothing. */
    function IsUpToDate(fs: FileSystem): (r: bool)
      reads this, repository
      ensures r ==> !invalidated && DeclaresFiles(task) && task.Id() in repository.records
      ensures r ==> SnapshotMap(fs, task.inputs) == repository.records[task.Id()].inputs
      ensures r ==> SnapshotMap(fs, task.outputs) == repository.records[task.Id()].outputs
    {
      UpToDateMeaning(repository.Store(), task, fs);
      !invalidated && UpToDate(repository.Store(), task, fs)
    }

    /** Records the task's current snapshots wholesale, claims its output
        files and requests a commit of the store. */
    method Update(fs: FileSystem)
      modifies repository
      ensures repository.Store() == Recorded(old(repository.Store()), task, fs)
      ensures repository.storeOpen == old(repository.storeOpen) && repository.commitRequested
    {
      var inputs := CollectSnapshots(fs, task.inputs);
      var outputs := CollectSnapshots(fs, task.outputs);
      assert inputs == SnapshotMap(fs, task.inputs);
      assert outputs == SnapshotMap(fs, task.outputs);
      repository.records := repository.records[task.Id() := Record(inputs, outputs)];
      repository.owners := Claim(repository.owners, task.Id(), outputs);
      repository.commitRequested := true;
    }

    /** Removes the task's record from the store, so that states obtained
        later see no history, and makes this state report not up to date. */
    method Invalidate()
      modifies this, repository
      ensures invalidated
      ensures repository.Store() == Invalidated(old(repository.Store()), task.Id())
      ensures repository.storeOpen == old(repository.storeOpen)
      ensures repository.commitRequested == old(repository.commitRequested)
    {
      invalidated := true;
      repository.records := repository.records - {task.Id()};
    }
  }
}
