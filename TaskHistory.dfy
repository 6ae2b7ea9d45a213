/** Task identity, execution history records, the output ownership index and
    the up-to-date decision, all as values. The repository classes in
    ArtifactState.dfy keep a HistoryStore's two maps as fields and are
    specified through the functions here. */
module TaskHistory {
  import opened FileSystems

  /** The declared runtime type of a task; only compared for equality. */
  type TypeName = string

  /** Two tasks are the same producer exactly when path and type both match. */
  datatype TaskId = TaskId(path: string, taskType: TypeName)

  /** A task as the repository sees it: path, type and its declared input and
      output paths in declaration order. */
  datatype Task = Task(path: string, taskType: TypeName, inputs: seq<Path>, outputs: seq<Path>)
  {
    function Id(): TaskId
    {
      TaskId(path, taskType)
    }
  }

  /** The snapshots taken at the last update of a task, keyed by path. */
  datatype Record = Record(inputs: map<Path, Snapshot>, outputs: map<Path, Snapshot>)

  /** The whole persisted state: one record per identity and, per output
      path, the identity that last produced it. */
  datatype HistoryStore = HistoryStore(records: map<TaskId, Record>, owners: map<Path, TaskId>)

  const EmptyStore := HistoryStore(map[], map[])

  function Paths(declared: seq<Path>): set<Path>
  {
    set p | p in declared
  }

  /** The snapshot of every declared path in the current file system. */
  function SnapshotMap(fs: FileSystem, declared: seq<Path>): map<Path, Snapshot>
  {
    map p | p in declared :: SnapshotOf(fs, p)
  }

  /** The snapshot collector: visits the declared paths in order and takes one
      snapshot per path. */
  method CollectSnapshots(fs: FileSystem, declared: seq<Path>) returns (snapshots: map<Path, Snapshot>)
    ensures snapshots.Keys == Paths(declared)
    ensures forall p :: p in snapshots ==> snapshots[p] == SnapshotOf(fs, p)
  {
    snapshots := map[];
    var i := 0;
    while i < |declared|
      invariant 0 <= i <= |declared|
      invariant snapshots.Keys == Paths(declared[..i])
      invariant forall p :: p in snapshots ==> snapshots[p] == SnapshotOf(fs, p)
    {
      assert declared[..i + 1] == declared[..i] + [declared[i]];
      snapshots := snapshots[declared[i] := SnapshotOf(fs, declared[i])];
      i := i + 1;
    }
    assert declared[..i] == declared;
  }

  /** Ownership is tracked for outputs that are not directories, so tasks may
      share an output directory without conflict. */
  predicate Claimable(outputs: map<Path, Snapshot>, p: Path)
  {
    p in outputs && !outputs[p].Directory?
  }

  /** Every claimable output in the given snapshots is not owned by another
      identity. */
  predicate OwnedBy(owners: map<Path, TaskId>, id: TaskId, outputs: map<Path, Snapshot>)
  {
    forall p :: Claimable(outputs, p) && p in owners ==> owners[p] == id
  }

  /** The ownership index after `id` claims its claimable outputs. */
  function Claim(owners: map<Path, TaskId>, id: TaskId, outputs: map<Path, Snapshot>): map<Path, TaskId>
  {
    owners + map p | p in outputs && Claimable(outputs, p) :: id
  }

  predicate SamePaths(current: map<Path, Snapshot>, recorded: map<Path, Snapshot>)
  {
    current.Keys == recorded.Keys
  }

  predicate SameSnapshots(current: map<Path, Snapshot>, recorded: map<Path, Snapshot>)
  {
    forall p :: p in current && p in recorded ==> current[p] == recorded[p]
  }

  predicate DeclaresFiles(task: Task)
  {
    |task.inputs| > 0 && |task.outputs| > 0
  }

  /** The up-to-date decision, in the order of its checks. */
  predicate UpToDate(h: HistoryStore, task: Task, fs: FileSystem)
  {
    if !DeclaresFiles(task) then false
    else if task.Id() !in h.records then false
    else
      var recorded := h.records[task.Id()];
      var outputs := SnapshotMap(fs, task.outputs);
      var inputs := SnapshotMap(fs, task.inputs);
      && SamePaths(outputs, recorded.outputs)
      && OwnedBy(h.owners, task.Id(), outputs)
      && SameSnapshots(outputs, recorded.outputs)
      && SamePaths(inputs, recorded.inputs)
      && SameSnapshots(inputs, recorded.inputs)
  }

  /** The store after a task's update: its record replaced wholesale by the
      current snapshots, and its claimable outputs owned by it. */
  function Recorded(h: HistoryStore, task: Task, fs: FileSystem): HistoryStore
  {
    var outputs := SnapshotMap(fs, task.outputs);
    HistoryStore(h.records[task.Id() := Record(SnapshotMap(fs, task.inputs), outputs)],
                 Claim(h.owners, task.Id(), outputs))
  }

  /** The store after a task's invalidation: its record is gone. */
  function Invalidated(h: HistoryStore, id: TaskId): HistoryStore
  {
    HistoryStore(h.records - {id}, h.owners)
  }
}
