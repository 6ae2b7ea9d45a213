/** What the up-to-date decision promises, stated over the history store
    values: the round trip of an update, which changes are detected, how
    other tasks' updates and invalidation interact with a task's state. */
module ChangeDetection {
  import opened FileSystems
  import opened TaskHistory

  /** The stepwise decision is the same as: the task declares inputs and
      outputs, has a record, every current snapshot equals the recorded one
      path for path with no path added or removed, and no other identity owns
      one of its output files. */
  lemma UpToDateMeaning(h: HistoryStore, task: Task, fs: FileSystem)
    ensures UpToDate(h, task, fs) <==>
      && DeclaresFiles(task)
      && task.Id() in h.records
      && SnapshotMap(fs, task.outputs) == h.records[task.Id()].outputs
      && SnapshotMap(fs, task.inputs) == h.records[task.Id()].inputs
      && OwnedBy(h.owners, task.Id(), SnapshotMap(fs, task.outputs))
  {
    if DeclaresFiles(task) && task.Id() in h.records {
      var recorded := h.records[task.Id()];
      MapsAgree(SnapshotMap(fs, task.outputs), recorded.outputs);
      MapsAgree(SnapshotMap(fs, task.inputs), recorded.inputs);
    }
  }

  lemma MapsAgree(current: map<Path, Snapshot>, recorded: map<Path, Snapshot>)
    ensures SamePaths(current, recorded) && SameSnapshots(current, recorded) <==> current == recorded
  {
    if SamePaths(current, recorded) && SameSnapshots(current, recorded) {
      assert forall p :: p in current <==> p in recorded;
    }
  }

  /** An empty store (fresh, or discarded because the cache was invalid)
      holds no record, so no task is up to date. */
  lemma EmptyStoreIsNeverUpToDate(task: Task, fs: FileSystem)
    ensures !UpToDate(EmptyStore, task, fs)
  {
  }

  /** A task with no declared inputs or no declared outputs is never up to
      date, whatever the store holds. */
  lemma NoInputsOrOutputsIsNeverUpToDate(h: HistoryStore, task: Task, fs: FileSystem)
    requires |task.inputs| == 0 || |task.outputs| == 0
    ensures !UpToDate(h, task, fs)
  {
  }

  /** Querying again right after an update, with the file system as it was,
      reports up to date. */
  lemma {:induction false} UpToDateAfterUpdate(h: HistoryStore, task: Task, fs: FileSystem)
    requires DeclaresFiles(task)
    ensures UpToDate(Recorded(h, task, fs), task, fs)
  {
    UpdateThenQuery(h, task, fs, task, fs);
  }

  /** After an update, a later query for the same identity succeeds exactly
      when the task still declares inputs and outputs and every declared path
      has the snapshot it had at the update, with the same paths declared. */
  lemma UpdateThenQuery(h: HistoryStore, task: Task, fs: FileSystem, later: Task, laterFs: FileSystem)
    requires later.Id() == task.Id()
    ensures UpToDate(Recorded(h, task, fs), later, laterFs) <==>
      && DeclaresFiles(later)
      && SnapshotMap(laterFs, later.inputs) == SnapshotMap(fs, task.inputs)
      && SnapshotMap(laterFs, later.outputs) == SnapshotMap(fs, task.outputs)
  {
    var h' := Recorded(h, task, fs);
    UpToDateMeaning(h', later, laterFs);
    var outputs := SnapshotMap(fs, task.outputs);
    if SnapshotMap(laterFs, later.outputs) == outputs {
      forall p | Claimable(outputs, p) && p in h'.owners
        ensures h'.owners[p] == task.Id()
      {
      }
    }
  }

  /** A declared output whose snapshot changed since the update (deleted,
      turned into a directory, rewritten) makes the task not up to date. */
  lemma ChangedOutputIsDetected(h: HistoryStore, task: Task, fs: FileSystem, laterFs: FileSystem, p: Path)
    requires p in task.outputs
    requires SnapshotOf(laterFs, p) != SnapshotOf(fs, p)
    ensures !UpToDate(Recorded(h, task, fs), task, laterFs)
  {
    UpdateThenQuery(h, task, fs, task, laterFs);
    assert SnapshotMap(laterFs, task.outputs)[p] != SnapshotMap(fs, task.outputs)[p];
  }

  /** A declared input whose snapshot changed since the update (deleted,
      turned into a directory, new content) makes the task not up to date. */
  lemma ChangedInputIsDetected(h: HistoryStore, task: Task, fs: FileSystem, laterFs: FileSystem, p: Path)
    requires p in task.inputs
    requires SnapshotOf(laterFs, p) != SnapshotOf(fs, p)
    ensures !UpToDate(Recorded(h, task, fs), task, laterFs)
  {
    UpdateThenQuery(h, task, fs, task, laterFs);
    assert SnapshotMap(laterFs, task.inputs)[p] != SnapshotMap(fs, task.inputs)[p];
  }

  /** Declaring a different set of output paths than at the update, by adding
      or removing one, makes the task not up to date. */
  lemma ChangedOutputPathsAreDetected(h: HistoryStore, task: Task, fs: FileSystem, later: Task, laterFs: FileSystem)
    requires later.Id() == task.Id()
    requires Paths(later.outputs) != Paths(task.outputs)
    ensures !UpToDate(Recorded(h, task, fs), later, laterFs)
  {
    UpdateThenQuery(h, task, fs, later, laterFs);
    assert SnapshotMap(laterFs, later.outputs).Keys == Paths(later.outputs);
    assert SnapshotMap(fs, task.outputs).Keys == Paths(task.outputs);
  }

  /** Declaring a different set of input paths than at the update, by adding
      or removing one, makes the task not up to date. */
  lemma ChangedInputPathsAreDetected(h: HistoryStore, task: Task, fs: FileSystem, later: Task, laterFs: FileSystem)
    requires later.Id() == task.Id()
    requires Paths(later.inputs) != Paths(task.inputs)
    ensures !UpToDate(Recorded(h, task, fs), later, laterFs)
  {
    UpdateThenQuery(h, task, fs, later, laterFs);
    assert SnapshotMap(laterFs, later.inputs).Keys == Paths(later.inputs);
    assert SnapshotMap(fs, task.inputs).Keys == Paths(task.inputs);
  }

  /** Another identity's update leaves a task's state as it was exactly when
      every output the two declare in common is a directory; an output file
      they share passes to the other identity and the task loses it. */
  lemma OtherUpdateKeepsStateIffOnlyDirectoriesShared(h: HistoryStore, task: Task, other: Task, fs: FileSystem)
    requires other.Id() != task.Id()
    ensures UpToDate(Recorded(h, other, fs), task, fs) <==>
      && UpToDate(h, task, fs)
      && forall p :: p in task.outputs && p in other.outputs ==> SnapshotOf(fs, p).Directory?
  {
    var h' := Recorded(h, other, fs);
    var outputs := SnapshotMap(fs, task.outputs);
    var claimed := SnapshotMap(fs, other.outputs);
    UpToDateMeaning(h, task, fs);
    UpToDateMeaning(h', task, fs);
    if UpToDate(h', task, fs) {
      forall p | p in task.outputs && p in other.outputs
        ensures SnapshotOf(fs, p).Directory?
      {
        if !SnapshotOf(fs, p).Directory? {
          assert Claimable(outputs, p) && Claimable(claimed, p);
        }
      }
      forall p | Claimable(outputs, p) && p in h.owners
        ensures h.owners[p] == task.Id()
      {
        assert p !in claimed;
        assert h'.owners[p] == h.owners[p];
      }
    }
  }

  /** Once another identity's update claims an output file of a task, the
      task is not up to date while that path is still not a directory. */
  lemma ClaimedOutputFileEvictsProducer(h: HistoryStore, task: Task, other: Task, fs: FileSystem, laterFs: FileSystem, p: Path)
    requires other.Id() != task.Id()
    requires p in task.outputs && p in other.outputs
    requires !SnapshotOf(fs, p).Directory? && !SnapshotOf(laterFs, p).Directory?
    ensures !UpToDate(Recorded(h, other, fs), task, laterFs)
  {
    var h' := Recorded(h, other, fs);
    assert Claimable(SnapshotMap(fs, other.outputs), p);
    assert h'.owners[p] == other.Id();
    assert Claimable(SnapshotMap(laterFs, task.outputs), p);
  }

  /** After invalidation no query for that identity is up to date, until it
      updates again. */
  lemma InvalidatedIsNotUpToDate(h: HistoryStore, task: Task, fs: FileSystem)
    ensures !UpToDate(Invalidated(h, task.Id()), task, fs)
  {
  }

  /** Invalidating one identity leaves every other identity's state as it was. */
  lemma InvalidationLeavesOthersAlone(h: HistoryStore, id: TaskId, task: Task, fs: FileSystem)
    requires task.Id() != id
    ensures UpToDate(Invalidated(h, id), task, fs) == UpToDate(h, task, fs)
  {
  }
}
