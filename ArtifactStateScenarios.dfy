/** The repository's behaviour as its tests exercise it: each method runs one
    test's sequence of operations on a fresh repository whose cache reports
    itself invalid, over any file system laid out like the test's fixture,
    and its postcondition is the test's assertion. */
module ArtifactStateScenarios {
  import opened FileSystems
  import opened TaskHistory
  import opened ChangeDetection
  import opened ArtifactState

  // The fixture's paths: the default task reads an input file and an input
  // directory and writes an output file and an output directory.
  const InputFile: Path := "input-file"
  const InputDir: Path := "input-dir"
  const OutputFile: Path := "output-file"
  const OutputDir: Path := "output-dir"
  const OtherInput: Path := "other-input"
  const OtherOutput: Path := "other-output"
  const OutputFile2: Path := "output-file-2"

  const DefaultType: TypeName := "TaskInternal"
  const SubType: TypeName := "TaskSubType"

  /** The task the test's builder produces when nothing is overridden. */
  function DefaultTask(): Task
  {
    Task("task", DefaultType, [InputFile, InputDir], [OutputFile, OutputDir])
  }

  /** The fixture files are regular files and the fixture directories are
      directories. */
  predicate Fixture(fs: FileSystem)
  {
    && SnapshotOf(fs, InputFile).RegularFile?
    && SnapshotOf(fs, OutputFile).RegularFile?
    && SnapshotOf(fs, InputDir) == Directory
    && SnapshotOf(fs, OutputDir) == Directory
  }

  /** A repository as the tests create it: its cache lookup answers with a
      cache that reports itself invalid, whatever that cache still holds. */
  method NewRepository(stale: HistoryStore) returns (repository: TaskArtifactStateRepository)
    ensures fresh(repository)
    ensures !repository.cache.valid && !repository.storeOpen
  {
    repository := new TaskArtifactStateRepository(PersistentCache(false, stale));
  }

  /** The store after the tasks update one after the other. */
  function RecordedAll(h: HistoryStore, tasks: seq<Task>, fs: FileSystem): HistoryStore
  {
    if tasks == [] then h
    else Recorded(RecordedAll(h, tasks[..|tasks| - 1], fs), tasks[|tasks| - 1], fs)
  }

  /** Obtains a state for each task in turn and updates it; the store ends up
      opened, holding exactly these updates, with a commit requested. */
  method WriteTaskState(repository: TaskArtifactStateRepository, tasks: seq<Task>, fs: FileSystem)
    requires !repository.cache.valid && !repository.storeOpen
    modifies repository
    ensures |tasks| > 0 ==> repository.storeOpen && repository.commitRequested
    ensures |tasks| > 0 ==> repository.Store() == RecordedAll(EmptyStore, tasks, fs)
  {
    var i := 0;
    while i < |tasks|
      invariant 0 <= i <= |tasks|
      invariant i == 0 ==> !repository.storeOpen
      invariant i > 0 ==> repository.storeOpen && repository.commitRequested
      invariant i > 0 ==> repository.Store() == RecordedAll(EmptyStore, tasks[..i], fs)
    {
      var state := repository.GetStateFor(tasks[i]);
      state.Update(fs);
      assert tasks[..i + 1][..i] == tasks[..i];
      i := i + 1;
    }
    assert tasks[..i] == tasks;
  }

  method ArtifactsAreNotUpToDateWhenCacheIsEmpty(fs: FileSystem, stale: HistoryStore) returns (upToDate: bool)
    ensures !upToDate
  {
    var repository := NewRepository(stale);
    var state := repository.GetStateFor(DefaultTask());
    upToDate := state.IsUpToDate(fs);
  }

  method ArtifactsAreNotUpToDateWhenAnyOutputFileDoesNotExist(fs: FileSystem, stale: HistoryStore) returns (upToDate: bool)
    requires Fixture(fs)
    ensures !upToDate
  {
    var repository := NewRepository(stale);
    WriteTaskState(repository, [DefaultTask()], fs);
    var changed := Delete(fs, OutputFile);
    var state := repository.GetStateFor(DefaultTask());
    upToDate := state.IsUpToDate(changed);
    ChangedOutputIsDetected(EmptyStore, DefaultTask(), fs, changed, OutputFile);
  }

  method ArtifactsAreNotUpToDateWhenAnyOutputFileHasChangedType(fs: FileSystem, stale: HistoryStore) returns (upToDate: bool)
    requires Fixture(fs)
    ensures !upToDate
  {
    var repository := NewRepository(stale);
    WriteTaskState(repository, [DefaultTask()], fs);
    var changed := CreateDir(Delete(fs, OutputFile), OutputFile);
    var state := repository.GetStateFor(DefaultTask());
    upToDate := state.IsUpToDate(changed);
    ChangedOutputIsDetected(EmptyStore, DefaultTask(), fs, changed, OutputFile);
  }

  method ArtifactsAreNotUpToDateWhenAnyOutputFilesAdded(fs: FileSystem, stale: HistoryStore) returns (upToDate: bool)
    ensures !upToDate
  {
    var repository := NewRepository(stale);
    WriteTaskState(repository, [DefaultTask()], fs);
    var task := DefaultTask().(outputs := [OutputFile, OutputDir, OutputFile2]);
    var state := repository.GetStateFor(task);
    upToDate := state.IsUpToDate(fs);
    assert OutputFile2 in Paths(task.outputs) && OutputFile2 !in Paths(DefaultTask().outputs);
    ChangedOutputPathsAreDetected(EmptyStore, DefaultTask(), fs, task, fs);
  }

  method ArtifactsAreNotUpToDateWhenAnyOutputFilesRemoved(fs: FileSystem, stale: HistoryStore) returns (upToDate: bool)
    ensures !upToDate
  {
    var repository := NewRepository(stale);
    WriteTaskState(repository, [DefaultTask()], fs);
    var task := DefaultTask().(outputs := [OutputFile]);
    var state := repository.GetStateFor(task);
    upToDate := state.IsUpToDate(fs);
    assert OutputDir !in Paths(task.outputs) && OutputDir in Paths(DefaultTask().outputs);
    ChangedOutputPathsAreDetected(EmptyStore, DefaultTask(), fs, task, fs);
  }

  method ArtifactsAreNotUpToDateWhenTaskWithDifferentPathGeneratedAnyOutputFiles(fs: FileSystem, stale: HistoryStore) returns (upToDate: bool)
    requires Fixture(fs)
    ensures !upToDate
  {
    var repository := NewRepository(stale);
    var task := DefaultTask().(path := "other", outputs := [OutputFile, OtherOutput]);
    WriteTaskState(repository, [task, DefaultTask()], fs);
    var state := repository.GetStateFor(task);
    upToDate := state.IsUpToDate(fs);
    assert [task, DefaultTask()][..1] == [task];
    ClaimedOutputFileEvictsProducer(Recorded(EmptyStore, task, fs), task, DefaultTask(), fs, fs, OutputFile);
  }

  method ArtifactsAreNotUpToDateWhenTaskWithDifferentTypeGeneratedAnyOutputFiles(fs: FileSystem, stale: HistoryStore) returns (upToDate: bool)
    requires Fixture(fs)
    ensures !upToDate
  {
    var repository := NewRepository(stale);
    var task := DefaultTask().(taskType := SubType, outputs := [OutputFile, OtherOutput]);
    WriteTaskState(repository, [task, DefaultTask()], fs);
    var state := repository.GetStateFor(task);
    upToDate := state.IsUpToDate(fs);
    assert [task, DefaultTask()][..1] == [task];
    ClaimedOutputFileEvictsProducer(Recorded(EmptyStore, task, fs), task, DefaultTask(), fs, fs, OutputFile);
  }

  method ArtifactsAreNotUpToDateWhenAnyInputFilesAdded(fs: FileSystem, stale: HistoryStore) returns (upToDate: bool)
    ensures !upToDate
  {
    var repository := NewRepository(stale);
    WriteTaskState(repository, [DefaultTask()], fs);
    var task := DefaultTask().(inputs := [InputFile, InputDir, OtherInput]);
    var state := repository.GetStateFor(task);
    upToDate := state.IsUpToDate(fs);
    assert OtherInput in Paths(task.inputs) && OtherInput !in Paths(DefaultTask().inputs);
    ChangedInputPathsAreDetected(EmptyStore, DefaultTask(), fs, task, fs);
  }

  method ArtifactsAreNotUpToDateWhenAnyInputFilesRemoved(fs: FileSystem, stale: HistoryStore) returns (upToDate: bool)
    ensures !upToDate
  {
    var repository := NewRepository(stale);
    WriteTaskState(repository, [DefaultTask()], fs);
    var task := DefaultTask().(inputs := [InputFile]);
    var state := repository.GetStateFor(task);
    upToDate := state.IsUpToDate(fs);
    assert InputDir !in Paths(task.inputs) && InputDir in Paths(DefaultTask().inputs);
    ChangedInputPathsAreDetected(EmptyStore, DefaultTask(), fs, task, fs);
  }

  /** The new content has a fingerprint other than the file's current one. */
  method ArtifactsAreNotUpToDateWhenAnyInputFileHasDifferentHash(fs: FileSystem, stale: HistoryStore, newContent: Fingerprint) returns (upToDate: bool)
    requires Fixture(fs)
    requires SnapshotOf(fs, InputFile) != RegularFile(newContent)
    ensures !upToDate
  {
    var repository := NewRepository(stale);
    WriteTaskState(repository, [DefaultTask()], fs);
    var changed := Write(fs, InputFile, newContent);
    var state := repository.GetStateFor(DefaultTask());
    upToDate := state.IsUpToDate(changed);
    ChangedInputIsDetected(EmptyStore, DefaultTask(), fs, changed, InputFile);
  }

  method ArtifactsAreNotUpToDateWhenAnyInputFileHasChangedType(fs: FileSystem, stale: HistoryStore) returns (upToDate: bool)
    requires Fixture(fs)
    ensures !upToDate
  {
    var repository := NewRepository(stale);
    WriteTaskState(repository, [DefaultTask()], fs);
    var changed := CreateDir(Delete(fs, InputFile), InputFile);
    var state := repository.GetStateFor(DefaultTask());
    upToDate := state.IsUpToDate(changed);
    ChangedInputIsDetected(EmptyStore, DefaultTask(), fs, changed, InputFile);
  }

  method ArtifactsAreNotUpToDateWhenAnyInputFileNoLongerExists(fs: FileSystem, stale: HistoryStore) returns (upToDate: bool)
    requires Fixture(fs)
    ensures !upToDate
  {
    var repository := NewRepository(stale);
    WriteTaskState(repository, [DefaultTask()], fs);
    var changed := Delete(fs, InputFile);
    var state := repository.GetStateFor(DefaultTask());
    upToDate := state.IsUpToDate(changed);
    ChangedInputIsDetected(EmptyStore, DefaultTask(), fs, changed, InputFile);
  }

  /** Up to date before the invalidation; afterwards neither the invalidated
      state nor a newly obtained one is. */
  method ArtifactsAreNotUpToDateWhenStateHasBeenInvalidated(fs: FileSystem, stale: HistoryStore)
    returns (before: bool, invalidatedState: bool, after: bool)
    ensures before && !invalidatedState && !after
  {
    var repository := NewRepository(stale);
    WriteTaskState(repository, [DefaultTask()], fs);
    var state := repository.GetStateFor(DefaultTask());
    UpToDateAfterUpdate(EmptyStore, DefaultTask(), fs);
    before := state.IsUpToDate(fs);
    state.Invalidate();
    invalidatedState := state.IsUpToDate(fs);
    state := repository.GetStateFor(DefaultTask());
    after := state.IsUpToDate(fs);
    InvalidatedIsNotUpToDate(Recorded(EmptyStore, DefaultTask(), fs), DefaultTask(), fs);
  }

  /** Two states obtained one after the other both report up to date: the
      first query left the store as it was. */
  method ArtifactsAreUpToDateWhenNothingHasChangedSinceOutputFilesWereGenerated(fs: FileSystem, stale: HistoryStore)
    returns (first: bool, second: bool)
    ensures first && second
  {
    var repository := NewRepository(stale);
    WriteTaskState(repository, [DefaultTask()], fs);
    UpToDateAfterUpdate(EmptyStore, DefaultTask(), fs);
    var state := repository.GetStateFor(DefaultTask());
    first := state.IsUpToDate(fs);
    state := repository.GetStateFor(DefaultTask());
    second := state.IsUpToDate(fs);
  }

  method MultipleTasksCanProduceTheSameOutputDirectory(fs: FileSystem, stale: HistoryStore)
    returns (first: bool, second: bool)
    requires Fixture(fs)
    ensures first && second
  {
    var repository := NewRepository(stale);
    var task1 := DefaultTask();
    var task2 := DefaultTask().(path := "other", outputs := [OutputDir]);
    WriteTaskState(repository, [task1, task2], fs);
    assert [task1, task2][..1] == [task1];
    var h := Recorded(EmptyStore, task1, fs);
    UpToDateAfterUpdate(EmptyStore, task1, fs);
    OtherUpdateKeepsStateIffOnlyDirectoriesShared(h, task1, task2, fs);
    UpToDateAfterUpdate(h, task2, fs);
    var state := repository.GetStateFor(task1);
    first := state.IsUpToDate(fs);
    state := repository.GetStateFor(task2);
    second := state.IsUpToDate(fs);
  }

  method ArtifactsAreNotUpToDateWhenTaskHasNoInputs(fs: FileSystem, stale: HistoryStore) returns (upToDate: bool)
    ensures !upToDate
  {
    var repository := NewRepository(stale);
    var task := DefaultTask().(inputs := []);
    WriteTaskState(repository, [task], fs);
    var state := repository.GetStateFor(task);
    upToDate := state.IsUpToDate(fs);
  }

  method ArtifactsAreNotUpToDateWhenTaskHasNoOutputs(fs: FileSystem, stale: HistoryStore) returns (upToDate: bool)
    ensures !upToDate
  {
    var repository := NewRepository(stale);
    var task := DefaultTask().(outputs := []);
    WriteTaskState(repository, [task], fs);
    var state := repository.GetStateFor(task);
    upToDate := state.IsUpToDate(fs);
  }
}
