# Task artifact up-to-date engine

A Dafny model of the incremental-build "up-to-date" engine behind Gradle's
`TaskArtifactState`. It is modelled as the behaviour that
`DefaultTaskArtifactStateRepositoryTest` pins down. A repository hands out a
fresh state object per task. The state answers whether the task's recorded
effect is still valid, records a new execution (`update`), and can discard the
task's history (`invalidate`). All states of one repository share one history
store. The store holds one record per task identity, plus an ownership index
from output path to the identity that last produced it. It is opened lazily
from a persistent cache, and a cache that reports itself invalid counts as
empty.

Layout:

- `FileSystems.dfy`: the abstract file system. Each path is absent, a regular
  file with an opaque fingerprint, or a directory. It also holds the snapshot of
  a path and the three edits the tests make (delete, create a directory, write
  new content).
- `TaskHistory.dfy`: task identity `(path, type)`, tasks, records and the
  history store as values. It also holds the snapshot collector (a loop over
  the declared paths), the up-to-date decision `UpToDate` (its checks in
  order), and the store after an update (`Recorded`) and after an invalidation
  (`Invalidated`).
- `ChangeDetection.dfy`: lemmas relating those functions. They cover the round
  trip of an update, which changes are detected (both directions), the effect of
  another identity's update, and invalidation.
- `ArtifactState.dfy`: the classes. In the repository class the two maps, the
  lazy-open flag and a commit-requested flag are fields. `GetStateFor` opens the
  store on the first call only. The state class has an `invalidated` field;
  `Update` and `Invalidate` change the shared store, and `IsUpToDate` is a
  function that reads it.
- `ArtifactStateScenarios.dfy`: one method per test. Each runs the test's
  sequence of operations on a fresh repository whose cache is invalid. It works
  over any file system laid out like the test's fixture, and its postcondition
  is the test's assertion.

Two decisions the tests force:

- Identity is the pair of path and type. The same path with another type is
  another producer.
- Ownership is recorded, and checked, only for outputs whose snapshot is not a
  directory. The test at lines 214-225 needs two tasks that share an output
  directory to both stay up to date. The tests at lines 121-139 need an earlier
  producer of a shared output file to lose. A description of this design that
  has every output path claimed would fail the first of these, so the model
  follows the tests. Exempting only directories, and not everything that is not
  a regular file, keeps the result the same whether or not the fixture's
  `tmpDir.file(...)` paths exist.

## Model

| member | source | states |
|---|---|---|
| FileSystems.Delete | subprojects/gradle-core/src/test/groovy/org/gradle/api/internal/changedetection/DefaultTaskArtifactStateRepositoryTest.java:84 | the deleted path is missing afterwards; every other path keeps its snapshot |
| FileSystems.CreateDir | subprojects/gradle-core/src/test/groovy/org/gradle/api/internal/changedetection/DefaultTaskArtifactStateRepositoryTest.java:94-95 | the path is a directory afterwards; every other path keeps its snapshot |
| FileSystems.Write | subprojects/gradle-core/src/test/groovy/org/gradle/api/internal/changedetection/DefaultTaskArtifactStateRepositoryTest.java:163 | the path is a regular file with the new content's fingerprint; every other path keeps its snapshot |
| TaskHistory.CollectSnapshots | subprojects/gradle-core/src/test/groovy/org/gradle/api/internal/changedetection/DefaultTaskArtifactStateRepositoryTest.java:318-329 | going through the task's declared files yields a snapshot for exactly the declared paths, each that path's current snapshot |
| ChangeDetection.UpToDateMeaning | subprojects/gradle-core/src/test/groovy/org/gradle/api/internal/changedetection/DefaultTaskArtifactStateRepositoryTest.java:80-243 | up to date iff the task declares inputs and outputs, has a record, its current input and output snapshots equal the recorded ones (same paths, same kind and fingerprint), and no other identity owns one of its output files |
| ChangeDetection.EmptyStoreIsNeverUpToDate | subprojects/gradle-core/src/test/groovy/org/gradle/api/internal/changedetection/DefaultTaskArtifactStateRepositoryTest.java:71-78 | with an empty store no task is up to date |
| ChangeDetection.NoInputsOrOutputsIsNeverUpToDate | subprojects/gradle-core/src/test/groovy/org/gradle/api/internal/changedetection/DefaultTaskArtifactStateRepositoryTest.java:227-243 | a task with no inputs or no outputs is never up to date, whatever the store holds |
| ChangeDetection.UpToDateAfterUpdate | subprojects/gradle-core/src/test/groovy/org/gradle/api/internal/changedetection/DefaultTaskArtifactStateRepositoryTest.java:203-212 | right after its update, with nothing changed, a task that declares inputs and outputs is up to date |
| ChangeDetection.UpdateThenQuery | subprojects/gradle-core/src/test/groovy/org/gradle/api/internal/changedetection/DefaultTaskArtifactStateRepositoryTest.java:80-188 | after an update, a later query for the same identity is up to date iff it declares inputs and outputs and every declared path, with the same path sets, has the snapshot recorded at the update |
| ChangeDetection.ChangedOutputIsDetected | subprojects/gradle-core/src/test/groovy/org/gradle/api/internal/changedetection/DefaultTaskArtifactStateRepositoryTest.java:80-99 | any declared output whose snapshot changed since the update (deleted, turned into a directory) makes the task not up to date |
| ChangeDetection.ChangedInputIsDetected | subprojects/gradle-core/src/test/groovy/org/gradle/api/internal/changedetection/DefaultTaskArtifactStateRepositoryTest.java:159-188 | any declared input whose snapshot changed (new content, turned into a directory, deleted) makes the task not up to date |
| ChangeDetection.ChangedOutputPathsAreDetected | subprojects/gradle-core/src/test/groovy/org/gradle/api/internal/changedetection/DefaultTaskArtifactStateRepositoryTest.java:101-119 | declaring a different set of output paths than recorded, by adding or removing one, makes the task not up to date |
| ChangeDetection.ChangedInputPathsAreDetected | subprojects/gradle-core/src/test/groovy/org/gradle/api/internal/changedetection/DefaultTaskArtifactStateRepositoryTest.java:141-157 | declaring a different set of input paths than recorded makes the task not up to date |
| ChangeDetection.OtherUpdateKeepsStateIffOnlyDirectoriesShared | subprojects/gradle-core/src/test/groovy/org/gradle/api/internal/changedetection/DefaultTaskArtifactStateRepositoryTest.java:121-139 | for another identity's update: the task is up to date afterwards iff it was before and every output the two share is a directory |
| ChangeDetection.ClaimedOutputFileEvictsProducer | subprojects/gradle-core/src/test/groovy/org/gradle/api/internal/changedetection/DefaultTaskArtifactStateRepositoryTest.java:121-139 | once another identity (other path, or same path with other type) updates claiming one of a task's output files, the task is not up to date while that path is not a directory |
| ChangeDetection.InvalidatedIsNotUpToDate | subprojects/gradle-core/src/test/groovy/org/gradle/api/internal/changedetection/DefaultTaskArtifactStateRepositoryTest.java:190-201 | after invalidation no query for that identity is up to date |
| ChangeDetection.InvalidationLeavesOthersAlone | subprojects/gradle-core/src/test/groovy/org/gradle/api/internal/changedetection/DefaultTaskArtifactStateRepositoryTest.java:197 | invalidating one identity leaves every other identity's result unchanged |
| ArtifactState.OpenedStore | subprojects/gradle-core/src/test/groovy/org/gradle/api/internal/changedetection/DefaultTaskArtifactStateRepositoryTest.java:260-268 | a cache that reports itself invalid gives a store in which no task is up to date |
| ArtifactState.TaskArtifactStateRepository.constructor | subprojects/gradle-core/src/test/groovy/org/gradle/api/internal/changedetection/DefaultTaskArtifactStateRepositoryTest.java:61 | a new repository has not opened its store and has requested no commit |
| ArtifactState.TaskArtifactStateRepository.GetStateFor | subprojects/gradle-core/src/test/groovy/org/gradle/api/internal/changedetection/DefaultTaskArtifactStateRepositoryTest.java:75-77 | returns a fresh, not invalidated state for the task; opens the store from the cache on the first call only, and after that leaves the store as it is |
| ArtifactState.TaskArtifactState.IsUpToDate | subprojects/gradle-core/src/test/groovy/org/gradle/api/internal/changedetection/DefaultTaskArtifactStateRepositoryTest.java:203-212 | reads the store without changing it; true only if the state is not invalidated, the task declares inputs and outputs, and the current snapshots equal the recorded ones |
| ArtifactState.TaskArtifactState.Update | subprojects/gradle-core/src/test/groovy/org/gradle/api/internal/changedetection/DefaultTaskArtifactStateRepositoryTest.java:254-255 | replaces the task's record wholesale with the current snapshots, claims its output files, and requests a commit |
| ArtifactState.TaskArtifactState.Invalidate | subprojects/gradle-core/src/test/groovy/org/gradle/api/internal/changedetection/DefaultTaskArtifactStateRepositoryTest.java:197-200 | removes the task's record from the shared store; this state reports not up to date from then on |
| ArtifactStateScenarios.NewRepository | subprojects/gradle-core/src/test/groovy/org/gradle/api/internal/changedetection/DefaultTaskArtifactStateRepositoryTest.java:260-268 | a fresh repository whose cache reports itself invalid, store not yet opened |
| ArtifactStateScenarios.WriteTaskState | subprojects/gradle-core/src/test/groovy/org/gradle/api/internal/changedetection/DefaultTaskArtifactStateRepositoryTest.java:249-258 | updating the tasks in turn leaves the store opened, holding exactly those updates in that order, with a commit requested |
| ArtifactStateScenarios.ArtifactsAreNotUpToDateWhenCacheIsEmpty | subprojects/gradle-core/src/test/groovy/org/gradle/api/internal/changedetection/DefaultTaskArtifactStateRepositoryTest.java:71-78 | the state from a repository with an invalid cache is not up to date |
| ArtifactStateScenarios.ArtifactsAreNotUpToDateWhenAnyOutputFileDoesNotExist | subprojects/gradle-core/src/test/groovy/org/gradle/api/internal/changedetection/DefaultTaskArtifactStateRepositoryTest.java:80-88 | after update and deleting the output file: not up to date |
| ArtifactStateScenarios.ArtifactsAreNotUpToDateWhenAnyOutputFileHasChangedType | subprojects/gradle-core/src/test/groovy/org/gradle/api/internal/changedetection/DefaultTaskArtifactStateRepositoryTest.java:90-99 | after update and replacing the output file by a directory: not up to date |
| ArtifactStateScenarios.ArtifactsAreNotUpToDateWhenAnyOutputFilesAdded | subprojects/gradle-core/src/test/groovy/org/gradle/api/internal/changedetection/DefaultTaskArtifactStateRepositoryTest.java:101-109 | a task declaring one more output than recorded: not up to date |
| ArtifactStateScenarios.ArtifactsAreNotUpToDateWhenAnyOutputFilesRemoved | subprojects/gradle-core/src/test/groovy/org/gradle/api/internal/changedetection/DefaultTaskArtifactStateRepositoryTest.java:111-119 | a task declaring one output fewer than recorded: not up to date |
| ArtifactStateScenarios.ArtifactsAreNotUpToDateWhenTaskWithDifferentPathGeneratedAnyOutputFiles | subprojects/gradle-core/src/test/groovy/org/gradle/api/internal/changedetection/DefaultTaskArtifactStateRepositoryTest.java:121-129 | a task whose output file was then produced by a task at another path: not up to date |
| ArtifactStateScenarios.ArtifactsAreNotUpToDateWhenTaskWithDifferentTypeGeneratedAnyOutputFiles | subprojects/gradle-core/src/test/groovy/org/gradle/api/internal/changedetection/DefaultTaskArtifactStateRepositoryTest.java:131-139 | a task whose output file was then produced by a task at the same path with another type: not up to date |
| ArtifactStateScenarios.ArtifactsAreNotUpToDateWhenAnyInputFilesAdded | subprojects/gradle-core/src/test/groovy/org/gradle/api/internal/changedetection/DefaultTaskArtifactStateRepositoryTest.java:141-148 | a task declaring one more input than recorded: not up to date |
| ArtifactStateScenarios.ArtifactsAreNotUpToDateWhenAnyInputFilesRemoved | subprojects/gradle-core/src/test/groovy/org/gradle/api/internal/changedetection/DefaultTaskArtifactStateRepositoryTest.java:150-157 | a task declaring one input fewer than recorded: not up to date |
| ArtifactStateScenarios.ArtifactsAreNotUpToDateWhenAnyInputFileHasDifferentHash | subprojects/gradle-core/src/test/groovy/org/gradle/api/internal/changedetection/DefaultTaskArtifactStateRepositoryTest.java:159-167 | after update and writing content with another fingerprint to the input file: not up to date |
| ArtifactStateScenarios.ArtifactsAreNotUpToDateWhenAnyInputFileHasChangedType | subprojects/gradle-core/src/test/groovy/org/gradle/api/internal/changedetection/DefaultTaskArtifactStateRepositoryTest.java:169-178 | after update and replacing the input file by a directory: not up to date |
| ArtifactStateScenarios.ArtifactsAreNotUpToDateWhenAnyInputFileNoLongerExists | subprojects/gradle-core/src/test/groovy/org/gradle/api/internal/changedetection/DefaultTaskArtifactStateRepositoryTest.java:180-188 | after update and deleting the input file: not up to date |
| ArtifactStateScenarios.ArtifactsAreNotUpToDateWhenStateHasBeenInvalidated | subprojects/gradle-core/src/test/groovy/org/gradle/api/internal/changedetection/DefaultTaskArtifactStateRepositoryTest.java:190-201 | up to date before invalidate; afterwards neither the invalidated state nor a newly obtained one is |
| ArtifactStateScenarios.ArtifactsAreUpToDateWhenNothingHasChangedSinceOutputFilesWereGenerated | subprojects/gradle-core/src/test/groovy/org/gradle/api/internal/changedetection/DefaultTaskArtifactStateRepositoryTest.java:203-212 | two states obtained one after the other after the update are both up to date |
| ArtifactStateScenarios.MultipleTasksCanProduceTheSameOutputDirectory | subprojects/gradle-core/src/test/groovy/org/gradle/api/internal/changedetection/DefaultTaskArtifactStateRepositoryTest.java:214-225 | two tasks that share only an output directory are both up to date after both updated |
| ArtifactStateScenarios.ArtifactsAreNotUpToDateWhenTaskHasNoInputs | subprojects/gradle-core/src/test/groovy/org/gradle/api/internal/changedetection/DefaultTaskArtifactStateRepositoryTest.java:227-234 | a task without inputs is not up to date even right after its update |
| ArtifactStateScenarios.ArtifactsAreNotUpToDateWhenTaskHasNoOutputs | subprojects/gradle-core/src/test/groovy/org/gradle/api/internal/changedetection/DefaultTaskArtifactStateRepositoryTest.java:236-243 | a task without outputs is not up to date even right after its update |

## Left out

- `DefaultTaskArtifactStateRepository` is not part of this model. Its behaviour is modelled from what its test asserts, plus the engine's intended design where the test is silent: the order of the checks, records replaced wholesale, and an invalid cache read as empty.
- Persistence: the `tasks.bin` blob, its binary format and the cache's commit are abstracted to a `commitRequested` flag. The cache lookup by owner, name `"taskArtifacts"` and empty parameters is abstracted to a `PersistentCache` value given to the constructor. Whether the invalidation is persisted is not modelled.
- Snapshots are stored keyed by path, because comparison is by set of paths. The declaration order of the stored snapshots is not kept.
- Content hashing: the fingerprint is an opaque value carried by a regular file.
- Fingerprinting errors are not modelled: an unreadable file, or a file that vanishes between the existence check and the read. Cross-process locking and concurrent access to the store are not modelled either. None of these is exercised by the test.
- Reusing snapshots taken earlier by the same state object is not modelled. `Update` always takes fresh snapshots.
- Clearing a state's invalidation is not modelled: the `invalidated` flag stays set for the rest of the state's life, and a later `Update` on the same state does not clear it. No test calls `Update` after `Invalidate` on one state.
- JMock expectations, `TemporaryFolder`/`TestFile` and the mock wiring of `TaskBuilder` are left out. A task is a plain value `(path, type, inputs, outputs)`, and the builder's overrides are datatype updates. The fixture's `file(...)` paths are taken to be regular files and its `dir(...)` paths directories (the `Fixture` predicate). The failures of the test file helpers, such as creating a directory over an existing file, are not modelled.
- `EclipseJavaSourceSettings` (an empty marker interface) and `BinarySpecInternal` (accessor declarations only) have no behaviour to state.
