# Flank dispatch planning, modelled in Dafny

This project models two pieces of the Flank Android test runner:

- **`AndroidTestRunner`** (`android_test_runner.dfy`). `resolveApks` uploads the app APK and the test APK only when their paths do not already start with the GCS prefix `gs://`. The shard statistics are `testsPerVm`, the size of the first chunk, and `testsTotal`, the sum of all chunk sizes. `runTests` builds one test-matrix job per (run, shard) in two nested `repeat` loops. `RunTests` is a method with two nested `while` loops. Its result is tied to the recursive specification `Jobs`, which lists the jobs run by run. The lemmas about `Jobs` prove:
  - the job count;
  - that the job at position `k` has shard index `k mod shards`;
  - that each shard index occurs once per run;
  - that every job shares the same artifacts, run path and devices.

  The two uploads, the device list and the per-job `execute()` are parameters. `RunTests` records each upload as an `Upload` value, so the model can state when an upload happens.
- **`GcloudYml`** (`gcloud_yml.dfy`). `GcloudYmlParams` is a class with a mutable `resultsBucket` and constant `recordVideo`, `timeout`, `async` and `project`. Its constructor carries the Kotlin defaults. `Init` follows the init block: it requires a non-empty project. In mock mode it forces the bucket to `"mockBucket"`. Otherwise it fills an empty bucket from the default-bucket lookup and requires that the final bucket is non-empty. `InitResultsBucket` is the same rule written on values. The key list and the `gcloud` section map are constants, and a lemma ties them to the five parameters.

`wrappers.dfy` holds the `Option`, `Result` and `Outcome` datatypes. The two remote lookups (`getDefaultProjectId()`, `GcToolResults.getDefaultBucket`) and the global `useMock` flag are explicit parameters.

Three consequences of the code that the model states:
- A run count of zero or less is accepted and produces zero jobs, because `repeat(n)` with `n <= 0` does nothing. Nothing rejects it.
- `GcAndroidTestMatrix.build` receives no run index. So jobs of different runs have identical build arguments: the job at position `k` and the job at `k + shards` are equal (`RunsRepeatEachOther`). Each `execute()` still submits its own matrix, so the model's `execute` is given the enqueue position as well.
- An empty chunk list fails at `first()`, after `resolveApks` has already run. The uploads happen first, and then the failure.

## Model

| member | source | states |
|---|---|---|
| `AndroidTestRunner.ResolveApk` | test_runner/src/main/kotlin/ftl/run/AndroidTestRunner.kt:56-71 | an upload is made exactly when the path lacks the GCS prefix; a remote path comes back unchanged; a local path is replaced by the upload's result |
| `AndroidTestRunner.ResolveApkIdempotent` | test_runner/src/main/kotlin/ftl/run/AndroidTestRunner.kt:56-62 | when the upload yields a GCS path, resolving the resolved path again makes no upload and returns it unchanged |
| `AndroidTestRunner.ResolveApks` | test_runner/src/main/kotlin/ftl/run/AndroidTestRunner.kt:53-74 | app and test are resolved independently by the same rule into the configured bucket and returned app first; the number of uploads is the number of local paths (0, 1 or 2) |
| `AndroidTestRunner.TestsTotalCountsEveryTest` | test_runner/src/main/kotlin/ftl/run/AndroidTestRunner.kt:27 | `TestsTotal`, the model of `sumBy { it.size }`, equals the number of tests in all chunks concatenated |
| `AndroidTestRunner.Statistics` | test_runner/src/main/kotlin/ftl/run/AndroidTestRunner.kt:24-27 | fails exactly on an empty chunk list; otherwise testsPerVm is the first chunk's size, testsTotal the total test count, repeatShard the chunk count, and testsPerVm <= testsTotal |
| `AndroidTestRunner.OneRunAt` | test_runner/src/main/kotlin/ftl/run/AndroidTestRunner.kt:32-41 | `OneRun`, the model of the inner `repeat(repeatShard)` loop, enqueues `repeatShard` jobs whose shard indices are 0 .. repeatShard-1 in ascending order |
| `AndroidTestRunner.JobsLength` | test_runner/src/main/kotlin/ftl/run/AndroidTestRunner.kt:24-43 | `Jobs`, the model of the two nested `repeat` loops, has `JobCount` jobs: testRuns × testShardChunks.size, and zero when testRuns <= 0 |
| `AndroidTestRunner.JobOfRunAndShard` | test_runner/src/main/kotlin/ftl/run/AndroidTestRunner.kt:31-43 | jobs are run-major: run r, shard i is at position r × shards + i |
| `AndroidTestRunner.JobsAt` | test_runner/src/main/kotlin/ftl/run/AndroidTestRunner.kt:31-41 | the job at position k has shard index k mod shards and the shared build arguments |
| `AndroidTestRunner.IndicesInRangeAndArgsShared` | test_runner/src/main/kotlin/ftl/run/AndroidTestRunner.kt:31-40 | every shard index lies in [0, shards); every job gets the same app path, test path, run GCS path, device list and config |
| `AndroidTestRunner.RunsRepeatEachOther` | test_runner/src/main/kotlin/ftl/run/AndroidTestRunner.kt:31-40 | no run index reaches the builder: a job equals the job one run later |
| `AndroidTestRunner.OneRunOccurrences` | test_runner/src/main/kotlin/ftl/run/AndroidTestRunner.kt:32-33 | within one run each shard index below repeatShard occurs exactly once and no other index occurs |
| `AndroidTestRunner.ShardOccurrences` | test_runner/src/main/kotlin/ftl/run/AndroidTestRunner.kt:31-33 | each shard index occurs exactly testRuns times over all jobs, and no index outside [0, shards) occurs |
| `AndroidTestRunner.RunTests` | test_runner/src/main/kotlin/ftl/run/AndroidTestRunner.kt:15-46 | the uploads are exactly those of one `resolveApks` call, made before any job and whatever the job count; fails exactly on an empty chunk list; otherwise returns the statistics, the jobs `Jobs` lists (built from the one resolved pair) and one `execute()` result per job, in enqueue order, each given its enqueue position |
| `GcloudYml.KeyOf` | test_runner/src/main/kotlin/ftl/args/yml/GcloudYml.kt:19-29 | a YAML key that names a parameter names it by that parameter's YAML name |
| `GcloudYml.KeysNameEveryParameter` | test_runner/src/main/kotlin/ftl/args/yml/GcloudYml.kt:17-33 | `keys` is `["results-bucket", "record-video", "timeout", "async", "project"]`: each parameter's YAML name, once each, in constructor order, and nothing else |
| `GcloudYml.GcloudMapHoldsTheKeys` | test_runner/src/main/kotlin/ftl/args/yml/GcloudYml.kt:52-54 | `GcloudYml.map` has the single section "gcloud", mapped to `keys` |
| `GcloudYml.InitResultsBucket` | test_runner/src/main/kotlin/ftl/args/yml/GcloudYml.kt:35-45 | fails on an empty project; in mock mode yields "mockBucket" whatever was supplied; otherwise keeps a non-empty bucket, replaces an empty one by the project's default bucket (or ""), and fails if that is empty; a success is never empty |
| `GcloudYml.InitSucceedsIff` | test_runner/src/main/kotlin/ftl/args/yml/GcloudYml.kt:35-45 | construction succeeds if and only if the project is set and mock mode is on, or the supplied bucket or the project's default bucket is non-empty |
| `GcloudYml.InitIsIdempotent` | test_runner/src/main/kotlin/ftl/args/yml/GcloudYml.kt:39-44 | validating again with the final bucket yields that same bucket |
| `GcloudYml.GcloudYmlParams.Assign` | test_runner/src/main/kotlin/ftl/args/yml/GcloudYml.kt:17-30 | the properties take the given values, defaulting to resultsBucket "", recordVideo true, timeout "15m", async false and project the default project id |
| `GcloudYml.GcloudYmlParams.Init` | test_runner/src/main/kotlin/ftl/args/yml/GcloudYml.kt:35-45 | the init block: the outcome and the new `resultsBucket` agree with `InitResultsBucket`; an empty project leaves the bucket untouched; a missing bucket leaves it "" |
| `GcloudYml.NewGcloudYmlParams` | test_runner/src/main/kotlin/ftl/args/yml/GcloudYml.kt:17-45 | construction yields a fresh object with the validated bucket and the given or default properties, or the first failing check and no object |

## Left out

- Coroutine scheduling: the `async`/`await` fan-out of the jobs, and the two concurrent uploads, are modelled as sequential steps. The upload log lists the app upload before the test upload. Completion order is not modelled.
- The 3x retry of `GcAndroidTestMatrix.execute()` appears only in a comment. `execute` is an opaque function parameter.
- `GenericTestRunner.beforeRunTests` and `afterRunTests` are not part of this model. They cover the stopwatch, the run GCS path and the `MatrixMap` aggregation. The run GCS path is a parameter, and `RunTests` returns the job list that would be handed to `afterRunTests`.
- `GcAndroidMatrix.build` and `GcAndroidTestMatrix.build` are not part of this model. The device list is an input value, and a job is the argument list of its `build` call.
- `GcStorage.uploadAppApk` and `uploadTestApk` are opaque total functions. Upload I/O or transport failures are not modelled.
- Uploader: the Kotlin uploads take the whole `AndroidArgs`. The model passes only the local path they upload, `appApk` or `testApk`, with the bucket and the run GCS path.
- The `println` output at AndroidTestRunner.kt lines 29-30 is I/O.
- `FtlConstants.kt` is not part of this model. The prefix is taken to be `gs://`, the Cloud Storage URI scheme, and no lemma depends on its value.
- Statistics: does not model 32-bit `Int` overflow of `sumBy` or of the chunk sizes. Counts are unbounded integers.
- JobsLength: does not model 32-bit overflow of `testRuns × testShardChunks.size`.
- `Utils.kt`, which defines `assertNotEmpty`, is not part of this model. The model assumes that "empty" means the empty string, as Kotlin's `isEmpty()` does, and that a failed check throws, so construction yields no object. A blank-string check or a process exit would behave differently. The exception and its message text are represented by the `ConfigError` tags `ProjectNotSet` and `ResultsBucketNotSet`.
- Jackson deserialisation (`@JsonProperty`, `@JsonIgnoreProperties`) is library behaviour. Only the key names it implies are modelled.
- `getDefaultProjectId()`, `GcToolResults.getDefaultBucket` and the global `useMock` flag are environment and network lookups. They are explicit parameters.
