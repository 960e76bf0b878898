/**
  The dispatch planning of `AndroidTestRunner`: artifact resolution (`resolveApks`),
  the shard statistics, and the fan-out of one test matrix per (run, shard).

  Remote work is abstract: the two uploads and the matrix `execute()` are function
  parameters, and the device list built by `GcAndroidMatrix.build` is an input value.
  The coroutine fan-out is a sequential loop, in the order the jobs are enqueued.
*/
module AndroidTestRunner {
  import opened Wrappers

  /** The Google Cloud Storage URI scheme that marks a path as already remote. */
  const GcsPrefix: string := "gs://"

  /** Kotlin's `path.startsWith(GCS_PREFIX)`. */
  predicate IsGcsPath(path: string) {
    GcsPrefix <= path
  }

  /** The fields of `AndroidArgs` that this code reads. */
  datatype AndroidArgs = AndroidArgs(
    appApk: string,
    testApk: string,
    resultsBucket: string,
    testRuns: int,
    testShardChunks: seq<seq<string>>)

  /** The device list returned by `GcAndroidMatrix.build`; this code only passes it on. */
  type AndroidDeviceList = seq<string>

  /** An upload to the storage service: (local path, bucket, run GCS path) to the new GCS path. */
  type Uploader = (string, string, string) -> string

  datatype ApkKind = AppApk | TestApk

  /** One call made to the storage service. */
  datatype Upload = Upload(apk: ApkKind, localPath: string, bucket: string, runGcsPath: string)

  /** The remote path of one artifact, with the uploads made to obtain it. */
  datatype Resolved = Resolved(gcsPath: string, uploads: seq<Upload>)

  /** Both artifacts: the pair (app, test) that `resolveApks` returns, with the uploads made. */
  datatype ResolvedApks = ResolvedApks(apks: (string, string), uploads: seq<Upload>)

  /** One branch of `resolveApks`: upload only when the path is not already remote. */
  function ResolveApk(apk: ApkKind, path: string, bucket: string, runGcsPath: string, upload: Uploader): (r: Resolved)
    ensures r.uploads == [] <==> IsGcsPath(path)
    ensures IsGcsPath(path) ==> r.gcsPath == path
    ensures !IsGcsPath(path) ==>
      r.gcsPath == upload(path, bucket, runGcsPath) && r.uploads == [Upload(apk, path, bucket, runGcsPath)]
  {
    if !IsGcsPath(path) then
      Resolved(upload(path, bucket, runGcsPath), [Upload(apk, path, bucket, runGcsPath)])
    else
      Resolved(path, [])
  }

  /** Resolution is idempotent once the upload yields a remote path: resolving its result again uploads nothing. */
  lemma ResolveApkIdempotent(apk: ApkKind, path: string, bucket: string, runGcsPath: string, upload: Uploader)
    requires IsGcsPath(path) || IsGcsPath(upload(path, bucket, runGcsPath))
    ensures var r := ResolveApk(apk, path, bucket, runGcsPath, upload);
      IsGcsPath(r.gcsPath) && ResolveApk(apk, r.gcsPath, bucket, runGcsPath, upload) == Resolved(r.gcsPath, [])
  {
  }

  /** `resolveApks`: each artifact resolved independently, into the bucket of the configuration. */
  function ResolveApks(config: AndroidArgs, runGcsPath: string, uploadAppApk: Uploader, uploadTestApk: Uploader): (r: ResolvedApks)
    ensures var app := ResolveApk(AppApk, config.appApk, config.resultsBucket, runGcsPath, uploadAppApk);
      var test := ResolveApk(TestApk, config.testApk, config.resultsBucket, runGcsPath, uploadTestApk);
      r.apks == (app.gcsPath, test.gcsPath) && r.uploads == app.uploads + test.uploads
    ensures |r.uploads| == (if IsGcsPath(config.appApk) then 0 else 1) + (if IsGcsPath(config.testApk) then 0 else 1)
    ensures forall u :: u in r.uploads ==> u.bucket == config.resultsBucket && u.runGcsPath == runGcsPath
    ensures forall u :: u in r.uploads ==> (u.apk == AppApk ==> u.localPath == config.appApk) && (u.apk == TestApk ==> u.localPath == config.testApk)
  {
    var gcsBucket := config.resultsBucket;
    var app := ResolveApk(AppApk, config.appApk, gcsBucket, runGcsPath, uploadAppApk);
    var test := ResolveApk(TestApk, config.testApk, gcsBucket, runGcsPath, uploadTestApk);
    ResolvedApks((app.gcsPath, test.gcsPath), app.uploads + test.uploads)
  }

  // ---------------------------------------------------------------------------
  // Shard statistics

  datatype RunError = EmptyShardChunks  // `first()` on an empty list

  datatype ShardStats = ShardStats(runCount: int, repeatShard: nat, testsPerVm: nat, testsTotal: nat)

  /** `sumBy { it.size }` over the chunks. */
  function TestsTotal(chunks: seq<seq<string>>): nat {
    if chunks == [] then 0 else |chunks[0]| + TestsTotal(chunks[1..])
  }

  /** All the tests of all the chunks, in order. */
  function Flatten(chunks: seq<seq<string>>): seq<string> {
    if chunks == [] then [] else chunks[0] + Flatten(chunks[1..])
  }

  /** The total counts every test of every shard once. */
  lemma {:induction false} TestsTotalCountsEveryTest(chunks: seq<seq<string>>)
    ensures TestsTotal(chunks) == |Flatten(chunks)|
  {
    if chunks != [] {
      TestsTotalCountsEveryTest(chunks[1..]);
    }
  }

  /** The statistics `runTests` computes before enqueueing; `first()` fails on an empty chunk list. */
  function Statistics(testRuns: int, chunks: seq<seq<string>>): (r: Result<ShardStats, RunError>)
    ensures r.Failure? <==> chunks == []
    ensures r.Success? ==>
      && r.value.runCount == testRuns
      && r.value.repeatShard == |chunks|
      && r.value.testsPerVm == |chunks[0]|
      && r.value.testsTotal == |Flatten(chunks)|
      && r.value.testsPerVm <= r.value.testsTotal
  {
    if chunks == [] then
      Failure(EmptyShardChunks)
    else
      TestsTotalCountsEveryTest(chunks);
      Success(ShardStats(testRuns, |chunks|, |chunks[0]|, TestsTotal(chunks)))
  }

  // ---------------------------------------------------------------------------
  // Job fan-out

  /** The arguments every `GcAndroidTestMatrix.build` call receives, whatever its shard. */
  datatype SharedArgs = SharedArgs(
    appApkGcsPath: string,
    testApkGcsPath: string,
    runGcsPath: string,
    androidDeviceList: AndroidDeviceList,
    config: AndroidArgs)

  /** The arguments of one `GcAndroidTestMatrix.build` call; the run index is not among them. */
  datatype JobSpec = JobSpec(shared: SharedArgs, testShardsIndex: nat)

  /** The jobs of one run: shard indices 0 .. shards-1 in ascending order. */
  function OneRun(shared: SharedArgs, shards: nat): seq<JobSpec> {
    if shards == 0 then [] else OneRun(shared, shards - 1) + [JobSpec(shared, shards - 1)]
  }

  /** The jobs `runTests` enqueues, run after run; `repeat(n)` with n <= 0 runs nothing. */
  function Jobs(shared: SharedArgs, runs: int, shards: nat): seq<JobSpec>
    decreases runs
  {
    if runs <= 0 then [] else Jobs(shared, runs - 1, shards) + OneRun(shared, shards)
  }

  /** The number of jobs that repeat(runs) x repeat(shards) enumerates. */
  function JobCount(runs: int, shards: nat): nat {
    if runs <= 0 then 0 else runs * shards
  }

  lemma {:induction false} OneRunAt(shared: SharedArgs, shards: nat)
    ensures |OneRun(shared, shards)| == shards
    ensures forall i :: 0 <= i < shards ==> OneRun(shared, shards)[i] == JobSpec(shared, i)
  {
    if shards > 0 {
      OneRunAt(shared, shards - 1);
    }
  }

  /** There are exactly runs x shards jobs. */
  lemma {:induction false} JobsLength(shared: SharedArgs, runs: int, shards: nat)
    ensures |Jobs(shared, runs, shards)| == JobCount(runs, shards)
  {
    if runs > 0 {
      JobsLength(shared, runs - 1, shards);
      OneRunAt(shared, shards);
      assert runs * shards == (runs - 1) * shards + shards;
    }
  }

  /** Run r, shard i sits at position r * shards + i. */
  lemma {:induction false} JobOfRunAndShard(shared: SharedArgs, runs: int, shards: nat, r: nat, i: nat)
    requires r < runs && i < shards
    ensures r * shards + i < |Jobs(shared, runs, shards)|
    ensures Jobs(shared, runs, shards)[r * shards + i] == JobSpec(shared, i)
  {
    JobsLength(shared, runs - 1, shards);
    OneRunAt(shared, shards);
    if r < runs - 1 {
      JobOfRunAndShard(shared, runs - 1, shards, r, i);
      assert r * shards + i < (runs - 1) * shards by {
        assert (r + 1) * shards <= (runs - 1) * shards;
      }
    } else {
      assert r * shards == (runs - 1) * shards;
      assert |Jobs(shared, runs - 1, shards)| == r * shards;
    }
  }

  /** A positive multiple of s is at least s. */
  lemma {:induction false} MultipleAtLeast(d: nat, s: nat)
    requires d >= 1
    ensures d * s >= s
  {
    if d > 1 {
      MultipleAtLeast(d - 1, s);
      assert d * s == (d - 1) * s + s;
    }
  }

  /** (q * s + i) % s == i for a remainder i < s. */
  lemma ModOfRunOffset(q: nat, s: nat, i: nat)
    requires i < s
    ensures (q * s + i) % s == i
  {
    var x := q * s + i;
    var q', i' := x / s, x % s;
    assert q' * s + i' == x;
    if q' < q {
      MultipleAtLeast(q - q', s);
    } else if q' > q {
      MultipleAtLeast(q' - q, s);
    }
  }

  /** Position k < runs * shards lies in run k / shards, at shard k % shards. */
  lemma DivInRange(k: nat, runs: nat, shards: nat)
    requires k < runs * shards
    ensures shards > 0 && k / shards < runs && (k / shards) * shards + k % shards == k
  {
    assert shards > 0;
    var r := k / shards;
    if r >= runs {
      MultipleAtLeast(runs, shards);
      assert false;
    }
  }

  /** The job at list position k has shard index k mod shards and the shared arguments. */
  lemma JobsAt(shared: SharedArgs, runs: int, shards: nat, k: nat)
    requires k < |Jobs(shared, runs, shards)|
    ensures shards > 0 && Jobs(shared, runs, shards)[k] == JobSpec(shared, k % shards)
  {
    JobsLength(shared, runs, shards);
    DivInRange(k, runs, shards);
    JobOfRunAndShard(shared, runs, shards, k / shards, k % shards);
  }

  /** Every shard index is in [0, shards) and every job carries the same app, test, run path and devices. */
  lemma IndicesInRangeAndArgsShared(shared: SharedArgs, runs: int, shards: nat)
    ensures forall k :: 0 <= k < |Jobs(shared, runs, shards)| ==>
      Jobs(shared, runs, shards)[k].testShardsIndex < shards && Jobs(shared, runs, shards)[k].shared == shared
  {
    forall k | 0 <= k < |Jobs(shared, runs, shards)|
      ensures Jobs(shared, runs, shards)[k].testShardsIndex < shards && Jobs(shared, runs, shards)[k].shared == shared
    {
      JobsAt(shared, runs, shards, k);
    }
  }

  /** The run index is not passed to the builder: a job and the one a run later are identical. */
  lemma RunsRepeatEachOther(shared: SharedArgs, runs: int, shards: nat, k: nat)
    requires k + shards < |Jobs(shared, runs, shards)|
    ensures Jobs(shared, runs, shards)[k] == Jobs(shared, runs, shards)[k + shards]
  {
    JobsAt(shared, runs, shards, k);
    JobsAt(shared, runs, shards, k + shards);
    ModOfRunOffset(k / shards + 1, shards, k % shards);
    assert k + shards == (k / shards + 1) * shards + k % shards;
  }

  /** The shard indices of a job list, in order. */
  function ShardIndices(jobs: seq<JobSpec>): seq<nat> {
    seq(|jobs|, k requires 0 <= k < |jobs| => jobs[k].testShardsIndex)
  }

  lemma {:induction false} OneRunOccurrences(shared: SharedArgs, shards: nat, i: nat)
    ensures multiset(ShardIndices(OneRun(shared, shards)))[i] == if i < shards then 1 else 0
  {
    if shards > 0 {
      OneRunOccurrences(shared, shards - 1, i);
      var prev := OneRun(shared, shards - 1);
      assert ShardIndices(prev + [JobSpec(shared, shards - 1)]) == ShardIndices(prev) + [shards - 1];
    }
  }

  /** Each shard index occurs exactly once per run; no other index occurs. */
  lemma {:induction false} ShardOccurrences(shared: SharedArgs, runs: int, shards: nat, i: nat)
    ensures multiset(ShardIndices(Jobs(shared, runs, shards)))[i] == if i < shards && runs > 0 then runs else 0
  {
    if runs > 0 {
      ShardOccurrences(shared, runs - 1, shards, i);
      OneRunOccurrences(shared, shards, i);
      var prev, run := Jobs(shared, runs - 1, shards), OneRun(shared, shards);
      assert ShardIndices(prev + run) == ShardIndices(prev) + ShardIndices(run);
    }
  }

  /** The result of `runTests` before `afterRunTests`: the statistics, the built jobs and their matrices. */
  datatype Dispatch<M> = Dispatch(stats: ShardStats, specs: seq<JobSpec>, matrices: seq<M>)

  /**
    `runTests`: resolve both artifacts once, compute the statistics (which fail on an
    empty chunk list after the uploads), then enqueue one `build(...).execute()` per
    run and shard. `execute` stands for the remote submission; it is given the
    enqueue position, because each submission creates its own remote matrix even
    when two jobs have the same build arguments.
  */
  method RunTests<M>(androidArgs: AndroidArgs, runGcsPath: string, androidDeviceList: AndroidDeviceList,
                     uploadAppApk: Uploader, uploadTestApk: Uploader, execute: (nat, JobSpec) -> M)
    returns (uploads: seq<Upload>, outcome: Result<Dispatch<M>, RunError>)
    ensures uploads == ResolveApks(androidArgs, runGcsPath, uploadAppApk, uploadTestApk).uploads
    ensures outcome.Failure? <==> androidArgs.testShardChunks == []
    ensures outcome.Success? ==>
      var apks := ResolveApks(androidArgs, runGcsPath, uploadAppApk, uploadTestApk).apks;
      var shared := SharedArgs(apks.0, apks.1, runGcsPath, androidDeviceList, androidArgs);
      && outcome.value.stats == Statistics(androidArgs.testRuns, androidArgs.testShardChunks).value
      && outcome.value.specs == Jobs(shared, androidArgs.testRuns, |androidArgs.testShardChunks|)
      && |outcome.value.matrices| == |outcome.value.specs|
      && forall k :: 0 <= k < |outcome.value.specs| ==> outcome.value.matrices[k] == execute(k, outcome.value.specs[k])
  {
    var resolved := ResolveApks(androidArgs, runGcsPath, uploadAppApk, uploadTestApk);
    uploads := resolved.uploads;
    var apks := resolved.apks;
    var runCount := androidArgs.testRuns;
    var repeatShard := |androidArgs.testShardChunks|;
    var stats := Statistics(runCount, androidArgs.testShardChunks);
    if stats.Failure? {
      return uploads, Failure(stats.error);
    }
    var shared := SharedArgs(apks.0, apks.1, runGcsPath, androidDeviceList, androidArgs);
    var specs: seq<JobSpec> := [];
    var jobs: seq<M> := [];
    var run := 0;
    while run < runCount
      invariant 0 <= run && (runCount <= 0 ==> run == 0) && (runCount > 0 ==> run <= runCount)
      invariant specs == Jobs(shared, run, repeatShard)
      invariant |jobs| == |specs| && forall k :: 0 <= k < |specs| ==> jobs[k] == execute(k, specs[k])
    {
      var testShardsIndex := 0;
      while testShardsIndex < repeatShard
        invariant 0 <= testShardsIndex <= repeatShard
        invariant specs == Jobs(shared, run, repeatShard) + OneRun(shared, testShardsIndex)
        invariant |jobs| == |specs| && forall k :: 0 <= k < |specs| ==> jobs[k] == execute(k, specs[k])
      {
        var spec := JobSpec(shared, testShardsIndex);
        jobs := jobs + [execute(|specs|, spec)];
        specs := specs + [spec];
        testShardsIndex := testShardsIndex + 1;
      }
      run := run + 1;
    }
    outcome := Success(Dispatch(stats.value, specs, jobs));
  }

  /** One run over two shards of 5 and 7 tests whose artifacts are both remote: two jobs, no upload. */
  method TwoShardScenario(execute: (nat, JobSpec) -> int, upload: Uploader) {
    var chunks := [["t1", "t2", "t3", "t4", "t5"], ["u1", "u2", "u3", "u4", "u5", "u6", "u7"]];
    var args := AndroidArgs("gs://b/app.apk", "gs://b/test.apk", "bucket", 1, chunks);
    var uploads, outcome := RunTests(args, "run", ["device"], upload, upload, execute);
    assert uploads == [];
    var shared := SharedArgs("gs://b/app.apk", "gs://b/test.apk", "run", ["device"], args);
    JobsLength(shared, 1, 2);
    assert |outcome.value.specs| == 2;
    assert outcome.value.stats.testsPerVm == 5;
    assert TestsTotal(chunks) == 12;
  }
}
