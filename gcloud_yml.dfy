/**
  The `gcloud:` section of flank.yml: the parameters shared by the iOS and Android
  runners, their defaults, their YAML key list, and the validation and defaulting
  done when `GcloudYmlParams` is constructed.

  The process-wide mock flag and the two lookups the Kotlin code makes
  (`getDefaultProjectId()` and `GcToolResults.getDefaultBucket(project)`) are parameters.
*/
module GcloudYml {
  import opened Wrappers

  /** The failures of the two `assertNotEmpty` checks of the init block. */
  datatype ConfigError = ProjectNotSet | ResultsBucketNotSet

  /** The bucket forced in mock mode. */
  const MockBucket: string := "mockBucket"

  /** The default-bucket lookup: the project's default results bucket, if it has one. */
  type BucketLookup = string -> Option<string>

  // ---------------------------------------------------------------------------
  // YAML keys

  /** The five parameters, in the order of the primary constructor. */
  datatype GcloudKey = ResultsBucket | RecordVideo | Timeout | Async | Project

  /** The YAML key of a parameter: its `@JsonProperty` name, otherwise its property name. */
  function YamlName(key: GcloudKey): string {
    match key
    case ResultsBucket => "results-bucket"
    case RecordVideo => "record-video"
    case Timeout => "timeout"
    case Async => "async"
    case Project => "project"
  }

  /** The parameter a YAML key names, if any. */
  function KeyOf(name: string): (r: Option<GcloudKey>)
    ensures r.Some? ==> YamlName(r.value) == name
  {
    if name == "results-bucket" then Some(ResultsBucket)
    else if name == "record-video" then Some(RecordVideo)
    else if name == "timeout" then Some(Timeout)
    else if name == "async" then Some(Async)
    else if name == "project" then Some(Project)
    else None
  }

  /** `GcloudYmlParams.keys`. */
  const Keys: seq<string> := ["results-bucket", "record-video", "timeout", "async", "project"]

  /** `GcloudYml.map`: the section name to its keys. */
  const GcloudMap: map<string, seq<string>> := map["gcloud" := Keys]

  /** The key list names every parameter exactly once, in constructor order, and nothing else. */
  lemma KeysNameEveryParameter()
    ensures Keys == [YamlName(ResultsBucket), YamlName(RecordVideo), YamlName(Timeout), YamlName(Async), YamlName(Project)]
    ensures forall key: GcloudKey :: KeyOf(YamlName(key)) == Some(key)
    ensures forall name :: name in Keys <==> KeyOf(name).Some?
    ensures forall i, j :: 0 <= i < j < |Keys| ==> Keys[i] != Keys[j]
  {
  }

  /** The map has the single section "gcloud", whose keys are `Keys`. */
  lemma GcloudMapHoldsTheKeys()
    ensures GcloudMap.Keys == {"gcloud"} && GcloudMap["gcloud"] == Keys
  {
  }

  // ---------------------------------------------------------------------------
  // Validation and defaulting

  /**
    The init block on values: the result is the bucket the object ends with, or the
    failure of the first check that does not hold.
  */
  function InitResultsBucket(resultsBucket: string, project: string, useMock: bool, defaultBucket: BucketLookup): (r: Result<string, ConfigError>)
    ensures project == "" ==> r == Failure(ProjectNotSet)
    ensures project != "" && useMock ==> r == Success(MockBucket)
    ensures project != "" && !useMock && resultsBucket != "" ==> r == Success(resultsBucket)
    ensures project != "" && !useMock && resultsBucket == "" ==>
      r == if defaultBucket(project).GetOr("") == "" then Failure(ResultsBucketNotSet) else Success(defaultBucket(project).value)
    ensures r.Success? ==> r.value != ""
  {
    if project == "" then
      Failure(ProjectNotSet)
    else if useMock then
      Success(MockBucket)
    else
      var bucket := if resultsBucket == "" then defaultBucket(project).GetOr("") else resultsBucket;
      if bucket == "" then Failure(ResultsBucketNotSet) else Success(bucket)
  }

  /** Construction succeeds exactly when there is a project and some non-empty bucket to use. */
  lemma InitSucceedsIff(resultsBucket: string, project: string, useMock: bool, defaultBucket: BucketLookup)
    ensures InitResultsBucket(resultsBucket, project, useMock, defaultBucket).Success? <==>
      project != "" && (useMock || resultsBucket != "" || defaultBucket(project).GetOr("") != "")
  {
  }

  /** Defaulting is stable: feeding the final bucket back in leaves it as it is. */
  lemma InitIsIdempotent(resultsBucket: string, project: string, useMock: bool, defaultBucket: BucketLookup)
    requires InitResultsBucket(resultsBucket, project, useMock, defaultBucket).Success?
    ensures var bucket := InitResultsBucket(resultsBucket, project, useMock, defaultBucket).value;
      InitResultsBucket(bucket, project, useMock, defaultBucket) == Success(bucket)
  {
  }

  /** The common gcloud parameters; only `resultsBucket` is mutable. */
  class GcloudYmlParams {
    var resultsBucket: string
    const recordVideo: bool
    const timeout: string
    const async: bool
    const project: string

    /**
      The property assignments of the primary constructor, with its defaults;
      `defaultProjectId` is what `getDefaultProjectId()` returns.
    */
    constructor Assign(defaultProjectId: string, resultsBucket: string := "", recordVideo: bool := true,
                       timeout: string := "15m", async: bool := false, project: string := defaultProjectId)
      ensures this.resultsBucket == resultsBucket && this.recordVideo == recordVideo && this.timeout == timeout
      ensures this.async == async && this.project == project
    {
      this.resultsBucket := resultsBucket;
      this.recordVideo := recordVideo;
      this.timeout := timeout;
      this.async := async;
      this.project := project;
    }

    /** The init block: check the project, then force, default and check the bucket. */
    method Init(useMock: bool, defaultBucket: BucketLookup) returns (outcome: Outcome<ConfigError>)
      modifies this
      ensures var r := InitResultsBucket(old(resultsBucket), project, useMock, defaultBucket);
        && (r.Success? ==> outcome == Pass && resultsBucket == r.value)
        && (r.Failure? ==> outcome == Fail(r.error))
      ensures project == "" ==> resultsBucket == old(resultsBucket)
      ensures outcome == Fail(ResultsBucketNotSet) ==> resultsBucket == ""
    {
      if project == "" {
        return Fail(ProjectNotSet);
      }
      if useMock {
        resultsBucket := MockBucket;
      } else {
        if resultsBucket == "" {
          resultsBucket := defaultBucket(project).GetOr("");
        }
        if resultsBucket == "" {
          return Fail(ResultsBucketNotSet);
        }
      }
      return Pass;
    }
  }

  /** `GcloudYmlParams(...)`: assign the properties, then run the init block; a failed check yields no object. */
  method NewGcloudYmlParams(useMock: bool, defaultBucket: BucketLookup, defaultProjectId: string,
                            resultsBucket: string := "", recordVideo: bool := true, timeout: string := "15m",
                            async: bool := false, project: string := defaultProjectId)
    returns (r: Result<GcloudYmlParams, ConfigError>)
    ensures var init := InitResultsBucket(resultsBucket, project, useMock, defaultBucket);
      && (init.Failure? ==> r == Failure(init.error))
      && (init.Success? ==>
            && r.Success? && fresh(r.value)
            && r.value.resultsBucket == init.value && r.value.recordVideo == recordVideo
            && r.value.timeout == timeout && r.value.async == async && r.value.project == project)
  {
    var params := new GcloudYmlParams.Assign(defaultProjectId, resultsBucket, recordVideo, timeout, async, project);
    var outcome := params.Init(useMock, defaultBucket);
    if outcome.Fail? {
      return Failure(outcome.error);
    }
    return Success(params);
  }

  /** With nothing supplied, the defaults are recordVideo = true, timeout = "15m", async = false. */
  method DefaultsScenario(defaultBucket: BucketLookup) {
    var r := NewGcloudYmlParams(true, defaultBucket, "my-project");
    assert r.Success?;
    var params := r.value;
    assert params.recordVideo && params.timeout == "15m" && !params.async;
    assert params.project == "my-project" && params.resultsBucket == MockBucket;
  }
}
