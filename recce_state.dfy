/** The recce state file: the schema-version gate on loading, the state
    loader's verification, update and export dispatch, the S3 bucket and
    key strings, and the pydantic major-version test. */
module RecceState {
  import opened Wrappers
  import Text

  /** The state file's metadata; `schemaVersion` is absent when the file
      holds `null` there. */
  datatype Metadata = Metadata(schemaVersion: Option<string>, recceVersion: string, generatedAt: string)

  /** A parsed state. Runs, checks, artifacts and git information are
      carried through unexamined, as the opaque `content`. */
  datatype State = State(metadata: Option<Metadata>, content: string)

  const SupportedVersion := "v0"

  /** `RecceState.from_json` after parsing: a state without metadata is
      accepted, a state with metadata only at version "v0". */
  function FromJson(parsed: State): (r: Result<State, string>)
    ensures r.Ok? <==> parsed.metadata.None? || parsed.metadata.value.schemaVersion == Some(SupportedVersion)
    ensures r.Ok? ==> r.value == parsed
    ensures r.Err? ==> r.error == "Unsupported state file version: " + Text.PyStr(parsed.metadata.value.schemaVersion)
  {
    match parsed.metadata
    case None => Ok(parsed)
    case Some(metadata) =>
      if metadata.schemaVersion == Some(SupportedVersion) then Ok(parsed)
      else Err("Unsupported state file version: " + Text.PyStr(metadata.schemaVersion))
  }

  /** A state that was accepted once is accepted again unchanged. */
  lemma FromJsonIdempotent(parsed: State)
    requires FromJson(parsed).Ok?
    ensures FromJson(FromJson(parsed).value) == FromJson(parsed)
  {
  }

  /** `pydantic_version.split(".")[0]` */
  function PydanticMajor(version: string): (major: string)
    ensures Text.StartsWith(version, major) && '.' !in major
  {
    Text.BeforeFirstDot(version)
  }

  /** Whether the dump helpers take the pydantic 1 API. */
  predicate UsesV1Api(version: string) {
    PydanticMajor(version) == "1"
  }

  /** The 1.x API is taken for exactly the version "1" and the versions
      starting "1."; "10.0" or "2.5" take the other one. */
  lemma UsesV1ApiIff(version: string)
    ensures UsesV1Api(version) <==> version == "1" || Text.StartsWith(version, "1.")
  {
    var major := PydanticMajor(version);
    if version == "1" || Text.StartsWith(version, "1.") {
      if version != "1" {
        assert version == "1" + "." + version[2..];
        Text.BeforeFirstDotOfDotted("1", version[2..]);
      }
    }
    if major == "1" {
      assert version[..1] == "1";
      if |version| > 1 {
        assert version[..2] == "1.";
      } else {
        assert version == "1";
      }
    }
  }

  /** The pull request the export runs for; an `id` is an integer or a
      string. Fetching it is not part of this model. */
  datatype PrId = IntId(n: int) | StrId(s: string)
  datatype PullRequestInfo = PullRequestInfo(id: Option<PrId>, repository: Option<string>)

  /** The f-string rendering of the pull-request id. */
  function IdString(id: Option<PrId>): string {
    match id
    case None => "None"
    case Some(IntId(n)) => Text.IntString(n)
    case Some(StrId(s)) => s
  }

  /** `host.replace('s3://', '')`: never longer than the host, and the
      host itself when it holds no "s3://". */
  function S3BucketName(host: string): (name: string)
    ensures |name| <= |host|
    ensures !Text.Occurs(host, "s3://") ==> name == host
  {
    assert !Text.Occurs(host, "s3://") ==> Text.RemoveAll(host, "s3://") == host by {
      if !Text.Occurs(host, "s3://") {
        Text.RemoveAllAbsent(host, "s3://");
      }
    }
    Text.RemoveAll(host, "s3://")
  }

  /** A host written as "s3://" before a bucket name gives that name. */
  lemma S3BucketNameOfUrl(bucket: string)
    requires !Text.Occurs(bucket, "s3://")
    ensures S3BucketName("s3://" + bucket) == bucket
  {
    var host := "s3://" + bucket;
    assert host[..|"s3://"|] == "s3://";
    assert host[|"s3://"|..] == bucket;
    Text.RemoveAllAbsent(bucket, "s3://");
  }

  /** The object key of a pull request's state: under "github/", ending in
      the state file's name. */
  function S3BucketKey(pr: PullRequestInfo): (key: string)
    ensures Text.StartsWith(key, "github/")
    ensures |key| >= |"/recce-state.json"| && key[|key| - |"/recce-state.json"|..] == "/recce-state.json"
  {
    "github/" + Text.PyStr(pr.repository) + "/pulls/" + IdString(pr.id) + "/recce-state.json"
  }

  /** Within one repository, equal keys mean equal rendered ids (an absent
      id renders as "None", like the string id "None"). */
  lemma {:induction false} S3BucketKeyInjective(repository: Option<string>, a: Option<PrId>, b: Option<PrId>)
    requires S3BucketKey(PullRequestInfo(a, repository)) == S3BucketKey(PullRequestInfo(b, repository))
    ensures IdString(a) == IdString(b)
  {
    var prefix := "github/" + Text.PyStr(repository) + "/pulls/";
    var suffix := "/recce-state.json";
    var ka, kb := S3BucketKey(PullRequestInfo(a, repository)), S3BucketKey(PullRequestInfo(b, repository));
    assert ka == prefix + IdString(a) + suffix;
    assert kb == prefix + IdString(b) + suffix;
    assert |IdString(a)| == |IdString(b)|;
    assert IdString(a) == ka[|prefix|..|prefix| + |IdString(a)|];
    assert IdString(b) == kb[|prefix|..|prefix| + |IdString(b)|];
  }

  /** Where `export` sends the state. */
  datatype ExportTarget =
    | StateFile(path: Option<string>)
    | S3Bucket(bucket: string, key: string)
    | RecceCloud(repository: Option<string>, id: Option<PrId>)

  /** `cloud_options.get('host', '')` */
  function Host(cloudOptions: map<string, string>): string {
    if "host" in cloudOptions then cloudOptions["host"] else ""
  }

  /** The export dispatch: the state file outside cloud mode; in cloud
      mode the S3 bucket named by an `s3://` host, Recce Cloud otherwise. */
  function ExportTargetFor(cloudMode: bool, cloudOptions: map<string, string>, stateFile: Option<string>, pr: PullRequestInfo): (t: ExportTarget)
    ensures t.StateFile? <==> !cloudMode
    ensures t.S3Bucket? <==> cloudMode && Text.StartsWith(Host(cloudOptions), "s3://")
    ensures t.StateFile? ==> t.path == stateFile
    ensures t.S3Bucket? ==> t.bucket == S3BucketName(cloudOptions["host"]) && t.key == S3BucketKey(pr)
  {
    if !cloudMode then StateFile(stateFile)
    else if Text.StartsWith(Host(cloudOptions), "s3://") then S3Bucket(S3BucketName(cloudOptions["host"]), S3BucketKey(pr))
    else RecceCloud(pr.repository, pr.id)
  }

  /** A cloud export without a host goes to Recce Cloud. */
  lemma NoHostMeansRecceCloud(cloudOptions: map<string, string>, stateFile: Option<string>, pr: PullRequestInfo)
    requires "host" !in cloudOptions
    ensures ExportTargetFor(true, cloudOptions, stateFile, pr).RecceCloud?
  {
  }

  /** A state file path the export can open: `open` raises on `None` and on
      the empty path. */
  predicate WritablePath(path: Option<string>) {
    path.Some? && path.value != ""
  }

  /** The message a successful file or S3 export returns. `None` stands for
      a file export without a usable path, where `open` raises before any
      message is built, and for Recce Cloud, whose message depends on the
      uploads and is not part of this model. */
  function ExportMessage(t: ExportTarget): (m: Option<string>)
    ensures m.Some? <==> t.S3Bucket? || (t.StateFile? && WritablePath(t.path))
    ensures t.StateFile? && m.Some? ==>
      m.value == "The state file is stored at [" + t.path.value + "]"
    ensures t.S3Bucket? ==> Text.StartsWith(m.value, "The state file is uploaded to ' s3://")
  {
    match t
    case StateFile(path) =>
      if WritablePath(path) then Some("The state file is stored at [" + path.value + "]") else None
    case S3Bucket(bucket, key) => Some("The state file is uploaded to ' s3://" + bucket + "/" + key + "'")
    case RecceCloud(_, _) => None
  }

  /** An S3 export names the configured host again in its message, with
      the key after it. */
  lemma S3MessageNamesHost(bucket: string, cloudOptions: map<string, string>, stateFile: Option<string>, pr: PullRequestInfo)
    requires !Text.Occurs(bucket, "s3://")
    requires "host" in cloudOptions && cloudOptions["host"] == "s3://" + bucket
    ensures ExportMessage(ExportTargetFor(true, cloudOptions, stateFile, pr))
      == Some("The state file is uploaded to ' " + cloudOptions["host"] + "/" + S3BucketKey(pr) + "'")
  {
    assert Text.StartsWith(Host(cloudOptions), "s3://") by {
      assert cloudOptions["host"][..5] == "s3://";
    }
    S3BucketNameOfUrl(bucket);
    assert ExportTargetFor(true, cloudOptions, stateFile, pr) == S3Bucket(bucket, S3BucketKey(pr));
    var lead, key := "The state file is uploaded to ' ", S3BucketKey(pr);
    assert "The state file is uploaded to ' s3://" == lead + "s3://";
    calc {
      "The state file is uploaded to ' s3://" + bucket + "/" + key + "'";
      lead + ("s3://" + bucket) + "/" + key + "'";
      lead + cloudOptions["host"] + "/" + key + "'";
    }
  }

  const ReviewWithoutStateError := "Cannot launch server in review mode without a state file."
  const ReviewWithoutStateHint := "Please provide a state file in the command argument."

  /** `load`: nothing in cloud mode or without a state file (the path
      lookup on `None` raises); otherwise the state file read through `read`
      (absent when reading or parsing raises) and put through the version
      gate, whose exception `load` swallows. */
  function LoadedState(cloudMode: bool, stateFile: Option<string>, read: string -> Option<State>): (s: Option<State>)
    ensures s.Some? ==> !cloudMode && stateFile.Some? && read(stateFile.value) == s && FromJson(s.value).Ok?
    ensures s.None? && !cloudMode && stateFile.Some? && read(stateFile.value).Some? ==>
      FromJson(read(stateFile.value).value).Err?
  {
    if cloudMode || stateFile.None? then None
    else
      match read(stateFile.value)
      case None => None
      case Some(parsed) => if FromJson(parsed).Ok? then Some(parsed) else None
  }

  class RecceStateLoader {
    const reviewMode: bool
    const cloudMode: bool
    const stateFile: Option<string>
    const cloudOptions: map<string, string>
    var errorMessage: Option<string>
    var hintMessage: Option<string>
    var state: Option<State>

    /** Stores the options (`cloud_options or {}`) and loads the state. */
    constructor (reviewMode: bool, cloudMode: bool, stateFile: Option<string>,
                 cloudOptions: Option<map<string, string>>, read: string -> Option<State>)
      ensures this.reviewMode == reviewMode && this.cloudMode == cloudMode && this.stateFile == stateFile
      ensures this.cloudOptions == if cloudOptions.Some? then cloudOptions.value else map[]
      ensures errorMessage.None? && hintMessage.None?
      ensures state == LoadedState(cloudMode, stateFile, read)
    {
      this.reviewMode := reviewMode;
      this.cloudMode := cloudMode;
      this.stateFile := stateFile;
      this.cloudOptions := if cloudOptions.Some? then cloudOptions.value else map[];
      errorMessage := None;
      hintMessage := None;
      state := LoadedState(cloudMode, stateFile, read);
    }

    /** `__bool__`: the loader is truthy exactly when it holds a state. */
    predicate IsLoaded()
      reads this
      ensures IsLoaded() <==> state.Some?
    {
      state.Some?
    }

    /** `verify`: review mode outside the cloud needs a state file; on that
        failure both messages are set, otherwise nothing changes. */
    method Verify() returns (ok: bool)
      modifies this
      ensures ok <==> cloudMode || !reviewMode || stateFile.Some?
      ensures ok ==> errorMessage == old(errorMessage) && hintMessage == old(hintMessage)
      ensures !ok ==> errorMessage == Some(ReviewWithoutStateError) && hintMessage == Some(ReviewWithoutStateHint)
      ensures state == old(state)
    {
      if cloudMode {
      } else {
        if reviewMode && stateFile.None? {
          errorMessage := Some(ReviewWithoutStateError);
          hintMessage := Some(ReviewWithoutStateHint);
          return false;
        }
      }
      return true;
    }

    /** `update`: replaces the state and nothing else. */
    method Update(newState: State)
      modifies this
      ensures state == Some(newState) && IsLoaded()
      ensures errorMessage == old(errorMessage) && hintMessage == old(hintMessage)
    {
      state := Some(newState);
    }

    /** `export`: a given state replaces the current one first; the result
        is where the state goes and the message a successful file or S3
        export returns. Writing and uploading are not part of this model. */
    method Export(newState: Option<State>, pr: PullRequestInfo) returns (target: ExportTarget, message: Option<string>)
      modifies this
      ensures state == if newState.Some? then newState else old(state)
      ensures newState.Some? ==> IsLoaded()
      ensures errorMessage == old(errorMessage) && hintMessage == old(hintMessage)
      ensures target == ExportTargetFor(cloudMode, cloudOptions, stateFile, pr)
      ensures message == ExportMessage(target)
    {
      if newState.Some? {
        Update(newState.value);
      }
      target := ExportTargetFor(cloudMode, cloudOptions, stateFile, pr);
      message := ExportMessage(target);
    }
  }
}
