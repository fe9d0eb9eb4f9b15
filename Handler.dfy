/**
 * The serverless handler (`handler.py`): required fields are checked, the
 * job id, languages and segment length are defaulted from the payload and
 * then from the environment, the argument vector for `cli_run.py` is built,
 * and the result of the run is shaped into the reply with its output cut
 * to the last 4000 characters. The payload is a map of JSON scalars; the
 * environment, the uuid and the CLI's outcome are parameters.
 */
module Handler {
  import opened Wrappers
  import opened Text
  import opened PyValue
  import opened Argv

  type Payload = map<string, Value>

  /** The most output characters a reply carries. */
  const OutputCap := 4000
  const MissingFieldsMessage := "hls_url and output_s3_prefix are required"
  const FailedMessage := "VideoLingo failed"

  /** `payload.get(key)`. */
  function Get(payload: Payload, key: string): Value {
    if key in payload then payload[key] else Null
  }

  /** Python's `a or b`. */
  function Or(a: Value, b: Value): (r: Value)
    ensures IsTruthy(a) ==> r == a
    ensures !IsTruthy(a) ==> r == b
  {
    if IsTruthy(a) then a else b
  }

  /** `os.getenv(name, default)`: the variable as a string, else the default. */
  function EnvDefault(env: map<string, string>, name: string, default: Value): (r: Value)
    ensures name in env ==> r == Str(env[name])
    ensures name !in env ==> r == default
  {
    if name in env then Str(env[name]) else default
  }

  /** The job id: the payload's when truthy, else "job-" and the first 8 hex digits of the uuid. */
  function JobIdOf(payload: Payload, uuidHex: string): (r: Value)
    requires |uuidHex| == 32
    ensures IsTruthy(r)
    ensures IsTruthy(Get(payload, "job_id")) ==> r == Get(payload, "job_id")
    ensures !IsTruthy(Get(payload, "job_id")) ==> r.Str? && StartsWith(r.s, "job-") && |r.s| == 12
    ensures !IsTruthy(Get(payload, "job_id")) ==> r == Str("job-" + uuidHex[..8])
  {
    Or(Get(payload, "job_id"), Str("job-" + uuidHex[..8]))
  }

  /** A language: the payload's when truthy, else the environment's default, else `None`. */
  function Language(payload: Payload, key: string, env: map<string, string>, envName: string): (r: Value)
    ensures IsTruthy(Get(payload, key)) ==> r == Get(payload, key)
    ensures !IsTruthy(Get(payload, key)) && envName in env ==> r == Str(env[envName])
    ensures !IsTruthy(Get(payload, key)) && envName !in env ==> r == Null
  {
    Or(Get(payload, key), EnvDefault(env, envName, Null))
  }

  /** `payload.get("source_lang") or _env_default("VL_DEFAULT_SOURCE_LANG")`. */
  function SourceLang(payload: Payload, env: map<string, string>): (r: Value)
    ensures IsTruthy(Get(payload, "source_lang")) ==> r == Get(payload, "source_lang")
    ensures !IsTruthy(Get(payload, "source_lang")) && "VL_DEFAULT_SOURCE_LANG" in env ==> r == Str(env["VL_DEFAULT_SOURCE_LANG"])
    ensures !IsTruthy(Get(payload, "source_lang")) && "VL_DEFAULT_SOURCE_LANG" !in env ==> r == Null
  {
    Language(payload, "source_lang", env, "VL_DEFAULT_SOURCE_LANG")
  }

  /** `payload.get("target_lang") or _env_default("VL_DEFAULT_TARGET_LANG")`. */
  function TargetLang(payload: Payload, env: map<string, string>): (r: Value)
    ensures IsTruthy(Get(payload, "target_lang")) ==> r == Get(payload, "target_lang")
    ensures !IsTruthy(Get(payload, "target_lang")) && "VL_DEFAULT_TARGET_LANG" in env ==> r == Str(env["VL_DEFAULT_TARGET_LANG"])
    ensures !IsTruthy(Get(payload, "target_lang")) && "VL_DEFAULT_TARGET_LANG" !in env ==> r == Null
  {
    Language(payload, "target_lang", env, "VL_DEFAULT_TARGET_LANG")
  }

  /** The segment length: the payload's when truthy, else `VL_HLS_SEGMENT`, else "6". */
  function Segment(payload: Payload, env: map<string, string>): (r: Value)
    ensures IsTruthy(Get(payload, "hls_segment")) ==> r == Get(payload, "hls_segment")
    ensures !IsTruthy(Get(payload, "hls_segment")) && "VL_HLS_SEGMENT" in env ==> r == Str(env["VL_HLS_SEGMENT"])
    ensures !IsTruthy(Get(payload, "hls_segment")) && "VL_HLS_SEGMENT" !in env ==> r == Str("6")
  {
    Or(Get(payload, "hls_segment"), EnvDefault(env, "VL_HLS_SEGMENT", Str("6")))
  }

  /** `payload.get("dubbing", False)`. */
  function Dubbing(payload: Payload): (r: Value)
    ensures "dubbing" in payload ==> r == payload["dubbing"]
    ensures "dubbing" !in payload ==> r == Bool(false) && !IsTruthy(r)
  {
    if "dubbing" in payload then payload["dubbing"] else Bool(false)
  }

  /** The argument vector `_build_cli_cmd` builds for a job id. */
  function CliCmd(payload: Payload, env: map<string, string>, jobId: Value): (cmd: seq<string>)
    ensures |cmd| == 11 + (if IsTruthy(SourceLang(payload, env)) then 2 else 0)
                        + (if IsTruthy(TargetLang(payload, env)) then 2 else 0)
                        + (if IsTruthy(Dubbing(payload)) then 1 else 0)
    ensures cmd[..11] == FixedWords(payload, env, jobId)
  {
    FixedWords(payload, env, jobId)
    + (if IsTruthy(SourceLang(payload, env)) then ["--source_lang", ToStr(SourceLang(payload, env))] else [])
    + (if IsTruthy(TargetLang(payload, env)) then ["--target_lang", ToStr(TargetLang(payload, env))] else [])
    + (if IsTruthy(Dubbing(payload)) then ["--dubbing"] else [])
  }

  /** The words every command starts with. */
  function FixedWords(payload: Payload, env: map<string, string>, jobId: Value): (w: seq<string>)
    ensures |w| == 11 && w[..2] == ["python", "cli_run.py"]
    ensures w[2..4] == ["--video_path", ToStr(Get(payload, "hls_url"))] && w[4] == "--hls_output"
    ensures w[5..7] == ["--job_id", ToStr(jobId)]
    ensures w[7..9] == ["--output_s3_prefix", ToStr(Get(payload, "output_s3_prefix"))]
    ensures w[9..11] == ["--hls_segment", ToStr(Segment(payload, env))]
  {
    ["python", "cli_run.py", "--video_path", ToStr(Get(payload, "hls_url")), "--hls_output",
     "--job_id", ToStr(jobId), "--output_s3_prefix", ToStr(Get(payload, "output_s3_prefix")),
     "--hls_segment", ToStr(Segment(payload, env))]
  }

  /** `_build_cli_cmd`: the command, extended as the source does, and the job id it chose. */
  method BuildCliCmd(payload: Payload, env: map<string, string>, uuidHex: string) returns (cmd: seq<string>, jobId: Value)
    requires |uuidHex| == 32
    ensures jobId == JobIdOf(payload, uuidHex)
    ensures cmd == CliCmd(payload, env, jobId)
  {
    jobId := Get(payload, "job_id");
    if !IsTruthy(jobId) {
      jobId := Str("job-" + uuidHex[..8]);
    }
    assert jobId == JobIdOf(payload, uuidHex);
    var sourceLang := SourceLang(payload, env);
    var targetLang := TargetLang(payload, env);
    var dubbing := Dubbing(payload);
    var hlsSegment := Segment(payload, env);
    cmd := ["python", "cli_run.py", "--video_path", ToStr(Get(payload, "hls_url")), "--hls_output",
            "--job_id", ToStr(jobId), "--output_s3_prefix", ToStr(Get(payload, "output_s3_prefix")),
            "--hls_segment", ToStr(hlsSegment)];
    assert cmd == FixedWords(payload, env, jobId);
    if IsTruthy(sourceLang) {
      cmd := cmd + ["--source_lang", ToStr(sourceLang)];
    }
    if IsTruthy(targetLang) {
      cmd := cmd + ["--target_lang", ToStr(targetLang)];
    }
    if IsTruthy(dubbing) {
      cmd := cmd + ["--dubbing"];
    }
  }

  /** Every word the payload and the environment put into the command is a plain value. */
  predicate PlainWords(payload: Payload, env: map<string, string>, jobId: Value) {
    && Plain(ToStr(Get(payload, "hls_url"))) && Plain(ToStr(jobId))
    && Plain(ToStr(Get(payload, "output_s3_prefix"))) && Plain(ToStr(Segment(payload, env)))
    && Plain(ToStr(SourceLang(payload, env))) && Plain(ToStr(TargetLang(payload, env)))
  }

  /** The fixed words, whatever their values, are read back by flag, whatever follows them. */
  lemma WordsReadBack(url: string, id: string, prefix: string, segment: string, opts: seq<string>)
    requires url !in Flags && id !in Flags && prefix !in Flags
    ensures var cmd := ["python", "cli_run.py", "--video_path", url, "--hls_output", "--job_id", id,
                        "--output_s3_prefix", prefix, "--hls_segment", segment] + opts;
      && ArgValue(cmd, "--video_path") == Some(url)
      && ArgValue(cmd, "--job_id") == Some(id)
      && ArgValue(cmd, "--output_s3_prefix") == Some(prefix)
      && ArgValue(cmd, "--hls_segment") == Some(segment)
      && HasFlag(cmd, "--hls_output")
  {
    var fixed := ["python", "cli_run.py", "--video_path", url, "--hls_output", "--job_id", id,
                  "--output_s3_prefix", prefix, "--hls_segment", segment];
    assert "--video_path" in Flags && "--job_id" in Flags && "--output_s3_prefix" in Flags && "--hls_segment" in Flags;
    assert fixed[..2] == ["python", "cli_run.py"];
    ArgValueInFixed(fixed, opts, 2);
    assert fixed[..5] == ["python", "cli_run.py", "--video_path", url, "--hls_output"];
    ArgValueInFixed(fixed, opts, 5);
    assert fixed[..7] == fixed[..5] + ["--job_id", id];
    ArgValueInFixed(fixed, opts, 7);
    assert fixed[..9] == fixed[..7] + ["--output_s3_prefix", prefix];
    ArgValueInFixed(fixed, opts, 9);
    assert (fixed + opts)[4] == "--hls_output";
  }

  /** `cli_run.py` reads back the URL, the job id, the prefix and the segment length, and sees `--hls_output`. */
  lemma CliCmdFixedReadBack(payload: Payload, env: map<string, string>, jobId: Value)
    requires PlainWords(payload, env, jobId)
    ensures var cmd := CliCmd(payload, env, jobId);
      && ArgValue(cmd, "--video_path") == Some(ToStr(Get(payload, "hls_url")))
      && ArgValue(cmd, "--job_id") == Some(ToStr(jobId))
      && ArgValue(cmd, "--output_s3_prefix") == Some(ToStr(Get(payload, "output_s3_prefix")))
      && ArgValue(cmd, "--hls_segment") == Some(ToStr(Segment(payload, env)))
      && HasFlag(cmd, "--hls_output")
  {
    var cmd := CliCmd(payload, env, jobId);
    var opts := cmd[11..];
    assert cmd == FixedWords(payload, env, jobId) + opts;
    WordsReadBack(ToStr(Get(payload, "hls_url")), ToStr(jobId), ToStr(Get(payload, "output_s3_prefix")),
                  ToStr(Segment(payload, env)), opts);
  }

  /** The words every command starts with carry none of the optional flags. */
  lemma WordsHaveNoOption(url: string, id: string, prefix: string, segment: string)
    requires Plain(url) && Plain(id) && Plain(prefix) && Plain(segment)
    ensures var fixed := ["python", "cli_run.py", "--video_path", url, "--hls_output", "--job_id", id,
                          "--output_s3_prefix", prefix, "--hls_segment", segment];
      "--source_lang" !in fixed && "--target_lang" !in fixed && "--dubbing" !in fixed
  {
    assert "--source_lang" in Flags && "--target_lang" in Flags && "--dubbing" in Flags;
  }

  /** Each language is passed exactly when its resolved value is truthy, and `--dubbing` exactly when dubbing is. */
  lemma CliCmdOptionsReadBack(payload: Payload, env: map<string, string>, jobId: Value)
    requires PlainWords(payload, env, jobId)
    ensures var cmd := CliCmd(payload, env, jobId);
      && (ArgValue(cmd, "--source_lang") ==
            if IsTruthy(SourceLang(payload, env)) then Some(ToStr(SourceLang(payload, env))) else None)
      && (ArgValue(cmd, "--target_lang") ==
            if IsTruthy(TargetLang(payload, env)) then Some(ToStr(TargetLang(payload, env))) else None)
      && (HasFlag(cmd, "--dubbing") <==> IsTruthy(Dubbing(payload)))
  {
    var source, target := SourceLang(payload, env), TargetLang(payload, env);
    WordsHaveNoOption(ToStr(Get(payload, "hls_url")), ToStr(jobId), ToStr(Get(payload, "output_s3_prefix")),
                      ToStr(Segment(payload, env)));
    OptionsReadBack(FixedWords(payload, env, jobId), IsTruthy(source), ToStr(source), IsTruthy(target), ToStr(target),
                    IsTruthy(Dubbing(payload)));
  }

  /** `s[-n:]` for a positive `n`: the last `n` characters, or all of `s` when it is shorter. */
  function LastChars(s: string, n: nat): (r: string)
    requires n > 0
    ensures |r| == if |s| <= n then |s| else n
    ensures EndsWith(s, r)
  {
    if |s| <= n then s else s[|s| - n..]
  }

  /** Output that fits is returned whole, and the cap never lengthens anything. */
  lemma LastCharsKeepsShortOutput(s: string, n: nat)
    requires n > 0
    ensures |s| <= n ==> LastChars(s, n) == s
    ensures |LastChars(s, n)| <= |s| && |LastChars(s, n)| <= n
    ensures LastChars(LastChars(s, n), n) == LastChars(s, n)
  {
    var r := LastChars(s, n);
    assert r == s[|s| - |r|..];
  }

  /**
   * What `subprocess.run` reported, or the `str()` of the exception it
   * raised before the process ran (an `OSError` such as a missing
   * interpreter or working directory).
   */
  datatype CliResult =
    | CliResult(returnCode: int, stdout: string, stderr: string)
    | StartFailed(description: string)

  /** The handler's reply. */
  datatype Reply =
    | ValidationError(error: string)
    | RunFailed(jobId: Value, error: string, stdout: string, stderr: string)
    | RunSucceeded(jobId: Value, outputS3Prefix: Value, stdout: string)
    | Raised(description: string)

  /** `job.get("input") or {}`. */
  function PayloadOf(input: Option<Payload>): (r: Payload)
    ensures input.Some? ==> r == input.value
    ensures input.None? ==> r == map[]
  {
    if input.Some? then input.value else map[]
  }

  /**
   * `handler`: a payload without `hls_url` or `output_s3_prefix` is refused
   * and nothing runs; otherwise the command runs, and the reply carries the
   * chosen job id, the error and both outputs on a non-zero exit, or the
   * prefix and the output on success, each output cut to its last 4000
   * characters; an exception raised while starting the process propagates
   * (`Raised`). The second component is the command run, if any.
   */
  function Handle(input: Option<Payload>, env: map<string, string>, uuidHex: string, run: CliResult)
    : (r: (Reply, Option<seq<string>>))
    requires |uuidHex| == 32
    ensures var payload := PayloadOf(input);
      && (r.1.None? <==> "hls_url" !in payload || "output_s3_prefix" !in payload)
      && (r.1.None? <==> r.0.ValidationError?)
      && (r.1.Some? ==> r.1.value == CliCmd(payload, env, JobIdOf(payload, uuidHex)))
      && (r.0.Raised? <==> r.1.Some? && run.StartFailed?)
      && (r.0.Raised? ==> r.0.description == run.description)
      && (r.0.RunFailed? <==> r.1.Some? && run.CliResult? && run.returnCode != 0)
      && (r.0.RunSucceeded? <==> r.1.Some? && run.CliResult? && run.returnCode == 0)
      && (r.0.RunFailed? || r.0.RunSucceeded? ==> r.0.jobId == JobIdOf(payload, uuidHex))
      && (r.0.RunSucceeded? ==> r.0.outputS3Prefix == payload["output_s3_prefix"])
      && (r.0.RunFailed? || r.0.RunSucceeded? ==> r.0.stdout == LastChars(run.stdout, OutputCap))
      && (r.0.RunFailed? ==> r.0.stderr == LastChars(run.stderr, OutputCap))
  {
    var payload := PayloadOf(input);
    if "hls_url" !in payload || "output_s3_prefix" !in payload then
      (ValidationError(MissingFieldsMessage), None)
    else
      var jobId := JobIdOf(payload, uuidHex);
      var cmd := CliCmd(payload, env, jobId);
      if run.StartFailed? then (Raised(run.description), Some(cmd))
      else if run.returnCode != 0 then
        (RunFailed(jobId, FailedMessage, LastChars(run.stdout, OutputCap), LastChars(run.stderr, OutputCap)), Some(cmd))
      else
        (RunSucceeded(jobId, payload["output_s3_prefix"], LastChars(run.stdout, OutputCap)), Some(cmd))
  }

  /** A payload that names its own job id gets that id back in every reply of a run that started. */
  lemma ReplyEchoesJobId(input: Option<Payload>, env: map<string, string>, uuidHex: string, run: CliResult)
    requires |uuidHex| == 32
    requires IsTruthy(Get(PayloadOf(input), "job_id"))
    ensures var reply := Handle(input, env, uuidHex, run).0;
      reply.RunFailed? || reply.RunSucceeded? ==> reply.jobId == PayloadOf(input)["job_id"]
  {
  }
}
