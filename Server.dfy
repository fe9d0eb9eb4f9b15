/**
 * The synchronous request front (`server.py`): the validation of a job
 * request (the output prefix normalised, the segment length bounded), the
 * bucket read off the normalised prefix, the argument vector handed to
 * `cli_run.py` and the mapping of the run's outcome to an HTTP response.
 * The environment's `VL_OUTPUT_BUCKET`, the CLI's path, the presigned URL
 * and the subprocess outcome are parameters.
 */
module Server {
  import opened Wrappers
  import opened Text
  import opened S3Uri
  import opened Argv

  const DefaultHlsSegment := 6
  const MinHlsSegment := 2
  const MaxHlsSegment := 30
  const EmptyPrefixMessage := "s3_output_prefix cannot be empty"
  const NoBucketMessage := "s3_output_prefix must name a bucket"

  /**
   * `_normalize_prefix` as written: strip whitespace, refuse the empty
   * string, drop trailing '/' from an `s3://` value, and place any other
   * value under the default output bucket.
   */
  function NormalizePrefixAsWritten(value: string, outputBucket: string): (r: Result<string, string>)
    ensures r.Err? <==> Strip(value) == ""
    ensures StartsWith(Strip(value), "s3://") ==> r == Ok(RStrip(Strip(value), '/'))
    ensures r.Ok? && !StartsWith(Strip(value), "s3://") ==> r.value == Location(outputBucket, LStrip(Strip(value), '/'))
  {
    var normalized := Strip(value);
    if normalized == "" then Err(EmptyPrefixMessage)
    else if StartsWith(normalized, "s3://") then Ok(RStrip(normalized, '/'))
    else Ok("s3://" + outputBucket + "/" + LStrip(normalized, '/'))
  }

  /**
   * `_normalize_prefix` as evidently intended: as written, except that an
   * `s3://` value must still name a bucket once its trailing '/' are gone.
   */
  function NormalizePrefix(value: string, outputBucket: string): (r: Result<string, string>)
    ensures Strip(value) == "" ==> r == Err(EmptyPrefixMessage)
    ensures r.Ok? ==> r == NormalizePrefixAsWritten(value, outputBucket)
    ensures r.Err? && Strip(value) != "" ==>
      NormalizePrefixAsWritten(value, outputBucket).Ok? && SplitS3Prefix(NormalizePrefixAsWritten(value, outputBucket).value).None?
  {
    var normalized := Strip(value);
    if normalized == "" then Err(EmptyPrefixMessage)
    else if StartsWith(normalized, "s3://") then
      var p := RStrip(normalized, '/');
      if SplitS3Prefix(p).None? then Err(NoBucketMessage) else Ok(p)
    else Ok("s3://" + outputBucket + "/" + LStrip(normalized, '/'))
  }

  /** The `output_bucket` property: the third '/'-separated piece; `None` where the source raises `IndexError`. */
  function OutputBucket(prefix: string): (r: Option<string>)
    ensures r.Some? ==> '/' !in r.value
  {
    var parts := Split(prefix, '/');
    if |parts| >= 3 then Some(parts[2]) else None
  }

  /** "s3://" is accepted as written, and becomes "s3:": no bucket for `cli_run.py`, none for `output_bucket`. */
  lemma BarePrefixAcceptedAsWritten(outputBucket: string)
    ensures NormalizePrefixAsWritten("s3://", outputBucket) == Ok("s3:")
    ensures SplitS3Prefix("s3:").None?
    ensures OutputBucket("s3:").None?
  {
    BareStripped();
    assert StartsWith("s3://", "s3://");
    SchemeOfS3("");
    assert "s3:" + "" == "s3:";
    SplitOne("s3:", '/');
  }

  /** Stripping "s3://" of blanks leaves it, and dropping its trailing '/' leaves "s3:". */
  lemma BareStripped()
    ensures Strip("s3://") == "s3://"
    ensures RStrip("s3://", '/') == "s3:"
  {
    var bare := "s3://";
    assert !IsSpace(bare[|bare| - 1]) && !IsSpace(bare[0]);
    assert RStripSpace(bare) == bare;
    assert LStripSpace(bare) == bare;
    assert bare[..|bare| - 1] == "s3:/";
    assert "s3:/"[..3] == "s3:";
    assert RStrip("s3:/", '/') == RStrip("s3:", '/');
    assert RStrip("s3:", '/') == "s3:";
  }

  /** A '/'-free string is one piece. */
  lemma SplitOne(s: string, sep: char)
    requires sep !in s
    ensures Split(s, sep) == [s]
  {
    SplitJoin([s], sep);
  }

  /** The first piece of a string that does not start with the separator is not empty. */
  lemma SplitHeadNonEmpty(s: string, sep: char)
    requires s != [] && s[0] != sep
    ensures Split(s, sep)[0] != []
  {
    assert IndexWhere(s, {sep}) > 0;
  }

  /** Behind "s3://", the third piece is the text up to the next '/'. */
  lemma SplitAfterScheme(rest: string)
    ensures Split("s3://" + rest, '/') == ["s3:", ""] + Split(rest, '/')
  {
    assert "s3://" + rest == "s3:" + ['/'] + ("/" + rest);
    SplitCons("s3:", "/" + rest, '/');
    assert "/" + rest == "" + ['/'] + rest;
    SplitCons("", rest, '/');
  }

  /** The bucket of `s3://<bucket>` or `s3://<bucket>/...` is `<bucket>`. */
  lemma OutputBucketOf(bucket: string, rest: string)
    requires '/' !in bucket
    requires rest == [] || rest[0] == '/'
    ensures OutputBucket("s3://" + bucket + rest) == Some(bucket)
  {
    var tail := bucket + rest;
    assert "s3://" + bucket + rest == "s3://" + tail;
    if rest == [] {
      assert tail == bucket;
      SplitOne(bucket, '/');
    } else {
      assert rest == ['/'] + rest[1..];
      assert tail == bucket + ['/'] + rest[1..];
      SplitCons(bucket, rest[1..], '/');
    }
    assert Split(tail, '/')[0] == bucket;
    SplitAfterScheme(tail);
  }

  /** A prefix `cli_run.py` can parse has a non-empty first character after "s3://" that is not '/'. */
  lemma ParsedHasBucketChar(p: string)
    requires StartsWith(p, "s3://") && SplitS3Prefix(p).Some?
    ensures |p| > 5 && p[5] != '/'
  {
    var rest := p[3..];
    assert p == "s3:" + rest;
    NetlocAfterScheme(rest);
  }

  /**
   * Every prefix the corrected validator accepts is an `s3://` prefix that
   * `cli_run.py` parses, and its `output_bucket` exists and is not empty; a
   * relative value lands in the default bucket.
   */
  lemma NormalizedPrefixIsUsable(value: string, outputBucket: string)
    requires outputBucket != ""
    requires forall ch :: ch in NetlocEnd ==> ch !in outputBucket
    ensures NormalizePrefix(value, outputBucket).Ok? ==>
      var p := NormalizePrefix(value, outputBucket).value;
      && StartsWith(p, "s3://")
      && SplitS3Prefix(p).Some?
      && OutputBucket(p).Some? && OutputBucket(p).value != ""
    ensures NormalizePrefix(value, outputBucket).Ok? && !StartsWith(Strip(value), "s3://") ==>
      SplitS3Prefix(NormalizePrefix(value, outputBucket).value).value.0 == outputBucket
      && OutputBucket(NormalizePrefix(value, outputBucket).value) == Some(outputBucket)
  {
    var n := Strip(value);
    if n != "" {
      if StartsWith(n, "s3://") {
        NormalizedS3Usable(value, outputBucket);
      } else {
        NormalizedRelativeUsable(value, outputBucket);
      }
    }
  }

  lemma NormalizedS3Usable(value: string, outputBucket: string)
    requires StartsWith(Strip(value), "s3://")
    ensures NormalizePrefix(value, outputBucket).Ok? ==>
      var p := NormalizePrefix(value, outputBucket).value;
      && StartsWith(p, "s3://")
      && SplitS3Prefix(p).Some?
      && OutputBucket(p).Some? && OutputBucket(p).value != ""
  {
    var p := RStrip(Strip(value), '/');
    assert NormalizePrefix(value, outputBucket) == if SplitS3Prefix(p).None? then Err(NoBucketMessage) else Ok(p);
    StrippedS3Usable(Strip(value));
  }

  /** An `s3://` value with its trailing '/' dropped that still parses keeps its scheme and has a bucket. */
  lemma StrippedS3Usable(n: string)
    requires StartsWith(n, "s3://")
    ensures var p := RStrip(n, '/');
      SplitS3Prefix(p).Some? ==> StartsWith(p, "s3://") && OutputBucket(p).Some? && OutputBucket(p).value != ""
  {
    var p := RStrip(n, '/');
    if SplitS3Prefix(p).Some? {
      SplitS3PrefixLength(p);
      assert p[..5] == n[..5];
      S3PrefixUsable(p);
    }
  }

  lemma NormalizedRelativeUsable(value: string, outputBucket: string)
    requires Strip(value) != "" && !StartsWith(Strip(value), "s3://")
    requires outputBucket != ""
    requires forall ch :: ch in NetlocEnd ==> ch !in outputBucket
    ensures var p := NormalizePrefix(value, outputBucket).value;
      && NormalizePrefix(value, outputBucket).Ok?
      && StartsWith(p, "s3://")
      && SplitS3Prefix(p).Some? && SplitS3Prefix(p).value.0 == outputBucket
      && OutputBucket(p) == Some(outputBucket)
  {
    var key := LStrip(Strip(value), '/');
    assert NormalizePrefix(value, outputBucket) == Ok(Location(outputBucket, key));
    RelativePrefixUsable(key, outputBucket);
  }

  lemma S3PrefixUsable(p: string)
    requires StartsWith(p, "s3://") && SplitS3Prefix(p).Some?
    ensures OutputBucket(p).Some? && OutputBucket(p).value != ""
  {
    ParsedHasBucketChar(p);
    BucketAfterScheme(p);
  }

  /** An `s3://` text whose next character is not '/' has a non-empty `output_bucket`. */
  lemma BucketAfterScheme(p: string)
    requires StartsWith(p, "s3://") && |p| > 5 && p[5] != '/'
    ensures OutputBucket(p).Some? && OutputBucket(p).value != ""
  {
    var x := p[5..];
    assert p == "s3://" + x;
    SplitAfterScheme(x);
    SplitHeadNonEmpty(x, '/');
  }

  lemma RelativePrefixUsable(key: string, outputBucket: string)
    requires outputBucket != ""
    requires forall ch :: ch in NetlocEnd ==> ch !in outputBucket
    ensures var p := Location(outputBucket, key);
      && StartsWith(p, "s3://")
      && SplitS3Prefix(p).Some? && SplitS3Prefix(p).value.0 == outputBucket
      && OutputBucket(p) == Some(outputBucket)
  {
    ParseLocationSome(outputBucket, key);
    assert '/' in NetlocEnd;
    LocationBucket(outputBucket, key);
  }

  /** A location starts with "s3://" and its `output_bucket` is its bucket. */
  lemma LocationBucket(bucket: string, key: string)
    requires '/' !in bucket
    ensures StartsWith(Location(bucket, key), "s3://")
    ensures OutputBucket(Location(bucket, key)) == Some(bucket)
  {
    assert Location(bucket, key) == "s3://" + bucket + ("/" + key);
    OutputBucketOf(bucket, "/" + key);
  }

  /** A job request's fields as they arrive, before validation; a missing `hls_segment` is `None`. */
  datatype RawRequest = RawRequest(jobId: string, s3InputKey: string, s3OutputPrefix: string,
                                   sourceLang: Option<string>, targetLang: Option<string>,
                                   hlsSegment: Option<int>, dubbing: bool)

  /** A validated `JobRequest`. */
  datatype JobRequest = JobRequest(jobId: string, s3InputKey: string, s3OutputPrefix: string,
                                   sourceLang: Option<string>, targetLang: Option<string>,
                                   hlsSegment: int, dubbing: bool)

  /** The segment length after defaulting. */
  function SegmentOf(raw: RawRequest): (r: int)
    ensures raw.hlsSegment.None? ==> r == DefaultHlsSegment
    ensures raw.hlsSegment.Some? ==> r == raw.hlsSegment.value
  {
    if raw.hlsSegment.Some? then raw.hlsSegment.value else DefaultHlsSegment
  }

  /** The request fields that carry a validation rule. */
  datatype Field = S3OutputPrefix | HlsSegment

  /**
   * Field validation of `JobRequest`: the prefix is normalised and the
   * segment length must lie in [2, 30]; every failing field is reported, in
   * declaration order.
   */
  function ValidateRequest(raw: RawRequest, outputBucket: string): (r: Result<JobRequest, seq<Field>>)
    ensures r.Ok? <==> (NormalizePrefixAsWritten(raw.s3OutputPrefix, outputBucket).Ok?
                        && MinHlsSegment <= SegmentOf(raw) <= MaxHlsSegment)
    ensures r.Ok? ==> (&& MinHlsSegment <= r.value.hlsSegment <= MaxHlsSegment
                       && (raw.hlsSegment.None? ==> r.value.hlsSegment == DefaultHlsSegment)
                       && r.value.s3OutputPrefix == NormalizePrefixAsWritten(raw.s3OutputPrefix, outputBucket).value
                       && r.value.jobId == raw.jobId && r.value.s3InputKey == raw.s3InputKey
                       && r.value.sourceLang == raw.sourceLang && r.value.targetLang == raw.targetLang
                       && r.value.dubbing == raw.dubbing)
    ensures r.Err? ==> (&& (S3OutputPrefix in r.error <==> NormalizePrefixAsWritten(raw.s3OutputPrefix, outputBucket).Err?)
                        && (HlsSegment in r.error <==> !(MinHlsSegment <= SegmentOf(raw) <= MaxHlsSegment)))
  {
    var prefix := NormalizePrefixAsWritten(raw.s3OutputPrefix, outputBucket);
    var segment := SegmentOf(raw);
    var prefixErrors := if prefix.Err? then [S3OutputPrefix] else [];
    var segmentErrors := if MinHlsSegment <= segment <= MaxHlsSegment then [] else [HlsSegment];
    if prefix.Ok? && MinHlsSegment <= segment <= MaxHlsSegment then
      Ok(JobRequest(raw.jobId, raw.s3InputKey, prefix.value, raw.sourceLang, raw.targetLang, segment, raw.dubbing))
    else Err(prefixErrors + segmentErrors)
  }

  /**
   * A validated prefix is one the corrected normaliser also accepts exactly
   * when `cli_run.py` can parse it, and then it has a non-empty bucket.
   */
  lemma ValidatedPrefixUsable(raw: RawRequest, outputBucket: string)
    requires outputBucket != ""
    requires forall ch :: ch in NetlocEnd ==> ch !in outputBucket
    requires ValidateRequest(raw, outputBucket).Ok?
    ensures var p := ValidateRequest(raw, outputBucket).value.s3OutputPrefix;
      NormalizePrefix(raw.s3OutputPrefix, outputBucket).Ok? <==> SplitS3Prefix(p).Some?
    ensures var p := ValidateRequest(raw, outputBucket).value.s3OutputPrefix;
      SplitS3Prefix(p).Some? ==> OutputBucket(p).Some? && OutputBucket(p).value != ""
  {
    var v := raw.s3OutputPrefix;
    var p := ValidateRequest(raw, outputBucket).value.s3OutputPrefix;
    assert p == NormalizePrefixAsWritten(v, outputBucket).value;
    NormalizedPrefixIsUsable(v, outputBucket);
    if StartsWith(Strip(v), "s3://") {
      StrippedS3Usable(Strip(v));
    } else {
      NormalizedRelativeUsable(v, outputBucket);
    }
  }

  /** The argument vector `_build_cli_command` hands to `cli_run.py`. */
  function CliCommand(job: JobRequest, cliPath: string, videoPath: string): (cmd: seq<string>)
    ensures |cmd| == 11 + (if Truthy(job.sourceLang) then 2 else 0) + (if Truthy(job.targetLang) then 2 else 0)
                        + (if job.dubbing then 1 else 0)
    ensures cmd[..4] == ["python", cliPath, "--video_path", videoPath]
    ensures cmd[4] == "--job_id" && cmd[5] == job.jobId && cmd[6] == "--hls_output"
    ensures cmd[7] == "--hls_segment" && cmd[8] == IntToString(job.hlsSegment)
    ensures cmd[9] == "--output_s3_prefix" && cmd[10] == job.s3OutputPrefix
  {
    var fixed := ["python", cliPath, "--video_path", videoPath, "--job_id", job.jobId, "--hls_output",
                  "--hls_segment", IntToString(job.hlsSegment), "--output_s3_prefix", job.s3OutputPrefix];
    var cmd := fixed
      + (if Truthy(job.sourceLang) then ["--source_lang", job.sourceLang.value] else [])
      + (if Truthy(job.targetLang) then ["--target_lang", job.targetLang.value] else [])
      + (if job.dubbing then ["--dubbing"] else []);
    assert cmd[..11] == fixed;
    cmd
  }

  /** `_build_cli_command`, extending the list as the source does. */
  method BuildCliCommand(job: JobRequest, cliPath: string, videoPath: string) returns (cmd: seq<string>)
    ensures cmd == CliCommand(job, cliPath, videoPath)
  {
    cmd := ["python", cliPath, "--video_path", videoPath, "--job_id", job.jobId, "--hls_output",
            "--hls_segment", IntToString(job.hlsSegment), "--output_s3_prefix", job.s3OutputPrefix];
    if Truthy(job.sourceLang) {
      cmd := cmd + ["--source_lang", job.sourceLang.value];
    }
    if Truthy(job.targetLang) {
      cmd := cmd + ["--target_lang", job.targetLang.value];
    }
    if job.dubbing {
      cmd := cmd + ["--dubbing"];
    }
  }

  /** The words of a request that end up as values in the argument vector. */
  predicate PlainRequest(job: JobRequest, cliPath: string, videoPath: string) {
    && Plain(cliPath) && Plain(videoPath) && Plain(job.jobId) && Plain(job.s3OutputPrefix)
    && (Truthy(job.sourceLang) ==> Plain(job.sourceLang.value))
    && (Truthy(job.targetLang) ==> Plain(job.targetLang.value))
  }

  /** The fixed words, whatever their values, are read back by flag, whatever follows them. */
  lemma WordsReadBack(cliPath: string, videoPath: string, id: string, segment: string, prefix: string,
                      opts: seq<string>)
    requires cliPath !in Flags && videoPath !in Flags && id !in Flags && segment !in Flags
    ensures var cmd := ["python", cliPath, "--video_path", videoPath, "--job_id", id, "--hls_output",
                        "--hls_segment", segment, "--output_s3_prefix", prefix] + opts;
      && ArgValue(cmd, "--video_path") == Some(videoPath)
      && ArgValue(cmd, "--job_id") == Some(id)
      && ArgValue(cmd, "--hls_segment") == Some(segment)
      && ArgValue(cmd, "--output_s3_prefix") == Some(prefix)
      && HasFlag(cmd, "--hls_output")
  {
    var fixed := ["python", cliPath, "--video_path", videoPath, "--job_id", id, "--hls_output",
                  "--hls_segment", segment, "--output_s3_prefix", prefix];
    assert "--video_path" in Flags && "--job_id" in Flags && "--hls_segment" in Flags && "--output_s3_prefix" in Flags;
    assert fixed[..2] == ["python", cliPath];
    ArgValueInFixed(fixed, opts, 2);
    assert fixed[..4] == fixed[..2] + ["--video_path", videoPath];
    ArgValueInFixed(fixed, opts, 4);
    assert fixed[..7] == fixed[..4] + ["--job_id", id, "--hls_output"];
    ArgValueInFixed(fixed, opts, 7);
    assert fixed[..9] == fixed[..7] + ["--hls_segment", segment];
    ArgValueInFixed(fixed, opts, 9);
    assert (fixed + opts)[6] == "--hls_output";
  }

  /** `cli_run.py` reads back the input, the job id, the segment length and the prefix, and sees `--hls_output`. */
  lemma CliCommandFixedReadBack(job: JobRequest, cliPath: string, videoPath: string)
    requires PlainRequest(job, cliPath, videoPath)
    ensures var cmd := CliCommand(job, cliPath, videoPath);
      && ArgValue(cmd, "--video_path") == Some(videoPath)
      && ArgValue(cmd, "--job_id") == Some(job.jobId)
      && ArgValue(cmd, "--hls_segment") == Some(IntToString(job.hlsSegment))
      && ArgValue(cmd, "--output_s3_prefix") == Some(job.s3OutputPrefix)
      && HasFlag(cmd, "--hls_output")
  {
    var cmd := CliCommand(job, cliPath, videoPath);
    var seg := IntToString(job.hlsSegment);
    DecimalIsPlain(seg);
    var opts := cmd[11..];
    assert cmd == ["python", cliPath, "--video_path", videoPath, "--job_id", job.jobId, "--hls_output",
                   "--hls_segment", seg, "--output_s3_prefix", job.s3OutputPrefix] + opts;
    WordsReadBack(cliPath, videoPath, job.jobId, seg, job.s3OutputPrefix, opts);
  }

  /** The fixed words carry none of the optional flags. */
  lemma WordsHaveNoOption(cliPath: string, videoPath: string, id: string, segment: string, prefix: string)
    requires Plain(cliPath) && Plain(videoPath) && Plain(id) && Plain(segment) && Plain(prefix)
    ensures var fixed := ["python", cliPath, "--video_path", videoPath, "--job_id", id, "--hls_output",
                          "--hls_segment", segment, "--output_s3_prefix", prefix];
      "--source_lang" !in fixed && "--target_lang" !in fixed && "--dubbing" !in fixed
  {
    assert "--source_lang" in Flags && "--target_lang" in Flags && "--dubbing" in Flags;
  }

  /** Each language is read back exactly when it is set, and `--dubbing` is passed exactly when requested. */
  lemma CliCommandOptionsReadBack(job: JobRequest, cliPath: string, videoPath: string)
    requires PlainRequest(job, cliPath, videoPath)
    ensures var cmd := CliCommand(job, cliPath, videoPath);
      && (ArgValue(cmd, "--source_lang") == if Truthy(job.sourceLang) then job.sourceLang else None)
      && (ArgValue(cmd, "--target_lang") == if Truthy(job.targetLang) then job.targetLang else None)
      && (HasFlag(cmd, "--dubbing") <==> job.dubbing)
  {
    var seg := IntToString(job.hlsSegment);
    DecimalIsPlain(seg);
    WordsHaveNoOption(cliPath, videoPath, job.jobId, seg, job.s3OutputPrefix);
    var source := if Truthy(job.sourceLang) then job.sourceLang.value else "";
    var target := if Truthy(job.targetLang) then job.targetLang.value else "";
    assert Plain("");
    OptionsReadBack(["python", cliPath, "--video_path", videoPath, "--job_id", job.jobId, "--hls_output",
                     "--hls_segment", seg, "--output_s3_prefix", job.s3OutputPrefix],
                    Truthy(job.sourceLang), source, Truthy(job.targetLang), target, job.dubbing);
  }

  /**
   * How the CLI subprocess ended: an exit code with `str(exc)` for a failure,
   * the timeout, or an exception `subprocess.run` raises before the process
   * runs (an `OSError` such as a missing interpreter or working directory),
   * with its `str()`.
   */
  datatype Subprocess = Exited(returnCode: int, description: string) | TimedOut | StartFailed(description: string)

  /**
   * The HTTP answer of `/run`. `Unhandled` is an exception none of the
   * `except` clauses catches; the web framework answers it with a 500.
   */
  datatype Response =
    | Success(status: string, jobId: string, outputS3Prefix: string)
    | HttpError(code: int, detail: string)
    | Unhandled(description: string)

  /**
   * `run_videolingo_job`: a missing input key is a 400 and nothing runs;
   * otherwise the command runs, and a timeout is a 504, a non-zero exit a
   * 500, an exception raised while starting the process escapes, and a
   * clean exit echoes the job id and the prefix. The second component is
   * the command run, if any.
   */
  function RunVideolingoJob(job: JobRequest, cliPath: string, presignedUrl: string, run: Subprocess)
    : (r: (Response, Option<seq<string>>))
    ensures r.1.None? <==> job.s3InputKey == ""
    ensures r.1.Some? ==> r.1.value == CliCommand(job, cliPath, presignedUrl)
    ensures r.0.Success? ==> r.0 == Success("success", job.jobId, job.s3OutputPrefix)
    ensures r.0.Unhandled? <==> r.1.Some? && run.StartFailed?
    ensures r.0.Unhandled? ==> r.0.description == run.description
  {
    if job.s3InputKey == "" then (HttpError(400, "s3_input_key is required"), None)
    else
      var cmd := CliCommand(job, cliPath, presignedUrl);
      match run
      case TimedOut => (HttpError(504, "VideoLingo job timed out"), Some(cmd))
      case StartFailed(description) => (Unhandled(description), Some(cmd))
      case Exited(code, description) =>
        if code != 0 then (HttpError(500, "VideoLingo CLI failed: " + description), Some(cmd))
        else (Success("success", job.jobId, job.s3OutputPrefix), Some(cmd))
  }

  /** The status code a response carries; success is 200. */
  function StatusCode(r: Response): int {
    match r
    case Success(_, _, _) => 200
    case HttpError(code, _) => code
    case Unhandled(_) => 500
  }

  /** Each way a request can end has its own status code, and the code tells which way it ended. */
  lemma OutcomesHaveDistinctCodes(job: JobRequest, cliPath: string, presignedUrl: string, run: Subprocess)
    ensures var code := StatusCode(RunVideolingoJob(job, cliPath, presignedUrl, run).0);
      && (code == 400 <==> job.s3InputKey == "")
      && (code == 504 <==> job.s3InputKey != "" && run.TimedOut?)
      && (code == 500 <==> job.s3InputKey != "" && (run.StartFailed? || (run.Exited? && run.returnCode != 0)))
      && (code == 200 <==> job.s3InputKey != "" && run.Exited? && run.returnCode == 0)
    ensures var response := RunVideolingoJob(job, cliPath, presignedUrl, run).0;
      response.HttpError? && response.code == 500 <==> job.s3InputKey != "" && run.Exited? && run.returnCode != 0
  {
  }
}
