/**
 * The single-job runner of `cli_run.py`: the job id, the choice of local
 * input file, the language overrides saved and restored around processing,
 * the output directory lookup, HLS packaging with its master playlist, and
 * the upload of the outputs with the manifest that names them.
 *
 * `process_video`, `sanitize_filename`, ffmpeg and S3 are not part of this
 * model: `sanitize` is a function parameter, file existence is a set of
 * paths, and the uuid and directory mtimes are parameters.
 */
module CliRun {
  import opened Wrappers
  import opened Text
  import opened PyValue
  import opened S3Uri
  import opened PosixPath
  import opened Manifests

  const InputDir := "batch/input"
  const OutputHistoryDir := "batch/output"

  /** The stem `_make_job_id` starts from: the input path's stem, or "job" when it is empty. */
  function JobStem(videoPath: string): (r: string)
    ensures r != ""
    ensures Stem(videoPath) != "" ==> r == Stem(videoPath)
  {
    if Stem(videoPath) != "" then Stem(videoPath) else "job"
  }

  /**
   * `_make_job_id`: a truthy provided id, sanitised; otherwise the sanitised
   * stem, '-', and the first 8 hex digits of a fresh uuid.
   */
  function MakeJobId(videoPath: string, provided: Option<string>, sanitize: string -> string, uuidHex: string): (r: string)
    requires |uuidHex| == 32
    ensures Truthy(provided) ==> r == sanitize(provided.value)
    ensures !Truthy(provided) ==> StartsWith(r, sanitize(JobStem(videoPath)) + "-") && EndsWith(r, uuidHex[..8])
  {
    if Truthy(provided) then sanitize(provided.value)
    else sanitize(JobStem(videoPath)) + "-" + uuidHex[..8]
  }

  /** Generated ids of the same input differ whenever the uuids differ in their first 8 hex digits. */
  lemma GeneratedIdsDiffer(videoPath: string, sanitize: string -> string, hex1: string, hex2: string)
    requires |hex1| == 32 && |hex2| == 32 && hex1[..8] != hex2[..8]
    ensures MakeJobId(videoPath, None, sanitize, hex1) != MakeJobId(videoPath, None, sanitize, hex2)
  {
    var lead := sanitize(JobStem(videoPath)) + "-";
    var id1, id2 := MakeJobId(videoPath, None, sanitize, hex1), MakeJobId(videoPath, None, sanitize, hex2);
    assert id1 == lead + hex1[..8] && id2 == lead + hex2[..8];
    assert id1[|lead|..] == hex1[..8];
    assert id2[|lead|..] == hex2[..8];
  }

  /** The suffix of a local input's copy: ".mp4" for ".ts" and ".m3u8" inputs and for inputs with no suffix. */
  function DestSuffix(videoPath: string): (r: string)
    ensures var s := Lower(Suffix(videoPath));
      r == (if s == ".ts" || s == ".m3u8" || s == "" then ".mp4" else s)
    ensures |r| >= 2 && r[0] == '.' && '.' !in r[1..] && '/' !in r
  {
    var s := Lower(Suffix(videoPath));
    LowerKeepsSuffixShape(Suffix(videoPath));
    if s == ".ts" || s == ".m3u8" || s == "" then ".mp4" else s
  }

  /** Lower-casing keeps the shape of a suffix: a leading '.', one more character at least, no other '.' or '/'. */
  lemma LowerKeepsSuffixShape(s: string)
    requires s == [] || (|s| >= 2 && s[0] == '.' && '.' !in s[1..] && '/' !in s)
    ensures var r := Lower(s); r == [] || (|r| >= 2 && r[0] == '.' && '.' !in r[1..] && '/' !in r)
  {
    var r := Lower(s);
    assert forall i :: 0 <= i < |s| ==> (r[i] == '.' <==> s[i] == '.') && (r[i] == '/' <==> s[i] == '/');
    if r != [] {
      assert forall i :: 1 <= i < |s| ==> s[i] == s[1..][i - 1] && r[i] == r[1..][i - 1];
    }
  }

  /** How `_prepare_input` brings the input into `batch/input`. */
  datatype Conversion =
    | PassThrough   // an http input that is not a playlist is handed over as it is
    | RemuxPlaylist // ffmpeg copies the streams of a playlist, local or remote, into an mp4
    | TransmuxTs    // a local .ts file is remuxed with the ADTS-to-ASC filter
    | CopyFile      // any other local file is copied

  /** The result of `_prepare_input`: the argument for processing, the expected output directory and how it was made. */
  datatype Prepared = Prepared(inputArg: string, expectedDir: Option<string>, conversion: Conversion)

  /**
   * `_prepare_input`. An http input ending in ".m3u8" (any case) is remuxed
   * into `<job id>.mp4`; any other http input passes through. A local input
   * that does not exist is an error; otherwise it is copied, remuxed or
   * transmuxed to `<job id><suffix>`. `inputExists` says whether the local path
   * exists.
   */
  function PrepareInput(videoPath: string, jobId: string, inputExists: bool, sanitize: string -> string): (r: Result<Prepared, string>)
    ensures r.Err? <==> !StartsWith(videoPath, "http") && !inputExists
    ensures r.Ok? && r.value.conversion == PassThrough <==>
      StartsWith(videoPath, "http") && !EndsWith(Lower(videoPath), ".m3u8")
    ensures r.Ok? && r.value.conversion == PassThrough ==> r.value.inputArg == videoPath && r.value.expectedDir.None?
    ensures r.Ok? && r.value.conversion != PassThrough ==> r.value.expectedDir.Some?
    ensures r.Ok? && r.value.conversion == TransmuxTs ==> Lower(Suffix(videoPath)) == ".ts"
  {
    if StartsWith(videoPath, "http") then
      if EndsWith(Lower(videoPath), ".m3u8") then
        var dest := JoinPath(InputDir, jobId + ".mp4");
        Ok(Prepared(Name(dest), Some(sanitize(Stem(dest))), RemuxPlaylist))
      else Ok(Prepared(videoPath, None, PassThrough))
    else if !inputExists then Err("Input file not found: " + videoPath)
    else
      var suffix := Lower(Suffix(videoPath));
      var dest := JoinPath(InputDir, jobId + DestSuffix(videoPath));
      var conversion := if suffix == ".m3u8" then RemuxPlaylist else if suffix == ".ts" then TransmuxTs else CopyFile;
      Ok(Prepared(Name(dest), Some(sanitize(Stem(dest))), conversion))
  }

  /**
   * For a job id that is one path component, the prepared file is
   * `<job id><suffix>` and the expected output directory is the sanitised job id.
   */
  lemma PreparedNamedAfterJob(videoPath: string, jobId: string, inputExists: bool, sanitize: string -> string)
    requires jobId != "" && '/' !in jobId
    requires StartsWith(videoPath, "http") ==> EndsWith(Lower(videoPath), ".m3u8")
    requires !StartsWith(videoPath, "http") ==> inputExists
    ensures var r := PrepareInput(videoPath, jobId, inputExists, sanitize);
      && r.Ok?
      && r.value.inputArg == jobId + (if StartsWith(videoPath, "http") then ".mp4" else DestSuffix(videoPath))
      && r.value.expectedDir == Some(sanitize(jobId))
  {
    var suffix := if StartsWith(videoPath, "http") then ".mp4" else DestSuffix(videoPath);
    assert suffix[1..] == "mp4" || suffix == DestSuffix(videoPath);
    DestNamedAfterJob(jobId, suffix);
  }

  /** `batch/input/<job id><suffix>` has name `<job id><suffix>` and stem `<job id>`. */
  lemma DestNamedAfterJob(jobId: string, suffix: string)
    requires jobId != "" && '/' !in jobId
    requires |suffix| >= 2 && suffix[0] == '.' && '.' !in suffix[1..] && '/' !in suffix
    ensures Name(JoinPath(InputDir, jobId + suffix)) == jobId + suffix
    ensures Stem(JoinPath(InputDir, jobId + suffix)) == jobId
  {
    var base := jobId + suffix;
    assert base[0] == jobId[0];
    assert '/' !in base;
    assert JoinPath(InputDir, base) == InputDir + "/" + base;
    NameOfChild(InputDir, base);
    StemAndSuffixOf(jobId, suffix);
    SameNameSameParts(InputDir + "/" + base, base);
  }

  /** The subtitles rendition: group "subs", named "Translated", default, autoselected, in Chinese, at "subtitles.vtt". */
  const MediaLine := "#EXT-X-MEDIA:TYPE=SUBTITLES," + "GROUP-ID=\"subs\"," + "NAME=\"Translated\"," + "DEFAULT=YES,AUTOSELECT=YES,"
                     + "LANGUAGE=\"zh\"," + "URI=\"subtitles.vtt\""
  const SubtitlesAttribute := ",SUBTITLES=\"subs\""
  const StreamInfHead := "#EXT-X-STREAM-INF:" + "BANDWIDTH=800000," + "NAME=\""

  /** The `EXT-X-STREAM-INF` tag line without its `SUBTITLES` attribute. */
  function StreamInfLine(streamName: string): string {
    StreamInfHead + streamName + "\""
  }

  /**
   * The lines of the master playlist: the `EXTM3U` header (section 4.3.1.1
   * of RFC 8216), `EXT-X-VERSION:3` (section 4.3.1.2), the subtitles
   * `EXT-X-MEDIA` tag (section 4.3.4.1) only with subtitles, and an
   * `EXT-X-STREAM-INF` tag (section 4.3.4.2) naming the "subs" group only
   * with subtitles, immediately followed by the variant's URI "video.m3u8".
   */
  function MasterLines(streamName: string, hasSubs: bool): (r: seq<string>)
    ensures |r| == if hasSubs then 5 else 4
    ensures r[0] == "#EXTM3U" && r[1] == "#EXT-X-VERSION:3" && r[|r| - 1] == "video.m3u8"
    ensures MediaLine in r <==> hasSubs
    ensures r[|r| - 2] == StreamInfLine(streamName) + (if hasSubs then SubtitlesAttribute else "")
    ensures hasSubs ==> r[2] == MediaLine
  {
    var info := StreamInfLine(streamName);
    assert info[7] == 'S' && MediaLine[7] == 'M';
    if hasSubs then
      var tagged := info + SubtitlesAttribute;
      assert tagged[7] == 'S';
      ["#EXTM3U", "#EXT-X-VERSION:3", MediaLine, tagged, "video.m3u8"]
    else ["#EXTM3U", "#EXT-X-VERSION:3", info, "video.m3u8"]
  }

  /** `_write_master_playlist`: the lines appended one by one and joined with newlines. */
  method WriteMasterPlaylist(streamName: string, hasSubs: bool) returns (text: string)
    ensures text == Join(MasterLines(streamName, hasSubs), "\n")
  {
    var lines := ["#EXTM3U", "#EXT-X-VERSION:3"];
    if hasSubs {
      lines := lines + [MediaLine];
      lines := lines + [StreamInfLine(streamName) + SubtitlesAttribute];
    } else {
      lines := lines + [StreamInfLine(streamName)];
    }
    lines := lines + ["video.m3u8"];
    assert lines == MasterLines(streamName, hasSubs);
    text := Join(lines, "\n");
  }

  /** No line of the master playlist holds a newline when the stream name does not. */
  lemma MasterLinesSingle(streamName: string, hasSubs: bool)
    requires '\n' !in streamName
    ensures forall i :: 0 <= i < |MasterLines(streamName, hasSubs)| ==> '\n' !in MasterLines(streamName, hasSubs)[i]
  {
    MediaLineSingle();
    assert '\n' !in StreamInfHead && '\n' !in SubtitlesAttribute;
    var info := StreamInfLine(streamName);
    assert '\n' !in info;
    var lines := MasterLines(streamName, hasSubs);
    if hasSubs {
      assert lines == ["#EXTM3U", "#EXT-X-VERSION:3", MediaLine, info + SubtitlesAttribute, "video.m3u8"];
    } else {
      assert lines == ["#EXTM3U", "#EXT-X-VERSION:3", info, "video.m3u8"];
    }
  }

  lemma MediaLineSingle()
    ensures '\n' !in MediaLine
  {
  }

  /** A stream name without a newline leaves the playlist one tag or URI per line: splitting on newlines gives the lines back. */
  lemma MasterPlaylistReadsBack(streamName: string, hasSubs: bool)
    requires '\n' !in streamName
    ensures Split(Join(MasterLines(streamName, hasSubs), "\n"), '\n') == MasterLines(streamName, hasSubs)
  {
    MasterLinesSingle(streamName, hasSubs);
    assert "\n" == ['\n'];
    SplitJoin(MasterLines(streamName, hasSubs), '\n');
  }

  /** What `_create_hls_outputs` produces: the HLS directory, the ffmpeg command, whether subtitles were attached, and the master text. */
  datatype HlsOutputs = HlsOutputs(hlsDir: string, ffmpeg: seq<string>, hasSubs: bool, master: string, written: set<string>)

  /**
   * The ffmpeg command that cuts the video into an HLS stream in `hlsDir`:
   * it reads the video, copies the codecs, cuts segments of the given length
   * numbered from 0, and writes the playlist named last.
   */
  function HlsCommand(videoFile: string, hlsDir: string, segmentSeconds: int): (cmd: seq<string>)
    ensures |cmd| == 15 && cmd[0] == "ffmpeg"
    ensures cmd[2..4] == ["-i", videoFile]
    ensures cmd[6..8] == ["-hls_time", IntToString(segmentSeconds)]
    ensures cmd[12..14] == ["-hls_segment_filename", JoinPath(hlsDir, "segment%03d.ts")]
    ensures cmd[14] == JoinPath(hlsDir, "video.m3u8")
  {
    ["ffmpeg", "-y", "-i", videoFile, "-codec", "copy", "-hls_time", IntToString(segmentSeconds),
     "-hls_playlist_type", "vod", "-start_number", "0",
     "-hls_segment_filename", JoinPath(hlsDir, "segment%03d.ts"), JoinPath(hlsDir, "video.m3u8")]
  }

  /**
   * `_create_hls_outputs`: segment the video into `hls/`, attach the
   * subtitles as `hls/subtitles.vtt` only when a subtitle file was given and
   * exists, and write `hls/master.m3u8` for the video's stem.
   */
  method CreateHlsOutputs(videoFile: string, outputDir: string, subtitle: Option<string>, existing: set<string>, segmentSeconds: int)
    returns (out: HlsOutputs)
    ensures out.hlsDir == JoinPath(outputDir, "hls")
    ensures out.hasSubs <==> subtitle.Some? && subtitle.value in existing
    ensures out.master == Join(MasterLines(Stem(videoFile), out.hasSubs), "\n")
    ensures out.written == {JoinPath(out.hlsDir, "video.m3u8"), JoinPath(out.hlsDir, "master.m3u8")}
                           + (if out.hasSubs then {JoinPath(out.hlsDir, "subtitles.vtt")} else {})
    ensures out.ffmpeg == HlsCommand(videoFile, out.hlsDir, segmentSeconds)
  {
    var hlsDir := JoinPath(outputDir, "hls");
    var videoPlaylist := JoinPath(hlsDir, "video.m3u8");
    var cmd := HlsCommand(videoFile, hlsDir, segmentSeconds);
    var written := {videoPlaylist};
    var hasSubs := false;
    if subtitle.Some? && subtitle.value in existing {
      written := written + {JoinPath(hlsDir, "subtitles.vtt")};
      hasSubs := true;
    }
    var master := WriteMasterPlaylist(Stem(videoFile), hasSubs);
    written := written + {JoinPath(hlsDir, "master.m3u8")};
    out := HlsOutputs(hlsDir, cmd, hasSubs, master, written);
  }

  /** The configuration keys `cli_run.py` overrides for one run. */
  const SourceKey := "whisper.language"
  const TargetKey := "target_language"

  /** The configuration read by `load_key` and written by `update_key`. */
  class ConfigStore {
    var values: map<string, Value>

    constructor (values0: map<string, Value>)
      ensures values == values0
    {
      values := values0;
    }

    /** `_update_languages`: remember both languages, then override each one that is truthy. */
    method UpdateLanguages(sourceLang: Option<string>, targetLang: Option<string>) returns (originalSource: Value, originalTarget: Value)
      requires SourceKey in values && TargetKey in values
      modifies this
      ensures originalSource == old(values[SourceKey]) && originalTarget == old(values[TargetKey])
      ensures values == old(values)
        [SourceKey := if Truthy(sourceLang) then Str(sourceLang.value) else old(values[SourceKey])]
        [TargetKey := if Truthy(targetLang) then Str(targetLang.value) else old(values[TargetKey])]
    {
      originalSource := values[SourceKey];
      originalTarget := values[TargetKey];
      if Truthy(sourceLang) {
        values := values[SourceKey := Str(sourceLang.value)];
      }
      if Truthy(targetLang) {
        values := values[TargetKey := Str(targetLang.value)];
      }
    }

    /** `_restore_languages`. */
    method RestoreLanguages(originalSource: Value, originalTarget: Value)
      modifies this
      ensures values == old(values)[SourceKey := originalSource][TargetKey := originalTarget]
    {
      values := values[SourceKey := originalSource];
      values := values[TargetKey := originalTarget];
    }

    /**
     * The `try`/`finally` of `main`: override the languages, process (whose
     * own configuration writes are `writes`, and which may raise), restore.
     * Whether or not processing raised, both languages are back to their
     * values from before the run.
     */
    method RunWithLanguages(sourceLang: Option<string>, targetLang: Option<string>, writes: map<string, Value>, raises: bool)
      returns (completed: bool)
      requires SourceKey in values && TargetKey in values
      modifies this
      ensures completed == !raises
      ensures values.Keys == old(values.Keys) + writes.Keys
      ensures values[SourceKey] == old(values[SourceKey]) && values[TargetKey] == old(values[TargetKey])
      ensures forall k :: k in values && k != SourceKey && k != TargetKey ==>
        values[k] == if k in writes then writes[k] else old(values[k])
    {
      var originalSource, originalTarget := UpdateLanguages(sourceLang, targetLang);
      values := values + writes;
      completed := !raises;
      RestoreLanguages(originalSource, originalTarget);
    }
  }

  /** An entry of `batch/output`: its name, whether it is a directory, and its mtime. */
  datatype Entry = Entry(name: string, isDir: bool, mtime: int)

  /** Index of the directory `max(dirs, key=mtime)` returns: the first one with the greatest mtime. */
  function LatestDir(entries: seq<Entry>): (r: Option<nat>)
    ensures r.None? <==> forall j :: 0 <= j < |entries| ==> !entries[j].isDir
    ensures r.Some? ==> r.value < |entries| && entries[r.value].isDir
    ensures r.Some? ==> forall j :: 0 <= j < |entries| && entries[j].isDir ==> entries[j].mtime <= entries[r.value].mtime
    ensures r.Some? ==> forall j :: 0 <= j < r.value && entries[j].isDir ==> entries[j].mtime < entries[r.value].mtime
  {
    if entries == [] then None
    else
      var n := |entries| - 1;
      var best := LatestDir(entries[..n]);
      assert forall j :: 0 <= j < n ==> entries[..n][j] == entries[j];
      if entries[n].isDir && (best.None? || entries[n].mtime > entries[best.value].mtime) then Some(n)
      else best
  }

  /**
   * `_locate_output_dir`: the expected directory when it is truthy and
   * exists; otherwise the most recently modified directory of
   * `batch/output`, or `None` when that is missing or has none.
   */
  function LocateOutputDir(expected: Option<string>, existing: set<string>, historyExists: bool, entries: seq<Entry>): (r: Option<string>)
    ensures Truthy(expected) && JoinPath(OutputHistoryDir, expected.value) in existing ==>
      r == Some(JoinPath(OutputHistoryDir, expected.value))
    ensures !(Truthy(expected) && JoinPath(OutputHistoryDir, expected.value) in existing) ==>
      (r.None? <==> !historyExists || forall j :: 0 <= j < |entries| ==> !entries[j].isDir)
    ensures !(Truthy(expected) && JoinPath(OutputHistoryDir, expected.value) in existing) && r.Some? ==>
      exists j :: 0 <= j < |entries| && entries[j].isDir && r.value == JoinPath(OutputHistoryDir, entries[j].name)
        && forall k :: 0 <= k < |entries| && entries[k].isDir ==> entries[k].mtime <= entries[j].mtime
  {
    if Truthy(expected) && JoinPath(OutputHistoryDir, expected.value) in existing then
      Some(JoinPath(OutputHistoryDir, expected.value))
    else if !historyExists then None
    else
      match LatestDir(entries)
      case None => None
      case Some(i) => Some(JoinPath(OutputHistoryDir, entries[i].name))
  }

  /** `_parse_s3_prefix` of this file: a bucket and key prefix, or the `ValueError` it raises. */
  function ParseS3Prefix(prefix: string): (r: Result<(string, string), string>)
    ensures r.Ok? <==> SplitS3Prefix(prefix).Some?
    ensures r.Ok? ==> r.value == SplitS3Prefix(prefix).value
  {
    match SplitS3Prefix(prefix)
    case None => Err("output_s3_prefix must be in format s3://bucket/prefix")
    case Some(parts) => Ok(parts)
  }

  /** The artifacts a manifest may name, with their paths relative to the output directory. */
  const Artifacts: seq<(string, string)> := [
    ("hls_master", "hls/master.m3u8"),
    ("hls_playlist", "hls/video.m3u8"),
    ("vtt", "hls/subtitles.vtt"),
    ("srt", "trans.srt"),
    ("mp4_with_subs", "output_sub.mp4")]

  /** The manifest value `_build_manifest` writes for `rel`: the prefix without trailing '/', then `/rel`. */
  function ManifestValueAsWritten(s3Prefix: string, rel: string): (r: string)
    ensures StartsWith(r, RStrip(s3Prefix, '/') + "/") && EndsWith(r, rel)
    ensures |r| == |RStrip(s3Prefix, '/')| + 1 + |rel|
  {
    RStrip(s3Prefix, '/') + "/" + rel
  }

  /** The location of the object `_upload_output_to_s3` uploads for `rel`. */
  function ManifestValue(bucket: string, keyPrefix: string, rel: string): (r: string)
    ensures StartsWith(r, "s3://" + bucket + "/") && EndsWith(r, rel)
  {
    Location(bucket, ObjectKey(keyPrefix, rel))
  }

  /**
   * For a key prefix ending in '/', the manifest names an object that was
   * never uploaded: the file is stored under `<prefix>/<rel>` with the
   * doubled '/', the manifest drops it (for "s3://b/out/": "out//trans.srt"
   * is uploaded, ".../out/trans.srt" is named).
   */
  lemma ManifestMissesUploadedObject(bucket: string, keyPrefix: string, rel: string)
    requires keyPrefix != "" && keyPrefix[|keyPrefix| - 1] == '/'
    ensures ManifestValueAsWritten(Location(bucket, keyPrefix), rel) != ManifestValue(bucket, keyPrefix, rel)
  {
    var p := Location(bucket, keyPrefix);
    assert p[|p| - 1] == '/';
    assert |RStrip(p, '/')| < |p|;
    assert |ManifestValue(bucket, keyPrefix, rel)| == |p| + 1 + |rel|;
  }

  /** "s3://b/out/" is such a prefix: it parses to bucket "b" and key prefix "out/". */
  lemma TrailingSlashPrefixParses()
    ensures ParseS3Prefix("s3://b/out/") == Ok(("b", "out/"))
  {
    var key := "out/";
    assert Location("b", key) == "s3://b/out/";
    assert LStrip(key, '/') == key by {
      assert key[0] == 'o';
    }
    assert "b"[0] == 'b';
    ParseLocation("b", key);
    var parsed := ParseS3Prefix("s3://b/out/");
    assert parsed.Ok? && parsed.value == ("b", key);
  }

  /** For a clean key prefix, without leading or trailing '/', both forms name the same object. */
  lemma ManifestValueAgrees(bucket: string, keyPrefix: string, rel: string)
    requires keyPrefix != "" && keyPrefix[0] != '/' && keyPrefix[|keyPrefix| - 1] != '/'
    ensures ManifestValueAsWritten(Location(bucket, keyPrefix), rel) == ManifestValue(bucket, keyPrefix, rel)
  {
    var p := Location(bucket, keyPrefix);
    assert p[|p| - 1] == keyPrefix[|keyPrefix| - 1];
    assert RStrip(p, '/') == p;
  }

  /**
   * `files` lists the artifact `name` exactly when its file `rel` exists
   * under the output directory, and then gives it the locator `root/rel`.
   */
  ghost predicate Lists(files: map<string, string>, name: string, rel: string, root: string,
                        outputDir: string, existing: set<string>) {
    && (name in files <==> JoinPath(outputDir, rel) in existing)
    && (name in files ==> files[name] == root + "/" + rel)
  }

  /** `g` agrees with `f` on every name other than `name`. */
  ghost predicate SameExcept(f: map<string, string>, g: map<string, string>, name: string) {
    forall n :: n != name ==> (n in g <==> n in f) && (n in g ==> g[n] == f[n])
  }

  lemma ListsKept(f: map<string, string>, g: map<string, string>, added: string, name: string, rel: string,
                  root: string, outputDir: string, existing: set<string>)
    requires Lists(f, name, rel, root, outputDir, existing)
    requires SameExcept(f, g, added) && added != name
    ensures Lists(g, name, rel, root, outputDir, existing)
  {
    assert name in g <==> name in f;
  }

  /**
   * `_maybe_add`: record `name`, with the prefix's locator for `rel`, when
   * the artifact exists under the output directory; change nothing else.
   */
  method MaybeAdd(name: string, rel: string, files: map<string, string>, s3Prefix: string,
                  outputDir: string, existing: set<string>)
    returns (added: map<string, string>)
    requires name !in files
    ensures Lists(added, name, rel, RStrip(s3Prefix, '/'), outputDir, existing)
    ensures SameExcept(files, added, name)
  {
    added := files;
    if JoinPath(outputDir, rel) in existing {
      added := added[name := ManifestValueAsWritten(s3Prefix, rel)];
    }
  }

  /**
   * A manifest describes the outputs from `root` when it lists each artifact
   * exactly when its file exists, gives each the locator `root/rel`, and
   * lists nothing else.
   */
  ghost predicate DescribesOutputs(m: Manifest, root: string, outputDir: string, existing: set<string>) {
    && (forall i :: 0 <= i < |Artifacts| ==> Lists(m.files, Artifacts[i].0, Artifacts[i].1, root, outputDir, existing))
    && (forall name :: name in m.files ==> exists i :: 0 <= i < |Artifacts| && Artifacts[i].0 == name)
  }

  /** `_build_manifest`: every artifact that exists is listed under the output root, which is the prefix without trailing '/'. */
  method BuildManifest(jobId: string, s3Prefix: string, outputDir: string, existing: set<string>)
    returns (m: Manifest)
    ensures m.jobId == jobId && m.status == "success" && m.outputRoot == RStrip(s3Prefix, '/')
    ensures DescribesOutputs(m, m.outputRoot, outputDir, existing)
  {
    var f0: map<string, string> := map[];
    var f1 := MaybeAdd("hls_master", "hls/master.m3u8", f0, s3Prefix, outputDir, existing);
    var f2 := MaybeAdd("hls_playlist", "hls/video.m3u8", f1, s3Prefix, outputDir, existing);
    var f3 := MaybeAdd("vtt", "hls/subtitles.vtt", f2, s3Prefix, outputDir, existing);
    var f4 := MaybeAdd("srt", "trans.srt", f3, s3Prefix, outputDir, existing);
    var files := MaybeAdd("mp4_with_subs", "output_sub.mp4", f4, s3Prefix, outputDir, existing);
    m := Manifest(jobId, "success", RStrip(s3Prefix, '/'), files);
    StepsDescribe(m, f0, f1, f2, f3, f4, m.outputRoot, outputDir, existing);
  }

  /** Five `_maybe_add` steps from the empty map, one per artifact, describe the outputs. */
  lemma StepsDescribe(m: Manifest, f0: map<string, string>, f1: map<string, string>, f2: map<string, string>,
                      f3: map<string, string>, f4: map<string, string>, r: string, d: string, e: set<string>)
    requires f0 == map[]
    requires Lists(f1, "hls_master", "hls/master.m3u8", r, d, e) && SameExcept(f0, f1, "hls_master")
    requires Lists(f2, "hls_playlist", "hls/video.m3u8", r, d, e) && SameExcept(f1, f2, "hls_playlist")
    requires Lists(f3, "vtt", "hls/subtitles.vtt", r, d, e) && SameExcept(f2, f3, "vtt")
    requires Lists(f4, "srt", "trans.srt", r, d, e) && SameExcept(f3, f4, "srt")
    requires Lists(m.files, "mp4_with_subs", "output_sub.mp4", r, d, e) && SameExcept(f4, m.files, "mp4_with_subs")
    ensures DescribesOutputs(m, r, d, e)
  {
    var files := m.files;
    ListsKept(f1, f2, "hls_playlist", "hls_master", "hls/master.m3u8", r, d, e);
    ListsKept(f2, f3, "vtt", "hls_master", "hls/master.m3u8", r, d, e);
    ListsKept(f3, f4, "srt", "hls_master", "hls/master.m3u8", r, d, e);
    ListsKept(f4, files, "mp4_with_subs", "hls_master", "hls/master.m3u8", r, d, e);
    ListsKept(f2, f3, "vtt", "hls_playlist", "hls/video.m3u8", r, d, e);
    ListsKept(f3, f4, "srt", "hls_playlist", "hls/video.m3u8", r, d, e);
    ListsKept(f4, files, "mp4_with_subs", "hls_playlist", "hls/video.m3u8", r, d, e);
    ListsKept(f3, f4, "srt", "vtt", "hls/subtitles.vtt", r, d, e);
    ListsKept(f4, files, "mp4_with_subs", "vtt", "hls/subtitles.vtt", r, d, e);
    ListsKept(f4, files, "mp4_with_subs", "srt", "trans.srt", r, d, e);
    forall i | 0 <= i < |Artifacts| ensures Lists(files, Artifacts[i].0, Artifacts[i].1, r, d, e) {
    }
    StepsListNothingElse(files, f0, f1, f2, f3, f4);
  }

  lemma StepsListNothingElse(files: map<string, string>, f0: map<string, string>, f1: map<string, string>,
                             f2: map<string, string>, f3: map<string, string>, f4: map<string, string>)
    requires f0 == map[]
    requires SameExcept(f0, f1, "hls_master") && SameExcept(f1, f2, "hls_playlist") && SameExcept(f2, f3, "vtt")
    requires SameExcept(f3, f4, "srt") && SameExcept(f4, files, "mp4_with_subs")
    ensures forall name :: name in files ==> exists i :: 0 <= i < |Artifacts| && Artifacts[i].0 == name
  {
    forall name | name in files ensures exists i :: 0 <= i < |Artifacts| && Artifacts[i].0 == name {
      if name == "hls_master" {
        assert Artifacts[0].0 == name;
      } else if name == "hls_playlist" {
        assert Artifacts[1].0 == name;
      } else if name == "vtt" {
        assert Artifacts[2].0 == name;
      } else if name == "srt" {
        assert Artifacts[3].0 == name;
      } else {
        assert name in f4 || name == "mp4_with_subs";
        assert Artifacts[4].0 == name;
      }
    }
  }

  /** Where the uploaded objects are: the bucket and the key prefix, as `_upload_output_to_s3` joins them. */
  function UploadRoot(bucket: string, keyPrefix: string): string {
    if keyPrefix != "" then "s3://" + bucket + "/" + keyPrefix else "s3://" + bucket
  }

  /** The locator of an uploaded object is the upload root, '/', and its relative path. */
  lemma ManifestValueFromRoot(bucket: string, keyPrefix: string, rel: string)
    ensures ManifestValue(bucket, keyPrefix, rel) == UploadRoot(bucket, keyPrefix) + "/" + rel
  {
    if keyPrefix != "" {
      assert ObjectKey(keyPrefix, rel) == keyPrefix + "/" + rel;
    }
  }

  /**
   * For a key prefix without a trailing '/', the written output root is the
   * upload root, so the written manifest names the uploaded objects.
   */
  lemma WrittenRootIsUploadRoot(bucket: string, keyPrefix: string)
    requires bucket != "" && '/' !in bucket
    requires keyPrefix == "" || keyPrefix[|keyPrefix| - 1] != '/'
    ensures RStrip(Location(bucket, keyPrefix), '/') == UploadRoot(bucket, keyPrefix)
  {
    var p := Location(bucket, keyPrefix);
    if keyPrefix == "" {
      var root := "s3://" + bucket;
      assert p == root + "/";
      assert root[|root| - 1] == bucket[|bucket| - 1];
      assert p[..|p| - 1] == root;
      assert RStrip(root, '/') == root;
    } else {
      assert p == UploadRoot(bucket, keyPrefix);
      assert p[|p| - 1] == keyPrefix[|keyPrefix| - 1];
    }
  }

  /**
   * The manifest as evidently intended: the one `_build_manifest` writes,
   * except that each locator names the object uploaded for the artifact.
   */
  function UploadedManifest(jobId: string, s3Prefix: string, bucket: string, keyPrefix: string, outputDir: string,
                            existing: set<string>): (m: Manifest)
    ensures m.jobId == jobId && m.status == "success" && m.outputRoot == RStrip(s3Prefix, '/')
    ensures DescribesOutputs(m, UploadRoot(bucket, keyPrefix), outputDir, existing)
  {
    var root := UploadRoot(bucket, keyPrefix);
    var files := map i | 0 <= i < |Artifacts| && JoinPath(outputDir, Artifacts[i].1) in existing
                   :: Artifacts[i].0 := root + "/" + Artifacts[i].1;
    var m := Manifest(jobId, "success", RStrip(s3Prefix, '/'), files);
    assert forall i :: 0 <= i < |Artifacts| ==> Lists(m.files, Artifacts[i].0, Artifacts[i].1, root, outputDir, existing) by {
      forall i | 0 <= i < |Artifacts|
        ensures Lists(m.files, Artifacts[i].0, Artifacts[i].1, root, outputDir, existing)
      {
        ArtifactNamesDistinct(i);
      }
    }
    m
  }

  /** No two artifacts share a name. */
  lemma ArtifactNamesDistinct(i: int)
    requires 0 <= i < |Artifacts|
    ensures forall j :: 0 <= j < |Artifacts| && Artifacts[j].0 == Artifacts[i].0 ==> j == i
  {
  }

  /** What `_upload_output_to_s3` did: the keys uploaded in order, the manifest and its location. */
  datatype Upload = Upload(bucket: string, keys: seq<string>, manifestKey: string, location: string, manifest: Manifest)

  /** The keys the walk uploads to, one per file, in walk order. */
  method UploadKeys(keyPrefix: string, rels: seq<string>) returns (keys: seq<string>)
    ensures |keys| == |rels| && forall i :: 0 <= i < |rels| ==> keys[i] == ObjectKey(keyPrefix, rels[i])
  {
    keys := [];
    var i := 0;
    while i < |rels|
      invariant 0 <= i <= |rels|
      invariant |keys| == i && forall j :: 0 <= j < i ==> keys[j] == ObjectKey(keyPrefix, rels[j])
    {
      var key := if keyPrefix != "" then keyPrefix + "/" + rels[i] else rels[i];
      keys := keys + [key];
      i := i + 1;
    }
  }

  /**
   * `_upload_output_to_s3`. `rels` are the output files' paths relative to
   * the output directory, in walk order. Each is uploaded under the key
   * prefix, or at the root when the prefix is empty; the manifest goes to
   * `manifest.json` beside them. A prefix that does not parse is the
   * `ValueError`, raised before any upload.
   */
  method UploadOutputToS3(outputDir: string, s3Prefix: string, jobId: string, rels: seq<string>, existing: set<string>)
    returns (r: Result<Upload, string>)
    ensures r.Err? <==> SplitS3Prefix(s3Prefix).None?
    ensures r.Ok? ==> var (bucket, keyPrefix) := SplitS3Prefix(s3Prefix).value;
      && r.value.bucket == bucket
      && |r.value.keys| == |rels| && (forall i :: 0 <= i < |rels| ==> r.value.keys[i] == ObjectKey(keyPrefix, rels[i]))
      && r.value.manifestKey == ObjectKey(keyPrefix, "manifest.json")
      && r.value.location == Location(bucket, r.value.manifestKey)
      && r.value.manifest.jobId == jobId && r.value.manifest.status == "success"
      && r.value.manifest.outputRoot == RStrip(s3Prefix, '/')
      && DescribesOutputs(r.value.manifest, RStrip(s3Prefix, '/'), outputDir, existing)
  {
    var parsed := ParseS3Prefix(s3Prefix);
    if parsed.Err? {
      return Err(parsed.error);
    }
    var (bucket, keyPrefix) := parsed.value;
    var keys := UploadKeys(keyPrefix, rels);
    var manifest := BuildManifest(jobId, s3Prefix, outputDir, existing);
    var manifestKey := ObjectKey(keyPrefix, "manifest.json");
    r := Ok(Upload(bucket, keys, manifestKey, Location(bucket, manifestKey), manifest));
  }

  /**
   * A manifest whose locators start from the upload root names only
   * uploaded objects, when every existing artifact is among the files
   * walked: so does the intended manifest always, and the written one
   * whenever the prefix without trailing '/' is that root.
   */
  lemma ManifestNamesUploadedObjects(m: Manifest, bucket: string, keyPrefix: string, keys: seq<string>,
                                     outputDir: string, rels: seq<string>, existing: set<string>)
    requires |keys| == |rels| && forall i :: 0 <= i < |rels| ==> keys[i] == ObjectKey(keyPrefix, rels[i])
    requires DescribesOutputs(m, UploadRoot(bucket, keyPrefix), outputDir, existing)
    requires forall i :: 0 <= i < |Artifacts| && JoinPath(outputDir, Artifacts[i].1) in existing ==> Artifacts[i].1 in rels
    ensures forall name :: name in m.files ==> exists k :: k in keys && m.files[name] == Location(bucket, k)
  {
    forall name | name in m.files
      ensures exists k :: k in keys && m.files[name] == Location(bucket, k)
    {
      var i :| 0 <= i < |Artifacts| && Artifacts[i].0 == name;
      var j :| 0 <= j < |rels| && rels[j] == Artifacts[i].1;
      ManifestValueFromRoot(bucket, keyPrefix, Artifacts[i].1);
      assert keys[j] == ObjectKey(keyPrefix, Artifacts[i].1);
    }
  }
}
