/**
 * The orchestrator of `cap_flow_orchestrator/worker.py`: the eligibility
 * predicate a post change must pass, enqueueing with de-duplication over the
 * jobs collection, the atomic claim of a pending job, and the dispatch that
 * maps the worker's reply and the manifest read back from S3 into a terminal
 * job status and an update of the post.
 *
 * The jobs collection is a sequence in natural (insertion) order, so that
 * "find one pending" is the first pending job; the posts collection is a map
 * from post id to post. Job and post timestamps are not modelled.
 */
module Worker {
  import opened Wrappers
  import opened Text
  import opened PyValue
  import opened S3Uri
  import opened Manifests

  /** The fields of `Settings` that the modelled functions read. */
  datatype Settings = Settings(
    whitelistUserIds: set<string>,
    outputBucket: string,
    outputPrefix: string,
    sourceLang: Option<string>,
    targetLang: Option<string>,
    enableDubbing: bool,
    hlsSegment: int)

  /** `post["video"]`; a missing or empty video is the value with every field `None`. */
  datatype Video = Video(hlsS3Key: Option<string>, hlsInputKey: Option<string>, hlsPlaylistUrl: Option<string>)

  /**
   * A post document. `userId` is `str(post.get("user_id") or "")`, so a
   * missing or falsy owner is "". The `subtitle*` fields are the ones the
   * manifest update writes.
   */
  datatype Post = Post(
    id: string,
    userId: string,
    video: Video,
    hasSubtitles: bool,
    subtitleVttUrl: Option<string>,
    subtitleHlsMaster: Option<string>,
    subtitleHlsPlaylist: Option<string>,
    subtitleSrtUrl: Option<string>,
    subtitleVideoUrl: Option<string>)

  /** "starting" is never written here but counts as active, as in `_job_exists`. */
  datatype Status = Pending | Starting | Running | Completed | Failed

  predicate IsActive(s: Status) {
    s == Pending || s == Starting || s == Running
  }

  predicate IsTerminal(s: Status) {
    s == Completed || s == Failed
  }

  datatype Job = Job(
    jobId: string,
    postId: string,
    inputKey: string,
    outputPrefix: string,
    status: Status,
    sourceLang: Option<string>,
    targetLang: Option<string>,
    enableDubbing: Option<bool>,
    error: Option<string>,
    manifest: Option<Manifest>,
    podResponse: Option<map<string, Value>>)

  /**
   * `_env_list`: the comma-separated entries of an environment variable,
   * each stripped, empty ones dropped; an unset variable gives the empty set.
   */
  function EnvList(env: map<string, string>, name: string): (r: set<string>)
    ensures forall x :: x in r ==> x != "" && ',' !in x && Strip(x) == x
  {
    var raw := if name in env then env[name] else "";
    var pieces := Split(raw, ',');
    forall p | p in pieces ensures ',' !in Strip(p) && Strip(Strip(p)) == Strip(p) {
      StripKeepsOut(p, ',');
      StripIdempotent(p);
    }
    set p | p in pieces && Strip(p) != "" :: Strip(p)
  }

  /** A whitelist written as ids joined by commas is read back as exactly those ids. */
  lemma EnvListOfJoined(ids: seq<string>, name: string)
    requires |ids| >= 1
    requires forall i :: 0 <= i < |ids| ==> ids[i] != "" && ',' !in ids[i] && Strip(ids[i]) == ids[i]
    ensures EnvList(map[name := Join(ids, ",")], name) == set i | i in ids
  {
    assert "," == [','];
    SplitJoin(ids, ',');
  }

  /** `_parse_s3_prefix` of this file: a bucket and a key, or the `ValueError` it raises. */
  function ParseS3Prefix(prefix: string): (r: Result<(string, string), string>)
    ensures r.Ok? <==> SplitS3Prefix(prefix).Some?
    ensures r.Ok? ==> Some(r.value) == SplitS3Prefix(prefix)
    ensures r.Ok? ==> SplitS3Prefix(Location(r.value.0, r.value.1)) == Some(r.value)
  {
    match SplitS3Prefix(prefix)
    case None => Err("Invalid S3 prefix: " + prefix)
    case Some((bucket, key)) =>
      ParseLocation(bucket, key);
      Ok((bucket, key))
  }

  /** The part of the output prefix after the bucket: `prefix/job_id`, or `job_id` for an empty prefix. */
  function OutputKey(settings: Settings, jobId: string): (r: string)
    ensures EndsWith(r, jobId)
    ensures RStrip(settings.outputPrefix, '/') == "" ==> r == jobId
    ensures RStrip(settings.outputPrefix, '/') != "" ==>
      StartsWith(r, RStrip(settings.outputPrefix, '/') + "/") && |r| == |RStrip(settings.outputPrefix, '/')| + 1 + |jobId|
  {
    var prefix := RStrip(settings.outputPrefix, '/');
    if prefix != "" then prefix + "/" + jobId else jobId
  }

  /** `_build_output_prefix`: `s3://bucket/<prefix>/<job_id>`, from the settings and the job id alone. */
  function BuildOutputPrefix(settings: Settings, jobId: string): (r: string)
    ensures StartsWith(r, "s3://" + settings.outputBucket + "/") && EndsWith(r, jobId)
  {
    Location(settings.outputBucket, OutputKey(settings, jobId))
  }

  /** Everything of an output prefix before the job id. */
  function OutputLead(settings: Settings): string {
    var prefix := RStrip(settings.outputPrefix, '/');
    "s3://" + settings.outputBucket + "/" + (if prefix != "" then prefix + "/" else "")
  }

  lemma OutputPrefixSplits(settings: Settings, jobId: string)
    ensures BuildOutputPrefix(settings, jobId) == OutputLead(settings) + jobId
  {
  }

  /** Different job ids never share an output prefix. */
  lemma OutputPrefixInjective(settings: Settings, id1: string, id2: string)
    requires BuildOutputPrefix(settings, id1) == BuildOutputPrefix(settings, id2)
    ensures id1 == id2
  {
    var lead := OutputLead(settings);
    OutputPrefixSplits(settings, id1);
    OutputPrefixSplits(settings, id2);
    assert id1 == (lead + id1)[|lead|..];
    assert id2 == (lead + id2)[|lead|..];
  }

  /** The output prefix of a job parses back into the configured bucket and its output key. */
  lemma OutputPrefixParses(settings: Settings, jobId: string)
    requires settings.outputBucket != "" && forall ch :: ch in NetlocEnd ==> ch !in settings.outputBucket
    requires '?' !in settings.outputPrefix + jobId && '#' !in settings.outputPrefix + jobId
    ensures ParseS3Prefix(BuildOutputPrefix(settings, jobId)) == Ok((settings.outputBucket, LStrip(OutputKey(settings, jobId), '/')))
  {
    var prefix := RStrip(settings.outputPrefix, '/');
    assert prefix == settings.outputPrefix[..|prefix|];
    assert '?' !in settings.outputPrefix && '#' !in settings.outputPrefix && '?' !in jobId && '#' !in jobId by {
      assert forall ch :: ch in settings.outputPrefix ==> ch in settings.outputPrefix + jobId;
      assert forall ch :: ch in jobId ==> ch in settings.outputPrefix + jobId;
    }
    var key := OutputKey(settings, jobId);
    ParseLocation(settings.outputBucket, key);
  }

  /**
   * `_extract_s3_input_key`: a truthy `hls_s3_key` wins, then `hls_input_key`;
   * otherwise the key of an `s3://` playlist URL with a bucket, without its
   * leading '/'; otherwise `None`.
   */
  function ExtractInputKey(post: Post): (r: Option<string>)
    ensures Truthy(post.video.hlsS3Key) ==> r == post.video.hlsS3Key
    ensures !Truthy(post.video.hlsS3Key) && Truthy(post.video.hlsInputKey) ==> r == post.video.hlsInputKey
    ensures !Truthy(post.video.hlsS3Key) && !Truthy(post.video.hlsInputKey) ==>
      (r.Some? <==> Truthy(post.video.hlsPlaylistUrl) && SplitS3Prefix(post.video.hlsPlaylistUrl.value).Some?)
    ensures r.Some? && !Truthy(post.video.hlsS3Key) && !Truthy(post.video.hlsInputKey) ==> r.value == [] || r.value[0] != '/'
  {
    var v := post.video;
    if Truthy(v.hlsS3Key) then v.hlsS3Key
    else if Truthy(v.hlsInputKey) then v.hlsInputKey
    else if Truthy(v.hlsPlaylistUrl) then
      match SplitS3Prefix(v.hlsPlaylistUrl.value)
      case Some((_, key)) => Some(key)
      case None => None
    else None
  }

  /** A post whose only input is the playlist `s3://bucket/key` yields that key. */
  lemma InputKeyFromPlaylist(post: Post, bucket: string, key: string)
    requires !Truthy(post.video.hlsS3Key) && !Truthy(post.video.hlsInputKey)
    requires post.video.hlsPlaylistUrl == Some(Location(bucket, key))
    requires bucket != "" && forall ch :: ch in NetlocEnd ==> ch !in bucket
    requires '?' !in key && '#' !in key
    ensures ExtractInputKey(post) == Some(LStrip(key, '/'))
  {
    ParseLocation(bucket, key);
  }

  /**
   * `_should_trigger`: the owner is allowed (empty whitelist or listed), an
   * input key can be extracted, and the post has no subtitles yet.
   */
  function ShouldTrigger(post: Post, whitelist: set<string>): (r: bool)
    ensures r <==> (whitelist == {} || post.userId in whitelist) && Truthy(ExtractInputKey(post)) && !post.hasSubtitles
  {
    if whitelist != {} && post.userId !in whitelist then false
    else if !Truthy(ExtractInputKey(post)) then false
    else if post.hasSubtitles then false
    else true
  }

  predicate ActiveFor(job: Job, postId: string) {
    job.postId == postId && IsActive(job.status)
  }

  /** `count_documents({"post_id": post_id, "status": {"$in": [pending, starting, running]}})`. */
  function CountActive(jobs: seq<Job>, postId: string): (r: nat)
    ensures r <= |jobs|
    ensures r > 0 <==> exists i :: 0 <= i < |jobs| && ActiveFor(jobs[i], postId)
  {
    if jobs == [] then 0
    else
      assert forall i :: 1 <= i < |jobs| ==> jobs[i] == jobs[1..][i - 1];
      (if ActiveFor(jobs[0], postId) then 1 else 0) + CountActive(jobs[1..], postId)
  }

  /** `_job_exists`. */
  predicate JobExists(jobs: seq<Job>, postId: string)
    ensures JobExists(jobs, postId) <==> exists i :: 0 <= i < |jobs| && jobs[i].postId == postId && IsActive(jobs[i].status)
  {
    CountActive(jobs, postId) > 0
  }

  /** The store invariant: at most one job per post in pending, starting or running. */
  ghost predicate AtMostOneActive(jobs: seq<Job>) {
    forall i, j :: 0 <= i < j < |jobs| && IsActive(jobs[i].status) && IsActive(jobs[j].status) ==>
      jobs[i].postId != jobs[j].postId
  }

  /** `_create_job_doc` with its uuid passed in as `jobId`. */
  function CreateJobDoc(post: Post, settings: Settings, inputKey: string, jobId: string): (j: Job)
    ensures j.status == Pending && IsActive(j.status)
    ensures j.jobId == jobId && j.postId == post.id && j.inputKey == inputKey
    ensures j.outputPrefix == BuildOutputPrefix(settings, jobId)
    ensures j.sourceLang == settings.sourceLang && j.targetLang == settings.targetLang
    ensures j.enableDubbing == Some(settings.enableDubbing)
    ensures j.error.None? && j.manifest.None? && j.podResponse.None?
  {
    Job(jobId, post.id, inputKey, BuildOutputPrefix(settings, jobId), Pending,
        settings.sourceLang, settings.targetLang, Some(settings.enableDubbing), None, None, None)
  }

  /**
   * The jobs collection after one change event of `watch_posts_for_jobs`:
   * one new pending job exactly when the event carries a post that passes
   * `_should_trigger` and no job of that post is active.
   */
  function EnqueueInto(jobs: seq<Job>, event: Option<Post>, settings: Settings, jobId: string): (r: seq<Job>)
    ensures |r| == |jobs| + 1 <==>
      event.Some? && ShouldTrigger(event.value, settings.whitelistUserIds) && !JobExists(jobs, event.value.id)
    ensures r == jobs || (|r| == |jobs| + 1 && r[..|jobs|] == jobs)
    ensures |r| == |jobs| + 1 ==> r[|jobs|] == CreateJobDoc(event.value, settings, ExtractInputKey(event.value).value, jobId)
    ensures AtMostOneActive(jobs) ==> AtMostOneActive(r)
  {
    if event.None? then jobs
    else
      var post := event.value;
      if !ShouldTrigger(post, settings.whitelistUserIds) then jobs
      else
        var inputKey := ExtractInputKey(post);
        if !Truthy(inputKey) then jobs
        else if JobExists(jobs, post.id) then jobs
        else
          var r := jobs + [CreateJobDoc(post, settings, inputKey.value, jobId)];
          assert r[..|jobs|] == jobs;
          r
  }

  /** Enqueueing the same post again, under any job id, adds nothing. */
  lemma EnqueueIdempotent(jobs: seq<Job>, post: Post, settings: Settings, id1: string, id2: string)
    ensures var once := EnqueueInto(jobs, Some(post), settings, id1);
            EnqueueInto(once, Some(post), settings, id2) == once
  {
    var once := EnqueueInto(jobs, Some(post), settings, id1);
    if |once| == |jobs| + 1 {
      assert ActiveFor(once[|jobs|], post.id);
    }
  }

  /** The new job is pending, for the post's input key, with the output prefix built from its id. */
  lemma NewJobShape(jobs: seq<Job>, post: Post, settings: Settings, jobId: string)
    requires |EnqueueInto(jobs, Some(post), settings, jobId)| == |jobs| + 1
    ensures var job := EnqueueInto(jobs, Some(post), settings, jobId)[|jobs|];
      && job.status == Pending && job.postId == post.id && job.jobId == jobId
      && Some(job.inputKey) == ExtractInputKey(post) && job.inputKey != ""
      && job.outputPrefix == BuildOutputPrefix(settings, jobId)
  {
  }

  /** Index of the job `find_one_and_update({"status": "pending"})` picks: the first pending one. */
  function FirstPending(jobs: seq<Job>): (r: Option<nat>)
    ensures r.Some? ==> r.value < |jobs| && jobs[r.value].status == Pending
    ensures r.Some? ==> forall k :: 0 <= k < r.value ==> jobs[k].status != Pending
    ensures r.None? ==> forall k :: 0 <= k < |jobs| ==> jobs[k].status != Pending
  {
    if jobs == [] then None
    else if jobs[0].status == Pending then Some(0)
    else
      assert forall k :: 1 <= k < |jobs| ==> jobs[k] == jobs[1..][k - 1];
      match FirstPending(jobs[1..])
      case Some(i) => Some(i + 1)
      case None => None
  }

  /** The jobs collection after the atomic claim: the first pending job, and only it, becomes running. */
  function ClaimIn(jobs: seq<Job>): (r: seq<Job>)
    ensures |r| == |jobs|
    ensures FirstPending(jobs).None? ==> r == jobs
    ensures FirstPending(jobs).Some? ==>
      var i := FirstPending(jobs).value;
      r[i] == jobs[i].(status := Running) && forall k :: 0 <= k < |jobs| && k != i ==> r[k] == jobs[k]
    ensures AtMostOneActive(jobs) ==> AtMostOneActive(r)
  {
    match FirstPending(jobs)
    case None => jobs
    case Some(i) => jobs[i := jobs[i].(status := Running)]
  }

  /** Two claims in a row never take the same job. */
  lemma ClaimsAreExclusive(jobs: seq<Job>)
    requires FirstPending(jobs).Some?
    ensures FirstPending(ClaimIn(jobs)) != FirstPending(jobs)
  {
  }

  /**
   * The worker invocation's outcome: the reply's JSON body together with
   * `str(data)`, its Python rendering used in the failure message, or the
   * `str()` of the exception raised.
   */
  datatype WorkerOutcome =
    | Reply(data: map<string, Value>, text: string)
    | RequestFailed(message: string)

  predicate WorkerSucceeded(w: WorkerOutcome) {
    w.Reply? && "status" in w.data && w.data["status"] == Str("success")
  }

  function WorkerError(w: WorkerOutcome): string {
    match w
    case RequestFailed(message) => message
    case Reply(_, text) => "Pod returned failure: " + text
  }

  /**
   * The payload of `_build_request_payload`: the five fixed keys, plus
   * `source_lang` and `target_lang` exactly when the setting is truthy;
   * `dubbing` is the job's `enable_dubbing`, falling back to the setting.
   */
  function RequestPayload(job: Job, settings: Settings): (payload: map<string, Value>)
    ensures payload.Keys == {"job_id", "s3_input_key", "s3_output_prefix", "hls_segment", "dubbing"}
                            + (if Truthy(settings.sourceLang) then {"source_lang"} else {})
                            + (if Truthy(settings.targetLang) then {"target_lang"} else {})
    ensures payload["job_id"] == Str(job.jobId) && payload["s3_input_key"] == Str(job.inputKey)
    ensures payload["s3_output_prefix"] == Str(job.outputPrefix) && payload["hls_segment"] == Int(settings.hlsSegment)
    ensures payload["dubbing"] == Bool(if job.enableDubbing.Some? then job.enableDubbing.value else settings.enableDubbing)
    ensures "source_lang" in payload ==> payload["source_lang"] == Str(settings.sourceLang.value)
    ensures "target_lang" in payload ==> payload["target_lang"] == Str(settings.targetLang.value)
  {
    var fixed := map[
      "job_id" := Str(job.jobId),
      "s3_input_key" := Str(job.inputKey),
      "s3_output_prefix" := Str(job.outputPrefix),
      "hls_segment" := Int(settings.hlsSegment),
      "dubbing" := Bool(if job.enableDubbing.Some? then job.enableDubbing.value else settings.enableDubbing)];
    var withSource := if Truthy(settings.sourceLang) then fixed["source_lang" := Str(settings.sourceLang.value)] else fixed;
    if Truthy(settings.targetLang) then withSource["target_lang" := Str(settings.targetLang.value)] else withSource
  }

  /** `_build_request_payload`, filling the dictionary key by key as the source does. */
  method BuildRequestPayload(job: Job, settings: Settings) returns (payload: map<string, Value>)
    ensures payload == RequestPayload(job, settings)
  {
    payload := map[
      "job_id" := Str(job.jobId),
      "s3_input_key" := Str(job.inputKey),
      "s3_output_prefix" := Str(job.outputPrefix),
      "hls_segment" := Int(settings.hlsSegment),
      "dubbing" := Bool(if job.enableDubbing.Some? then job.enableDubbing.value else settings.enableDubbing)];
    if Truthy(settings.sourceLang) {
      payload := payload["source_lang" := Str(settings.sourceLang.value)];
    }
    if Truthy(settings.targetLang) {
      payload := payload["target_lang" := Str(settings.targetLang.value)];
    }
  }

  /** `str()` of the `ClientError` boto3 raises for a missing object, with S3's standard message. */
  const NoSuchKeyMessage := "An error occurred (NoSuchKey) when calling the GetObject operation: The specified key does not exist."

  /**
   * `_load_manifest`: the object `manifest.json` under the job's output prefix.
   * `objects` maps (bucket, key) to the parsed body, or to the JSON error when
   * the body does not parse; a missing object is S3's `NoSuchKey` error.
   */
  function LoadManifest(outputPrefix: string, objects: map<(string, string), Result<Manifest, string>>): (r: Result<Manifest, string>)
    ensures ParseS3Prefix(outputPrefix).Err? ==> r == Err(ParseS3Prefix(outputPrefix).error)
    ensures r.Ok? ==> exists key :: (ParseS3Prefix(outputPrefix).value.0, key) in objects
    ensures ParseS3Prefix(outputPrefix).Ok? ==>
      var (bucket, keyPrefix) := ParseS3Prefix(outputPrefix).value;
      var key := ObjectKey(keyPrefix, "manifest.json");
      && ((bucket, key) in objects ==> r == objects[(bucket, key)])
      && ((bucket, key) !in objects ==> r == Err(NoSuchKeyMessage))
  {
    match ParseS3Prefix(outputPrefix)
    case Err(e) => Err(e)
    case Ok((bucket, keyPrefix)) =>
      var key := ObjectKey(keyPrefix, "manifest.json");
      if (bucket, key) in objects then objects[(bucket, key)] else Err(NoSuchKeyMessage)
  }

  /** The `$set` document of `_update_post_with_manifest`. */
  datatype PostUpdate = PostUpdate(
    vtt: Option<string>, hlsMaster: Option<string>, hlsPlaylist: Option<string>, srt: Option<string>, video: Option<string>)

  function Lookup(files: map<string, string>, name: string): Option<string> {
    if name in files then Some(files[name]) else None
  }

  /** Each locator is `files[name]` for its artifact name, or `None` when that name is absent. */
  function PostUpdateOf(m: Manifest): (u: PostUpdate)
    ensures u.vtt.Some? <==> "vtt" in m.files
    ensures u.hlsMaster.Some? <==> "hls_master" in m.files
    ensures u.hlsPlaylist.Some? <==> "hls_playlist" in m.files
    ensures u.srt.Some? <==> "srt" in m.files
    ensures u.video.Some? <==> "mp4_with_subs" in m.files
    ensures "vtt" in m.files ==> u.vtt == Some(m.files["vtt"])
    ensures "hls_master" in m.files ==> u.hlsMaster == Some(m.files["hls_master"])
    ensures "hls_playlist" in m.files ==> u.hlsPlaylist == Some(m.files["hls_playlist"])
    ensures "srt" in m.files ==> u.srt == Some(m.files["srt"])
    ensures "mp4_with_subs" in m.files ==> u.video == Some(m.files["mp4_with_subs"])
  {
    PostUpdate(Lookup(m.files, "vtt"), Lookup(m.files, "hls_master"), Lookup(m.files, "hls_playlist"),
               Lookup(m.files, "srt"), Lookup(m.files, "mp4_with_subs"))
  }

  /** `posts.update_one({"_id": post_id}, {"$set": ...})`: no effect when the post is gone. */
  function UpdatePost(posts: map<string, Post>, postId: string, u: PostUpdate): (r: map<string, Post>)
    ensures postId !in posts ==> r == posts
    ensures postId in posts ==> postId in r && r == posts[postId := r[postId]]
    ensures postId in posts ==>
      && r[postId].hasSubtitles && r[postId].subtitleVttUrl == u.vtt
      && r[postId].subtitleHlsMaster == u.hlsMaster && r[postId].subtitleHlsPlaylist == u.hlsPlaylist
      && r[postId].subtitleSrtUrl == u.srt && r[postId].subtitleVideoUrl == u.video
      && r[postId].id == posts[postId].id && r[postId].userId == posts[postId].userId
      && r[postId].video == posts[postId].video
  {
    if postId in posts then
      posts[postId := posts[postId].(hasSubtitles := true, subtitleVttUrl := u.vtt, subtitleHlsMaster := u.hlsMaster,
                                     subtitleHlsPlaylist := u.hlsPlaylist, subtitleSrtUrl := u.srt, subtitleVideoUrl := u.video)]
    else posts
  }

  /**
   * The claimed job's final record. A worker failure or a failed manifest
   * load ends it failed; otherwise it is written completed with the manifest
   * and, when the post update then raises, overwritten failed with the
   * manifest still attached.
   */
  function Finalize(job: Job, reply: WorkerOutcome, load: Result<Manifest, string>, postUpdateError: Option<string>): (r: Job)
    ensures IsTerminal(r.status)
    ensures r.status == Completed <==> WorkerSucceeded(reply) && load.Ok? && postUpdateError.None?
    ensures r.status == Failed ==> r.error.Some?
    ensures !WorkerSucceeded(reply) ==> r.error == Some(WorkerError(reply)) && r.manifest == job.manifest
    ensures WorkerSucceeded(reply) && load.Err? ==> r.error == Some(load.error) && r.manifest == job.manifest
    ensures WorkerSucceeded(reply) && load.Ok? ==> r.manifest == Some(load.value) && r.podResponse == Some(reply.data)
    ensures r.jobId == job.jobId && r.postId == job.postId && r.inputKey == job.inputKey
    ensures r.outputPrefix == job.outputPrefix && r.enableDubbing == job.enableDubbing
  {
    if !WorkerSucceeded(reply) then job.(status := Failed, error := Some(WorkerError(reply)))
    else if load.Err? then job.(status := Failed, error := Some(load.error))
    else
      var done := job.(status := Completed, manifest := Some(load.value), podResponse := Some(reply.data));
      if postUpdateError.Some? then done.(status := Failed, error := postUpdateError) else done
  }

  /** The statuses `dispatch_pending_jobs` writes to the claimed job, in order. */
  function StatusWrites(reply: WorkerOutcome, load: Result<Manifest, string>, postUpdateError: Option<string>): (r: seq<Status>)
    ensures |r| >= 2 && r[0] == Running && IsTerminal(r[|r| - 1])
    ensures Completed in r && r[|r| - 1] == Failed <==> WorkerSucceeded(reply) && load.Ok? && postUpdateError.Some?
  {
    if !WorkerSucceeded(reply) || load.Err? then [Running, Failed]
    else if postUpdateError.Some? then [Running, Completed, Failed]
    else [Running, Completed]
  }

  /** A failed worker call or manifest load: one `failed` write carrying its error. */
  lemma FinalizeOnFailure(job: Job, reply: WorkerOutcome, load: Result<Manifest, string>, postUpdateError: Option<string>)
    requires !WorkerSucceeded(reply) || load.Err?
    ensures Finalize(job, reply, load, postUpdateError)
      == job.(status := Failed, error := Some(if !WorkerSucceeded(reply) then WorkerError(reply) else load.error))
    ensures StatusWrites(reply, load, postUpdateError) == [Running, Failed]
  {
  }

  /** A loaded manifest: `completed` is written, then overwritten `failed` when the post update raises. */
  lemma FinalizeOnSuccess(job: Job, reply: WorkerOutcome, load: Result<Manifest, string>, postUpdateError: Option<string>)
    requires WorkerSucceeded(reply) && load.Ok?
    ensures var done := job.(status := Completed, manifest := Some(load.value), podResponse := Some(reply.data));
      Finalize(job, reply, load, postUpdateError)
        == if postUpdateError.Some? then done.(status := Failed, error := postUpdateError) else done
    ensures StatusWrites(reply, load, postUpdateError)
      == if postUpdateError.Some? then [Running, Completed, Failed] else [Running, Completed]
  {
  }

  /**
   * The collections after the worker call for the running job at index `i`,
   * given the outcome `load` of reading its manifest: that job is finalised,
   * `writes` holds the statuses written to it, and the post is updated only
   * when the job stays completed.
   */
  ghost predicate Settled(jobs0: seq<Job>, posts0: map<string, Post>, i: nat, reply: WorkerOutcome,
                          load: Result<Manifest, string>, postUpdateError: Option<string>,
                          jobs1: seq<Job>, posts1: map<string, Post>, writes: seq<Status>)
    requires i < |jobs0|
  {
    && jobs1 == jobs0[i := Finalize(jobs0[i], reply, load, postUpdateError)]
    && writes == StatusWrites(reply, load, postUpdateError)
    && posts1 == (if WorkerSucceeded(reply) && load.Ok? && postUpdateError.None?
                  then UpdatePost(posts0, jobs0[i].postId, PostUpdateOf(load.value)) else posts0)
  }

  /** A failed worker call or manifest load, written as one `failed` with its error, settles the job. */
  lemma SettledByFailure(jobs0: seq<Job>, posts0: map<string, Post>, i: nat, reply: WorkerOutcome,
                         load: Result<Manifest, string>, postUpdateError: Option<string>,
                         jobs1: seq<Job>, posts1: map<string, Post>, writes: seq<Status>)
    requires i < |jobs0|
    requires !WorkerSucceeded(reply) || load.Err?
    requires jobs1 == jobs0[i := jobs0[i].(status := Failed,
                                           error := Some(if !WorkerSucceeded(reply) then WorkerError(reply) else load.error))]
    requires posts1 == posts0 && writes == [Running, Failed]
    ensures Settled(jobs0, posts0, i, reply, load, postUpdateError, jobs1, posts1, writes)
  {
    FinalizeOnFailure(jobs0[i], reply, load, postUpdateError);
  }

  /** A loaded manifest, with the job written completed and the post updated, settles the job. */
  lemma SettledByUpdate(jobs0: seq<Job>, posts0: map<string, Post>, i: nat, reply: WorkerOutcome, m: Manifest,
                        jobs1: seq<Job>, posts1: map<string, Post>, writes: seq<Status>)
    requires i < |jobs0| && WorkerSucceeded(reply)
    requires jobs1 == jobs0[i := jobs0[i].(status := Completed, manifest := Some(m), podResponse := Some(reply.data))]
    requires posts1 == UpdatePost(posts0, jobs0[i].postId, PostUpdateOf(m))
    requires writes == [Running, Completed]
    ensures Settled(jobs0, posts0, i, reply, Ok(m), None, jobs1, posts1, writes)
  {
    FinalizeOnSuccess(jobs0[i], reply, Ok(m), None);
  }

  /** A loaded manifest, with the job written completed and then failed because the post update raised, settles the job. */
  lemma SettledByOverwrite(jobs0: seq<Job>, posts0: map<string, Post>, i: nat, reply: WorkerOutcome, m: Manifest,
                           updateError: string, jobs1: seq<Job>, posts1: map<string, Post>, writes: seq<Status>)
    requires i < |jobs0| && WorkerSucceeded(reply)
    requires jobs1 == jobs0[i := jobs0[i].(status := Failed, manifest := Some(m), podResponse := Some(reply.data),
                                           error := Some(updateError))]
    requires posts1 == posts0 && writes == [Running, Completed, Failed]
    ensures Settled(jobs0, posts0, i, reply, Ok(m), Some(updateError), jobs1, posts1, writes)
  {
    FinalizeOnSuccess(jobs0[i], reply, Ok(m), Some(updateError));
  }

  /** Setting one job to a terminal status keeps the store invariant. */
  lemma SettleKeepsInvariant(jobs: seq<Job>, i: nat, job: Job)
    requires i < |jobs| && AtMostOneActive(jobs) && IsTerminal(job.status)
    ensures AtMostOneActive(jobs[i := job])
  {
  }

  /** The jobs and posts collections, held by the orchestrator and changed only through its methods. */
  class JobStore {
    var jobs: seq<Job>
    var posts: map<string, Post>

    constructor (jobs0: seq<Job>, posts0: map<string, Post>)
      ensures jobs == jobs0 && posts == posts0
    {
      jobs := jobs0;
      posts := posts0;
    }

    /** One change event of `watch_posts_for_jobs`, with the new job's uuid passed in. */
    method Enqueue(event: Option<Post>, settings: Settings, jobId: string) returns (enqueued: bool)
      modifies this
      ensures jobs == EnqueueInto(old(jobs), event, settings, jobId)
      ensures enqueued <==> |jobs| == |old(jobs)| + 1
      ensures posts == old(posts)
    {
      enqueued := false;
      if event.None? {
        return;
      }
      var post := event.value;
      if !ShouldTrigger(post, settings.whitelistUserIds) {
        return;
      }
      var inputKey := ExtractInputKey(post);
      if !Truthy(inputKey) {
        return;
      }
      if JobExists(jobs, post.id) {
        return;
      }
      jobs := jobs + [CreateJobDoc(post, settings, inputKey.value, jobId)];
      enqueued := true;
    }

    /** The atomic `find_one_and_update` from pending to running. */
    method Claim() returns (claimed: Option<nat>)
      modifies this
      ensures claimed == FirstPending(old(jobs))
      ensures jobs == ClaimIn(old(jobs))
      ensures posts == old(posts)
    {
      claimed := FirstPending(jobs);
      if claimed.Some? {
        var i := claimed.value;
        jobs := jobs[i := jobs[i].(status := Running)];
      }
    }

    /**
     * One call of `dispatch_pending_jobs`. The worker's reply, the objects in
     * S3 and the outcome of the post update are parameters. Returns the
     * payload sent and the statuses written to the claimed job.
     */
    method Dispatch(settings: Settings, reply: WorkerOutcome, objects: map<(string, string), Result<Manifest, string>>,
                    postUpdateError: Option<string>)
      returns (payload: Option<map<string, Value>>, writes: seq<Status>)
      modifies this
      ensures FirstPending(old(jobs)).None? ==>
        jobs == old(jobs) && posts == old(posts) && payload.None? && writes == []
      ensures FirstPending(old(jobs)).Some? ==>
        var i := FirstPending(old(jobs)).value;
        && payload == Some(RequestPayload(ClaimIn(old(jobs))[i], settings))
        && Settled(ClaimIn(old(jobs)), old(posts), i, reply, LoadManifest(old(jobs)[i].outputPrefix, objects),
                   postUpdateError, jobs, posts, writes)
      ensures AtMostOneActive(old(jobs)) ==> AtMostOneActive(jobs)
    {
      payload, writes := None, [];
      var claimed := Claim();
      if claimed.None? {
        return;
      }
      var i := claimed.value;
      ghost var claimedJobs := jobs;
      assert claimedJobs[i].outputPrefix == old(jobs)[i].outputPrefix;
      var p := BuildRequestPayload(jobs[i], settings);
      payload := Some(p);
      writes := Settle(i, reply, objects, postUpdateError);
      if AtMostOneActive(old(jobs)) {
        SettleKeepsInvariant(claimedJobs, i, jobs[i]);
      }
    }

    /**
     * What follows the worker call for the running job at index `i`: the
     * terminal status written, and the post updated only after the manifest
     * is read and the job marked completed. Returns every status the job has
     * been written, starting with the claim's `running`.
     */
    method Settle(i: nat, reply: WorkerOutcome, objects: map<(string, string), Result<Manifest, string>>,
                  postUpdateError: Option<string>)
      returns (writes: seq<Status>)
      requires i < |jobs|
      modifies this
      ensures Settled(old(jobs), old(posts), i, reply, LoadManifest(old(jobs)[i].outputPrefix, objects), postUpdateError,
                      jobs, posts, writes)
    {
      var job := jobs[i];
      if !WorkerSucceeded(reply) {
        writes := Fail(i, WorkerError(reply));
        SettledByFailure(old(jobs), old(posts), i, reply, LoadManifest(job.outputPrefix, objects), postUpdateError,
                         jobs, posts, writes);
        return;
      }
      var loaded := LoadManifest(job.outputPrefix, objects);
      if loaded.Err? {
        writes := Fail(i, loaded.error);
        SettledByFailure(old(jobs), old(posts), i, reply, loaded, postUpdateError, jobs, posts, writes);
        return;
      }
      writes := Complete(i, loaded.value, reply.data, postUpdateError);
      if postUpdateError.Some? {
        SettledByOverwrite(old(jobs), old(posts), i, reply, loaded.value, postUpdateError.value, jobs, posts, writes);
      } else {
        SettledByUpdate(old(jobs), old(posts), i, reply, loaded.value, jobs, posts, writes);
      }
    }

    /** The failure paths: `failed` is written with its error, and the post is left alone. */
    method Fail(i: nat, error: string) returns (writes: seq<Status>)
      requires i < |jobs|
      modifies this
      ensures jobs == old(jobs)[i := old(jobs)[i].(status := Failed, error := Some(error))]
      ensures posts == old(posts) && writes == [Running, Failed]
    {
      SetJob(i, jobs[i].(status := Failed, error := Some(error)));
      writes := [Running, jobs[i].status];
    }

    /**
     * The success path: `completed` is written with the manifest and the
     * reply; then the post is updated or, when that raises, the job is
     * overwritten `failed` with the manifest still attached.
     */
    method Complete(i: nat, m: Manifest, data: map<string, Value>, postUpdateError: Option<string>)
      returns (writes: seq<Status>)
      requires i < |jobs|
      modifies this
      ensures var done := old(jobs)[i].(status := Completed, manifest := Some(m), podResponse := Some(data));
        && jobs == old(jobs)[i := if postUpdateError.Some? then done.(status := Failed, error := postUpdateError) else done]
        && writes == (if postUpdateError.Some? then [Running, Completed, Failed] else [Running, Completed])
        && posts == (if postUpdateError.None? then UpdatePost(old(posts), old(jobs)[i].postId, PostUpdateOf(m))
                     else old(posts))
    {
      var job := jobs[i];
      var done := job.(status := Completed, manifest := Some(m), podResponse := Some(data));
      SetJob(i, done);
      writes := [Running, jobs[i].status];
      if postUpdateError.Some? {
        SetJob(i, done.(status := Failed, error := postUpdateError));
        writes := writes + [jobs[i].status];
      } else {
        posts := UpdatePost(posts, job.postId, PostUpdateOf(m));
      }
    }

    /** `jobs.update_one({"_id": ...}, {"$set": ...})` on the job at index `i`. */
    method SetJob(i: nat, job: Job)
      requires i < |jobs|
      modifies this
      ensures jobs == old(jobs)[i := job] && posts == old(posts)
    {
      jobs := jobs[i := job];
    }
  }
}
