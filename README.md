# VideoLingo orchestration core in Dafny

This project models the decision-and-string core that drives VideoLingo from
S3 and MongoDB. Its five front ends are:

- **Worker** (`cap_flow_orchestrator/worker.py`). It decides which posts need
  subtitles and enqueues at most one active job per post. It claims a pending
  job, sends it to the pod, loads the manifest the pod uploaded and copies
  its locators into the post.
- **S3Poller** (`s3_poller.py`). It lists `.m3u8` keys across pages and
  derives a job id, a marker key and an output prefix from each key. A marker
  gates reprocessing with a bounded retry count. The poller stages the
  playlist's prefix locally and builds the `cli_run.py` command.
- **CliRun** (`cli_run.py`). It chooses the job id and the local input file,
  and saves and restores the language settings around processing. It locates
  the output directory and writes the HLS master playlist (RFC 8216). It
  uploads the outputs with a manifest that names them.
- **Server** (`server.py`). It validates a job request, which means
  normalising the output prefix and bounding the segment length. It builds
  the command and maps the run's outcome to 400, 504, 500 or success.
- **Handler** (`handler.py`). It checks the required fields and defaults the
  job id, languages and segment length, first from the payload and then from
  the environment. It builds the command and shapes the reply, cutting the
  output to its last 4000 characters.

Shared modules cover the rest:

- `Text`: the Python string operations the code uses.
- `S3Uri`: the subset of `urlparse` used here, and S3 keys and locations.
- `PosixPath`: the `pathlib` name, suffix and stem.
- `PyValue`: JSON values and their truthiness.
- `Manifests`: the manifest record.
- `Argv`: how `cli_run.py` reads a flag's value. Every command builder is
  proved against this reader. A value is "plain" when the argument parser
  cannot take it for an option: it does not start with '-', or it is a lone
  '-' or a negative number.
- `Pipeline`: ties the worker to the CLI. The worker reads the manifest from
  the exact key where the CLI uploads it.

State the source changes in place is held in classes:

- `Worker.JobStore`: the jobs and posts collections.
- `S3Poller.MarkerStore`: the marker objects.
- `CliRun.ConfigStore`: the configuration that `load_key` and `update_key`
  use.

Each method is proved against a pure function. The properties are lemmas
about those functions.

Two behaviours of the code are easy to miss, and the model keeps both:

- After a successful run the worker writes the job `completed`, then updates
  the post. If that update raises, the job is overwritten as `failed` and
  keeps its manifest. `Worker.StatusWrites` and `Worker.Finalize` state this.
- The poller's marker starts at 1 retry after the first failure. So from the
  first failure, for polls whose runs end with an exit status, a key is
  reprocessed at most `max_retries - 1` times
  (`S3Poller.RetriesAfterFirstFailure`). A run that raises anything other than
  `CalledProcessError` writes no marker, so the key is processed again on
  every poll without bound (`S3Poller.RaisingRunsReprocessEveryPoll`).

The operations follow the code as written, including the three defects
listed under "## Findings". Each defect also has a corrected definition,
and the intended property is proved about that definition.

## Model

| member | source | states |
|---|---|---|
| Worker.EnvList | cap_flow_orchestrator/worker.py:51-53 | every whitelisted id is non-empty, has no comma and is already stripped |
| Worker.EnvListOfJoined | cap_flow_orchestrator/worker.py:51-53 | a comma-joined list of clean ids gives back exactly the set of those ids |
| Worker.ParseS3Prefix | cap_flow_orchestrator/worker.py:56-60 | fails exactly when the prefix lacks scheme `s3` or a netloc; the bucket and key it returns rebuild a location that parses back to them |
| Worker.BuildOutputPrefix | cap_flow_orchestrator/worker.py:96-99 | the output prefix starts with `s3://<output bucket>/` and ends with the job id |
| Worker.OutputKey | cap_flow_orchestrator/worker.py:97-98 | the key part ends with the job id; it is the job id alone when the prefix is empty after stripping '/', otherwise that prefix, '/', then the job id |
| Worker.OutputPrefixSplits | cap_flow_orchestrator/worker.py:96-99 | every output prefix is one fixed lead, determined by the settings, followed by the job id |
| Worker.OutputPrefixInjective | cap_flow_orchestrator/worker.py:96-99 | two job ids share an output prefix only if they are equal |
| Worker.OutputPrefixParses | cap_flow_orchestrator/worker.py:96-99 | a job's output prefix parses back into the configured bucket and the prefix-and-job-id key |
| Worker.ExtractInputKey | cap_flow_orchestrator/worker.py:102-112 | a truthy `hls_s3_key` wins, then `hls_input_key`; else a key exists exactly when the playlist URL is an `s3://` URL with a bucket, and it has no leading '/' |
| Worker.InputKeyFromPlaylist | cap_flow_orchestrator/worker.py:106-111 | for `s3://bucket/key` the extracted key is `key` without its leading '/' |
| Worker.ShouldTrigger | cap_flow_orchestrator/worker.py:115-127 | true exactly when the whitelist is empty or holds the user, an input key is extractable, and the post has no subtitles |
| Worker.CountActive | cap_flow_orchestrator/worker.py:130-131 | the count is positive exactly when some job of the post is pending, starting or running |
| Worker.JobExists | cap_flow_orchestrator/worker.py:130-131 | true exactly when some job of the post is pending, starting or running |
| Worker.EnqueueInto | cap_flow_orchestrator/worker.py:188-208 | a job is appended exactly when the event is an eligible post with no active job; nothing else changes; the new job is the created document; at most one active job per post is preserved |
| Worker.EnqueueIdempotent | cap_flow_orchestrator/worker.py:200-208 | replaying the same post enqueues nothing more |
| Worker.CreateJobDoc | cap_flow_orchestrator/worker.py:134-148 | the new document is pending for the post, with the given input key, the output prefix built from the settings and the job id, the configured languages and dubbing flag, and no error, manifest or reply yet |
| Worker.NewJobShape | cap_flow_orchestrator/worker.py:134-148 | a new job is pending, belongs to the post, carries the extracted non-empty input key, and its output prefix is the one built from the settings and the job id |
| Worker.FirstPending | cap_flow_orchestrator/worker.py:216-219 | finds the first pending job, or none when no job is pending |
| Worker.ClaimIn | cap_flow_orchestrator/worker.py:216-221 | with no pending job nothing changes; otherwise exactly the first pending job becomes running; at most one active job per post is preserved |
| Worker.ClaimsAreExclusive | cap_flow_orchestrator/worker.py:216-221 | a second claim never takes the job the first claim took |
| Worker.RequestPayload | cap_flow_orchestrator/worker.py:151-163 | the payload has the five fixed keys, plus `source_lang`/`target_lang` exactly when the setting is truthy; `dubbing` is the job's flag, falling back to the setting |
| Worker.BuildRequestPayload | cap_flow_orchestrator/worker.py:151-163 | filling the dictionary key by key gives exactly `RequestPayload` |
| Worker.LoadManifest | cap_flow_orchestrator/worker.py:166-171 | an unparsable prefix is the parse error; otherwise the object read is `manifest.json` under the key prefix (or at the root), the result is what is stored there, and a missing object is S3's `NoSuchKey` error |
| Worker.PostUpdateOf | cap_flow_orchestrator/worker.py:174-185 | each of the five locators is present exactly when the manifest lists its artifact, and is then that artifact's entry |
| Worker.UpdatePost | cap_flow_orchestrator/worker.py:174-185 | only the target post changes: it gets `has_subtitles` and the five locators, and keeps its id, user and video |
| Worker.Finalize | cap_flow_orchestrator/worker.py:222-257 | the job ends terminal; completed exactly when the pod succeeded, the manifest loaded and the post update did not raise; a failure carries its error; identity fields never change |
| Worker.StatusWrites | cap_flow_orchestrator/worker.py:216-257 | the writes start with running and end terminal; completed is followed by failed exactly when the post update raises after a successful load |
| Worker.SettleKeepsInvariant | cap_flow_orchestrator/worker.py:222-257 | finishing a job keeps at most one active job per post |
| Worker.JobStore.Enqueue | cap_flow_orchestrator/worker.py:188-208 | the jobs become the enqueue result, and the method reports whether a job was added; posts are untouched |
| Worker.JobStore.Claim | cap_flow_orchestrator/worker.py:216-221 | atomically marks the first pending job running and returns its index |
| Worker.JobStore.Dispatch | cap_flow_orchestrator/worker.py:215-257 | with no pending job the store is unchanged and nothing is sent or written; otherwise the payload sent is the claimed job's `RequestPayload`, and the job is settled from the pod reply, the manifest loaded from its own output prefix and the post update; at most one active job per post is preserved |
| Worker.JobStore.Settle | cap_flow_orchestrator/worker.py:222-257 | the running job ends as `Finalize` says and every other job is unchanged; the statuses written since the claim are `StatusWrites`; the post is updated exactly when the job stays completed |
| Worker.JobStore.Fail | cap_flow_orchestrator/worker.py:230-236 | the job is written failed with the error; nothing else changes and the writes are running, failed |
| Worker.JobStore.Complete | cap_flow_orchestrator/worker.py:238-257 | the job is written completed with the manifest and the pod reply; the post is then updated, or, when that raises, the job is overwritten failed and keeps its manifest |
| Worker.FinalizeOnFailure | cap_flow_orchestrator/worker.py:224-257 | a failed pod call or manifest load ends the job failed with that error, after the writes running, failed |
| Worker.FinalizeOnSuccess | cap_flow_orchestrator/worker.py:238-257 | with the manifest loaded the job is completed with it and the pod reply; a raising post update turns it failed with that error and the writes gain a final failed |
| Worker.SettledByFailure | cap_flow_orchestrator/worker.py:224-257 | writing failed with the pod or load error and leaving the posts alone is the settled outcome of a failed call or load |
| Worker.SettledByUpdate | cap_flow_orchestrator/worker.py:238-252 | writing completed and updating the post is the settled outcome of a loaded manifest when the update does not raise |
| Worker.SettledByOverwrite | cap_flow_orchestrator/worker.py:238-257 | writing completed, then failed with the update's error, leaving the posts alone, is the settled outcome when the post update raises |
| Worker.JobStore.SetJob | cap_flow_orchestrator/worker.py:222-257 | one job document is replaced; every other job and all posts are unchanged |
| S3Poller.FinalPage | s3_poller.py:97-99 | listing stops at the first page that is not truncated |
| S3Poller.Listed | s3_poller.py:85-99 | the pages read are a prefix of the pages; every one but the last was truncated |
| S3Poller.Playlists | s3_poller.py:92-96 | a key is kept exactly when it ends in ".m3u8" |
| S3Poller.KeysOfMembers | s3_poller.py:84-99 | a key is listed exactly when it is a playlist on one of the pages |
| S3Poller.PagePlaylists | s3_poller.py:92-96 | one page's loop yields that page's playlists in order |
| S3Poller.ListM3u8Keys | s3_poller.py:84-100 | yields the playlists of the pages read, in page order, and counts them |
| S3Poller.ListedKeysMembers | s3_poller.py:84-99 | a key is yielded exactly when it is a playlist on a page up to the first untruncated one |
| S3Poller.Safe | s3_poller.py:104 | every '/' and ' ' becomes '_' and nothing else changes |
| S3Poller.JobIdFromKey | s3_poller.py:103-105 | the job id has no '/' or ' ', is a prefix of the safe key, and is all of it when there is no ".m3u8" |
| S3Poller.JobIdOfPlaylist | s3_poller.py:103-105 | the id of `<stem>.m3u8` is the safe stem |
| S3Poller.SafeConcat | s3_poller.py:104 | making a key safe works character by character, so it distributes over concatenation |
| S3Poller.JobIdsCollide | s3_poller.py:103-105 | "a/b.m3u8" and "a_b.m3u8" get the same job id, so they share a marker |
| S3Poller.JobIdOfNestedKey | s3_poller.py:103-105 | "a/b.m3u8" gets job id "a_b" |
| S3Poller.JobIdOfFlatKey | s3_poller.py:103-105 | "a_b.m3u8" gets job id "a_b" |
| S3Poller.MarkerKey | s3_poller.py:108-109 | the marker key ends with `<job id>.json` |
| S3Poller.MarkerKeyInjective | s3_poller.py:108-109 | different job ids have different marker keys |
| S3Poller.OutputPrefix | s3_poller.py:142-144 | the output prefix starts with `s3://<output bucket>/` and ends with `/<job id>` |
| S3Poller.OutputPrefixInjective | s3_poller.py:142-144 | different job ids have different output prefixes |
| S3Poller.GetMarker | s3_poller.py:112-120 | a stored marker is returned; 404 or NoSuchKey is "no marker"; any other client error is raised |
| S3Poller.Present | s3_poller.py:203 | a marker counts exactly when one was found and it is not the empty document |
| S3Poller.Retries | s3_poller.py:205 | the stored retry count, or 0 when the marker has none |
| S3Poller.ShouldProcess | s3_poller.py:203-217 | no marker: process; completed: skip; failed: process exactly when retrying is on and retries < max; any other status: skip |
| S3Poller.NextMarker | s3_poller.py:224-249 | status is completed exactly on success; retries is old+1 with a marker, else 0 on success and 1 on failure; on success the output prefix is the job's `_output_prefix` and there is no error; on failure the error is `str(exc)` and there is no output prefix |
| S3Poller.ProcessingsBounded | s3_poller.py:200-250 | for polls whose runs end with an exit status, a key is processed at most its budget: once plus the retries when it has no marker, the retries left when it failed and retrying is on, and never otherwise |
| S3Poller.FailedStaysFailedWithoutRetry | s3_poller.py:209-214 | with retrying off, a failed key is never processed again, however its runs would end |
| S3Poller.RetriesAfterFirstFailure | s3_poller.py:209-247 | for polls whose runs end with an exit status, after the first failure a key is reprocessed at most `max_retries - 1` times |
| S3Poller.RaisingRunsReprocessEveryPoll | s3_poller.py:223-238 | a key that is due and whose runs raise something other than `CalledProcessError` gets no new marker, so it is processed on every poll |
| S3Poller.UnmarkedRaisingKeyExceedsBudget | s3_poller.py:223-238 | a key without a marker whose runs keep raising is processed more often than its budget |
| S3Poller.PlaylistPrefixAsWritten | s3_poller.py:151 | the prefix as written always ends in '/'; for a key without '/' it is the key itself plus '/' |
| S3Poller.PlaylistAtRootNeverStaged | s3_poller.py:151 | as written, a key with no '/' gets a prefix the key itself does not start with; "show.m3u8" has no relative path under it, so it is never staged |
| S3Poller.NestedPlaylistStaged | s3_poller.py:151-170 | as written, a key with a '/' and not ending in '/' has its own name as relative path, so it is staged |
| S3Poller.PlaylistPrefix | s3_poller.py:151 | corrected definition (see "## Findings"): the key up to and including its last '/', or empty for a key at the root |
| S3Poller.PlaylistPrefixAgrees | s3_poller.py:151 | for a key with a '/', the corrected prefix is the prefix as written |
| S3Poller.StagedOf | s3_poller.py:162-170 | every object staged is listed, has a non-empty relative path, and lands at the staging directory joined with it |
| S3Poller.StagedOfCovers | s3_poller.py:162-170 | every listed object with a non-empty relative path is staged |
| S3Poller.RelativeKey | s3_poller.py:164 | the object's key after the listing prefix: the key is the prefix followed by it when the key starts with the prefix, and it is empty when the key is shorter than the prefix |
| S3Poller.StagePage | s3_poller.py:162-170 | one page's loop stages exactly that page's objects |
| S3Poller.DownloadHls | s3_poller.py:147-176 | stages the objects of all pages read under the prefix as written, counts them, and returns the staging directory joined with the key's name |
| S3Poller.PlaylistStagedWhereReturned | s3_poller.py:164-176 | the playlist's own relative path is its name, so the returned path is a staged file |
| S3Poller.BuildCliCommand | s3_poller.py:179-197 | the command built by extending equals the reference command `S3Poller.CliCommand` |
| S3Poller.CliCommand | s3_poller.py:179-197 | the reference command: the script, then the playlist after `--video_path`, the job id, `--hls_output`, the segment length and the job's output prefix, in that order, then two more words for each truthy language |
| S3Poller.WordsReadBack | s3_poller.py:180-192 | the fixed words give back the playlist, the job id, the segment length and the output prefix, and `--hls_output`, whatever options follow |
| S3Poller.WordsHaveNoOption | s3_poller.py:180-192 | the fixed words hold no language or dubbing flag |
| S3Poller.CliCommandFixedReadBack | s3_poller.py:180-192 | the CLI reads back the playlist, the job id, the segment length and the output prefix, and sees `--hls_output` |
| S3Poller.CliCommandLanguagesReadBack | s3_poller.py:193-197 | each language is read back exactly when it is set; no `--dubbing` is passed |
| S3Poller.MarkerStore.FetchMarker | s3_poller.py:112-116 | without an injected fault, a body is returned exactly when the marker exists, and it is the stored marker |
| S3Poller.MarkerStore.ProcessKey | s3_poller.py:200-250 | a client error is raised and a skip changes nothing; a run that raises other than by exit status writes no marker; otherwise exactly the key's marker becomes its next marker, and the result reports the files staged under the prefix as written and the command run |
| CliRun.JobStem | cli_run.py:23 | the stem is non-empty: the path's stem, or "job" |
| CliRun.MakeJobId | cli_run.py:20-25 | a given id is sanitised; otherwise the id is the sanitised stem, '-', and the uuid's first 8 hex digits |
| CliRun.GeneratedIdsDiffer | cli_run.py:25 | generated ids differ whenever the uuids' first 8 hex digits differ |
| CliRun.DestSuffix | cli_run.py:82-85 | ".mp4" for a lower-cased ".ts", ".m3u8" or empty suffix, otherwise the lower-cased suffix; always a '.' and one more character |
| CliRun.PrepareInput | cli_run.py:59-104 | an error exactly for a missing local file; pass-through exactly for an http input not ending in ".m3u8" (any case); every conversion names an expected directory |
| CliRun.PreparedNamedAfterJob | cli_run.py:59-104 | a converted input is `<job id><suffix>`, and the expected directory is the sanitised job id |
| CliRun.DestNamedAfterJob | cli_run.py:86 | `batch/input/<job id><suffix>` has that name and the job id as stem |
| CliRun.MasterLines | cli_run.py:112-127 | the lines start with `#EXTM3U` and `#EXT-X-VERSION:3` and end with `video.m3u8`; the subtitles media line is present exactly with subtitles; the stream line has `SUBTITLES="subs"` exactly with subtitles |
| CliRun.WriteMasterPlaylist | cli_run.py:112-128 | the appended lines, joined with newlines, are the master playlist text |
| CliRun.MasterLinesSingle | cli_run.py:112-127 | no line holds a newline when the stream name has none |
| CliRun.MediaLineSingle | cli_run.py:119-121 | the media tag is one line |
| CliRun.MasterPlaylistReadsBack | cli_run.py:112-128 | splitting the written text on newlines gives the lines back |
| CliRun.CreateHlsOutputs | cli_run.py:131-169 | subtitles are attached exactly when a subtitle file was given and exists; the master text and the written files follow from that; ffmpeg runs `CliRun.HlsCommand` on the video and the `hls/` directory |
| CliRun.HlsCommand | cli_run.py:140-158 | ffmpeg reads the video after `-i`, gets the segment length right after `-hls_time`, writes segments to `hls/segment%03d.ts` and, as its last word, the playlist `hls/video.m3u8` |
| CliRun.ConfigStore.UpdateLanguages | cli_run.py:172-181 | returns both original languages and overrides exactly the truthy ones |
| CliRun.ConfigStore.RestoreLanguages | cli_run.py:184-186 | both languages are set back and nothing else changes |
| CliRun.ConfigStore.RunWithLanguages | cli_run.py:276-282 | whether processing raised or not, both languages end as they were before the run; other keys hold what processing wrote |
| CliRun.LatestDir | cli_run.py:198-202 | none exactly when there is no directory; otherwise the first directory with the greatest mtime |
| CliRun.LocateOutputDir | cli_run.py:189-202 | the expected directory when named and existing; otherwise none exactly when the history is missing or has no directory, else a directory with the greatest mtime |
| CliRun.ParseS3Prefix | cli_run.py:205-209 | fails exactly when the prefix lacks scheme `s3` or a netloc; otherwise the netloc and the path without leading '/' |
| CliRun.ManifestValueAsWritten | cli_run.py:222 | the locator as written: the prefix without trailing '/', then '/', then the relative path |
| CliRun.ManifestValue | cli_run.py:245-248 | corrected locator (see "## Findings"): it names the uploaded object, `s3://<bucket>/` ending with the relative path |
| CliRun.ManifestMissesUploadedObject | cli_run.py:222 | as written, a key prefix ending in '/' gives locators that differ from the uploaded objects' |
| CliRun.TrailingSlashPrefixParses | cli_run.py:205-209 | "s3://b/out/" is accepted and parses to key prefix "out/" |
| CliRun.ManifestValueAgrees | cli_run.py:222 | for a key prefix without leading or trailing '/', the written value is the uploaded object's locator |
| CliRun.ListsKept | cli_run.py:219-222 | adding another name keeps an artifact's entry correct |
| CliRun.MaybeAdd | cli_run.py:219-222 | the artifact is listed exactly when its file exists, as the prefix without trailing '/', '/' and its relative path; nothing else changes |
| CliRun.BuildManifest | cli_run.py:218-236 | status "success", root without trailing '/'; lists each artifact exactly when its file exists, under that root, and nothing else |
| CliRun.StepsDescribe | cli_run.py:224-229 | the five additions together describe the outputs |
| CliRun.StepsListNothingElse | cli_run.py:224-229 | only the five artifact names can appear |
| CliRun.UploadKeys | cli_run.py:245-248 | each file is uploaded under the key prefix, or at the root for an empty one, in walk order |
| CliRun.UploadOutputToS3 | cli_run.py:239-258 | fails exactly on an unparsable prefix; uploads every file under the key prefix; the manifest key follows the same rule; returns its `s3://` location and a manifest that lists the existing outputs under the prefix without trailing '/' |
| CliRun.UploadRoot | cli_run.py:245-248 | where the objects are uploaded: `s3://<bucket>/<key prefix>`, or `s3://<bucket>` for an empty key prefix |
| CliRun.ManifestValueFromRoot | cli_run.py:245-248 | an uploaded object's locator is the upload root, '/' and its relative path |
| CliRun.WrittenRootIsUploadRoot | cli_run.py:222 | for a key prefix without trailing '/', the written root is the upload root |
| CliRun.UploadedManifest | cli_run.py:218-236 | the intended manifest: the written one's id, status and root, with each existing artifact listed under the upload root |
| CliRun.ManifestNamesUploadedObjects | cli_run.py:239-258 | a manifest that lists the artifacts under the upload root names only uploaded objects, when every existing artifact is among the files walked |
| Server.NormalizePrefixAsWritten | server.py:66-73 | refuses exactly a blank value; an `s3://` value is accepted without trailing '/'; any other value becomes `s3://<output bucket>/` plus the value without leading '/' |
| Server.NormalizePrefix | server.py:66-73 | corrected definition (see "## Findings"): refuses a blank value; an accepted value is normalised as written; the only other refusals are values that, as written, would not parse as an `s3://` prefix |
| Server.OutputBucket | server.py:75-77 | the bucket is the third '/'-separated piece and holds no '/' |
| Server.BarePrefixAcceptedAsWritten | server.py:71-72 | as written, "s3://" is accepted as "s3:", which has no bucket for the CLI and makes `output_bucket` raise |
| Server.OutputBucketOf | server.py:75-77 | the bucket of `s3://<bucket>` or `s3://<bucket>/...` is `<bucket>` |
| Server.NormalizedPrefixIsUsable | server.py:66-77 | every accepted prefix starts with `s3://`, parses for the CLI and has a non-empty bucket; a relative value lands in the default bucket |
| Server.NormalizedS3Usable | server.py:71-77 | an accepted `s3://` value keeps its scheme, parses for the CLI and has a non-empty `output_bucket` |
| Server.StrippedS3Usable | server.py:71-77 | an `s3://` value with its trailing '/' dropped that still parses keeps its scheme and has a non-empty `output_bucket` |
| Server.NormalizedRelativeUsable | server.py:73-77 | a non-blank value without `s3://` is accepted as a location in the default bucket, which parses with that bucket and is its `output_bucket` |
| Server.BucketAfterScheme | server.py:75-77 | an `s3://` text whose next character is not '/' has a non-empty `output_bucket` |
| Server.LocationBucket | server.py:73-77 | a location in a '/'-free bucket starts with `s3://` and its `output_bucket` is that bucket |
| Server.S3PrefixUsable | server.py:71-77 | an `s3://` prefix that parses has a non-empty `output_bucket` |
| Server.RelativePrefixUsable | server.py:73-77 | a value placed under the default bucket parses with that bucket, and `output_bucket` returns it |
| Server.SegmentOf | server.py:63 | the requested segment length, or 6 when none was given |
| Server.ValidateRequest | server.py:57-73 | accepted exactly when the prefix normalises as written and the segment length, 6 by default, lies in [2, 30]; each failing field is reported |
| Server.ValidatedPrefixUsable | server.py:57-77 | a validated prefix is accepted by the corrected normaliser exactly when the CLI parses it, and then has a non-empty `output_bucket` |
| Server.BuildCliCommand | server.py:89-109 | the command built by extending equals the reference command `Server.CliCommand` |
| Server.CliCommand | server.py:89-109 | the reference command: the CLI path, then the input after `--video_path`, the job id, `--hls_output`, the segment length and the prefix, in that order, then two more words for each truthy language and one for dubbing |
| Server.WordsReadBack | server.py:90-102 | the fixed words give back the input, the job id, the segment length and the prefix, and `--hls_output`, whatever options follow |
| Server.WordsHaveNoOption | server.py:90-102 | the fixed words hold no language or dubbing flag |
| Server.CliCommandFixedReadBack | server.py:90-102 | the CLI reads back the input, the job id, the segment length and the prefix, and sees `--hls_output` |
| Server.CliCommandOptionsReadBack | server.py:103-108 | each language is read back exactly when it is set; `--dubbing` is passed exactly when requested |
| Server.RunVideolingoJob | server.py:117-136 | nothing runs exactly when the input key is empty; a run uses the built command; an exception raised while starting the process escapes unhandled, carrying its text; success echoes the job id and prefix |
| Server.OutcomesHaveDistinctCodes | server.py:119-136 | 400 exactly for an empty key, 504 exactly for a timeout, 500 exactly for a non-zero exit or a process that could not start, 200 exactly for a clean exit; the CLI-failed 500 is exactly the non-zero exit |
| Handler.EnvDefault | handler.py:30-31 | the environment variable's value when set, else the default |
| Handler.Language | handler.py:39-40 | the payload's language when truthy; else the environment variable when set; else None |
| Handler.SourceLang | handler.py:39 | `source_lang` when truthy, else `VL_DEFAULT_SOURCE_LANG` when set, else None |
| Handler.TargetLang | handler.py:40 | `target_lang` when truthy, else `VL_DEFAULT_TARGET_LANG` when set, else None |
| Handler.Dubbing | handler.py:41 | the payload's `dubbing` when present, else false |
| Handler.Segment | handler.py:42 | `hls_segment` when truthy, else `VL_HLS_SEGMENT` when set (even when empty), else "6" |
| Handler.JobIdOf | handler.py:37 | the payload's truthy id, else "job-" plus the uuid's first 8 hex digits; always truthy |
| Handler.BuildCliCmd | handler.py:34-63 | returns the chosen job id and the command built by extending, which equals the reference command `Handler.CliCmd` |
| Handler.CliCmd | handler.py:44-62 | the reference command: the fixed words, then two more words for each truthy defaulted language and one for truthy dubbing |
| Handler.FixedWords | handler.py:44-56 | the eleven fixed words: the script, the URL after `--video_path`, `--hls_output`, the job id, the prefix and the defaulted segment length, in that order |
| Handler.WordsReadBack | handler.py:44-56 | the fixed words give back the URL, the job id, the prefix and the segment length, and `--hls_output`, whatever options follow |
| Handler.WordsHaveNoOption | handler.py:44-56 | the fixed words hold no language or dubbing flag |
| Handler.CliCmdFixedReadBack | handler.py:44-56 | the CLI reads back the URL, the job id, the prefix and the segment length, and sees `--hls_output` |
| Handler.CliCmdOptionsReadBack | handler.py:39-62 | each language, after defaulting from the environment, is passed exactly when truthy; `--dubbing` exactly when dubbing is truthy |
| Handler.LastChars | handler.py:90-91 | the result is a suffix of the output of length min(length, 4000) |
| Handler.LastCharsKeepsShortOutput | handler.py:90-97 | short output is kept whole; the cut never lengthens and is idempotent |
| Handler.PayloadOf | handler.py:79 | the job's `input`, or the empty payload when there is none |
| Handler.Handle | handler.py:65-98 | refused and not run exactly when `hls_url` or `output_s3_prefix` is missing; otherwise runs the built command; an exception raised while starting the process propagates; otherwise returns the chosen id, an error exactly on a non-zero exit, the prefix on success, and outputs cut to 4000 |
| Handler.ReplyEchoesJobId | handler.py:83-98 | a payload's own job id comes back in every reply of a run that started |
| Pipeline.WorkerLoadsUploadedManifest | cap_flow_orchestrator/worker.py:166-171 | for every prefix the CLI accepts, the manifest stored at the CLI's manifest key is the one the worker loads |
| Pipeline.WorkerPrefixAcceptedByCli | cap_flow_orchestrator/worker.py:96-99 | the output prefix the worker builds is accepted by the CLI, with the configured bucket |

## Left out

- S3, MongoDB and HTTP calls (list, get, put, download, presign, `count_documents`, `find_one_and_update`, `update_one`, `requests.post`) are parameters or class state: pages of keys, a map of stored objects, an injected client error, the pod's reply, and the post-update error.
- The watcher thread, the poll and dispatch `while True` loops, sleeps and reconnects are left out. One event, one dispatch and one key are modelled. Concurrent dispatchers are not modelled; the claim is one atomic step.
- ffmpeg, `process_video` and `sanitize_filename` are not part of this model. `sanitize` is an uninterpreted function parameter. `_prepare_input` records which conversion it makes. `_create_hls_outputs` records its ffmpeg command and the files it writes.
- `main` of `cli_run.py` is modelled only for its language save and restore. Its failure exits, its HLS "video not found" exit and its printing are not modelled.
- The uuid, timestamps and directory mtimes are parameters. mtimes are integers rather than floats.
- Environment loading (`from_env`, dotenv, `_env`) is left out. Settings are immutable records, and the handler's environment is a map.
- `str(exc)` of an exception is a parameter (`WorkerOutcome`, `RunOutcome`, `Subprocess`).
- The `int()` conversion of a marker's `retries` is not modelled: retries are integers. A non-string marker status is not modelled: statuses are optional strings.
- `str.lower` is modelled for ASCII letters only.
- Payload, reply and marker values are JSON scalars (null, booleans, integers, strings). Floats, lists and objects are not modelled; for example, `"hls_segment": 6.5` cannot be expressed.
- `urlparse` is modelled as the subset used: scheme, netloc and path.
- `_iter_output_files` is the sequence `rels` of relative paths, in walk order. `Path.exists` is membership in a set of paths.
- A relative path that is absolute replaces the directory, as `pathlib` does. Absolute relative paths from listings are not otherwise guarded.
- Download errors of `_download_hls_to_local` are not modelled.
- S3Poller.ProcessingsBounded: holds only for polls whose runs end with an exit status. A run that raises anything else (an `OSError` from `subprocess.run`, a download error, a failed marker write) leaves the marker unchanged, and the key is processed again on every poll, as `S3Poller.RaisingRunsReprocessEveryPoll` shows; `poll_loop` then also skips that poll's remaining keys, which is not modelled.
- S3Poller.RetriesAfterFirstFailure: the `max_retries - 1` bound holds only for polls whose runs end with an exit status; a run that raises leaves the marker unchanged and the key is reprocessed on every poll.
- `healthcheck` and the web-framework wiring are left out.
- The `Argv` reader takes a flag's value from its first occurrence; `argparse` keeps the last. Every command builder passes each flag at most once, so the two agree on every command modelled.
- The `Argv` reader knows only the full flag words. Abbreviated flags and `--flag=value` are not modelled; no command builder emits them.
- The `Argv` test for a plain value is a sufficient condition only. `argparse` also takes some other words starting with '-' as values, such as words holding a space.
- Server.ValidateRequest: reports failing fields by name. It does not model pydantic's messages, its type coercion or its missing-field errors.
- Handler.Handle: renders non-string payload values with `str()`. There `subprocess.run` would raise `TypeError` for them.
- CliRun.ConfigStore.UpdateLanguages: requires both language keys to be present. `load_key` on a missing key is not modelled.
- Worker.LoadManifest: a manifest that does not parse as JSON is the stored `Err`. The manifest's other JSON keys are not modelled.
- Worker.LoadManifest: a missing object fails with S3's standard `NoSuchKey` message; a server that words the message differently is not modelled.

## Findings

| source | as written | input that shows it | evidently intended | confidence | as-written member | corrected member |
|---|---|---|---|---|---|---|
| server.py:71-72 | an `s3://` value has its trailing '/' stripped and is accepted whatever remains | `s3_output_prefix = "s3://"` is accepted as "s3:". That has no bucket: the CLI refuses it after processing, and `output_bucket` raises `IndexError` | an `s3://` value must still name a bucket | not executed | Server.NormalizePrefixAsWritten, Server.BarePrefixAcceptedAsWritten | Server.NormalizePrefix, Server.NormalizedPrefixIsUsable, Server.ValidatedPrefixUsable |
| cli_run.py:222 | manifest values strip the trailing '/' from the prefix, but upload keys keep the parsed key prefix as is | `s3://b/out/` with `trans.srt`: the object goes to key `out//trans.srt`, but the manifest names `s3://b/out/trans.srt` | each manifest locator names the object that was uploaded | not executed | CliRun.ManifestValueAsWritten, CliRun.ManifestMissesUploadedObject | CliRun.ManifestValue, CliRun.UploadedManifest, CliRun.ManifestNamesUploadedObjects |
| s3_poller.py:151 | the playlist prefix is the text before the last '/' plus '/'; for a key with no '/' that is the key itself plus '/' | key `show.m3u8` gives prefix `show.m3u8/`. Nothing is listed under it, so the playlist passed to the CLI is never staged | a key at the bucket root has the empty prefix | not executed | S3Poller.PlaylistPrefixAsWritten, S3Poller.PlaylistAtRootNeverStaged | S3Poller.PlaylistPrefix, S3Poller.PlaylistStagedWhereReturned |
