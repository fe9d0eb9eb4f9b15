/**
 * The S3 poller of `s3_poller.py`: list the `.m3u8` keys under the input
 * prefix page by page, derive a job id from each key, and let a marker
 * object per job id decide whether the key is processed, skipped or retried.
 * Processing stages the playlist's directory locally, runs `cli_run.py` and
 * writes the marker back with its retry counter.
 *
 * S3 is the marker store (a map from marker key to marker document) plus
 * the listing pages and fetch outcomes passed in; the subprocess outcome and
 * the timestamp are parameters.
 */
module S3Poller {
  import opened Wrappers
  import opened Text
  import opened S3Uri
  import opened PosixPath
  import opened Argv

  /** The fields of the poller's `Settings` the modelled code reads; `stagingDir` is already resolved. */
  datatype Settings = Settings(
    inputBucket: string,
    inputPrefix: string,
    outputBucket: string,
    outputRoot: string,
    markerPrefix: string,
    stagingDir: string,
    sourceLang: Option<string>,
    targetLang: Option<string>,
    hlsSegment: int,
    retryFailed: bool,
    maxRetries: int)

  /** One `list_objects_v2` response: the object keys in order and `IsTruncated`. */
  datatype Page = Page(contents: seq<string>, isTruncated: bool)

  /** Index of the first page that is not truncated, or `|pages|`. */
  function FinalPage(pages: seq<Page>): (r: nat)
    ensures r <= |pages|
    ensures forall j :: 0 <= j < r ==> pages[j].isTruncated
    ensures r < |pages| ==> !pages[r].isTruncated
  {
    if pages == [] || !pages[0].isTruncated then 0 else 1 + FinalPage(pages[1..])
  }

  /** The pages a listing loop reads: every page up to and including the first one not truncated. */
  function Listed(pages: seq<Page>): (r: seq<Page>)
    ensures |r| <= |pages| && r == pages[..|r|]
    ensures forall j :: 0 <= j < |r| - 1 ==> r[j].isTruncated
    ensures |r| < |pages| ==> |r| > 0 && !r[|r| - 1].isTruncated
  {
    var f := FinalPage(pages);
    if f < |pages| then pages[..f + 1] else pages
  }

  predicate IsPlaylist(key: string) {
    EndsWith(key, ".m3u8")
  }

  /** The keys of one page ending in ".m3u8", in order. */
  function Playlists(keys: seq<string>): (r: seq<string>)
    ensures |r| <= |keys|
    ensures forall k :: k in r <==> k in keys && IsPlaylist(k)
  {
    if keys == [] then []
    else
      var init := keys[..|keys| - 1];
      assert keys == init + [keys[|keys| - 1]];
      Playlists(init) + (if IsPlaylist(keys[|keys| - 1]) then [keys[|keys| - 1]] else [])
  }

  /** The playlist keys of a run of pages, page after page. */
  function KeysOf(pages: seq<Page>): seq<string> {
    if pages == [] then [] else KeysOf(pages[..|pages| - 1]) + Playlists(pages[|pages| - 1].contents)
  }

  /** A key is listed exactly when it is a playlist key on one of the pages. */
  lemma {:induction false} KeysOfMembers(pages: seq<Page>, k: string)
    ensures k in KeysOf(pages) <==> IsPlaylist(k) && exists j :: 0 <= j < |pages| && k in pages[j].contents
  {
    if pages != [] {
      var n := |pages|;
      var init := pages[..n - 1];
      KeysOfMembers(init, k);
      assert KeysOf(pages) == KeysOf(init) + Playlists(pages[n - 1].contents);
      if k in KeysOf(pages) {
        if k in KeysOf(init) {
          var j :| 0 <= j < |init| && k in init[j].contents;
          assert pages[j] == init[j];
        } else {
          assert k in pages[n - 1].contents;
        }
      }
      if IsPlaylist(k) && exists j :: 0 <= j < n && k in pages[j].contents {
        var j :| 0 <= j < n && k in pages[j].contents;
        if j < n - 1 {
          assert init[j] == pages[j];
        } else {
          assert k in Playlists(pages[n - 1].contents);
        }
      }
    }
  }

  /** One page of the listing loop: its playlist keys in order. */
  method PagePlaylists(contents: seq<string>) returns (found: seq<string>)
    ensures found == Playlists(contents)
  {
    found := [];
    var j := 0;
    while j < |contents|
      invariant 0 <= j <= |contents|
      invariant found == Playlists(contents[..j])
    {
      var key := contents[j];
      if IsPlaylist(key) {
        found := found + [key];
      }
      j := j + 1;
      assert contents[..j][..j - 1] == contents[..j - 1];
    }
    assert contents[..j] == contents;
  }

  /**
   * `_list_m3u8_keys`: the keys ending in ".m3u8" of the pages read, in page
   * order, and their number.
   */
  method ListM3u8Keys(pages: seq<Page>) returns (keys: seq<string>, total: nat)
    ensures keys == KeysOf(Listed(pages)) && total == |keys|
  {
    keys, total := [], 0;
    var i := 0;
    var truncated := true;
    while truncated && i < |pages|
      invariant 0 <= i <= |pages|
      invariant truncated ==> i <= FinalPage(pages)
      invariant !truncated ==> i == FinalPage(pages) + 1
      invariant keys == KeysOf(pages[..i]) && total == |keys|
    {
      var found := PagePlaylists(pages[i].contents);
      keys := keys + found;
      total := total + |found|;
      assert pages[..i + 1][..i] == pages[..i];
      truncated := pages[i].isTruncated;
      i := i + 1;
    }
    assert pages[..i] == Listed(pages);
  }

  /** The listing yields exactly the ".m3u8" keys of the pages up to the first one not truncated. */
  lemma ListedKeysMembers(pages: seq<Page>, k: string)
    ensures k in KeysOf(Listed(pages)) <==>
      IsPlaylist(k) && exists j :: 0 <= j < |pages| && j <= FinalPage(pages) && k in pages[j].contents
  {
    KeysOfMembers(Listed(pages), k);
    var l := Listed(pages);
    assert forall j :: 0 <= j < |l| ==> l[j] == pages[j];
  }

  /** The key with every '/' and ' ' turned into '_'. */
  function Safe(key: string): (r: string)
    ensures |r| == |key| && '/' !in r && ' ' !in r
    ensures forall i :: 0 <= i < |key| ==> r[i] == if key[i] == '/' || key[i] == ' ' then '_' else key[i]
  {
    Replace(Replace(key, '/', '_'), ' ', '_')
  }

  /** `_job_id_from_key`: the safe key up to its last ".m3u8", or all of it when there is none. */
  function JobIdFromKey(key: string): (r: string)
    ensures '/' !in r && ' ' !in r
    ensures StartsWith(Safe(key), r)
    ensures RFind(Safe(key), ".m3u8").None? ==> r == Safe(key)
  {
    var safe := Safe(key);
    var r := BeforeLast(safe, ".m3u8");
    assert forall i :: 0 <= i < |r| ==> r[i] == safe[i];
    r
  }

  /** A key ending in ".m3u8" has the safe form of what precedes it as job id. */
  lemma JobIdOfPlaylist(stem: string)
    ensures JobIdFromKey(stem + ".m3u8") == Safe(stem)
  {
    SafeConcat(stem, ".m3u8");
    SafeKeeps(".m3u8");
    BeforeLastAtEnd(Safe(stem), ".m3u8");
  }

  /** Making a key safe works character by character, so it distributes over concatenation. */
  lemma SafeConcat(a: string, b: string)
    ensures Safe(a + b) == Safe(a) + Safe(b)
  {
    var ab, sa, sb := a + b, Safe(a), Safe(b);
    var l, r := Safe(ab), sa + sb;
    assert |l| == |r|;
    forall i | 0 <= i < |l|
      ensures l[i] == r[i]
    {
      if i < |a| {
        assert ab[i] == a[i] && r[i] == sa[i];
      } else {
        assert ab[i] == b[i - |a|] && r[i] == sb[i - |a|];
      }
    }
  }

  /** A text with no '/' and no ' ' is already safe. */
  lemma SafeKeeps(s: string)
    requires '/' !in s && ' ' !in s
    ensures Safe(s) == s
  {
  }

  /** Different keys can share a job id, and then share one marker: "a/b.m3u8" and "a_b.m3u8". */
  lemma JobIdsCollide()
    ensures JobIdFromKey("a/b.m3u8") == JobIdFromKey("a_b.m3u8") == "a_b"
  {
    JobIdOfNestedKey();
    JobIdOfFlatKey();
  }

  lemma JobIdOfNestedKey()
    ensures JobIdFromKey("a/b.m3u8") == "a_b"
  {
    JobIdOfPlaylist("a/b");
    assert "a/b" + ".m3u8" == "a/b.m3u8";
    var s := Safe("a/b");
    assert s[0] == 'a' && s[1] == '_' && s[2] == 'b';
    assert s == "a_b";
  }

  lemma JobIdOfFlatKey()
    ensures JobIdFromKey("a_b.m3u8") == "a_b"
  {
    JobIdOfPlaylist("a_b");
    assert "a_b" + ".m3u8" == "a_b.m3u8";
    var s := Safe("a_b");
    assert s[0] == 'a' && s[1] == '_' && s[2] == 'b';
    assert s == "a_b";
  }

  /** `_marker_key`: `<marker prefix without trailing '/'>/<job id>.json`. */
  function MarkerKey(settings: Settings, jobId: string): (r: string)
    ensures EndsWith(r, jobId + ".json")
  {
    RStrip(settings.markerPrefix, '/') + "/" + jobId + ".json"
  }

  /** Different job ids have different markers. */
  lemma MarkerKeyInjective(settings: Settings, id1: string, id2: string)
    requires MarkerKey(settings, id1) == MarkerKey(settings, id2)
    ensures id1 == id2
  {
    var lead := RStrip(settings.markerPrefix, '/') + "/";
    assert MarkerKey(settings, id1) == lead + (id1 + ".json");
    assert MarkerKey(settings, id2) == lead + (id2 + ".json");
    assert id1 + ".json" == (lead + (id1 + ".json"))[|lead|..];
    assert id2 + ".json" == (lead + (id2 + ".json"))[|lead|..];
    assert id1 == (id1 + ".json")[..|id1|];
  }

  /** `_output_prefix`: `s3://<output bucket>/<output root without trailing '/'>/<job id>`. */
  function OutputPrefix(settings: Settings, jobId: string): (r: string)
    ensures StartsWith(r, "s3://" + settings.outputBucket + "/") && EndsWith(r, "/" + jobId)
  {
    Location(settings.outputBucket, RStrip(settings.outputRoot, '/') + "/" + jobId)
  }

  /** Different job ids have different output prefixes. */
  lemma OutputPrefixInjective(settings: Settings, id1: string, id2: string)
    requires OutputPrefix(settings, id1) == OutputPrefix(settings, id2)
    ensures id1 == id2
  {
    var lead := "s3://" + settings.outputBucket + "/" + RStrip(settings.outputRoot, '/') + "/";
    assert OutputPrefix(settings, id1) == lead + id1;
    assert OutputPrefix(settings, id2) == lead + id2;
    assert id1 == (lead + id1)[|lead|..];
    assert id2 == (lead + id2)[|lead|..];
  }

  /**
   * A marker document as the modelled code sees it: the keys it reads or
   * writes, each absent (`None`) or present, and how many other keys it has.
   * `retries` is the value `int()` makes of the stored one.
   */
  datatype Marker = Marker(
    status: Option<string>,
    retries: Option<int>,
    inputKey: Option<string>,
    outputPrefix: Option<string>,
    error: Option<string>,
    timestamp: Option<string>,
    otherKeys: nat)

  /** `if marker:`: a marker was found and it is a non-empty document. */
  predicate Present(m: Option<Marker>)
    ensures Present(m) <==> m.Some? && m.value != Marker(None, None, None, None, None, None, 0)
  {
    m.Some? && (m.value.status.Some? || m.value.retries.Some? || m.value.inputKey.Some? || m.value.outputPrefix.Some?
                || m.value.error.Some? || m.value.timestamp.Some? || m.value.otherKeys > 0)
  }

  /** `int(marker.get("retries", 0))`. */
  function Retries(m: Marker): (r: int)
    ensures m.retries.None? ==> r == 0
    ensures m.retries.Some? ==> r == m.retries.value
  {
    if m.retries.Some? then m.retries.value else 0
  }

  /** What `get_object` gave for the marker key: a parsed body, or a `ClientError` with its code. */
  datatype Fetch = Body(doc: Marker) | ClientError(code: string)

  /** `_get_marker`: a 404 or `NoSuchKey` means no marker; any other client error is raised. */
  function GetMarker(f: Fetch): (r: Result<Option<Marker>, string>)
    ensures f.Body? ==> r == Ok(Some(f.doc))
    ensures f.ClientError? ==> (r == Ok(None) <==> f.code == "404" || f.code == "NoSuchKey")
    ensures f.ClientError? ==> (r.Err? <==> f.code != "404" && f.code != "NoSuchKey")
    ensures r.Err? ==> r.error == f.code
  {
    match f
    case Body(doc) => Ok(Some(doc))
    case ClientError(code) => if code in {"404", "NoSuchKey"} then Ok(None) else Err(code)
  }

  /**
   * The decision of `process_key`: no marker means process; a completed
   * marker means skip; a failed one is retried only while retries are on and
   * under the maximum; any other status is skipped.
   */
  function ShouldProcess(m: Option<Marker>, settings: Settings): (r: bool)
    ensures !Present(m) ==> r
    ensures Present(m) && m.value.status == Some("completed") ==> !r
    ensures Present(m) && m.value.status == Some("failed") ==>
      (r <==> settings.retryFailed && Retries(m.value) < settings.maxRetries)
    ensures Present(m) && m.value.status != Some("completed") && m.value.status != Some("failed") ==> !r
  {
    if !Present(m) then true
    else if m.value.status == Some("completed") then false
    else if m.value.status == Some("failed") then settings.retryFailed && Retries(m.value) < settings.maxRetries
    else false
  }

  /** How `subprocess.run(cmd, check=True)` ended: exit status 0, `CalledProcessError`, or another exception. */
  datatype RunOutcome = Succeeded | CalledProcessError(message: string) | OtherError(message: string)

  /**
   * The marker `_write_marker` stores after a run. On success it says
   * completed and carries the output prefix; on a non-zero exit it says
   * failed and carries the error. The retry counter is the previous one plus
   * one when a marker was present, else 0 on success and 1 on failure.
   */
  function NextMarker(m: Option<Marker>, key: string, settings: Settings, run: RunOutcome, timestamp: string): (r: Marker)
    requires !run.OtherError?
    ensures r.status == Some(if run.Succeeded? then "completed" else "failed")
    ensures r.retries.Some? && Retries(r) == if Present(m) then Retries(m.value) + 1 else if run.Succeeded? then 0 else 1
    ensures r.inputKey == Some(key) && r.timestamp == Some(timestamp) && r.otherKeys == 0
    ensures r.outputPrefix.Some? <==> run.Succeeded?
    ensures r.error.Some? <==> !run.Succeeded?
    ensures run.Succeeded? ==> r.outputPrefix == Some(OutputPrefix(settings, JobIdFromKey(key)))
    ensures !run.Succeeded? ==> r.error == Some(run.message)
    ensures Present(Some(r))
  {
    var previous := if Present(m) then Retries(m.value) + 1 else if run.Succeeded? then 0 else 1;
    if run.Succeeded? then
      Marker(Some("completed"), Some(previous), Some(key), Some(OutputPrefix(settings, JobIdFromKey(key))), None, Some(timestamp), 0)
    else
      Marker(Some("failed"), Some(previous), Some(key), None, Some(run.message), Some(timestamp), 0)
  }

  function Max(a: int, b: int): int {
    if a >= b then a else b
  }

  /**
   * How many more times the key behind marker `m` can be processed: once,
   * plus the retries of a failure, when there is no marker; the retries left
   * for a failed marker when retries are on; none otherwise.
   */
  function Budget(settings: Settings, m: Option<Marker>): int {
    if !Present(m) then (if settings.retryFailed then Max(1, settings.maxRetries) else 1)
    else if m.value.status == Some("failed") && settings.retryFailed then Max(0, settings.maxRetries - Retries(m.value))
    else 0
  }

  /**
   * The number of polls, out of a series with these run outcomes, that
   * process the key. A run that raises something other than
   * `CalledProcessError` writes no marker, so the next poll sees the same one.
   */
  function Processings(settings: Settings, key: string, m: Option<Marker>, runs: seq<RunOutcome>, timestamp: string): nat
    decreases |runs|
  {
    if runs == [] then 0
    else if ShouldProcess(m, settings) then
      var next := if runs[0].OtherError? then m else Some(NextMarker(m, key, settings, runs[0], timestamp));
      1 + Processings(settings, key, next, runs[1..], timestamp)
    else Processings(settings, key, m, runs[1..], timestamp)
  }

  /**
   * Reprocessing is bounded: over any series of polls whose runs end in an
   * exit status, a key is processed at most `Budget` times.
   */
  lemma {:induction false} ProcessingsBounded(settings: Settings, key: string, m: Option<Marker>, runs: seq<RunOutcome>, timestamp: string)
    requires forall i :: 0 <= i < |runs| ==> !runs[i].OtherError?
    ensures Processings(settings, key, m, runs, timestamp) <= Budget(settings, m)
    decreases |runs|
  {
    if runs != [] {
      if ShouldProcess(m, settings) {
        var next := NextMarker(m, key, settings, runs[0], timestamp);
        ProcessingsBounded(settings, key, Some(next), runs[1..], timestamp);
      } else {
        ProcessingsBounded(settings, key, m, runs[1..], timestamp);
      }
    }
  }

  /** With retries off, a key whose marker says failed is never processed again, however its runs would end. */
  lemma {:induction false} FailedStaysFailedWithoutRetry(settings: Settings, key: string, m: Marker, runs: seq<RunOutcome>, timestamp: string)
    requires !settings.retryFailed && m.status == Some("failed")
    ensures Processings(settings, key, Some(m), runs, timestamp) == 0
    decreases |runs|
  {
    if runs != [] {
      FailedStaysFailedWithoutRetry(settings, key, m, runs[1..], timestamp);
    }
  }

  /**
   * The bound needs runs that end in an exit status: while the runs raise,
   * a key that is due is processed on every poll.
   */
  lemma {:induction false} RaisingRunsReprocessEveryPoll(settings: Settings, key: string, m: Option<Marker>, runs: seq<RunOutcome>, timestamp: string)
    requires ShouldProcess(m, settings)
    requires forall i :: 0 <= i < |runs| ==> runs[i].OtherError?
    ensures Processings(settings, key, m, runs, timestamp) == |runs|
    decreases |runs|
  {
    if runs != [] {
      RaisingRunsReprocessEveryPoll(settings, key, m, runs[1..], timestamp);
    }
  }

  /** A key without a marker whose runs keep raising is processed more often than its budget allows. */
  lemma UnmarkedRaisingKeyExceedsBudget(settings: Settings, key: string, message: string, timestamp: string)
    ensures var runs := seq(Budget(settings, None) + 1, _ => OtherError(message));
      Processings(settings, key, None, runs, timestamp) > Budget(settings, None)
  {
    var runs := seq(Budget(settings, None) + 1, _ => OtherError(message));
    RaisingRunsReprocessEveryPoll(settings, key, None, runs, timestamp);
  }

  /** After a first failure, a key is processed again at most `max_retries - 1` times (and never a negative number). */
  lemma RetriesAfterFirstFailure(settings: Settings, key: string, message: string, runs: seq<RunOutcome>, timestamp: string)
    requires forall i :: 0 <= i < |runs| ==> !runs[i].OtherError?
    ensures var first := NextMarker(None, key, settings, CalledProcessError(message), timestamp);
      Processings(settings, key, Some(first), runs, timestamp) <= Max(0, settings.maxRetries - 1)
  {
    var first := NextMarker(None, key, settings, CalledProcessError(message), timestamp);
    ProcessingsBounded(settings, key, Some(first), runs, timestamp);
  }

  /** `key.rsplit("/", 1)[0] + "/"`, the listing prefix `_download_hls_to_local` uses. */
  function PlaylistPrefixAsWritten(key: string): (r: string)
    ensures r != [] && r[|r| - 1] == '/'
    ensures '/' !in key ==> r == key + "/"
  {
    BeforeLast(key, "/") + "/"
  }

  /**
   * For a key at the root of the bucket the prefix is the key itself plus
   * '/': the key does not start with it, and its relative path is empty, so
   * the download loop skips it.
   */
  lemma PlaylistAtRootNeverStaged()
    ensures PlaylistPrefixAsWritten("show.m3u8") == "show.m3u8/"
    ensures !StartsWith("show.m3u8", PlaylistPrefixAsWritten("show.m3u8"))
    ensures RelativeKey("show.m3u8", PlaylistPrefixAsWritten("show.m3u8")) == ""
  {
    var key := "show.m3u8";
    forall j ensures !OccursAt(key, "/", j) {
      if 0 <= j < |key| {
        assert key[j..j + 1] == [key[j]];
      }
    }
  }

  /** The directory part of a key, up to and including its last '/', or "" for a key with none. */
  function PlaylistPrefix(key: string): (r: string)
    ensures StartsWith(key, r)
    ensures r == [] || r[|r| - 1] == '/'
    ensures '/' !in key[|r|..]
  {
    match RFind(key, "/")
    case Some(i) =>
      assert key[i..i + 1] == "/";
      assert forall j :: i < j < |key| ==> key[j] != '/' by {
        forall j | i < j < |key| ensures key[j] != '/' {
          assert key[j..j + 1] == [key[j]];
          assert !OccursAt(key, "/", j);
        }
      }
      key[..i + 1]
    case None =>
      assert forall j :: 0 <= j < |key| ==> key[j] != '/' by {
        forall j | 0 <= j < |key| ensures key[j] != '/' {
          assert key[j..j + 1] == [key[j]];
          assert !OccursAt(key, "/", j);
        }
      }
      ""
  }

  /** Where the key has a '/', the written prefix and the directory part agree. */
  lemma PlaylistPrefixAgrees(key: string)
    requires '/' in key
    ensures PlaylistPrefixAsWritten(key) == PlaylistPrefix(key)
  {
    var k :| 0 <= k < |key| && key[k] == '/';
    assert OccursAt(key, "/", k) by { assert key[k..k + 1] == [key[k]]; }
    var i := RFind(key, "/").value;
    assert key[i..i + 1] == "/";
    assert key[..i] + "/" == key[..i + 1];
  }

  /** `src_key[len(playlist_prefix):]`. */
  function RelativeKey(srcKey: string, prefix: string): (r: string)
    ensures StartsWith(srcKey, prefix) ==> srcKey == prefix + r
    ensures |prefix| <= |srcKey| ==> |r| == |srcKey| - |prefix| && EndsWith(srcKey, r)
    ensures |prefix| > |srcKey| ==> r == ""
  {
    if |prefix| <= |srcKey| then srcKey[|prefix|..] else ""
  }

  /** The (source key, local path) pairs the download loop copies for one page. */
  function StagedOf(keys: seq<string>, prefix: string, destDir: string): (r: seq<(string, string)>)
    ensures forall i :: 0 <= i < |r| ==> r[i].0 in keys && RelativeKey(r[i].0, prefix) != ""
                                          && r[i].1 == JoinPath(destDir, RelativeKey(r[i].0, prefix))
  {
    if keys == [] then []
    else
      var init := keys[..|keys| - 1];
      var last := keys[|keys| - 1];
      assert keys == init + [last];
      var rel := RelativeKey(last, prefix);
      StagedOf(init, prefix, destDir) + (if rel != "" then [(last, JoinPath(destDir, rel))] else [])
  }

  /** Every key with a non-empty relative path is copied. */
  lemma {:induction false} StagedOfCovers(keys: seq<string>, prefix: string, destDir: string, k: string)
    requires k in keys && RelativeKey(k, prefix) != ""
    ensures (k, JoinPath(destDir, RelativeKey(k, prefix))) in StagedOf(keys, prefix, destDir)
  {
    var init := keys[..|keys| - 1];
    var last := keys[|keys| - 1];
    assert keys == init + [last];
    if k != last {
      StagedOfCovers(init, prefix, destDir, k);
    }
  }

  /** The staged files of a run of pages, page after page. */
  function Staged(pages: seq<Page>, prefix: string, destDir: string): seq<(string, string)> {
    if pages == [] then []
    else Staged(pages[..|pages| - 1], prefix, destDir) + StagedOf(pages[|pages| - 1].contents, prefix, destDir)
  }

  /** One page of the download loop: the objects it copies, skipping the empty relative path. */
  method StagePage(contents: seq<string>, prefix: string, destDir: string) returns (copied: seq<(string, string)>)
    ensures copied == StagedOf(contents, prefix, destDir)
  {
    copied := [];
    var j := 0;
    while j < |contents|
      invariant 0 <= j <= |contents|
      invariant copied == StagedOf(contents[..j], prefix, destDir)
    {
      var srcKey := contents[j];
      var rel := RelativeKey(srcKey, prefix);
      if rel != "" {
        copied := copied + [(srcKey, JoinPath(destDir, rel))];
      }
      j := j + 1;
      assert contents[..j][..j - 1] == contents[..j - 1];
    }
    assert contents[..j] == contents;
  }

  /**
   * The path logic of `_download_hls_to_local`: every listed object below
   * the playlist's directory, with a non-empty path relative to it, is
   * copied to that path under `<staging dir>/<job id>`; the playlist's local
   * path is returned.
   */
  method DownloadHls(settings: Settings, key: string, jobId: string, pages: seq<Page>)
    returns (staged: seq<(string, string)>, count: nat, playlist: string)
    ensures staged == Staged(Listed(pages), PlaylistPrefixAsWritten(key), JoinPath(settings.stagingDir, jobId))
    ensures count == |staged|
    ensures playlist == JoinPath(JoinPath(settings.stagingDir, jobId), Name(key))
  {
    var prefix := PlaylistPrefixAsWritten(key);
    var destDir := JoinPath(settings.stagingDir, jobId);
    staged, count := [], 0;
    var i := 0;
    var truncated := true;
    while truncated && i < |pages|
      invariant 0 <= i <= |pages|
      invariant truncated ==> i <= FinalPage(pages)
      invariant !truncated ==> i == FinalPage(pages) + 1
      invariant staged == Staged(pages[..i], prefix, destDir) && count == |staged|
    {
      var copied := StagePage(pages[i].contents, prefix, destDir);
      staged := staged + copied;
      count := count + |copied|;
      assert pages[..i + 1][..i] == pages[..i];
      truncated := pages[i].isTruncated;
      i := i + 1;
    }
    assert pages[..i] == Listed(pages);
    playlist := JoinPath(destDir, Name(key));
  }

  /** A playlist key that is listed is staged at exactly the path handed to `cli_run.py`. */
  lemma PlaylistStagedWhereReturned(key: string, destDir: string)
    requires key != [] && key[|key| - 1] != '/'
    ensures RelativeKey(key, PlaylistPrefix(key)) == Name(key) != ""
  {
    var prefix := PlaylistPrefix(key);
    var rel := key[|prefix|..];
    assert rel != [] && rel[|rel| - 1] == key[|key| - 1];
    assert RStrip(key, '/') == key;
    if prefix == [] {
      assert forall j :: !OccursAt(key, "/", j) by {
        forall j | 0 <= j && j + 1 <= |key| ensures !OccursAt(key, "/", j) {
          assert key[j..j + 1] == [key[j]];
          assert key[j] == rel[j];
        }
      }
    } else {
      var i := |prefix| - 1;
      assert OccursAt(key, "/", i) by { assert key[i..i + 1] == [key[i]]; }
      assert forall j :: i < j ==> !OccursAt(key, "/", j) by {
        forall j | i < j && j + 1 <= |key| ensures !OccursAt(key, "/", j) {
          assert key[j..j + 1] == [key[j]];
          assert key[j] == rel[j - |prefix|];
        }
      }
      assert RFind(key, "/") == Some(i);
    }
  }

  /** As written, a playlist below a directory is staged at exactly the path handed to `cli_run.py`. */
  lemma NestedPlaylistStaged(key: string)
    requires '/' in key && key[|key| - 1] != '/'
    ensures RelativeKey(key, PlaylistPrefixAsWritten(key)) == Name(key) != ""
  {
    PlaylistPrefixAgrees(key);
    PlaylistStagedWhereReturned(key, "");
  }

  /** `_build_cli_command` as a list: the fixed arguments, then the language flags whose settings are truthy. */
  function CliCommand(url: string, jobId: string, settings: Settings): (cmd: seq<string>)
    ensures |cmd| == 11 + (if Truthy(settings.sourceLang) then 2 else 0) + (if Truthy(settings.targetLang) then 2 else 0)
    ensures cmd[..4] == ["python", "cli_run.py", "--video_path", url]
    ensures cmd[4] == "--job_id" && cmd[5] == jobId && cmd[6] == "--hls_output"
    ensures cmd[7] == "--hls_segment" && cmd[8] == IntToString(settings.hlsSegment)
    ensures cmd[9] == "--output_s3_prefix" && cmd[10] == OutputPrefix(settings, jobId)
  {
    var fixed := ["python", "cli_run.py", "--video_path", url, "--job_id", jobId, "--hls_output",
                  "--hls_segment", IntToString(settings.hlsSegment), "--output_s3_prefix", OutputPrefix(settings, jobId)];
    var cmd := fixed
      + (if Truthy(settings.sourceLang) then ["--source_lang", settings.sourceLang.value] else [])
      + (if Truthy(settings.targetLang) then ["--target_lang", settings.targetLang.value] else []);
    assert cmd[..11] == fixed;
    cmd
  }

  /** `_build_cli_command`, appending to the list as the source does. */
  method BuildCliCommand(url: string, jobId: string, settings: Settings) returns (cmd: seq<string>)
    ensures cmd == CliCommand(url, jobId, settings)
  {
    cmd := ["python", "cli_run.py", "--video_path", url, "--job_id", jobId, "--hls_output",
            "--hls_segment", IntToString(settings.hlsSegment), "--output_s3_prefix", OutputPrefix(settings, jobId)];
    if Truthy(settings.sourceLang) {
      cmd := cmd + ["--source_lang", settings.sourceLang.value];
    }
    if Truthy(settings.targetLang) {
      cmd := cmd + ["--target_lang", settings.targetLang.value];
    }
  }

  /** The fixed words read back their values whatever options follow them. */
  lemma WordsReadBack(url: string, jobId: string, segment: string, out: string, opts: seq<string>)
    requires url !in Flags && jobId !in Flags && segment !in Flags
    ensures var cmd := ["python", "cli_run.py", "--video_path", url, "--job_id", jobId, "--hls_output",
                        "--hls_segment", segment, "--output_s3_prefix", out] + opts;
      && ArgValue(cmd, "--video_path") == Some(url)
      && ArgValue(cmd, "--job_id") == Some(jobId)
      && ArgValue(cmd, "--hls_segment") == Some(segment)
      && ArgValue(cmd, "--output_s3_prefix") == Some(out)
      && HasFlag(cmd, "--hls_output")
  {
    var fixed := ["python", "cli_run.py", "--video_path", url, "--job_id", jobId, "--hls_output",
                  "--hls_segment", segment, "--output_s3_prefix", out];
    assert "--video_path" in Flags && "--job_id" in Flags && "--hls_segment" in Flags && "--output_s3_prefix" in Flags;
    assert fixed[..2] == ["python", "cli_run.py"];
    ArgValueInFixed(fixed, opts, 2);
    assert fixed[..4] == fixed[..2] + ["--video_path", url];
    ArgValueInFixed(fixed, opts, 4);
    assert fixed[..7] == fixed[..4] + ["--job_id", jobId, "--hls_output"];
    ArgValueInFixed(fixed, opts, 7);
    assert fixed[..9] == fixed[..7] + ["--hls_segment", segment];
    ArgValueInFixed(fixed, opts, 9);
    assert (fixed + opts)[6] == "--hls_output";
  }

  /** The fixed arguments are read back: the playlist, the job id, the segment length and the output prefix. */
  lemma CliCommandFixedReadBack(url: string, jobId: string, settings: Settings)
    requires Plain(url) && Plain(jobId)
    ensures var cmd := CliCommand(url, jobId, settings);
      && ArgValue(cmd, "--video_path") == Some(url)
      && ArgValue(cmd, "--job_id") == Some(jobId)
      && ArgValue(cmd, "--hls_segment") == Some(IntToString(settings.hlsSegment))
      && ArgValue(cmd, "--output_s3_prefix") == Some(OutputPrefix(settings, jobId))
      && HasFlag(cmd, "--hls_output")
  {
    var cmd := CliCommand(url, jobId, settings);
    var seg := IntToString(settings.hlsSegment);
    DecimalIsPlain(seg);
    var out := OutputPrefix(settings, jobId);
    var opts := cmd[11..];
    assert cmd == ["python", "cli_run.py", "--video_path", url, "--job_id", jobId, "--hls_output",
                   "--hls_segment", seg, "--output_s3_prefix", out] + opts;
    WordsReadBack(url, jobId, seg, out, opts);
  }

  /** The fixed words carry none of the optional flags. */
  lemma WordsHaveNoOption(url: string, jobId: string, segment: string, out: string)
    requires Plain(url) && Plain(jobId) && Plain(segment) && Plain(out)
    ensures var fixed := ["python", "cli_run.py", "--video_path", url, "--job_id", jobId, "--hls_output",
                          "--hls_segment", segment, "--output_s3_prefix", out];
      "--source_lang" !in fixed && "--target_lang" !in fixed && "--dubbing" !in fixed
  {
    assert "--source_lang" in Flags && "--target_lang" in Flags && "--dubbing" in Flags;
  }

  /** Each language is read back exactly when its setting is truthy, and no dubbing flag is ever passed. */
  lemma CliCommandLanguagesReadBack(url: string, jobId: string, settings: Settings)
    requires Plain(url) && Plain(jobId)
    requires Truthy(settings.sourceLang) ==> Plain(settings.sourceLang.value)
    requires Truthy(settings.targetLang) ==> Plain(settings.targetLang.value)
    ensures var cmd := CliCommand(url, jobId, settings);
      && (ArgValue(cmd, "--source_lang") == if Truthy(settings.sourceLang) then settings.sourceLang else None)
      && (ArgValue(cmd, "--target_lang") == if Truthy(settings.targetLang) then settings.targetLang else None)
      && !HasFlag(cmd, "--dubbing")
  {
    var seg := IntToString(settings.hlsSegment);
    DecimalIsPlain(seg);
    var out := OutputPrefix(settings, jobId);
    assert out[0] == 's';
    WordsHaveNoOption(url, jobId, seg, out);
    var fixed := ["python", "cli_run.py", "--video_path", url, "--job_id", jobId, "--hls_output",
                  "--hls_segment", seg, "--output_s3_prefix", out];
    var source := if Truthy(settings.sourceLang) then settings.sourceLang.value else "";
    var target := if Truthy(settings.targetLang) then settings.targetLang.value else "";
    assert Plain("");
    OptionsReadBack(fixed, Truthy(settings.sourceLang), source, Truthy(settings.targetLang), target, false);
    var src := if Truthy(settings.sourceLang) then ["--source_lang", source] else [];
    var tgt := if Truthy(settings.targetLang) then ["--target_lang", target] else [];
    assert CliCommand(url, jobId, settings) == fixed + src + tgt + [];
  }

  /** What `process_key` did with one key. */
  datatype KeyResult =
    | Skipped
    | Processed(staged: seq<(string, string)>, cmd: seq<string>, succeeded: bool)
    | Raised(message: string)

  /** The markers in the output bucket, keyed by marker key. */
  class MarkerStore {
    var markers: map<string, Marker>

    constructor (markers0: map<string, Marker>)
      ensures markers == markers0
    {
      markers := markers0;
    }

    /** `get_object` on a marker key: the stored document, `NoSuchKey`, or the injected client error. */
    function FetchMarker(markerKey: string, fault: Option<string>): (f: Fetch)
      reads this
      ensures fault.None? ==> (f.Body? <==> markerKey in markers)
      ensures f.Body? ==> markerKey in markers && f.doc == markers[markerKey]
    {
      if fault.Some? then ClientError(fault.value)
      else if markerKey in markers then Body(markers[markerKey])
      else ClientError("NoSuchKey")
    }

    /**
     * `process_key`. `fault` is a client error the marker read may raise,
     * `listing` the pages listed under the playlist's directory, `run` how
     * the `cli_run.py` subprocess ends and `timestamp` the time written.
     * Only the key's own marker may change, and only after a run that ends
     * with an exit status.
     */
    method ProcessKey(key: string, settings: Settings, fault: Option<string>, listing: seq<Page>, run: RunOutcome, timestamp: string)
      returns (result: KeyResult)
      modifies this
      ensures var jobId := JobIdFromKey(key);
        var markerKey := MarkerKey(settings, jobId);
        var got := GetMarker(old(FetchMarker(markerKey, fault)));
        && (got.Err? ==> result == Raised(got.error) && markers == old(markers))
        && (got.Ok? && !ShouldProcess(got.value, settings) ==> result == Skipped && markers == old(markers))
        && (got.Ok? && ShouldProcess(got.value, settings) && run.OtherError? ==>
              result == Raised(run.message) && markers == old(markers))
        && (got.Ok? && ShouldProcess(got.value, settings) && !run.OtherError? ==>
              && markers == old(markers)[markerKey := NextMarker(got.value, key, settings, run, timestamp)]
              && result.Processed? && result.succeeded == run.Succeeded?
              && result.staged == Staged(Listed(listing), PlaylistPrefixAsWritten(key), JoinPath(settings.stagingDir, jobId))
              && result.cmd == CliCommand(JoinPath(JoinPath(settings.stagingDir, jobId), Name(key)), jobId, settings))
    {
      var jobId := JobIdFromKey(key);
      var markerKey := MarkerKey(settings, jobId);
      var got := GetMarker(FetchMarker(markerKey, fault));
      if got.Err? {
        return Raised(got.error);
      }
      var marker := got.value;
      if !ShouldProcess(marker, settings) {
        return Skipped;
      }
      var staged, _, playlist := DownloadHls(settings, key, jobId, listing);
      var cmd := BuildCliCommand(playlist, jobId, settings);
      if run.OtherError? {
        return Raised(run.message);
      }
      markers := markers[markerKey := NextMarker(marker, key, settings, run, timestamp)];
      result := Processed(staged, cmd, run.Succeeded?);
    }
  }
}
