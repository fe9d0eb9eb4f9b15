/**
 * How the pieces meet: the worker reads the manifest from the place where
 * `cli_run.py` uploads it for the same output prefix.
 */
module Pipeline {
  import opened Wrappers
  import opened S3Uri
  import opened Manifests
  import Worker
  import CliRun

  /**
   * For every output prefix the CLI accepts, storing the manifest at the key
   * `_upload_output_to_s3` uses is enough for `_load_manifest` to return it.
   */
  lemma WorkerLoadsUploadedManifest(outputPrefix: string, m: Manifest,
                                    objects: map<(string, string), Result<Manifest, string>>)
    requires CliRun.ParseS3Prefix(outputPrefix).Ok?
    ensures var (bucket, keyPrefix) := CliRun.ParseS3Prefix(outputPrefix).value;
      Worker.LoadManifest(outputPrefix, objects[(bucket, ObjectKey(keyPrefix, "manifest.json")) := Ok(m)]) == Ok(m)
  {
    var (bucket, keyPrefix) := CliRun.ParseS3Prefix(outputPrefix).value;
    assert Worker.ParseS3Prefix(outputPrefix) == Ok((bucket, keyPrefix));
  }

  /** The output prefix the worker builds for a job is one the CLI accepts, with the configured bucket. */
  lemma WorkerPrefixAcceptedByCli(settings: Worker.Settings, jobId: string)
    requires settings.outputBucket != "" && forall ch :: ch in NetlocEnd ==> ch !in settings.outputBucket
    ensures CliRun.ParseS3Prefix(Worker.BuildOutputPrefix(settings, jobId)).Ok?
    ensures CliRun.ParseS3Prefix(Worker.BuildOutputPrefix(settings, jobId)).value.0 == settings.outputBucket
  {
    ParseLocationSome(settings.outputBucket, Worker.OutputKey(settings, jobId));
  }
}
