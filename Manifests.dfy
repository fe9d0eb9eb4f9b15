/** The `manifest.json` document the job runner uploads and the orchestrator reads back. */
module Manifests {

  /** `{job_id, status, output_root, files: {artifact name: s3 location}}`. */
  datatype Manifest = Manifest(jobId: string, status: string, outputRoot: string, files: map<string, string>)
}
