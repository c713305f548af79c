/**
  Settings and the project's path layout, as the merger and the training-info
  snapshot receive them, and the remote-prefix conventions built from them.
 */
module Config {

  datatype Option<T> = None | Some(value: T)

  /** The names of the four environment variables that hold one bucket's credentials. */
  datatype BucketSettings = BucketSettings(
    s3Endpoint: string,
    s3AccessKey: string,
    s3SecretKey: string,
    s3BucketName: string)

  datatype S3Settings = S3Settings(
    prefix: string,
    mainBucket: BucketSettings,
    interimBucket: BucketSettings)

  /** The parts of the main settings the core reads: `general.s3_usage` and the
      output model names of the relevance and KPI training steps. */
  datatype MainSettings = MainSettings(
    s3Usage: bool,
    relevanceModelName: string,
    kpiModelName: string)

  /** The local folder layout of one project. */
  datatype ProjectPaths = ProjectPaths(
    projectName: string,
    folderRelevance: string,
    folderText3434: string,
    folderSourceMapping: string,
    folderSourceAnnotation: string,
    folderSourcePdf: string,
    projectModelFolder: string)

  /** `Path(base) / segment` for a segment without separators: an empty part,
      on either side, contributes nothing. */
  function Join(base: string, segment: string): (r: string)
    ensures base == "" ==> r == segment
    ensures segment == "" ==> r == base
    ensures base != "" && segment != "" ==>
              |r| == |base| + 1 + |segment| && r[..|base|] == base && r[|base|] == '/' && r[|base| + 1..] == segment
  {
    if segment == "" then base else if base == "" then segment else base + "/" + segment
  }

  /** Remote prefix the relevance inference outputs are downloaded from. */
  function RelevancePrefix(prefix: string, project: string): (r: string)
    ensures prefix != "" && project != "" ==> r == prefix + "/" + project + "/" + "data" + "/" + "output" + "/" + "RELEVANCE" + "/" + "Text"
    ensures prefix != "" && project == "" ==> r == prefix + "/" + "data" + "/" + "output" + "/" + "RELEVANCE" + "/" + "Text"
    ensures prefix == "" && project != "" ==> r == project + "/" + "data" + "/" + "output" + "/" + "RELEVANCE" + "/" + "Text"
    ensures prefix == "" && project == "" ==> r == "data" + "/" + "output" + "/" + "RELEVANCE" + "/" + "Text"
  {
    Join(Join(Join(Join(Join(prefix, project), "data"), "output"), "RELEVANCE"), "Text")
  }

  /** Remote prefix the merged relevance output is uploaded to. */
  function InterimMlPrefix(prefix: string, project: string): (r: string)
    ensures prefix != "" && project != "" ==> r == prefix + "/" + project + "/" + "data" + "/" + "interim" + "/" + "ml"
    ensures prefix != "" && project == "" ==> r == prefix + "/" + "data" + "/" + "interim" + "/" + "ml"
    ensures prefix == "" && project != "" ==> r == project + "/" + "data" + "/" + "interim" + "/" + "ml"
    ensures prefix == "" && project == "" ==> r == "data" + "/" + "interim" + "/" + "ml"
  {
    Join(Join(Join(Join(prefix, project), "data"), "interim"), "ml")
  }

  /** Remote prefix the training summary is uploaded to. */
  function ModelsPrefix(prefix: string, project: string): (r: string)
    ensures prefix != "" && project != "" ==> r == prefix + "/" + project + "/" + "models"
    ensures prefix != "" && project == "" ==> r == prefix + "/" + "models"
    ensures prefix == "" && project != "" ==> r == project + "/" + "models"
    ensures prefix == "" && project == "" ==> r == "models"
  {
    Join(Join(prefix, project), "models")
  }
}
