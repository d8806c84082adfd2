/** The domain types shared by the gateway and the two workers, and the wire
    contract between them. */
module Media {

  datatype Option<+T> = None | Some(value: T)

  newtype byte = x: int | 0 <= x < 256
  type Bytes = seq<byte>

  /** A job id: a UUID in its text form. Only equality matters, except in module
      Keys, which needs that a UUID holds no slash. */
  type JobId = string

  datatype Kind = Image | Ocr

  datatype Status = Pending | Processing | Completed | Failed

  /** Routing key of a kind on the jobs exchange. */
  function RoutingKey(kind: Kind): string {
    match kind
    case Ocr => "ocr.extract"
    case Image => "image.process"
  }

  /** Optional per-job overrides; a zero or empty field means "use the default". */
  datatype Params = Params(
    resizeMaxDim: int, thumbnailSize: int, resizeFormat: string, quality: int, blurSigma: real)

  /** Object-store keys. Module Keys gives their text form and shows that distinct
      keys have distinct texts. */
  datatype ObjectKey =
    | UploadKey(job: JobId, file: string)
    | ArtifactKey(job: JobId, file: string)

  /** The body the gateway publishes and the workers decode. */
  datatype Job = Job(
    id: JobId, kind: Kind, sourceKey: ObjectKey, operations: seq<string>, params: Params)

  /** One produced variant, still in a worker's memory. */
  datatype Output = Output(name: string, contentType: string, data: Bytes, meta: map<string, int>)

  /** One row of the artifacts table, without its (job_id, name) key. */
  datatype Artifact = Artifact(key: ObjectKey, contentType: string, size: nat, meta: map<string, int>)

  /** One row of the jobs table. */
  datatype Row = Row(kind: Kind, status: Status, sourceKey: ObjectKey, operations: seq<string>)

  /** A lifecycle event; artifact is empty unless the event announces one. */
  datatype Event = Event(job: JobId, kind: Kind, status: Status, progress: nat, artifact: string)

  /** File name of a produced variant below the job's artifact prefix. */
  function ArtifactFile(kind: Kind, o: Output): string {
    match kind
    case Ocr => "text.txt"
    case Image =>
      if o.contentType == "image/png" then o.name + ".png"
      else if o.contentType == "image/webp" then o.name + ".webp"
      else o.name + ".jpg"
  }

  /** The artifacts row a worker writes for one output. */
  function RowFor(job: Job, o: Output): Artifact {
    Artifact(ArtifactKey(job.id, ArtifactFile(job.kind, o)), o.contentType, |o.data|, o.meta)
  }
}
