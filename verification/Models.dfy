/** The records shared by the API, the SMTP receiver and the worker. */
module Models {
  import opened Text

  /** A UUID, read as a number; its string form is a one-to-one rendering of it. */
  type Uuid = nat

  type Bytes = seq<bv8>

  datatype Option<+T> = None | Some(value: T)

  datatype Result<+T, +E> = Ok(value: T) | Err(error: E)

  datatype MailStatus = Queued | Processing | Sent | Failed | Cancelled

  datatype AttachmentInfo = AttachmentInfo(
    filename: string,
    contentType: string,
    sizeBytes: nat,
    storagePath: string)

  /** Every field of a mail job other than its ID and its retry count. */
  datatype MailContent = MailContent(
    from: string,
    to: seq<string>,
    cc: seq<string>,
    bcc: seq<string>,
    subject: string,
    body: string,
    html: string,
    attachments: seq<AttachmentInfo>,
    metadata: map<string, string>,
    senderConfigId: Option<Uuid>)

  /** The message carried by the queues. */
  datatype MailJob = MailJob(mailId: Uuid, content: MailContent, retryCount: int)

  /** Readable files by path. No file has the empty path. */
  type Disk = d: map<string, Bytes> | "" !in d

  datatype Backend = Graph | SendGrid

  datatype Config = Config(maxRetryCount: int, orgEmailDomain: string, senderConfigService: bool)

  predicate IsOrgSender(cfg: Config, from: string)
  {
    InDomain(from, cfg.orgEmailDomain)
  }
}
