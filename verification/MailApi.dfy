/** The handlers of the HTTP API: single and batch submission, status and cancellation. */
module MailApi {
  import opened Models
  import opened Text
  import opened Routing
  import opened Lifecycle
  import opened StatusReports
  import M = Mime
  import C = SenderConfigs
  import S = Submissions

  datatype SendRequest = SendRequest(
    from: string,
    to: seq<string>,
    cc: seq<string>,
    bcc: seq<string>,
    subject: string,
    body: string,
    html: string,
    attachments: seq<AttachmentRequest>,
    metadata: map<string, string>)

  /** `content` is what the base64 text decodes to, if it does. */
  datatype AttachmentRequest = AttachmentRequest(filename: string, content: Option<Bytes>, contentType: string)

  /** What the surroundings answer while one mail is handled: its new UUID, where a file of a given
      name is stored, which attachments can be written, and which calls to the database, the broker
      and the cache succeed. The errors of the last two, the update of the row to `failed` and the
      cache write, are ignored by the program. */
  datatype World = World(
    mailId: Uuid,
    path: string -> string,
    directoryOk: nat -> bool,
    writeOk: nat -> bool,
    lookupOk: bool,
    createOk: bool,
    publishOk: bool,
    failRowOk: bool,
    cacheOk: bool)

  /** Whether the last, ignored write of a submission succeeds. */
  function LastOk(w: World): bool
  {
    if w.publishOk then w.cacheOk else w.failRowOk
  }

  datatype Rejection =
    | InvalidBase64
    | AttachmentTooLarge
    | StorageError
    | DatabaseError
    | QueueError
    | SenderNotConfigured

  /** What happens to one attachment. */
  function Refusal(maxSizeMb: int, w: World, a: AttachmentRequest, i: nat): Option<Rejection>
  {
    if a.content.None? then Some(InvalidBase64)
    else if (|a.content.value| as real) / 1024.0 / 1024.0 > maxSizeMb as real then Some(AttachmentTooLarge)
    else if !w.directoryOk(i) || !w.writeOk(i) then Some(StorageError)
    else None
  }

  /** The limit is in whole megabytes, compared exactly. */
  lemma SizeLimitIsExact(maxSizeMb: int, size: nat)
    ensures (size as real) / 1024.0 / 1024.0 > maxSizeMb as real <==> size > maxSizeMb * 1024 * 1024
  {
    assert (size as real) / 1024.0 / 1024.0 * 1048576.0 == size as real;
    assert (maxSizeMb as real) * 1048576.0 == (maxSizeMb * 1048576) as real;
  }

  /** The API does not pass the size on. */
  function InfoOf(w: World, a: AttachmentRequest): AttachmentInfo
  {
    AttachmentInfo(a.filename, a.contentType, 0, w.path(a.filename))
  }

  function Infos(w: World, attachments: seq<AttachmentRequest>): (infos: seq<AttachmentInfo>)
    ensures |infos| == |attachments|
    ensures forall i :: 0 <= i < |infos| ==> infos[i] == InfoOf(w, attachments[i])
  {
    seq(|attachments|, i requires 0 <= i < |attachments| => InfoOf(w, attachments[i]))
  }

  /** The job submitted for a request. */
  function JobOf(req: SendRequest, w: World, configId: Option<Uuid>): MailJob
  {
    MailJob(w.mailId,
            MailContent(req.from, req.to, req.cc, req.bcc, req.subject, req.body, req.html,
                        Infos(w, req.attachments), req.metadata, configId),
            0)
  }

  /** The job says what the request says, field by field; entry i has the name and type of attachment
      i and the path it was stored under. */
  predicate SaysTheSame(job: MailJob, req: SendRequest, w: World)
  {
    var c := job.content;
    && job.mailId == w.mailId && job.retryCount == 0
    && c.from == req.from && c.to == req.to && c.cc == req.cc && c.bcc == req.bcc
    && c.subject == req.subject && c.body == req.body && c.html == req.html && c.metadata == req.metadata
    && |c.attachments| == |req.attachments|
    && forall i :: 0 <= i < |c.attachments| ==>
      && c.attachments[i].filename == req.attachments[i].filename
      && c.attachments[i].contentType == req.attachments[i].contentType
      && c.attachments[i].storagePath == w.path(req.attachments[i].filename)
      && c.attachments[i].sizeBytes == 0
  }

  lemma JobSaysTheSame(req: SendRequest, w: World, configId: Option<Uuid>)
    ensures SaysTheSame(JobOf(req, w, configId), req, w)
  {
  }

  // ---- Refusals

  /** An attachment that is no base64 is refused as such; one above the limit, in bytes, as too large;
      one that cannot be written as a storage error; and no other is refused. */
  lemma RefusalIs(maxSizeMb: int, w: World, a: AttachmentRequest, i: nat)
    ensures Refusal(maxSizeMb, w, a, i) == Some(InvalidBase64) <==> a.content.None?
    ensures Refusal(maxSizeMb, w, a, i) == Some(AttachmentTooLarge) <==>
      a.content.Some? && |a.content.value| > maxSizeMb * 1_048_576
    ensures Refusal(maxSizeMb, w, a, i) == Some(StorageError) <==>
      a.content.Some? && |a.content.value| <= maxSizeMb * 1_048_576 && !(w.directoryOk(i) && w.writeOk(i))
    ensures Refusal(maxSizeMb, w, a, i) == None <==>
      a.content.Some? && |a.content.value| <= maxSizeMb * 1_048_576 && w.directoryOk(i) && w.writeOk(i)
  {
    if a.content.Some? {
      SizeLimitIsExact(maxSizeMb, |a.content.value|);
    }
  }

  // ---- Files

  function Paths(w: World, attachments: seq<AttachmentRequest>): (paths: seq<string>)
    ensures |paths| == |attachments|
    ensures forall i :: 0 <= i < |paths| ==> paths[i] == w.path(attachments[i].filename)
  {
    seq(|attachments|, i requires 0 <= i < |attachments| => w.path(attachments[i].filename))
  }

  function Contents(attachments: seq<AttachmentRequest>): (contents: seq<Bytes>)
    ensures |contents| == |attachments|
    ensures forall i :: 0 <= i < |contents| && attachments[i].content.Some? ==> contents[i] == attachments[i].content.value
  {
    seq(|attachments|, i requires 0 <= i < |attachments| =>
      if attachments[i].content.Some? then attachments[i].content.value else [])
  }

  /** The disk after the first n attachments have been written. */
  function Written(disk: map<string, Bytes>, w: World, attachments: seq<AttachmentRequest>, n: nat): map<string, Bytes>
    requires n <= |attachments|
  {
    M.Saves(disk, Paths(w, attachments), Contents(attachments), _ => true, n)
  }

  /** Of the attachments that share a path, the last one is what the senders will read. */
  lemma LastWriteWins(disk: map<string, Bytes>, w: World, attachments: seq<AttachmentRequest>, i: nat)
    requires i < |attachments| && attachments[i].content.Some?
    requires forall j :: i < j < |attachments| ==> w.path(attachments[j].filename) != w.path(attachments[i].filename)
    ensures
      var info := Infos(w, attachments)[i];
      var after := Written(disk, w, attachments, |attachments|);
      info.storagePath in after && after[info.storagePath] == attachments[i].content.value
  {
    M.LastSaveWins(disk, Paths(w, attachments), Contents(attachments), _ => true, |attachments|, i);
  }

  // ---- Results

  /** Attachment i is the first to be refused. */
  predicate RefusedAt(maxSizeMb: int, req: SendRequest, w: World, i: nat, why: Rejection)
  {
    && i < |req.attachments| && Refusal(maxSizeMb, w, req.attachments[i], i) == Some(why)
    && forall j :: 0 <= j < i ==> Refusal(maxSizeMb, w, req.attachments[j], j).None?
  }

  ghost predicate IsFirstRefusal(maxSizeMb: int, req: SendRequest, w: World, why: Rejection)
  {
    exists i: nat :: RefusedAt(maxSizeMb, req, w, i, why)
  }

  predicate AllStored(maxSizeMb: int, req: SendRequest, w: World)
  {
    forall i :: 0 <= i < |req.attachments| ==> Refusal(maxSizeMb, w, req.attachments[i], i).None?
  }

  lemma StoredFits(maxSizeMb: int, req: SendRequest, w: World)
    requires AllStored(maxSizeMb, req, w)
    ensures forall i :: 0 <= i < |req.attachments| ==>
      req.attachments[i].content.Some? && |req.attachments[i].content.value| <= maxSizeMb * 1_048_576
  {
    hide Refusal;
    forall i | 0 <= i < |req.attachments|
      ensures req.attachments[i].content.Some? && |req.attachments[i].content.value| <= maxSizeMb * 1_048_576
    {
      RefusalIs(maxSizeMb, w, req.attachments[i], i);
    }
  }

  lemma RefusedContent(maxSizeMb: int, w: World, a: AttachmentRequest, i: nat)
    requires Refusal(maxSizeMb, w, a, i).None?
    ensures a.content.Some?
  {
  }

  /** Every attachment is stored, the row inserted and the job published. */
  predicate Succeeds(maxSizeMb: int, req: SendRequest, w: World)
  {
    AllStored(maxSizeMb, req, w) && w.createOk && w.publishOk
  }

  /** The batch answers `queued` with the mail's ID, or `failed` with a reason, and with the ID only
      if a row was created. */
  datatype BatchResult = Accepted(mailId: Uuid) | Refused(row: Option<Uuid>, why: Rejection)

  /** How the result of a submission is reported. */
  function ResultOf(r: Option<Rejection>, w: World): BatchResult
  {
    if r.None? then Accepted(w.mailId)
    else Refused(if r.value == QueueError then Some(w.mailId) else None, r.value)
  }

  /** The result says what became of the mail: which of the ways to fail came first, or its ID. */
  ghost predicate Reports(maxSizeMb: int, result: BatchResult, req: SendRequest, w: World)
  {
    match result
    case Accepted(id) => Succeeds(maxSizeMb, req, w) && id == w.mailId
    case Refused(row, why) =>
      if !AllStored(maxSizeMb, req, w) then row.None? && IsFirstRefusal(maxSizeMb, req, w, why)
      else if !w.createOk then row.None? && why == DatabaseError
      else !w.publishOk && row == Some(w.mailId) && why == QueueError
  }

  /** What the records say of a mail once its result is known. An accepted mail reads as queued even
      if the cache write failed; a mail that could not be published reads as failed only if the
      update of its row succeeded, and as queued otherwise. */
  predicate Recorded(result: BatchResult, w: World, rows: map<Uuid, Row>, cache: map<Uuid, CacheEntry>, clientId: string)
  {
    match result
    case Accepted(id) =>
      id in rows && rows[id] == Row(Queued, 0, clientId) && StatusOf(rows, cache, id) == Some(CacheEntry(Queued, 0))
      && (id in cache <==> w.cacheOk)
    case Refused(Some(id), _) =>
      var status := if w.failRowOk then Failed else Queued;
      id in rows && rows[id] == Row(status, 0, clientId) && StatusOf(rows, cache, id) == Some(CacheEntry(status, 0))
    case Refused(None, _) => true
  }

  /** Rows that are created have IDs of their own: the primary key sees to that. */
  predicate DistinctRows(worlds: seq<World>)
  {
    forall i, j :: 0 <= i < j < |worlds| && worlds[i].createOk && worlds[j].createOk ==>
      worlds[i].mailId != worlds[j].mailId
  }

  /** The jobs of the mails that succeed, in the order of the batch. */
  function Successes(maxSizeMb: int, reqs: seq<SendRequest>, worlds: seq<World>): seq<MailJob>
    requires |reqs| == |worlds|
  {
    if reqs == [] then []
    else
      var n := |reqs| - 1;
      Successes(maxSizeMb, reqs[..n], worlds[..n])
      + if Succeeds(maxSizeMb, reqs[n], worlds[n]) then [JobOf(reqs[n], worlds[n], None)] else []
  }

  predicate Same<V(==)>(a: map<Uuid, V>, b: map<Uuid, V>, id: Uuid)
  {
    (id in a <==> id in b) && (id in a ==> a[id] == b[id])
  }

  ghost predicate OnlyTouches<V>(a: map<Uuid, V>, b: map<Uuid, V>, id: Uuid)
  {
    forall x :: x != id ==> Same(a, b, x)
  }

  /** The records of a submission that got as far as creating its row. */
  lemma SubmissionRecorded(r: Option<Rejection>, w: World, clientId: string,
                           rows: map<Uuid, Row>, rows': map<Uuid, Row>,
                           cache: map<Uuid, CacheEntry>, cache': map<Uuid, CacheEntry>)
    requires w.mailId !in cache && r == if w.publishOk then None else Some(QueueError)
    requires rows' == rows[w.mailId := Row(if w.publishOk || !w.failRowOk then Queued else Failed, 0, clientId)]
    requires cache' == if w.publishOk && w.cacheOk then cache[w.mailId := CacheEntry(Queued, 0)] else cache
    ensures Recorded(ResultOf(r, w), w, rows', cache', clientId)
    ensures OnlyTouches(rows, rows', w.mailId) && OnlyTouches(cache, cache', w.mailId)
  {
  }

  /** Handling another mail does not disturb what was recorded for this one. */
  lemma RecordedKept(result: BatchResult, w: World, clientId: string, id: Uuid,
                     rows: map<Uuid, Row>, rows': map<Uuid, Row>,
                     cache: map<Uuid, CacheEntry>, cache': map<Uuid, CacheEntry>)
    requires Recorded(result, w, rows, cache, clientId)
    requires result.Accepted? ==> result.mailId != id
    requires result.Refused? && result.row.Some? ==> result.row.value != id
    requires OnlyTouches(rows, rows', id) && OnlyTouches(cache, cache', id)
    ensures Recorded(result, w, rows', cache', clientId)
  {
    if result.Accepted? {
      assert Same(rows, rows', result.mailId) && Same(cache, cache', result.mailId);
    } else if result.row.Some? {
      assert Same(rows, rows', result.row.value) && Same(cache, cache', result.row.value);
    }
  }

  ghost predicate AllReported(maxSizeMb: int, results: seq<BatchResult>, reqs: seq<SendRequest>, worlds: seq<World>)
    requires |results| <= |reqs| == |worlds|
  {
    forall i :: 0 <= i < |results| ==> Reports(maxSizeMb, results[i], reqs[i], worlds[i])
  }

  predicate AllRecorded(results: seq<BatchResult>, worlds: seq<World>, rows: map<Uuid, Row>,
                        cache: map<Uuid, CacheEntry>, clientId: string)
    requires |results| <= |worlds|
  {
    forall i :: 0 <= i < |results| ==> Recorded(results[i], worlds[i], rows, cache, clientId)
  }

  /** A created row has a new ID, so what was recorded for earlier mails stays. */
  lemma AllRecordedKept(maxSizeMb: int, results: seq<BatchResult>, reqs: seq<SendRequest>, worlds: seq<World>,
                        rows: map<Uuid, Row>, rows': map<Uuid, Row>,
                        cache: map<Uuid, CacheEntry>, cache': map<Uuid, CacheEntry>, clientId: string)
    requires |results| < |reqs| == |worlds| && DistinctRows(worlds)
    requires AllReported(maxSizeMb, results, reqs, worlds) && AllRecorded(results, worlds, rows, cache, clientId)
    requires OnlyTouches(rows, rows', worlds[|results|].mailId) && OnlyTouches(cache, cache', worlds[|results|].mailId)
    requires !worlds[|results|].createOk ==> rows' == rows && cache' == cache
    ensures AllRecorded(results, worlds, rows', cache', clientId)
  {
    hide Recorded, OnlyTouches, AllStored, IsFirstRefusal;
    var w := worlds[|results|];
    if w.createOk {
      forall i | 0 <= i < |results|
        ensures Recorded(results[i], worlds[i], rows', cache', clientId)
      {
        assert Reports(maxSizeMb, results[i], reqs[i], worlds[i]);
        RecordedKept(results[i], worlds[i], clientId, w.mailId, rows, rows', cache, cache');
      }
    }
  }

  lemma SuccessesStep(maxSizeMb: int, reqs: seq<SendRequest>, worlds: seq<World>, i: nat)
    requires i < |reqs| == |worlds|
    ensures
      Successes(maxSizeMb, reqs[..i + 1], worlds[..i + 1]) ==
      Successes(maxSizeMb, reqs[..i], worlds[..i])
      + if Succeeds(maxSizeMb, reqs[i], worlds[i]) then [JobOf(reqs[i], worlds[i], None)] else []
  {
    hide Succeeds, JobOf;
    assert reqs[..i + 1][..i] == reqs[..i] && worlds[..i + 1][..i] == worlds[..i];
  }

  lemma ReportsSuccess(maxSizeMb: int, result: BatchResult, req: SendRequest, w: World)
    requires Reports(maxSizeMb, result, req, w)
    ensures result.Accepted? <==> Succeeds(maxSizeMb, req, w)
  {
  }

  /** The canceller's three steps, taken in a row. */
  lemma CancelSteps(cfg: Config, s: State, id: Uuid, clientId: string, rowOk: bool, cacheOk: bool)
    ensures
      var t := Next(cfg, Next(cfg, Next(cfg, s, CancelRead(id, clientId)),
                              Cancelling(|s.cancellers|, rowOk)), Cancelling(|s.cancellers|, cacheOk));
      Enabled(cfg, s, CancelRead(id, clientId)) ==>
        && t.rows == (if rowOk then s.rows[id := s.rows[id].(status := Cancelled)] else s.rows)
        && t.cache == (if cacheOk then s.cache[id := CacheEntry(Cancelled, 0)] else s.cache)
        && t.queue == s.queue && t.log == s.log
  {
    hide Advance, Commit, Unacked, Losses, ProduceStep;
    if Enabled(cfg, s, CancelRead(id, clientId)) {
      var s1 := Next(cfg, s, CancelRead(id, clientId));
      var c := |s.cancellers|;
      CancellingIs(cfg, s1, c, rowOk);
      CancellingIs(cfg, CancelStep(s1, c, rowOk), c, cacheOk);
    }
  }

  // ---- New rows

  predicate NewIn(rows: map<Uuid, Row>, cache: map<Uuid, CacheEntry>, references: map<Uuid, Option<Uuid>>, id: Uuid)
  {
    id !in rows && id !in cache && id !in references
  }

  /** The rows still to be created have new IDs. */
  predicate AllNew(worlds: seq<World>, from: nat, rows: map<Uuid, Row>, cache: map<Uuid, CacheEntry>,
                   references: map<Uuid, Option<Uuid>>)
  {
    forall i :: from <= i < |worlds| && worlds[i].createOk ==> NewIn(rows, cache, references, worlds[i].mailId)
  }

  lemma FirstIsNew(worlds: seq<World>, i: nat, rows: map<Uuid, Row>, cache: map<Uuid, CacheEntry>,
                   references: map<Uuid, Option<Uuid>>)
    requires i < |worlds| && AllNew(worlds, i, rows, cache, references)
    ensures worlds[i].createOk ==> NewIn(rows, cache, references, worlds[i].mailId)
  {
  }

  lemma StayNew(worlds: seq<World>, i: nat,
                rows: map<Uuid, Row>, cache: map<Uuid, CacheEntry>, references: map<Uuid, Option<Uuid>>,
                rows': map<Uuid, Row>, cache': map<Uuid, CacheEntry>, references': map<Uuid, Option<Uuid>>)
    requires i < |worlds| && DistinctRows(worlds) && AllNew(worlds, i, rows, cache, references)
    requires
      if worlds[i].createOk then
        && OnlyTouches(rows, rows', worlds[i].mailId) && OnlyTouches(cache, cache', worlds[i].mailId)
        && OnlyTouches(references, references', worlds[i].mailId)
      else rows' == rows && cache' == cache && references' == references
    ensures AllNew(worlds, i + 1, rows', cache', references')
  {
    forall j | i + 1 <= j < |worlds| && worlds[j].createOk
      ensures NewIn(rows', cache', references', worlds[j].mailId)
    {
      if worlds[i].createOk {
        assert Same(rows, rows', worlds[j].mailId) && Same(cache, cache', worlds[j].mailId);
        assert Same(references, references', worlds[j].mailId);
      }
    }
  }

  // ---- Jobs and the configs they name

  /** Every job's mail row points at the config the job names. */
  predicate JobsRecorded(t: C.Table, queue: seq<MailJob>)
  {
    forall j :: j in queue && j.content.senderConfigId.Some? ==>
      j.mailId in t.mails && t.mails[j.mailId] == j.content.senderConfigId
  }

  /** Operations on the table, by whomever, leave that so. */
  lemma ApplyKeepsJobs(org: string, codec: C.Codec, t: C.Table, op: C.Op, queue: seq<MailJob>)
    requires JobsRecorded(t, queue)
    ensures JobsRecorded(C.Apply(org, codec, t, op), queue)
  {
  }

  /** So a config named by a queued job exists and cannot be deleted. */
  lemma JobPinsConfig(t: C.Table, queue: seq<MailJob>, job: MailJob)
    requires JobsRecorded(t, queue) && C.ReferencesResolve(t)
    requires job in queue && job.content.senderConfigId.Some?
    ensures job.content.senderConfigId.value in t.configs
    ensures C.Referenced(t, job.content.senderConfigId.value)
  {
    assert t.mails[job.mailId] == Some(job.content.senderConfigId.value);
  }

  class MailHandler {
    const cfg: Config
    const maxSizeMb: int
    const configs: C.SenderConfigService?
    var queue: seq<MailJob>
    var rows: map<Uuid, Row>
    var cache: map<Uuid, CacheEntry>
    var disk: map<string, Bytes>

    constructor (cfg: Config, maxSizeMb: int, configs: C.SenderConfigService?)
      ensures this.cfg == cfg && this.maxSizeMb == maxSizeMb && this.configs == configs
      ensures queue == [] && rows == map[] && cache == map[] && Linked()
    {
      this.cfg, this.maxSizeMb, this.configs := cfg, maxSizeMb, configs;
      queue, rows, cache, disk := [], map[], map[], map[];
    }

    /** What the handler shares with the rest of the system. */
    function Shared(): S.Records
      reads this
    {
      S.Records(rows, cache, queue)
    }

    ghost predicate Configured(clientTokenId: Uuid, from: string)
      reads configs
    {
      configs != null && exists id :: C.Matches(configs.table, clientTokenId, from, id)
    }

    /** Jobs with a config come with a config service, and their rows record the config. */
    predicate Linked()
      reads this, configs
    {
      if configs != null then JobsRecorded(configs.table, queue)
      else forall j :: j in queue ==> j.content.senderConfigId.None?
    }

    /** The mail rows as the config table knows them. */
    function References(): map<Uuid, Option<Uuid>>
      reads configs
    {
      if configs == null then map[] else configs.table.mails
    }

    /** No record of any kind has this ID. */
    predicate IsNew(id: Uuid)
      reads this, configs
    {
      NewIn(rows, cache, References(), id)
    }

    /** The reference to the sender config that a created row adds to the config table. */
    twostate predicate RowsLinked(id: Uuid, configId: Option<Uuid>, created: bool)
      reads configs
    {
      configs != null ==>
        configs.table ==
        if created then C.Apply(configs.org, configs.codec, old(configs.table), C.InsertMail(id, configId))
        else old(configs.table)
    }

    /** The attachment loop shared by both handlers: it stops at the first refusal, and leaves what it
        has written before. */
    method StoreAttachments(req: SendRequest, w: World) returns (r: Result<seq<AttachmentInfo>, Rejection>)
      modifies this`disk
      ensures r.Ok? <==> AllStored(maxSizeMb, req, w)
      ensures r.Ok? ==> r.value == Infos(w, req.attachments)
      ensures r.Ok? ==> forall i :: 0 <= i < |req.attachments| ==>
        req.attachments[i].content.Some? && |req.attachments[i].content.value| <= maxSizeMb * 1_048_576
      ensures r.Ok? ==> disk == Written(old(disk), w, req.attachments, |req.attachments|)
      ensures r.Err? ==> exists i: nat ::
        RefusedAt(maxSizeMb, req, w, i, r.error) && disk == Written(old(disk), w, req.attachments, i)
    {
      hide Refusal;
      var infos := [];
      for i := 0 to |req.attachments|
        invariant infos == Infos(w, req.attachments)[..i]
        invariant disk == Written(old(disk), w, req.attachments, i)
        invariant forall j :: 0 <= j < i ==> Refusal(maxSizeMb, w, req.attachments[j], j).None?
      {
        var a := req.attachments[i];
        var refusal := Refusal(maxSizeMb, w, a, i);
        if refusal.Some? {
          assert RefusedAt(maxSizeMb, req, w, i, refusal.value);
          return Err(refusal.value);
        }
        RefusedContent(maxSizeMb, w, a, i);
        disk := disk[w.path(a.filename) := a.content.value];
        infos := infos + [InfoOf(w, a)];
      }
      hide Written;
      StoredFits(maxSizeMb, req, w);
      return Ok(infos);
    }

    /** Insert the row with its reference to the config, publish the job and write the cache; a failed
        publish marks the row failed, if that update succeeds. */
    method Submit(job: MailJob, clientId: string, w: World) returns (r: Option<Rejection>)
      requires job.mailId == w.mailId && Linked()
      requires w.createOk ==> IsNew(w.mailId)
      requires job.content.senderConfigId.Some? ==>
        configs != null && job.content.senderConfigId.value in configs.table.configs
      modifies this`queue, this`rows, this`cache, configs
      ensures r.None? <==> w.createOk && w.publishOk
      ensures queue == if r.None? then old(queue) + [job] else old(queue)
      ensures cache == if r.None? && w.cacheOk then old(cache)[w.mailId := CacheEntry(Queued, 0)] else old(cache)
      ensures rows == if !w.createOk then old(rows)
                      else old(rows)[w.mailId := Row(if w.publishOk || !w.failRowOk then Queued else Failed, 0, clientId)]
      ensures r.Some? ==> r.value == if w.createOk then QueueError else DatabaseError
      ensures RowsLinked(w.mailId, job.content.senderConfigId, w.createOk) && Linked()
      ensures w.createOk && job.retryCount == 0 && Submittable(cfg, job.content) ==>
        S.Submits(cfg, old(Shared()), Shared(), job, clientId, w.publishOk, LastOk(w))
      ensures Recorded(ResultOf(r, w), w, rows, cache, clientId)
      ensures OnlyTouches(old(rows), rows, w.mailId) && OnlyTouches(old(cache), cache, w.mailId)
    {
      hide Written;
      if configs != null {
        var inserted := configs.InsertMailRow(w.mailId, job.content.senderConfigId, w.createOk);
        assert inserted == w.createOk;
        if inserted {
          ApplyKeepsJobs(configs.org, configs.codec, old(configs.table),
                         C.InsertMail(w.mailId, job.content.senderConfigId), queue);
        }
      }
      if !w.createOk {
        return Some(DatabaseError);
      }
      rows := rows[w.mailId := Row(Queued, 0, clientId)];
      r := None;
      if !w.publishOk {
        if w.failRowOk {
          rows := rows[w.mailId := rows[w.mailId].(status := Failed)];
        }
        r := Some(QueueError);
      } else {
        queue := queue + [job];
        if w.cacheOk {
          cache := cache[w.mailId := CacheEntry(Queued, 0)];
        }
      }
      if job.retryCount == 0 && Submittable(cfg, job.content) {
        S.SubmitsExactly(cfg, old(Shared()), Shared(), job, clientId, w.publishOk, LastOk(w));
      }
      hide S.Submits, Submittable, Linked, C.Apply;
      SubmissionRecorded(r, w, clientId, old(rows), rows, old(cache), cache);
      hide Recorded, OnlyTouches;
    }

    /** One mail of a batch; it never carries a sender config. */
    method ProcessSingleMail(req: SendRequest, clientId: string, w: World) returns (result: BatchResult)
      requires Linked() && (w.createOk ==> IsNew(w.mailId))
      modifies this, configs
      ensures Reports(maxSizeMb, result, req, w)
      ensures Recorded(result, w, rows, cache, clientId)
      ensures OnlyTouches(old(rows), rows, w.mailId) && OnlyTouches(old(cache), cache, w.mailId)
      ensures OnlyTouches(old(References()), References(), w.mailId)
      ensures !w.createOk ==> rows == old(rows) && cache == old(cache) && References() == old(References())
      ensures queue == if result.Accepted? then old(queue) + [JobOf(req, w, None)] else old(queue)
      ensures result.Accepted? ==>
        SaysTheSame(queue[|queue| - 1], req, w) && queue[|queue| - 1].content.senderConfigId == None
      ensures RowsLinked(w.mailId, None, AllStored(maxSizeMb, req, w) && w.createOk) && Linked()
      ensures AllStored(maxSizeMb, req, w) ==> disk == Written(old(disk), w, req.attachments, |req.attachments|)
      ensures if AllStored(maxSizeMb, req, w) && w.createOk
        then S.Submits(cfg, old(Shared()), Shared(), JobOf(req, w, None), clientId, w.publishOk, LastOk(w))
        else Shared() == old(Shared())
    {
      hide Written, S.Submits, SaysTheSame;
      JobSaysTheSame(req, w, None);
      var stored := StoreAttachments(req, w);
      if stored.Err? {
        return Refused(None, stored.error);
      }
      var job := MailJob(w.mailId,
                         MailContent(req.from, req.to, req.cc, req.bcc, req.subject, req.body, req.html,
                                     stored.value, req.metadata, None),
                         0);
      var refused := Submit(job, clientId, w);
      hide AllStored;
      hide Recorded, OnlyTouches;
      return ResultOf(refused, w);
    }

    /** Result i describes mail i, its row and its reported status, and exactly the mails reported as
        queued are published, in order. */
    method SendBatch(reqs: seq<SendRequest>, clientId: string, worlds: seq<World>) returns (results: seq<BatchResult>)
      requires |reqs| == |worlds|
      requires Linked() && DistinctRows(worlds) && AllNew(worlds, 0, rows, cache, References())
      modifies this, configs
      ensures |results| == |reqs|
      ensures AllReported(maxSizeMb, results, reqs, worlds)
      ensures AllRecorded(results, worlds, rows, cache, clientId)
      ensures queue == old(queue) + Successes(maxSizeMb, reqs, worlds)
      ensures AllPublished(maxSizeMb, results, reqs, worlds, old(queue), queue)
      ensures Linked()
    {
      hide AllPublished, SaysTheSame, Reports, Recorded, DistinctRows, Succeeds, JobOf, Written, AllStored, Linked, AllNew, References, S.Submits;
      results := [];
      for i := 0 to |reqs|
        invariant |results| == i
        invariant AllReported(maxSizeMb, results, reqs, worlds)
        invariant AllRecorded(results, worlds, rows, cache, clientId)
        invariant queue == old(queue) + Successes(maxSizeMb, reqs[..i], worlds[..i])
        invariant Linked() && AllNew(worlds, i, rows, cache, References())
      {
        ghost var rows0, cache0, references0 := rows, cache, References();
        FirstIsNew(worlds, i, rows, cache, references0);
        var result := ProcessSingleMail(reqs[i], clientId, worlds[i]);
        StayNew(worlds, i, rows0, cache0, references0, rows, cache, References());
        AllRecordedKept(maxSizeMb, results, reqs, worlds, rows0, rows, cache0, cache, clientId);
        ReportsSuccess(maxSizeMb, result, reqs[i], worlds[i]);
        SuccessesStep(maxSizeMb, reqs, worlds, i);
        hide Successes, OnlyTouches;
        results := results + [result];
      }
      assert reqs[..|reqs|] == reqs && worlds[..|worlds|] == worlds;
      BatchSaysTheSame(maxSizeMb, results, reqs, worlds, old(queue));
      hide Successes;
    }

    /** `GetStatus`: the cache entry if there is one and it can be read, otherwise the row, whoever asks. */
    method GetStatus(id: Uuid, cacheOk: bool, dbOk: bool) returns (r: Option<CacheEntry>)
      ensures dbOk ==> r == StatusOf(rows, if cacheOk then cache else map[], id)
      ensures !dbOk ==> r == StatusOf(map[], if cacheOk then cache else map[], id)
    {
      if cacheOk && id in cache {
        return Some(cache[id]);
      }
      if !dbOk || id !in rows {
        return None;
      }
      return Some(CacheEntry(rows[id].status, rows[id].retryCount));
    }

    /** `Cancel`, uninterrupted: the canceller's three steps, where either write may be lost and the
        caller is told of success all the same. A row that cannot be read is not found. */
    method Cancel(id: Uuid, clientId: string, readOk: bool, rowOk: bool, cacheOk: bool, ghost s: State)
      returns (ok: bool)
      requires s.rows == rows && s.cache == cache
      modifies this`rows, this`cache
      ensures ok <==> readOk && Enabled(cfg, s, CancelRead(id, clientId))
      ensures
        var t := Next(cfg, Next(cfg, Next(cfg, s, CancelRead(id, clientId)),
                                Cancelling(|s.cancellers|, rowOk)), Cancelling(|s.cancellers|, cacheOk));
        ok ==> t.rows == rows && t.cache == cache && t.queue == s.queue && t.log == s.log
      ensures !ok ==> rows == old(rows) && cache == old(cache)
    {
      CancelSteps(cfg, s, id, clientId, rowOk, cacheOk);
      hide Next;
      if !readOk || id !in rows || rows[id].clientId != clientId {
        return false;
      }
      if rows[id].status != Queued {
        return false;
      }
      if rowOk {
        rows := rows[id := rows[id].(status := Cancelled)];
      }
      if cacheOk {
        cache := cache[id := CacheEntry(Cancelled, 0)];
      }
      return true;
    }

    /** A single mail: an org sender needs an active config of the calling client, and the job then
        carries it, and its row records it; any other sender carries none. */
    method Send(req: SendRequest, clientId: string, clientTokenId: Uuid, w: World) returns (r: Result<MailJob, Rejection>)
      requires Linked() && (w.createOk ==> IsNew(w.mailId))
      modifies this, configs
      ensures r.Ok? <==>
        Succeeds(maxSizeMb, req, w) && (IsOrgSender(cfg, req.from) ==> w.lookupOk && old(Configured(clientTokenId, req.from)))
      ensures r.Ok? ==> r.value == JobOf(req, w, r.value.content.senderConfigId)
      ensures r.Ok? ==> SaysTheSame(r.value, req, w)
      ensures r.Ok? ==> (r.value.content.senderConfigId.Some? <==> IsOrgSender(cfg, req.from))
      ensures r.Ok? && IsOrgSender(cfg, req.from) ==>
        && configs != null
        && C.Matches(configs.table, clientTokenId, req.from, r.value.content.senderConfigId.value)
        && C.Referenced(configs.table, r.value.content.senderConfigId.value)
      ensures r.Ok? ==> RowsLinked(w.mailId, r.value.content.senderConfigId, true)
      ensures r.Err? ==>
        if IsOrgSender(cfg, req.from) && !(w.lookupOk && old(Configured(clientTokenId, req.from)))
        then r.error == SenderNotConfigured
        else exists row ::
          Reports(maxSizeMb, Refused(row, r.error), req, w) && Recorded(Refused(row, r.error), w, rows, cache, clientId)
      ensures r.Ok? ==> Recorded(Accepted(w.mailId), w, rows, cache, clientId)
      ensures OnlyTouches(old(rows), rows, w.mailId) && OnlyTouches(old(cache), cache, w.mailId)
      ensures r.Ok? ==> Submittable(cfg, r.value.content)
      ensures r.Ok? ==> disk == Written(old(disk), w, req.attachments, |req.attachments|)
      ensures r.Ok? ==> S.Submits(cfg, old(Shared()), Shared(), r.value, clientId, true, w.cacheOk)
      ensures r.Err? ==>
        if r.error == QueueError
        then exists configId ::
          S.Submits(cfg, old(Shared()), Shared(), JobOf(req, w, configId), clientId, false, w.failRowOk)
        else Shared() == old(Shared())
      ensures queue == if r.Ok? then old(queue) + [r.value] else old(queue)
      ensures Linked()
    {
      hide Written, S.Submits, SaysTheSame;
      var configId: Option<Uuid> := None;
      if HasSuffix(ToLower(req.from), ToLower(cfg.orgEmailDomain)) {
        if configs == null {
          return Err(SenderNotConfigured);
        }
        configId := configs.GetBySenderEmail(clientTokenId, req.from, w.lookupOk);
        if configId.None? {
          return Err(SenderNotConfigured);
        }
      }
      var stored := StoreAttachments(req, w);
      if stored.Err? {
        assert Reports(maxSizeMb, Refused(None, stored.error), req, w);
        return Err(stored.error);
      }
      var job := MailJob(w.mailId,
                         MailContent(req.from, req.to, req.cc, req.bcc, req.subject, req.body, req.html,
                                     stored.value, req.metadata, configId),
                         0);
      var refused := Submit(job, clientId, w);
      hide AllStored, Recorded, OnlyTouches;
      if refused.Some? {
        assert Reports(maxSizeMb, ResultOf(refused, w), req, w);
        assert job == JobOf(req, w, configId);
        return Err(refused.value);
      }
      if configs != null {
        assert configs.table.mails[w.mailId] == configId;
      }
      JobSaysTheSame(req, w, configId);
      return Ok(job);
    }
  }

  /** How many mails of the batch before position n succeed. */
  function CountBefore(maxSizeMb: int, reqs: seq<SendRequest>, worlds: seq<World>, n: nat): nat
    requires n <= |reqs| == |worlds|
  {
    if n == 0 then 0
    else CountBefore(maxSizeMb, reqs, worlds, n - 1) + if Succeeds(maxSizeMb, reqs[n - 1], worlds[n - 1]) then 1 else 0
  }

  /** A mail that succeeds is published at the position given by the successes before it, so the
      order of the batch is the order of the queue. */
  lemma {:induction false} SuccessPosition(maxSizeMb: int, reqs: seq<SendRequest>, worlds: seq<World>, i: nat)
    requires |reqs| == |worlds| && i < |reqs| && Succeeds(maxSizeMb, reqs[i], worlds[i])
    ensures CountBefore(maxSizeMb, reqs, worlds, i) < |Successes(maxSizeMb, reqs, worlds)|
    ensures
      Successes(maxSizeMb, reqs, worlds)[CountBefore(maxSizeMb, reqs, worlds, i)] == JobOf(reqs[i], worlds[i], None)
  {
    hide Succeeds, JobOf;
    var n := |reqs| - 1;
    SuccessCount(maxSizeMb, reqs[..n], worlds[..n]);
    CountPrefix(maxSizeMb, reqs, worlds, n, i);
    CountPrefix(maxSizeMb, reqs, worlds, n, n);
    if i < n {
      SuccessPosition(maxSizeMb, reqs[..n], worlds[..n], i);
    }
  }

  /** The queue has grown by one job for each mail accepted, in the order of the batch, and the job of
      each says what the mail says and carries no sender config. */
  predicate AllPublished(maxSizeMb: int, results: seq<BatchResult>, reqs: seq<SendRequest>, worlds: seq<World>,
                         before: seq<MailJob>, after: seq<MailJob>)
    requires |results| == |reqs| == |worlds|
  {
    && |after| == |before| + CountBefore(maxSizeMb, reqs, worlds, |reqs|) && before <= after
    && forall i :: 0 <= i < |reqs| && results[i].Accepted? ==>
      var at := |before| + CountBefore(maxSizeMb, reqs, worlds, i);
      at < |after| && SaysTheSame(after[at], reqs[i], worlds[i]) && after[at].content.senderConfigId == None
  }

  /** So the job of mail i is found in the queue where the results say, and says what mail i says. */
  lemma BatchSaysTheSame(maxSizeMb: int, results: seq<BatchResult>, reqs: seq<SendRequest>, worlds: seq<World>,
                         before: seq<MailJob>)
    requires |results| == |reqs| == |worlds| && AllReported(maxSizeMb, results, reqs, worlds)
    ensures
      AllPublished(maxSizeMb, results, reqs, worlds, before, before + Successes(maxSizeMb, reqs, worlds))
  {
    hide Successes, CountBefore, SaysTheSame, Reports, Succeeds;
    SuccessCount(maxSizeMb, reqs, worlds);
    forall i | 0 <= i < |reqs| && results[i].Accepted?
      ensures
        var at := CountBefore(maxSizeMb, reqs, worlds, i);
        && at < |Successes(maxSizeMb, reqs, worlds)|
        && SaysTheSame(Successes(maxSizeMb, reqs, worlds)[at], reqs[i], worlds[i])
        && Successes(maxSizeMb, reqs, worlds)[at].content.senderConfigId == None
    {
      ReportsSuccess(maxSizeMb, results[i], reqs[i], worlds[i]);
      SuccessPosition(maxSizeMb, reqs, worlds, i);
      JobSaysTheSame(reqs[i], worlds[i], None);
    }
  }

  lemma {:induction false} SuccessCount(maxSizeMb: int, reqs: seq<SendRequest>, worlds: seq<World>)
    requires |reqs| == |worlds|
    ensures |Successes(maxSizeMb, reqs, worlds)| == CountBefore(maxSizeMb, reqs, worlds, |reqs|)
  {
    hide Succeeds, JobOf;
    if reqs != [] {
      var n := |reqs| - 1;
      SuccessCount(maxSizeMb, reqs[..n], worlds[..n]);
      CountPrefix(maxSizeMb, reqs, worlds, n, n);
    }
  }

  lemma {:induction false} CountPrefix(maxSizeMb: int, reqs: seq<SendRequest>, worlds: seq<World>, n: nat, i: nat)
    requires i <= n <= |reqs| == |worlds|
    ensures CountBefore(maxSizeMb, reqs[..n], worlds[..n], i) == CountBefore(maxSizeMb, reqs, worlds, i)
  {
    hide Succeeds;
    if i > 0 {
      CountPrefix(maxSizeMb, reqs, worlds, n, i - 1);
    }
  }
}
