/** The SMTP envelope: what a session remembers of the commands it received. */
module SmtpSession {
  import opened Models
  import opened Text
  import opened Mime
  import Settings
  import L = Lifecycle
  import S = Submissions

  /** Surrounding space, one opening and one closing angle bracket are removed. */
  function CleanEmail(email: string): string
  {
    TrimSuffix(TrimPrefix(TrimSpace(email), "<"), ">")
  }

  /** An address as a user writes it: no space around it, and no angle bracket where one is cut. */
  predicate Plain(address: string)
  {
    Bare(address, IsSpace) && (address != "" ==> address[0] != '<' && address[|address| - 1] != '>')
  }

  lemma BracketsCut(address: string)
    ensures TrimSuffix(TrimPrefix("<" + address + ">", "<"), ">") == address
    ensures Plain(address) ==> TrimSuffix(TrimPrefix(address, "<"), ">") == address
  {
    AffixesTrimmed(address + ">", "<");
    assert "<" + address + ">" == "<" + (address + ">");
    AffixesTrimmed(address, ">");
    AffixesTrimmed(address, "<");
  }

  /** A plain address is kept, with or without one pair of angle brackets and any space around; and
      inside the brackets anything at all is kept. */
  lemma CleanEmailIs(l: string, address: string, r: string)
    requires All(l, IsSpace) && All(r, IsSpace)
    ensures Plain(address) ==> CleanEmail(address) == CleanEmail(l + address + r) == address
    ensures CleanEmail(l + ("<" + address + ">") + r) == address
  {
    BracketsCut(address);
    TrimOf(l, "<" + address + ">", r, IsSpace);
    if Plain(address) {
      TrimOf(l, address, r, IsSpace);
      TrimOf("", address, "", IsSpace);
      assert "" + address + "" == address;
    }
  }

  /** One bracket without the other is cut too. */
  lemma SingleBrackets(address: string)
    requires Plain(address) && address != ""
    ensures CleanEmail("<" + address) == address == CleanEmail(address + ">")
  {
    TrimOf("", "<" + address, "", IsSpace);
    TrimOf("", address + ">", "", IsSpace);
    assert "" + ("<" + address) + "" == "<" + address && "" + (address + ">") + "" == address + ">";
    AffixesTrimmed(address, "<");
    AffixesTrimmed(address, ">");
    assert (address + ">")[0] != '<';
    AffixesTrimmed(address + ">", "<");
  }

  /** An empty list allows every sender. */
  predicate Allowed(domains: seq<string>, from: string)
  {
    domains == [] || exists d :: d in domains && InDomain(from, d)
  }

  datatype Command =
    | Mail(address: string)
    | Rcpt(address: string)
    | Data(upload: Upload, world: World)
    | Reset

  datatype Envelope = Envelope(from: string, to: seq<string>)

  /** A MAIL command that passes the domain check. */
  predicate Accepted(domains: seq<string>, c: Command)
  {
    c.Mail? && Allowed(domains, CleanEmail(c.address))
  }

  function Handle(domains: seq<string>, e: Envelope, c: Command): Envelope
  {
    match c
    case Mail(address) => if Accepted(domains, c) then e.(from := CleanEmail(address)) else e
    case Rcpt(address) => e.(to := e.to + [CleanEmail(address)])
    case Data(_, _) => e
    case Reset => Envelope("", [])
  }

  /** The envelope a session holds after a trace of commands. */
  function Play(domains: seq<string>, trace: seq<Command>): Envelope
  {
    if trace == [] then Envelope("", [])
    else Handle(domains, Play(domains, trace[..|trace| - 1]), trace[|trace| - 1])
  }

  // ---- Messages

  /** Parsed header fields; an address list that cannot be parsed is empty. */
  datatype Headers = Headers(subject: string, from: seq<string>, to: seq<string>, cc: seq<string>, bcc: seq<string>)

  datatype Message = Message(headers: Headers, parts: seq<Part>)

  /** The body of a DATA command; `message` is missing if it is not a MIME message. */
  datatype Upload = Upload(readable: bool, size: nat, text: string, message: Option<Message>)

  /** What the surroundings answer while the upload is handled. The errors of the last two calls,
      the update of the row to `failed` and the cache write, are ignored by the program. */
  datatype World = World(
    mailId: Uuid,
    dir: MailDir,
    receivedAt: string,
    saveOk: nat -> bool,
    createOk: bool,
    publishOk: bool,
    failRowOk: bool,
    cacheOk: bool)

  /** Whether the last, ignored write of a submission succeeds. */
  function LastOk(w: World): bool
  {
    if w.publishOk then w.cacheOk else w.failRowOk
  }

  datatype DataError = ReadFailed | TooLarge | CreateFailed | PublishFailed

  /** The envelope sender wins; the header From is a fallback for an empty one. */
  function SenderOf(e: Envelope, headerFrom: seq<string>): string
  {
    if e.from != "" then e.from else if headerFrom != [] then headerFrom[0] else ""
  }

  function RecipientsOf(e: Envelope, headerTo: seq<string>): seq<string>
  {
    if e.to != [] then e.to else headerTo
  }

  function Info(a: Attachment): AttachmentInfo
  {
    AttachmentInfo(a.filename, a.contentType, a.sizeBytes, a.storagePath)
  }

  /** The job says what the MIME message says. */
  ghost predicate Carries(c: MailContent, e: Envelope, u: Upload, w: World)
    requires u.message.Some?
  {
    var h := u.message.value.headers;
    var parts := u.message.value.parts;
    && c.from == SenderOf(e, h.from)
    && c.to == RecipientsOf(e, h.to)
    && c.cc == h.cc && c.bcc == h.bcc && c.subject == h.subject
    && IsLastOf(parts, IsHtml, c.html)
    && (if c.html == "" && IsLastOf(parts, IsPlain, "") then c.body == u.text else IsLastOf(parts, IsPlain, c.body))
    && CarriesAttachments(c.attachments, parts, w)
    && c.metadata == map["source" := "smtp-inbound", "received_at" := w.receivedAt]
    && c.senderConfigId.None?
  }

  /** The job for an upload that is not a MIME message: the envelope, and the raw text as its body. */
  predicate CarriesRaw(c: MailContent, e: Envelope, u: Upload, w: World)
  {
    && c.from == e.from && c.to == e.to && c.cc == [] && c.bcc == []
    && c.subject == "(No Subject)" && c.body == u.text && c.html == "" && c.attachments == []
    && c.metadata == map["source" := "smtp-inbound", "raw_content" := "true", "received_at" := w.receivedAt]
    && c.senderConfigId.None?
  }

  /** One entry per readable attachment, in order; a failed save shows as an empty storage path. */
  ghost predicate CarriesAttachments(infos: seq<AttachmentInfo>, parts: seq<Part>, w: World)
  {
    && |infos| == |Readable(parts)|
    && forall i :: 0 <= i < |infos| ==> Shows(infos[i], Readable(parts)[i], w.dir, w.saveOk(i))
  }

  ghost predicate Shows(info: AttachmentInfo, p: Part, dir: MailDir, saved: bool)
    requires p.Attached? && p.data.Some?
  {
    exists a :: Describes(a, p) && info == Info(if saved then a.(storagePath := PathOf(dir, a)) else a)
  }

  /** Every storage path in the job holds the contents of the last attachment saved under it. */
  ghost predicate Stores(disk: map<string, Bytes>, infos: seq<AttachmentInfo>, parts: seq<Part>, w: World)
    requires |infos| == |Readable(parts)|
  {
    forall i :: 0 <= i < |infos| && LastUnderPath(infos, w, i) ==>
      infos[i].storagePath in disk && disk[infos[i].storagePath] == Readable(parts)[i].data.value
  }

  ghost predicate LastUnderPath(infos: seq<AttachmentInfo>, w: World, i: nat)
    requires i < |infos|
  {
    w.saveOk(i) && forall j :: i < j < |infos| && w.saveOk(j) ==> infos[j].storagePath != infos[i].storagePath
  }

  /** Files that are not among the attachments of the job stay as they were. */
  ghost predicate KeepsOthers(before: map<string, Bytes>, after: map<string, Bytes>, infos: seq<AttachmentInfo>)
  {
    forall path: string :: (forall i :: 0 <= i < |infos| ==> infos[i].storagePath != path) ==>
      (path in before <==> path in after) && (path in before ==> after[path] == before[path])
  }

  /** The content built for an upload, be it a MIME message or not. */
  ghost predicate IsContent(c: MailContent, e: Envelope, u: Upload, w: World)
  {
    if u.message.Some? then Carries(c, e, u, w) else CarriesRaw(c, e, u, w)
  }

  /** Where each field of the job comes from: the envelope where it says something, the message's own
      headers otherwise. */
  predicate PutsTogether(c: MailContent, from: string, to: seq<string>, u: Upload)
  {
    && (from != "" ==> c.from == from)
    && (to != [] ==> c.to == to)
    && (u.message.None? ==> c.from == from && c.to == to && c.cc == [] && c.bcc == [] && c.body == u.text)
    && (u.message.Some? ==>
          var h := u.message.value.headers;
          && (from == "" ==> c.from == if h.from == [] then "" else h.from[0])
          && (to == [] ==> c.to == h.to)
          && c.cc == h.cc && c.bcc == h.bcc && c.subject == h.subject)
  }

  lemma ContentPutsTogether(c: MailContent, e: Envelope, u: Upload, w: World)
    requires IsContent(c, e, u, w)
    ensures PutsTogether(c, e.from, e.to, u)
  {
  }

  /** An attachment's entry in the job: its own name, type and true size, and the path it was saved
      under, if it was. */
  lemma EntryOfAttachment(info: AttachmentInfo, p: Part, dir: MailDir, saved: bool)
    requires p.Attached? && p.data.Some? && Shows(info, p, dir, saved)
    ensures info.contentType == p.header.contentType && info.sizeBytes == |p.data.value|
    ensures p.header.filename != "" ==> info.filename == p.header.filename
    ensures info.storagePath == if saved then StoragePath(dir, Base(info.filename)) else ""
  {
  }

  /** The attachments of the content are on disk, and nothing else on disk has changed. */
  ghost predicate Leaves(before: map<string, Bytes>, after: map<string, Bytes>, c: MailContent, u: Upload, w: World)
  {
    && KeepsOthers(before, after, c.attachments)
    && (u.message.Some? && |c.attachments| == |Readable(u.message.value.parts)| ==>
          Stores(after, c.attachments, u.message.value.parts, w))
  }

  predicate Fits(maxMessageSizeMb: int, u: Upload)
  {
    u.size <= maxMessageSizeMb * 1024 * 1024
  }

  predicate Publishes(maxMessageSizeMb: int, u: Upload, w: World)
  {
    u.readable && Fits(maxMessageSizeMb, u) && w.createOk && w.publishOk
  }

  /** The jobs a session publishes in the course of a trace: one for each DATA that gets through,
      with the envelope held at that moment. */
  ghost predicate Published(domains: seq<string>, maxMessageSizeMb: int, trace: seq<Command>, queue: seq<MailJob>)
  {
    if trace == [] then queue == []
    else
      var front := trace[..|trace| - 1];
      var c := trace[|trace| - 1];
      if c.Data? && Publishes(maxMessageSizeMb, c.upload, c.world) then
        && queue != []
        && Published(domains, maxMessageSizeMb, front, queue[..|queue| - 1])
        && queue[|queue| - 1].mailId == c.world.mailId && queue[|queue| - 1].retryCount == 0
        && IsContent(queue[|queue| - 1].content, Play(domains, front), c.upload, c.world)
      else
        Published(domains, maxMessageSizeMb, front, queue)
  }

  /** The job carries no sender config, so the configuration does not matter. */
  lemma SubmitsAnyway(before: S.Records, after: S.Records, job: MailJob, w: World)
    requires job.mailId !in before.rows && job.content.senderConfigId.None? && job.retryCount == 0
    requires after.rows ==
      before.rows[job.mailId := L.Row(if w.publishOk || !LastOk(w) then Queued else Failed, 0, "smtp-inbound")]
    requires after.cache ==
      if w.publishOk && LastOk(w) then before.cache[job.mailId := L.CacheEntry(Queued, 0)] else before.cache
    requires after.queue == if w.publishOk then before.queue + [job] else before.queue
    ensures forall cfg: Config :: S.Submits(cfg, before, after, job, "smtp-inbound", w.publishOk, LastOk(w))
  {
    forall cfg: Config
      ensures S.Submits(cfg, before, after, job, "smtp-inbound", w.publishOk, LastOk(w))
    {
      S.SubmitsExactly(cfg, before, after, job, "smtp-inbound", w.publishOk, LastOk(w));
    }
  }

  class Session {
    const domains: seq<string>
    const maxMessageSizeMb: int
    const storage: Storage
    var from: string
    var to: seq<string>
    var queue: seq<MailJob>
    var rows: map<Uuid, L.Row>
    var cache: map<Uuid, L.CacheEntry>
    ghost var trace: seq<Command>

    function Held(): Envelope
      reads this
    {
      Envelope(from, to)
    }

    /** What the session shares with the rest of the system. */
    function Shared(): S.Records
      reads this
    {
      S.Records(rows, cache, queue)
    }

    /** Envelope and published jobs are those of the trace so far. */
    ghost predicate Valid()
      reads this
    {
      Held() == Play(domains, trace) && Published(domains, maxMessageSizeMb, trace, queue)
    }

    constructor (domains: seq<string>, maxMessageSizeMb: int, storage: Storage)
      ensures this.domains == domains && this.maxMessageSizeMb == maxMessageSizeMb && trace == [] && Valid()
    {
      this.domains := domains;
      this.maxMessageSizeMb := maxMessageSizeMb;
      this.storage := storage;
      from, to, queue, rows, cache, trace := "", [], [], map[], map[], [];
    }

    /** A refused MAIL changes nothing; an accepted one keeps the recipients. */
    method Mail(address: string) returns (ok: bool)
      requires Valid()
      modifies this`from, this`trace
      ensures Valid() && trace == old(trace) + [Command.Mail(address)]
      ensures ok == Allowed(domains, CleanEmail(address))
      ensures from == (if ok then CleanEmail(address) else old(from)) && to == old(to)
      ensures Held() == Handle(domains, old(Held()), Command.Mail(address))
    {
      hide InDomain, CleanEmail, Published;
      Note(Command.Mail(address));
      var cleaned := CleanEmail(address);
      ok := domains == [];
      for i := 0 to |domains|
        invariant ok == (domains == [] || exists d :: d in domains[..i] && InDomain(cleaned, d))
        invariant from == old(from)
      {
        if InDomain(cleaned, domains[i]) {
          ok := true;
          assert domains[i] in domains && InDomain(cleaned, domains[i]);
          break;
        }
        assert domains[..i + 1] == domains[..i] + [domains[i]];
      }
      if !ok {
        assert domains[..|domains|] == domains;
        return;
      }
      from := cleaned;
    }

    method Rcpt(address: string)
      requires Valid()
      modifies this`to, this`trace
      ensures Valid() && trace == old(trace) + [Command.Rcpt(address)]
      ensures Held() == Handle(domains, old(Held()), Command.Rcpt(address))
      ensures from == old(from) && to == old(to) + [CleanEmail(address)]
    {
      Note(Command.Rcpt(address));
      to := to + [CleanEmail(address)];
    }

    method Reset()
      requires Valid()
      modifies this`from, this`to, this`trace
      ensures Valid() && trace == old(trace) + [Command.Reset]
      ensures Held() == Handle(domains, old(Held()), Command.Reset)
      ensures from == "" && to == []
    {
      Note(Command.Reset);
      from := "";
      to := [];
    }

    /** One more command of the trace. */
    ghost method Note(c: Command)
      requires Valid()
      modifies this`trace
      ensures trace == old(trace) + [c]
      ensures Play(domains, trace) == Handle(domains, Held(), c)
      ensures !(c.Data? && Publishes(maxMessageSizeMb, c.upload, c.world)) ==>
        Published(domains, maxMessageSizeMb, trace, queue)
      ensures c.Data? && Publishes(maxMessageSizeMb, c.upload, c.world) ==>
        forall job: MailJob ::
          job.mailId == c.world.mailId && job.retryCount == 0 && IsContent(job.content, Held(), c.upload, c.world) ==>
          Published(domains, maxMessageSizeMb, trace, queue + [job])
    {
      hide IsContent, Publishes;
      trace := trace + [c];
      assert trace[..|trace| - 1] == old(trace);
      forall job: MailJob
        ensures (queue + [job])[..|queue + [job]| - 1] == queue
      {
      }
    }

    /** DATA publishes one job, built from the envelope and the message, or none at all; the
        envelope stays as it is. `content` is what was built, also if it was not published. */
    method Data(u: Upload, w: World) returns (r: Result<MailJob, DataError>, ghost content: MailContent)
      requires Valid()
      modifies this`queue, this`rows, this`cache, this`trace, storage
      ensures Valid() && trace == old(trace) + [Command.Data(u, w)]
      ensures Held() == old(Held())
      ensures r.Ok? <==> Publishes(maxMessageSizeMb, u, w)
      ensures r.Ok? <==> u.readable && u.size <= maxMessageSizeMb * 1_048_576 && w.createOk && w.publishOk
      ensures r.Ok? ==> PutsTogether(r.value.content, from, to, u)
      ensures r.Err? ==>
        r.error == if !u.readable then ReadFailed else if !Fits(maxMessageSizeMb, u) then TooLarge
                   else if !w.createOk then CreateFailed else PublishFailed
      ensures queue == if r.Ok? then old(queue) + [r.value] else old(queue)
      ensures cache == if r.Ok? && w.cacheOk then old(cache)[w.mailId := L.CacheEntry(Queued, 0)] else old(cache)
      ensures rows ==
        if r.Err? && r.error != PublishFailed then old(rows)
        else old(rows)[w.mailId := L.Row(if r.Err? && w.failRowOk then Failed else Queued, 0, "smtp-inbound")]
      ensures r.Ok? ==> r.value == MailJob(w.mailId, content, 0)
      ensures if u.readable && Fits(maxMessageSizeMb, u)
        then IsContent(content, Held(), u, w) && Leaves(old(storage.disk), storage.disk, content, u, w)
        else storage.disk == old(storage.disk)
      ensures u.readable && Fits(maxMessageSizeMb, u) && w.createOk && w.mailId !in old(rows) ==>
        forall cfg: Config ::
          S.Submits(cfg, old(Shared()), Shared(), MailJob(w.mailId, content, 0), "smtp-inbound", w.publishOk, LastOk(w))
    {
      hide IsContent, Leaves, Published;
      Note(Command.Data(u, w));
      content := MailContent("", [], [], [], "", "", "", [], map[], None);
      if !u.readable {
        return Err(ReadFailed), content;
      }
      if u.size > maxMessageSizeMb * 1024 * 1024 {
        return Err(TooLarge), content;
      }
      var built := ParseMailData(u, w);
      ContentPutsTogether(built, Held(), u, w);
      hide PutsTogether;
      content := built;
      if !w.createOk {
        return Err(CreateFailed), content;
      }
      rows := rows[w.mailId := L.Row(Queued, 0, "smtp-inbound")];
      var job := MailJob(w.mailId, built, 0);
      r := Ok(job);
      if !w.publishOk {
        if w.failRowOk {
          rows := rows[w.mailId := rows[w.mailId].(status := Failed)];
        }
        r := Err(PublishFailed);
      } else {
        queue := queue + [job];
        if w.cacheOk {
          cache := cache[w.mailId := L.CacheEntry(Queued, 0)];
        }
      }
      if w.mailId !in old(rows) {
        SubmitsAnyway(old(Shared()), Shared(), job, w);
      }
      hide S.Submits;
    }

    method ParseMailData(u: Upload, w: World) returns (content: MailContent)
      modifies storage
      ensures IsContent(content, Held(), u, w) && content.senderConfigId.None?
      ensures Leaves(old(storage.disk), storage.disk, content, u, w)
    {
      if u.message.None? {
        return MailContent(from, to, [], [], "(No Subject)", u.text, "", [],
                           map["source" := "smtp-inbound", "raw_content" := "true", "received_at" := w.receivedAt],
                           None);
      }
      var Message(h, parts) := u.message.value;
      var sender := from;
      if sender == "" && h.from != [] {
        sender := h.from[0];
      }
      var recipients := to;
      if recipients == [] {
        recipients := h.to;
      }
      var body, html, attachments, contents := ParseParts(parts);
      if IsLastOf(parts, IsPlain, "") {
        LastOfIsUnique(parts, IsPlain, body, "");
      }
      if body == "" && html == "" {
        body := u.text;
      }
      var infos := SaveInfos(parts, w, attachments, contents);
      hide Stores, KeepsOthers, CarriesAttachments, IsLastOf;
      content := MailContent(sender, recipients, h.cc, h.bcc, h.subject, body, html, infos,
                             map["source" := "smtp-inbound", "received_at" := w.receivedAt], None);
    }

    method SaveInfos(ghost parts: seq<Part>, w: World, attachments: seq<Attachment>, contents: seq<Bytes>)
      returns (infos: seq<AttachmentInfo>)
      requires Collected(attachments, contents, parts)
      modifies storage
      ensures CarriesAttachments(infos, parts, w)
      ensures Stores(storage.disk, infos, parts, w)
      ensures KeepsOthers(old(storage.disk), storage.disk, infos)
    {
      hide PathOf, Describes, Readable;
      ghost var disk := storage.disk;
      ghost var paths := PathsOf(w.dir, attachments);
      var saved := storage.SaveAll(w.dir, attachments, contents, w.saveOk);
      infos := [];
      for i := 0 to |saved|
        invariant |infos| == i
        invariant forall j :: 0 <= j < i ==> infos[j] == Info(saved[j])
      {
        infos := infos + [Info(saved[i])];
      }
      forall i | 0 <= i < |infos|
        ensures Shows(infos[i], Readable(parts)[i], w.dir, w.saveOk(i))
      {
        assert Describes(attachments[i], Readable(parts)[i]);
      }
      forall i | 0 <= i < |infos| && LastUnderPath(infos, w, i)
        ensures infos[i].storagePath in storage.disk
        ensures storage.disk[infos[i].storagePath] == Readable(parts)[i].data.value
      {
        LastSaveWins(disk, paths, contents, w.saveOk, |attachments|, i);
      }
      forall path: string | forall i :: 0 <= i < |infos| ==> infos[i].storagePath != path
        ensures path in disk <==> path in storage.disk
        ensures path in disk ==> storage.disk[path] == disk[path]
      {
        forall j | 0 <= j < |attachments| && w.saveOk(j)
          ensures paths[j] != path
        {
          assert infos[j] == Info(saved[j]);
        }
        OtherFilesKept(disk, paths, contents, w.saveOk, |attachments|, path);
      }
    }
  }

  // ---- The envelope, read off the trace without replaying it

  /** The position just after the last Reset. */
  predicate SinceReset(trace: seq<Command>, r: nat)
  {
    && r <= |trace|
    && (r == 0 || trace[r - 1].Reset?)
    && forall j :: r <= j < |trace| ==> !trace[j].Reset?
  }

  /** The last accepted MAIL of the trace is at this position. */
  predicate LastAccepted(domains: seq<string>, trace: seq<Command>, i: nat)
  {
    && i < |trace| && Accepted(domains, trace[i])
    && forall j :: i < j < |trace| ==> !Accepted(domains, trace[j])
  }

  function Recipients(trace: seq<Command>): seq<string>
  {
    if trace == [] then []
    else (if trace[0].Rcpt? then [CleanEmail(trace[0].address)] else []) + Recipients(trace[1..])
  }

  lemma {:induction false} RecipientsSnoc(trace: seq<Command>, c: Command)
    ensures Recipients(trace + [c]) == Recipients(trace) + if c.Rcpt? then [CleanEmail(c.address)] else []
  {
    if trace == [] {
      assert [c][1..] == [];
    } else {
      assert (trace + [c])[1..] == trace[1..] + [c];
      RecipientsSnoc(trace[1..], c);
    }
  }

  /** `to` is the cleaned RCPT list in order since the last Reset; MAIL and DATA do not clear it. */
  lemma {:induction false} ToIsRecipientsSinceReset(domains: seq<string>, trace: seq<Command>, r: nat)
    requires SinceReset(trace, r)
    ensures Play(domains, trace).to == Recipients(trace[r..])
  {
    if r == |trace| {
      assert trace[r..] == [];
    } else {
      var front := trace[..|trace| - 1];
      var c := trace[|trace| - 1];
      ToIsRecipientsSinceReset(domains, front, r);
      assert trace[r..] == front[r..] + [c];
      RecipientsSnoc(front[r..], c);
    }
  }

  /** `from` is the last accepted MAIL since the last Reset, and empty if there is none. */
  lemma {:induction false} FromIsLastAccepted(domains: seq<string>, trace: seq<Command>, r: nat)
    requires SinceReset(trace, r)
    ensures forall i :: r <= i && LastAccepted(domains, trace, i) ==>
      Play(domains, trace).from == CleanEmail(trace[i].address)
    ensures (forall i :: r <= i < |trace| ==> !Accepted(domains, trace[i])) ==> Play(domains, trace).from == ""
  {
    if r < |trace| {
      var front := trace[..|trace| - 1];
      FromIsLastAccepted(domains, front, r);
      forall i | r <= i && LastAccepted(domains, trace, i)
        ensures Play(domains, trace).from == CleanEmail(trace[i].address)
      {
        if i < |front| {
          assert LastAccepted(domains, front, i);
        }
      }
    }
  }

  /** What a session holds after one more MAIL or RCPT for an address, bracketed or plain: that very
      address, as the sender if the list allows it, or at the end of the recipients. */
  lemma HoldsTheAddress(domains: seq<string>, trace: seq<Command>, l: string, address: string, r: string, text: string)
    requires All(l, IsSpace) && All(r, IsSpace)
    requires text == l + ("<" + address + ">") + r || (Plain(address) && text == l + address + r)
    ensures
      var e := Play(domains, trace);
      && Play(domains, trace + [Rcpt(text)]) == Envelope(e.from, e.to + [address])
      && Play(domains, trace + [Mail(text)]) ==
         if domains == [] || exists d :: d in domains && InDomain(address, d) then Envelope(address, e.to) else e
  {
    CleanEmailIs(l, address, r);
    hide CleanEmail;
    assert (trace + [Rcpt(text)])[..|trace|] == trace && (trace + [Mail(text)])[..|trace|] == trace;
  }

  // ---- The domain filter

  /** Some MAIL before position n was accepted and not reset since. */
  predicate MailBefore(domains: seq<string>, trace: seq<Command>, n: nat)
    requires n <= |trace|
  {
    exists i :: 0 <= i < n && Accepted(domains, trace[i]) && forall j :: i < j < n ==> !trace[j].Reset?
  }

  /** Every DATA comes after an accepted MAIL, with no Reset in between. */
  predicate DataAfterMail(domains: seq<string>, trace: seq<Command>)
  {
    forall n :: 0 <= n < |trace| && trace[n].Data? ==> MailBefore(domains, trace, n)
  }

  /** After an accepted MAIL the session holds an allowed sender. */
  lemma {:induction false} SenderIsAllowed(domains: seq<string>, trace: seq<Command>)
    requires MailBefore(domains, trace, |trace|)
    ensures Allowed(domains, Play(domains, trace).from)
  {
    hide Allowed, CleanEmail;
    var i :| 0 <= i < |trace| && Accepted(domains, trace[i]) && forall j :: i < j < |trace| ==> !trace[j].Reset?;
    var front := trace[..|trace| - 1];
    if i < |front| {
      assert front[i] == trace[i] && forall j :: i < j < |front| ==> front[j] == trace[j];
      SenderIsAllowed(domains, front);
    }
  }

  lemma NonEmptySender(value: string, domains: seq<string>, from: string)
    requires domains != [] && Allowed(domains, from)
    ensures domains == Settings.Entries(Split(value, ',')) ==> from != ""
  {
    var d :| d in domains && InDomain(from, d);
    if domains == Settings.Entries(Split(value, ',')) {
      Settings.EntriesAreNonBlankPieces(Split(value, ','), d);
    }
  }

  lemma NonEmptySenderCounts(c: MailContent, e: Envelope, u: Upload, w: World)
    requires IsContent(c, e, u, w) && e.from != ""
    ensures c.from == e.from
  {
  }

  lemma FrontIsOrdered(domains: seq<string>, trace: seq<Command>)
    requires DataAfterMail(domains, trace) && trace != []
    ensures DataAfterMail(domains, trace[..|trace| - 1])
    ensures trace[|trace| - 1].Data? ==> MailBefore(domains, trace[..|trace| - 1], |trace| - 1)
  {
    var front := trace[..|trace| - 1];
    forall n | 0 <= n < |trace| && trace[n].Data?
      ensures MailBefore(domains, front, n)
    {
      var i :| 0 <= i < n && Accepted(domains, trace[i]) && forall j :: i < j < n ==> !trace[j].Reset?;
      assert front[i] == trace[i] && forall j :: i < j < n ==> front[j] == trace[j];
    }
  }

  /** A session with a restrictive list read from the configuration, in which every DATA comes after
      an accepted MAIL, publishes only jobs with a non-empty sender in an allowed domain. */
  lemma {:induction false} DomainFilterHolds(value: string, domains: seq<string>, maxMessageSizeMb: int,
                                             trace: seq<Command>, queue: seq<MailJob>)
    requires DataAfterMail(domains, trace) && domains != []
    requires Published(domains, maxMessageSizeMb, trace, queue)
    ensures domains == Settings.Entries(Split(value, ',')) ==>
      forall job :: job in queue ==>
        job.content.from != "" && exists d :: d in domains && InDomain(job.content.from, d)
  {
    hide IsContent, Publishes, InDomain, MailBefore, DataAfterMail;
    if domains == Settings.Entries(Split(value, ',')) && trace != [] {
      var front := trace[..|trace| - 1];
      var c := trace[|trace| - 1];
      FrontIsOrdered(domains, trace);
      if c.Data? && Publishes(maxMessageSizeMb, c.upload, c.world) {
        var rest := queue[..|queue| - 1];
        var job := queue[|queue| - 1];
        DomainFilterHolds(value, domains, maxMessageSizeMb, front, rest);
        SenderIsAllowed(domains, front);
        NonEmptySender(value, domains, Play(domains, front).from);
        NonEmptySenderCounts(job.content, Play(domains, front), c.upload, c.world);
        assert queue == rest + [job];
      } else {
        DomainFilterHolds(value, domains, maxMessageSizeMb, front, queue);
      }
    }
  }

  /** A list of blanks is set, but restricts nobody. */
  lemma BlankListAllowsAll(value: string, from: string)
    requires forall i :: 0 <= i < |Split(value, ',')| ==> TrimSpace(Split(value, ',')[i]) == ""
    ensures Allowed(Settings.Entries(Split(value, ',')), from)
  {
    Settings.EmptyExactlyWhenBlank(Split(value, ','));
  }

  /** An attachment that could not be saved reaches the queue with an empty storage path. */
  lemma UnsavedShows(infos: seq<AttachmentInfo>, parts: seq<Part>, w: World, i: nat)
    requires CarriesAttachments(infos, parts, w) && i < |infos| && !w.saveOk(i)
    ensures infos[i].storagePath == ""
  {
    var a :| Describes(a, Readable(parts)[i]) && infos[i] == Info(a);
  }
}
