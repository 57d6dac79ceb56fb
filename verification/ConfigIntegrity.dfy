/**
 Mails and sender configs in one system: every way to run the mail life cycle, interleaved with
 every way to create, update and delete configs. A mail row is inserted with its reference to a
 config, under the constraints of the database.
 */
module ConfigIntegrity {
  import opened Models
  import opened Text
  import opened Lifecycle
  import opened Tokens
  import opened Integrity
  import C = SenderConfigs

  datatype System = System(mails: State, table: C.Table)

  datatype Act =
    | Configure(op: C.Op)
    | Step(step: Label)

  /** The config a mail was submitted with is one of its sender's address. The handler looked it up
      before; it may have become inactive since, but no update changes an address. */
  predicate SendsAs(t: C.Table, content: MailContent)
  {
    content.senderConfigId.Some? ==>
      && content.senderConfigId.value in t.configs
      && t.configs[content.senderConfigId.value].senderEmail == ToLower(content.from)
  }

  /** Mail rows are only inserted by submissions, under the primary and the foreign key. */
  predicate Possible(s: System, a: Act)
  {
    match a
    case Configure(op) => !op.InsertMail?
    case Step(Create(id, content, _)) => C.CanInsert(s.table, id, content.senderConfigId) && SendsAs(s.table, content)
    case Step(_) => true
  }

  function NextSystem(cfg: Config, codec: C.Codec, s: System, a: Act): System
  {
    if !Possible(s, a) then s
    else match a
      case Configure(op) => s.(table := C.Apply(cfg.orgEmailDomain, codec, s.table, op))
      case Step(l) =>
        System(Next(cfg, s.mails, l),
               if l.Create? && Enabled(cfg, s.mails, l)
               then C.Apply(cfg.orgEmailDomain, codec, s.table, C.InsertMail(l.mailId, l.content.senderConfigId))
               else s.table)
  }

  function RunSystem(cfg: Config, codec: C.Codec, concurrency: nat, acts: seq<Act>): System
  {
    if acts == [] then System(Init(concurrency), C.Table(map[], map[]))
    else NextSystem(cfg, codec, RunSystem(cfg, codec, concurrency, acts[..|acts| - 1]), acts[|acts| - 1])
  }

  // ---- The two halves of a run are runs of the two models

  lemma {:induction false} Halves(cfg: Config, codec: C.Codec, concurrency: nat, acts: seq<Act>)
    returns (run: seq<Label>, ops: seq<C.Op>)
    ensures RunSystem(cfg, codec, concurrency, acts).mails == After(cfg, concurrency, run)
    ensures RunSystem(cfg, codec, concurrency, acts).table == C.ApplyAll(cfg.orgEmailDomain, codec, ops)
  {
    hide Next, Enabled, Possible, C.Apply;
    run, ops := [], [];
    if acts != [] {
      var a := acts[|acts| - 1];
      var s := RunSystem(cfg, codec, concurrency, acts[..|acts| - 1]);
      run, ops := Halves(cfg, codec, concurrency, acts[..|acts| - 1]);
      if Possible(s, a) {
        if a.Configure? {
          assert (ops + [a.op])[..|ops|] == ops;
          ops := ops + [a.op];
        } else {
          if a.step.Create? && Enabled(cfg, s.mails, a.step) {
            var insert := C.InsertMail(a.step.mailId, a.step.content.senderConfigId);
            assert (ops + [insert])[..|ops|] == ops;
            ops := ops + [insert];
          }
          ExecStep(cfg, Init(concurrency), run, a.step);
          run := run + [a.step];
        }
      }
    }
  }

  // ---- The link between them

  /** A submitted mail's row refers to the config its job names, and that config is of its sender. */
  predicate Refers(t: C.Table, id: Uuid, content: MailContent)
  {
    id in t.mails && t.mails[id] == content.senderConfigId && SendsAs(t, content)
  }

  predicate Linked(s: System)
  {
    && (forall p :: p in s.mails.producers ==> Refers(s.table, p.mailId, p.content))
    && (forall id :: id in s.mails.published ==> Refers(s.table, id, s.mails.published[id]))
  }

  /** No operation changes a mail's reference, or the address of a config that is referred to. */
  lemma ApplyKeepsReference(org: string, codec: C.Codec, t: C.Table, op: C.Op, id: Uuid, content: MailContent)
    requires Refers(t, id, content)
    ensures Refers(C.Apply(org, codec, t, op), id, content)
  {
    if content.senderConfigId.Some? && op.Delete? && op.id == content.senderConfigId.value {
      assert C.Referenced(t, op.id);
    }
  }

  lemma ApplyKeepsLinked(org: string, codec: C.Codec, s: System, op: C.Op)
    requires Linked(s)
    ensures Linked(s.(table := C.Apply(org, codec, s.table, op)))
  {
    hide C.Apply, Refers;
    forall p | p in s.mails.producers
      ensures Refers(C.Apply(org, codec, s.table, op), p.mailId, p.content)
    {
      ApplyKeepsReference(org, codec, s.table, op, p.mailId, p.content);
    }
    forall id | id in s.mails.published
      ensures Refers(C.Apply(org, codec, s.table, op), id, s.mails.published[id])
    {
      ApplyKeepsReference(org, codec, s.table, op, id, s.mails.published[id]);
    }
  }

  lemma CreateLinked(cfg: Config, codec: C.Codec, s: System, id: Uuid, content: MailContent, clientId: string)
    requires Linked(s) && Possible(s, Step(Create(id, content, clientId)))
    ensures Linked(NextSystem(cfg, codec, s, Step(Create(id, content, clientId))))
  {
    var insert := C.InsertMail(id, content.senderConfigId);
    CreateIs(cfg, s.mails, id, content, clientId);
    ApplyKeepsLinked(cfg.orgEmailDomain, codec, s, insert);
    var t := C.Apply(cfg.orgEmailDomain, codec, s.table, insert);
    assert Refers(t, id, content);
    hide Next, Enabled, Refers, Possible, C.Apply;
    assert Possible(s, Step(Create(id, content, clientId)));
  }

  lemma ProduceLinked(cfg: Config, s: System, p: nat, ok: bool)
    requires Linked(s)
    ensures Linked(s.(mails := Next(cfg, s.mails, Produce(p, ok))))
  {
    ProduceIs(cfg, s.mails, p, ok);
    hide Next, Refers;
    if Enabled(cfg, s.mails, Produce(p, ok)) {
      assert s.mails.producers[p] in s.mails.producers;
    }
  }

  lemma LinkedStep(cfg: Config, codec: C.Codec, s: System, a: Act)
    requires Linked(s)
    ensures Linked(NextSystem(cfg, codec, s, a))
  {
    hide Next, Linked, C.Apply, Enabled;
    if Possible(s, a) {
      match a
      case Configure(op) =>
        ApplyKeepsLinked(cfg.orgEmailDomain, codec, s, op);
      case Step(Create(id, content, clientId)) =>
        CreateLinked(cfg, codec, s, id, content, clientId);
      case Step(Produce(p, ok)) =>
        ProduceLinked(cfg, s, p, ok);
      case Step(l) =>
        Frame(cfg, s.mails, l);
        FrameLinked(s, s.(mails := Next(cfg, s.mails, l)));
    }
  }

  lemma FrameLinked(s: System, t: System)
    requires Linked(s) && t.table == s.table
    requires t.mails.producers == s.mails.producers && t.mails.published == s.mails.published
    ensures Linked(t)
  {
  }

  lemma {:induction false} AlwaysLinked(cfg: Config, codec: C.Codec, concurrency: nat, acts: seq<Act>)
    ensures Linked(RunSystem(cfg, codec, concurrency, acts))
  {
    hide NextSystem;
    if acts != [] {
      AlwaysLinked(cfg, codec, concurrency, acts[..|acts| - 1]);
      LinkedStep(cfg, codec, RunSystem(cfg, codec, concurrency, acts[..|acts| - 1]), acts[|acts| - 1]);
    }
  }

  // ---- Every live job

  /** Somebody will still read, or may still read, this job. */
  predicate Live(s: State, job: MailJob)
  {
    || job in s.queue || job in s.timers || job in s.failed
    || exists k :: k in s.workers && k.Busy? && k.msg == job
  }

  lemma LiveIsGenuine(cfg: Config, s: State, job: MailJob)
    requires JobsOk(cfg, s) && Live(s, job)
    ensures Genuine(s.published, job)
  {
  }

  /** In every run of submissions, deliveries, retries, crashes and config operations, a job that
      names a config, wherever it is, names one that exists, whose secret decrypts, and whose address
      is that of the job's sender; and deleting that config changes nothing. */
  lemma ConfigsOfJobs(cfg: Config, codec: C.Codec, concurrency: nat, acts: seq<Act>, job: MailJob)
    requires C.Sound(codec)
    requires Live(RunSystem(cfg, codec, concurrency, acts).mails, job) && job.content.senderConfigId.Some?
    ensures
      var t := RunSystem(cfg, codec, concurrency, acts).table;
      var id := job.content.senderConfigId.value;
      && id in t.configs
      && codec.decrypt(t.configs[id].encryptedSecret).Some?
      && t.configs[id].senderEmail == ToLower(job.content.from)
      && C.Apply(cfg.orgEmailDomain, codec, t, C.Delete(id)) == t
  {
    var s := RunSystem(cfg, codec, concurrency, acts);
    var run, ops := Halves(cfg, codec, concurrency, acts);
    AlwaysLinked(cfg, codec, concurrency, acts);
    JobIntegrity(cfg, concurrency, run);
    C.TableInvariant(cfg.orgEmailDomain, codec, ops);
    LiveIsGenuine(cfg, s.mails, job);
    hide RunSystem, After, C.ApplyAll, JobsOk, Live;
    assert Refers(s.table, job.mailId, job.content);
    assert s.table.mails[job.mailId] == Some(job.content.senderConfigId.value);
  }
}
