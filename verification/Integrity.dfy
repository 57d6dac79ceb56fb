/** What is true of every single job, worker and log entry, in every run, crashes included. */
module Integrity {
  import opened Models
  import opened Routing
  import opened Backoff
  import opened Lifecycle
  import opened Tokens

  /** The most often a mail can be attempted without redelivery: `MaxRetryCount`, but at least once. */
  function Limit(cfg: Config): int
  {
    if cfg.maxRetryCount <= 1 then 1 else cfg.maxRetryCount
  }

  /** The job is the published one in every field but its retry count. */
  predicate Genuine(published: map<Uuid, MailContent>, j: MailJob)
  {
    j.mailId in published && published[j.mailId] == j.content
  }

  predicate JobOk(cfg: Config, published: map<Uuid, MailContent>, j: MailJob)
  {
    Genuine(published, j) && (j.retryCount == 0 || 0 < j.retryCount < cfg.maxRetryCount)
  }

  predicate DeadOk(cfg: Config, published: map<Uuid, MailContent>, j: MailJob)
  {
    Genuine(published, j) && j.retryCount == Limit(cfg)
  }

  predicate WorkerOk(cfg: Config, published: map<Uuid, MailContent>, k: Worker)
  {
    k.Busy? ==>
      && JobOk(cfg, published, k.msg)
      && match k.pc {
           case FailPublish | FailRow | FailCache =>
             k.retryCount == k.msg.retryCount + 1 && k.retryCount >= cfg.maxRetryCount
           case RetryRow | RetryCache | SpawnTimer =>
             k.retryCount == k.msg.retryCount + 1 && k.retryCount < cfg.maxRetryCount
           case Ack | Leave => true
           case _ => k.retryCount == k.msg.retryCount
         }
  }

  predicate AllSaved(content: MailContent)
  {
    forall a :: a in content.attachments ==> a.storagePath != ""
  }

  predicate EventOk(cfg: Config, published: map<Uuid, MailContent>, e: Event)
  {
    && JobOk(cfg, published, e.job)
    && (e.Attempted? ==> e.backend == WorkerBackend(cfg, e.job.content))
    && (e.Attempted? && e.accepted ==> AllSaved(e.job.content))
    && (e.Scheduled? ==> e.job.retryCount >= 1 && e.delay == Delay(e.job.retryCount))
  }

  predicate JobsOk(cfg: Config, s: State)
  {
    && (forall j :: j in s.queue ==> JobOk(cfg, s.published, j))
    && (forall j :: j in s.timers ==> JobOk(cfg, s.published, j) && j.retryCount >= 1)
    && (forall j :: j in s.failed ==> DeadOk(cfg, s.published, j))
    && (forall k :: k in s.workers ==> WorkerOk(cfg, s.published, k))
    && (forall e :: e in s.log ==> EventOk(cfg, s.published, e))
  }

  predicate ContentsOk(cfg: Config, s: State)
  {
    && (forall p :: p in s.producers ==> Submittable(cfg, p.content))
    && (forall id :: id in s.published ==> Submittable(cfg, s.published[id]))
  }

  // ---- One step

  lemma AdvanceWorkerOk(cfg: Config, s: State, k: Worker, ok: bool, disk: Disk)
    requires k.Busy? && WorkerOk(cfg, s.published, k)
    ensures WorkerOk(cfg, s.published, Advance(cfg, s, k, ok, disk).worker)
  {
    hide Advance, WorkerOk;
    if Loud(k.pc) {
      LoudWorkerOk(cfg, s, k, ok, disk);
    } else {
      QuietWorkerOk(cfg, s, k, ok, disk);
    }
  }

  lemma LoudWorkerOk(cfg: Config, s: State, k: Worker, ok: bool, disk: Disk)
    requires k.Busy? && Loud(k.pc) && WorkerOk(cfg, s.published, k)
    ensures WorkerOk(cfg, s.published, Advance(cfg, s, k, ok, disk).worker)
  {
    hide SetStatus, SetRowStatus, SetRowCount, Loadable, JobOk;
  }

  lemma QuietWorkerOk(cfg: Config, s: State, k: Worker, ok: bool, disk: Disk)
    requires k.Busy? && !Loud(k.pc) && WorkerOk(cfg, s.published, k)
    ensures WorkerOk(cfg, s.published, Advance(cfg, s, k, ok, disk).worker)
  {
    hide SetStatus, SetRowStatus, SetRowCount, Loadable, JobOk;
  }

  /** Everything a worker step appends is in order. */
  lemma AdvanceOk(cfg: Config, s: State, k: Worker, ok: bool, disk: Disk)
    requires k.Busy? && WorkerOk(cfg, s.published, k)
    ensures
      var e := Advance(cfg, s, k, ok, disk);
      && (forall j :: j in e.toQueue ==> JobOk(cfg, s.published, j))
      && (forall j :: j in e.toTimers ==> JobOk(cfg, s.published, j) && j.retryCount >= 1)
      && (forall j :: j in e.toFailed ==> DeadOk(cfg, s.published, j))
      && (forall x :: x in e.toLog ==> EventOk(cfg, s.published, x))
  {
    if !Loud(k.pc) {
      AdvanceQuiet(cfg, s, k, ok, disk);
      hide Advance;
    }
  }

  lemma {:induction false} UnackedOk(cfg: Config, published: map<Uuid, MailContent>, workers: seq<Worker>)
    requires forall k :: k in workers ==> WorkerOk(cfg, published, k)
    ensures forall j :: j in Unacked(workers) ==> JobOk(cfg, published, j)
  {
    if workers != [] {
      UnackedOk(cfg, published, workers[..|workers| - 1]);
      assert workers[|workers| - 1] in workers;
    }
  }

  /** A first publication of an ID leaves every earlier job genuine. */
  lemma PublishOk(cfg: Config, s: State, id: Uuid, content: MailContent)
    requires JobsOk(cfg, s) && id !in s.published
    ensures JobsOk(cfg, s.(published := s.published[id := content]))
  {
  }

  lemma WorkJobsOk(cfg: Config, s: State, w: nat, ok: bool, disk: Disk)
    requires JobsOk(cfg, s) && w < |s.workers| && s.workers[w].Busy?
    ensures JobsOk(cfg, Commit(s, w, Advance(cfg, s, s.workers[w], ok, disk)))
  {
    assert s.workers[w] in s.workers;
    AdvanceOk(cfg, s, s.workers[w], ok, disk);
    AdvanceWorkerOk(cfg, s, s.workers[w], ok, disk);
    hide Advance, JobOk, DeadOk, WorkerOk, EventOk;
  }

  lemma BreakJobsOk(cfg: Config, s: State, l: Label)
    requires JobsOk(cfg, s) && (l.Crash? || l.CloseChannel?)
    ensures JobsOk(cfg, Next(cfg, s, l))
  {
    hide Advance, JobOk, DeadOk;
    UnackedOk(cfg, s.published, s.workers);
    var t := Next(cfg, s, l);
    forall i | 0 <= i < |t.workers|
      ensures WorkerOk(cfg, s.published, t.workers[i])
    {
      assert s.workers[i] in s.workers;
    }
  }

  lemma MoveJobsOk(cfg: Config, s: State, l: Label)
    requires JobsOk(cfg, s) && (l.Deliver? || l.Fire?)
    ensures JobsOk(cfg, Next(cfg, s, l))
  {
    hide Next, Advance, DeadOk, Genuine;
    if l.Deliver? {
      DeliverIs(cfg, s, l.worker, l.index);
    } else {
      FireIs(cfg, s, l.timer);
    }
  }

  lemma ProduceJobsOk(cfg: Config, s: State, l: Label)
    requires JobsOk(cfg, s) && Provenance(s) && l.Produce?
    ensures JobsOk(cfg, Next(cfg, s, l))
  {
    ProduceIs(cfg, s, l.producer, l.ok);
    if Enabled(cfg, s, l) && s.producers[l.producer].pc == ToPublish && l.ok {
      PublishOk(cfg, s, s.producers[l.producer].mailId, s.producers[l.producer].content);
    }
    hide Next, DeadOk, WorkerOk, EventOk;
  }

  lemma JobsOkStep(cfg: Config, s: State, l: Label)
    requires JobsOk(cfg, s) && Provenance(s)
    ensures JobsOk(cfg, Next(cfg, s, l))
  {
    match l
    case Work(w, ok, disk) =>
      WorkIs(cfg, s, w, ok, disk);
      hide Next, Advance, Commit;
      if Enabled(cfg, s, l) {
        WorkJobsOk(cfg, s, w, ok, disk);
      }
    case Crash | CloseChannel =>
      BreakJobsOk(cfg, s, l);
      hide Next;
    case Produce(_, _) =>
      ProduceJobsOk(cfg, s, l);
      hide Next;
    case Deliver(_, _) | Fire(_) =>
      MoveJobsOk(cfg, s, l);
      hide Next;
    case _ =>
      RecordJobsOk(cfg, s, l);
      hide Next;
  }

  /** Steps that change nothing but rows, cache, producers, cancellers and the shutdown flag. */
  lemma RecordJobsOk(cfg: Config, s: State, l: Label)
    requires JobsOk(cfg, s)
    requires l.Create? || l.CancelRead? || l.Cancelling? || l.Expire? || l.Shutdown?
    ensures JobsOk(cfg, Next(cfg, s, l))
  {
    hide Advance, Unacked, Losses, ProduceStep, JobOk, DeadOk, EventOk, WorkerOk;
  }

  lemma ContentsOkStep(cfg: Config, s: State, l: Label)
    requires ContentsOk(cfg, s)
    ensures ContentsOk(cfg, Next(cfg, s, l))
  {
    hide Next, Enabled, Submittable;
    match l
    case Create(id, content, clientId) =>
      CreateContents(cfg, s, id, content, clientId);
    case Produce(p, ok) =>
      ProduceContents(cfg, s, p, ok);
    case _ =>
      Frame(cfg, s, l);
  }

  lemma CreateContents(cfg: Config, s: State, id: Uuid, content: MailContent, clientId: string)
    requires ContentsOk(cfg, s)
    ensures ContentsOk(cfg, Next(cfg, s, Create(id, content, clientId)))
  {
    CreateIs(cfg, s, id, content, clientId);
    hide Next, Submittable;
  }

  lemma ProduceContents(cfg: Config, s: State, p: nat, ok: bool)
    requires ContentsOk(cfg, s)
    ensures ContentsOk(cfg, Next(cfg, s, Produce(p, ok)))
  {
    ProduceIs(cfg, s, p, ok);
    hide Next, ProduceStep, ContentsOk;
    if Enabled(cfg, s, Produce(p, ok)) {
      ProducedContents(cfg, s, p, ok);
    }
  }

  lemma ProducedContents(cfg: Config, s: State, p: nat, ok: bool)
    requires ContentsOk(cfg, s) && p < |s.producers| && s.producers[p].pc != Submitted
    ensures ContentsOk(cfg, ProduceStep(s, p, ok))
  {
    hide Submittable, SetStatus, SetRowStatus;
    assert s.producers[p] in s.producers;
  }

  // ---- Whole runs

  /** In every state of every run: jobs are what was submitted, retry counts stay below the
      maximum until the failed queue, where they are exactly the limit. */
  lemma {:induction false} JobIntegrity(cfg: Config, concurrency: nat, run: seq<Label>)
    ensures JobsOk(cfg, After(cfg, concurrency, run))
    ensures ContentsOk(cfg, After(cfg, concurrency, run))
  {
    hide Next, JobsOk, ContentsOk, Provenance, Held;
    if run != [] {
      var before := run[..|run| - 1];
      var s := After(cfg, concurrency, before);
      JobIntegrity(cfg, concurrency, before);
      Invariants(cfg, concurrency, before);
      JobsOkStep(cfg, s, run[|run| - 1]);
      ContentsOkStep(cfg, s, run[|run| - 1]);
    } else {
      InitOk(cfg, concurrency);
    }
  }

  lemma InitOk(cfg: Config, concurrency: nat)
    ensures JobsOk(cfg, Init(concurrency)) && ContentsOk(cfg, Init(concurrency))
  {
  }
}
