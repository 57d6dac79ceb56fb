/**
 The life of a mail job as a transition system. One step is one call to the database, the
 status cache or the broker, so every interleaving of producers, cancellers, worker goroutines
 and backoff timers is a run. The `log` and `published` fields are history that no step reads.
 */
module Lifecycle {
  import opened Models
  import opened Routing
  import opened Backoff

  /** The columns of a `mails` row that the life cycle reads or writes. */
  datatype Row = Row(status: MailStatus, retryCount: int, clientId: string)

  datatype CacheEntry = CacheEntry(status: MailStatus, retryCount: int)

  /** The next call a worker will make inside `processMessages`, `handleMessage` or `handleRetry`. */
  datatype Pc =
    | TestShutdown
    | EnterSection
    | CheckCancelled
    | MarkCache
    | MarkRow
    | Send
    | SentRow
    | SentCache
    | CountRetry
    | FailPublish
    | FailRow
    | FailCache
    | RetryRow
    | RetryCache
    | SpawnTimer
    | Ack
    | Leave

  /** `msg` is the delivery as the broker knows it; the decoded job differs from it at most in
      its retry count. `unacked` says whether the broker still holds the delivery for this worker. */
  datatype Worker = Idle | Busy(pc: Pc, msg: MailJob, retryCount: int, unacked: bool) {
    function Job(): MailJob
      requires Busy?
    {
      msg.(retryCount := retryCount)
    }
  }

  datatype ProducerPc = ToPublish | ToCache | ToFailRow | Submitted

  datatype Producer = Producer(pc: ProducerPc, mailId: Uuid, content: MailContent)

  datatype CancellerPc = ToCancelRow | ToCancelCache | CancelDone

  datatype Canceller = Canceller(pc: CancellerPc, mailId: Uuid)

  datatype Event =
    | Attempted(job: MailJob, backend: Backend, accepted: bool)
    | Skipped(job: MailJob)
    | Scheduled(job: MailJob, delay: int)
    | Lost(job: MailJob)

  datatype State = State(
    rows: map<Uuid, Row>,
    cache: map<Uuid, CacheEntry>,
    queue: seq<MailJob>,
    failed: seq<MailJob>,
    timers: seq<MailJob>,
    workers: seq<Worker>,
    producers: seq<Producer>,
    cancellers: seq<Canceller>,
    activeJobs: int,
    isShutdown: bool,
    channelOpen: bool,
    published: map<Uuid, MailContent>,
    log: seq<Event>)

  datatype Label =
    | Create(mailId: Uuid, content: MailContent, clientId: string)
    | Produce(producer: nat, ok: bool)
    | CancelRead(mailId: Uuid, clientId: string)
    | Cancelling(canceller: nat, ok: bool)
    | Expire(mailId: Uuid)
    | Deliver(worker: nat, index: nat)
    | Work(worker: nat, ok: bool, disk: Disk)
    | Fire(timer: nat)
    | Shutdown
    | CloseChannel
    | Crash

  function Init(concurrency: nat): State
  {
    State(map[], map[], [], [], [], seq(concurrency, _ => Idle), [], [], 0, false, true, map[], [])
  }

  // ---- Single writes. Errors of cache and row writes are ignored by the program, so `ok`
  // ---- only decides whether the write happens.

  function SetStatus(cache: map<Uuid, CacheEntry>, ok: bool, id: Uuid, status: MailStatus, count: int)
    : map<Uuid, CacheEntry>
  {
    if ok then cache[id := CacheEntry(status, count)] else cache
  }

  function SetRowStatus(rows: map<Uuid, Row>, ok: bool, id: Uuid, status: MailStatus): map<Uuid, Row>
  {
    if ok && id in rows then rows[id := rows[id].(status := status)] else rows
  }

  function SetRowCount(rows: map<Uuid, Row>, ok: bool, id: Uuid, count: int): map<Uuid, Row>
  {
    if ok && id in rows then rows[id := rows[id].(retryCount := count)] else rows
  }

  /** Both senders read every attachment before they call the provider. */
  predicate Loadable(content: MailContent, disk: Disk)
  {
    forall a :: a in content.attachments ==> a.storagePath in disk
  }

  // ---- The worker program

  /** What one worker step changes: its own slot, the shared records, and what it appends. */
  datatype Effect = Effect(
    worker: Worker,
    rows: map<Uuid, Row>,
    cache: map<Uuid, CacheEntry>,
    activeJobs: int,
    toQueue: seq<MailJob>,
    toFailed: seq<MailJob>,
    toTimers: seq<MailJob>,
    toLog: seq<Event>)

  /** One call of the worker. A closed channel makes publishing, acking and nacking no-ops. */
  function Advance(cfg: Config, s: State, k: Worker, ok: bool, disk: Disk): Effect
    requires k.Busy?
  {
    var id := k.msg.mailId;
    var job := k.Job();
    var e := Effect(k, s.rows, s.cache, s.activeJobs, [], [], [], []);
    match k.pc
    case TestShutdown =>
      if s.isShutdown then e.(worker := Idle, toQueue := if k.unacked then [k.msg] else [])
      else e.(worker := k.(pc := EnterSection))
    case EnterSection =>
      e.(worker := k.(pc := CheckCancelled), activeJobs := s.activeJobs + 1)
    case CheckCancelled =>
      if ok && id in s.rows && s.rows[id].status == Cancelled
      then e.(worker := k.(pc := Ack), toLog := [Skipped(job)])
      else e.(worker := k.(pc := MarkCache))
    case MarkCache =>
      e.(worker := k.(pc := MarkRow), cache := SetStatus(s.cache, ok, id, Processing, k.retryCount))
    case MarkRow =>
      e.(worker := k.(pc := Send), rows := SetRowStatus(s.rows, ok, id, Processing))
    case Send =>
      var accepted := ok && Loadable(job.content, disk);
      e.(worker := k.(pc := if accepted then SentRow else CountRetry),
         toLog := [Attempted(job, WorkerBackend(cfg, job.content), accepted)])
    case SentRow =>
      e.(worker := k.(pc := SentCache), rows := SetRowStatus(s.rows, ok, id, Sent))
    case SentCache =>
      e.(worker := k.(pc := Ack), cache := SetStatus(s.cache, ok, id, Sent, k.retryCount))
    case CountRetry =>
      var count := k.retryCount + 1;
      e.(worker := k.(pc := if count >= cfg.maxRetryCount then FailPublish else RetryRow, retryCount := count))
    case FailPublish =>
      e.(worker := k.(pc := FailRow), toFailed := if s.channelOpen then [job] else [])
    case FailRow =>
      e.(worker := k.(pc := FailCache),
         rows := SetRowCount(SetRowStatus(s.rows, ok, id, Failed), ok, id, k.retryCount))
    case FailCache =>
      e.(worker := k.(pc := Ack), cache := SetStatus(s.cache, ok, id, Failed, k.retryCount))
    case RetryRow =>
      e.(worker := k.(pc := RetryCache), rows := SetRowCount(s.rows, ok, id, k.retryCount))
    case RetryCache =>
      e.(worker := k.(pc := SpawnTimer), cache := SetStatus(s.cache, ok, id, Queued, k.retryCount))
    case SpawnTimer =>
      e.(worker := k.(pc := Ack), toTimers := [job], toLog := [Scheduled(job, Delay(k.retryCount))])
    case Ack =>
      e.(worker := k.(pc := Leave, unacked := false))
    case Leave =>
      e.(worker := Idle, activeJobs := s.activeJobs - 1)
  }

  function Commit(s: State, w: nat, e: Effect): State
    requires w < |s.workers|
  {
    s.(workers := s.workers[w := e.worker],
       rows := e.rows,
       cache := e.cache,
       activeJobs := e.activeJobs,
       queue := s.queue + e.toQueue,
       failed := s.failed + e.toFailed,
       timers := s.timers + e.toTimers,
       log := s.log + e.toLog)
  }

  // ---- What a dead process or a closed channel leaves behind

  /** The deliveries the broker takes back when the channel goes away. */
  function Unacked(workers: seq<Worker>): seq<MailJob>
  {
    if workers == [] then []
    else
      var k := workers[|workers| - 1];
      Unacked(workers[..|workers| - 1]) + if k.Busy? && k.unacked then [k.msg] else []
  }

  function Orphan(k: Worker): Worker
  {
    if k.Busy? then k.(unacked := false) else k
  }

  function Losses(timers: seq<MailJob>): seq<Event>
  {
    seq(|timers|, i requires 0 <= i < |timers| => Lost(timers[i]))
  }

  // ---- Steps

  predicate Enabled(cfg: Config, s: State, l: Label)
  {
    match l
    case Create(id, content, _) => id !in s.rows && Submittable(cfg, content)
    case Produce(p, _) => p < |s.producers| && s.producers[p].pc != Submitted
    case CancelRead(id, clientId) =>
      id in s.rows && s.rows[id].clientId == clientId && s.rows[id].status == Queued
    case Cancelling(c, _) => c < |s.cancellers| && s.cancellers[c].pc != CancelDone
    case Expire(id) => id in s.cache
    case Deliver(w, i) => s.channelOpen && w < |s.workers| && s.workers[w].Idle? && i < |s.queue|
    case Work(w, _, _) => w < |s.workers| && s.workers[w].Busy?
    case Fire(t) => t < |s.timers|
    case Shutdown => true
    case CloseChannel => s.channelOpen
    case Crash => true
  }

  function ProduceStep(s: State, p: nat, ok: bool): State
    requires p < |s.producers| && s.producers[p].pc != Submitted
  {
    var q := s.producers[p];
    match q.pc
    case ToPublish =>
      if ok then
        s.(producers := s.producers[p := q.(pc := ToCache)],
           queue := s.queue + [MailJob(q.mailId, q.content, 0)],
           published := s.published[q.mailId := q.content])
      else
        s.(producers := s.producers[p := q.(pc := ToFailRow)])
    case ToCache =>
      s.(producers := s.producers[p := q.(pc := Submitted)],
         cache := SetStatus(s.cache, ok, q.mailId, Queued, 0))
    case ToFailRow =>
      s.(producers := s.producers[p := q.(pc := Submitted)],
         rows := SetRowStatus(s.rows, ok, q.mailId, Failed))
  }

  function CancelStep(s: State, c: nat, ok: bool): State
    requires c < |s.cancellers| && s.cancellers[c].pc != CancelDone
  {
    var q := s.cancellers[c];
    match q.pc
    case ToCancelRow =>
      s.(cancellers := s.cancellers[c := q.(pc := ToCancelCache)],
         rows := SetRowStatus(s.rows, ok, q.mailId, Cancelled))
    case ToCancelCache =>
      s.(cancellers := s.cancellers[c := q.(pc := CancelDone)],
         cache := SetStatus(s.cache, ok, q.mailId, Cancelled, 0))
  }

  /** The successor state; a label that is not enabled changes nothing. */
  function Next(cfg: Config, s: State, l: Label): State
  {
    if !Enabled(cfg, s, l) then s
    else match l
      case Create(id, content, clientId) =>
        s.(rows := s.rows[id := Row(Queued, 0, clientId)],
           producers := s.producers + [Producer(ToPublish, id, content)])
      case Produce(p, ok) => ProduceStep(s, p, ok)
      case CancelRead(id, _) => s.(cancellers := s.cancellers + [Canceller(ToCancelRow, id)])
      case Cancelling(c, ok) => CancelStep(s, c, ok)
      case Expire(id) => s.(cache := s.cache - {id})
      case Deliver(w, i) =>
        var msg := s.queue[i];
        s.(queue := s.queue[..i] + s.queue[i + 1..],
           workers := s.workers[w := Busy(TestShutdown, msg, msg.retryCount, true)])
      case Work(w, ok, disk) => Commit(s, w, Advance(cfg, s, s.workers[w], ok, disk))
      case Fire(t) =>
        var job := s.timers[t];
        var s' := s.(timers := s.timers[..t] + s.timers[t + 1..]);
        if s.channelOpen then s'.(queue := s.queue + [job]) else s'.(log := s.log + [Lost(job)])
      case Shutdown => s.(isShutdown := true)
      case CloseChannel =>
        s.(channelOpen := false,
           queue := s.queue + Unacked(s.workers),
           workers := seq(|s.workers|, i requires 0 <= i < |s.workers| => Orphan(s.workers[i])))
      case Crash =>
        s.(channelOpen := true,
           isShutdown := false,
           activeJobs := 0,
           queue := s.queue + Unacked(s.workers),
           workers := seq(|s.workers|, _ => Idle),
           timers := [],
           log := s.log + Losses(s.timers))
  }

  // ---- The equations of `Next`, label by label, for proofs that look at one kind of step

  lemma Disabled(cfg: Config, s: State, l: Label)
    requires !Enabled(cfg, s, l)
    ensures Next(cfg, s, l) == s
  {
  }

  lemma CreateIs(cfg: Config, s: State, id: Uuid, content: MailContent, clientId: string)
    ensures
      Next(cfg, s, Create(id, content, clientId)) ==
      if !Enabled(cfg, s, Create(id, content, clientId)) then s
      else
        s.(rows := s.rows[id := Row(Queued, 0, clientId)],
           producers := s.producers + [Producer(ToPublish, id, content)])
  {
  }

  lemma ProduceIs(cfg: Config, s: State, p: nat, ok: bool)
    ensures
      Next(cfg, s, Produce(p, ok)) == if Enabled(cfg, s, Produce(p, ok)) then ProduceStep(s, p, ok) else s
  {
  }

  lemma CancellingIs(cfg: Config, s: State, c: nat, ok: bool)
    ensures
      Next(cfg, s, Cancelling(c, ok)) == if Enabled(cfg, s, Cancelling(c, ok)) then CancelStep(s, c, ok) else s
  {
  }

  lemma DeliverIs(cfg: Config, s: State, w: nat, i: nat)
    ensures
      Next(cfg, s, Deliver(w, i)) ==
      if !Enabled(cfg, s, Deliver(w, i)) then s
      else
        s.(queue := s.queue[..i] + s.queue[i + 1..],
           workers := s.workers[w := Busy(TestShutdown, s.queue[i], s.queue[i].retryCount, true)])
  {
  }

  lemma WorkIs(cfg: Config, s: State, w: nat, ok: bool, disk: Disk)
    ensures
      Next(cfg, s, Work(w, ok, disk)) ==
      if Enabled(cfg, s, Work(w, ok, disk)) then Commit(s, w, Advance(cfg, s, s.workers[w], ok, disk)) else s
  {
    hide Advance;
  }

  lemma FireIs(cfg: Config, s: State, t: nat)
    ensures
      Next(cfg, s, Fire(t)) ==
      if !Enabled(cfg, s, Fire(t)) then s
      else
        var rest := s.(timers := s.timers[..t] + s.timers[t + 1..]);
        if s.channelOpen then rest.(queue := s.queue + [s.timers[t]]) else rest.(log := s.log + [Lost(s.timers[t])])
  {
  }

  lemma CloseIs(cfg: Config, s: State)
    requires s.channelOpen
    ensures
      Next(cfg, s, CloseChannel) ==
      s.(channelOpen := false,
         queue := s.queue + Unacked(s.workers),
         workers := seq(|s.workers|, i requires 0 <= i < |s.workers| => Orphan(s.workers[i])))
  {
    hide Advance, Unacked;
  }

  lemma CrashIs(cfg: Config, s: State)
    ensures
      Next(cfg, s, Crash) ==
      s.(channelOpen := true,
         isShutdown := false,
         activeJobs := 0,
         queue := s.queue + Unacked(s.workers),
         workers := seq(|s.workers|, _ => Idle),
         timers := [],
         log := s.log + Losses(s.timers))
  {
    hide Advance, Unacked, Losses;
  }

  function Exec(cfg: Config, s: State, run: seq<Label>): State
  {
    if run == [] then s
    else Next(cfg, Exec(cfg, s, run[..|run| - 1]), run[|run| - 1])
  }

  /** Every state a run can lead to, from the start of the system. */
  function After(cfg: Config, concurrency: nat, run: seq<Label>): State
  {
    Exec(cfg, Init(concurrency), run)
  }

  /** Runs in which no process dies and no channel closes. */
  predicate Calm(run: seq<Label>)
  {
    forall l :: l in run ==> !l.Crash? && !l.CloseChannel?
  }

  lemma ExecStep(cfg: Config, s: State, run: seq<Label>, l: Label)
    ensures Exec(cfg, s, run + [l]) == Next(cfg, Exec(cfg, s, run), l)
  {
    hide Next;
    assert (run + [l])[..|run|] == run;
  }

  lemma {:induction false} ExecConcat(cfg: Config, s: State, a: seq<Label>, b: seq<Label>)
    ensures Exec(cfg, s, a + b) == Exec(cfg, Exec(cfg, s, a), b)
  {
    hide Next;
    if b == [] {
      assert a + b == a;
    } else {
      var l := b[|b| - 1];
      ExecConcat(cfg, s, a, b[..|b| - 1]);
      assert a + b == (a + b[..|b| - 1]) + [l];
      ExecStep(cfg, s, a + b[..|b| - 1], l);
    }
  }
}
