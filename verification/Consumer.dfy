/**
 The worker's message handler as sequential code. Running it statement by statement, with
 whatever the database, the cache, the providers and the broker answer, is a run of the
 transition system in which only this worker moves, every call gets the given answer, and the
 channel may close before any call. The laws of the transition system then hold of the handler.
 */
module Consumer {
  import opened Models
  import opened Routing
  import opened Backoff
  import opened Lifecycle
  import opened Tokens
  import opened Survival
  import opened Retries
  import opened Sums
  import StatusCache

  /** Which of the handler's calls succeed, the files the senders can read, and whether the channel
      closes just before the call at a program point. */
  datatype Answers = Answers(
    check: bool,
    markCache: bool,
    markRow: bool,
    send: bool,
    sentRow: bool,
    sentCache: bool,
    failRow: bool,
    failCache: bool,
    retryRow: bool,
    retryCache: bool,
    disk: Disk,
    closes: Pc -> bool)

  /** The answer to the call a worker makes at this point; the other calls report nothing. */
  function AnswerAt(a: Answers, pc: Pc): bool
  {
    match pc
    case CheckCancelled => a.check
    case MarkCache => a.markCache
    case MarkRow => a.markRow
    case Send => a.send
    case SentRow => a.sentRow
    case SentCache => a.sentCache
    case FailRow => a.failRow
    case FailCache => a.failCache
    case RetryRow => a.retryRow
    case RetryCache => a.retryCache
    case _ => true
  }

  /** The state in which the call at `pc` is made. */
  function Before(cfg: Config, s: State, a: Answers, pc: Pc): State
  {
    if a.closes(pc) && s.channelOpen then Next(cfg, s, CloseChannel) else s
  }

  /** In this state the step is the one the worker's program point and the answers call for. */
  predicate Obeys(s: State, l: Label, w: nat, a: Answers)
  {
    && w < |s.workers| && s.workers[w].Busy?
    && l == if a.closes(s.workers[w].pc) && s.channelOpen then CloseChannel
            else Work(w, AnswerAt(a, s.workers[w].pc), a.disk)
  }

  /** Only this worker moves, and every call gets its answer. */
  predicate Follows(cfg: Config, s: State, run: seq<Label>, w: nat, a: Answers)
  {
    forall i :: 0 <= i < |run| ==> Obeys(Exec(cfg, s, run[..i]), run[i], w, a)
  }

  lemma FollowsOne(cfg: Config, s: State, run: seq<Label>, l: Label, w: nat, a: Answers)
    requires Follows(cfg, s, run, w, a) && Obeys(Exec(cfg, s, run), l, w, a)
    ensures Follows(cfg, s, run + [l], w, a)
  {
    hide Exec, Obeys;
    forall i | 0 <= i < |run + [l]|
      ensures Obeys(Exec(cfg, s, (run + [l])[..i]), (run + [l])[i], w, a)
    {
      assert (run + [l])[..i] == run[..i];
      if i == |run| {
        assert run[..i] == run;
      }
    }
  }

  lemma FollowsConcat(cfg: Config, s: State, run: seq<Label>, more: seq<Label>, w: nat, a: Answers)
    requires Follows(cfg, s, run, w, a) && Follows(cfg, Exec(cfg, s, run), more, w, a)
    ensures Follows(cfg, s, run + more, w, a)
  {
    hide Exec, Obeys;
    forall i | 0 <= i < |run + more|
      ensures Obeys(Exec(cfg, s, (run + more)[..i]), (run + more)[i], w, a)
    {
      if i < |run| {
        assert (run + more)[..i] == run[..i];
      } else {
        assert (run + more)[..i] == run + more[..i - |run|];
        ExecConcat(cfg, s, run, more[..i - |run|]);
      }
    }
  }

  lemma CloseKeepsPc(cfg: Config, s: State, w: nat)
    requires w < |s.workers| && s.channelOpen
    ensures
      var t := Next(cfg, s, CloseChannel);
      !t.channelOpen && |t.workers| == |s.workers| && t.workers[w] == Orphan(s.workers[w])
  {
    CloseIs(cfg, s);
    hide Next;
  }

  // ---- What following the program does, by the laws of the transition system

  /** How many attempts the worker is still going to make with its delivery: one, unless it is past
      the send, gives the delivery back, or finds the mail cancelled. */
  function AttemptsAhead(s: State, w: nat, a: Answers): int
    requires w < |s.workers|
  {
    AheadOf(s.workers[w], s.rows, s.isShutdown, a)
  }

  function AheadOf(k: Worker, rows: map<Uuid, Row>, isShutdown: bool, a: Answers): int
  {
    if k.Idle? then 0
    else
      var skips := a.check && k.msg.mailId in rows && rows[k.msg.mailId].status == Cancelled;
      match k.pc
      case TestShutdown => if isShutdown || skips then 0 else 1
      case EnterSection | CheckCancelled => if skips then 0 else 1
      case MarkCache | MarkRow | Send => 1
      case _ => 0
  }

  /** From one state to the other, the worker that has mail `id` in hand has made exactly the attempts
      that were ahead of it, and none with another mail; it has left the records of other mails
      alone; and every mail has as many owners as before, or at least as many if the channel closed. */
  ghost predicate Handles(s: State, t: State, w: nat, a: Answers, id: Uuid)
    requires w < |s.workers| && w < |t.workers|
  {
    && (forall x: Uuid ::
          Attempts(t, x) == Attempts(s, x) + if x == id then AttemptsAhead(s, w, a) - AttemptsAhead(t, w, a) else 0)
    && (forall x :: x != id ==> (x in t.rows <==> x in s.rows) && (x in s.rows ==> t.rows[x] == s.rows[x]))
    && (forall x :: x != id ==> (x in t.cache <==> x in s.cache) && (x in s.cache ==> t.cache[x] == s.cache[x]))
    && (t.channelOpen ==> s.channelOpen)
    && (Held(s) ==>
          Held(t)
          && forall x: Uuid :: if t.channelOpen then Owners(t, x) == Owners(s, x) else Owners(t, x) >= Owners(s, x))
  }

  /** Only the send stage logs an attempt. */
  lemma CallLogs(cfg: Config, s: State, k: Worker, ok: bool, disk: Disk, id: Uuid)
    requires k.Busy?
    ensures
      Sum(Advance(cfg, s, k, ok, disk).toLog, IsAttempt(id)) == if k.pc == Send && k.msg.mailId == id then 1 else 0
  {
    SumEmpty(IsAttempt(id));
    if Loud(k.pc) {
      hide Sum, Loadable, WorkerBackend, Delay;
      var e := Advance(cfg, s, k, ok, disk);
      if e.toLog != [] {
        SumOne(e.toLog[0], IsAttempt(id));
      }
    } else {
      AdvanceQuiet(cfg, s, k, ok, disk);
      hide Advance, Sum;
    }
  }

  /** And only the send stage uses up an attempt that was ahead. */
  lemma CallAhead(cfg: Config, s: State, k: Worker, a: Answers)
    requires k.Busy?
    ensures
      var e := Advance(cfg, s, k, AnswerAt(a, k.pc), a.disk);
      AheadOf(k, s.rows, s.isShutdown, a) - AheadOf(e.worker, e.rows, s.isShutdown, a) == if k.pc == Send then 1 else 0
  {
    hide Loadable, SetStatus, SetRowStatus, SetRowCount, WorkerBackend, Delay;
  }

  lemma CallAttempts(cfg: Config, s: State, k: Worker, a: Answers, id: Uuid)
    requires k.Busy?
    ensures
      var e := Advance(cfg, s, k, AnswerAt(a, k.pc), a.disk);
      Sum(e.toLog, IsAttempt(id)) ==
      if k.msg.mailId == id then AheadOf(k, s.rows, s.isShutdown, a) - AheadOf(e.worker, e.rows, s.isShutdown, a) else 0
  {
    CallLogs(cfg, s, k, AnswerAt(a, k.pc), a.disk, id);
    CallAhead(cfg, s, k, a);
    hide Advance, AheadOf, Sum;
  }

  lemma HandlesWork(cfg: Config, s: State, w: nat, a: Answers)
    requires w < |s.workers| && s.workers[w].Busy?
    ensures
      var t := Next(cfg, s, Work(w, AnswerAt(a, s.workers[w].pc), a.disk));
      && |t.workers| == |s.workers| && Handles(s, t, w, a, s.workers[w].msg.mailId)
      && (t.workers[w].Busy? ==> t.workers[w].msg == s.workers[w].msg)
  {
    var k := s.workers[w];
    var ok := AnswerAt(a, k.pc);
    var l := Work(w, ok, a.disk);
    var e := Advance(cfg, s, k, ok, a.disk);
    var t := Next(cfg, s, l);
    WorkIs(cfg, s, w, ok, a.disk);
    StatusCache.RowsOfOthers(cfg, s, k, ok, a.disk);
    StatusCache.CacheOfOthers(cfg, s, k, ok, a.disk);
    AdvanceMsg(cfg, s, k, ok, a.disk);
    hide Advance, Next, AheadOf, AnswerAt, Owners, Held, Sum;
    forall x: Uuid
      ensures Attempts(t, x) == Attempts(s, x) +
        if x == k.msg.mailId then AttemptsAhead(s, w, a) - AttemptsAhead(t, w, a) else 0
    {
      CallAttempts(cfg, s, k, a, x);
      SumConcat(s.log, e.toLog, IsAttempt(x));
    }
    if Held(s) {
      HeldStep(cfg, s, l);
      forall x: Uuid
        ensures if t.channelOpen then Owners(t, x) == Owners(s, x) else Owners(t, x) >= Owners(s, x)
      {
        StepTokens(cfg, s, l, x);
      }
    }
  }

  lemma HandlesClose(cfg: Config, s: State, w: nat, a: Answers)
    requires w < |s.workers| && s.workers[w].Busy? && s.channelOpen
    ensures
      var t := Next(cfg, s, CloseChannel);
      && |t.workers| == |s.workers| && Handles(s, t, w, a, s.workers[w].msg.mailId)
      && t.workers[w].Busy? && t.workers[w].msg == s.workers[w].msg
  {
    var t := Next(cfg, s, CloseChannel);
    CloseIs(cfg, s);
    hide Next, Owners, Held, Attempts, Unacked;
    assert t.log == s.log;
    assert forall x: Uuid :: Attempts(t, x) == Attempts(s, x) by {
      LogIsAttempts(s, t);
    }
    if Held(s) {
      HeldStep(cfg, s, CloseChannel);
      forall x: Uuid
        ensures Owners(t, x) >= Owners(s, x)
      {
        StepTokens(cfg, s, CloseChannel, x);
      }
    }
  }

  lemma LogIsAttempts(s: State, t: State)
    requires t.log == s.log
    ensures forall x: Uuid :: Attempts(t, x) == Attempts(s, x)
  {
  }

  lemma {:induction false} FollowingHandles(cfg: Config, s: State, run: seq<Label>, w: nat, a: Answers, id: Uuid)
    requires w < |s.workers| && s.workers[w].Busy? && s.workers[w].msg.mailId == id
    requires Follows(cfg, s, run, w, a)
    ensures
      var t := Exec(cfg, s, run);
      && |t.workers| == |s.workers| && Handles(s, t, w, a, id)
      && (t.workers[w].Busy? ==> t.workers[w].msg.mailId == id)
  {
    hide Next, AttemptsAhead, Attempts, Owners, Held, AnswerAt;
    if run != [] {
      var before := run[..|run| - 1];
      var l := run[|run| - 1];
      assert forall i :: 0 <= i < |before| ==> before[i] == run[i] && before[..i] == run[..i];
      FollowingHandles(cfg, s, before, w, a, id);
      var t := Exec(cfg, s, before);
      assert Obeys(t, l, w, a);
      if l.CloseChannel? {
        HandlesClose(cfg, t, w, a);
      } else {
        HandlesWork(cfg, t, w, a);
      }
      HandlesTransitive(s, t, Next(cfg, t, l), w, a, id);
    }
  }

  lemma HandlesTransitive(s: State, t: State, u: State, w: nat, a: Answers, id: Uuid)
    requires w < |s.workers| && w < |t.workers| && w < |u.workers|
    requires Handles(s, t, w, a, id) && Handles(t, u, w, a, id)
    ensures Handles(s, u, w, a, id)
  {
    hide AttemptsAhead, Attempts, Owners, Held;
  }

  class MessageHandler {
    const cfg: Config
    const slot: nat
    var isShutdown: bool
    var channelOpen: bool
    var activeJobs: int
    var rows: map<Uuid, Row>
    var cache: map<Uuid, CacheEntry>
    var queue: seq<MailJob>
    var failed: seq<MailJob>
    var timers: seq<MailJob>
    /** Whether the broker still holds the delivery for this worker. */
    var unacked: bool
    /** The other workers with their deliveries, the producers and the cancellers. */
    var others: State
    ghost var log: seq<Event>

    constructor (cfg: Config, slot: nat, s: State)
      requires slot < |s.workers| && s.workers[slot].Busy?
      ensures this.cfg == cfg && this.slot == slot && Valid()
      ensures View(At(s.workers[slot].pc, s.workers[slot].msg, s.workers[slot].retryCount)) == s
    {
      this.cfg, this.slot, others := cfg, slot, s;
      isShutdown, channelOpen, activeJobs := s.isShutdown, s.channelOpen, s.activeJobs;
      rows, cache := s.rows, s.cache;
      queue, failed, timers, log := s.queue, s.failed, s.timers, s.log;
      unacked := s.workers[slot].unacked;
      new;
      assert s.workers[slot := s.workers[slot]] == s.workers;
    }

    ghost predicate Valid()
      reads this
    {
      slot < |others.workers|
    }

    /** The state of the whole system, with this worker at the given point of its program. */
    ghost function View(k: Worker): State
      reads this
      requires Valid()
    {
      others.(isShutdown := isShutdown, channelOpen := channelOpen, activeJobs := activeJobs,
              rows := rows, cache := cache,
              queue := queue, failed := failed, timers := timers, log := log,
              workers := others.workers[slot := k])
    }

    /** What one step does to a view: the worker's slot, the records, and what it appends. */
    lemma StepIs(s: State, k: Worker, ok: bool, disk: Disk)
      requires Valid() && k.Busy? && s.workers == others.workers[slot := k]
      ensures
        var e := Advance(cfg, s, k, ok, disk);
        Next(cfg, s, Work(slot, ok, disk)) ==
        s.(workers := others.workers[slot := e.worker], rows := e.rows, cache := e.cache,
           activeJobs := e.activeJobs, queue := s.queue + e.toQueue, failed := s.failed + e.toFailed,
           timers := s.timers + e.toTimers, log := s.log + e.toLog)
    {
      hide Advance;
    }

    lemma QuietStepIs(s: State, k: Worker, ok: bool, disk: Disk)
      requires Valid() && k.Busy? && s.workers == others.workers[slot := k] && !Loud(k.pc)
      ensures
        var e := Advance(cfg, s, k, ok, disk);
        Next(cfg, s, Work(slot, ok, disk)) ==
        s.(workers := others.workers[slot := e.worker], rows := e.rows, cache := e.cache, activeJobs := e.activeJobs)
    {
      StepIs(s, k, ok, disk);
      AdvanceQuiet(cfg, s, k, ok, disk);
      hide Advance;
    }

    /** The channel may close while the handler is busy: the broker takes back all deliveries. */
    method Await(pc: Pc, msg: MailJob, count: int, a: Answers)
      requires Valid()
      modifies this`channelOpen, this`unacked, this`queue, this`others
      ensures Valid() && View(At(pc, msg, count)) == Before(cfg, old(View(At(pc, msg, count))), a, pc)
    {
      hide Next, Unacked;
      if a.closes(pc) && channelOpen {
        CloseIs(cfg, View(At(pc, msg, count)));
        var workers := others.workers[slot := At(pc, msg, count)];
        queue := queue + Unacked(workers);
        others := others.(workers := seq(|workers|, i requires 0 <= i < |workers| => Orphan(workers[i])));
        channelOpen, unacked := false, false;
      }
    }

    // ---- The calls of the handler, one by one. `At` is the worker about to make a call.

    function At(pc: Pc, msg: MailJob, count: int): Worker
      reads this
    {
      Busy(pc, msg, count, unacked)
    }

    /** The view before a call shows the caller, and the view after it is its successor. */
    twostate predicate Called(k: Worker, k': Worker, a: Answers)
      requires old(Valid()) && Valid() && k.Busy?
      reads this
    {
      && slot < |old(View(k)).workers| && old(View(k)).workers[slot] == k
      && View(k') == Next(cfg, Before(cfg, old(View(k)), a, k.pc), Work(slot, AnswerAt(a, k.pc), a.disk))
    }

    method Enter(msg: MailJob, count: int, a: Answers)
      requires Valid()
      modifies this
      ensures Valid() && Called(old(At(EnterSection, msg, count)), At(CheckCancelled, msg, count), a)
    {
      hide Next, Before, Unacked, Loadable, WorkerBackend, Delay;
      Await(EnterSection, msg, count, a);
      QuietStepIs(View(At(EnterSection, msg, count)), At(EnterSection, msg, count), true, a.disk);
      activeJobs := activeJobs + 1;
    }

    /** The cancellation check; a database error counts as "not cancelled". */
    method CheckRow(msg: MailJob, count: int, a: Answers) returns (cancelled: bool)
      requires Valid()
      modifies this
      ensures Valid()
      ensures Called(old(At(CheckCancelled, msg, count)), At(if cancelled then Ack else MarkCache, msg, count), a)
    {
      hide Next, Before, Unacked, Loadable, WorkerBackend, Delay;
      Await(CheckCancelled, msg, count, a);
      StepIs(View(At(CheckCancelled, msg, count)), At(CheckCancelled, msg, count), a.check, a.disk);
      cancelled := false;
      if a.check && msg.mailId in rows {
        if rows[msg.mailId].status == Cancelled {
          log := log + [Skipped(msg.(retryCount := count))];
          return true;
        }
      }
      assert log + [] == log;
    }

    method CacheProcessing(msg: MailJob, count: int, a: Answers)
      requires Valid()
      modifies this
      ensures Valid() && Called(old(At(MarkCache, msg, count)), At(MarkRow, msg, count), a)
    {
      hide Next, Before, Unacked, Loadable, WorkerBackend, Delay;
      Await(MarkCache, msg, count, a);
      QuietStepIs(View(At(MarkCache, msg, count)), At(MarkCache, msg, count), a.markCache, a.disk);
      if a.markCache {
        cache := cache[msg.mailId := CacheEntry(Processing, count)];
      }
    }

    method RecordProcessing(msg: MailJob, count: int, a: Answers)
      requires Valid()
      modifies this
      ensures Valid() && Called(old(At(MarkRow, msg, count)), At(Send, msg, count), a)
    {
      hide Next, Before, Unacked, Loadable, WorkerBackend, Delay;
      Await(MarkRow, msg, count, a);
      QuietStepIs(View(At(MarkRow, msg, count)), At(MarkRow, msg, count), a.markRow, a.disk);
      if a.markRow && msg.mailId in rows {
        rows := rows[msg.mailId := rows[msg.mailId].(status := Processing)];
      }
    }

    /** The mail goes to the provider, through the sender config or the router. */
    method Deliver(msg: MailJob, count: int, a: Answers) returns (accepted: bool)
      requires Valid()
      modifies this
      ensures Valid() && Called(old(At(Send, msg, count)), At(if accepted then SentRow else CountRetry, msg, count), a)
    {
      hide Next, Before, Unacked, Loadable, WorkerBackend, Delay;
      Await(Send, msg, count, a);
      StepIs(View(At(Send, msg, count)), At(Send, msg, count), a.send, a.disk);
      accepted := a.send && Loadable(msg.content, a.disk);
      log := log + [Attempted(msg.(retryCount := count), WorkerBackend(cfg, msg.content), accepted)];
    }

    method RecordSent(msg: MailJob, count: int, a: Answers)
      requires Valid()
      modifies this
      ensures Valid() && Called(old(At(SentRow, msg, count)), At(SentCache, msg, count), a)
    {
      hide Next, Before, Unacked, Loadable, WorkerBackend, Delay;
      Await(SentRow, msg, count, a);
      QuietStepIs(View(At(SentRow, msg, count)), At(SentRow, msg, count), a.sentRow, a.disk);
      if a.sentRow && msg.mailId in rows {
        rows := rows[msg.mailId := rows[msg.mailId].(status := Sent)];
      }
    }

    method CacheSent(msg: MailJob, count: int, a: Answers)
      requires Valid()
      modifies this
      ensures Valid() && Called(old(At(SentCache, msg, count)), At(Ack, msg, count), a)
    {
      hide Next, Before, Unacked, Loadable, WorkerBackend, Delay;
      Await(SentCache, msg, count, a);
      QuietStepIs(View(At(SentCache, msg, count)), At(SentCache, msg, count), a.sentCache, a.disk);
      if a.sentCache {
        cache := cache[msg.mailId := CacheEntry(Sent, count)];
      }
    }

    method CountFailure(msg: MailJob, count: int, a: Answers) returns (next: int)
      requires Valid()
      modifies this
      ensures Valid() && next == count + 1
      ensures
        Called(old(At(CountRetry, msg, count)),
               At(if next >= cfg.maxRetryCount then FailPublish else RetryRow, msg, next), a)
    {
      hide Next, Before, Unacked, Loadable, WorkerBackend, Delay;
      Await(CountRetry, msg, count, a);
      QuietStepIs(View(At(CountRetry, msg, count)), At(CountRetry, msg, count), true, a.disk);
      next := count + 1;
    }

    /** A closed channel swallows the job. */
    method PublishFailed(msg: MailJob, count: int, a: Answers)
      requires Valid()
      modifies this
      ensures Valid() && Called(old(At(FailPublish, msg, count)), At(FailRow, msg, count), a)
    {
      hide Next, Before, Unacked, Loadable, WorkerBackend, Delay;
      Await(FailPublish, msg, count, a);
      StepIs(View(At(FailPublish, msg, count)), At(FailPublish, msg, count), true, a.disk);
      if channelOpen {
        failed := failed + [msg.(retryCount := count)];
      }
    }

    method RecordFailed(msg: MailJob, count: int, a: Answers)
      requires Valid()
      modifies this
      ensures Valid() && Called(old(At(FailRow, msg, count)), At(FailCache, msg, count), a)
    {
      hide Next, Before, Unacked, Loadable, WorkerBackend, Delay;
      Await(FailRow, msg, count, a);
      QuietStepIs(View(At(FailRow, msg, count)), At(FailRow, msg, count), a.failRow, a.disk);
      if a.failRow && msg.mailId in rows {
        rows := rows[msg.mailId := rows[msg.mailId].(status := Failed, retryCount := count)];
      }
    }

    method CacheFailed(msg: MailJob, count: int, a: Answers)
      requires Valid()
      modifies this
      ensures Valid() && Called(old(At(FailCache, msg, count)), At(Ack, msg, count), a)
    {
      hide Next, Before, Unacked, Loadable, WorkerBackend, Delay;
      Await(FailCache, msg, count, a);
      QuietStepIs(View(At(FailCache, msg, count)), At(FailCache, msg, count), a.failCache, a.disk);
      if a.failCache {
        cache := cache[msg.mailId := CacheEntry(Failed, count)];
      }
    }

    method RecordRetry(msg: MailJob, count: int, a: Answers)
      requires Valid()
      modifies this
      ensures Valid() && Called(old(At(RetryRow, msg, count)), At(RetryCache, msg, count), a)
    {
      hide Next, Before, Unacked, Loadable, WorkerBackend, Delay;
      Await(RetryRow, msg, count, a);
      QuietStepIs(View(At(RetryRow, msg, count)), At(RetryRow, msg, count), a.retryRow, a.disk);
      if a.retryRow && msg.mailId in rows {
        rows := rows[msg.mailId := rows[msg.mailId].(retryCount := count)];
      }
    }

    method CacheRetry(msg: MailJob, count: int, a: Answers)
      requires Valid()
      modifies this
      ensures Valid() && Called(old(At(RetryCache, msg, count)), At(SpawnTimer, msg, count), a)
    {
      hide Next, Before, Unacked, Loadable, WorkerBackend, Delay;
      Await(RetryCache, msg, count, a);
      QuietStepIs(View(At(RetryCache, msg, count)), At(RetryCache, msg, count), a.retryCache, a.disk);
      if a.retryCache {
        cache := cache[msg.mailId := CacheEntry(Queued, count)];
      }
    }

    method StartTimer(msg: MailJob, count: int, a: Answers)
      requires Valid()
      modifies this
      ensures Valid() && Called(old(At(SpawnTimer, msg, count)), At(Ack, msg, count), a)
    {
      hide Next, Before, Unacked, Loadable, WorkerBackend, Delay;
      Await(SpawnTimer, msg, count, a);
      StepIs(View(At(SpawnTimer, msg, count)), At(SpawnTimer, msg, count), true, a.disk);
      timers := timers + [msg.(retryCount := count)];
      log := log + [Scheduled(msg.(retryCount := count), Delay(count))];
    }

    method Acknowledge(msg: MailJob, count: int, a: Answers)
      requires Valid()
      modifies this
      ensures Valid() && Called(old(At(Ack, msg, count)), At(Leave, msg, count), a)
    {
      hide Next, Before, Unacked, Loadable, WorkerBackend, Delay;
      Await(Ack, msg, count, a);
      QuietStepIs(View(At(Ack, msg, count)), At(Ack, msg, count), true, a.disk);
      unacked := false;
    }

    method LeaveSection(msg: MailJob, count: int, a: Answers)
      requires Valid()
      modifies this
      ensures Valid() && Called(old(At(Leave, msg, count)), Idle, a)
    {
      hide Next, Before, Unacked, Loadable, WorkerBackend, Delay;
      Await(Leave, msg, count, a);
      QuietStepIs(View(At(Leave, msg, count)), At(Leave, msg, count), true, a.disk);
      activeJobs := activeJobs - 1;
    }

    /** After a shutdown request the delivery is given back to the queue. */
    method TestShutdownFlag(msg: MailJob, a: Answers) returns (stop: bool)
      requires Valid()
      modifies this
      ensures Valid()
      ensures
        Called(old(At(TestShutdown, msg, msg.retryCount)),
               if stop then Idle else At(EnterSection, msg, msg.retryCount), a)
    {
      hide Next, Before, Unacked, Loadable, WorkerBackend, Delay;
      Await(TestShutdown, msg, msg.retryCount, a);
      StepIs(View(At(TestShutdown, msg, msg.retryCount)), At(TestShutdown, msg, msg.retryCount), true, a.disk);
      stop := isShutdown;
      if stop && unacked {
        queue := queue + [msg];
      }
    }

    // ---- The handlers

    /** The retry limit is reached: the mail goes to the failed queue. */
    method GiveUp(msg: MailJob, count: int, a: Answers) returns (ghost run: seq<Label>)
      requires Valid()
      modifies this
      ensures Valid() && Follows(cfg, old(View(At(FailPublish, msg, count))), run, slot, a)
      ensures Exec(cfg, old(View(At(FailPublish, msg, count))), run) == View(At(Ack, msg, count))
    {
      hide Exec, Next, View, Follows, Before;
      ghost var s0 := View(At(FailPublish, msg, count));
      run := Start(s0, a);
      PublishFailed(msg, count, a);
      run := Then(s0, run, FailPublish, a);
      RecordFailed(msg, count, a);
      run := Then(s0, run, FailRow, a);
      CacheFailed(msg, count, a);
      run := Then(s0, run, FailCache, a);
    }

    /** The mail sleeps in a timer before it is published again. */
    method BackOff(msg: MailJob, count: int, a: Answers) returns (ghost run: seq<Label>)
      requires Valid()
      modifies this
      ensures Valid() && Follows(cfg, old(View(At(RetryRow, msg, count))), run, slot, a)
      ensures Exec(cfg, old(View(At(RetryRow, msg, count))), run) == View(At(Ack, msg, count))
    {
      hide Exec, Next, View, Follows, Before;
      ghost var s0 := View(At(RetryRow, msg, count));
      run := Start(s0, a);
      RecordRetry(msg, count, a);
      run := Then(s0, run, RetryRow, a);
      CacheRetry(msg, count, a);
      run := Then(s0, run, RetryCache, a);
      StartTimer(msg, count, a);
      run := Then(s0, run, SpawnTimer, a);
    }

    /** `handleRetry`: count the failure, then hand the mail to the failed queue or to a timer. */
    method HandleRetry(msg: MailJob, retryCount: int, a: Answers) returns (count: int, ghost run: seq<Label>)
      requires Valid()
      modifies this
      ensures Valid() && Follows(cfg, old(View(At(CountRetry, msg, retryCount))), run, slot, a)
      ensures
        Exec(cfg, old(View(At(CountRetry, msg, retryCount))), run) == View(At(Ack, msg, count))
    {
      hide Exec, Next, View, Follows, Before;
      ghost var s0 := View(At(CountRetry, msg, retryCount));
      run := Start(s0, a);
      count := CountFailure(msg, retryCount, a);
      run := Then(s0, run, CountRetry, a);
      ghost var more;
      if count >= cfg.maxRetryCount {
        more := GiveUp(msg, count, a);
      } else {
        more := BackOff(msg, count, a);
      }
      run := Append(s0, run, more, a);
    }

    /** The bookkeeping after a provider accepted the mail. */
    method Succeed(msg: MailJob, count: int, a: Answers) returns (ghost run: seq<Label>)
      requires Valid()
      modifies this
      ensures Valid() && Follows(cfg, old(View(At(SentRow, msg, count))), run, slot, a)
      ensures Exec(cfg, old(View(At(SentRow, msg, count))), run) == View(At(Ack, msg, count))
    {
      hide Exec, Next, View, Follows, Before;
      ghost var s0 := View(At(SentRow, msg, count));
      run := Start(s0, a);
      RecordSent(msg, count, a);
      run := Then(s0, run, SentRow, a);
      CacheSent(msg, count, a);
      run := Then(s0, run, SentCache, a);
    }

    /** The part of `handleMessage` between the cancellation check and the acknowledgement. */
    method AttemptDelivery(msg: MailJob, a: Answers) returns (count: int, ghost run: seq<Label>)
      requires Valid()
      modifies this
      ensures Valid() && Follows(cfg, old(View(At(MarkCache, msg, msg.retryCount))), run, slot, a)
      ensures Exec(cfg, old(View(At(MarkCache, msg, msg.retryCount))), run) == View(At(Ack, msg, count))
    {
      hide Exec, Next, View, Follows, Before;
      count := msg.retryCount;
      ghost var s0 := View(At(MarkCache, msg, count));
      run := Start(s0, a);
      CacheProcessing(msg, count, a);
      run := Then(s0, run, MarkCache, a);
      RecordProcessing(msg, count, a);
      run := Then(s0, run, MarkRow, a);
      var accepted := Deliver(msg, count, a);
      run := Then(s0, run, Send, a);
      ghost var more;
      if accepted {
        more := Succeed(msg, count, a);
      } else {
        count, more := HandleRetry(msg, count, a);
      }
      run := Append(s0, run, more, a);
    }

    /** `handleMessage`: the whole handling of one delivery. */
    method HandleMessage(msg: MailJob, a: Answers) returns (ghost run: seq<Label>)
      requires Valid()
      modifies this
      ensures Valid() && Follows(cfg, old(View(At(EnterSection, msg, msg.retryCount))), run, slot, a)
      ensures Exec(cfg, old(View(At(EnterSection, msg, msg.retryCount))), run) == View(Idle)
      ensures Handles(old(View(At(EnterSection, msg, msg.retryCount))), View(Idle), slot, a, msg.mailId)
    {
      hide Exec, Next, View, Follows, Before;
      var count := msg.retryCount;
      ghost var s0 := View(At(EnterSection, msg, count));
      run := Start(s0, a);
      Enter(msg, count, a);
      run := Then(s0, run, EnterSection, a);
      var cancelled := CheckRow(msg, count, a);
      run := Then(s0, run, CheckCancelled, a);
      if !cancelled {
        ghost var more;
        count, more := AttemptDelivery(msg, a);
        run := Append(s0, run, more, a);
      }
      Acknowledge(msg, count, a);
      run := Then(s0, run, Ack, a);
      LeaveSection(msg, count, a);
      run := Then(s0, run, Leave, a);
      FollowingHandles(cfg, s0, run, slot, a, msg.mailId);
      hide Handles;
    }

    /** One round of `processMessages`: requeue after a shutdown request, handle otherwise. */
    method ProcessMessage(msg: MailJob, a: Answers) returns (ghost run: seq<Label>)
      requires Valid()
      modifies this
      ensures Valid() && Follows(cfg, old(View(At(TestShutdown, msg, msg.retryCount))), run, slot, a)
      ensures Exec(cfg, old(View(At(TestShutdown, msg, msg.retryCount))), run) == View(Idle)
      ensures Handles(old(View(At(TestShutdown, msg, msg.retryCount))), View(Idle), slot, a, msg.mailId)
    {
      hide Exec, Next, View, Follows, Before;
      ghost var s0 := View(At(TestShutdown, msg, msg.retryCount));
      run := Start(s0, a);
      var stop := TestShutdownFlag(msg, a);
      run := Then(s0, run, TestShutdown, a);
      if !stop {
        ghost var more := HandleMessage(msg, a);
        run := Append(s0, run, more, a);
      }
      FollowingHandles(cfg, s0, run, slot, a, msg.mailId);
      hide Handles;
    }

    /** The run so far, and one more call of this worker, which is at `pc`. */
    ghost method Then(s: State, run: seq<Label>, pc: Pc, a: Answers) returns (longer: seq<Label>)
      requires Follows(cfg, s, run, slot, a)
      requires slot < |Exec(cfg, s, run).workers|
      requires Exec(cfg, s, run).workers[slot].Busy? && Exec(cfg, s, run).workers[slot].pc == pc
      ensures Follows(cfg, s, longer, slot, a)
      ensures Exec(cfg, s, longer) == Next(cfg, Before(cfg, Exec(cfg, s, run), a, pc), Work(slot, AnswerAt(a, pc), a.disk))
    {
      longer := run;
      if a.closes(pc) && Exec(cfg, s, run).channelOpen {
        CloseKeepsPc(cfg, Exec(cfg, s, run), slot);
        ExecStep(cfg, s, run, CloseChannel);
        FollowsOne(cfg, s, run, CloseChannel, slot, a);
        longer := run + [CloseChannel];
      }
      var l := Work(slot, AnswerAt(a, pc), a.disk);
      ExecStep(cfg, s, longer, l);
      hide Next, Exec;
      FollowsOne(cfg, s, longer, l, slot, a);
      longer := longer + [l];
    }

    ghost method Append(s: State, run: seq<Label>, more: seq<Label>, a: Answers) returns (longer: seq<Label>)
      requires Follows(cfg, s, run, slot, a) && Follows(cfg, Exec(cfg, s, run), more, slot, a)
      ensures Follows(cfg, s, longer, slot, a)
      ensures Exec(cfg, s, longer) == Exec(cfg, Exec(cfg, s, run), more)
    {
      longer := run + more;
      ExecConcat(cfg, s, run, more);
      FollowsConcat(cfg, s, run, more, slot, a);
      hide Next, Exec;
    }

    ghost method Start(s: State, a: Answers) returns (run: seq<Label>)
      ensures Follows(cfg, s, run, slot, a) && Exec(cfg, s, run) == s
    {
      run := [];
    }
  }
}
