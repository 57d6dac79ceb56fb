/** Attempts and waiting time, as exact functions of the retry count the job carries. */
module Retries {
  import opened Models
  import opened Sums
  import opened Backoff
  import opened Lifecycle
  import opened Ledgers
  import opened Tokens
  import opened Integrity
  import opened Survival

  // ---- Attempts

  function CountIs(id: Uuid): MailJob -> int
  {
    (j: MailJob) => if j.mailId == id then j.retryCount else 0
  }

  /** Between a failed send and the increment, the count lags one attempt behind. */
  function WorkerAttempts(id: Uuid): Worker -> int
  {
    (k: Worker) =>
      if Owns(k, id) then k.retryCount + if k.pc == CountRetry then 1 else 0 else 0
  }

  function RetiredAttempts(id: Uuid): Event -> int
  {
    (e: Event) =>
      if Retires(e, id) then e.job.retryCount + if e.Attempted? then 1 else 0 else 0
  }

  function AttemptLedger(id: Uuid): Ledger
  {
    Ledger(CountIs(id), CountIs(id), CountIs(id), WorkerAttempts(id), RetiredAttempts(id))
  }

  function IsAttempt(id: Uuid): Event -> int
  {
    (e: Event) => if e.Attempted? && e.job.mailId == id then 1 else 0
  }

  function Attempts(s: State, id: Uuid): int
  {
    Sum(s.log, IsAttempt(id))
  }

  // ---- Waiting time

  /** 2 + 4 + ... + 2^count seconds, in nanoseconds. */
  function Waited(count: int): int
  {
    if count < 0 then 0 else (Pow2(count + 1) - 2) * SECOND
  }

  function WaitedIs(id: Uuid): MailJob -> int
  {
    (j: MailJob) => if j.mailId == id then Waited(j.retryCount) else 0
  }

  /** A job in the failed queue was counted once more than it was scheduled. */
  function DeadWaited(id: Uuid): MailJob -> int
  {
    (j: MailJob) => if j.mailId == id then Waited(j.retryCount - 1) else 0
  }

  function WorkerWaited(id: Uuid): Worker -> int
  {
    (k: Worker) =>
      if Owns(k, id) then
        Waited(if k.pc in {RetryRow, RetryCache, SpawnTimer, FailPublish} then k.retryCount - 1 else k.retryCount)
      else 0
  }

  function RetiredWaited(id: Uuid): Event -> int
  {
    (e: Event) => if Retires(e, id) then Waited(e.job.retryCount) else 0
  }

  function WaitLedger(id: Uuid): Ledger
  {
    Ledger(WaitedIs(id), WaitedIs(id), DeadWaited(id), WorkerWaited(id), RetiredWaited(id))
  }

  function DelayOf(id: Uuid): Event -> int
  {
    (e: Event) => if e.Scheduled? && e.job.mailId == id then e.delay else 0
  }

  /** The total time, in nanoseconds, the mail has been put to sleep for. */
  function Slept(s: State, id: Uuid): int
  {
    Sum(s.log, DelayOf(id))
  }

  // ---- One worker step

  lemma WorkAttempts(cfg: Config, s: State, k: Worker, ok: bool, disk: Disk, id: Uuid)
    requires s.channelOpen && k.Busy? && (k.unacked <==> k.pc != Leave) && WorkerOk(cfg, s.published, k)
    ensures
      var e := Advance(cfg, s, k, ok, disk);
      Worth(e, AttemptLedger(id)) - WorkerAttempts(id)(k) == Sum(e.toLog, IsAttempt(id))
  {
    SumEmpty(CountIs(id));
    SumEmpty(RetiredAttempts(id));
    SumEmpty(IsAttempt(id));
    if Loud(k.pc) {
      LoudAttempts(cfg, s, k, ok, disk, id);
    } else {
      AdvanceQuiet(cfg, s, k, ok, disk);
      hide Sum;
    }
  }

  lemma LoudAttempts(cfg: Config, s: State, k: Worker, ok: bool, disk: Disk, id: Uuid)
    requires s.channelOpen && k.Busy? && (k.unacked <==> k.pc != Leave) && WorkerOk(cfg, s.published, k) && Loud(k.pc)
    ensures
      var e := Advance(cfg, s, k, ok, disk);
      Worth(e, AttemptLedger(id)) - WorkerAttempts(id)(k) == Sum(e.toLog, IsAttempt(id))
  {
    hide Sum, Loadable;
    var e := Advance(cfg, s, k, ok, disk);
    SumEmpty(CountIs(id));
    SumEmpty(RetiredAttempts(id));
    SumEmpty(IsAttempt(id));
    SumOne(k.msg, CountIs(id));
    SumOne(k.Job(), CountIs(id));
    if e.toLog != [] {
      SumOne(e.toLog[0], RetiredAttempts(id));
      SumOne(e.toLog[0], IsAttempt(id));
    }
  }

  lemma WorkWaits(cfg: Config, s: State, k: Worker, ok: bool, disk: Disk, id: Uuid)
    requires cfg.maxRetryCount <= 34
    requires s.channelOpen && k.Busy? && (k.unacked <==> k.pc != Leave) && WorkerOk(cfg, s.published, k)
    ensures
      var e := Advance(cfg, s, k, ok, disk);
      Worth(e, WaitLedger(id)) - WorkerWaited(id)(k) == Sum(e.toLog, DelayOf(id))
  {
    SumEmpty(WaitedIs(id));
    SumEmpty(DeadWaited(id));
    SumEmpty(RetiredWaited(id));
    SumEmpty(DelayOf(id));
    if Loud(k.pc) {
      LoudWaits(cfg, s, k, ok, disk, id);
    } else {
      AdvanceQuiet(cfg, s, k, ok, disk);
      hide Sum, Waited, SetStatus, SetRowStatus, SetRowCount;
    }
  }

  lemma LoudWaits(cfg: Config, s: State, k: Worker, ok: bool, disk: Disk, id: Uuid)
    requires cfg.maxRetryCount <= 34
    requires s.channelOpen && k.Busy? && (k.unacked <==> k.pc != Leave) && WorkerOk(cfg, s.published, k)
    requires Loud(k.pc)
    ensures
      var e := Advance(cfg, s, k, ok, disk);
      Worth(e, WaitLedger(id)) - WorkerWaited(id)(k) == Sum(e.toLog, DelayOf(id))
  {
    hide Advance, Worth, WaitLedger, WorkerWaited, WorkerOk, Sum;
    match k.pc
    case SpawnTimer => SpawnWaits(cfg, s, k, ok, disk, id);
    case FailPublish => FailWaits(cfg, s, k, ok, disk, id);
    case TestShutdown => BounceWaits(cfg, s, k, ok, disk, id);
    case _ => LoggedWaits(cfg, s, k, ok, disk, id);
  }

  lemma SpawnWaits(cfg: Config, s: State, k: Worker, ok: bool, disk: Disk, id: Uuid)
    requires cfg.maxRetryCount <= 34
    requires s.channelOpen && k.Busy? && (k.unacked <==> k.pc != Leave) && WorkerOk(cfg, s.published, k)
    requires k.pc == SpawnTimer
    ensures
      var e := Advance(cfg, s, k, ok, disk);
      Worth(e, WaitLedger(id)) - WorkerWaited(id)(k) == Sum(e.toLog, DelayOf(id))
  {
    hide Sum, Loadable, Waited, Delay, SetStatus, SetRowStatus, SetRowCount;
    SumEmpty(WaitedIs(id));
    SumEmpty(DeadWaited(id));
    SumEmpty(RetiredWaited(id));
    SumEmpty(DelayOf(id));
    SumOne(k.Job(), WaitedIs(id));
    SumOne(Scheduled(k.Job(), Delay(k.retryCount)), RetiredWaited(id));
    SumOne(Scheduled(k.Job(), Delay(k.retryCount)), DelayOf(id));
    WaitedNext(k.retryCount);
  }

  lemma FailWaits(cfg: Config, s: State, k: Worker, ok: bool, disk: Disk, id: Uuid)
    requires cfg.maxRetryCount <= 34
    requires s.channelOpen && k.Busy? && (k.unacked <==> k.pc != Leave) && WorkerOk(cfg, s.published, k)
    requires k.pc == FailPublish
    ensures
      var e := Advance(cfg, s, k, ok, disk);
      Worth(e, WaitLedger(id)) - WorkerWaited(id)(k) == Sum(e.toLog, DelayOf(id))
  {
    hide Sum, Loadable, Waited, Delay, SetStatus, SetRowStatus, SetRowCount;
    SumEmpty(WaitedIs(id));
    SumEmpty(DeadWaited(id));
    SumEmpty(RetiredWaited(id));
    SumEmpty(DelayOf(id));
    SumOne(k.Job(), DeadWaited(id));
  }

  lemma BounceWaits(cfg: Config, s: State, k: Worker, ok: bool, disk: Disk, id: Uuid)
    requires cfg.maxRetryCount <= 34
    requires s.channelOpen && k.Busy? && (k.unacked <==> k.pc != Leave) && WorkerOk(cfg, s.published, k)
    requires k.pc == TestShutdown
    ensures
      var e := Advance(cfg, s, k, ok, disk);
      Worth(e, WaitLedger(id)) - WorkerWaited(id)(k) == Sum(e.toLog, DelayOf(id))
  {
    hide Sum, Loadable, Waited, Delay, SetStatus, SetRowStatus, SetRowCount;
    SumEmpty(WaitedIs(id));
    SumEmpty(DeadWaited(id));
    SumEmpty(RetiredWaited(id));
    SumEmpty(DelayOf(id));
    SumOne(k.msg, WaitedIs(id));
  }

  lemma LoggedWaits(cfg: Config, s: State, k: Worker, ok: bool, disk: Disk, id: Uuid)
    requires cfg.maxRetryCount <= 34
    requires s.channelOpen && k.Busy? && (k.unacked <==> k.pc != Leave) && WorkerOk(cfg, s.published, k)
    requires Loud(k.pc) && k.pc !in {SpawnTimer, FailPublish, TestShutdown}
    ensures
      var e := Advance(cfg, s, k, ok, disk);
      Worth(e, WaitLedger(id)) - WorkerWaited(id)(k) == Sum(e.toLog, DelayOf(id))
  {
    hide Sum, Loadable, Waited, Delay, SetStatus, SetRowStatus, SetRowCount;
    SumEmpty(WaitedIs(id));
    SumEmpty(DeadWaited(id));
    SumEmpty(RetiredWaited(id));
    SumEmpty(DelayOf(id));
    var e := Advance(cfg, s, k, ok, disk);
    if e.toLog != [] {
      SumOne(e.toLog[0], RetiredWaited(id));
      SumOne(e.toLog[0], DelayOf(id));
    }
  }

  lemma WaitedNext(count: nat)
    requires 1 <= count <= 33
    ensures Waited(count) == Waited(count - 1) + Delay(count)
  {
    DelayExact(count);
    Pow2Doubles(count);
  }

  // ---- The laws

  /** A step keeps a balance equal to a sum over the log if its gain is what it logs. */
  lemma LawStep(cfg: Config, s: State, l: Label, g: Ledger, c: Event -> int)
    requires Enabled(cfg, s, l) && s.channelOpen && !l.Crash? && !l.CloseChannel?
    requires
      Gain(cfg, s, l, g) ==
      if l.Work? then Sum(Advance(cfg, s, s.workers[l.worker], l.ok, l.disk).toLog, c) else 0
    requires Balance(s, g) == Sum(s.log, c)
    ensures Balance(Next(cfg, s, l), g) == Sum(Next(cfg, s, l).log, c)
  {
    hide Advance, Balance, Gain, Sum;
    NextBalance(cfg, s, l, g);
    if l.Work? {
      SumConcat(s.log, Advance(cfg, s, s.workers[l.worker], l.ok, l.disk).toLog, c);
    }
  }

  /** Steps of anyone but a worker move no weight. */
  lemma OthersGainNothing(cfg: Config, s: State, l: Label, id: Uuid)
    requires Enabled(cfg, s, l) && s.channelOpen && !l.Work?
    ensures Gain(cfg, s, l, AttemptLedger(id)) == 0
    ensures Gain(cfg, s, l, WaitLedger(id)) == 0
  {
    assert Waited(0) == 0;
    hide Advance, Worth, Sum, Waited;
  }

  lemma AttemptStep(cfg: Config, s: State, l: Label, id: Uuid)
    requires s.channelOpen && !l.Crash? && !l.CloseChannel? && Held(s) && JobsOk(cfg, s)
    requires Balance(s, AttemptLedger(id)) == Attempts(s, id)
    ensures Balance(Next(cfg, s, l), AttemptLedger(id)) == Attempts(Next(cfg, s, l), id)
  {
    hide Next, Advance, Worth, Balance, Sum, AttemptLedger, WorkerAttempts;
    if Enabled(cfg, s, l) {
      if l.Work? {
        assert s.workers[l.worker] in s.workers;
        WorkAttempts(cfg, s, s.workers[l.worker], l.ok, l.disk, id);
        LedgerWorkers(id);
      } else {
        OthersGainNothing(cfg, s, l, id);
        hide Gain;
      }
      hide JobsOk, Held;
      LawStep(cfg, s, l, AttemptLedger(id), IsAttempt(id));
    } else {
      Disabled(cfg, s, l);
    }
  }

  lemma WaitStep(cfg: Config, s: State, l: Label, id: Uuid)
    requires cfg.maxRetryCount <= 34
    requires s.channelOpen && !l.Crash? && !l.CloseChannel? && Held(s) && JobsOk(cfg, s)
    requires Balance(s, WaitLedger(id)) == Slept(s, id)
    ensures Balance(Next(cfg, s, l), WaitLedger(id)) == Slept(Next(cfg, s, l), id)
  {
    hide Next, Advance, Worth, Balance, Sum, WaitLedger, WorkerWaited;
    if Enabled(cfg, s, l) {
      if l.Work? {
        assert s.workers[l.worker] in s.workers;
        WorkWaits(cfg, s, s.workers[l.worker], l.ok, l.disk, id);
        LedgerWorkers(id);
      } else {
        OthersGainNothing(cfg, s, l, id);
        hide Gain;
      }
      hide JobsOk, Held;
      LawStep(cfg, s, l, WaitLedger(id), DelayOf(id));
    } else {
      Disabled(cfg, s, l);
    }
  }

  lemma LedgerWorkers(id: Uuid)
    ensures AttemptLedger(id).working == WorkerAttempts(id)
    ensures WaitLedger(id).working == WorkerWaited(id)
  {
  }

  lemma {:induction false} InitLaws(concurrency: nat, id: Uuid)
    ensures Balance(Init(concurrency), AttemptLedger(id)) == 0
    ensures Balance(Init(concurrency), WaitLedger(id)) == 0
  {
    var workers := Init(concurrency).workers;
    SumZero(workers, OwnedBy(id));
    SumVanishes(workers, OwnedBy(id), WorkerAttempts(id));
    SumVanishes(workers, OwnedBy(id), WorkerWaited(id));
  }

  /** In a calm run the number of times a mail reached the send stage is at every moment a
      function of the retry count carried by its one owner. */
  lemma {:induction false} AttemptLaw(cfg: Config, concurrency: nat, run: seq<Label>, id: Uuid)
    requires Calm(run)
    ensures
      var s := After(cfg, concurrency, run);
      Attempts(s, id) == Balance(s, AttemptLedger(id))
  {
    hide Next, Balance, JobsOk, Held, Provenance;
    if run == [] {
      InitLaws(concurrency, id);
    } else {
      var before := run[..|run| - 1];
      AttemptLaw(cfg, concurrency, before, id);
      Invariants(cfg, concurrency, before);
      JobIntegrity(cfg, concurrency, before);
      assert run[|run| - 1] in run;
      AttemptStep(cfg, After(cfg, concurrency, before), run[|run| - 1], id);
    }
  }

  lemma {:induction false} WaitLaw(cfg: Config, concurrency: nat, run: seq<Label>, id: Uuid)
    requires Calm(run) && cfg.maxRetryCount <= 34
    ensures
      var s := After(cfg, concurrency, run);
      Slept(s, id) == Balance(s, WaitLedger(id))
  {
    hide Next, Balance, JobsOk, Held, Provenance;
    if run == [] {
      InitLaws(concurrency, id);
    } else {
      var before := run[..|run| - 1];
      WaitLaw(cfg, concurrency, before, id);
      Invariants(cfg, concurrency, before);
      JobIntegrity(cfg, concurrency, before);
      assert run[|run| - 1] in run;
      WaitStep(cfg, After(cfg, concurrency, before), run[|run| - 1], id);
    }
  }

  // ---- What the laws say about each place

  /** The ledger weighs nothing that does not own the mail. */
  ghost predicate Dominated(g: Ledger, id: Uuid)
  {
    && (forall j: MailJob :: j.mailId != id ==> g.queued(j) == 0)
    && (forall j: MailJob :: j.mailId != id ==> g.waiting(j) == 0)
    && (forall j: MailJob :: j.mailId != id ==> g.dead(j) == 0)
    && (forall k: Worker :: !Owns(k, id) ==> g.working(k) == 0)
    && (forall e: Event :: !Retires(e, id) ==> g.logged(e) == 0)
  }

  lemma PlaceSum(jobs: seq<MailJob>, id: Uuid, f: MailJob -> int, job: MailJob)
    requires Sum(jobs, JobIs(id)) <= 1
    requires forall j: MailJob :: j.mailId != id ==> f(j) == 0
    ensures !Among(jobs, id) ==> Sum(jobs, f) == 0
    ensures job in jobs && job.mailId == id ==> Sum(jobs, f) == f(job)
  {
    AmongCount(jobs, id);
    if !Among(jobs, id) {
      SumVanishes(jobs, JobIs(id), f);
    }
    if job in jobs && job.mailId == id {
      var i: nat :| i < |jobs| && jobs[i] == job;
      SumAtLeast(jobs, i, JobIs(id));
      SumConcentrated(jobs, i, JobIs(id), f);
    }
  }

  /** With one owner, a dominated ledger weighs that owner. */
  lemma SoleOwner(s: State, id: Uuid, g: Ledger, job: MailJob)
    requires Owners(s, id) == 1 && Dominated(g, id) && job.mailId == id
    ensures job in s.queue ==> Balance(s, g) == g.queued(job)
    ensures job in s.timers ==> Balance(s, g) == g.waiting(job)
    ensures job in s.failed ==> Balance(s, g) == g.dead(job)
  {
    hide Sum;
    AmongCount(s.queue, id);
    AmongCount(s.timers, id);
    AmongCount(s.failed, id);
    SumNonNegative(s.workers, OwnedBy(id));
    SumNonNegative(s.log, RetiredIs(id));
    PlaceSum(s.queue, id, g.queued, job);
    PlaceSum(s.timers, id, g.waiting, job);
    PlaceSum(s.failed, id, g.dead, job);
    if Sum(s.workers, OwnedBy(id)) == 0 {
      SumVanishes(s.workers, OwnedBy(id), g.working);
    }
    if Sum(s.log, RetiredIs(id)) == 0 {
      SumVanishes(s.log, RetiredIs(id), g.logged);
    }
  }

  /** A queued or sleeping job has been attempted exactly as often as its count says, a failed
      one exactly up to the limit. */
  lemma AttemptsOfJob(cfg: Config, concurrency: nat, run: seq<Label>, job: MailJob)
    requires Calm(run)
    ensures
      var s := After(cfg, concurrency, run);
      && (job in s.queue || job in s.timers ==> Attempts(s, job.mailId) == job.retryCount)
      && (job in s.failed ==>
            Attempts(s, job.mailId) == job.retryCount == if cfg.maxRetryCount <= 1 then 1 else cfg.maxRetryCount)
  {
    var s := After(cfg, concurrency, run);
    hide After, Balance, Attempts;
    if job in s.queue || job in s.timers || job in s.failed {
      JobIntegrity(cfg, concurrency, run);
      Conservation(cfg, concurrency, run, job.mailId);
      AttemptLaw(cfg, concurrency, run, job.mailId);
      SoleOwner(s, job.mailId, AttemptLedger(job.mailId), job);
    }
  }

  /** A job in a timer has been put to sleep for 2^(count+1) - 2 seconds in all, a failed one for
      2^limit - 2 seconds. */
  lemma TimeSlept(cfg: Config, concurrency: nat, run: seq<Label>, job: MailJob)
    requires Calm(run) && cfg.maxRetryCount <= 34
    ensures
      var s := After(cfg, concurrency, run);
      && (job in s.timers ==>
            job.retryCount >= 1 && Slept(s, job.mailId) == (Pow2(job.retryCount + 1) - 2) * 1_000_000_000)
      && (job in s.failed ==> Slept(s, job.mailId) == (Pow2(Limit(cfg)) - 2) * 1_000_000_000)
  {
    var s := After(cfg, concurrency, run);
    hide After, Balance, Slept;
    if job in s.timers || job in s.failed {
      JobIntegrity(cfg, concurrency, run);
      Conservation(cfg, concurrency, run, job.mailId);
      WaitLaw(cfg, concurrency, run, job.mailId);
      SoleOwner(s, job.mailId, WaitLedger(job.mailId), job);
    }
  }

  /** No owner stands for more than the limit. */
  lemma AttemptWeightsBounded(cfg: Config, s: State, id: Uuid)
    requires JobsOk(cfg, s)
    ensures forall j :: j in s.queue ==> CountIs(id)(j) <= Limit(cfg) * JobIs(id)(j)
    ensures forall j :: j in s.timers ==> CountIs(id)(j) <= Limit(cfg) * JobIs(id)(j)
    ensures forall j :: j in s.failed ==> CountIs(id)(j) <= Limit(cfg) * JobIs(id)(j)
    ensures forall k :: k in s.workers ==> WorkerAttempts(id)(k) <= Limit(cfg) * OwnedBy(id)(k)
    ensures forall e :: e in s.log ==> RetiredAttempts(id)(e) <= Limit(cfg) * RetiredIs(id)(e)
  {
    hide Genuine;
  }

  lemma AttemptWeights(cfg: Config, s: State, id: Uuid)
    requires JobsOk(cfg, s)
    ensures Balance(s, AttemptLedger(id)) <= Limit(cfg) * Owners(s, id)
  {
    hide JobsOk, Limit;
    AttemptWeightsBounded(cfg, s, id);
    var n := Limit(cfg);
    SumBound(s.queue, CountIs(id), n, JobIs(id));
    SumBound(s.timers, CountIs(id), n, JobIs(id));
    SumBound(s.failed, CountIs(id), n, JobIs(id));
    SumBound(s.workers, WorkerAttempts(id), n, OwnedBy(id));
    SumBound(s.log, RetiredAttempts(id), n, RetiredIs(id));
    hide Sum;
    Distribute(n, Sum(s.queue, JobIs(id)), Sum(s.timers, JobIs(id)), Sum(s.failed, JobIs(id)),
      Sum(s.workers, OwnedBy(id)), Sum(s.log, RetiredIs(id)));
  }

  lemma Distribute(n: int, a: int, b: int, c: int, d: int, e: int)
    ensures n * (a + b + c + d + e) == n * a + n * b + n * c + n * d + n * e
  {
  }

  /** Without redelivery no mail is attempted more than the limit, whatever writes fail. */
  lemma AttemptsBounded(cfg: Config, concurrency: nat, run: seq<Label>, id: Uuid)
    requires Calm(run)
    ensures Attempts(After(cfg, concurrency, run), id) <= if cfg.maxRetryCount <= 1 then 1 else cfg.maxRetryCount
  {
    var s := After(cfg, concurrency, run);
    hide After, Balance, Attempts, Owners, JobsOk;
    JobIntegrity(cfg, concurrency, run);
    Conservation(cfg, concurrency, run, id);
    AttemptLaw(cfg, concurrency, run, id);
    AttemptWeights(cfg, s, id);
  }

  /** With at most 34 attempts configured, every timer of every run, crashes included, sleeps for
      exactly 2^count seconds. */
  lemma TimersSleepAsIntended(cfg: Config, concurrency: nat, run: seq<Label>, e: Event)
    requires cfg.maxRetryCount <= 34
    requires e in After(cfg, concurrency, run).log && e.Scheduled?
    ensures e.job.retryCount >= 1 && 0 < e.delay == Pow2(e.job.retryCount) * 1_000_000_000
  {
    hide After;
    JobIntegrity(cfg, concurrency, run);
    DelayExact(e.job.retryCount);
  }
}
