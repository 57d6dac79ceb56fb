/**
 Runs from the start of the system that reach the states the exact conditions warn about. Each takes
 an arbitrary mail that its producer can submit; the steps are chosen, the conditions decide.
 */
module Witnesses {
  import opened Models
  import opened Sums
  import opened Lifecycle
  import opened Tokens
  import opened Survival
  import opened Retries
  import opened Cancellation
  import opened Drain
  import opened StatusCache
  import opened StatusReports

  // ---- Continuing a run

  lemma Continue(cfg: Config, run: seq<Label>, more: seq<Label>)
    ensures After(cfg, 1, run + more) == Exec(cfg, After(cfg, 1, run), more)
  {
    ExecConcat(cfg, Init(1), run, more);
    hide Exec;
  }

  lemma ContinueOne(cfg: Config, run: seq<Label>, l: Label)
    ensures After(cfg, 1, run + [l]) == Next(cfg, After(cfg, 1, run), l)
  {
    ExecStep(cfg, Init(1), run, l);
    hide Exec, Next;
  }

  function Taken(content: MailContent, clientId: string): seq<Label>
  {
    [Create(0, content, clientId), Produce(0, true), Deliver(0, 0)]
  }

  // ---- The drain

  lemma ShutdownIs(cfg: Config, s: State)
    ensures Next(cfg, s, Shutdown) == s.(isShutdown := true)
  {
    hide Advance, Unacked, Losses, ProduceStep, CancelStep, Commit;
  }

  /** A drained state that is not silent: shutdown is requested between a worker's shutdown test and
      its increment of `activeJobs`. */
  lemma DrainedButNotSilent(cfg: Config, content: MailContent, clientId: string) returns (run: seq<Label>)
    requires content.senderConfigId.None?
    ensures Calm(run)
    ensures Drained(After(cfg, 1, run)) && !Silent(cfg, After(cfg, 1, run))
  {
    var work := Work(0, true, map[]);
    var s0 := After(cfg, 1, Taken(content, clientId));
    FreshDelivery(cfg, content, clientId);
    run := Taken(content, clientId) + [work] + [Shutdown];
    ContinueOne(cfg, Taken(content, clientId), work);
    ContinueOne(cfg, Taken(content, clientId) + [work], Shutdown);
    ShutdownIs(cfg, Next(cfg, s0, work));
    ActiveJobsCounts(cfg, 1, run);
    hide After, Next, Silent, Drained;
    PassedTest(cfg, s0);
    EnteringIsNotSilent(cfg, After(cfg, 1, run));
  }

  lemma PassedTest(cfg: Config, s: State)
    requires |s.workers| == 1 && s.workers[0].Busy? && s.workers[0].pc == TestShutdown && !s.isShutdown
    ensures Next(cfg, s, Work(0, true, map[])).workers == [s.workers[0].(pc := EnterSection)]
  {
    WorkIs(cfg, s, 0, true, map[]);
    hide Next;
  }

  lemma EnteringIsNotSilent(cfg: Config, s: State)
    requires |s.workers| == 1 && s.workers[0].Busy? && s.workers[0].pc == EnterSection
    requires s.isShutdown && Counted(s)
    ensures Drained(s) && !Silent(cfg, s)
  {
    hide Silent;
    SumZero(s.workers, SectionCount());
    assert s.workers[0] in s.workers;
    DrainIsSilentExactly(cfg, s);
  }

  // ---- The cancellation

  lemma CancelReadIs(cfg: Config, s: State, id: Uuid, clientId: string)
    requires Enabled(cfg, s, CancelRead(id, clientId))
    ensures
      Next(cfg, s, CancelRead(id, clientId)) == s.(cancellers := s.cancellers + [Canceller(ToCancelRow, id)])
  {
    hide Advance, Unacked, Losses, ProduceStep, CancelStep, Commit;
  }

  /** A cancelled row that is not final: the canceller writes it after a worker's check. */
  lemma CancelledButNotFinal(cfg: Config, content: MailContent, clientId: string) returns (run: seq<Label>)
    requires content.senderConfigId.None?
    ensures Calm(run)
    ensures IsCancelled(After(cfg, 1, run), 0) && !Final(cfg, After(cfg, 1, run), 0)
  {
    var read := CancelRead(0, clientId);
    var s0 := After(cfg, 1, Taken(content, clientId));
    FreshDelivery(cfg, content, clientId);
    ContinueOne(cfg, Taken(content, clientId), read);
    CancelReadIs(cfg, s0, 0, clientId);
    var r1 := Taken(content, clientId) + [read];
    var s1 := Next(cfg, s0, read);
    Continue(cfg, r1, Calls(0, map[], 3));
    ExecDrive(cfg, s1, 0, map[], 3);
    var r2 := r1 + Calls(0, map[], 3);
    run := r2 + [Cancelling(0, true)];
    ContinueOne(cfg, r2, Cancelling(0, true));
    hide After, Next, Drive, Exec, Final, MayOverwrite, Calls;
    assert Calm(Taken(content, clientId)) && Calm([read]) && Calm([Cancelling(0, true)]);
    CalmCalls(0, map[], 3);
    hide Calm;
    CalmConcat(Taken(content, clientId), [read]);
    CalmConcat(r1, Calls(0, map[], 3));
    CalmConcat(r2, [Cancelling(0, true)]);
    CheckedThenCancelled(cfg, s1);
    var s := After(cfg, 1, run);
    assert s.workers[0] in s.workers;
    FinalExactlyWhenSettled(cfg, s, 0);
  }

  lemma CheckedThenCancelled(cfg: Config, s: State)
    requires |s.workers| == 1 && s.workers[0].Busy? && s.workers[0].pc == TestShutdown
    requires s.workers[0].msg.mailId == 0 && s.channelOpen
    requires !s.isShutdown && 0 in s.rows && s.rows[0].status == Queued
    requires s.cancellers == [Canceller(ToCancelRow, 0)]
    ensures
      var t := Next(cfg, Drive(cfg, s, 0, map[], 3), Cancelling(0, true));
      IsCancelled(t, 0) && |t.workers| == 1 && MayOverwrite(cfg, t.workers[0], 0)
  {
    DriveCheck(cfg, s, 0, map[]);
    CancellingIs(cfg, Drive(cfg, s, 0, map[], 3), 0, true);
    hide Next, Drive;
  }

  /** And a delivery that overtakes a cancel: the row ends as sent, the cache as cancelled. */
  lemma CancelLeavesWrongReport(cfg: Config, content: MailContent, clientId: string) returns (run: seq<Label>)
    requires content.senderConfigId.None? && content.attachments == []
    ensures
      var s := After(cfg, 1, run);
      0 in s.rows && s.rows[0].status == MailStatus.Sent && Report(s, 0) == Some(CacheEntry(Cancelled, 0))
  {
    var read := CancelRead(0, clientId);
    var work := Work(0, true, map[]);
    var cancel := Cancelling(0, true);
    var s0 := After(cfg, 1, Taken(content, clientId));
    FreshDelivery(cfg, content, clientId);
    ContinueOne(cfg, Taken(content, clientId), read);
    CancelReadIs(cfg, s0, 0, clientId);
    var r1 := Taken(content, clientId) + [read];
    var s1 := Next(cfg, s0, read);
    Continue(cfg, r1, Calls(0, map[], 5));
    ExecDrive(cfg, s1, 0, map[], 5);
    var r2 := r1 + Calls(0, map[], 5);
    var s2 := Drive(cfg, s1, 0, map[], 5);
    ContinueOne(cfg, r2, work);
    ContinueOne(cfg, r2 + [work], cancel);
    var s4 := Next(cfg, Next(cfg, s2, work), cancel);
    Continue(cfg, r2 + [work] + [cancel], Calls(0, map[], 4));
    ExecDrive(cfg, s4, 0, map[], 4);
    run := r2 + [work] + [cancel] + Calls(0, map[], 4) + [cancel];
    ContinueOne(cfg, r2 + [work] + [cancel] + Calls(0, map[], 4), cancel);
    hide After, Exec;
    SentThenCancelled(cfg, s1);
  }

  lemma SentThenCancelled(cfg: Config, s: State)
    requires |s.workers| == 1 && s.workers[0].Busy? && s.workers[0].pc == TestShutdown
    requires s.workers[0].msg.mailId == 0 && s.workers[0].msg.content.attachments == [] && s.channelOpen
    requires !s.isShutdown && 0 in s.rows && s.rows[0].status == Queued
    requires s.cancellers == [Canceller(ToCancelRow, 0)]
    ensures
      var work := Work(0, true, map[]);
      var cancel := Cancelling(0, true);
      var s3 := Next(cfg, Next(cfg, Drive(cfg, s, 0, map[], 5), work), cancel);
      var t := Next(cfg, Drive(cfg, s3, 0, map[], 4), cancel);
      0 in t.rows && t.rows[0].status == MailStatus.Sent && Report(t, 0) == Some(CacheEntry(Cancelled, 0))
  {
    var cancel := Cancelling(0, true);
    AcceptedThenRowCancelled(cfg, s);
    var s3 := Next(cfg, Next(cfg, Drive(cfg, s, 0, map[], 5), Work(0, true, map[])), cancel);
    hide Next, Drive, Touches, Advance, Commit;
    var s4 := Drive(cfg, s3, 0, map[], 4);
    DriveSent(cfg, s3, 0, map[]);
    DriveLocal(cfg, s3, 0, map[], 4, 0);
    CancellingIs(cfg, s4, 0, true);
  }

  lemma AcceptedThenRowCancelled(cfg: Config, s: State)
    requires |s.workers| == 1 && s.workers[0].Busy? && s.workers[0].pc == TestShutdown
    requires s.workers[0].msg.mailId == 0 && s.workers[0].msg.content.attachments == [] && s.channelOpen
    requires !s.isShutdown && 0 in s.rows && s.rows[0].status == Queued
    requires s.cancellers == [Canceller(ToCancelRow, 0)]
    ensures
      var t := Next(cfg, Next(cfg, Drive(cfg, s, 0, map[], 5), Work(0, true, map[])), Cancelling(0, true));
      && |t.workers| == 1 && t.workers[0].Busy? && t.workers[0].pc == SentRow && t.workers[0].msg.mailId == 0
      && 0 in t.rows && t.channelOpen && t.cancellers == [Canceller(ToCancelCache, 0)]
  {
    var s1 := Drive(cfg, s, 0, map[], 5);
    DriveStart(cfg, s, 0, map[]);
    DriveLocal(cfg, s, 0, map[], 5, 0);
    assert 0 in s1.rows;
    hide Drive, Touches, Next, SetRowStatus;
    AcceptedStep(cfg, s1);
    CancelledAfter(cfg, Next(cfg, s1, Work(0, true, map[])));
  }

  lemma CancelledAfter(cfg: Config, s: State)
    requires s.cancellers == [Canceller(ToCancelRow, 0)] && 0 in s.rows
    ensures
      var t := Next(cfg, s, Cancelling(0, true));
      t.workers == s.workers && 0 in t.rows && t.channelOpen == s.channelOpen
      && t.cancellers == [Canceller(ToCancelCache, 0)]
  {
    CancellingIs(cfg, s, 0, true);
    hide Next;
  }

  // ---- Rounds of failure

  /** One worker, at rest, and one job in the queue whose row is not cancelled. */
  predicate Ready(s: State, job: MailJob)
  {
    && s.workers == [Idle] && s.queue == [job] && s.timers == [] && s.channelOpen && !s.isShutdown
    && job.mailId in s.rows && s.rows[job.mailId].status != Cancelled
  }

  /** The same, with the job in a timer. */
  predicate Asleep(s: State, job: MailJob)
  {
    && s.workers == [Idle] && s.queue == [] && s.timers == [job] && s.channelOpen && !s.isShutdown
    && job.mailId in s.rows && s.rows[job.mailId].status != Cancelled
  }

  /** A delivery that fails, up to the end of its handling. */
  function Round(): seq<Label>
  {
    [Deliver(0, 0)] + Calls(0, map[], 5) + [Work(0, false, map[])] + Calls(0, map[], 6)
  }

  lemma RoundIs(cfg: Config, s: State)
    ensures
      var s1 := Drive(cfg, Next(cfg, s, Deliver(0, 0)), 0, map[], 5);
      Exec(cfg, s, Round()) == Drive(cfg, Next(cfg, s1, Work(0, false, map[])), 0, map[], 6)
  {
    hide Next;
    var a := [Deliver(0, 0)];
    var b := a + Calls(0, map[], 5);
    var c := b + [Work(0, false, map[])];
    ExecOne(cfg, s, Deliver(0, 0));
    ExecConcat(cfg, s, a, Calls(0, map[], 5));
    ExecDrive(cfg, Next(cfg, s, Deliver(0, 0)), 0, map[], 5);
    ExecStep(cfg, s, b, Work(0, false, map[]));
    ExecConcat(cfg, s, c, Calls(0, map[], 6));
    ExecDrive(cfg, Exec(cfg, s, c), 0, map[], 6);
  }

  /** The worker has just failed to send its job, and holds nothing else. */
  predicate Failing(s: State, job: MailJob)
  {
    && s.workers == [Busy(CountRetry, job, job.retryCount, true)]
    && s.queue == [] && s.timers == [] && s.channelOpen && !s.isShutdown
    && job.mailId in s.rows && s.rows[job.mailId].status != Cancelled
  }

  lemma AttemptFails(cfg: Config, s: State, job: MailJob)
    requires Ready(s, job)
    ensures Failing(Next(cfg, Drive(cfg, Next(cfg, s, Deliver(0, 0)), 0, map[], 5), Work(0, false, map[])), job)
  {
    var s0 := Next(cfg, s, Deliver(0, 0));
    DeliverIs(cfg, s, 0, 0);
    var s1 := Drive(cfg, s0, 0, map[], 5);
    DriveStart(cfg, s0, 0, map[]);
    DriveLocal(cfg, s0, 0, map[], 5, job.mailId);
    hide Drive, Touches, Next;
    SendFails(cfg, s1, job);
  }

  lemma SendFails(cfg: Config, s: State, job: MailJob)
    requires s.workers == [Busy(Send, job, job.retryCount, true)]
    ensures
      var t := Next(cfg, s, Work(0, false, map[]));
      && t.workers == [Busy(CountRetry, job, job.retryCount, true)]
      && t.rows == s.rows && t.queue == s.queue && t.timers == s.timers
      && t.channelOpen == s.channelOpen && t.isShutdown == s.isShutdown
  {
    WorkIs(cfg, s, 0, false, map[]);
    hide Next;
  }

  lemma GoesToSleep(cfg: Config, s: State, job: MailJob)
    requires Failing(s, job) && job.retryCount + 1 < cfg.maxRetryCount
    ensures
      var t := Drive(cfg, s, 0, map[], 6);
      var next := job.(retryCount := job.retryCount + 1);
      Asleep(t, next) && Scheduled(next, Backoff.Delay(next.retryCount)) in t.log
  {
    var s1 := Next(cfg, s, Work(0, true, map[]));
    assert Drive(cfg, s, 0, map[], 6) == Drive(cfg, s1, 0, map[], 5);
    hide Next, Drive, Touches;
    CountsFailure(cfg, s, job);
    DriveRetry(cfg, s1, 0, map[]);
    DriveLocal(cfg, s1, 0, map[], 5, job.mailId);
    assert s1.workers[0].Job() == job.(retryCount := job.retryCount + 1);
  }

  lemma CountsFailure(cfg: Config, s: State, job: MailJob)
    requires Failing(s, job) && job.retryCount + 1 < cfg.maxRetryCount
    ensures
      Next(cfg, s, Work(0, true, map[])) == s.(workers := [Busy(RetryRow, job, job.retryCount + 1, true)])
  {
    WorkIs(cfg, s, 0, true, map[]);
    hide Next;
  }

  lemma RoundFails(cfg: Config, s: State, job: MailJob)
    requires Ready(s, job) && job.retryCount + 1 < cfg.maxRetryCount
    ensures
      var t := Exec(cfg, s, Round());
      var next := job.(retryCount := job.retryCount + 1);
      Asleep(t, next) && Scheduled(next, Backoff.Delay(next.retryCount)) in t.log
  {
    RoundIs(cfg, s);
    AttemptFails(cfg, s, job);
    hide Next, Drive, Exec, Round, Failing;
    GoesToSleep(cfg, Next(cfg, Drive(cfg, Next(cfg, s, Deliver(0, 0)), 0, map[], 5), Work(0, false, map[])), job);
  }

  lemma WakesUp(cfg: Config, s: State, job: MailJob)
    requires Asleep(s, job)
    ensures Ready(Next(cfg, s, Fire(0)), job) && Next(cfg, s, Fire(0)).log == s.log
  {
    FireIs(cfg, s, 0);
    hide Next;
  }

  function Start(content: MailContent, clientId: string): seq<Label>
  {
    [Create(0, content, clientId), Produce(0, true)]
  }

  lemma StartIsReady(cfg: Config, content: MailContent, clientId: string)
    requires content.senderConfigId.None?
    ensures Ready(After(cfg, 1, Start(content, clientId)), MailJob(0, content, 0))
    ensures 0 in After(cfg, 1, Start(content, clientId)).published
  {
    ExecTwo(cfg, Init(1), Create(0, content, clientId), Produce(0, true));
    hide Exec, Advance, Unacked, Losses;
  }

  lemma CalmConcat(a: seq<Label>, b: seq<Label>)
    requires Calm(a) && Calm(b)
    ensures Calm(a + b)
  {
  }

  lemma CalmRound()
    ensures Calm(Round())
  {
  }

  /** With one attempt after another failing, the job reaches every count below the limit. */
  lemma {:induction false} ReachesCount(cfg: Config, content: MailContent, clientId: string, count: nat)
    returns (run: seq<Label>)
    requires content.senderConfigId.None? && (count == 0 || count < cfg.maxRetryCount)
    ensures Calm(run) && Ready(After(cfg, 1, run), MailJob(0, content, count))
  {
    hide After, Next, Exec, Round, Calm;
    if count == 0 {
      run := Start(content, clientId);
      StartIsReady(cfg, content, clientId);
      assert Calm(run) by {
        CalmStart(content, clientId);
      }
    } else {
      var before := ReachesCount(cfg, content, clientId, count - 1);
      var s := After(cfg, 1, before);
      Continue(cfg, before, Round());
      RoundFails(cfg, s, MailJob(0, content, count - 1));
      WakesUp(cfg, Exec(cfg, s, Round()), MailJob(0, content, count));
      ContinueOne(cfg, before + Round(), Fire(0));
      run := before + Round() + [Fire(0)];
      CalmRound();
      CalmConcat(before, Round());
      CalmFire();
      CalmConcat(before + Round(), [Fire(0)]);
    }
  }

  lemma CalmStart(content: MailContent, clientId: string)
    ensures Calm(Start(content, clientId))
  {
  }

  lemma CalmFire()
    ensures Calm([Fire(0)])
  {
  }

  // ---- Lost mails

  /** A published mail that a crash loses: its first attempt failed, and it waits in a timer. */
  lemma LostInTimer(cfg: Config, content: MailContent, clientId: string) returns (run: seq<Label>)
    requires content.senderConfigId.None? && cfg.maxRetryCount >= 2
    ensures 0 in After(cfg, 1, run).published && !Present(After(cfg, 1, run), 0)
  {
    var start := Start(content, clientId);
    var s := After(cfg, 1, start);
    var asleep := start + Round();
    StartIsReady(cfg, content, clientId);
    Continue(cfg, start, Round());
    RoundFails(cfg, s, MailJob(0, content, 0));
    hide Exec, Round;
    CalmStart(content, clientId);
    CalmRound();
    CalmConcat(start, Round());
    hide After;
    StaysPublished(cfg, start, Round(), 0);
    CrashLosesExactly(cfg, 1, asleep, 0);
    Frame(cfg, After(cfg, 1, asleep), Crash);
    ContinueOne(cfg, asleep, Crash);
    hide Next;
    var t := After(cfg, 1, asleep);
    assert t.timers[0] in t.timers;
    run := asleep + [Crash];
  }

  lemma {:induction false} StaysPublished(cfg: Config, run: seq<Label>, more: seq<Label>, id: Uuid)
    requires id in After(cfg, 1, run).published
    ensures id in After(cfg, 1, run + more).published
  {
    hide Next, After;
    if more == [] {
      assert run + more == run;
    } else {
      var front := more[..|more| - 1];
      StaysPublished(cfg, run, front, id);
      assert run + more == (run + front) + [more[|more| - 1]];
      ContinueOne(cfg, run + front, more[|more| - 1]);
      Invariants(cfg, 1, run + front);
      PublishedStep(cfg, After(cfg, 1, run + front), more[|more| - 1], id);
    }
  }

  // ---- Delays

  /** Every timer of every run sleeps for two to the power of the job's count, in seconds. */
  ghost predicate TimersAsIntended(cfg: Config)
  {
    forall concurrency: nat, run, e: Event ::
      e in After(cfg, concurrency, run).log && e.Scheduled? ==>
      e.job.retryCount >= 1 && e.delay == Backoff.Pow2(e.job.retryCount) * 1_000_000_000
  }

  /** The bound on the configuration is tight for whole runs: a limit of 34 attempts or fewer keeps
      every delay exact, and with any higher limit some run starts a timer with a negative delay. */
  lemma TimersAsIntendedExactly(cfg: Config)
    ensures TimersAsIntended(cfg) <==> cfg.maxRetryCount <= 34
  {
    if cfg.maxRetryCount <= 34 {
      forall concurrency: nat, run, e: Event | e in After(cfg, concurrency, run).log && e.Scheduled?
        ensures e.job.retryCount >= 1 && e.delay == Backoff.Pow2(e.job.retryCount) * 1_000_000_000
      {
        TimersSleepAsIntended(cfg, concurrency, run, e);
      }
    } else {
      var run, e := NegativeDelay(cfg);
      hide After;
      assert e in After(cfg, 1, run).log && e.Scheduled?;
    }
  }

  lemma NegativeDelay(cfg: Config) returns (run: seq<Label>, e: Event)
    requires cfg.maxRetryCount >= 35
    ensures Calm(run) && e in After(cfg, 1, run).log && e.Scheduled? && e.job.retryCount == 34 && e.delay == -1_266_874_889_709_551_616
  {
    var content := MailContent("", [], [], [], "", "", "", [], map[], None);
    var before := ReachesCount(cfg, content, "", 33);
    Continue(cfg, before, Round());
    RoundFails(cfg, After(cfg, 1, before), MailJob(0, content, 33));
    CalmRound();
    CalmConcat(before, Round());
    Backoff.DelayOverflowsAt34();
    hide After, Round, Exec;
    run := before + Round();
    e := Scheduled(MailJob(0, content, 34), Backoff.Delay(34));
  }
}
