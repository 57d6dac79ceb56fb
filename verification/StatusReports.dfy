/** What `GetStatus` and `Cancel` can be trusted to say. */
module StatusReports {
  import opened Models
  import opened Routing
  import opened Lifecycle
  import opened Integrity
  import opened Survival
  import opened Retries
  import opened StatusCache

  /** `GetStatus`: the cache entry if there is one, otherwise the row. */
  function Report(s: State, id: Uuid): Option<CacheEntry>
  {
    StatusOf(s.rows, s.cache, id)
  }

  function StatusOf(rows: map<Uuid, Row>, cache: map<Uuid, CacheEntry>, id: Uuid): Option<CacheEntry>
  {
    if id in cache then Some(cache[id])
    else if id in rows then Some(CacheEntry(rows[id].status, rows[id].retryCount))
    else None
  }

  /** The mail has failed at least once and waits for its next delivery. */
  predicate Backoff(s: State, id: Uuid)
  {
    exists j :: j in s.queue + s.timers && j.mailId == id && j.retryCount > 0
  }

  lemma ConsistentReport(cfg: Config, s: State, id: Uuid)
    requires Good(s) && JobsOk(cfg, s) && id in s.published && Present(s, id)
    ensures id in s.rows
    ensures
      if Backoff(s, id) then
        s.rows[id].status == Processing && (id in s.cache ==> s.cache[id] == CacheEntry(Queued, s.rows[id].retryCount))
      else
        id in s.cache ==> s.cache[id] == CacheEntry(s.rows[id].status, s.rows[id].retryCount)
  {
    assert Consistent(s, id);
  }

  /** In every run of uninterrupted handler calls the cache and the row agree on status and count,
      except that a mail in backoff is `queued` in the cache and `processing` in the row. */
  lemma CacheAgreesWithRow(cfg: Config, concurrency: nat, blocks: seq<Block>, id: Uuid)
    ensures
      var s := Coarse(cfg, concurrency, blocks);
      id in s.cache ==>
        && id in s.rows
        && s.cache[id] ==
           CacheEntry(if Backoff(s, id) then Queued else s.rows[id].status, s.rows[id].retryCount)
        && (Backoff(s, id) ==> s.rows[id].status == Processing)
  {
    var s := Coarse(cfg, concurrency, blocks);
    var run := FineRun(cfg, concurrency, blocks);
    AlwaysGood(cfg, concurrency, blocks);
    FineRunCalm(cfg, concurrency, blocks);
    JobIntegrity(cfg, concurrency, run);
    if id in s.cache {
      assert Consistent(s, id);
      CalmPresent(cfg, concurrency, run, id);
      hide FineRun, After, Good, JobsOk, Present, Backoff, Consistent;
      ConsistentReport(cfg, s, id);
    }
  }

  /** Losing a cache entry changes the report exactly for a mail in backoff. */
  lemma ExpiryChangesOnlyBackoff(cfg: Config, concurrency: nat, blocks: seq<Block>, lost: Uuid, id: Uuid)
    ensures
      var s := Coarse(cfg, concurrency, blocks);
      Report(Next(cfg, s, Expire(lost)), id) != Report(s, id) <==> id == lost && id in s.cache && Backoff(s, id)
  {
    var s := Coarse(cfg, concurrency, blocks);
    CacheAgreesWithRow(cfg, concurrency, blocks, lost);
    var t := Next(cfg, s, Expire(lost));
    assert t == s.(cache := s.cache - {lost});
    hide Coarse, Next, Backoff;
  }

  /** The mail is in the main queue for the first time: nobody has been handed it yet. */
  predicate Undelivered(s: State, id: Uuid)
  {
    exists j :: j in s.queue && j.mailId == id && j.retryCount == 0
  }

  lemma QueuedRowIsFresh(cfg: Config, s: State, id: Uuid)
    requires Good(s) && JobsOk(cfg, s) && id in s.rows
    requires id in s.published ==> Present(s, id)
    ensures s.rows[id].status == Queued <==> Undelivered(s, id) && s.rows[id].status != Cancelled
  {
    assert Consistent(s, id);
  }

  /** A cancellation is accepted exactly for an own mail that has never been handed to a worker and
      is not cancelled yet; such a mail has never been attempted. */
  lemma CancelOnlyBeforeDelivery(cfg: Config, concurrency: nat, blocks: seq<Block>, id: Uuid, clientId: string)
    ensures
      var s := Coarse(cfg, concurrency, blocks);
      Enabled(cfg, s, CancelRead(id, clientId)) <==>
      id in s.rows && s.rows[id].clientId == clientId && Undelivered(s, id) && s.rows[id].status != Cancelled
    ensures
      var s := Coarse(cfg, concurrency, blocks);
      Undelivered(s, id) ==> Attempts(s, id) == 0
  {
    var s := Coarse(cfg, concurrency, blocks);
    var run := FineRun(cfg, concurrency, blocks);
    AlwaysGood(cfg, concurrency, blocks);
    FineRunCalm(cfg, concurrency, blocks);
    JobIntegrity(cfg, concurrency, run);
    if id in s.published {
      CalmPresent(cfg, concurrency, run, id);
    }
    hide FineRun, After, Good, JobsOk, Present, Attempts;
    if id in s.rows {
      QueuedRowIsFresh(cfg, s, id);
    }
    if Undelivered(s, id) {
      var job :| job in s.queue && job.mailId == id && job.retryCount == 0;
      AttemptsOfJob(cfg, concurrency, run, job);
    }
  }

  // ---- Without uninterrupted calls

  /** The blocks matter: a producer writes the cache after publishing, so a fast worker's `sent`
      is overwritten by `queued`, and stays so until the entry expires. */
  lemma FastWorkerLeavesStaleCache(cfg: Config, content: MailContent, clientId: string)
    returns (run: seq<Label>)
    requires content.attachments == [] && content.senderConfigId.None?
    ensures Calm(run)
    ensures
      var s := After(cfg, 1, run);
      0 in s.rows && s.rows[0].status == Sent && Report(s, 0) == Some(CacheEntry(Queued, 0))
  {
    var l0 := [Create(0, content, clientId), Produce(0, true), Deliver(0, 0)];
    var work := Work(0, true, map[]);
    var l1 := Calls(0, map[], 5);
    var l2 := Calls(0, map[], 4);
    run := l0 + l1 + [work] + l2 + [Produce(0, true)];
    var s0 := After(cfg, 1, l0);
    var s1 := Drive(cfg, s0, 0, map[], 5);
    var s2 := Next(cfg, s1, work);
    var s3 := Drive(cfg, s2, 0, map[], 4);
    hide Next, Exec, Drive;
    ExecParts(cfg, Init(1), l0, l1, work, l2, Produce(0, true));
    ExecDrive(cfg, s0, 0, map[], 5);
    ExecDrive(cfg, s2, 0, map[], 4);
    CalmCalls(0, map[], 5);
    CalmCalls(0, map[], 4);
    hide Calls, Init;
    assert Calm(l0);
    CalmParts(l0, l1, work, l2, Produce(0, true));
    hide Calm;
    assert After(cfg, 1, run) == Next(cfg, s3, Produce(0, true));
    FreshDelivery(cfg, content, clientId);
    FastDelivery(cfg, s0);
    LateCacheWrite(cfg, s3);
  }

  lemma ExecParts(cfg: Config, s: State, a: seq<Label>, b: seq<Label>, l: Label, c: seq<Label>, m: Label)
    ensures
      Exec(cfg, s, a + b + [l] + c + [m]) ==
      Next(cfg, Exec(cfg, Next(cfg, Exec(cfg, Exec(cfg, s, a), b), l), c), m)
  {
    ExecStep(cfg, s, a + b + [l] + c, m);
    ExecConcat(cfg, s, a + b + [l], c);
    ExecStep(cfg, s, a + b, l);
    ExecConcat(cfg, s, a, b);
    hide Next, Exec;
  }

  lemma CalmCalls(w: nat, disk: Disk, n: nat)
    ensures Calm(Calls(w, disk, n))
  {
  }

  lemma CalmParts(a: seq<Label>, b: seq<Label>, l: Label, c: seq<Label>, m: Label)
    requires Calm(a) && Calm(b) && Calm([l]) && Calm(c) && Calm([m])
    ensures Calm(a + b + [l] + c + [m])
  {
  }

  lemma LateCacheWrite(cfg: Config, s: State)
    requires |s.producers| == 1 && s.producers[0].pc == ToCache && s.producers[0].mailId == 0
    ensures
      var t := Next(cfg, s, Produce(0, true));
      t.rows == s.rows && Report(t, 0) == Some(CacheEntry(Queued, 0))
  {
  }

  lemma FastDelivery(cfg: Config, s: State)
    requires |s.workers| == 1 && s.workers[0].Busy? && s.workers[0].pc == TestShutdown
    requires s.workers[0].msg.mailId == 0 && s.workers[0].msg.content.attachments == []
    requires !s.isShutdown && s.channelOpen && 0 in s.rows && s.rows[0].status != Cancelled
    ensures
      var t := Drive(cfg, Next(cfg, Drive(cfg, s, 0, map[], 5), Work(0, true, map[])), 0, map[], 4);
      0 in t.rows && t.rows[0].status == Sent && t.producers == s.producers
  {
    var work := Work(0, true, map[]);
    var s1 := Drive(cfg, s, 0, map[], 5);
    var s2 := Next(cfg, s1, work);
    DriveStart(cfg, s, 0, map[]);
    DriveLocal(cfg, s, 0, map[], 5, 0);
    hide Next, Drive, Touches;
    AcceptedStep(cfg, s1);
    DriveSent(cfg, s2, 0, map[]);
    DriveLocal(cfg, s2, 0, map[], 4, 0);
  }

  lemma AcceptedStep(cfg: Config, s: State)
    requires |s.workers| == 1 && s.workers[0].Busy? && s.workers[0].pc == Send
    requires s.workers[0].msg.content.attachments == []
    ensures
      var k := s.workers[0];
      Next(cfg, s, Work(0, true, map[])) ==
      s.(workers := [k.(pc := SentRow)], log := s.log + [Attempted(k.Job(), WorkerBackend(cfg, k.msg.content), true)])
  {
    WorkIs(cfg, s, 0, true, map[]);
    hide Next;
  }

  lemma FreshDelivery(cfg: Config, content: MailContent, clientId: string)
    requires content.senderConfigId.None?
    ensures
      var s := After(cfg, 1, [Create(0, content, clientId), Produce(0, true), Deliver(0, 0)]);
      s == Init(1).(rows := map[0 := Row(Queued, 0, clientId)],
                    producers := [Producer(ToCache, 0, content)],
                    published := map[0 := content],
                    workers := [Busy(TestShutdown, MailJob(0, content, 0), 0, true)])
  {
    ExecThree(cfg, Init(1), Create(0, content, clientId), Produce(0, true), Deliver(0, 0));
    hide Exec, Advance, Unacked, Losses;
  }
}
