/**
 Agreement between the status cache and the `mails` rows, for runs in which each handler call
 (submit, cancel, start of a delivery, end of a delivery) happens without interference. Such a
 block is a sequence of the fine steps, so every law of calm runs applies to it.
 */
module StatusCache {
  import opened Models
  import opened Sums
  import opened Routing
  import opened Backoff
  import opened Lifecycle
  import opened Tokens
  import opened Integrity
  import opened Survival
  import S = Submissions

  datatype Block =
    | Submit(mailId: Uuid, content: MailContent, clientId: string, ok: bool)
    | CancelMail(mailId: Uuid, clientId: string)
    | Start(worker: nat, index: nat)
    | Finish(worker: nat, ok: bool, disk: Disk)
    | Wake(timer: nat)
    | Forget(mailId: Uuid)

  /** `n` successful calls of one worker. */
  function Calls(w: nat, disk: Disk, n: nat): seq<Label>
  {
    seq(n, _ => Work(w, true, disk))
  }

  /** The fine steps of a block; every database, cache and broker call in it succeeds, except
      that publishing and sending may fail. */
  function Labels(cfg: Config, s: State, b: Block): seq<Label>
  {
    match b
    case Submit(id, content, clientId, ok) =>
      [Create(id, content, clientId), Produce(|s.producers|, ok), Produce(|s.producers|, true)]
    case CancelMail(id, clientId) =>
      [CancelRead(id, clientId), Cancelling(|s.cancellers|, true), Cancelling(|s.cancellers|, true)]
    case Start(w, i) =>
      if Enabled(cfg, s, Deliver(w, i)) then [Deliver(w, i)] + Calls(w, map[], 5) else []
    case Finish(w, ok, disk) =>
      if Enabled(cfg, s, Work(w, ok, disk)) then [Work(w, ok, disk)] + Calls(w, disk, 6) else []
    case Wake(t) => [Fire(t)]
    case Forget(id) => [Expire(id)]
  }

  function Apply(cfg: Config, s: State, b: Block): State
  {
    Exec(cfg, s, Labels(cfg, s, b))
  }

  // ---- The claim

  predicate CacheIs(s: State, id: Uuid, status: MailStatus, count: int)
  {
    id in s.cache ==> s.cache[id] == CacheEntry(status, count)
  }

  predicate RowIs(s: State, id: Uuid, status: MailStatus, count: int)
  {
    id in s.rows && s.rows[id].status == status && s.rows[id].retryCount == count
  }

  predicate Agrees(s: State, id: Uuid, status: MailStatus, count: int)
  {
    RowIs(s, id, status, count) && CacheIs(s, id, status, count)
  }

  /** A mail awaiting a retry is the one exception: processing in the row, queued in the cache. */
  predicate AwaitsRetry(s: State, id: Uuid, count: int)
  {
    RowIs(s, id, Processing, count) && CacheIs(s, id, Queued, count)
  }

  predicate QueuedOk(s: State, j: MailJob)
  {
    if j.retryCount == 0 then Agrees(s, j.mailId, Queued, 0) || Agrees(s, j.mailId, Cancelled, 0)
    else AwaitsRetry(s, j.mailId, j.retryCount)
  }

  predicate EndedOk(s: State, e: Event)
  {
    if e.Skipped? then Agrees(s, e.job.mailId, Cancelled, 0)
    else if e.Attempted? && e.accepted then Agrees(s, e.job.mailId, Sent, e.job.retryCount)
    else true
  }

  /** Row, cache and whereabouts of one mail fit together. */
  predicate Consistent(s: State, id: Uuid)
  {
    && (forall j :: j in s.queue && j.mailId == id ==> QueuedOk(s, j))
    && (forall j :: j in s.timers && j.mailId == id ==> AwaitsRetry(s, id, j.retryCount))
    && (forall j :: j in s.failed && j.mailId == id ==> Agrees(s, id, Failed, j.retryCount))
    && (forall k :: k in s.workers && k.Busy? && k.msg.mailId == id ==> Agrees(s, id, Processing, k.retryCount))
    && (forall e :: e in s.log && e.job.mailId == id ==> EndedOk(s, e))
    && (id !in s.published ==> id !in s.cache && (id in s.rows ==> s.rows[id].status == Failed))
    && (id in s.published ==> id in s.rows)
  }

  /** Between blocks everybody is at rest, and workers that hold a mail are about to send it. */
  predicate Orderly(s: State)
  {
    && s.channelOpen && !s.isShutdown
    && (forall k :: k in s.workers && k.Busy? ==> k.pc == Send && k.unacked && k.retryCount == k.msg.retryCount)
    && (forall p :: p in s.producers ==> p.pc == Submitted)
    && (forall c :: c in s.cancellers ==> c.pc == CancelDone)
  }

  // ---- A step that concerns one mail leaves the others alone

  ghost predicate Touches(s: State, t: State, id: Uuid)
  {
    && (forall j :: j in t.queue && j.mailId != id ==> j in s.queue)
    && (forall j :: j in t.timers && j.mailId != id ==> j in s.timers)
    && (forall j :: j in t.failed && j.mailId != id ==> j in s.failed)
    && (forall k :: k in t.workers && k.Busy? && k.msg.mailId != id ==> k in s.workers)
    && (forall e :: e in t.log && e.job.mailId != id ==> e in s.log)
    && (forall x :: x != id ==> (x in t.rows <==> x in s.rows))
    && (forall x :: x != id && x in s.rows ==> t.rows[x] == s.rows[x])
    && (forall x :: x != id && x in t.cache ==> x in s.cache && t.cache[x] == s.cache[x])
    && (forall x :: x != id ==> (x in t.published <==> x in s.published))
  }

  lemma TouchesTransitive(s: State, t: State, u: State, id: Uuid)
    requires Touches(s, t, id) && Touches(t, u, id)
    ensures Touches(s, u, id)
  {
  }

  lemma OthersStayConsistent(s: State, t: State, id: Uuid, x: Uuid)
    requires Touches(s, t, id) && x != id && Consistent(s, x)
    ensures Consistent(t, x)
  {
  }

  predicate Concerns(s: State, l: Label, id: Uuid)
  {
    match l
    case Create(x, _, _) => x == id
    case Produce(p, _) => p < |s.producers| ==> s.producers[p].mailId == id
    case CancelRead(_, _) => true
    case Cancelling(c, _) => c < |s.cancellers| ==> s.cancellers[c].mailId == id
    case Expire(x) => x == id
    case Deliver(_, i) => i < |s.queue| ==> s.queue[i].mailId == id
    case Work(w, _, _) => w < |s.workers| && s.workers[w].Busy? ==> s.workers[w].msg.mailId == id
    case Fire(t) => t < |s.timers| ==> s.timers[t].mailId == id
    case Shutdown => true
    case _ => false
  }

  lemma AdvanceTouches(cfg: Config, s: State, k: Worker, ok: bool, disk: Disk)
    requires k.Busy?
    ensures
      var e := Advance(cfg, s, k, ok, disk);
      var id := k.msg.mailId;
      && (forall j :: j in e.toQueue ==> j.mailId == id)
      && (forall j :: j in e.toTimers ==> j.mailId == id)
      && (forall j :: j in e.toFailed ==> j.mailId == id)
      && (forall x :: x in e.toLog ==> x.job.mailId == id)
      && (e.worker.Busy? ==> e.worker.msg == k.msg)
  {
    hide Loadable, SetStatus, SetRowStatus, SetRowCount;
    AdvanceMsg(cfg, s, k, ok, disk);
    if !Loud(k.pc) {
      AdvanceQuiet(cfg, s, k, ok, disk);
      hide Advance;
    }
  }

  lemma RowsOfOthers(cfg: Config, s: State, k: Worker, ok: bool, disk: Disk)
    requires k.Busy?
    ensures
      var e := Advance(cfg, s, k, ok, disk);
      forall x :: x != k.msg.mailId ==> (x in e.rows <==> x in s.rows) && (x in s.rows ==> e.rows[x] == s.rows[x])
  {
    hide Loadable, WorkerBackend, Delay, SetStatus;
  }

  lemma CacheOfOthers(cfg: Config, s: State, k: Worker, ok: bool, disk: Disk)
    requires k.Busy?
    ensures
      var e := Advance(cfg, s, k, ok, disk);
      forall x :: x != k.msg.mailId ==> (x in e.cache <==> x in s.cache) && (x in s.cache ==> e.cache[x] == s.cache[x])
  {
    hide Loadable, WorkerBackend, Delay, SetRowStatus, SetRowCount;
  }

  lemma WorkTouches(cfg: Config, s: State, w: nat, ok: bool, disk: Disk, id: Uuid)
    requires w < |s.workers| && s.workers[w].Busy? && s.workers[w].msg.mailId == id
    ensures Touches(s, Commit(s, w, Advance(cfg, s, s.workers[w], ok, disk)), id)
  {
    AdvanceTouches(cfg, s, s.workers[w], ok, disk);
    RowsOfOthers(cfg, s, s.workers[w], ok, disk);
    CacheOfOthers(cfg, s, s.workers[w], ok, disk);
    hide Advance;
  }

  lemma MoveTouches(cfg: Config, s: State, l: Label, id: Uuid)
    requires Concerns(s, l, id) && s.channelOpen && (l.Deliver? || l.Fire?)
    ensures Touches(s, Next(cfg, s, l), id)
  {
    hide Advance, Unacked, Losses, ProduceStep, CancelStep;
  }

  // ---- Stretches of one worker

  /** The worker makes `n` more calls, all of them successful. */
  function Drive(cfg: Config, s: State, w: nat, disk: Disk, n: nat): State
    decreases n
  {
    if n == 0 then s else Drive(cfg, Next(cfg, s, Work(w, true, disk)), w, disk, n - 1)
  }

  lemma {:induction false} ExecDrive(cfg: Config, s: State, w: nat, disk: Disk, n: nat)
    ensures Exec(cfg, s, Calls(w, disk, n)) == Drive(cfg, s, w, disk, n)
    decreases n
  {
    hide Next;
    var l := Work(w, true, disk);
    if n > 0 {
      var rest := Calls(w, disk, n - 1);
      assert Calls(w, disk, n) == [l] + rest;
      ExecConcat(cfg, s, [l], rest);
      ExecStep(cfg, s, [], l);
      assert [] + [l] == [l];
      ExecDrive(cfg, Next(cfg, s, l), w, disk, n - 1);
    }
  }

  /** Only this worker's slot, and records of its mail, change. */
  ghost predicate Local(s: State, t: State, w: nat, id: Uuid)
  {
    && Touches(s, t, id)
    && |t.workers| == |s.workers|
    && (forall i :: 0 <= i < |s.workers| && i != w ==> t.workers[i] == s.workers[i])
    && t.producers == s.producers && t.cancellers == s.cancellers
    && t.channelOpen == s.channelOpen && t.isShutdown == s.isShutdown
    && (w < |s.workers| && t.workers[w].Busy? ==> t.workers[w].msg.mailId == id)
  }

  lemma WorkLocal(cfg: Config, s: State, w: nat, ok: bool, disk: Disk, id: Uuid)
    requires s.channelOpen && w < |s.workers| && (s.workers[w].Busy? ==> s.workers[w].msg.mailId == id)
    ensures Local(s, Next(cfg, s, Work(w, ok, disk)), w, id)
  {
    WorkIs(cfg, s, w, ok, disk);
    if s.workers[w].Busy? {
      WorkTouches(cfg, s, w, ok, disk, id);
      AdvanceTouches(cfg, s, s.workers[w], ok, disk);
      hide Touches;
    }
    hide Next, Advance;
  }

  lemma {:induction false} DriveLocal(cfg: Config, s: State, w: nat, disk: Disk, n: nat, id: Uuid)
    requires s.channelOpen && w < |s.workers| && (s.workers[w].Busy? ==> s.workers[w].msg.mailId == id)
    ensures Local(s, Drive(cfg, s, w, disk, n), w, id)
    decreases n
  {
    hide Next;
    if n > 0 {
      var t := Next(cfg, s, Work(w, true, disk));
      WorkLocal(cfg, s, w, true, disk, id);
      DriveLocal(cfg, t, w, disk, n - 1, id);
      TouchesTransitive(s, t, Drive(cfg, t, w, disk, n - 1), id);
      hide Touches;
    }
  }

  /** From the acknowledgement on nothing but the worker's own slot changes. */
  lemma DriveAck(cfg: Config, s: State, w: nat, disk: Disk)
    requires w < |s.workers| && s.workers[w].Busy? && s.workers[w].pc == Ack
    ensures
      var t := Drive(cfg, s, w, disk, 2);
      && t.workers == s.workers[w := Idle]
      && t.rows == s.rows && t.cache == s.cache && t.queue == s.queue
      && t.timers == s.timers && t.failed == s.failed && t.log == s.log
      && t.published == s.published
  {
    hide Next;
    var s1 := Next(cfg, s, Work(w, true, disk));
    var s2 := Next(cfg, s1, Work(w, true, disk));
    WorkIs(cfg, s, w, true, disk);
    WorkIs(cfg, s1, w, true, disk);
    assert Drive(cfg, s, w, disk, 2) == Drive(cfg, s1, w, disk, 1) == Drive(cfg, s2, w, disk, 0) == s2;
  }

  lemma DriveSent(cfg: Config, s: State, w: nat, disk: Disk)
    requires w < |s.workers| && s.workers[w].Busy? && s.workers[w].pc == SentRow
    ensures
      var k := s.workers[w];
      var id := k.msg.mailId;
      var t := Drive(cfg, s, w, disk, 4);
      && t.workers == s.workers[w := Idle]
      && t.rows == SetRowStatus(s.rows, true, id, Sent)
      && t.cache == s.cache[id := CacheEntry(Sent, k.retryCount)]
      && t.queue == s.queue && t.timers == s.timers && t.failed == s.failed && t.log == s.log
      && t.published == s.published
  {
    hide Next;
    var s1 := Next(cfg, s, Work(w, true, disk));
    var s2 := Next(cfg, s1, Work(w, true, disk));
    WorkIs(cfg, s, w, true, disk);
    WorkIs(cfg, s1, w, true, disk);
    DriveAck(cfg, s2, w, disk);
    assert Drive(cfg, s, w, disk, 4) == Drive(cfg, s1, w, disk, 3) == Drive(cfg, s2, w, disk, 2);
  }

  lemma DriveFailed(cfg: Config, s: State, w: nat, disk: Disk)
    requires w < |s.workers| && s.workers[w].Busy? && s.workers[w].pc == FailPublish && s.channelOpen
    ensures
      var k := s.workers[w];
      var id := k.msg.mailId;
      var t := Drive(cfg, s, w, disk, 5);
      && t.workers == s.workers[w := Idle]
      && t.rows == SetRowCount(SetRowStatus(s.rows, true, id, Failed), true, id, k.retryCount)
      && t.cache == s.cache[id := CacheEntry(Failed, k.retryCount)]
      && t.queue == s.queue && t.timers == s.timers && t.failed == s.failed + [k.Job()] && t.log == s.log
      && t.published == s.published
  {
    hide Next;
    var s1 := Next(cfg, s, Work(w, true, disk));
    var s2 := Next(cfg, s1, Work(w, true, disk));
    var s3 := Next(cfg, s2, Work(w, true, disk));
    WorkIs(cfg, s, w, true, disk);
    WorkIs(cfg, s1, w, true, disk);
    WorkIs(cfg, s2, w, true, disk);
    DriveAck(cfg, s3, w, disk);
    assert Drive(cfg, s, w, disk, 5) == Drive(cfg, s1, w, disk, 4) == Drive(cfg, s2, w, disk, 3)
        == Drive(cfg, s3, w, disk, 2);
  }

  lemma DriveRetry(cfg: Config, s: State, w: nat, disk: Disk)
    requires w < |s.workers| && s.workers[w].Busy? && s.workers[w].pc == RetryRow
    ensures
      var k := s.workers[w];
      var id := k.msg.mailId;
      var t := Drive(cfg, s, w, disk, 5);
      && t.workers == s.workers[w := Idle]
      && t.rows == SetRowCount(s.rows, true, id, k.retryCount)
      && t.cache == s.cache[id := CacheEntry(Queued, k.retryCount)]
      && t.queue == s.queue && t.timers == s.timers + [k.Job()] && t.failed == s.failed
      && t.log == s.log + [Scheduled(k.Job(), Delay(k.retryCount))]
      && t.published == s.published
  {
    hide Next;
    var s1 := Next(cfg, s, Work(w, true, disk));
    var s2 := Next(cfg, s1, Work(w, true, disk));
    var s3 := Next(cfg, s2, Work(w, true, disk));
    WorkIs(cfg, s, w, true, disk);
    WorkIs(cfg, s1, w, true, disk);
    WorkIs(cfg, s2, w, true, disk);
    DriveAck(cfg, s3, w, disk);
    assert Drive(cfg, s, w, disk, 5) == Drive(cfg, s1, w, disk, 4) == Drive(cfg, s2, w, disk, 3)
        == Drive(cfg, s3, w, disk, 2);
  }

  // ---- What each block does

  lemma ExecTwo(cfg: Config, s: State, a: Label, b: Label)
    ensures Exec(cfg, s, [a, b]) == Next(cfg, Next(cfg, s, a), b)
  {
    hide Next;
    assert [a, b][..1] == [a] && [a][..0] == [];
    assert Exec(cfg, s, [a]) == Next(cfg, Exec(cfg, s, []), a);
  }

  lemma ExecThree(cfg: Config, s: State, a: Label, b: Label, c: Label)
    ensures Exec(cfg, s, [a, b, c]) == Next(cfg, Next(cfg, Next(cfg, s, a), b), c)
  {
    hide Next;
    assert [a, b, c][..2] == [a, b];
    ExecTwo(cfg, s, a, b);
  }

  /** The state after a submission that was possible. */
  function Submission(s: State, b: Block): State
    requires b.Submit?
  {
    S.Submission(s, MailJob(b.mailId, b.content, 0), b.clientId, b.ok, true)
  }

  lemma SubmitIs(cfg: Config, s: State, b: Block)
    requires b.Submit?
    ensures
      var t := Apply(cfg, s, b);
      t == if Enabled(cfg, s, Create(b.mailId, b.content, b.clientId)) then Submission(s, b) else s
  {
    var l := Create(b.mailId, b.content, b.clientId);
    var n := |s.producers|;
    ExecThree(cfg, s, l, Produce(n, b.ok), Produce(n, true));
    hide Exec, Next, S.Submission;
    if Enabled(cfg, s, l) {
      S.StepsAre(cfg, s, MailJob(b.mailId, b.content, 0), b.clientId, b.ok, true);
    } else {
      Disabled(cfg, s, l);
      Disabled(cfg, s, Produce(n, b.ok));
      Disabled(cfg, s, Produce(n, true));
    }
  }

  lemma CancelIs(cfg: Config, s: State, b: Block)
    requires b.CancelMail?
    ensures
      var t := Apply(cfg, s, b);
      if !Enabled(cfg, s, CancelRead(b.mailId, b.clientId)) then t == s
      else
        t == s.(rows := s.rows[b.mailId := s.rows[b.mailId].(status := Cancelled)],
                cancellers := s.cancellers + [Canceller(CancelDone, b.mailId)],
                cache := s.cache[b.mailId := CacheEntry(Cancelled, 0)])
  {
    var l := CancelRead(b.mailId, b.clientId);
    var n := |s.cancellers|;
    ExecThree(cfg, s, l, Cancelling(n, true), Cancelling(n, true));
    hide Exec, Advance, Commit, Unacked, Losses, ProduceStep;
    if Enabled(cfg, s, l) {
      var s1 := Next(cfg, s, l);
      var s2 := Next(cfg, s1, Cancelling(n, true));
      var s3 := Next(cfg, s2, Cancelling(n, true));
      assert s3.cancellers == s.cancellers + [Canceller(CancelDone, b.mailId)];
    }
  }

  /** Up to and including the cancellation check. */
  lemma DriveCheck(cfg: Config, s: State, w: nat, disk: Disk)
    requires w < |s.workers| && s.workers[w].Busy? && s.workers[w].pc == TestShutdown
    requires !s.isShutdown && s.workers[w].msg.mailId in s.rows
    ensures
      var k := s.workers[w];
      var cancelled := s.rows[k.msg.mailId].status == Cancelled;
      Drive(cfg, s, w, disk, 3) ==
      s.(workers := s.workers[w := k.(pc := if cancelled then Ack else MarkCache)],
         activeJobs := s.activeJobs + 1,
         log := if cancelled then s.log + [Skipped(k.Job())] else s.log)
  {
    hide Next;
    var s1 := Next(cfg, s, Work(w, true, disk));
    var s2 := Next(cfg, s1, Work(w, true, disk));
    var s3 := Next(cfg, s2, Work(w, true, disk));
    WorkIs(cfg, s, w, true, disk);
    WorkIs(cfg, s1, w, true, disk);
    WorkIs(cfg, s2, w, true, disk);
    assert Drive(cfg, s, w, disk, 3) == Drive(cfg, s1, w, disk, 2) == Drive(cfg, s2, w, disk, 1)
        == Drive(cfg, s3, w, disk, 0);
  }

  lemma DriveMark(cfg: Config, s: State, w: nat, disk: Disk)
    requires w < |s.workers| && s.workers[w].Busy? && s.workers[w].pc == MarkCache
    ensures
      var k := s.workers[w];
      var id := k.msg.mailId;
      Drive(cfg, s, w, disk, 2) ==
      s.(workers := s.workers[w := k.(pc := Send)],
         rows := SetRowStatus(s.rows, true, id, Processing),
         cache := s.cache[id := CacheEntry(Processing, k.retryCount)])
  {
    hide Next;
    var s1 := Next(cfg, s, Work(w, true, disk));
    var s2 := Next(cfg, s1, Work(w, true, disk));
    WorkIs(cfg, s, w, true, disk);
    WorkIs(cfg, s1, w, true, disk);
    assert Drive(cfg, s, w, disk, 2) == Drive(cfg, s1, w, disk, 1) == Drive(cfg, s2, w, disk, 0);
  }

  lemma DriveStart(cfg: Config, s: State, w: nat, disk: Disk)
    requires w < |s.workers| && s.workers[w].Busy? && s.workers[w].pc == TestShutdown
    requires !s.isShutdown && s.workers[w].msg.mailId in s.rows
    ensures
      var k := s.workers[w];
      var id := k.msg.mailId;
      var t := Drive(cfg, s, w, disk, 5);
      && t.queue == s.queue && t.timers == s.timers && t.failed == s.failed && t.published == s.published
      && if s.rows[id].status == Cancelled then
           t.workers == s.workers[w := Idle] && t.rows == s.rows && t.cache == s.cache
           && t.log == s.log + [Skipped(k.Job())]
         else
           t.workers == s.workers[w := k.(pc := Send)] && t.log == s.log
           && t.rows == SetRowStatus(s.rows, true, id, Processing)
           && t.cache == s.cache[id := CacheEntry(Processing, k.retryCount)]
  {
    DriveCheck(cfg, s, w, disk);
    var s3 := Drive(cfg, s, w, disk, 3);
    DriveSplit(cfg, s, w, disk, 3, 2);
    hide Next, Drive;
    if s3.workers[w].pc == Ack {
      DriveAck(cfg, s3, w, disk);
    } else {
      DriveMark(cfg, s3, w, disk);
    }
  }

  lemma {:induction false} DriveSplit(cfg: Config, s: State, w: nat, disk: Disk, n: nat, m: nat)
    ensures Drive(cfg, s, w, disk, n + m) == Drive(cfg, Drive(cfg, s, w, disk, n), w, disk, m)
    decreases n
  {
    hide Next;
    if n > 0 {
      DriveSplit(cfg, Next(cfg, s, Work(w, true, disk)), w, disk, n - 1, m);
    }
  }

  // ---- Exclusive whereabouts

  predicate Conserved(s: State, id: Uuid)
  {
    Owners(s, id) == if id in s.published then 1 else 0
  }

  /** A mail that a worker is about to send is nowhere else. */
  lemma SendingIsAlone(s: State, w: nat, id: Uuid)
    requires Owners(s, id) <= 1 && w < |s.workers| && Owns(s.workers[w], id)
    ensures !Among(s.queue, id) && !Among(s.timers, id) && !Among(s.failed, id) && !Finished(s, id)
    ensures forall i :: 0 <= i < |s.workers| && i != w ==> !Owns(s.workers[i], id)
  {
    hide Sum, Among, Finished;
    AmongCount(s.queue, id);
    AmongCount(s.timers, id);
    AmongCount(s.failed, id);
    RetiredCount(s, id);
    SumAtLeast(s.workers, w, OwnedBy(id));
    forall i | 0 <= i < |s.workers| && i != w
      ensures !Owns(s.workers[i], id)
    {
      if i < w {
        SumAtLeastTwo(s.workers, i, w, OwnedBy(id));
      } else {
        SumAtLeastTwo(s.workers, w, i, OwnedBy(id));
      }
    }
  }

  /** A mail in the queue is there once and nowhere else. */
  lemma QueuedIsAlone(s: State, i: nat, id: Uuid)
    requires Owners(s, id) <= 1 && i < |s.queue| && s.queue[i].mailId == id
    ensures !Among(s.queue[..i] + s.queue[i + 1..], id)
    ensures !Among(s.timers, id) && !Among(s.failed, id) && !Finished(s, id)
    ensures forall w :: 0 <= w < |s.workers| ==> !Owns(s.workers[w], id)
  {
    hide Sum, Among, Finished;
    SumRemove(s.queue, i, JobIs(id));
    AmongCount(s.queue[..i] + s.queue[i + 1..], id);
    AmongCount(s.timers, id);
    AmongCount(s.failed, id);
    RetiredCount(s, id);
    SumNonNegative(s.workers, OwnedBy(id));
    forall w | 0 <= w < |s.workers|
      ensures !Owns(s.workers[w], id)
    {
      SumAtLeast(s.workers, w, OwnedBy(id));
    }
  }

  // ---- Every block keeps the claim

  ghost predicate Good(s: State)
  {
    Orderly(s) && forall id: Uuid :: Consistent(s, id)
  }

  /** It is enough to look at the one mail a block concerns. */
  lemma OneMail(s: State, t: State, id: Uuid)
    requires Good(s) && Touches(s, t, id) && Orderly(t) && Consistent(t, id)
    ensures Good(t)
  {
    hide Consistent, Touches, Orderly;
    forall x: Uuid
      ensures Consistent(t, x)
    {
      if x != id {
        OthersStayConsistent(s, t, id, x);
      }
    }
  }

  lemma SubmissionTouches(s: State, b: Block)
    requires b.Submit?
    ensures Touches(s, Submission(s, b), b.mailId)
  {
  }

  lemma SubmissionConsistent(cfg: Config, s: State, b: Block)
    requires b.Submit? && b.mailId !in s.published && b.mailId !in s.rows
    requires JobsOk(cfg, s) && Consistent(s, b.mailId)
    ensures Consistent(Submission(s, b), b.mailId)
  {
    NoneUnpublished(cfg, s, b.mailId);
    hide JobsOk;
  }

  lemma NoneUnpublished(cfg: Config, s: State, id: Uuid)
    requires JobsOk(cfg, s) && id !in s.published
    ensures !Among(s.queue, id) && !Among(s.timers, id) && !Among(s.failed, id)
    ensures forall k :: k in s.workers && k.Busy? ==> k.msg.mailId != id
    ensures forall e :: e in s.log ==> e.job.mailId != id
  {
  }

  lemma SubmitKeeps(cfg: Config, s: State, b: Block)
    requires b.Submit? && Good(s) && JobsOk(cfg, s) && Provenance(s)
    ensures Good(Apply(cfg, s, b))
  {
    SubmitIs(cfg, s, b);
    hide Apply, Next;
    if Enabled(cfg, s, Create(b.mailId, b.content, b.clientId)) {
      assert b.mailId !in s.published && Consistent(s, b.mailId);
      assert Orderly(Submission(s, b));
      SubmissionTouches(s, b);
      SubmissionConsistent(cfg, s, b);
      hide Good, Orderly, Touches, Consistent, JobsOk, Provenance;
      OneMail(s, Submission(s, b), b.mailId);
    }
  }

  lemma CancelKeeps(cfg: Config, s: State, b: Block)
    requires b.CancelMail? && Good(s)
    ensures Good(Apply(cfg, s, b))
  {
    var t := Apply(cfg, s, b);
    CancelIs(cfg, s, b);
    hide Apply, Next;
    if Enabled(cfg, s, CancelRead(b.mailId, b.clientId)) {
      assert Consistent(s, b.mailId);
      assert Consistent(t, b.mailId);
      OneMail(s, t, b.mailId);
    }
  }

  lemma ExecOne(cfg: Config, s: State, l: Label)
    ensures Exec(cfg, s, [l]) == Next(cfg, s, l)
  {
    hide Next;
    assert [l][..0] == [];
  }

  lemma WakeKeeps(cfg: Config, s: State, b: Block)
    requires b.Wake? && Good(s) && JobsOk(cfg, s)
    ensures Good(Apply(cfg, s, b))
  {
    var l := Fire(b.timer);
    ExecOne(cfg, s, l);
    hide Exec, Advance, Unacked, Losses, ProduceStep, CancelStep;
    var t := Next(cfg, s, l);
    if Enabled(cfg, s, l) {
      var id := s.timers[b.timer].mailId;
      assert Consistent(s, id);
      MoveTouches(cfg, s, l, id);
      hide Touches;
      assert Consistent(t, id);
      OneMail(s, t, id);
    }
  }

  lemma ForgetKeeps(cfg: Config, s: State, b: Block)
    requires b.Forget? && Good(s)
    ensures Good(Apply(cfg, s, b))
  {
    var l := Expire(b.mailId);
    ExecOne(cfg, s, l);
    var t := Next(cfg, s, l);
    assert t == s.(cache := s.cache - {b.mailId});
    hide Exec, Next;
    assert Consistent(s, b.mailId);
    assert Consistent(t, b.mailId);
    OneMail(s, t, b.mailId);
  }

  lemma LocalOrderly(s: State, t: State, w: nat, id: Uuid)
    requires Orderly(s) && w < |s.workers| && Local(s, t, w, id)
    requires t.workers[w].Busy? ==>
      t.workers[w].pc == Send && t.workers[w].unacked && t.workers[w].retryCount == t.workers[w].msg.retryCount
    ensures Orderly(t)
  {
    hide Touches;
    forall i | 0 <= i < |t.workers| && t.workers[i].Busy?
      ensures t.workers[i].pc == Send && t.workers[i].unacked && t.workers[i].retryCount == t.workers[i].msg.retryCount
    {
      if i != w {
        assert s.workers[i] in s.workers;
      }
    }
  }

  lemma FinishKeeps(cfg: Config, s: State, b: Block)
    requires b.Finish? && Good(s) && b.worker < |s.workers| && s.workers[b.worker].Busy?
    requires Owners(s, s.workers[b.worker].msg.mailId) <= 1
    ensures Good(Apply(cfg, s, b))
  {
    var w, disk := b.worker, b.disk;
    var k := s.workers[w];
    var id := k.msg.mailId;
    assert k in s.workers;
    var s1 := Next(cfg, s, Work(w, b.ok, disk));
    var t := Drive(cfg, s1, w, disk, 6);
    assert Apply(cfg, s, b) == t by {
      hide Next;
      ExecConcat(cfg, s, [Work(w, b.ok, disk)], Calls(w, disk, 6));
      ExecOne(cfg, s, Work(w, b.ok, disk));
      ExecDrive(cfg, s1, w, disk, 6);
    }
    WorkLocal(cfg, s, w, b.ok, disk, id);
    DriveLocal(cfg, s1, w, disk, 6, id);
    TouchesTransitive(s, s1, t, id);
    FinishLands(cfg, s, w, b.ok, disk);
    LocalOrderly(s, t, w, id);
    OneMail(s, t, id);
  }

  /** The mail is nowhere but possibly in the hands of this worker. */
  predicate OnlyAt(s: State, w: nat, id: Uuid)
  {
    && !Among(s.queue, id) && !Among(s.timers, id) && !Among(s.failed, id) && !Finished(s, id)
    && (forall i :: 0 <= i < |s.workers| && i != w && s.workers[i].Busy? ==> s.workers[i].msg.mailId != id)
    && id in s.rows && id in s.published
  }

  /** Handing the mail on to one place, with a row and a cache entry that fit the place. */
  lemma HandOn(s: State, t: State, w: nat, id: Uuid,
               timers: seq<MailJob>, failed: seq<MailJob>, log: seq<Event>)
    requires OnlyAt(s, w, id) && w < |s.workers|
    requires t.workers == s.workers[w := Idle] && t.queue == s.queue && t.published == s.published
    requires t.timers == s.timers + timers && t.failed == s.failed + failed && t.log == s.log + log
    requires id in t.rows
    requires forall j :: j in timers ==> AwaitsRetry(t, id, j.retryCount)
    requires forall j :: j in failed ==> Agrees(t, id, Failed, j.retryCount)
    requires forall e :: e in log ==> EndedOk(t, e)
    ensures Consistent(t, id)
  {
    assert forall e :: e in s.log && e.job.mailId == id ==> !(e.Skipped? || (e.Attempted? && e.accepted));
  }

  lemma SendingOnlyAt(s: State, w: nat)
    requires Good(s) && w < |s.workers| && s.workers[w].Busy?
    requires Owners(s, s.workers[w].msg.mailId) <= 1
    ensures OnlyAt(s, w, s.workers[w].msg.mailId)
    ensures Agrees(s, s.workers[w].msg.mailId, Processing, s.workers[w].retryCount)
    ensures s.workers[w].pc == Send
  {
    var id := s.workers[w].msg.mailId;
    assert s.workers[w] in s.workers;
    assert Consistent(s, id);
    SendingIsAlone(s, w, id);
    hide Among, Finished, Owners;
    forall i | 0 <= i < |s.workers| && i != w && s.workers[i].Busy?
      ensures s.workers[i].msg.mailId != id
    {
      assert s.workers[i] in s.workers;
    }
  }

  /** Where a delivery that ended left the mail, its row and its cache entry. */
  lemma FinishLands(cfg: Config, s: State, w: nat, ok: bool, disk: Disk)
    requires Good(s) && w < |s.workers| && s.workers[w].Busy?
    requires Owners(s, s.workers[w].msg.mailId) <= 1
    ensures
      var t := Drive(cfg, Next(cfg, s, Work(w, ok, disk)), w, disk, 6);
      |t.workers| == |s.workers| && t.workers[w].Idle? && Consistent(t, s.workers[w].msg.mailId)
  {
    SendingOnlyAt(s, w);
    var s1 := Next(cfg, s, Work(w, ok, disk));
    WorkIs(cfg, s, w, ok, disk);
    hide Next, Good, Owners;
    var backend := WorkerBackend(cfg, s.workers[w].msg.content);
    if s1.workers[w].pc == SentRow {
      SentLands(cfg, s, s1, w, disk, backend);
    } else {
      RetryLands(cfg, s, s1, w, disk, backend);
    }
  }

  lemma IdleDrive(cfg: Config, s: State, w: nat, disk: Disk, n: nat, more: nat)
    requires w < |Drive(cfg, s, w, disk, n).workers| && Drive(cfg, s, w, disk, n).workers[w].Idle?
    ensures Drive(cfg, s, w, disk, n + more) == Drive(cfg, s, w, disk, n)
    decreases n + more
  {
    if n > 0 {
      hide Next;
      IdleDrive(cfg, Next(cfg, s, Work(w, true, disk)), w, disk, n - 1, more);
    } else if more > 0 {
      WorkIs(cfg, s, w, true, disk);
      hide Next;
      IdleDrive(cfg, s, w, disk, 0, more - 1);
    }
  }

  lemma SentLands(cfg: Config, s: State, s1: State, w: nat, disk: Disk, backend: Backend)
    requires w < |s.workers| && s.workers[w].Busy?
    requires OnlyAt(s, w, s.workers[w].msg.mailId)
    requires Agrees(s, s.workers[w].msg.mailId, Processing, s.workers[w].retryCount)
    requires s1 == s.(workers := s.workers[w := s.workers[w].(pc := SentRow)],
                      log := s.log + [Attempted(s.workers[w].Job(), backend, true)])
    ensures
      var t := Drive(cfg, s1, w, disk, 6);
      t.workers == s.workers[w := Idle] && Consistent(t, s.workers[w].msg.mailId)
  {
    hide Next, OnlyAt, Consistent;
    var k := s.workers[w];
    DriveSent(cfg, s1, w, disk);
    IdleDrive(cfg, s1, w, disk, 4, 2);
    var t := Drive(cfg, s1, w, disk, 6);
    assert t.timers == s.timers + [] && t.failed == s.failed + [];
    HandOn(s, t, w, k.msg.mailId, [], [], [Attempted(k.Job(), backend, true)]);
  }

  lemma RetryLands(cfg: Config, s: State, s1: State, w: nat, disk: Disk, backend: Backend)
    requires w < |s.workers| && s.workers[w].Busy? && s.channelOpen
    requires OnlyAt(s, w, s.workers[w].msg.mailId)
    requires Agrees(s, s.workers[w].msg.mailId, Processing, s.workers[w].retryCount)
    requires s1 == s.(workers := s.workers[w := s.workers[w].(pc := CountRetry)],
                      log := s.log + [Attempted(s.workers[w].Job(), backend, false)])
    ensures
      var t := Drive(cfg, s1, w, disk, 6);
      t.workers == s.workers[w := Idle] && Consistent(t, s.workers[w].msg.mailId)
  {
    hide Next, OnlyAt, Consistent;
    var id := s.workers[w].msg.mailId;
    var s2 := Next(cfg, s1, Work(w, true, disk));
    WorkIs(cfg, s1, w, true, disk);
    var k := s2.workers[w];
    var failure := Attempted(s.workers[w].Job(), backend, false);
    hide Advance, Commit;
    var t := Drive(cfg, s2, w, disk, 5);
    if k.pc == FailPublish {
      DriveFailed(cfg, s2, w, disk);
      assert t.timers == s.timers + [];
      HandOn(s, t, w, id, [], [k.Job()], [failure]);
    } else {
      DriveRetry(cfg, s2, w, disk);
      assert t.failed == s.failed + [];
      var scheduled := Scheduled(k.Job(), Delay(k.retryCount));
      assert t.log == s.log + [failure, scheduled];
      HandOn(s, t, w, id, [k.Job()], [], [failure, scheduled]);
    }
  }

  // ---- Starting a delivery

  /** The mail in the worker's hands, with a row and a cache entry that say so. */
  lemma TakeUp(s: State, t: State, w: nat, k: Worker)
    requires k.Busy? && OnlyAt(s, w, k.msg.mailId) && w < |s.workers|
    requires t.workers == s.workers[w := k] && t.queue == s.queue && t.published == s.published
    requires t.timers == s.timers && t.failed == s.failed && t.log == s.log
    requires Agrees(t, k.msg.mailId, Processing, k.retryCount)
    ensures Consistent(t, k.msg.mailId)
  {
    var id := k.msg.mailId;
    assert forall e :: e in s.log && e.job.mailId == id ==> !(e.Skipped? || (e.Attempted? && e.accepted));
  }

  lemma DeliveredOnlyAt(s: State, s1: State, w: nat, i: nat)
    requires Good(s) && w < |s.workers| && i < |s.queue| && Owners(s, s.queue[i].mailId) == 1
    requires s.queue[i].mailId in s.published
    requires s1 == s.(queue := s.queue[..i] + s.queue[i + 1..],
                      workers := s.workers[w := Busy(TestShutdown, s.queue[i], s.queue[i].retryCount, true)])
    ensures OnlyAt(s1, w, s.queue[i].mailId) && QueuedOk(s, s.queue[i])
  {
    var id := s.queue[i].mailId;
    QueuedIsAlone(s, i, id);
    assert s.queue[i] in s.queue;
    assert Consistent(s, id);
    hide Among, Owners;
    forall x | 0 <= x < |s.workers| && x != w && s1.workers[x].Busy?
      ensures s1.workers[x].msg.mailId != id
    {
      assert s.workers[x] in s.workers;
    }
  }

  lemma StartLands(cfg: Config, s: State, s1: State, w: nat, i: nat)
    requires Good(s) && w < |s.workers| && i < |s.queue|
    requires s1 == s.(queue := s.queue[..i] + s.queue[i + 1..],
                      workers := s.workers[w := Busy(TestShutdown, s.queue[i], s.queue[i].retryCount, true)])
    requires OnlyAt(s1, w, s.queue[i].mailId) && QueuedOk(s, s.queue[i])
    ensures
      var t := Drive(cfg, s1, w, map[], 5);
      && Consistent(t, s.queue[i].mailId)
      && |t.workers| == |s.workers|
      && (t.workers[w].Busy? ==> t.workers[w] == Busy(Send, s.queue[i], s.queue[i].retryCount, true))
  {
    hide Next, Consistent;
    var j := s.queue[i];
    var k := s1.workers[w];
    var t := Drive(cfg, s1, w, map[], 5);
    DriveStart(cfg, s1, w, map[]);
    hide OnlyAt;
    if s1.rows[j.mailId].status == Cancelled {
      assert t.timers == s1.timers + [] && t.failed == s1.failed + [];
      HandOn(s1, t, w, j.mailId, [], [], [Skipped(k.Job())]);
    } else {
      TakeUp(s1, t, w, k.(pc := Send));
    }
  }

  lemma StartDrives(cfg: Config, s: State, b: Block)
    requires b.Start? && Enabled(cfg, s, Deliver(b.worker, b.index))
    ensures Apply(cfg, s, b) == Drive(cfg, Next(cfg, s, Deliver(b.worker, b.index)), b.worker, map[], 5)
  {
    hide Next;
    var l := Deliver(b.worker, b.index);
    ExecConcat(cfg, s, [l], Calls(b.worker, map[], 5));
    ExecOne(cfg, s, l);
    ExecDrive(cfg, Next(cfg, s, l), b.worker, map[], 5);
  }

  lemma StartKeeps(cfg: Config, s: State, b: Block)
    requires b.Start? && Good(s) && Enabled(cfg, s, Deliver(b.worker, b.index))
    requires s.queue[b.index].mailId in s.published && Owners(s, s.queue[b.index].mailId) == 1
    ensures Good(Apply(cfg, s, b))
  {
    var w, i := b.worker, b.index;
    var id := s.queue[i].mailId;
    var s1 := Next(cfg, s, Deliver(w, i));
    var t := Drive(cfg, s1, w, map[], 5);
    StartDrives(cfg, s, b);
    hide Apply, Exec, Drive, Consistent, Owners, Calls;
    MoveTouches(cfg, s, Deliver(w, i), id);
    DeliverIs(cfg, s, w, i);
    hide Next, Owners;
    DriveLocal(cfg, s1, w, map[], 5, id);
    TouchesTransitive(s, s1, t, id);
    DeliveredOnlyAt(s, s1, w, i);
    StartLands(cfg, s, s1, w, i);
    hide Touches;
    assert Local(s, t, w, id);
    LocalOrderly(s, t, w, id);
    OneMail(s, t, id);
  }

  // ---- Whole runs of blocks

  function FineRun(cfg: Config, concurrency: nat, blocks: seq<Block>): seq<Label>
  {
    if blocks == [] then []
    else
      var before := FineRun(cfg, concurrency, blocks[..|blocks| - 1]);
      before + Labels(cfg, After(cfg, concurrency, before), blocks[|blocks| - 1])
  }

  /** The state after a sequence of blocks. */
  function Coarse(cfg: Config, concurrency: nat, blocks: seq<Block>): State
  {
    After(cfg, concurrency, FineRun(cfg, concurrency, blocks))
  }

  lemma {:induction false} FineRunCalm(cfg: Config, concurrency: nat, blocks: seq<Block>)
    ensures Calm(FineRun(cfg, concurrency, blocks))
  {
    hide Exec, Enabled;
    if blocks != [] {
      FineRunCalm(cfg, concurrency, blocks[..|blocks| - 1]);
    }
  }

  lemma CoarseStep(cfg: Config, concurrency: nat, blocks: seq<Block>)
    requires blocks != []
    ensures
      Coarse(cfg, concurrency, blocks) ==
      Apply(cfg, Coarse(cfg, concurrency, blocks[..|blocks| - 1]), blocks[|blocks| - 1])
  {
    hide Exec, Labels;
    var before := FineRun(cfg, concurrency, blocks[..|blocks| - 1]);
    ExecConcat(cfg, Init(concurrency), before,
      Labels(cfg, After(cfg, concurrency, before), blocks[|blocks| - 1]));
  }

  lemma BlockKeeps(cfg: Config, s: State, b: Block)
    requires Good(s) && JobsOk(cfg, s) && Provenance(s)
    requires forall id: Uuid :: Conserved(s, id)
    ensures Good(Apply(cfg, s, b))
  {
    match b
    case Submit(_, _, _, _) =>
      SubmitKeeps(cfg, s, b);
    case CancelMail(_, _) =>
      CancelKeeps(cfg, s, b);
    case Start(w, i) =>
      if Enabled(cfg, s, Deliver(w, i)) {
        assert s.queue[i] in s.queue;
        assert Conserved(s, s.queue[i].mailId);
        StartKeeps(cfg, s, b);
      }
    case Finish(w, ok, disk) =>
      if Enabled(cfg, s, Work(w, ok, disk)) {
        assert Conserved(s, s.workers[w].msg.mailId);
        FinishKeeps(cfg, s, b);
      }
    case Wake(_) =>
      WakeKeeps(cfg, s, b);
    case Forget(_) =>
      ForgetKeeps(cfg, s, b);
  }

  lemma {:induction false} AlwaysGood(cfg: Config, concurrency: nat, blocks: seq<Block>)
    ensures Good(Coarse(cfg, concurrency, blocks))
  {
    if blocks == [] {
      assert Coarse(cfg, concurrency, blocks) == Init(concurrency);
    } else {
      var before := blocks[..|blocks| - 1];
      var run := FineRun(cfg, concurrency, before);
      var s := Coarse(cfg, concurrency, before);
      AlwaysGood(cfg, concurrency, before);
      FineRunCalm(cfg, concurrency, before);
      JobIntegrity(cfg, concurrency, run);
      Invariants(cfg, concurrency, run);
      hide Good, JobsOk, Provenance, Owners, FineRun, After;
      forall id: Uuid
        ensures Conserved(s, id)
      {
        Conservation(cfg, concurrency, run, id);
      }
      BlockKeeps(cfg, s, blocks[|blocks| - 1]);
      CoarseStep(cfg, concurrency, blocks);
    }
  }
}
