/**
 When the status a client reads is wrong. Over all interleavings of producers, cancellers, workers,
 timers and cache expiry in which no write about the mail is lost, who wrote the row's status last
 and who wrote the cache last decide whether the two agree about a mail at rest.
 */
module StaleCache {
  import opened Models
  import opened Sums
  import opened Lifecycle
  import opened Ledgers
  import opened Tokens
  import opened Integrity
  import opened Survival
  import opened StatusReports

  // ---- Who wrote last

  datatype Writer = NoOne | TheProducer | AWorker | ACanceller

  /** The last writer of the status in the row, after its insertion, and of the cache entry, if there
      is one. */
  datatype History = History(row: Writer, cache: Writer)

  predicate IsCacheWrite(pc: Pc)
  {
    pc in {MarkCache, SentCache, FailCache, RetryCache}
  }

  predicate IsStatusWrite(pc: Pc)
  {
    pc in {MarkRow, SentRow, FailRow}
  }

  predicate IsWrite(pc: Pc)
  {
    IsCacheWrite(pc) || IsStatusWrite(pc) || pc == RetryRow
  }

  /** The step is a call by a worker that has this mail in hand. */
  predicate WorksOn(s: State, l: Label, id: Uuid)
  {
    l.Work? && l.worker < |s.workers| && s.workers[l.worker].Busy? && s.workers[l.worker].msg.mailId == id
  }

  predicate Produces(s: State, l: Label, id: Uuid)
  {
    l.Produce? && l.producer < |s.producers| && s.producers[l.producer].mailId == id
    && s.producers[l.producer].pc == ToCache
  }

  predicate Cancels(s: State, l: Label, id: Uuid)
  {
    l.Cancelling? && l.canceller < |s.cancellers| && s.cancellers[l.canceller].mailId == id
    && s.cancellers[l.canceller].pc != CancelDone
  }

  function Noted(h: History, s: State, l: Label, id: Uuid): History
  {
    if WorksOn(s, l, id) then NotedWork(h, s.workers[l.worker].pc)
    else if Produces(s, l, id) then h.(cache := TheProducer)
    else if Cancels(s, l, id) then
      if s.cancellers[l.canceller].pc == ToCancelRow then h.(row := ACanceller) else h.(cache := ACanceller)
    else if l == Expire(id) && id in s.cache then h.(cache := NoOne)
    else h
  }

  function NotedWork(h: History, pc: Pc): History
  {
    if IsCacheWrite(pc) then h.(cache := AWorker) else if IsStatusWrite(pc) then h.(row := AWorker) else h
  }

  function HistoryOf(cfg: Config, concurrency: nat, run: seq<Label>, id: Uuid): History
  {
    if run == [] then History(NoOne, NoOne)
    else
      var before := run[..|run| - 1];
      Noted(HistoryOf(cfg, concurrency, before, id), After(cfg, concurrency, before), run[|run| - 1], id)
  }

  // ---- Runs in which no write is lost

  /** No failure of the system, and no lost write about the mail. Sending it, publishing it and
      reading its row may fail, its cache entry may expire, and it may be cancelled at any time. */
  predicate Smooth(s: State, l: Label, id: Uuid)
  {
    match l
    case Crash | CloseChannel => false
    case Work(w, ok, _) => (WorksOn(s, l, id) && IsWrite(s.workers[w].pc)) ==> ok
    case Produce(_, ok) => Produces(s, l, id) ==> ok
    case Cancelling(_, ok) => Cancels(s, l, id) ==> ok
    case _ => true
  }

  predicate SmoothRun(cfg: Config, concurrency: nat, run: seq<Label>, id: Uuid)
  {
    forall i :: 0 <= i < |run| ==> Smooth(After(cfg, concurrency, run[..i]), run[i], id)
  }

  // ---- Turns: a mail is dealt with by one party at a time

  /** From taking the mail up to the last write about it, or until its timer is started. */
  predicate HasTurn(k: Worker, id: Uuid)
  {
    k.Busy? && k.msg.mailId == id && k.pc != Ack && k.pc != Leave
  }

  function TurnIs(id: Uuid): Worker -> int
  {
    (k: Worker) => if HasTurn(k, id) then 1 else 0
  }

  function TurnLedger(id: Uuid): Ledger
  {
    Ledger(JobIs(id), JobIs(id), Zero(), TurnIs(id), Zero())
  }

  function Turns(s: State, id: Uuid): int
  {
    Balance(s, TurnLedger(id))
  }

  /** The worker's step is the last one about its mail. */
  predicate Ends(k: Worker, e: Effect)
    requires k.Busy?
  {
    k.pc in {SentCache, FailCache} || (k.pc == CheckCancelled && e.worker.Busy? && e.worker.pc == Ack)
  }

  lemma WorkTurns(cfg: Config, s: State, k: Worker, ok: bool, disk: Disk, id: Uuid)
    requires k.Busy? && (k.unacked <==> k.pc != Leave)
    ensures
      var e := Advance(cfg, s, k, ok, disk);
      Worth(e, TurnLedger(id)) == TurnIs(id)(k) - if k.msg.mailId == id && Ends(k, e) then 1 else 0
  {
    var e := Advance(cfg, s, k, ok, disk);
    SumZero(e.toFailed, Zero());
    SumZero(e.toLog, Zero());
    SumEmpty(JobIs(id));
    SumOne(k.msg, JobIs(id));
    SumOne(k.Job(), JobIs(id));
    hide Sum, Advance, SetStatus, SetRowStatus, SetRowCount, Loadable;
    WorkMoves(cfg, s, k, ok, disk);
  }

  /** Where a worker step leaves the job: with the worker, in the queue, in a timer, or nowhere. */
  lemma WorkMoves(cfg: Config, s: State, k: Worker, ok: bool, disk: Disk)
    requires k.Busy? && (k.unacked <==> k.pc != Leave)
    ensures
      var e := Advance(cfg, s, k, ok, disk);
      var turn := e.worker.Busy? && e.worker.pc != Ack && e.worker.pc != Leave;
      && (e.worker.Busy? ==> e.worker.msg == k.msg)
      && e.toQueue == (if k.pc == TestShutdown && s.isShutdown then [k.msg] else [])
      && e.toTimers == (if k.pc == SpawnTimer then [k.Job()] else [])
      && (turn <==> k.pc !in {SpawnTimer, Ack, Leave} && !(k.pc == TestShutdown && s.isShutdown) && !Ends(k, e))
  {
    hide SetStatus, SetRowStatus, SetRowCount, Loadable;
  }

  lemma TurnsStep(cfg: Config, s: State, l: Label, id: Uuid)
    requires Held(s) && s.channelOpen && !l.Crash? && !l.CloseChannel?
    ensures
      var ends := l.Work? && Enabled(cfg, s, l) && s.workers[l.worker].msg.mailId == id
                  && Ends(s.workers[l.worker], Advance(cfg, s, s.workers[l.worker], l.ok, l.disk));
      Turns(Next(cfg, s, l), id) ==
      Turns(s, id) + (if Publishes(s, l, id) then 1 else 0) - if ends then 1 else 0
  {
    if Enabled(cfg, s, l) {
      if l.Work? {
        assert s.workers[l.worker] in s.workers;
        WorkTurns(cfg, s, s.workers[l.worker], l.ok, l.disk, id);
      }
      hide Advance, Next, Worth, Balance, Held, Ends;
      NextBalance(cfg, s, l, TurnLedger(id));
    } else {
      Disabled(cfg, s, l);
    }
  }

  lemma TurnsNonNegative(s: State, id: Uuid)
    ensures Turns(s, id) >= 0
  {
    SumNonNegative(s.queue, JobIs(id));
    SumNonNegative(s.timers, JobIs(id));
    SumNonNegative(s.workers, TurnIs(id));
    SumZero(s.failed, Zero());
    SumZero(s.log, Zero());
  }

  /** A worker whose turn it is leaves no turn to anyone else. */
  lemma TurnIsAlone(s: State, w: nat, id: Uuid)
    requires Turns(s, id) <= 1 && w < |s.workers| && HasTurn(s.workers[w], id)
    ensures !Among(s.queue, id) && !Among(s.timers, id) && Turns(s, id) == 1
    ensures forall i :: 0 <= i < |s.workers| && i != w ==> !HasTurn(s.workers[i], id)
  {
    hide Sum, Among;
    AmongCount(s.queue, id);
    AmongCount(s.timers, id);
    SumZero(s.failed, Zero());
    SumZero(s.log, Zero());
    SumAtLeast(s.workers, w, TurnIs(id));
    forall i | 0 <= i < |s.workers| && i != w
      ensures !HasTurn(s.workers[i], id)
    {
      if i < w {
        SumAtLeastTwo(s.workers, i, w, TurnIs(id));
      } else {
        SumAtLeastTwo(s.workers, w, i, TurnIs(id));
      }
    }
  }

  lemma TurnPlaces(s: State, id: Uuid)
    requires forall k :: k in s.workers ==> !HasTurn(k, id)
    ensures Turns(s, id) == 0 <==> !Among(s.queue, id) && !Among(s.timers, id)
  {
    hide Sum, Among;
    AmongCount(s.queue, id);
    AmongCount(s.timers, id);
    SumZero(s.failed, Zero());
    SumZero(s.log, Zero());
    SumZero(s.workers, TurnIs(id));
  }

  // ---- The account of one mail: its row, its cache entry, and who wrote them

  datatype Account = Account(row: Row, entry: Option<CacheEntry>, history: History)

  function AccountOf(s: State, h: History, id: Uuid): Account
    requires id in s.rows
  {
    Account(s.rows[id], if id in s.cache then Some(s.cache[id]) else None, h)
  }

  /** What is known from the writers alone. */
  predicate Sound(a: Account)
  {
    && match a.history.row {
         case NoOne => a.row.status == Queued && a.row.retryCount == 0
         case AWorker => a.row.status in {Processing, MailStatus.Sent, MailStatus.Failed}
         case ACanceller => a.row.status == Cancelled
         case TheProducer => false
       }
    && match a.history.cache {
         case NoOne => a.entry.None?
         case TheProducer => a.entry == Some(CacheEntry(Queued, 0))
         case AWorker => a.entry.Some? && a.entry.value.status != Cancelled
         case ACanceller => a.entry == Some(CacheEntry(Cancelled, 0)) && a.history.row != NoOne
       }
  }

  /** If a worker wrote the status of the row last, this is what it wrote; the count is from workers
      in any case. */
  predicate Is(a: Account, status: MailStatus, count: int)
  {
    a.history.row != NoOne && (a.history.row == AWorker ==> a.row.status == status) && a.row.retryCount == count
  }

  /** No worker has written anything about the mail. */
  predicate Fresh(a: Account)
  {
    a.history.row != AWorker && a.history.cache != AWorker && a.row.retryCount == 0
  }

  /** If a worker wrote the cache last, this is what it wrote. */
  predicate Told(a: Account, status: MailStatus, count: int)
  {
    a.history.cache == AWorker ==> a.entry == Some(CacheEntry(status, count))
  }

  /** In the queue, in a timer, or just taken up. */
  predicate Waiting(a: Account, count: int)
  {
    if count == 0 then Fresh(a) else Is(a, Processing, count) && Told(a, Queued, count)
  }

  predicate InHand(a: Account, k: Worker)
    requires k.Busy?
  {
    var c := k.retryCount;
    match k.pc
    case TestShutdown | EnterSection | CheckCancelled | MarkCache | SpawnTimer => Waiting(a, c)
    case MarkRow => Told(a, Processing, c) && (Is(a, Processing, c) || (c == 0 && Fresh(a.(history := a.history.(cache := NoOne)))))
    case Send | SentRow | CountRetry => Told(a, Processing, c) && Is(a, Processing, c)
    case FailPublish | FailRow | RetryRow => Is(a, Processing, c - 1)
    case RetryCache => Is(a, Processing, c)
    case SentCache => Is(a, MailStatus.Sent, c)
    case FailCache => Is(a, MailStatus.Failed, c)
    case Ack | Leave => true
  }

  /** Nobody has anything left to do with the mail: it was skipped, or its end was written last. */
  predicate Done(a: Account)
  {
    && a.history.row != NoOne
    && (a.history.row == AWorker ==>
          (a.row.status == MailStatus.Sent || a.row.status == MailStatus.Failed)
          && Told(a, a.row.status, a.row.retryCount))
  }

  predicate Claims(s: State, a: Account, id: Uuid)
  {
    && (forall j :: j in s.queue && j.mailId == id ==> Waiting(a, j.retryCount))
    && (forall j :: j in s.timers && j.mailId == id ==> Waiting(a, j.retryCount))
    && (forall k :: k in s.workers && k.Busy? && k.msg.mailId == id ==> InHand(a, k))
  }

  /** The handlers that deal with the mail: a producer that may still publish finds a fresh row, and a
      canceller that is about to write the cache has written the row. */
  predicate Handlers(s: State, h: History, id: Uuid)
  {
    && (forall p :: p in s.producers && p.mailId == id ==>
          if id in s.published then p.pc == ToCache || p.pc == Submitted
          else
            p.pc != ToCache
            && (p.pc == ToPublish ==> id in s.rows && Sound(AccountOf(s, h, id)) && Fresh(AccountOf(s, h, id))))
    && (forall c :: c in s.cancellers && c.mailId == id ==> id in s.rows && (c.pc == ToCancelCache ==> h.row != NoOne))
  }

  predicate Books(s: State, h: History, id: Uuid)
  {
    && Handlers(s, h, id)
    && (id !in s.rows ==> h == History(NoOne, NoOne) && id !in s.cache)
    && (id in s.published ==>
          && id in s.rows
          && var a := AccountOf(s, h, id);
             Sound(a) && Claims(s, a, id) && (Turns(s, id) == 0 ==> Done(a)))
  }

  // ---- One step

  /** A step of the worker whose turn it is carries the account on. */
  lemma AdvanceAccount(cfg: Config, s: State, h: History, k: Worker, ok: bool, disk: Disk)
    requires k.Busy? && k.pc != Ack && k.pc != Leave && WorkerOk(cfg, s.published, k)
    requires k.msg.mailId in s.rows
    requires var a := AccountOf(s, h, k.msg.mailId); Sound(a) && InHand(a, k)
    requires IsWrite(k.pc) ==> ok
    ensures
      var e := Advance(cfg, s, k, ok, disk);
      var t := s.(rows := e.rows, cache := e.cache);
      && k.msg.mailId in t.rows
      && var a := AccountOf(t, NotedWork(h, k.pc), k.msg.mailId);
         && Sound(a)
         && (e.worker.Busy? ==> InHand(a, e.worker))
         && (forall j :: j in e.toQueue + e.toTimers ==> Waiting(a, j.retryCount))
         && (Ends(k, e) ==> Done(a))
  {
    hide Advance, Sound, InHand, Waiting, Done, Ends, WorkerOk;
    if Loud(k.pc) {
      LoudAccount(cfg, s, h, k, ok, disk);
    } else {
      QuietAccount(cfg, s, h, k, ok, disk);
    }
  }

  lemma QuietAccount(cfg: Config, s: State, h: History, k: Worker, ok: bool, disk: Disk)
    requires k.Busy? && k.pc != Ack && k.pc != Leave && !Loud(k.pc) && WorkerOk(cfg, s.published, k)
    requires k.msg.mailId in s.rows
    requires var a := AccountOf(s, h, k.msg.mailId); Sound(a) && InHand(a, k)
    requires IsWrite(k.pc) ==> ok
    ensures
      var e := Advance(cfg, s, k, ok, disk);
      var t := s.(rows := e.rows, cache := e.cache);
      && k.msg.mailId in t.rows
      && var a := AccountOf(t, NotedWork(h, k.pc), k.msg.mailId);
         && Sound(a)
         && (e.worker.Busy? ==> InHand(a, e.worker))
         && (forall j :: j in e.toQueue + e.toTimers ==> Waiting(a, j.retryCount))
         && (Ends(k, e) ==> Done(a))
  {
    hide Advance, Sound, InHand, Waiting, Done, Ends, WorkerOk;
    if IsWrite(k.pc) {
      WriteAccount(cfg, s, h, k, ok, disk);
    } else {
      PassAccount(cfg, s, h, k, ok, disk);
    }
  }

  lemma WriteAccount(cfg: Config, s: State, h: History, k: Worker, ok: bool, disk: Disk)
    requires k.Busy? && k.pc != Ack && k.pc != Leave && IsWrite(k.pc) && WorkerOk(cfg, s.published, k)
    requires k.msg.mailId in s.rows
    requires var a := AccountOf(s, h, k.msg.mailId); Sound(a) && InHand(a, k)
    requires IsWrite(k.pc) ==> ok
    ensures
      var e := Advance(cfg, s, k, ok, disk);
      var t := s.(rows := e.rows, cache := e.cache);
      && k.msg.mailId in t.rows
      && var a := AccountOf(t, NotedWork(h, k.pc), k.msg.mailId);
         && Sound(a)
         && (e.worker.Busy? ==> InHand(a, e.worker))
         && (forall j :: j in e.toQueue + e.toTimers ==> Waiting(a, j.retryCount))
         && (Ends(k, e) ==> Done(a))
  {
    hide Advance, Sound, InHand, Waiting, Done, Ends, WorkerOk;
    if IsCacheWrite(k.pc) {
      CacheAccount(cfg, s, h, k, ok, disk);
    } else {
      RowAccount(cfg, s, h, k, ok, disk);
    }
  }

  lemma CacheAccount(cfg: Config, s: State, h: History, k: Worker, ok: bool, disk: Disk)
    requires k.Busy? && k.pc != Ack && k.pc != Leave && IsCacheWrite(k.pc) && WorkerOk(cfg, s.published, k)
    requires k.msg.mailId in s.rows
    requires var a := AccountOf(s, h, k.msg.mailId); Sound(a) && InHand(a, k)
    requires IsWrite(k.pc) ==> ok
    ensures
      var e := Advance(cfg, s, k, ok, disk);
      var t := s.(rows := e.rows, cache := e.cache);
      && k.msg.mailId in t.rows
      && var a := AccountOf(t, NotedWork(h, k.pc), k.msg.mailId);
         && Sound(a)
         && (e.worker.Busy? ==> InHand(a, e.worker))
         && (forall j :: j in e.toQueue + e.toTimers ==> Waiting(a, j.retryCount))
         && (Ends(k, e) ==> Done(a))
  {
    AdvanceQuiet(cfg, s, k, ok, disk);
    hide Loadable, JobOk;
  }

  lemma RowAccount(cfg: Config, s: State, h: History, k: Worker, ok: bool, disk: Disk)
    requires k.Busy? && k.pc != Ack && k.pc != Leave && IsWrite(k.pc) && !IsCacheWrite(k.pc) && WorkerOk(cfg, s.published, k)
    requires k.msg.mailId in s.rows
    requires var a := AccountOf(s, h, k.msg.mailId); Sound(a) && InHand(a, k)
    requires IsWrite(k.pc) ==> ok
    ensures
      var e := Advance(cfg, s, k, ok, disk);
      var t := s.(rows := e.rows, cache := e.cache);
      && k.msg.mailId in t.rows
      && var a := AccountOf(t, NotedWork(h, k.pc), k.msg.mailId);
         && Sound(a)
         && (e.worker.Busy? ==> InHand(a, e.worker))
         && (forall j :: j in e.toQueue + e.toTimers ==> Waiting(a, j.retryCount))
         && (Ends(k, e) ==> Done(a))
  {
    AdvanceQuiet(cfg, s, k, ok, disk);
    hide Loadable, JobOk;
  }

  lemma PassAccount(cfg: Config, s: State, h: History, k: Worker, ok: bool, disk: Disk)
    requires k.Busy? && k.pc != Ack && k.pc != Leave && !Loud(k.pc) && !IsWrite(k.pc) && WorkerOk(cfg, s.published, k)
    requires k.msg.mailId in s.rows
    requires var a := AccountOf(s, h, k.msg.mailId); Sound(a) && InHand(a, k)
    requires IsWrite(k.pc) ==> ok
    ensures
      var e := Advance(cfg, s, k, ok, disk);
      var t := s.(rows := e.rows, cache := e.cache);
      && k.msg.mailId in t.rows
      && var a := AccountOf(t, NotedWork(h, k.pc), k.msg.mailId);
         && Sound(a)
         && (e.worker.Busy? ==> InHand(a, e.worker))
         && (forall j :: j in e.toQueue + e.toTimers ==> Waiting(a, j.retryCount))
         && (Ends(k, e) ==> Done(a))
  {
    AdvanceQuiet(cfg, s, k, ok, disk);
    hide Loadable;
  }

  lemma LoudAccount(cfg: Config, s: State, h: History, k: Worker, ok: bool, disk: Disk)
    requires k.Busy? && k.pc != Ack && k.pc != Leave && Loud(k.pc) && WorkerOk(cfg, s.published, k)
    requires k.msg.mailId in s.rows
    requires var a := AccountOf(s, h, k.msg.mailId); Sound(a) && InHand(a, k)
    requires IsWrite(k.pc) ==> ok
    ensures
      var e := Advance(cfg, s, k, ok, disk);
      var t := s.(rows := e.rows, cache := e.cache);
      && k.msg.mailId in t.rows
      && var a := AccountOf(t, NotedWork(h, k.pc), k.msg.mailId);
         && Sound(a)
         && (e.worker.Busy? ==> InHand(a, e.worker))
         && (forall j :: j in e.toQueue + e.toTimers ==> Waiting(a, j.retryCount))
         && (Ends(k, e) ==> Done(a))
  {
    hide Loadable, SetStatus, SetRowStatus, SetRowCount;
  }

  /** The step leaves the account of this mail alone, and at most moves its job without touching it. */
  ghost predicate Leaves(s: State, t: State, id: Uuid)
  {
    && (id in t.rows <==> id in s.rows) && (id in s.rows ==> t.rows[id] == s.rows[id])
    && (id in t.cache <==> id in s.cache) && (id in s.cache ==> t.cache[id] == s.cache[id])
    && (id in t.published <==> id in s.published)
    && Turns(t, id) == Turns(s, id)
    && (forall j :: j in t.queue && j.mailId == id ==> j in s.queue || j in s.timers)
    && (forall j :: j in t.timers && j.mailId == id ==> j in s.timers)
    && (forall k :: k in t.workers && k.Busy? && k.msg.mailId == id ==>
          k in s.workers || k.pc == Ack || k.pc == Leave
          || (k.pc == TestShutdown && k.msg in s.queue && k.retryCount == k.msg.retryCount))
    && (forall p :: p in t.producers && p.mailId == id ==> p in s.producers)
    && (forall c :: c in t.cancellers && c.mailId == id ==> c in s.cancellers || (c.pc == ToCancelRow && id in s.rows))
  }

  lemma BooksKept(s: State, t: State, h: History, id: Uuid)
    requires Books(s, h, id) && Leaves(s, t, id)
    ensures Books(t, h, id)
  {
    hide Turns;
  }

  lemma LeavesWork(cfg: Config, s: State, l: Label, id: Uuid)
    requires Held(s) && s.channelOpen && l.Work? && Enabled(cfg, s, l)
    requires !HasTurn(s.workers[l.worker], id)
    ensures Leaves(s, Next(cfg, s, l), id)
  {
    hide Leaves, Next, Held;
    if s.workers[l.worker].msg.mailId == id {
      LeavesOwnWork(cfg, s, l, id);
    } else {
      LeavesOtherWork(cfg, s, l, id);
    }
  }

  lemma LeavesOtherWork(cfg: Config, s: State, l: Label, id: Uuid)
    requires Held(s) && s.channelOpen && l.Work? && Enabled(cfg, s, l)
    requires s.workers[l.worker].msg.mailId != id
    ensures Leaves(s, Next(cfg, s, l), id)
  {
    var k := s.workers[l.worker];
    var e := Advance(cfg, s, k, l.ok, l.disk);
    TurnsStep(cfg, s, l, id);
    StatusCache.WorkTouches(cfg, s, l.worker, l.ok, l.disk, k.msg.mailId);
    StatusCache.CacheOfOthers(cfg, s, k, l.ok, l.disk);
    WorkIs(cfg, s, l.worker, l.ok, l.disk);
    hide Next, Turns, Held, Advance, Ends, StatusCache.Touches, Leaves;
    TouchesLeaves(s, Commit(s, l.worker, e), k.msg.mailId, id);
  }

  lemma TouchesLeaves(s: State, t: State, other: Uuid, id: Uuid)
    requires StatusCache.Touches(s, t, other) && other != id
    requires t.producers == s.producers && t.cancellers == s.cancellers && Turns(t, id) == Turns(s, id)
    requires id in s.cache ==> id in t.cache
    ensures Leaves(s, t, id)
  {
    hide Turns;
  }

  lemma LeavesOwnWork(cfg: Config, s: State, l: Label, id: Uuid)
    requires Held(s) && s.channelOpen && l.Work? && Enabled(cfg, s, l)
    requires s.workers[l.worker].msg.mailId == id && !HasTurn(s.workers[l.worker], id)
    ensures Leaves(s, Next(cfg, s, l), id)
  {
    TurnsStep(cfg, s, l, id);
    AdvanceEnds(cfg, s, s.workers[l.worker], l.ok, l.disk);
    WorkIs(cfg, s, l.worker, l.ok, l.disk);
    hide Next, Turns, Held, Advance;
  }

  /** Acknowledging and leaving concern nobody else. */
  lemma AdvanceEnds(cfg: Config, s: State, k: Worker, ok: bool, disk: Disk)
    requires k.Busy? && (k.pc == Ack || k.pc == Leave)
    ensures
      var e := Advance(cfg, s, k, ok, disk);
      && e.rows == s.rows && e.cache == s.cache && (e.worker.Busy? ==> e.worker.pc == Leave)
      && e.toQueue == [] && e.toTimers == [] && e.toFailed == [] && e.toLog == []
  {
  }

  /** Deliveries, timers, and whatever concerns other mails. */
  lemma LeavesOther(cfg: Config, s: State, l: Label, id: Uuid)
    requires Held(s) && s.channelOpen && Smooth(s, l, id) && !Cancels(s, l, id) && l != Expire(id)
    requires !l.Work? && !l.Create? && !l.Produce?
    ensures Leaves(s, Next(cfg, s, l), id)
  {
    match l
    case Deliver(w, i) =>
      LeavesDeliver(cfg, s, w, i, id);
      hide *;
    case Fire(t) =>
      LeavesFire(cfg, s, t, id);
      hide *;
    case _ =>
      LeavesRecords(cfg, s, l, id);
      hide *;
  }

  lemma LeavesDeliver(cfg: Config, s: State, w: nat, i: nat, id: Uuid)
    requires Held(s) && s.channelOpen
    ensures Leaves(s, Next(cfg, s, Deliver(w, i)), id)
  {
    TurnsStep(cfg, s, Deliver(w, i), id);
    DeliverIs(cfg, s, w, i);
    hide Next, Turns, Held;
  }

  lemma LeavesFire(cfg: Config, s: State, t: nat, id: Uuid)
    requires Held(s) && s.channelOpen
    ensures Leaves(s, Next(cfg, s, Fire(t)), id)
  {
    TurnsStep(cfg, s, Fire(t), id);
    if t < |s.timers| {
      FireIs(cfg, s, t);
      hide Next, Turns, Held, Leaves;
      FireLeaves(s, t, id);
    } else {
      Disabled(cfg, s, Fire(t));
      hide Next, Turns, Held;
    }
  }

  lemma FireLeaves(s: State, t: nat, id: Uuid)
    requires t < |s.timers|
    requires
      var u := s.(timers := s.timers[..t] + s.timers[t + 1..], queue := s.queue + [s.timers[t]]);
      Turns(u, id) == Turns(s, id)
    ensures Leaves(s, s.(timers := s.timers[..t] + s.timers[t + 1..], queue := s.queue + [s.timers[t]]), id)
  {
    hide Turns;
  }

  lemma LeavesRecords(cfg: Config, s: State, l: Label, id: Uuid)
    requires Held(s) && s.channelOpen && !Cancels(s, l, id) && l != Expire(id)
    requires l.CancelRead? || l.Cancelling? || l.Expire? || l.Shutdown?
    ensures Leaves(s, Next(cfg, s, l), id)
  {
    TurnsStep(cfg, s, l, id);
    RecordsOnly(cfg, s, l, id);
    hide Next, Turns, Held, Cancels;
  }

  lemma RecordsOnly(cfg: Config, s: State, l: Label, id: Uuid)
    requires !Cancels(s, l, id) && l != Expire(id)
    requires l.CancelRead? || l.Cancelling? || l.Expire? || l.Shutdown?
    ensures
      var t := Next(cfg, s, l);
      && t.queue == s.queue && t.timers == s.timers && t.workers == s.workers && t.producers == s.producers
      && t.published == s.published
      && (id in t.rows <==> id in s.rows) && (id in s.rows ==> t.rows[id] == s.rows[id])
      && (id in t.cache <==> id in s.cache) && (id in s.cache ==> t.cache[id] == s.cache[id])
      && (forall c :: c in t.cancellers && c.mailId == id ==> c in s.cancellers || (c.pc == ToCancelRow && id in s.rows))
  {
    hide Next, Cancels;
    if l.Cancelling? {
      CancelRecords(cfg, s, l, id);
    } else {
      OtherRecords(cfg, s, l, id);
    }
  }

  lemma CancelRecords(cfg: Config, s: State, l: Label, id: Uuid)
    requires !Cancels(s, l, id) && l != Expire(id)
    requires l.Cancelling?
    ensures
      var t := Next(cfg, s, l);
      && t.queue == s.queue && t.timers == s.timers && t.workers == s.workers && t.producers == s.producers
      && t.published == s.published
      && (id in t.rows <==> id in s.rows) && (id in s.rows ==> t.rows[id] == s.rows[id])
      && (id in t.cache <==> id in s.cache) && (id in s.cache ==> t.cache[id] == s.cache[id])
      && (forall c :: c in t.cancellers && c.mailId == id ==> c in s.cancellers || (c.pc == ToCancelRow && id in s.rows))
  {
    CancellingIs(cfg, s, l.canceller, l.ok);
    hide Next, CancelStep;
    if Enabled(cfg, s, l) {
      CancelTouches(s, l.canceller, l.ok, id);
    }
  }

  lemma CancelTouches(s: State, c: nat, ok: bool, id: Uuid)
    requires c < |s.cancellers| && s.cancellers[c].pc != CancelDone && s.cancellers[c].mailId != id
    ensures
      var t := CancelStep(s, c, ok);
      && t.queue == s.queue && t.timers == s.timers && t.workers == s.workers && t.producers == s.producers
      && t.published == s.published
      && (id in t.rows <==> id in s.rows) && (id in s.rows ==> t.rows[id] == s.rows[id])
      && (id in t.cache <==> id in s.cache) && (id in s.cache ==> t.cache[id] == s.cache[id])
      && (forall x :: x in t.cancellers && x.mailId == id ==> x in s.cancellers)
  {
  }

  lemma OtherRecords(cfg: Config, s: State, l: Label, id: Uuid)
    requires !Cancels(s, l, id) && l != Expire(id)
    requires l.CancelRead? || l.Expire? || l.Shutdown?
    ensures
      var t := Next(cfg, s, l);
      && t.queue == s.queue && t.timers == s.timers && t.workers == s.workers && t.producers == s.producers
      && t.published == s.published
      && (id in t.rows <==> id in s.rows) && (id in s.rows ==> t.rows[id] == s.rows[id])
      && (id in t.cache <==> id in s.cache) && (id in s.cache ==> t.cache[id] == s.cache[id])
      && (forall c :: c in t.cancellers && c.mailId == id ==> c in s.cancellers || (c.pc == ToCancelRow && id in s.rows))
  {
    hide Advance, Unacked, Losses, ProduceStep, CancelStep, Commit;
  }

  lemma LeavesCreate(cfg: Config, s: State, l: Label, id: Uuid)
    requires Held(s) && s.channelOpen && l.Create? && l.mailId != id
    ensures Leaves(s, Next(cfg, s, l), id)
  {
    TurnsStep(cfg, s, l, id);
    CreateIs(cfg, s, l.mailId, l.content, l.clientId);
    hide Next, Turns, Held, Enabled;
  }

  lemma LeavesProduce(cfg: Config, s: State, p: nat, ok: bool, id: Uuid)
    requires Held(s) && s.channelOpen && p < |s.producers| && s.producers[p].mailId != id
    ensures Leaves(s, Next(cfg, s, Produce(p, ok)), id)
  {
    TurnsStep(cfg, s, Produce(p, ok), id);
    ProduceIs(cfg, s, p, ok);
    hide Next, Turns, Held;
    if Enabled(cfg, s, Produce(p, ok)) {
      ProduceTouches(s, p, ok, id);
      hide ProduceStep;
    }
  }

  lemma ProduceTouches(s: State, p: nat, ok: bool, id: Uuid)
    requires p < |s.producers| && s.producers[p].pc != Submitted && s.producers[p].mailId != id
    ensures
      var t := ProduceStep(s, p, ok);
      && t.timers == s.timers && t.workers == s.workers
      && (forall j :: j in t.queue && j.mailId == id ==> j in s.queue)
      && (forall q :: q in t.producers && q.mailId == id ==> q in s.producers)
      && (id in t.published <==> id in s.published)
      && (id in t.rows <==> id in s.rows) && (id in s.rows ==> t.rows[id] == s.rows[id])
      && (id in t.cache <==> id in s.cache) && (id in s.cache ==> t.cache[id] == s.cache[id])
  {
  }

  lemma BooksCreate(cfg: Config, s: State, l: Label, h: History, id: Uuid)
    requires Books(s, h, id) && Provenance(s) && l.Create? && l.mailId == id && Enabled(cfg, s, l)
    ensures Books(Next(cfg, s, l), h, id)
  {
    CreateIs(cfg, s, id, l.content, l.clientId);
    hide Next, Turns;
    assert id !in s.published;
  }

  /** The account changes, the places of the mail do not. */
  lemma BooksRecords(s: State, t: State, h: History, h': History, id: Uuid)
    requires Books(s, h, id) && Handlers(t, h', id)
    requires t.queue == s.queue && t.timers == s.timers && t.workers == s.workers && t.published == s.published
    requires Turns(t, id) == Turns(s, id)
    requires id in s.rows && id in t.rows
    requires
      var a, b := AccountOf(s, h, id), AccountOf(t, h', id);
      && (Sound(a) ==> Sound(b))
      && (forall c :: Waiting(a, c) ==> Waiting(b, c))
      && (forall k: Worker :: k.Busy? && InHand(a, k) ==> InHand(b, k))
      && (Done(a) ==> Done(b))
    ensures Books(t, h', id)
  {
    hide Turns, Handlers, Sound, Waiting, InHand, Done;
  }

  /** A cache entry that is gone, or was written by a producer or a canceller, makes no claim false. */
  lemma CacheRewritten(a: Account, b: Account)
    requires b.row == a.row && b.history.row == a.history.row && b.history.cache != AWorker
    ensures forall c :: Waiting(a, c) ==> Waiting(b, c)
    ensures forall k: Worker :: k.Busy? && InHand(a, k) ==> InHand(b, k)
    ensures Done(a) ==> Done(b)
  {
  }

  /** Nor does a row that was cancelled. */
  lemma RowCancelled(a: Account, b: Account)
    requires b.row == a.row.(status := Cancelled) && b.entry == a.entry && b.history == a.history.(row := ACanceller)
    ensures forall c :: Waiting(a, c) ==> Waiting(b, c)
    ensures forall k: Worker :: k.Busy? && InHand(a, k) ==> InHand(b, k)
    ensures Done(a) ==> Done(b)
    ensures Sound(a) ==> Sound(b)
    ensures Fresh(a) ==> Fresh(b)
  {
  }

  lemma BooksExpire(cfg: Config, s: State, h: History, id: Uuid)
    requires Books(s, h, id) && Held(s) && s.channelOpen && Enabled(cfg, s, Expire(id))
    ensures Books(Next(cfg, s, Expire(id)), h.(cache := NoOne), id)
  {
    var t := Next(cfg, s, Expire(id));
    var h' := h.(cache := NoOne);
    TurnsStep(cfg, s, Expire(id), id);
    assert t == s.(cache := s.cache - {id});
    hide Next, Turns, Held;
    CacheRewritten(AccountOf(s, h, id), AccountOf(t, h', id));
    hide Waiting, InHand, Done;
    BooksRecords(s, t, h, h', id);
  }

  lemma BooksCancel(cfg: Config, s: State, c: nat, h: History, id: Uuid)
    requires Books(s, h, id) && Held(s) && s.channelOpen && Cancels(s, Cancelling(c, true), id)
    ensures Books(Next(cfg, s, Cancelling(c, true)), Noted(h, s, Cancelling(c, true), id), id)
  {
    var l := Cancelling(c, true);
    var t := Next(cfg, s, l);
    var h' := Noted(h, s, l, id);
    assert s.cancellers[c] in s.cancellers;
    TurnsStep(cfg, s, l, id);
    CancellingIs(cfg, s, c, true);
    hide Next, Turns, Held;
    if s.cancellers[c].pc == ToCancelRow {
      RowCancelled(AccountOf(s, h, id), AccountOf(t, h', id));
    } else {
      CacheRewritten(AccountOf(s, h, id), AccountOf(t, h', id));
    }
    hide Waiting, InHand, Done;
    BooksRecords(s, t, h, h', id);
  }

  lemma BooksPublish(cfg: Config, s: State, p: nat, h: History, id: Uuid)
    requires Books(s, h, id) && Provenance(s) && JobsOk(cfg, s) && Held(s) && s.channelOpen
    requires p < |s.producers| && s.producers[p].pc == ToPublish && s.producers[p].mailId == id
    ensures Books(Next(cfg, s, Produce(p, true)), h, id)
  {
    var q := s.producers[p];
    assert q in s.producers && id !in s.published;
    TurnsStep(cfg, s, Produce(p, true), id);
    TurnsNonNegative(s, id);
    ProduceIs(cfg, s, p, true);
    UnpublishedNowhere(cfg, s, id);
    hide Next, Turns, Held, JobsOk;
    var t := Next(cfg, s, Produce(p, true));
    assert t.producers == s.producers[p := q.(pc := ToCache)];
  }

  lemma UnpublishedNowhere(cfg: Config, s: State, id: Uuid)
    requires JobsOk(cfg, s) && id !in s.published
    ensures forall j :: j in s.queue ==> j.mailId != id
    ensures forall j :: j in s.timers ==> j.mailId != id
    ensures forall k :: k in s.workers && k.Busy? ==> k.msg.mailId != id
  {
  }

  lemma BooksRefused(cfg: Config, s: State, p: nat, ok: bool, h: History, id: Uuid)
    requires Books(s, h, id) && Provenance(s)
    requires p < |s.producers| && s.producers[p].mailId == id
    requires (s.producers[p].pc == ToPublish && !ok) || s.producers[p].pc == ToFailRow
    ensures Books(Next(cfg, s, Produce(p, ok)), h, id)
  {
    assert s.producers[p] in s.producers;
    ProduceIs(cfg, s, p, ok);
    hide Next, Turns, Claims;
  }

  /** The producer's cache write. */
  lemma BooksCached(cfg: Config, s: State, p: nat, h: History, id: Uuid)
    requires Books(s, h, id) && Provenance(s) && Held(s) && s.channelOpen
    requires p < |s.producers| && s.producers[p].mailId == id && s.producers[p].pc == ToCache
    ensures Books(Next(cfg, s, Produce(p, true)), h.(cache := TheProducer), id)
  {
    var q := s.producers[p];
    assert q in s.producers;
    var t := Next(cfg, s, Produce(p, true));
    var h' := h.(cache := TheProducer);
    TurnsStep(cfg, s, Produce(p, true), id);
    ProduceIs(cfg, s, p, true);
    hide Next, Turns, Held;
    CacheRewritten(AccountOf(s, h, id), AccountOf(t, h', id));
    hide Waiting, InHand, Done;
    BooksRecords(s, t, h, h', id);
  }

  lemma BooksProduce(cfg: Config, s: State, l: Label, h: History, id: Uuid)
    requires Books(s, h, id) && Provenance(s) && JobsOk(cfg, s) && Held(s) && s.channelOpen
    requires l.Produce? && Enabled(cfg, s, l) && s.producers[l.producer].mailId == id && Smooth(s, l, id)
    ensures Books(Next(cfg, s, l), Noted(h, s, l, id), id)
  {
    hide Next, Books, JobsOk, Provenance, Held;
    match s.producers[l.producer].pc
    case ToPublish =>
      if l.ok {
        BooksPublish(cfg, s, l.producer, h, id);
      } else {
        BooksRefused(cfg, s, l.producer, l.ok, h, id);
      }
    case ToCache => BooksCached(cfg, s, l.producer, h, id);
    case ToFailRow => BooksRefused(cfg, s, l.producer, l.ok, h, id);
  }

  /** The books after a worker whose turn it was, and who was alone with the mail, committed `e`. */
  lemma BooksCommit(s: State, w: nat, e: Effect, h: History, h': History, id: Uuid)
    requires Books(s, h, id) && id in s.published
    requires w < |s.workers| && !Among(s.queue, id) && !Among(s.timers, id)
    requires forall i :: 0 <= i < |s.workers| && i != w ==> !HasTurn(s.workers[i], id)
    requires h.row != NoOne ==> h'.row != NoOne
    requires id in e.rows && (e.worker.Busy? ==> e.worker.msg.mailId == id)
    requires
      var a := Account(e.rows[id], if id in e.cache then Some(e.cache[id]) else None, h');
      && Sound(a) && (e.worker.Busy? ==> InHand(a, e.worker))
      && (forall j :: j in e.toQueue + e.toTimers ==> Waiting(a, j.retryCount))
      && (Turns(Commit(s, w, e), id) == 0 ==> Done(a))
    ensures Books(Commit(s, w, e), h', id)
  {
    hide Turns, Sound, Waiting, Done;
    var t := Commit(s, w, e);
    assert forall j :: j in e.toQueue ==> j in e.toQueue + e.toTimers;
    assert forall j :: j in e.toTimers ==> j in e.toQueue + e.toTimers;
    forall k | k in t.workers && k.Busy? && k.msg.mailId == id
      ensures InHand(AccountOf(t, h', id), k)
    {
      var i :| 0 <= i < |t.workers| && t.workers[i] == k;
      if i != w {
        assert !HasTurn(s.workers[i], id);
      }
    }
  }

  /** The worker whose turn it is. */
  lemma BooksWork(cfg: Config, s: State, l: Label, h: History, id: Uuid)
    requires Books(s, h, id) && Provenance(s) && JobsOk(cfg, s) && Held(s) && s.channelOpen && Turns(s, id) <= 1
    requires l.Work? && Enabled(cfg, s, l) && HasTurn(s.workers[l.worker], id)
    requires Smooth(s, l, id)
    ensures Books(Next(cfg, s, l), Noted(h, s, l, id), id)
  {
    var k := s.workers[l.worker];
    assert k in s.workers && WorkerOk(cfg, s.published, k);
    assert id in s.published;
    AdvanceAccount(cfg, s, h, k, l.ok, l.disk);
    TurnIsAlone(s, l.worker, id);
    TurnsStep(cfg, s, l, id);
    AdvanceMsg(cfg, s, k, l.ok, l.disk);
    WorkIs(cfg, s, l.worker, l.ok, l.disk);
    hide Advance, Next, Turns, Held, JobsOk, Provenance, Ends, Waiting, Done, Sound, InHand, Books, Commit, Among;
    BooksCommit(s, l.worker, Advance(cfg, s, k, l.ok, l.disk), h, Noted(h, s, l, id), id);
  }

  lemma BooksStep(cfg: Config, s: State, l: Label, h: History, id: Uuid)
    requires Books(s, h, id) && Provenance(s) && JobsOk(cfg, s) && Held(s) && s.channelOpen && Turns(s, id) <= 1
    requires Smooth(s, l, id)
    ensures Books(Next(cfg, s, l), Noted(h, s, l, id), id)
  {
    hide Next, Books, Provenance, JobsOk, Held, Turns, Leaves;
    if !Enabled(cfg, s, l) {
      DisabledNotes(cfg, s, l, h, id);
    } else if l.Work? && HasTurn(s.workers[l.worker], id) {
      BooksWork(cfg, s, l, h, id);
    } else if l.Create? && l.mailId == id {
      BooksCreate(cfg, s, l, h, id);
    } else if l.Produce? && s.producers[l.producer].mailId == id {
      BooksProduce(cfg, s, l, h, id);
    } else if Cancels(s, l, id) {
      BooksCancel(cfg, s, l.canceller, h, id);
    } else if l == Expire(id) {
      BooksExpire(cfg, s, h, id);
    } else {
      if l.Work? {
        LeavesWork(cfg, s, l, id);
      } else if l.Create? {
        LeavesCreate(cfg, s, l, id);
      } else if l.Produce? {
        LeavesProduce(cfg, s, l.producer, l.ok, id);
      } else {
        LeavesOther(cfg, s, l, id);
      }
      BooksKept(s, Next(cfg, s, l), h, id);
    }
  }

  lemma DisabledNotes(cfg: Config, s: State, l: Label, h: History, id: Uuid)
    requires !Enabled(cfg, s, l)
    ensures Next(cfg, s, l) == s && Noted(h, s, l, id) == h
  {
    Disabled(cfg, s, l);
    hide Next;
  }

  // ---- Whole runs

  lemma SmoothPrefix(cfg: Config, concurrency: nat, run: seq<Label>, id: Uuid)
    requires SmoothRun(cfg, concurrency, run, id)
    ensures Calm(run)
    ensures run != [] ==> SmoothRun(cfg, concurrency, run[..|run| - 1], id)
    ensures run != [] ==> Smooth(After(cfg, concurrency, run[..|run| - 1]), run[|run| - 1], id)
  {
    hide After;
    forall i | 0 <= i < |run|
      ensures !run[i].Crash? && !run[i].CloseChannel?
    {
      assert Smooth(After(cfg, concurrency, run[..i]), run[i], id);
    }
    if run != [] {
      var front := run[..|run| - 1];
      forall i | 0 <= i < |front|
        ensures Smooth(After(cfg, concurrency, front[..i]), front[i], id)
      {
        assert front[..i] == run[..i] && front[i] == run[i];
      }
    }
  }

  lemma {:induction false} TurnsBounded(cfg: Config, concurrency: nat, run: seq<Label>, id: Uuid)
    requires Calm(run)
    ensures
      var s := After(cfg, concurrency, run);
      Turns(s, id) <= if id in s.published then 1 else 0
  {
    hide Next, Turns, Held, Provenance, Publishes, Ends, Advance;
    if run == [] {
      InitTurns(concurrency, id);
    } else {
      var before := run[..|run| - 1];
      var s := After(cfg, concurrency, before);
      TurnsBounded(cfg, concurrency, before, id);
      Invariants(cfg, concurrency, before);
      assert run[|run| - 1] in run;
      TurnsStep(cfg, s, run[|run| - 1], id);
      PublishedStep(cfg, s, run[|run| - 1], id);
    }
  }

  lemma InitTurns(concurrency: nat, id: Uuid)
    ensures Turns(Init(concurrency), id) == 0
  {
    SumZero(Init(concurrency).workers, TurnIs(id));
  }

  lemma {:induction false} AlwaysBooks(cfg: Config, concurrency: nat, run: seq<Label>, id: Uuid)
    requires SmoothRun(cfg, concurrency, run, id)
    ensures Books(After(cfg, concurrency, run), HistoryOf(cfg, concurrency, run, id), id)
  {
    hide Next, Books, Turns, Held, Provenance, JobsOk, SmoothRun, Smooth, Noted;
    if run == [] {
      InitBooks(concurrency, id);
    } else {
      var before := run[..|run| - 1];
      var s := After(cfg, concurrency, before);
      SmoothPrefix(cfg, concurrency, run, id);
      AlwaysBooks(cfg, concurrency, before, id);
      assert forall l :: l in before ==> l in run;
      Invariants(cfg, concurrency, before);
      JobIntegrity(cfg, concurrency, before);
      TurnsBounded(cfg, concurrency, before, id);
      BooksStep(cfg, s, run[|run| - 1], HistoryOf(cfg, concurrency, before, id), id);
    }
  }

  lemma InitBooks(concurrency: nat, id: Uuid)
    ensures Books(Init(concurrency), History(NoOne, NoOne), id)
  {
    hide Turns;
  }

  // ---- The exact condition

  /** The mail is published, and no worker is in the middle of it. Its producer and any number of
      cancellers may be. */
  predicate AtRest(s: State, id: Uuid)
  {
    && id in s.published
    && (forall k :: k in s.workers && k.Busy? && k.msg.mailId == id ==> k.pc == Ack || k.pc == Leave)
  }

  /** The row says processing, but the mail waits for its next delivery. */
  predicate Between(s: State, id: Uuid)
    requires id in s.rows
  {
    StatusReports.Backoff(s, id) && s.rows[id].status == Processing
  }

  /** What `GetStatus` reports is the row, read as queued between two deliveries. */
  predicate ReportIsTrue(s: State, id: Uuid)
  {
    && id in s.rows
    && Report(s, id) == Some(CacheEntry(if Between(s, id) then Queued else s.rows[id].status, s.rows[id].retryCount))
  }

  /** The last writers of row and cache fit together: nobody wrote the cache, and the mail is not
      between deliveries; the producer did, and nobody has touched the row; a worker wrote both; or
      a canceller wrote both, before any failure was counted. */
  predicate WritersFit(s: State, h: History, id: Uuid)
    requires id in s.rows
  {
    match h.cache
    case NoOne => !Between(s, id)
    case TheProducer => h.row == NoOne
    case AWorker => h.row == AWorker
    case ACanceller => h.row == ACanceller && s.rows[id].retryCount == 0
  }

  lemma BooksReport(cfg: Config, s: State, h: History, id: Uuid)
    requires Books(s, h, id) && JobsOk(cfg, s) && AtRest(s, id)
    ensures id in s.rows && (ReportIsTrue(s, id) <==> WritersFit(s, h, id))
  {
    hide Turns, Genuine;
    TurnPlaces(s, id);
    var a := AccountOf(s, h, id);
    assert forall j :: j in s.queue + s.timers <==> j in s.queue || j in s.timers;
    assert forall j :: j in s.queue + s.timers && j.mailId == id ==> Waiting(a, j.retryCount);
    if Turns(s, id) == 0 {
      assert !StatusReports.Backoff(s, id);
    } else {
      var j :| (j in s.queue || j in s.timers) && j.mailId == id;
      assert j in s.queue + s.timers;
    }
  }

  /** In every interleaving in which no write about the mail is lost, cancellations and expiry
      included, and whatever happens to other mails: when no worker is in the middle of the mail, its
      reported status and count are true if and only if the last writers of row and cache fit. */
  lemma ReportIsTrueExactly(cfg: Config, concurrency: nat, run: seq<Label>, id: Uuid)
    requires SmoothRun(cfg, concurrency, run, id) && AtRest(After(cfg, concurrency, run), id)
    ensures
      var s := After(cfg, concurrency, run);
      id in s.rows && (ReportIsTrue(s, id) <==> WritersFit(s, HistoryOf(cfg, concurrency, run, id), id))
  {
    AlwaysBooks(cfg, concurrency, run, id);
    JobIntegrity(cfg, concurrency, run);
    hide After, HistoryOf, Books, JobsOk, AtRest, ReportIsTrue, WritersFit;
    BooksReport(cfg, After(cfg, concurrency, run), HistoryOf(cfg, concurrency, run, id), id);
  }
}
