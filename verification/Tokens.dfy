/**
 Conservation of mails. Without failures a published mail has exactly one owner; in general every
 step changes the number of owners by what it publishes, copies and drops, and by nothing else.
 */
module Tokens {
  import opened Models
  import opened Sums
  import opened Backoff
  import opened Lifecycle
  import opened Ledgers

  // ---- Weights: one per place that owns a mail

  function JobIs(id: Uuid): MailJob -> int
  {
    (j: MailJob) => if j.mailId == id then 1 else 0
  }

  /** The program points at which the worker has not yet handed the mail on. */
  predicate Owner(pc: Pc)
  {
    match pc
    case TestShutdown | EnterSection | CheckCancelled | MarkCache | MarkRow | Send => true
    case CountRetry | FailPublish | RetryRow | RetryCache | SpawnTimer => true
    case SentRow | SentCache | FailRow | FailCache | Ack | Leave => false
  }

  predicate Owns(k: Worker, id: Uuid)
  {
    k.Busy? && k.unacked && Owner(k.pc) && k.msg.mailId == id
  }

  function OwnedBy(id: Uuid): Worker -> int
  {
    (k: Worker) => if Owns(k, id) then 1 else 0
  }

  function UnackedIs(id: Uuid): Worker -> int
  {
    (k: Worker) => if k.Busy? && k.unacked && k.msg.mailId == id then 1 else 0
  }

  /** A mail's life ends when a provider accepts it or when it is skipped. A lost timer ends
      nothing: it owns the mail no longer, and another owner may be left. */
  predicate Retires(e: Event, id: Uuid)
  {
    (e.Skipped? || (e.Attempted? && e.accepted)) && e.job.mailId == id
  }

  function RetiredIs(id: Uuid): Event -> int
  {
    (e: Event) => if Retires(e, id) then 1 else 0
  }

  function TokenLedger(id: Uuid): Ledger
  {
    Ledger(JobIs(id), JobIs(id), JobIs(id), OwnedBy(id), RetiredIs(id))
  }

  /** How many owners a mail has: main queue, timers, failed queue, workers, or the finished log. */
  function Owners(s: State, id: Uuid): int
  {
    Balance(s, TokenLedger(id))
  }

  // ---- Invariants of every run

  /** While the channel is open every busy worker holds its delivery until it acks. */
  predicate Held(s: State)
  {
    forall k :: k in s.workers && k.Busy? ==> (k.unacked <==> s.channelOpen && k.pc != Leave)
  }

  /** Producers work on distinct rows, and publish each row's job at most once. */
  predicate Provenance(s: State)
  {
    && (forall p :: 0 <= p < |s.producers| ==> s.producers[p].mailId in s.rows)
    && (forall p, q :: 0 <= p < q < |s.producers| ==> s.producers[p].mailId != s.producers[q].mailId)
    && (forall p :: 0 <= p < |s.producers| && s.producers[p].pc == ToPublish ==>
          s.producers[p].mailId !in s.published)
    && s.published.Keys <= s.rows.Keys
  }

  lemma AdvanceHeld(cfg: Config, s: State, k: Worker, ok: bool, disk: Disk)
    requires k.Busy? && (k.unacked <==> s.channelOpen && k.pc != Leave)
    ensures
      var k' := Advance(cfg, s, k, ok, disk).worker;
      k'.Busy? ==> (k'.unacked <==> s.channelOpen && k'.pc != Leave)
  {
  }

  lemma AdvanceRows(cfg: Config, s: State, k: Worker, ok: bool, disk: Disk)
    requires k.Busy?
    ensures Advance(cfg, s, k, ok, disk).rows.Keys == s.rows.Keys
  {
  }

  lemma HeldStep(cfg: Config, s: State, l: Label)
    requires Held(s)
    ensures Held(Next(cfg, s, l))
  {
    hide Advance, Unacked, Losses;
    if Enabled(cfg, s, l) && l.Work? {
      assert s.workers[l.worker] in s.workers;
      AdvanceHeld(cfg, s, s.workers[l.worker], l.ok, l.disk);
    }
  }

  /** Only producers change which rows exist and what has been published. */
  lemma Frame(cfg: Config, s: State, l: Label)
    requires !l.Create? && !l.Produce?
    ensures
      var t := Next(cfg, s, l);
      t.rows.Keys == s.rows.Keys && t.producers == s.producers && t.published == s.published
  {
    hide Advance, Unacked, Losses;
    if Enabled(cfg, s, l) && l.Work? {
      AdvanceRows(cfg, s, s.workers[l.worker], l.ok, l.disk);
    }
  }

  lemma CreateProvenance(s: State, id: Uuid, content: MailContent, row: Row)
    requires Provenance(s) && id !in s.rows
    ensures Provenance(s.(rows := s.rows[id := row], producers := s.producers + [Producer(ToPublish, id, content)]))
  {
  }

  lemma ProduceProvenance(s: State, p: nat, ok: bool)
    requires Provenance(s) && p < |s.producers| && s.producers[p].pc != Submitted
    ensures Provenance(ProduceStep(s, p, ok))
  {
    hide SetStatus;
  }

  lemma FrameProvenance(s: State, t: State)
    requires Provenance(s)
    requires t.rows.Keys == s.rows.Keys && t.producers == s.producers && t.published == s.published
    ensures Provenance(t)
  {
  }

  lemma ProvenanceStep(cfg: Config, s: State, l: Label)
    requires Provenance(s)
    ensures Provenance(Next(cfg, s, l))
  {
    hide Next, Provenance, ProduceStep;
    match l
    case Create(id, content, clientId) =>
      CreateIs(cfg, s, id, content, clientId);
      if Enabled(cfg, s, l) {
        CreateProvenance(s, id, content, Row(Queued, 0, clientId));
      }
    case Produce(p, ok) =>
      ProduceIs(cfg, s, p, ok);
      if Enabled(cfg, s, l) {
        ProduceProvenance(s, p, ok);
      }
    case _ =>
      Frame(cfg, s, l);
      FrameProvenance(s, Next(cfg, s, l));
  }

  // ---- One step

  predicate Publishes(s: State, l: Label, id: Uuid)
  {
    l.Produce? && l.ok && l.producer < |s.producers|
    && s.producers[l.producer].pc == ToPublish && s.producers[l.producer].mailId == id
  }

  /** The program points that publish, requeue, start a timer or end a mail's life. */
  predicate Loud(pc: Pc)
  {
    pc in {TestShutdown, CheckCancelled, Send, FailPublish, SpawnTimer}
  }

  lemma AdvanceQuiet(cfg: Config, s: State, k: Worker, ok: bool, disk: Disk)
    requires k.Busy? && !Loud(k.pc)
    ensures
      var e := Advance(cfg, s, k, ok, disk);
      e.toQueue == [] && e.toFailed == [] && e.toTimers == [] && e.toLog == []
  {
  }

  /** The worker's step puts the mail somewhere else or ends its life. */
  predicate HandsOn(s: State, k: Worker, ok: bool, disk: Disk)
    requires k.Busy?
  {
    match k.pc
    case CheckCancelled => ok && k.msg.mailId in s.rows && s.rows[k.msg.mailId].status == Cancelled
    case Send => ok && Loadable(k.msg.content, disk)
    case SpawnTimer => true
    case _ => false
  }

  /** A worker step passes the mail on to exactly one place. A worker that lost its channel no longer
      owns the mail: what it hands on is a copy of the delivery that went back to the queue. */
  lemma WorkTokens(cfg: Config, s: State, k: Worker, ok: bool, disk: Disk, id: Uuid)
    requires k.Busy? && (k.unacked <==> s.channelOpen && k.pc != Leave)
    ensures
      Worth(Advance(cfg, s, k, ok, disk), TokenLedger(id)) ==
      OwnedBy(id)(k) + if !s.channelOpen && k.msg.mailId == id && HandsOn(s, k, ok, disk) then 1 else 0
  {
    var e := Advance(cfg, s, k, ok, disk);
    SumEmpty(JobIs(id));
    SumEmpty(RetiredIs(id));
    if Loud(k.pc) {
      LoudTokens(cfg, s, k, ok, disk, id);
    } else {
      AdvanceQuiet(cfg, s, k, ok, disk);
      hide Sum;
    }
  }

  lemma LoudTokens(cfg: Config, s: State, k: Worker, ok: bool, disk: Disk, id: Uuid)
    requires k.Busy? && (k.unacked <==> s.channelOpen && k.pc != Leave)
    requires Loud(k.pc)
    ensures
      Worth(Advance(cfg, s, k, ok, disk), TokenLedger(id)) ==
      OwnedBy(id)(k) + if !s.channelOpen && k.msg.mailId == id && HandsOn(s, k, ok, disk) then 1 else 0
  {
    hide Advance, Worth, TokenLedger, OwnedBy, HandsOn;
    if k.pc == CheckCancelled || k.pc == Send {
      LoggingTokens(cfg, s, k, ok, disk, id);
    } else {
      MovingTokens(cfg, s, k, ok, disk, id);
    }
  }

  lemma LoggingTokens(cfg: Config, s: State, k: Worker, ok: bool, disk: Disk, id: Uuid)
    requires k.Busy? && (k.unacked <==> s.channelOpen && k.pc != Leave)
    requires k.pc == CheckCancelled || k.pc == Send
    ensures
      Worth(Advance(cfg, s, k, ok, disk), TokenLedger(id)) ==
      OwnedBy(id)(k) + if !s.channelOpen && k.msg.mailId == id && HandsOn(s, k, ok, disk) then 1 else 0
  {
    hide Sum, Loadable;
    var e := Advance(cfg, s, k, ok, disk);
    SumEmpty(JobIs(id));
    SumEmpty(RetiredIs(id));
    if e.toLog != [] {
      SumOne(e.toLog[0], RetiredIs(id));
    }
  }

  lemma MovingTokens(cfg: Config, s: State, k: Worker, ok: bool, disk: Disk, id: Uuid)
    requires k.Busy? && (k.unacked <==> s.channelOpen && k.pc != Leave)
    requires k.pc == TestShutdown || k.pc == FailPublish || k.pc == SpawnTimer
    ensures
      Worth(Advance(cfg, s, k, ok, disk), TokenLedger(id)) ==
      OwnedBy(id)(k) + if !s.channelOpen && k.msg.mailId == id && HandsOn(s, k, ok, disk) then 1 else 0
  {
    hide Sum;
    SumEmpty(JobIs(id));
    SumEmpty(RetiredIs(id));
    SumOne(k.msg, JobIs(id));
    SumOne(k.Job(), JobIs(id));
    SumOne(Scheduled(k.Job(), Delay(k.retryCount)), RetiredIs(id));
  }

  /** The worker has handed the mail on, but the broker still holds the delivery for it. */
  predicate HandedOn(k: Worker, id: Uuid)
  {
    k.Busy? && k.unacked && !Owner(k.pc) && k.msg.mailId == id
  }

  function HandedOnIs(id: Uuid): Worker -> int
  {
    (k: Worker) => if HandedOn(k, id) then 1 else 0
  }

  /** The deliveries taken back by the broker are the unacked ones, one for one: those of mails still
      owned by the worker, and those of mails already handed on. */
  lemma {:induction false} UnackedCount(workers: seq<Worker>, id: Uuid)
    ensures Sum(Unacked(workers), JobIs(id)) == Sum(workers, UnackedIs(id))
    ensures Sum(workers, UnackedIs(id)) == Sum(workers, OwnedBy(id)) + Sum(workers, HandedOnIs(id))
    ensures Sum(workers, HandedOnIs(id)) >= 0
  {
    if workers != [] {
      var k := workers[|workers| - 1];
      var rest := workers[..|workers| - 1];
      UnackedCount(rest, id);
      var back := if k.Busy? && k.unacked then [k.msg] else [];
      SumConcat(Unacked(rest), back, JobIs(id));
      if back != [] {
        SumOne(k.msg, JobIs(id));
      }
    }
  }

  /** How many owners a step adds although nothing is published: deliveries that go back to the queue
      after the mail was handed on, and what a worker hands on after its delivery went back. */
  function Copies(s: State, l: Label, id: Uuid): int
  {
    match l
    case Crash => Sum(s.workers, HandedOnIs(id))
    case CloseChannel => if s.channelOpen then Sum(s.workers, HandedOnIs(id)) else 0
    case Work(w, ok, disk) =>
      if !s.channelOpen && w < |s.workers| && s.workers[w].Busy? && s.workers[w].msg.mailId == id
         && HandsOn(s, s.workers[w], ok, disk) then 1 else 0
    case _ => 0
  }

  /** How many owners a step drops: timers that die with the process, or that fire into a closed
      channel. */
  function Dropped(s: State, l: Label, id: Uuid): int
  {
    match l
    case Crash => Sum(s.timers, JobIs(id))
    case Fire(t) => if !s.channelOpen && t < |s.timers| && s.timers[t].mailId == id then 1 else 0
    case _ => 0
  }

  lemma CrashTokens(cfg: Config, s: State, id: Uuid)
    ensures Owners(Next(cfg, s, Crash), id) == Owners(s, id) + Copies(s, Crash, id) - Dropped(s, Crash, id)
  {
    CrashIs(cfg, s);
    SumEmpty(JobIs(id));
    hide Next, Sum, Unacked;
    UnackedCount(s.workers, id);
    SumConcat(s.queue, Unacked(s.workers), JobIs(id));
    SumZero(seq(|s.workers|, _ => Idle), OwnedBy(id));
    SumZero(Losses(s.timers), RetiredIs(id));
    SumConcat(s.log, Losses(s.timers), RetiredIs(id));
  }

  lemma CloseTokens(cfg: Config, s: State, id: Uuid)
    requires s.channelOpen
    ensures Owners(Next(cfg, s, CloseChannel), id) == Owners(s, id) + Copies(s, CloseChannel, id)
  {
    CloseIs(cfg, s);
    hide Next, Sum, Unacked;
    UnackedCount(s.workers, id);
    SumConcat(s.queue, Unacked(s.workers), JobIs(id));
    SumZero(seq(|s.workers|, i requires 0 <= i < |s.workers| => Orphan(s.workers[i])), OwnedBy(id));
  }

  /** Every step changes the number of owners by what it publishes, copies and drops, and by nothing
      else. Without failure nothing is copied or dropped. */
  lemma StepTokens(cfg: Config, s: State, l: Label, id: Uuid)
    requires Held(s)
    ensures
      Owners(Next(cfg, s, l), id) ==
      Owners(s, id) + (if Publishes(s, l, id) then 1 else 0) + Copies(s, l, id) - Dropped(s, l, id)
    ensures Copies(s, l, id) >= 0 && Dropped(s, l, id) >= 0
    ensures s.channelOpen && !l.Crash? && !l.CloseChannel? ==> Copies(s, l, id) == 0 && Dropped(s, l, id) == 0
  {
    SumNonNegative(s.timers, JobIs(id));
    SumNonNegative(s.workers, HandedOnIs(id));
    hide Next, Owners, Sum, Held, HandsOn;
    if !Enabled(cfg, s, l) {
      Disabled(cfg, s, l);
    } else if l.Crash? {
      CrashTokens(cfg, s, id);
    } else if l.CloseChannel? {
      CloseTokens(cfg, s, id);
    } else if l.Work? {
      WorkStepTokens(cfg, s, l, id);
    } else {
      OtherStepTokens(cfg, s, l, id);
    }
  }

  lemma WorkStepTokens(cfg: Config, s: State, l: Label, id: Uuid)
    requires Held(s) && Enabled(cfg, s, l) && l.Work?
    ensures Owners(Next(cfg, s, l), id) == Owners(s, id) + Copies(s, l, id)
  {
    assert s.workers[l.worker] in s.workers;
    WorkTokens(cfg, s, s.workers[l.worker], l.ok, l.disk, id);
    hide Advance, Worth, HandsOn, Next, Balance;
    NextBalance(cfg, s, l, TokenLedger(id));
  }

  lemma OtherStepTokens(cfg: Config, s: State, l: Label, id: Uuid)
    requires Enabled(cfg, s, l) && !l.Work? && !l.Crash? && !l.CloseChannel?
    ensures
      Owners(Next(cfg, s, l), id) == Owners(s, id) + (if Publishes(s, l, id) then 1 else 0) - Dropped(s, l, id)
  {
    hide Advance, Worth, Next, Balance;
    NextBalance(cfg, s, l, TokenLedger(id));
  }

  // ---- Whole runs

  lemma {:induction false} Invariants(cfg: Config, concurrency: nat, run: seq<Label>)
    ensures Held(After(cfg, concurrency, run)) && Provenance(After(cfg, concurrency, run))
    ensures Calm(run) ==> After(cfg, concurrency, run).channelOpen
  {
    hide Advance, Held, Provenance;
    if run != [] {
      var before := run[..|run| - 1];
      var s := After(cfg, concurrency, before);
      Invariants(cfg, concurrency, before);
      HeldStep(cfg, s, run[|run| - 1]);
      ProvenanceStep(cfg, s, run[|run| - 1]);
    } else {
      InitInvariants(concurrency);
    }
  }

  lemma InitInvariants(concurrency: nat)
    ensures Held(Init(concurrency)) && Provenance(Init(concurrency))
  {
  }

  lemma {:induction false} InitOwners(concurrency: nat, id: Uuid)
    ensures Owners(Init(concurrency), id) == 0
  {
    SumZero(Init(concurrency).workers, OwnedBy(id));
  }

  lemma PublishedStep(cfg: Config, s: State, l: Label, id: Uuid)
    requires Provenance(s)
    ensures id in Next(cfg, s, l).published <==> id in s.published || Publishes(s, l, id)
    ensures Publishes(s, l, id) ==> id !in s.published
  {
    hide Next;
    match l
    case Create(x, content, clientId) =>
      CreateIs(cfg, s, x, content, clientId);
    case Produce(p, ok) =>
      ProduceIs(cfg, s, p, ok);
    case _ =>
      Frame(cfg, s, l);
  }

  /** Without failures a published mail has exactly one owner in every reachable state, and an
      unpublished one has none. */
  lemma {:induction false} Conservation(cfg: Config, concurrency: nat, run: seq<Label>, id: Uuid)
    requires Calm(run)
    ensures
      var s := After(cfg, concurrency, run);
      Owners(s, id) == if id in s.published then 1 else 0
  {
    hide Next, Owners, Held, Provenance, Publishes;
    if run == [] {
      InitOwners(concurrency, id);
    } else {
      var before := run[..|run| - 1];
      var s := After(cfg, concurrency, before);
      Conservation(cfg, concurrency, before, id);
      Invariants(cfg, concurrency, before);
      assert run[|run| - 1] in run;
      StepTokens(cfg, s, run[|run| - 1], id);
      PublishedStep(cfg, s, run[|run| - 1], id);
    }
  }

  /** Whatever crashes, a published mail runs out of owners only in a step that drops a timer of
      that mail, its last owner. */
  lemma {:induction false} AtLeastOne(cfg: Config, concurrency: nat, run: seq<Label>, id: Uuid) returns (i: nat)
    requires id in After(cfg, concurrency, run).published && Owners(After(cfg, concurrency, run), id) < 1
    ensures i < |run| && Dropped(After(cfg, concurrency, run[..i]), run[i], id) > 0
    ensures Owners(After(cfg, concurrency, run[..i]), id) >= 1 > Owners(After(cfg, concurrency, run[..i + 1]), id)
  {
    hide Next, Owners, Held, Provenance, Publishes, Dropped;
    var before := run[..|run| - 1];
    var s := After(cfg, concurrency, before);
    Invariants(cfg, concurrency, before);
    StepTokens(cfg, s, run[|run| - 1], id);
    PublishedStep(cfg, s, run[|run| - 1], id);
    OwnersNonNegative(s, id);
    if id in s.published && Owners(s, id) < 1 {
      i := AtLeastOne(cfg, concurrency, before, id);
      assert run[..i] == before[..i] && run[..i + 1] == before[..i + 1];
    } else {
      i := |run| - 1;
      assert run[..i] == before && run[..i + 1] == run;
      PublishDropsNothing(s, run[i], id);
    }
  }

  lemma PublishDropsNothing(s: State, l: Label, id: Uuid)
    ensures Publishes(s, l, id) ==> Dropped(s, l, id) == 0
    ensures Dropped(s, l, id) >= 0
  {
    SumNonNegative(s.timers, JobIs(id));
  }

  lemma OwnersNonNegative(s: State, id: Uuid)
    ensures Owners(s, id) >= 0
  {
    SumNonNegative(s.queue, JobIs(id));
    SumNonNegative(s.timers, JobIs(id));
    SumNonNegative(s.failed, JobIs(id));
    SumNonNegative(s.workers, OwnedBy(id));
    SumNonNegative(s.log, RetiredIs(id));
  }
}
