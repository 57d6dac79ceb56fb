/**
 Bookkeeping over states. A ledger gives a weight to a job in each place a job can be, and a
 balance adds the weights up. How a step moves a balance is settled once, here, for every
 ledger; the laws about tokens, attempts, waiting time and progress only choose the weights.
 */
module Ledgers {
  import opened Models
  import opened Sums
  import opened Lifecycle

  datatype Ledger = Ledger(
    queued: MailJob -> int,
    waiting: MailJob -> int,
    dead: MailJob -> int,
    working: Worker -> int,
    logged: Event -> int)

  function Balance(s: State, g: Ledger): int
  {
    Sum(s.queue, g.queued) + Sum(s.timers, g.waiting) + Sum(s.failed, g.dead)
    + Sum(s.workers, g.working) + Sum(s.log, g.logged)
  }

  /** The weight of everything a worker step leaves behind. */
  function Worth(e: Effect, g: Ledger): int
  {
    Sum(e.toQueue, g.queued) + Sum(e.toTimers, g.waiting) + Sum(e.toFailed, g.dead)
    + g.working(e.worker) + Sum(e.toLog, g.logged)
  }

  lemma CommitBalance(s: State, w: nat, e: Effect, g: Ledger)
    requires w < |s.workers|
    ensures Balance(Commit(s, w, e), g) == Balance(s, g) - g.working(s.workers[w]) + Worth(e, g)
  {
    SumConcat(s.queue, e.toQueue, g.queued);
    SumConcat(s.timers, e.toTimers, g.waiting);
    SumConcat(s.failed, e.toFailed, g.dead);
    SumConcat(s.log, e.toLog, g.logged);
    SumUpdate(s.workers, w, e.worker, g.working);
  }

  /** What a step other than a crash or a channel close adds to a balance. */
  function Gain(cfg: Config, s: State, l: Label, g: Ledger): int
    requires Enabled(cfg, s, l)
  {
    match l
    case Produce(p, ok) =>
      var q := s.producers[p];
      if q.pc == ToPublish && ok then g.queued(MailJob(q.mailId, q.content, 0)) else 0
    case Deliver(w, i) =>
      var msg := s.queue[i];
      g.working(Busy(TestShutdown, msg, msg.retryCount, true)) - g.working(Idle) - g.queued(msg)
    case Work(w, ok, disk) =>
      Worth(Advance(cfg, s, s.workers[w], ok, disk), g) - g.working(s.workers[w])
    case Fire(t) =>
      (if s.channelOpen then g.queued(s.timers[t]) else g.logged(Lost(s.timers[t]))) - g.waiting(s.timers[t])
    case _ => 0
  }

  lemma ProduceBalance(cfg: Config, s: State, p: nat, ok: bool, g: Ledger)
    requires Enabled(cfg, s, Produce(p, ok))
    ensures Balance(Next(cfg, s, Produce(p, ok)), g) == Balance(s, g) + Gain(cfg, s, Produce(p, ok), g)
  {
    ProduceIs(cfg, s, p, ok);
    hide Next, Advance, Worth, Balance, ProduceStep;
    ProduceStepBalance(s, p, ok, g);
  }

  lemma ProduceStepBalance(s: State, p: nat, ok: bool, g: Ledger)
    requires p < |s.producers| && s.producers[p].pc != Submitted
    ensures
      var q := s.producers[p];
      Balance(ProduceStep(s, p, ok), g) ==
      Balance(s, g) + if q.pc == ToPublish && ok then g.queued(MailJob(q.mailId, q.content, 0)) else 0
  {
    var job := MailJob(s.producers[p].mailId, s.producers[p].content, 0);
    hide Sum, SetStatus, SetRowStatus;
    SumConcat(s.queue, [job], g.queued);
    SumOne(job, g.queued);
  }

  lemma DeliverBalance(cfg: Config, s: State, w: nat, i: nat, g: Ledger)
    requires Enabled(cfg, s, Deliver(w, i))
    ensures Balance(Next(cfg, s, Deliver(w, i)), g) == Balance(s, g) + Gain(cfg, s, Deliver(w, i), g)
  {
    var msg := s.queue[i];
    DeliverIs(cfg, s, w, i);
    hide Next, Sum, Advance, Worth;
    SumRemove(s.queue, i, g.queued);
    SumUpdate(s.workers, w, Busy(TestShutdown, msg, msg.retryCount, true), g.working);
  }

  lemma FireBalance(cfg: Config, s: State, t: nat, g: Ledger)
    requires Enabled(cfg, s, Fire(t))
    ensures Balance(Next(cfg, s, Fire(t)), g) == Balance(s, g) + Gain(cfg, s, Fire(t), g)
  {
    var job := s.timers[t];
    FireIs(cfg, s, t);
    hide Next, Sum, Advance, Worth;
    SumRemove(s.timers, t, g.waiting);
    SumConcat(s.queue, [job], g.queued);
    SumOne(job, g.queued);
    SumConcat(s.log, [Lost(job)], g.logged);
    SumOne(Lost(job), g.logged);
  }

  /** Creations, cancellations, expiry and shutdown move no job. */
  lemma OtherBalance(cfg: Config, s: State, l: Label, g: Ledger)
    requires l.Create? || l.CancelRead? || l.Cancelling? || l.Expire? || l.Shutdown?
    ensures Balance(Next(cfg, s, l), g) == Balance(s, g)
  {
    hide Advance, Sum, Unacked, Losses, Commit, ProduceStep;
  }

  lemma NextBalance(cfg: Config, s: State, l: Label, g: Ledger)
    requires Enabled(cfg, s, l) && !l.Crash? && !l.CloseChannel?
    ensures Balance(Next(cfg, s, l), g) == Balance(s, g) + Gain(cfg, s, l, g)
  {
    hide Advance, Sum, Worth, Next, Commit, Balance;
    match l
    case Produce(p, ok) => ProduceBalance(cfg, s, p, ok, g);
    case Deliver(w, i) => DeliverBalance(cfg, s, w, i, g);
    case Fire(t) => FireBalance(cfg, s, t, g);
    case Work(w, ok, disk) =>
      WorkIs(cfg, s, w, ok, disk);
      CommitBalance(s, w, Advance(cfg, s, s.workers[w], ok, disk), g);
    case _ => OtherBalance(cfg, s, l, g);
  }
}
