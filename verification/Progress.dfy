/** Termination: a measure that every step of the system itself lowers, and where runs end. */
module Progress {
  import opened Models
  import opened Sums
  import opened Lifecycle
  import opened Ledgers
  import opened Tokens
  import opened Survival

  /** How many more attempts the configuration allows a job with this count. */
  function Remaining(cfg: Config, count: int): nat
  {
    if count < cfg.maxRetryCount then cfg.maxRetryCount - count else 0
  }

  function QueuedRank(cfg: Config): MailJob -> int
  {
    (j: MailJob) => 20 * Remaining(cfg, j.retryCount) + 13
  }

  function WaitingRank(cfg: Config): MailJob -> int
  {
    (j: MailJob) => 20 * Remaining(cfg, j.retryCount) + 14
  }

  function Stage(pc: Pc): int
  {
    match pc
    case Leave => 1
    case Ack => 2
    case SentCache | FailCache => 3
    case SentRow | FailRow => 4
    case FailPublish => 5
    case CountRetry => 6
    case Send => 7
    case MarkRow => 8
    case MarkCache => 9
    case CheckCancelled => 10
    case EnterSection => 11
    case TestShutdown => 12
    case SpawnTimer => 17
    case RetryCache => 18
    case RetryRow => 19
  }

  function WorkerRank(cfg: Config): Worker -> int
  {
    (k: Worker) =>
      if k.Idle? then 0
      else Stage(k.pc) + if Stage(k.pc) >= 6 then 20 * Remaining(cfg, k.retryCount) else 0
  }

  function RankLedger(cfg: Config): Ledger
  {
    Ledger(QueuedRank(cfg), WaitingRank(cfg), Zero(), WorkerRank(cfg), Zero())
  }

  /** The cost of one submission, from its producer to its last acknowledgement. */
  function SubmissionCost(cfg: Config): int
  {
    20 * Remaining(cfg, 0) + 15
  }

  function ProducerRank(cfg: Config): Producer -> int
  {
    (p: Producer) =>
      match p.pc
      case ToPublish => SubmissionCost(cfg)
      case ToCache | ToFailRow => 1
      case Submitted => 0
  }

  function Measure(cfg: Config, s: State): int
  {
    Balance(s, RankLedger(cfg)) + Sum(s.producers, ProducerRank(cfg))
  }

  /** Steps the system takes by itself: producers, the broker, workers and timers. */
  predicate Internal(l: Label)
  {
    l.Produce? || l.Deliver? || l.Work? || l.Fire?
  }

  lemma QuietRank(cfg: Config, s: State, k: Worker, ok: bool, disk: Disk)
    requires k.Busy? && !s.isShutdown
    ensures
      var k' := Advance(cfg, s, k, ok, disk).worker;
      WorkerRank(cfg)(k') + (if k.pc == SpawnTimer then WaitingRank(cfg)(k.Job()) else 0) < WorkerRank(cfg)(k)
  {
    hide Loadable, SetStatus, SetRowStatus, SetRowCount;
  }

  lemma WorkRank(cfg: Config, s: State, k: Worker, ok: bool, disk: Disk)
    requires k.Busy? && !s.isShutdown
    ensures Worth(Advance(cfg, s, k, ok, disk), RankLedger(cfg)) < WorkerRank(cfg)(k)
  {
    var e := Advance(cfg, s, k, ok, disk);
    QuietRank(cfg, s, k, ok, disk);
    SumOne(k.Job(), WaitingRank(cfg));
    SumZero(e.toFailed, Zero());
    SumZero(e.toLog, Zero());
    SumEmpty(QueuedRank(cfg));
    SumEmpty(WaitingRank(cfg));
    hide Sum, Loadable, SetStatus, SetRowStatus, SetRowCount, WorkerRank, WaitingRank, QueuedRank;
  }

  lemma ProduceMeasure(cfg: Config, s: State, p: nat, ok: bool)
    requires p < |s.producers| && s.producers[p].pc != Submitted
    ensures
      Sum(ProduceStep(s, p, ok).producers, ProducerRank(cfg))
      + Gain(cfg, s, Produce(p, ok), RankLedger(cfg)) < Sum(s.producers, ProducerRank(cfg))
  {
    hide Sum, SetStatus, SetRowStatus, Advance, Worth;
    SumUpdate(s.producers, p, ProduceStep(s, p, ok).producers[p], ProducerRank(cfg));
  }

  lemma CreateMeasure(cfg: Config, producers: seq<Producer>, id: Uuid, content: MailContent)
    ensures
      Sum(producers + [Producer(ToPublish, id, content)], ProducerRank(cfg)) ==
      Sum(producers, ProducerRank(cfg)) + SubmissionCost(cfg)
  {
    var p := Producer(ToPublish, id, content);
    SumConcat(producers, [p], ProducerRank(cfg));
    SumOne(p, ProducerRank(cfg));
  }

  lemma OthersKeepProducers(cfg: Config, s: State, l: Label)
    requires !l.Create? && !l.Produce?
    ensures Next(cfg, s, l).producers == s.producers
  {
    Frame(cfg, s, l);
  }

  /** Internal steps lower the measure, a submission raises it by a constant, nothing else
      raises it. */
  lemma MeasureStep(cfg: Config, s: State, l: Label)
    requires Enabled(cfg, s, l) && !l.Crash? && !l.CloseChannel?
    requires !s.isShutdown
    ensures
      Measure(cfg, Next(cfg, s, l)) <=
      Measure(cfg, s) + if l.Create? then SubmissionCost(cfg) else if Internal(l) then -1 else 0
  {
    var g := RankLedger(cfg);
    NextBalance(cfg, s, l, g);
    hide Advance, Worth, Balance, Sum, ProducerRank, ProduceStep, SubmissionCost;
    if l.Create? {
      CreateMeasure(cfg, s.producers, l.mailId, l.content);
    } else if l.Produce? {
      ProduceMeasure(cfg, s, l.producer, l.ok);
    } else {
      OthersKeepProducers(cfg, s, l);
      hide Next;
      if l.Work? {
        WorkRank(cfg, s, s.workers[l.worker], l.ok, l.disk);
      }
    }
  }

  // ---- Whole runs

  /** Runs without failures and without a shutdown request. */
  predicate Undisturbed(run: seq<Label>)
  {
    Calm(run) && forall l :: l in run ==> !l.Shutdown?
  }

  /** The number of steps of a run that happen and that the system takes by itself. */
  function InternalSteps(cfg: Config, concurrency: nat, run: seq<Label>): nat
  {
    if run == [] then 0
    else
      var before := run[..|run| - 1];
      var l := run[|run| - 1];
      InternalSteps(cfg, concurrency, before)
      + if Internal(l) && Enabled(cfg, After(cfg, concurrency, before), l) then 1 else 0
  }

  function Submissions(cfg: Config, concurrency: nat, run: seq<Label>): nat
  {
    if run == [] then 0
    else
      var before := run[..|run| - 1];
      var l := run[|run| - 1];
      Submissions(cfg, concurrency, before)
      + if l.Create? && Enabled(cfg, After(cfg, concurrency, before), l) then 1 else 0
  }

  lemma ShutdownStep(cfg: Config, s: State, l: Label)
    requires !l.Shutdown?
    ensures Next(cfg, s, l).isShutdown ==> s.isShutdown
  {
    hide Advance, Unacked, Losses;
  }

  lemma InitMeasure(cfg: Config, concurrency: nat)
    ensures Measure(cfg, Init(concurrency)) == 0
  {
    SumZero(Init(concurrency).workers, WorkerRank(cfg));
  }

  lemma MeasureNonNegative(cfg: Config, s: State)
    ensures Measure(cfg, s) >= 0
  {
    SumNonNegative(s.queue, QueuedRank(cfg));
    SumNonNegative(s.timers, WaitingRank(cfg));
    SumZero(s.failed, Zero());
    SumNonNegative(s.workers, WorkerRank(cfg));
    SumZero(s.log, Zero());
    SumNonNegative(s.producers, ProducerRank(cfg));
  }

  lemma {:induction false} StepBudget(cfg: Config, concurrency: nat, run: seq<Label>)
    requires Undisturbed(run)
    ensures
      InternalSteps(cfg, concurrency, run) + Measure(cfg, After(cfg, concurrency, run)) <=
      Submissions(cfg, concurrency, run) * SubmissionCost(cfg)
    ensures !After(cfg, concurrency, run).isShutdown
  {
    hide Next, Measure, SubmissionCost, Enabled;
    if run == [] {
      InitMeasure(cfg, concurrency);
    } else {
      var before := run[..|run| - 1];
      var l := run[|run| - 1];
      assert l in run;
      var s := After(cfg, concurrency, before);
      StepBudget(cfg, concurrency, before);
      ShutdownStep(cfg, s, l);
      if Enabled(cfg, s, l) {
        MeasureStep(cfg, s, l);
      } else {
        Disabled(cfg, s, l);
      }
    }
  }

  /** However the steps interleave, n submissions lead to at most n times a constant number of
      producer, broker, worker and timer steps: no undisturbed run goes on for ever. */
  lemma Termination(cfg: Config, concurrency: nat, run: seq<Label>)
    requires Undisturbed(run)
    ensures
      InternalSteps(cfg, concurrency, run) <=
      Submissions(cfg, concurrency, run) * (20 * Remaining(cfg, 0) + 15)
  {
    hide After, Measure;
    StepBudget(cfg, concurrency, run);
    MeasureNonNegative(cfg, After(cfg, concurrency, run));
  }

  /** Nothing is left to do without outside input. */
  ghost predicate Quiescent(cfg: Config, s: State)
  {
    forall l :: Internal(l) ==> !Enabled(cfg, s, l)
  }

  lemma QuiescentIsEmpty(cfg: Config, s: State)
    requires Quiescent(cfg, s) && s.channelOpen && |s.workers| >= 1
    ensures s.queue == [] && s.timers == [] && forall k :: k in s.workers ==> k.Idle?
  {
    hide Next, Internal;
    forall w: nat | w < |s.workers|
      ensures s.workers[w].Idle?
    {
      NotEnabled(cfg, s, Work(w, true, map[]));
    }
    NotEnabled(cfg, s, Deliver(0, 0));
    NotEnabled(cfg, s, Fire(0));
  }

  lemma NotEnabled(cfg: Config, s: State, l: Label)
    requires Quiescent(cfg, s) && (l.Work? || l.Deliver? || l.Fire?)
    ensures !Enabled(cfg, s, l)
  {
    hide Enabled;
    assert Internal(l);
  }

  lemma {:induction false} WorkerCount(cfg: Config, concurrency: nat, run: seq<Label>)
    ensures |After(cfg, concurrency, run).workers| == concurrency
  {
    hide Next;
    if run != [] {
      WorkerCount(cfg, concurrency, run[..|run| - 1]);
      WorkerCountStep(cfg, After(cfg, concurrency, run[..|run| - 1]), run[|run| - 1]);
    }
  }

  lemma WorkerCountStep(cfg: Config, s: State, l: Label)
    ensures |Next(cfg, s, l).workers| == |s.workers|
  {
    hide Advance, Unacked, Losses;
  }

  /** Every calm run that can go no further has brought each published mail to exactly one end:
      accepted by a provider, skipped as cancelled, or in the failed queue. */
  lemma EveryMailSettles(cfg: Config, concurrency: nat, run: seq<Label>, id: Uuid)
    requires concurrency >= 1 && Calm(run)
    requires Quiescent(cfg, After(cfg, concurrency, run)) && id in After(cfg, concurrency, run).published
    ensures Among(After(cfg, concurrency, run).failed, id) || Finished(After(cfg, concurrency, run), id)
    ensures Owners(After(cfg, concurrency, run), id) == 1
  {
    var s := After(cfg, concurrency, run);
    Conservation(cfg, concurrency, run, id);
    Invariants(cfg, concurrency, run);
    WorkerCount(cfg, concurrency, run);
    QuiescentIsEmpty(cfg, s);
    OwnersArePlaces(s, id);
    hide After, Owners, Held, Provenance;
  }
}
