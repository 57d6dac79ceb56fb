/** Graceful shutdown: what `activeJobs == 0` guarantees, and the gap it leaves. */
module Drain {
  import opened Models
  import opened Sums
  import opened Lifecycle
  import opened Retries
  import opened Routing

  /** Between the increment and the decrement of `activeJobs`. */
  predicate InSection(k: Worker)
  {
    k.Busy? && k.pc != TestShutdown && k.pc != EnterSection
  }

  function SectionCount(): Worker -> int
  {
    (k: Worker) => if InSection(k) then 1 else 0
  }

  predicate Counted(s: State)
  {
    s.activeJobs == Sum(s.workers, SectionCount())
  }

  lemma AdvanceCounts(cfg: Config, s: State, k: Worker, ok: bool, disk: Disk)
    requires k.Busy?
    ensures
      var e := Advance(cfg, s, k, ok, disk);
      e.activeJobs - s.activeJobs == SectionCount()(e.worker) - SectionCount()(k)
  {
    hide Loadable, SetStatus, SetRowStatus, SetRowCount, WorkerBackend;
  }

  lemma {:induction false} SameSections(a: seq<Worker>, b: seq<Worker>)
    requires |a| == |b| && forall i :: 0 <= i < |a| ==> SectionCount()(a[i]) == SectionCount()(b[i])
    ensures Sum(a, SectionCount()) == Sum(b, SectionCount())
  {
    if a != [] {
      SameSections(a[..|a| - 1], b[..|b| - 1]);
    }
  }

  lemma CountedWork(cfg: Config, s: State, w: nat, ok: bool, disk: Disk)
    requires Counted(s) && w < |s.workers| && s.workers[w].Busy?
    ensures Counted(Commit(s, w, Advance(cfg, s, s.workers[w], ok, disk)))
  {
    hide Advance, Sum;
    AdvanceCounts(cfg, s, s.workers[w], ok, disk);
    SumUpdate(s.workers, w, Advance(cfg, s, s.workers[w], ok, disk).worker, SectionCount());
  }

  lemma CountedStep(cfg: Config, s: State, l: Label)
    requires Counted(s)
    ensures Counted(Next(cfg, s, l))
  {
    hide Sum;
    match l
    case Work(w, ok, disk) =>
      WorkIs(cfg, s, w, ok, disk);
      hide Next, Counted, Commit, Advance;
      if Enabled(cfg, s, l) {
        CountedWork(cfg, s, w, ok, disk);
      }
    case Deliver(w, i) =>
      DeliverIs(cfg, s, w, i);
      hide Next;
      if Enabled(cfg, s, l) {
        SumUpdate(s.workers, w, Busy(TestShutdown, s.queue[i], s.queue[i].retryCount, true), SectionCount());
      }
    case CloseChannel =>
      hide Advance, Unacked;
      SameSections(s.workers, Next(cfg, s, l).workers);
    case Crash =>
      hide Advance, Unacked, Losses;
      SumZero(Next(cfg, s, l).workers, SectionCount());
    case _ =>
      hide Advance, Unacked, Losses, Commit;
  }

  /** In every run `activeJobs` is the number of workers inside `handleMessage`. */
  lemma {:induction false} ActiveJobsCounts(cfg: Config, concurrency: nat, run: seq<Label>)
    ensures Counted(After(cfg, concurrency, run))
  {
    hide Next;
    if run == [] {
      SumZero(Init(concurrency).workers, SectionCount());
    } else {
      ActiveJobsCounts(cfg, concurrency, run[..|run| - 1]);
      CountedStep(cfg, After(cfg, concurrency, run[..|run| - 1]), run[|run| - 1]);
    }
  }

  // ---- After the drain

  /** Shutdown was requested and the drain saw no active job. */
  predicate Drained(s: State)
  {
    s.isShutdown && s.activeJobs == 0 && Counted(s)
  }

  lemma DrainedWorkers(s: State)
    requires Drained(s)
    ensures forall k :: k in s.workers ==> !InSection(k)
  {
    forall i | 0 <= i < |s.workers|
      ensures !InSection(s.workers[i])
    {
      SumAtLeast(s.workers, i, SectionCount());
    }
  }

  /** Nobody is past the shutdown test. */
  predicate Stopped(s: State)
  {
    s.isShutdown && forall k :: k in s.workers ==> k.Idle? || k.pc == TestShutdown
  }

  lemma StoppedStep(cfg: Config, s: State, l: Label, id: Uuid)
    requires Stopped(s) && !l.Crash?
    ensures Stopped(Next(cfg, s, l)) && Attempts(Next(cfg, s, l), id) == Attempts(s, id)
  {
    hide Sum, Unacked, Losses, Loadable;
    var t := Next(cfg, s, l);
    if Enabled(cfg, s, l) {
      if l.Work? {
        assert s.workers[l.worker] in s.workers;
        assert s.log + [] == s.log;
      } else if l.Fire? && !s.channelOpen {
        var lost := Lost(s.timers[l.timer]);
        SumConcat(s.log, [lost], IsAttempt(id));
        SumOne(lost, IsAttempt(id));
      } else if l.CloseChannel? {
        forall i | 0 <= i < |t.workers|
          ensures t.workers[i].Idle? || t.workers[i].pc == TestShutdown
        {
          assert s.workers[i] in s.workers;
        }
      }
    }
  }

  lemma {:induction false} StoppedForGood(cfg: Config, s: State, run: seq<Label>, id: Uuid)
    requires Stopped(s) && NoRestart(run)
    ensures Stopped(Exec(cfg, s, run)) && Attempts(Exec(cfg, s, run), id) == Attempts(s, id)
  {
    hide Next, Stopped, Attempts;
    if run != [] {
      assert run[|run| - 1] in run;
      StoppedForGood(cfg, s, run[..|run| - 1], id);
      StoppedStep(cfg, Exec(cfg, s, run[..|run| - 1]), run[|run| - 1], id);
    }
  }

  predicate NoRestart(run: seq<Label>)
  {
    forall l :: l in run ==> !l.Crash?
  }

  /** Until the process is restarted no mail is attempted any more. */
  ghost predicate Silent(cfg: Config, s: State)
  {
    forall run, id: Uuid :: NoRestart(run) ==> Attempts(Exec(cfg, s, run), id) == Attempts(s, id)
  }

  /** One call of a worker that is past the shutdown test brings it closer to a send. */
  lemma EnteredAdvances(cfg: Config, s: State, k: Worker, id: Uuid)
    requires k.Busy? && k.msg.mailId == id && k.pc in {EnterSection, CheckCancelled, MarkCache, MarkRow, Send}
    ensures
      var e := Advance(cfg, s, k, false, map[]);
      if k.pc == Send then e.toLog == [Attempted(k.Job(), WorkerBackend(cfg, k.msg.content), false)]
      else e.toLog == [] && e.worker == k.(pc := Following(k.pc))
  {
  }

  function Following(pc: Pc): Pc
  {
    match pc
    case EnterSection => CheckCancelled
    case CheckCancelled => MarkCache
    case MarkCache => MarkRow
    case _ => Send
  }

  function CallsToSend(pc: Pc): nat
  {
    match pc
    case EnterSection => 4
    case CheckCancelled => 3
    case MarkCache => 2
    case MarkRow => 1
    case _ => 0
  }

  lemma {:induction false} EnteredAttempts(cfg: Config, s: State, w: nat, id: Uuid) returns (run: seq<Label>)
    requires w < |s.workers| && s.workers[w].Busy? && s.workers[w].msg.mailId == id
    requires s.workers[w].pc in {EnterSection, CheckCancelled, MarkCache, MarkRow, Send}
    ensures forall l :: l in run ==> l.Work?
    ensures Attempts(Exec(cfg, s, run), id) == Attempts(s, id) + 1
    decreases CallsToSend(s.workers[w].pc)
  {
    var k := s.workers[w];
    var l := Work(w, false, map[]);
    var t := Next(cfg, s, l);
    EnteredAdvances(cfg, s, k, id);
    WorkIs(cfg, s, w, false, map[]);
    hide Advance, Sum, Next;
    assert Exec(cfg, s, [l]) == t by {
      ExecStep(cfg, s, [], l);
      assert [] + [l] == [l];
    }
    if k.pc == Send {
      run := [l];
      var e := Attempted(k.Job(), WorkerBackend(cfg, k.msg.content), false);
      SumConcat(s.log, [e], IsAttempt(id));
      SumOne(e, IsAttempt(id));
    } else {
      assert t.log == s.log;
      var rest := EnteredAttempts(cfg, t, w, id);
      run := [l] + rest;
      ExecConcat(cfg, s, [l], rest);
    }
  }

  /** Draining is enough exactly when no worker sits between the shutdown test and the increment
      of `activeJobs`: the two are separate steps, and the drain cannot see a worker in between. */
  lemma DrainIsSilentExactly(cfg: Config, s: State)
    requires Drained(s)
    ensures Silent(cfg, s) <==> forall k :: k in s.workers && k.Busy? ==> k.pc != EnterSection
  {
    DrainedWorkers(s);
    hide Exec, Attempts, Counted;
    if k :| k in s.workers && k.Busy? && k.pc == EnterSection {
      var w: nat :| w < |s.workers| && s.workers[w] == k;
      var run := EnteredAttempts(cfg, s, w, k.msg.mailId);
      assert Attempts(Exec(cfg, s, run), k.msg.mailId) != Attempts(s, k.msg.mailId);
    } else {
      forall run, id: Uuid | NoRestart(run)
        ensures Attempts(Exec(cfg, s, run), id) == Attempts(s, id)
      {
        StoppedForGood(cfg, s, run, id);
      }
    }
  }
}
