/** When a cancellation is final: exactly when nobody is left who can still overwrite the row. */
module Cancellation {
  import opened Models
  import opened Sums
  import opened Lifecycle
  import opened Tokens
  import opened Integrity

  /** The worker passed its check before the row was cancelled, and still has a status to write. */
  predicate MayOverwrite(cfg: Config, k: Worker, id: Uuid)
  {
    && k.Busy? && k.msg.mailId == id
    && match k.pc {
         case MarkCache | MarkRow | SentRow | FailPublish | FailRow => true
         case Send => AllSaved(k.msg.content) || k.retryCount + 1 >= cfg.maxRetryCount
         case CountRetry => k.retryCount + 1 >= cfg.maxRetryCount
         case _ => false
       }
  }

  /** The submission may still turn out to have failed. */
  predicate MayFail(p: Producer, id: Uuid)
  {
    p.mailId == id && (p.pc == ToPublish || p.pc == ToFailRow)
  }

  predicate IsCancelled(s: State, id: Uuid)
  {
    id in s.rows && s.rows[id].status == Cancelled
  }

  predicate Settled(cfg: Config, s: State, id: Uuid)
  {
    && IsCancelled(s, id)
    && (forall k :: k in s.workers ==> !MayOverwrite(cfg, k, id))
    && (forall p :: p in s.producers ==> !MayFail(p, id))
  }

  /** The step is not a database error during the cancellation check of this mail, which the
      worker treats as "not cancelled". */
  predicate ReadWorks(s: State, l: Label, id: Uuid)
  {
    l.Work? && !l.ok && l.worker < |s.workers| && s.workers[l.worker].Busy? ==>
      s.workers[l.worker].msg.mailId != id || s.workers[l.worker].pc != CheckCancelled
  }

  predicate ReadsWork(cfg: Config, s: State, run: seq<Label>, id: Uuid)
  {
    forall i :: 0 <= i < |run| ==> ReadWorks(Exec(cfg, s, run[..i]), run[i], id)
  }

  function AcceptedIs(id: Uuid): Event -> int
  {
    (e: Event) => if e.Attempted? && e.accepted && e.job.mailId == id then 1 else 0
  }

  /** How often a provider has accepted the mail. */
  function Deliveries(s: State, id: Uuid): int
  {
    Sum(s.log, AcceptedIs(id))
  }

  // ---- One step from a settled state

  lemma AdvanceSettled(cfg: Config, s: State, k: Worker, ok: bool, disk: Disk, id: Uuid)
    requires k.Busy? && IsCancelled(s, id) && !MayOverwrite(cfg, k, id)
    requires k.msg.mailId == id && k.pc == CheckCancelled ==> ok
    ensures
      var e := Advance(cfg, s, k, ok, disk);
      && id in e.rows && e.rows[id].status == Cancelled
      && !MayOverwrite(cfg, e.worker, id)
      && (forall x :: x in e.toLog ==> AcceptedIs(id)(x) == 0)
  {
    hide Advance, MayOverwrite;
    if Loud(k.pc) {
      LoudSettled(cfg, s, k, ok, disk, id);
    } else {
      QuietSettled(cfg, s, k, ok, disk, id);
    }
  }

  lemma QuietSettled(cfg: Config, s: State, k: Worker, ok: bool, disk: Disk, id: Uuid)
    requires k.Busy? && !Loud(k.pc) && IsCancelled(s, id) && !MayOverwrite(cfg, k, id)
    requires k.msg.mailId == id && k.pc == CheckCancelled ==> ok
    ensures
      var e := Advance(cfg, s, k, ok, disk);
      && id in e.rows && e.rows[id].status == Cancelled
      && !MayOverwrite(cfg, e.worker, id)
      && (forall x :: x in e.toLog ==> AcceptedIs(id)(x) == 0)
  {
    AdvanceQuiet(cfg, s, k, ok, disk);
    hide SetStatus;
  }

  lemma LoudSettled(cfg: Config, s: State, k: Worker, ok: bool, disk: Disk, id: Uuid)
    requires k.Busy? && Loud(k.pc) && IsCancelled(s, id) && !MayOverwrite(cfg, k, id)
    requires k.msg.mailId == id && k.pc == CheckCancelled ==> ok
    ensures
      var e := Advance(cfg, s, k, ok, disk);
      && id in e.rows && e.rows[id].status == Cancelled
      && !MayOverwrite(cfg, e.worker, id)
      && (forall x :: x in e.toLog ==> AcceptedIs(id)(x) == 0)
  {
    hide SetStatus;
  }

  lemma SettledRow(cfg: Config, s: State, l: Label, id: Uuid)
    requires Settled(cfg, s, id) && ReadWorks(s, l, id)
    ensures IsCancelled(Next(cfg, s, l), id)
  {
    hide Unacked, Losses, MayOverwrite;
    if l.Work? && Enabled(cfg, s, l) {
      assert s.workers[l.worker] in s.workers;
      AdvanceSettled(cfg, s, s.workers[l.worker], l.ok, l.disk, id);
    }
    hide Advance;
    if l.Produce? && Enabled(cfg, s, l) {
      assert s.producers[l.producer] in s.producers;
    }
  }

  lemma SettledWorkers(cfg: Config, s: State, l: Label, id: Uuid)
    requires Settled(cfg, s, id) && ReadWorks(s, l, id)
    ensures forall k :: k in Next(cfg, s, l).workers ==> !MayOverwrite(cfg, k, id)
  {
    hide Unacked, Losses, AllSaved, SetStatus, SetRowStatus;
    if l.Work? && Enabled(cfg, s, l) {
      assert s.workers[l.worker] in s.workers;
      AdvanceSettled(cfg, s, s.workers[l.worker], l.ok, l.disk, id);
      hide Advance, MayOverwrite;
    } else {
      hide Advance;
      forall i | 0 <= i < |Next(cfg, s, l).workers|
        ensures !MayOverwrite(cfg, Next(cfg, s, l).workers[i], id)
      {
        if i < |s.workers| {
          assert s.workers[i] in s.workers;
        }
      }
    }
  }

  lemma SettledProducers(cfg: Config, s: State, l: Label, id: Uuid)
    requires Settled(cfg, s, id)
    ensures forall p :: p in Next(cfg, s, l).producers ==> !MayFail(p, id)
  {
    if !l.Create? && !l.Produce? {
      Frame(cfg, s, l);
      hide Next;
    } else if l.Produce? && Enabled(cfg, s, l) {
      assert s.producers[l.producer] in s.producers;
    }
  }

  lemma SettledLog(cfg: Config, s: State, l: Label, id: Uuid)
    requires Settled(cfg, s, id) && ReadWorks(s, l, id)
    ensures Deliveries(Next(cfg, s, l), id) == Deliveries(s, id)
  {
    hide Sum, Unacked, MayOverwrite;
    var more: seq<Event> := [];
    if l.Work? && Enabled(cfg, s, l) {
      assert s.workers[l.worker] in s.workers;
      AdvanceSettled(cfg, s, s.workers[l.worker], l.ok, l.disk, id);
      more := Advance(cfg, s, s.workers[l.worker], l.ok, l.disk).toLog;
    } else if l.Fire? && Enabled(cfg, s, l) && !s.channelOpen {
      more := [Lost(s.timers[l.timer])];
    } else if l.Crash? {
      more := Losses(s.timers);
    }
    hide Advance;
    SumZero(more, AcceptedIs(id));
    SumConcat(s.log, more, AcceptedIs(id));
    assert s.log + [] == s.log;
  }

  /** Once settled, always settled, and never delivered again: over every run, with any crashes,
      closed channels and failed writes, as long as the check can read the row. */
  lemma {:induction false} CancellationIsFinal(cfg: Config, s: State, run: seq<Label>, id: Uuid)
    requires Settled(cfg, s, id) && ReadsWork(cfg, s, run, id)
    ensures Settled(cfg, Exec(cfg, s, run), id)
    ensures Deliveries(Exec(cfg, s, run), id) == Deliveries(s, id)
  {
    hide Next, Deliveries, ReadWorks;
    if run != [] {
      var before := run[..|run| - 1];
      var l := run[|run| - 1];
      var t := Exec(cfg, s, before);
      assert forall i :: 0 <= i < |before| ==> before[i] == run[i] && before[..i] == run[..i];
      CancellationIsFinal(cfg, s, before, id);
      assert ReadWorks(t, l, id);
      SettledRow(cfg, t, l, id);
      SettledWorkers(cfg, t, l, id);
      SettledProducers(cfg, t, l, id);
      SettledLog(cfg, t, l, id);
    }
  }

  // ---- An unsettled cancellation can be undone

  function Paths(content: MailContent): set<string>
  {
    set a | a in content.attachments :: a.storagePath
  }

  /** A disk on which every saved attachment of the mail can be read. */
  function DiskFor(content: MailContent): Disk
  {
    map p | p in Paths(content) && p != "" :: []
  }

  lemma DiskLoads(content: MailContent)
    requires AllSaved(content)
    ensures Loadable(content, DiskFor(content))
  {
  }

  /** One successful call of a worker that may overwrite: it writes the row or comes closer. */
  lemma AdvanceOverwrites(cfg: Config, s: State, k: Worker, id: Uuid)
    requires MayOverwrite(cfg, k, id) && id in s.rows
    ensures
      var e := Advance(cfg, s, k, true, DiskFor(k.msg.content));
      && id in e.rows
      && (e.rows[id].status != Cancelled || (MayOverwrite(cfg, e.worker, id) && Distance(e.worker) < Distance(k)))
  {
    if k.pc == Send && AllSaved(k.msg.content) {
      DiskLoads(k.msg.content);
    }
    hide AllSaved, Loadable, DiskFor, SetStatus;
  }

  function Distance(k: Worker): nat
    requires k.Busy?
  {
    match k.pc
    case MarkCache => 5
    case Send => 4
    case CountRetry => 3
    case FailPublish => 2
    case _ => 1
  }

  lemma {:induction false} WorkerUndoes(cfg: Config, s: State, w: nat, id: Uuid) returns (run: seq<Label>)
    requires id in s.rows && w < |s.workers| && MayOverwrite(cfg, s.workers[w], id)
    ensures forall l :: l in run ==> l.Work? && l.ok
    ensures id in Exec(cfg, s, run).rows && Exec(cfg, s, run).rows[id].status != Cancelled
    decreases Distance(s.workers[w])
  {
    var l := Work(w, true, DiskFor(s.workers[w].msg.content));
    var t := Next(cfg, s, l);
    AdvanceOverwrites(cfg, s, s.workers[w], id);
    hide Advance, MayOverwrite;
    assert Exec(cfg, s, [l]) == t by {
      ExecStep(cfg, s, [], l);
    }
    if t.rows[id].status != Cancelled {
      run := [l];
    } else {
      var rest := WorkerUndoes(cfg, t, w, id);
      run := [l] + rest;
      ExecConcat(cfg, s, [l], rest);
    }
  }

  lemma ProducerUndoes(cfg: Config, s: State, p: nat, id: Uuid) returns (run: seq<Label>)
    requires id in s.rows && p < |s.producers| && MayFail(s.producers[p], id)
    ensures forall l :: l in run ==> l.Produce?
    ensures id in Exec(cfg, s, run).rows && Exec(cfg, s, run).rows[id].status != Cancelled
    decreases s.producers[p].pc == ToPublish
  {
    hide Next;
    if s.producers[p].pc == ToFailRow {
      run := [Produce(p, true)];
      ProduceIs(cfg, s, p, true);
      ExecStep(cfg, s, [], Produce(p, true));
    } else {
      var l := Produce(p, false);
      run := [l];
      ProduceIs(cfg, s, p, false);
      ExecStep(cfg, s, [], l);
      var rest := ProducerUndoes(cfg, Next(cfg, s, l), p, id);
      run := [l] + rest;
      ExecConcat(cfg, s, [l], rest);
    }
  }

  /** Every run in which the check can read the row leaves it cancelled and undelivered. */
  ghost predicate Final(cfg: Config, s: State, id: Uuid)
  {
    forall run :: ReadsWork(cfg, s, run, id) ==>
      IsCancelled(Exec(cfg, s, run), id) && Deliveries(Exec(cfg, s, run), id) == Deliveries(s, id)
  }

  /** A cancellation is final exactly when no worker past its check and no unfinished submission
      can still write the row. */
  lemma FinalExactlyWhenSettled(cfg: Config, s: State, id: Uuid)
    requires IsCancelled(s, id)
    ensures Final(cfg, s, id) <==> Settled(cfg, s, id)
  {
    hide Exec, MayOverwrite, MayFail, Deliveries;
    if Settled(cfg, s, id) {
      forall run | ReadsWork(cfg, s, run, id)
        ensures IsCancelled(Exec(cfg, s, run), id) && Deliveries(Exec(cfg, s, run), id) == Deliveries(s, id)
      {
        CancellationIsFinal(cfg, s, run, id);
      }
    } else {
      var run: seq<Label>;
      if k :| k in s.workers && MayOverwrite(cfg, k, id) {
        var w: nat :| w < |s.workers| && s.workers[w] == k;
        run := WorkerUndoes(cfg, s, w, id);
      } else {
        var p: nat :| p < |s.producers| && MayFail(s.producers[p], id);
        run := ProducerUndoes(cfg, s, p, id);
      }
      forall i | 0 <= i < |run|
        ensures ReadWorks(Exec(cfg, s, run[..i]), run[i], id)
      {
        assert run[i] in run;
      }
      assert ReadsWork(cfg, s, run, id);
      assert !IsCancelled(Exec(cfg, s, run), id);
    }
  }

  /** The reads have to work: a database error during the check lets a cancelled mail through. */
  lemma ReadErrorUnsettles(cfg: Config, s: State, w: nat, disk: Disk, id: Uuid)
    requires IsCancelled(s, id) && w < |s.workers| && s.workers[w].Busy?
    requires s.workers[w].pc == CheckCancelled && s.workers[w].msg.mailId == id
    ensures IsCancelled(Next(cfg, s, Work(w, false, disk)), id)
    ensures !Final(cfg, Next(cfg, s, Work(w, false, disk)), id)
  {
    var t := Next(cfg, s, Work(w, false, disk));
    assert t.workers[w] in t.workers && MayOverwrite(cfg, t.workers[w], id);
    FinalExactlyWhenSettled(cfg, t, id);
    hide Final, Next;
  }
}
