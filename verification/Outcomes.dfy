/** What becomes of particular mails: those with unsaved attachments, and which provider is used. */
module Outcomes {
  import opened Models
  import opened Text
  import opened Routing
  import opened Lifecycle
  import opened Tokens
  import opened Integrity
  import opened Survival
  import opened Retries
  import opened Progress
  import opened Cancellation

  /** Every attempt of every run goes through Graph exactly for org senders, with or without a
      sender config. */
  lemma BackendOfEveryAttempt(cfg: Config, concurrency: nat, run: seq<Label>, e: Event)
    requires e in After(cfg, concurrency, run).log && e.Attempted?
    ensures e.backend.Graph? <==> IsOrgSender(cfg, e.job.content.from)
    ensures e.backend.Graph? <==>
      exists p, d :: Concat(e.job.content.from, p, d) && ToLower(d) == ToLower(cfg.orgEmailDomain)
  {
    hide After;
    JobIntegrity(cfg, concurrency, run);
    BackendBySender(cfg, e.job.content);
    OrgSenderIs(cfg, e.job.content.from);
  }

  /** In particular, whoever writes from the org domain, however it is capitalised, is sent through
      Graph in every run. */
  lemma OrgDomainUsesGraph(cfg: Config, concurrency: nat, run: seq<Label>, e: Event, local: string, domain: string)
    requires e in After(cfg, concurrency, run).log && e.Attempted?
    requires e.job.content.from == local + domain && ToLower(domain) == ToLower(cfg.orgEmailDomain)
    ensures e.backend == Graph
  {
    hide After;
    BackendOfEveryAttempt(cfg, concurrency, run, e);
    assert Concat(e.job.content.from, local, domain);
  }

  /** A mail with an attachment that was never saved is accepted by no provider in any run. */
  lemma UnsavedNeverSent(cfg: Config, concurrency: nat, run: seq<Label>, e: Event)
    requires e in After(cfg, concurrency, run).log && e.Attempted? && e.accepted
    ensures e.job.mailId in After(cfg, concurrency, run).published
    ensures AllSaved(After(cfg, concurrency, run).published[e.job.mailId])
  {
    hide After, AllSaved;
    JobIntegrity(cfg, concurrency, run);
  }

  // ---- Runs in which nobody asks to cancel the mail

  predicate NobodyCancels(run: seq<Label>, id: Uuid)
  {
    forall l :: l in run ==> !(l.CancelRead? && l.mailId == id)
  }

  predicate Uncancelled(s: State, id: Uuid)
  {
    && !IsCancelled(s, id)
    && (forall c :: c in s.cancellers ==> c.mailId != id)
    && (forall e :: e in s.log && e.Skipped? ==> e.job.mailId != id)
  }

  lemma AdvanceUncancelled(cfg: Config, s: State, k: Worker, ok: bool, disk: Disk, id: Uuid)
    requires k.Busy? && !IsCancelled(s, id)
    ensures
      var e := Advance(cfg, s, k, ok, disk);
      && (id in e.rows ==> e.rows[id].status != Cancelled)
      && (forall x :: x in e.toLog && x.Skipped? ==> x.job.mailId != id)
  {
    hide SetStatus, Loadable, WorkerBackend;
    if !Loud(k.pc) {
      AdvanceQuiet(cfg, s, k, ok, disk);
    }
  }

  lemma WorkUncancelled(cfg: Config, s: State, w: nat, ok: bool, disk: Disk, id: Uuid)
    requires Uncancelled(s, id) && w < |s.workers| && s.workers[w].Busy?
    ensures Uncancelled(Commit(s, w, Advance(cfg, s, s.workers[w], ok, disk)), id)
  {
    AdvanceUncancelled(cfg, s, s.workers[w], ok, disk, id);
    hide Advance;
  }

  lemma CancelUncancelled(s: State, c: nat, ok: bool, id: Uuid)
    requires Uncancelled(s, id) && c < |s.cancellers| && s.cancellers[c].pc != CancelDone
    ensures Uncancelled(CancelStep(s, c, ok), id)
  {
    assert s.cancellers[c] in s.cancellers;
  }

  lemma UncancelledStep(cfg: Config, s: State, l: Label, id: Uuid)
    requires Uncancelled(s, id) && !(l.CancelRead? && l.mailId == id)
    ensures Uncancelled(Next(cfg, s, l), id)
  {
    match l
    case Work(w, ok, disk) =>
      WorkIs(cfg, s, w, ok, disk);
      hide Next, Uncancelled, Commit, Advance;
      if Enabled(cfg, s, l) {
        WorkUncancelled(cfg, s, w, ok, disk, id);
      }
    case Cancelling(c, ok) =>
      CancellingIs(cfg, s, c, ok);
      hide Next, Uncancelled, CancelStep;
      if Enabled(cfg, s, l) {
        CancelUncancelled(s, c, ok, id);
      }
    case Produce(p, ok) =>
      ProduceUncancelled(cfg, s, p, ok, id);
      hide Next, Uncancelled;
    case Fire(t) =>
      FireUncancelled(cfg, s, t, id);
      hide Next, Uncancelled;
    case Crash =>
      CrashUncancelled(cfg, s, id);
      hide Next, Uncancelled;
    case _ =>
      hide Advance, Unacked, Losses, Commit, CancelStep, ProduceStep;
  }

  lemma ProduceUncancelled(cfg: Config, s: State, p: nat, ok: bool, id: Uuid)
    requires Uncancelled(s, id)
    ensures Uncancelled(Next(cfg, s, Produce(p, ok)), id)
  {
    ProduceIs(cfg, s, p, ok);
    hide Next;
  }

  lemma FireUncancelled(cfg: Config, s: State, t: nat, id: Uuid)
    requires Uncancelled(s, id)
    ensures Uncancelled(Next(cfg, s, Fire(t)), id)
  {
    FireIs(cfg, s, t);
    hide Next;
  }

  lemma CrashUncancelled(cfg: Config, s: State, id: Uuid)
    requires Uncancelled(s, id)
    ensures Uncancelled(Next(cfg, s, Crash), id)
  {
    hide Advance, Unacked, Commit, CancelStep, ProduceStep;
  }

  lemma {:induction false} StaysUncancelled(cfg: Config, concurrency: nat, run: seq<Label>, id: Uuid)
    requires NobodyCancels(run, id)
    ensures Uncancelled(After(cfg, concurrency, run), id)
  {
    hide Next;
    if run != [] {
      assert run[|run| - 1] in run;
      StaysUncancelled(cfg, concurrency, run[..|run| - 1], id);
      UncancelledStep(cfg, After(cfg, concurrency, run[..|run| - 1]), run[|run| - 1], id);
    }
  }

  /** Without failures and without a cancellation, such a mail ends up in the failed queue after
      exactly the limit of attempts. */
  lemma UnsavedFails(cfg: Config, concurrency: nat, run: seq<Label>, id: Uuid)
    requires concurrency >= 1 && Calm(run) && NobodyCancels(run, id)
    requires Quiescent(cfg, After(cfg, concurrency, run))
    requires id in After(cfg, concurrency, run).published
    requires !AllSaved(After(cfg, concurrency, run).published[id])
    ensures Among(After(cfg, concurrency, run).failed, id)
    ensures Attempts(After(cfg, concurrency, run), id) == if cfg.maxRetryCount <= 1 then 1 else cfg.maxRetryCount
  {
    var s := After(cfg, concurrency, run);
    hide After, Quiescent, AllSaved, Attempts;
    EveryMailSettles(cfg, concurrency, run, id);
    StaysUncancelled(cfg, concurrency, run, id);
    if Finished(s, id) {
      var e :| e in s.log && Retires(e, id);
      UnsavedNeverSent(cfg, concurrency, run, e);
    }
    var job :| job in s.failed && job.mailId == id;
    AttemptsOfJob(cfg, concurrency, run, job);
  }
}
