/** Where a published mail can be, and precisely which mails a failure makes disappear. */
module Survival {
  import opened Models
  import opened Sums
  import opened Lifecycle
  import opened Tokens

  predicate Among(jobs: seq<MailJob>, id: Uuid)
  {
    exists j :: j in jobs && j.mailId == id
  }

  predicate HeldByWorker(s: State, id: Uuid)
  {
    exists k :: k in s.workers && k.Busy? && k.unacked && k.msg.mailId == id
  }

  predicate Finished(s: State, id: Uuid)
  {
    exists e :: e in s.log && Retires(e, id)
  }

  predicate WasLost(s: State, id: Uuid)
  {
    exists e :: e in s.log && e.Lost? && e.job.mailId == id
  }

  /** Queued, unacked, waiting in a timer, in the failed queue, accepted or skipped. */
  predicate Present(s: State, id: Uuid)
  {
    Among(s.queue, id) || HeldByWorker(s, id) || Among(s.timers, id) || Among(s.failed, id) || Finished(s, id)
  }

  // ---- Counts and places

  lemma AmongCount(jobs: seq<MailJob>, id: Uuid)
    ensures Among(jobs, id) <==> Sum(jobs, JobIs(id)) > 0
    ensures Sum(jobs, JobIs(id)) >= 0
  {
    SumNonNegative(jobs, JobIs(id));
    if Sum(jobs, JobIs(id)) > 0 {
      var i := SumWitness(jobs, JobIs(id));
      assert jobs[i] in jobs;
    }
    if Among(jobs, id) {
      var i: nat :| i < |jobs| && jobs[i].mailId == id;
      SumAtLeast(jobs, i, JobIs(id));
    }
  }

  lemma HeldCount(s: State, id: Uuid)
    ensures HeldByWorker(s, id) <==> Sum(s.workers, UnackedIs(id)) > 0
  {
    if Sum(s.workers, UnackedIs(id)) > 0 {
      var i := SumWitness(s.workers, UnackedIs(id));
      assert s.workers[i] in s.workers;
    }
    if HeldByWorker(s, id) {
      var i: nat :| i < |s.workers| && s.workers[i].Busy? && s.workers[i].unacked && s.workers[i].msg.mailId == id;
      SumAtLeast(s.workers, i, UnackedIs(id));
    }
  }

  lemma RetiredCount(s: State, id: Uuid)
    ensures Finished(s, id) <==> Sum(s.log, RetiredIs(id)) > 0
    ensures Sum(s.log, RetiredIs(id)) >= 0
  {
    SumNonNegative(s.log, RetiredIs(id));
    if Sum(s.log, RetiredIs(id)) > 0 {
      var i := SumWitness(s.log, RetiredIs(id));
      assert s.log[i] in s.log;
    }
    if Finished(s, id) {
      var i: nat :| i < |s.log| && Retires(s.log[i], id);
      SumAtLeast(s.log, i, RetiredIs(id));
    }
  }

  lemma OwnersArePlaces(s: State, id: Uuid)
    requires Owners(s, id) >= 1
    ensures Present(s, id)
  {
    hide Sum, Among, HeldByWorker, Finished;
    AmongCount(s.queue, id);
    AmongCount(s.timers, id);
    AmongCount(s.failed, id);
    UnackedCount(s.workers, id);
    HeldCount(s, id);
    RetiredCount(s, id);
  }

  /** Every place but a worker's hands counts as an owner. */
  lemma PlacesAreOwners(s: State, id: Uuid)
    requires Among(s.queue, id) || Among(s.timers, id) || Among(s.failed, id) || Finished(s, id)
    ensures Owners(s, id) >= 1
  {
    hide Sum, Among, HeldByWorker, Finished;
    AmongCount(s.queue, id);
    AmongCount(s.timers, id);
    AmongCount(s.failed, id);
    RetiredCount(s, id);
    SumNonNegative(s.workers, OwnedBy(id));
  }

  // ---- The only way to be lost

  /** The step drops this job: its timer dies with the process, or fires into a closed channel. */
  predicate Drops(s: State, l: Label, job: MailJob)
  {
    || (l.Crash? && job in s.timers)
    || (l.Fire? && !s.channelOpen && l.timer < |s.timers| && s.timers[l.timer] == job)
  }

  lemma AdvanceLosesNothing(cfg: Config, s: State, k: Worker, ok: bool, disk: Disk)
    requires k.Busy?
    ensures forall e :: e in Advance(cfg, s, k, ok, disk).toLog ==> !e.Lost?
  {
    if !Loud(k.pc) {
      AdvanceQuiet(cfg, s, k, ok, disk);
    }
  }

  lemma LossStep(cfg: Config, s: State, l: Label, job: MailJob)
    requires Lost(job) in Next(cfg, s, l).log && Lost(job) !in s.log
    ensures Drops(s, l, job)
  {
    hide Advance, Unacked;
    if Enabled(cfg, s, l) && l.Work? {
      AdvanceLosesNothing(cfg, s, s.workers[l.worker], l.ok, l.disk);
    }
  }

  /** Every lost timer on record was a job waiting in a timer when the process died, or when the
      timer fired into a closed channel. Whether the mail itself survives is settled below. */
  lemma {:induction false} LossCause(cfg: Config, concurrency: nat, run: seq<Label>, job: MailJob)
    returns (i: nat)
    requires Lost(job) in After(cfg, concurrency, run).log
    ensures i < |run| && Drops(After(cfg, concurrency, run[..i]), run[i], job)
  {
    hide Next, Drops;
    var before := run[..|run| - 1];
    var s := After(cfg, concurrency, before);
    if Lost(job) in s.log {
      i := LossCause(cfg, concurrency, before, job);
      assert run[..i] == before[..i];
    } else {
      i := |run| - 1;
      LossStep(cfg, s, run[i], job);
    }
  }

  lemma CalmLosesNothing(cfg: Config, concurrency: nat, run: seq<Label>, id: Uuid)
    requires Calm(run)
    ensures !WasLost(After(cfg, concurrency, run), id)
  {
    hide Next;
    if WasLost(After(cfg, concurrency, run), id) {
      var e :| e in After(cfg, concurrency, run).log && e.Lost? && e.job.mailId == id;
      var i := LossCause(cfg, concurrency, run, e.job);
      Invariants(cfg, concurrency, run[..i]);
      assert false;
    }
  }

  // ---- Exactly which mails a step makes disappear

  /** After a crash only the queue, the unacknowledged deliveries, the failed queue and the finished
      mails remain. */
  lemma CrashPlaces(cfg: Config, s: State, id: Uuid)
    ensures
      Present(Next(cfg, s, Crash), id) <==>
      Among(s.queue, id) || HeldByWorker(s, id) || Among(s.failed, id) || Finished(s, id)
  {
    hide Advance, Among, Sum;
    var t := Next(cfg, s, Crash);
    UnackedCount(s.workers, id);
    SumConcat(s.queue, Unacked(s.workers), JobIs(id));
    AmongCount(t.queue, id);
    AmongCount(s.queue, id);
    AmongCount(Unacked(s.workers), id);
    AmongCount(t.timers, id);
    SumEmpty(JobIs(id));
    HeldCount(s, id);
    assert forall k :: k in t.workers ==> k.Idle?;
    assert forall e :: e in Losses(s.timers) ==> e.Lost?;
    assert forall e :: e in s.log ==> e in t.log;
  }

  function OtherTimers(s: State, t: nat): seq<MailJob>
    requires t < |s.timers|
  {
    s.timers[..t] + s.timers[t + 1..]
  }

  /** A timer that fires into a closed channel leaves everything but itself. */
  lemma ClosedFirePlaces(cfg: Config, s: State, t: nat, id: Uuid)
    requires !s.channelOpen && t < |s.timers|
    ensures
      Present(Next(cfg, s, Fire(t)), id) <==>
      Among(s.queue, id) || HeldByWorker(s, id) || Among(OtherTimers(s, t), id) || Among(s.failed, id) || Finished(s, id)
  {
    FireIs(cfg, s, t);
    hide Next, Among;
    assert forall e :: e in s.log ==> e in (s.log + [Lost(s.timers[t])]);
  }

  /** The step drops the only place left to the mail: a timer whose delivery has been acknowledged,
      while the mail is neither queued nor failed nor finished. */
  predicate DropsLastPlace(s: State, l: Label, id: Uuid)
  {
    && Among(s.timers, id)
    && !HeldByWorker(s, id) && !Among(s.queue, id) && !Among(s.failed, id) && !Finished(s, id)
    && (l.Crash? || ClosesLastTimer(s, l, id))
  }

  predicate ClosesLastTimer(s: State, l: Label, id: Uuid)
  {
    l.Fire? && !s.channelOpen && l.timer < |s.timers| && !Among(OtherTimers(s, l.timer), id)
  }

  /** A worker gets hold of a mail only by taking it from the queue of an open channel. */
  lemma HeldBefore(cfg: Config, s: State, l: Label, id: Uuid)
    requires Held(s) && HeldByWorker(Next(cfg, s, l), id)
    ensures s.channelOpen && !l.Crash? && !l.CloseChannel?
    ensures HeldByWorker(s, id) || Among(s.queue, id)
  {
    hide Advance, Unacked, Losses;
    if l.Work? {
      WorkHeldBefore(cfg, s, l.worker, l.ok, l.disk, id);
    } else {
      var t := Next(cfg, s, l);
      var k :| k in t.workers && k.Busy? && k.unacked && k.msg.mailId == id;
      var w: nat :| w < |t.workers| && t.workers[w] == k;
      assert s.workers[w] in s.workers;
      if l.Deliver? && Enabled(cfg, s, l) {
        assert s.queue[l.index] in s.queue;
      }
    }
  }

  lemma WorkHeldBefore(cfg: Config, s: State, w: nat, ok: bool, disk: Disk, id: Uuid)
    requires Held(s) && HeldByWorker(Next(cfg, s, Work(w, ok, disk)), id)
    ensures s.channelOpen && HeldByWorker(s, id)
  {
    WorkIs(cfg, s, w, ok, disk);
    hide Next, Advance;
    if Enabled(cfg, s, Work(w, ok, disk)) {
      assert s.workers[w] in s.workers;
      AdvanceMsg(cfg, s, s.workers[w], ok, disk);
    }
  }

  lemma AdvanceMsg(cfg: Config, s: State, k: Worker, ok: bool, disk: Disk)
    requires k.Busy?
    ensures
      var k' := Advance(cfg, s, k, ok, disk).worker;
      k'.Busy? ==> k'.msg == k.msg && (k'.unacked ==> k.unacked)
  {
  }

  /** In no run is a worker the only one to know a mail it has already handed on. */
  lemma {:induction false} HeldIsOwned(cfg: Config, concurrency: nat, run: seq<Label>, id: Uuid)
    requires HeldByWorker(After(cfg, concurrency, run), id)
    ensures Owners(After(cfg, concurrency, run), id) >= 1
  {
    hide Next, Owners, Held, Provenance, Publishes, HeldByWorker, Among;
    if run == [] {
      NobodyHeld(concurrency, id);
    } else {
      var before := run[..|run| - 1];
      var s := After(cfg, concurrency, before);
      var l := run[|run| - 1];
      Invariants(cfg, concurrency, before);
      HeldBefore(cfg, s, l, id);
      if HeldByWorker(s, id) {
        HeldIsOwned(cfg, concurrency, before, id);
      } else {
        PlacesAreOwners(s, id);
      }
      StepTokens(cfg, s, l, id);
    }
  }

  lemma NobodyHeld(concurrency: nat, id: Uuid)
    ensures !HeldByWorker(Init(concurrency), id)
  {
  }

  /** In every reachable state a mail is present exactly if it has an owner. */
  lemma PresentIsOwned(cfg: Config, concurrency: nat, run: seq<Label>, id: Uuid)
    ensures Present(After(cfg, concurrency, run), id) <==> Owners(After(cfg, concurrency, run), id) >= 1
  {
    var s := After(cfg, concurrency, run);
    hide After, Owners, Among, Finished, HeldByWorker;
    if Owners(s, id) >= 1 {
      OwnersArePlaces(s, id);
    } else if HeldByWorker(s, id) {
      HeldIsOwned(cfg, concurrency, run, id);
    } else if Present(s, id) {
      PlacesAreOwners(s, id);
    }
  }

  /** In any run, whatever has failed before, a step makes a mail disappear exactly if it drops a
      timer that is the last place left to the mail. */
  lemma VanishesExactly(cfg: Config, concurrency: nat, run: seq<Label>, l: Label, id: Uuid)
    ensures
      var s := After(cfg, concurrency, run);
      Present(s, id) && !Present(Next(cfg, s, l), id) <==> DropsLastPlace(s, l, id)
  {
    var s := After(cfg, concurrency, run);
    Invariants(cfg, concurrency, run);
    PresentIsOwned(cfg, concurrency, run, id);
    StepTokens(cfg, s, l, id);
    hide After, Next, Owners, Held, Provenance, Among, Finished, HeldByWorker, Publishes;
    if l.Crash? {
      CrashPlaces(cfg, s, id);
    } else if l.Fire? && !s.channelOpen && l.timer < |s.timers| {
      ClosedFirePlaces(cfg, s, l.timer, id);
      TimersSplit(s, l.timer, id);
    } else if Owners(s, id) >= 1 {
      OwnersArePlaces(Next(cfg, s, l), id);
    }
  }

  lemma TimersSplit(s: State, t: nat, id: Uuid)
    requires t < |s.timers|
    ensures Among(s.timers, id) <==> Among(OtherTimers(s, t), id) || s.timers[t].mailId == id
  {
    assert s.timers == s.timers[..t] + [s.timers[t]] + s.timers[t + 1..];
    forall j | j in s.timers && j.mailId == id && s.timers[t].mailId != id
      ensures j in OtherTimers(s, t)
    {
    }
  }

  /** In every run, with any number of crashes, closed channels and shutdowns, a published mail is
      still somewhere, unless some step dropped a timer that was the last place left to it. */
  lemma {:induction false} NothingVanishes(cfg: Config, concurrency: nat, run: seq<Label>, id: Uuid)
    returns (i: nat)
    requires id in After(cfg, concurrency, run).published
    requires !Present(After(cfg, concurrency, run), id)
    ensures i < |run| && DropsLastPlace(After(cfg, concurrency, run[..i]), run[i], id)
    ensures !Present(After(cfg, concurrency, run[..i + 1]), id)
  {
    hide Next, Present, Owners, Held, Provenance, Publishes, DropsLastPlace;
    var before := run[..|run| - 1];
    var s := After(cfg, concurrency, before);
    var l := run[|run| - 1];
    if id in s.published && !Present(s, id) {
      i := NothingVanishes(cfg, concurrency, before, id);
      assert run[..i] == before[..i] && run[..i + 1] == before[..i + 1];
    } else {
      i := |run| - 1;
      assert run[..i + 1] == run;
      if !Present(s, id) {
        Invariants(cfg, concurrency, before);
        PublishedStep(cfg, s, l, id);
        StepTokens(cfg, s, l, id);
        PublishDropsNothing(s, l, id);
        OwnersNonNegative(s, id);
        OwnersArePlaces(Next(cfg, s, l), id);
      }
      VanishesExactly(cfg, concurrency, before, l, id);
    }
  }

  /** Without crashes and closed channels a published mail is always somewhere. */
  lemma CalmPresent(cfg: Config, concurrency: nat, run: seq<Label>, id: Uuid)
    requires Calm(run) && id in After(cfg, concurrency, run).published
    ensures Present(After(cfg, concurrency, run), id)
  {
    Conservation(cfg, concurrency, run, id);
    OwnersArePlaces(After(cfg, concurrency, run), id);
    hide After, Owners, Present;
  }

  /** A mail that sits in a timer has no other owner. */
  lemma TimerIsAlone(s: State, id: Uuid)
    requires Owners(s, id) == 1 && Among(s.timers, id)
    ensures !Among(s.queue, id) && !Among(s.failed, id) && !Finished(s, id)
  {
    hide Sum, Among, Finished;
    AmongCount(s.queue, id);
    AmongCount(s.timers, id);
    AmongCount(s.failed, id);
    RetiredCount(s, id);
    SumNonNegative(s.workers, OwnedBy(id));
  }

  /** After a calm run the condition is shorter: a crash loses a published mail exactly when the mail
      waits in a timer and the delivery it was scheduled from has been acknowledged. */
  lemma CrashLosesExactly(cfg: Config, concurrency: nat, run: seq<Label>, id: Uuid)
    requires Calm(run) && id in After(cfg, concurrency, run).published
    ensures
      var s := After(cfg, concurrency, run);
      !Present(Next(cfg, s, Crash), id) <==> Among(s.timers, id) && !HeldByWorker(s, id)
  {
    var s := After(cfg, concurrency, run);
    Conservation(cfg, concurrency, run, id);
    CalmPresent(cfg, concurrency, run, id);
    VanishesExactly(cfg, concurrency, run, Crash, id);
    hide After, Next, Owners, Among, HeldByWorker, Finished;
    if Among(s.timers, id) {
      TimerIsAlone(s, id);
    }
  }
}
