/** How a mail comes to have more than one owner, and when it can be accepted more than once. */
module Duplication {
  import opened Models
  import opened Routing
  import opened Sums
  import opened Lifecycle
  import opened Tokens
  import opened Integrity
  import opened Cancellation
  import opened StatusCache
  import opened StatusReports

  // ---- The account of all owners, over whole runs

  /** The owners added by the steps of a run although nothing was published. */
  function CopiesMade(cfg: Config, concurrency: nat, run: seq<Label>, id: Uuid): int
  {
    if run == [] then 0
    else
      var before := run[..|run| - 1];
      CopiesMade(cfg, concurrency, before, id) + Copies(After(cfg, concurrency, before), run[|run| - 1], id)
  }

  function DropsMade(cfg: Config, concurrency: nat, run: seq<Label>, id: Uuid): int
  {
    if run == [] then 0
    else
      var before := run[..|run| - 1];
      DropsMade(cfg, concurrency, before, id) + Dropped(After(cfg, concurrency, before), run[|run| - 1], id)
  }

  /** In every run, whatever fails, a mail has one owner for its publication, one more for each copy
      a step of the run made, and one fewer for each timer a step of the run dropped. */
  lemma {:induction false} Accounting(cfg: Config, concurrency: nat, run: seq<Label>, id: Uuid)
    ensures
      var s := After(cfg, concurrency, run);
      Owners(s, id) ==
      (if id in s.published then 1 else 0)
      + CopiesMade(cfg, concurrency, run, id) - DropsMade(cfg, concurrency, run, id)
    ensures CopiesMade(cfg, concurrency, run, id) >= 0 && DropsMade(cfg, concurrency, run, id) >= 0
  {
    hide Next, Owners, Held, Provenance, Publishes, Copies, Dropped;
    if run == [] {
      InitOwners(concurrency, id);
    } else {
      var before := run[..|run| - 1];
      var s := After(cfg, concurrency, before);
      Accounting(cfg, concurrency, before, id);
      Invariants(cfg, concurrency, before);
      StepTokens(cfg, s, run[|run| - 1], id);
      PublishedStep(cfg, s, run[|run| - 1], id);
    }
  }

  /** A crash or a closing channel finds a delivery unacknowledged whose mail has been handed on
      already, or a worker whose channel is closed hands its mail on. */
  predicate MakesCopy(s: State, l: Label, id: Uuid)
  {
    || ((l.Crash? || (l.CloseChannel? && s.channelOpen)) && exists k :: k in s.workers && HandedOn(k, id))
    || (l.Work? && !s.channelOpen && l.worker < |s.workers| && s.workers[l.worker].Busy?
        && s.workers[l.worker].msg.mailId == id && HandsOn(s, s.workers[l.worker], l.ok, l.disk))
  }

  lemma CopiesArePlaces(s: State, l: Label, id: Uuid)
    ensures Copies(s, l, id) > 0 <==> MakesCopy(s, l, id)
  {
    hide HandsOn, Sum;
    SumNonNegative(s.workers, HandedOnIs(id));
    if Sum(s.workers, HandedOnIs(id)) > 0 {
      var i := SumWitness(s.workers, HandedOnIs(id));
      assert s.workers[i] in s.workers;
    }
    if k :| k in s.workers && HandedOn(k, id) {
      var i: nat :| i < |s.workers| && s.workers[i] == k;
      SumAtLeast(s.workers, i, HandedOnIs(id));
    }
  }

  /** In any run, whatever has failed before, a step gives a mail a further owner exactly if it
      publishes the mail or makes a copy, and it leaves more owners than before exactly if the
      copies outnumber the timers it drops. */
  lemma DuplicatesExactly(cfg: Config, concurrency: nat, run: seq<Label>, l: Label, id: Uuid)
    ensures
      var s := After(cfg, concurrency, run);
      var t := Next(cfg, s, l);
      && (Owners(t, id) + Dropped(s, l, id) > Owners(s, id) <==> Publishes(s, l, id) || MakesCopy(s, l, id))
      && (Owners(t, id) > Owners(s, id) <==> Publishes(s, l, id) || Copies(s, l, id) > Dropped(s, l, id))
  {
    var s := After(cfg, concurrency, run);
    Invariants(cfg, concurrency, run);
    StepTokens(cfg, s, l, id);
    CopiesArePlaces(s, l, id);
    PublishCopiesNothing(s, l, id);
    hide After, Next, Owners, Held, Provenance, Publishes, MakesCopy, Copies, Dropped;
  }

  lemma PublishCopiesNothing(s: State, l: Label, id: Uuid)
    ensures Publishes(s, l, id) ==> Copies(s, l, id) == 0 && Dropped(s, l, id) == 0
  {
  }

  /** A mail with two owners goes back to a step of the run that made a copy. */
  lemma TwoOwnersNeedCopy(cfg: Config, concurrency: nat, run: seq<Label>, id: Uuid) returns (i: nat)
    requires Owners(After(cfg, concurrency, run), id) >= 2
    ensures i < |run| && MakesCopy(After(cfg, concurrency, run[..i]), run[i], id)
  {
    Accounting(cfg, concurrency, run, id);
    hide After, Owners;
    i := CopyStep(cfg, concurrency, run, id);
  }

  lemma {:induction false} CopyStep(cfg: Config, concurrency: nat, run: seq<Label>, id: Uuid) returns (i: nat)
    requires CopiesMade(cfg, concurrency, run, id) > 0
    ensures i < |run| && MakesCopy(After(cfg, concurrency, run[..i]), run[i], id)
  {
    hide After, Copies, MakesCopy;
    var before := run[..|run| - 1];
    if CopiesMade(cfg, concurrency, before, id) > 0 {
      i := CopyStep(cfg, concurrency, before, id);
      assert run[..i] == before[..i];
    } else {
      i := |run| - 1;
      CopiesArePlaces(After(cfg, concurrency, before), run[i], id);
    }
  }

  // ---- Acceptances

  /** Every acceptance is an owner. */
  lemma DeliveriesAreOwners(s: State, id: Uuid)
    ensures Deliveries(s, id) <= Owners(s, id)
  {
    SumNonNegative(s.queue, JobIs(id));
    SumNonNegative(s.timers, JobIs(id));
    SumNonNegative(s.failed, JobIs(id));
    SumNonNegative(s.workers, OwnedBy(id));
    SumBound(s.log, AcceptedIs(id), 1, RetiredIs(id));
  }

  /** Without crashes and closed channels no mail is accepted by a provider more than once. */
  lemma AcceptedAtMostOnce(cfg: Config, concurrency: nat, run: seq<Label>, id: Uuid)
    requires Calm(run)
    ensures Deliveries(After(cfg, concurrency, run), id) <= 1
  {
    Conservation(cfg, concurrency, run, id);
    DeliveriesAreOwners(After(cfg, concurrency, run), id);
    hide After, Owners, Deliveries;
  }

  /** In every run the acceptances beyond the first are at most the copies made. */
  lemma AcceptancesNeedCopies(cfg: Config, concurrency: nat, run: seq<Label>, id: Uuid)
    ensures Deliveries(After(cfg, concurrency, run), id) <= 1 + CopiesMade(cfg, concurrency, run, id)
  {
    Accounting(cfg, concurrency, run, id);
    DeliveriesAreOwners(After(cfg, concurrency, run), id);
    hide After, Owners, Deliveries;
  }

  // ---- Copies do get sent

  lemma {:induction false} UnackedHas(workers: seq<Worker>, w: nat) returns (i: nat)
    requires w < |workers| && workers[w].Busy? && workers[w].unacked
    ensures i < |Unacked(workers)| && Unacked(workers)[i] == workers[w].msg
  {
    if w == |workers| - 1 {
      i := |Unacked(workers)| - 1;
    } else {
      i := UnackedHas(workers[..|workers| - 1], w);
    }
  }

  lemma CrashKeepsDeliveries(cfg: Config, s: State, id: Uuid)
    ensures Deliveries(Next(cfg, s, Crash), id) == Deliveries(s, id)
  {
    CrashIs(cfg, s);
    hide Next, Sum;
    SumConcat(s.log, Losses(s.timers), AcceptedIs(id));
    SumZero(Losses(s.timers), AcceptedIs(id));
  }

  /** Redelivery after a crash, up to the send. */
  function Redelivery(i: nat, disk: Disk): seq<Label>
  {
    [Crash, Deliver(0, i)] + Calls(0, disk, 5) + [Work(0, true, disk)]
  }

  lemma RedeliveryIs(cfg: Config, s: State, i: nat, disk: Disk)
    ensures
      Exec(cfg, s, Redelivery(i, disk)) ==
      Next(cfg, Drive(cfg, Next(cfg, Next(cfg, s, Crash), Deliver(0, i)), 0, disk, 5), Work(0, true, disk))
  {
    hide Next;
    ExecTwo(cfg, s, Crash, Deliver(0, i));
    ExecConcat(cfg, s, [Crash, Deliver(0, i)], Calls(0, disk, 5));
    ExecDrive(cfg, Exec(cfg, s, [Crash, Deliver(0, i)]), 0, disk, 5);
    ExecStep(cfg, s, [Crash, Deliver(0, i)] + Calls(0, disk, 5), Work(0, true, disk));
  }

  /** From any state: if a worker holds a delivery unacknowledged whose attachments were saved and
      whose row is not cancelled, then after a crash a provider can accept the mail once more, however
      often it has been accepted before. */
  lemma CanBeAcceptedAgain(cfg: Config, s: State, w: nat, id: Uuid) returns (run: seq<Label>)
    requires w < |s.workers| && s.workers[w].Busy? && s.workers[w].unacked && s.workers[w].msg.mailId == id
    requires id in s.rows && s.rows[id].status != Cancelled && AllSaved(s.workers[w].msg.content)
    ensures Deliveries(Exec(cfg, s, run), id) == Deliveries(s, id) + 1
  {
    hide Next, Drive, Redelivery, DiskFor, Unacked, Exec, Loadable, AllSaved, Deliveries;
    var msg := s.workers[w].msg;
    var disk := DiskFor(msg.content);
    DiskLoads(msg.content);
    var i := UnackedHas(s.workers, w);
    run := Redelivery(|s.queue| + i, disk);
    RedeliveryIs(cfg, s, |s.queue| + i, disk);
    var s2 := Next(cfg, Next(cfg, s, Crash), Deliver(0, |s.queue| + i));
    Redelivered(cfg, s, i, id);
    StartedAndAccepted(cfg, s2, disk, id);
  }

  lemma StartedAndAccepted(cfg: Config, s: State, disk: Disk, id: Uuid)
    requires s.workers != [] && s.workers[0].Busy? && s.workers[0].pc == TestShutdown && s.workers[0].msg.mailId == id
    requires !s.isShutdown && id in s.rows && s.rows[id].status != Cancelled
    requires Loadable(s.workers[0].msg.content, disk)
    ensures
      Deliveries(Next(cfg, Drive(cfg, s, 0, disk, 5), Work(0, true, disk)), id) == Deliveries(s, id) + 1
  {
    DriveStart(cfg, s, 0, disk);
    hide Drive, Next, Loadable, SetRowStatus;
    AcceptedSend(cfg, Drive(cfg, s, 0, disk, 5), 0, disk, id);
    SameLog(Drive(cfg, s, 0, disk, 5), s, id);
  }

  /** The state after a crash and the redelivery of one of the deliveries the broker took back. */
  lemma Redelivered(cfg: Config, s: State, i: nat, id: Uuid)
    requires i < |Unacked(s.workers)| && s.workers != []
    ensures
      var msg := Unacked(s.workers)[i];
      var t := Next(cfg, Next(cfg, s, Crash), Deliver(0, |s.queue| + i));
      && t.workers != [] && t.workers[0] == Busy(TestShutdown, msg, msg.retryCount, true)
      && t.rows == s.rows && !t.isShutdown && Deliveries(t, id) == Deliveries(s, id)
  {
    var s1 := Next(cfg, s, Crash);
    CrashIs(cfg, s);
    CrashKeepsDeliveries(cfg, s, id);
    hide Next, Losses, Unacked, Deliveries;
    DeliverIs(cfg, s1, 0, |s.queue| + i);
    SameLog(Next(cfg, s1, Deliver(0, |s.queue| + i)), s1, id);
  }

  lemma SameLog(s: State, t: State, id: Uuid)
    requires s.log == t.log
    ensures Deliveries(s, id) == Deliveries(t, id)
  {
  }

  lemma AcceptedSend(cfg: Config, s: State, w: nat, disk: Disk, id: Uuid)
    requires w < |s.workers| && s.workers[w].Busy? && s.workers[w].pc == Send && s.workers[w].msg.mailId == id
    requires Loadable(s.workers[w].msg.content, disk)
    ensures
      var t := Next(cfg, s, Work(w, true, disk));
      && Deliveries(t, id) == Deliveries(s, id) + 1
      && t.rows == s.rows && t.workers == s.workers[w := s.workers[w].(pc := SentRow)]
  {
    WorkIs(cfg, s, w, true, disk);
    hide Next, Sum, Loadable;
    var e := Attempted(s.workers[w].Job(), WorkerBackend(cfg, s.workers[w].msg.content), true);
    SumConcat(s.log, [e], AcceptedIs(id));
    SumOne(e, AcceptedIs(id));
  }

  /** So at-least-once is not exactly-once: a run in which one mail is accepted twice, because the
      process dies between the provider's answer and the acknowledgement. */
  lemma AcceptedTwice(cfg: Config, content: MailContent, clientId: string) returns (run: seq<Label>)
    requires content.attachments == [] && content.senderConfigId.None?
    ensures Deliveries(After(cfg, 1, run), 0) == 2
  {
    var l0 := [Create(0, content, clientId), Produce(0, true), Deliver(0, 0)];
    var work := Work(0, true, map[]);
    var first := l0 + Calls(0, map[], 5) + [work];
    var s0 := After(cfg, 1, l0);
    FreshDelivery(cfg, content, clientId);
    hide Next;
    ExecConcat(cfg, Init(1), l0, Calls(0, map[], 5));
    ExecDrive(cfg, s0, 0, map[], 5);
    ExecStep(cfg, Init(1), l0 + Calls(0, map[], 5), work);
    DriveStart(cfg, s0, 0, map[]);
    var s1 := Drive(cfg, s0, 0, map[], 5);
    hide Drive, Exec, Calls;
    AcceptedSend(cfg, s1, 0, map[], 0);
    SameLog(s1, s0, 0);
    var s2 := After(cfg, 1, first);
    assert s2 == Next(cfg, s1, work);
    var rest := CanBeAcceptedAgain(cfg, s2, 0, 0);
    run := first + rest;
    ExecConcat(cfg, Init(1), first, rest);
  }
}
