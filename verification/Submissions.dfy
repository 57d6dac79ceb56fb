/** What a submission handler does to the shared records, as steps of the mail life cycle. */
module Submissions {
  import opened Models
  import opened Routing
  import opened Lifecycle

  /** The producer's three steps, taken in a row: insert the row, publish, and the last write, which
      is the cache entry or, if publishing failed, the update of the row to `failed`. */
  function Steps(cfg: Config, s: State, job: MailJob, clientId: string, publishOk: bool, lastOk: bool): State
  {
    var n := |s.producers|;
    Next(cfg, Next(cfg, Next(cfg, s, Create(job.mailId, job.content, clientId)), Produce(n, publishOk)),
         Produce(n, lastOk))
  }

  /** The state they lead to, if the submission is possible. */
  function Submission(s: State, job: MailJob, clientId: string, publishOk: bool, lastOk: bool): State
  {
    var id := job.mailId;
    s.(rows := s.rows[id := Row(if publishOk || !lastOk then Queued else Failed, 0, clientId)],
       producers := s.producers + [Producer(Submitted, id, job.content)],
       queue := if publishOk then s.queue + [MailJob(id, job.content, 0)] else s.queue,
       published := if publishOk then s.published[id := job.content] else s.published,
       cache := if publishOk && lastOk then s.cache[id := CacheEntry(Queued, 0)] else s.cache)
  }

  lemma StepsAre(cfg: Config, s: State, job: MailJob, clientId: string, publishOk: bool, lastOk: bool)
    requires Enabled(cfg, s, Create(job.mailId, job.content, clientId))
    ensures Steps(cfg, s, job, clientId, publishOk, lastOk) == Submission(s, job, clientId, publishOk, lastOk)
  {
    var n := |s.producers|;
    var s1 := Next(cfg, s, Create(job.mailId, job.content, clientId));
    var s2 := Next(cfg, s1, Produce(n, publishOk));
    CreateIs(cfg, s, job.mailId, job.content, clientId);
    ProduceIs(cfg, s1, n, publishOk);
    ProduceIs(cfg, s2, n, lastOk);
    hide Next;
    LastStep(s1, n, job.mailId, job.content, publishOk, lastOk);
    assert s1.producers[n := Producer(Submitted, job.mailId, job.content)] ==
      s.producers + [Producer(Submitted, job.mailId, job.content)];
    hide ProduceStep;
  }

  /** Publishing and the last write of a producer that is about to publish. */
  lemma LastStep(s: State, n: nat, id: Uuid, content: MailContent, publishOk: bool, lastOk: bool)
    requires n < |s.producers| && s.producers[n] == Producer(ToPublish, id, content) && id in s.rows
    ensures
      var t := ProduceStep(s, n, publishOk);
      && n < |t.producers| && t.producers[n].pc != Submitted
      && ProduceStep(t, n, lastOk) ==
         s.(producers := s.producers[n := Producer(Submitted, id, content)],
            rows := if !publishOk && lastOk then s.rows[id := s.rows[id].(status := Failed)] else s.rows,
            queue := if publishOk then s.queue + [MailJob(id, content, 0)] else s.queue,
            published := if publishOk then s.published[id := content] else s.published,
            cache := if publishOk && lastOk then s.cache[id := CacheEntry(Queued, 0)] else s.cache)
  {
    assert s.producers[n := ProduceStep(s, n, publishOk).producers[n]][n := Producer(Submitted, id, content)] ==
      s.producers[n := Producer(Submitted, id, content)];
  }

  /** The records that a handler shares with the rest of the system. */
  datatype Records = Records(rows: map<Uuid, Row>, cache: map<Uuid, CacheEntry>, queue: seq<MailJob>)

  function RecordsOf(s: State): Records
  {
    Records(s.rows, s.cache, s.queue)
  }

  /** Whatever the rest of the system, the records change as in the producer's three steps. */
  ghost predicate Submits(cfg: Config, before: Records, after: Records, job: MailJob, clientId: string,
                          publishOk: bool, lastOk: bool)
  {
    forall s: State :: RecordsOf(s) == before ==>
      RecordsOf(Steps(cfg, s, job, clientId, publishOk, lastOk)) == after
  }

  lemma SubmitsExactly(cfg: Config, before: Records, after: Records, job: MailJob, clientId: string,
                       publishOk: bool, lastOk: bool)
    requires job.mailId !in before.rows && Submittable(cfg, job.content)
    requires after.rows == before.rows[job.mailId := Row(if publishOk || !lastOk then Queued else Failed, 0, clientId)]
    requires after.cache == if publishOk && lastOk then before.cache[job.mailId := CacheEntry(Queued, 0)] else before.cache
    requires after.queue == if publishOk then before.queue + [MailJob(job.mailId, job.content, 0)] else before.queue
    ensures Submits(cfg, before, after, job, clientId, publishOk, lastOk)
  {
    hide Steps, Submittable;
    forall s: State | RecordsOf(s) == before
      ensures RecordsOf(Steps(cfg, s, job, clientId, publishOk, lastOk)) == after
    {
      assert Enabled(cfg, s, Create(job.mailId, job.content, clientId));
      StepsAre(cfg, s, job, clientId, publishOk, lastOk);
    }
  }
}
