/**
 The OAuth token cache: any number of threads calling `GetAccessToken` on one service, with its
 RWMutex, the double check and a clock. Reading the clock, taking or releasing the lock, checking,
 fetching and each of the two field writes are separate steps. Times are in nanoseconds.
 */
module OAuth {
  import opened Models

  const SECOND: int := 1_000_000_000

  /** Tokens are refreshed this long before they expire. */
  const MARGIN: int := 60 * SECOND

  /** A successful answer of the token endpoint, and the server's time of issue. */
  datatype Response = Response(token: string, expiresIn: int, issuedAt: int)

  datatype Pc =
    | Outside
    | WantRead
    | Reading
    | FastHit
    | FastMiss
    | WantWrite
    | Checking
    | Fetching
    | WriteToken(response: Response)
    | WriteExpiry(response: Response)
    | Done

  /** A response as stored, with the time its expiry was computed from. */
  datatype Stored = Stored(response: Response, at: int)

  /** A fetch, with the number of responses stored before it. */
  datatype Fetch = Fetch(startedAt: int, after: nat)

  /** A token handed out from the cache, with the response it came from. */
  datatype Served = Served(token: string, checkedAt: int, source: int)

  datatype State = State(
    accessToken: string,
    expiresAt: int,
    now: int,
    readers: set<nat>,
    writer: Option<nat>,
    threads: seq<Pc>,
    stored: seq<Stored>,
    fetches: seq<Fetch>,
    served: seq<Served>)

  datatype Label =
    | Tick(nanoseconds: nat)
    | Run(thread: nat, reply: Option<Response>)

  /** The zero `time.Time` of a new service lies before every clock reading. */
  function Init(n: nat, start: nat): State
  {
    State("", -1, start, {}, None, seq(n, _ => Outside), [], [], [])
  }

  /** A token is cached, and the margin from now on ends before it expires. */
  predicate Fresh(s: State)
  {
    s.accessToken != "" && s.now + MARGIN < s.expiresAt
  }

  predicate Enabled(s: State, l: Label)
  {
    match l
    case Tick(_) => true
    case Run(t, _) =>
      t < |s.threads|
      && match s.threads[t] {
           case WantRead => s.writer.None?
           case WantWrite => s.writer.None? && s.readers == {}
           case _ => true
         }
  }

  function Serve(s: State): State
  {
    s.(served := s.served + [Served(s.accessToken, s.now, |s.stored| - 1)])
  }

  /** One step of a thread. */
  function RunStep(s: State, t: nat, reply: Option<Response>): State
    requires t < |s.threads|
  {
    match s.threads[t]
    case Outside => s.(threads := s.threads[t := WantRead])
    case WantRead => s.(threads := s.threads[t := Reading], readers := s.readers + {t})
    case Reading =>
      if Fresh(s) then Serve(s).(threads := s.threads[t := FastHit])
      else s.(threads := s.threads[t := FastMiss])
    case FastHit => s.(threads := s.threads[t := Outside], readers := s.readers - {t})
    case FastMiss => s.(threads := s.threads[t := WantWrite], readers := s.readers - {t})
    case WantWrite => s.(threads := s.threads[t := Checking], writer := Some(t))
    case Checking =>
      if Fresh(s) then Serve(s).(threads := s.threads[t := Done])
      else s.(threads := s.threads[t := Fetching], fetches := s.fetches + [Fetch(s.now, |s.stored|)])
    case Fetching =>
      if reply.Some? then s.(threads := s.threads[t := WriteToken(reply.value)])
      else s.(threads := s.threads[t := Done])
    case WriteToken(r) => s.(threads := s.threads[t := WriteExpiry(r)], accessToken := r.token)
    case WriteExpiry(r) =>
      s.(threads := s.threads[t := Done],
         expiresAt := s.now + r.expiresIn * SECOND,
         stored := s.stored + [Stored(r, s.now)])
    case Done => s.(threads := s.threads[t := Outside], writer := None)
  }

  function Next(s: State, l: Label): State
  {
    if !Enabled(s, l) then s
    else match l
      case Tick(d) => s.(now := s.now + d)
      case Run(t, reply) => RunStep(s, t, reply)
  }

  function Exec(s: State, run: seq<Label>): State
  {
    if run == [] then s else Next(Exec(s, run[..|run| - 1]), run[|run| - 1])
  }

  // ---- The lock

  predicate HoldsRead(pc: Pc)
  {
    pc.Reading? || pc.FastHit? || pc.FastMiss?
  }

  predicate HoldsWrite(pc: Pc)
  {
    pc.Checking? || pc.Fetching? || pc.WriteToken? || pc.WriteExpiry? || pc.Done?
  }

  predicate Locked(s: State)
  {
    && (forall t :: 0 <= t < |s.threads| ==> (HoldsRead(s.threads[t]) <==> t in s.readers))
    && (forall t :: 0 <= t < |s.threads| ==> (HoldsWrite(s.threads[t]) <==> s.writer == Some(t)))
    && (s.writer.Some? ==> s.readers == {} && s.writer.value < |s.threads|)
  }

  // ---- The cache

  /** The pair of fields is the last stored response; before the first one no token is set. Between
      the two writes of a writer the token already belongs to the new response. */
  predicate Cached(s: State)
  {
    && (s.stored == [] ==> s.expiresAt == -1)
    && (s.stored != [] ==> s.expiresAt == Last(s).at + Last(s).response.expiresIn * SECOND)
    && (!Writing(s) ==> s.accessToken == if s.stored == [] then "" else Last(s).response.token)
    && (Writing(s) ==> s.accessToken == s.threads[s.writer.value].response.token)
  }

  function Last(s: State): Stored
    requires s.stored != []
  {
    s.stored[|s.stored| - 1]
  }

  /** Some thread is between the token write and the expiry write. */
  predicate Writing(s: State)
  {
    s.writer.Some? && s.writer.value < |s.threads| && s.threads[s.writer.value].WriteExpiry?
  }

  // ---- The history

  /** When a fetch started, the response it follows was within its margin of expiring. */
  predicate FetchOk(stored: seq<Stored>, f: Fetch)
  {
    && f.after <= |stored|
    && (f.after > 0 && stored[f.after - 1].response.token != "" ==>
          var last := stored[f.after - 1];
          f.startedAt >= last.at + last.response.expiresIn * SECOND - MARGIN)
  }

  /** A served token and the expiry it was checked against belong to one stored response. */
  predicate ServedOk(stored: seq<Stored>, v: Served)
  {
    && 0 <= v.source < |stored|
    && v.token == stored[v.source].response.token
    && v.checkedAt + MARGIN < stored[v.source].at + stored[v.source].response.expiresIn * SECOND
  }

  predicate History(s: State)
  {
    && (forall f :: f in s.fetches ==> FetchOk(s.stored, f))
    && (forall v :: v in s.served ==> ServedOk(s.stored, v))
    && s.now >= 0
  }

  predicate Inv(s: State)
  {
    Locked(s) && Cached(s) && History(s)
  }

  lemma LockedStep(s: State, l: Label)
    requires Locked(s)
    ensures Locked(Next(s, l))
  {
  }

  /** A thread that checks the cache sees no half-written pair. */
  lemma CheckSeesPair(s: State, t: nat)
    requires Locked(s) && t < |s.threads| && (s.threads[t].Reading? || s.threads[t].Checking?)
    ensures !Writing(s)
  {
  }

  lemma CachedStep(s: State, l: Label)
    requires Locked(s) && Cached(s)
    ensures Cached(Next(s, l))
  {
    if Enabled(s, l) && l.Run? {
      assert HoldsWrite(s.threads[l.thread]) ==> s.writer == Some(l.thread);
    }
  }

  lemma HistoryStep(s: State, l: Label)
    requires Inv(s)
    ensures History(Next(s, l))
  {
    if Enabled(s, l) && l.Run? {
      var pc := s.threads[l.thread];
      if pc.Reading? || pc.Checking? {
        CheckSeesPair(s, l.thread);
      }
      hide Locked;
    }
  }

  lemma {:induction false} AlwaysInv(n: nat, start: nat, run: seq<Label>)
    ensures Inv(Exec(Init(n, start), run))
  {
    hide Next;
    if run != [] {
      var s := Exec(Init(n, start), run[..|run| - 1]);
      AlwaysInv(n, start, run[..|run| - 1]);
      LockedStep(s, run[|run| - 1]);
      CachedStep(s, run[|run| - 1]);
      HistoryStep(s, run[|run| - 1]);
    }
  }

  /** What either check decides: a token is cached and good for more than another minute. */
  lemma FreshIs(s: State)
    ensures Fresh(s) <==> s.accessToken != "" && s.now + 60_000_000_000 < s.expiresAt
  {
  }

  /** In every run, a thread at either check serves the cached token exactly if that is good for more
      than a minute, and otherwise goes on to fetch. */
  lemma CheckDecides(n: nat, start: nat, run: seq<Label>, t: nat, reply: Option<Response>)
    requires t < |Exec(Init(n, start), run).threads|
    requires
      Exec(Init(n, start), run).threads[t].Reading? || Exec(Init(n, start), run).threads[t].Checking?
    ensures
      var s := Exec(Init(n, start), run);
      var u := Next(s, Run(t, reply));
      var good := s.stored != [] && Last(s).response.token != ""
                  && s.now + 60_000_000_000 < Last(s).at + Last(s).response.expiresIn * 1_000_000_000;
      if good then u.served == s.served + [Served(Last(s).response.token, s.now, |s.stored| - 1)] && u.fetches == s.fetches
      else
        && u.served == s.served
        && (s.threads[t].Checking? ==> u.threads[t].Fetching? && u.fetches == s.fetches + [Fetch(s.now, |s.stored|)])
        && (s.threads[t].Reading? ==> u.threads[t].FastMiss?)
  {
    var s := Exec(Init(n, start), run);
    AlwaysInv(n, start, run);
    CheckSeesPair(s, t);
    hide Exec, Locked, History;
  }

  // ---- Results

  /** Fetches never overlap: at most one thread is inside the token request. */
  lemma OneFetchAtATime(n: nat, start: nat, run: seq<Label>, t: nat, u: nat)
    requires
      var s := Exec(Init(n, start), run);
      t < |s.threads| && u < |s.threads| && s.threads[t].Fetching? && s.threads[u].Fetching?
    ensures t == u
  {
    AlwaysInv(n, start, run);
    hide Exec, Cached, History;
  }

  /** Whenever nobody is writing, token and expiry are those of one and the same response, the last
      one stored; before the first one there is no token. */
  lemma PairFromOneResponse(n: nat, start: nat, run: seq<Label>)
    requires !Writing(Exec(Init(n, start), run))
    ensures
      var s := Exec(Init(n, start), run);
      if s.stored == [] then s.accessToken == ""
      else
        && s.accessToken == Last(s).response.token
        && s.expiresAt == Last(s).at + Last(s).response.expiresIn * 1_000_000_000
  {
    AlwaysInv(n, start, run);
    hide Exec, Locked, History;
  }

  /** In this step a thread that was fetching received the response. */
  predicate Receives(s: State, l: Label, r: Response)
  {
    l.Run? && l.reply == Some(r) && l.thread < |s.threads| && s.threads[l.thread].Fetching?
  }

  predicate Received(s: State, run: seq<Label>, r: Response)
  {
    exists i :: 0 <= i < |run| && Receives(Exec(s, run[..i]), run[i], r)
  }

  /** Everything stored, or about to be stored, was received in the run. */
  predicate Genuine(s: State, run: seq<Label>)
  {
    var t := Exec(s, run);
    && (forall d :: d in t.stored ==> Received(s, run, d.response))
    && (forall pc :: pc in t.threads && (pc.WriteToken? || pc.WriteExpiry?) ==> Received(s, run, pc.response))
  }

  lemma ReceivedSnoc(s: State, run: seq<Label>, l: Label, r: Response)
    requires Received(s, run, r) || Receives(Exec(s, run), l, r)
    ensures Received(s, run + [l], r)
  {
    hide Exec, Receives;
    if Received(s, run, r) {
      var i :| 0 <= i < |run| && Receives(Exec(s, run[..i]), run[i], r);
      assert (run + [l])[..i] == run[..i] && (run + [l])[i] == run[i];
    } else {
      assert (run + [l])[..|run|] == run && (run + [l])[|run|] == l;
    }
  }

  predicate Carries(pc: Pc, r: Response)
  {
    (pc.WriteToken? || pc.WriteExpiry?) && pc.response == r
  }

  /** What a step stores, or is about to store, was being stored already or has just been received. */
  lemma CarriedStep(s: State, l: Label, r: Response)
    ensures
      (exists pc :: pc in Next(s, l).threads && Carries(pc, r)) ==>
      (exists pc :: pc in s.threads && Carries(pc, r)) || Receives(s, l, r)
    ensures
      (exists d :: d in Next(s, l).stored && d.response == r) ==>
      (exists d :: d in s.stored && d.response == r) || (exists pc :: pc in s.threads && Carries(pc, r))
  {
    if Enabled(s, l) && l.Run? {
      assert s.threads[l.thread] in s.threads;
    }
  }

  lemma GenuineStep(s: State, run: seq<Label>, l: Label)
    requires Genuine(s, run)
    ensures Genuine(s, run + [l])
  {
    var t := Exec(s, run);
    assert (run + [l])[..|run|] == run;
    hide Next, Received, Receives;
    forall d | d in Next(t, l).stored
      ensures Received(s, run + [l], d.response)
    {
      CarriedStep(t, l, d.response);
      ReceivedSnoc(s, run, l, d.response);
    }
    forall pc | pc in Next(t, l).threads && (pc.WriteToken? || pc.WriteExpiry?)
      ensures Received(s, run + [l], pc.response)
    {
      assert Carries(pc, pc.response);
      CarriedStep(t, l, pc.response);
      ReceivedSnoc(s, run, l, pc.response);
    }
  }

  /** A failed fetch leaves no trace in the cache: everything stored was received by a fetching thread. */
  lemma {:induction false} OnlyReceivedIsStored(n: nat, start: nat, run: seq<Label>)
    ensures Genuine(Init(n, start), run)
  {
    hide Next;
    if run != [] {
      var before := run[..|run| - 1];
      OnlyReceivedIsStored(n, start, before);
      assert run == before + [run[|run| - 1]];
      GenuineStep(Init(n, start), before, run[|run| - 1]);
    }
  }

  /** After a non-empty token with a lifetime above the margin, the next fetch starts no earlier
      than its store time plus its lifetime minus the margin. */
  lemma FetchesAreSpaced(n: nat, start: nat, run: seq<Label>, f: Fetch)
    requires f in Exec(Init(n, start), run).fetches && f.after > 0
    ensures f.after <= |Exec(Init(n, start), run).stored|
    ensures
      var before := Exec(Init(n, start), run).stored[f.after - 1];
      before.response.token != "" ==>
        f.startedAt >= before.at + before.response.expiresIn * 1_000_000_000 - 60_000_000_000
  {
    AlwaysInv(n, start, run);
    hide Exec, Locked, Cached;
  }

  /** The margin is enough: if every response is stored within a minute of being issued, every
      token served from the cache, by either check, is still valid for the server when checked. */
  lemma ServedTokensAreValid(n: nat, start: nat, run: seq<Label>, v: Served)
    requires v in Exec(Init(n, start), run).served
    requires forall d :: d in Exec(Init(n, start), run).stored ==> d.at <= d.response.issuedAt + 60_000_000_000
    ensures 0 <= v.source < |Exec(Init(n, start), run).stored|
    ensures
      var r := Exec(Init(n, start), run).stored[v.source].response;
      v.token == r.token && v.checkedAt < r.issuedAt + r.expiresIn * 1_000_000_000
  {
    var s := Exec(Init(n, start), run);
    AlwaysInv(n, start, run);
    hide Exec, Locked, Cached;
    assert s.stored[v.source] in s.stored;
  }

  // ---- The service as sequential code

  /** How long the thread waits before each clock reading, and while the request is under way. */
  datatype Waits = Waits(firstCheck: nat, secondCheck: nat, request: nat, store: nat)

  /** One thread's view of the service, with the steps it has taken as a run of the whole system. */
  class OAuthService {
    const slot: nat
    var accessToken: string
    var expiresAt: int
    var clock: int
    ghost const start: State
    ghost var world: State
    ghost var run: seq<Label>

    ghost predicate Valid()
      reads this
    {
      && slot < |world.threads| && world == Exec(start, run)
      && accessToken == world.accessToken && expiresAt == world.expiresAt && clock == world.now
    }

    /** Nobody holds the lock, and this thread is outside. */
    ghost predicate AtRest()
      reads this
    {
      Valid() && world.writer.None? && world.readers == {} && world.threads[slot].Outside?
    }

    constructor (slot: nat, s: State)
      requires slot < |s.threads|
      ensures Valid() && world == s && this.slot == slot
    {
      this.slot, start, world, run := slot, s, s, [];
      accessToken, expiresAt, clock := s.accessToken, s.expiresAt, s.now;
    }

    ghost method Take(l: Label)
      requires world == Exec(start, run)
      modifies this`world, this`run
      ensures world == Next(old(world), l) == Exec(start, run) && run == old(run) + [l]
    {
      hide Next;
      world, run := Next(world, l), run + [l];
      assert run[..|run| - 1] == old(run);
    }

    /** Uninterrupted, a call serves the cached token if it is fresh at the first check, and otherwise
        what a new fetch brings; it is a run of the transition system. */
    method GetAccessToken(waits: Waits, reply: Option<Response>) returns (token: Option<string>)
      requires AtRest()
      modifies this
      ensures AtRest() && OnlyThread(run, old(run))
      ensures if old(accessToken != "" && clock + waits.firstCheck + 60_000_000_000 < expiresAt)
        then token == Some(old(accessToken)) && accessToken == old(accessToken) && expiresAt == old(expiresAt)
          && world.fetches == old(world.fetches)
          && world.served == old(world.served) + [Served(token.value, clock, |world.stored| - 1)]
        else Refreshed(token, reply, old(accessToken), old(expiresAt), old(world))
    {
      hide Exec;
      Take(Run(slot, None));
      Take(Run(slot, None));
      Take(Tick(waits.firstCheck));
      clock := clock + waits.firstCheck;
      Take(Run(slot, None));
      if accessToken != "" && clock + MARGIN < expiresAt {
        token := Some(accessToken);
        Take(Run(slot, None));
        return;
      }
      Take(Run(slot, None));
      token := RefreshToken(waits, reply);
    }

    /** A fetch took place; a failed one left the cache alone, a good one replaced both fields. */
    ghost predicate Refreshed(token: Option<string>, reply: Option<Response>,
                              oldToken: string, oldExpiry: int, before: State)
      reads this
    {
      && |world.fetches| == |before.fetches| + 1
      && world.served == before.served
      && Stores(token, reply, oldToken, oldExpiry, before)
    }

    ghost predicate Stores(token: Option<string>, reply: Option<Response>,
                           oldToken: string, oldExpiry: int, before: State)
      reads this
    {
      if reply.None? then
        token.None? && accessToken == oldToken && expiresAt == oldExpiry && world.stored == before.stored
      else
        && token == Some(reply.value.token) && accessToken == reply.value.token
        && expiresAt == clock + reply.value.expiresIn * 1_000_000_000
        && world.stored == before.stored + [Stored(reply.value, clock)]
    }

    ghost predicate OnlyThread(now: seq<Label>, before: seq<Label>)
    {
      before <= now && forall i :: |before| <= i < |now| ==> now[i].Run? ==> now[i].thread == slot
    }

    method RefreshToken(waits: Waits, reply: Option<Response>) returns (token: Option<string>)
      requires Valid() && world.writer.None? && world.readers == {} && world.threads[slot].WantWrite?
      modifies this
      ensures AtRest() && OnlyThread(run, old(run))
      ensures if old(accessToken != "" && clock + waits.secondCheck + 60_000_000_000 < expiresAt)
        then token == Some(old(accessToken)) && accessToken == old(accessToken) && expiresAt == old(expiresAt)
          && world.fetches == old(world.fetches)
          && world.served == old(world.served) + [Served(token.value, clock, |world.stored| - 1)]
        else Refreshed(token, reply, old(accessToken), old(expiresAt), old(world))
    {
      hide Exec;
      Take(Run(slot, None));
      Take(Tick(waits.secondCheck));
      clock := clock + waits.secondCheck;
      Take(Run(slot, None));
      if accessToken != "" && clock + MARGIN < expiresAt {
        token := Some(accessToken);
        Take(Run(slot, None));
        return;
      }
      token := FetchAndStore(waits, reply);
    }

    /** The token request and what follows it, under the write lock. */
    method FetchAndStore(waits: Waits, reply: Option<Response>) returns (token: Option<string>)
      requires Valid() && world.writer == Some(slot) && world.readers == {} && world.threads[slot].Fetching?
      modifies this
      ensures AtRest() && OnlyThread(run, old(run))
      ensures world.fetches == old(world.fetches) && world.served == old(world.served)
      ensures Stores(token, reply, old(accessToken), old(expiresAt), old(world))
    {
      hide Exec;
      Take(Tick(waits.request));
      clock := clock + waits.request;
      Take(Run(slot, reply));
      if reply.None? {
        token := None;
        Take(Run(slot, None));
        return;
      }
      token := Store(waits, reply.value);
    }

    /** The two field writes, and the return. */
    method Store(waits: Waits, response: Response) returns (token: Option<string>)
      requires Valid() && world.writer == Some(slot) && world.readers == {}
      requires world.threads[slot] == WriteToken(response)
      modifies this
      ensures AtRest() && OnlyThread(run, old(run))
      ensures world.fetches == old(world.fetches) && world.served == old(world.served)
      ensures token == Some(response.token) && accessToken == response.token
      ensures clock == old(clock) + waits.store && expiresAt == clock + response.expiresIn * 1_000_000_000
      ensures world.stored == old(world.stored) + [Stored(response, clock)]
    {
      hide Exec;
      accessToken := response.token;
      Take(Run(slot, None));
      Take(Tick(waits.store));
      clock := clock + waits.store;
      expiresAt := clock + response.expiresIn * SECOND;
      Take(Run(slot, None));
      token := Some(accessToken);
      Take(Run(slot, None));
    }
  }
}
