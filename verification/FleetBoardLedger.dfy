/** What every Fleet Board game keeps: the budget, the slot rails, the job schedule and the insight tokens. */
module FleetBoardLedger {
  import opened Prelude
  import opened OrderedRecord
  import opened FleetBoard

  // ---------------------------------------------------------------- the books

  /** Day ticks from queueing a job to its completion. */
  function Advances(duration: int): int
  {
    if duration > 1 then duration else 1
  }

  /** Where a job stands on a given day. */
  ghost predicate OnSchedule(job: Job, day: int, duration: int)
  {
    if job.status != Complete then
      && 0 <= day - job.queuedDay < Advances(duration)
      && job.remaining + day == job.queuedDay + duration
      && job.completedDay == None
      && (job.status == Queued <==> day == job.queuedDay)
      && job.startedDay == (if day == job.queuedDay then None else Some(job.queuedDay + 1))
    else
      && job.completedDay == Some(job.queuedDay + Advances(duration))
      && job.queuedDay + Advances(duration) <= day
      && job.remaining == 0
  }

  ghost predicate NumberedRecord<V>(r: Record<nat, V>)
  {
    r.Valid() && forall i :: 0 <= i < |r.keys| ==> r.keys[i] == i + 1
  }

  /** What `n` tokens cost. */
  function CostOf(cost: real, n: nat): real
  {
    if n == 0 then 0.0 else CostOf(cost, n - 1) + cost
  }

  lemma {:induction false} CostIsProduct(cost: real, n: nat)
    ensures CostOf(cost, n) == cost * n as real
  {
    if n > 0 {
      CostIsProduct(cost, n - 1);
    }
  }

  /** Budget and slot rails. */
  ghost predicate RailBooks(tokens: Record<nat, Token>, budget: real, c: Config)
  {
    && NumberedRecord(tokens)
    && budget + CostOf(c.tokenCost, |tokens.keys|) == c.simulationBudget
    && forall r :: WithinCap(tokens, r, c.tokenCap)
  }

  ghost predicate WithinCap(tokens: Record<nat, Token>, r: FacilityId, cap: int)
  {
    var n := |TokensOf(tokens.keys, tokens.values, r)|;
    n > 0 ==> n <= cap
  }

  /** A job sits on a token of its own reactor and is on schedule. */
  ghost predicate JobInOrder(job: Job, tokens: map<nat, Token>, day: int, duration: int)
  {
    job.token in tokens && tokens[job.token].reactor == job.reactor && OnSchedule(job, day, duration)
  }

  ghost predicate OneJobPerToken(jobs: map<nat, Job>)
  {
    forall i, j :: Unfinished(jobs, i) && Unfinished(jobs, j) && jobs[i].token == jobs[j].token ==> i == j
  }

  ghost predicate JobBooks(jobs: Record<nat, Job>, tokens: map<nat, Token>, day: int, duration: int)
  {
    && NumberedRecord(jobs)
    && OneJobPerToken(jobs.values)
    && forall j :: j in jobs.values ==> JobInOrder(jobs.values[j], tokens, day, duration)
  }

  ghost predicate Books(s: State, c: Config)
  {
    s.config == c && RailBooks(s.tokens, s.budget, c) && JobBooks(s.jobs, s.tokens.values, s.day, c.jobDuration)
  }

  // ---------------------------------------------------------------- buying

  lemma {:induction false} TokensOfLonger(
    keys: seq<nat>, tokens: map<nat, Token>, id: nat, token: Token, reactor: FacilityId)
    requires id !in keys
    ensures TokensOf(keys, tokens[id := token], reactor) == TokensOf(keys, tokens, reactor)
  {
    if keys != [] {
      TokensOfLonger(keys[..|keys| - 1], tokens, id, token, reactor);
    }
  }

  lemma {:induction false} TokensOfMembers(keys: seq<nat>, tokens: map<nat, Token>, reactor: FacilityId)
    ensures forall t :: t in TokensOf(keys, tokens, reactor) <==>
      t in keys && t in tokens && tokens[t].reactor == reactor
  {
    if keys != [] {
      TokensOfMembers(keys[..|keys| - 1], tokens, reactor);
      assert keys == keys[..|keys| - 1] + [keys[|keys| - 1]];
    }
  }

  lemma NextNumber<V>(r: Record<nat, V>, v: V)
    requires NumberedRecord(r)
    ensures |r.keys| + 1 !in r.values
    ensures NumberedRecord(r.Put(|r.keys| + 1, v)) && r.Put(|r.keys| + 1, v).keys == r.keys + [|r.keys| + 1]
  {
    assert |r.keys| + 1 !in r.keys;
  }

  lemma TokensOfAppend(keys: seq<nat>, tokens: map<nat, Token>, id: nat, reactor: FacilityId, r: FacilityId)
    requires id !in keys
    ensures TokensOf(keys + [id], tokens[id := Token(reactor)], r)
         == TokensOf(keys, tokens, r) + (if r == reactor then [id] else [])
  {
    TokensOfLonger(keys, tokens, id, Token(reactor), r);
    assert (keys + [id])[..|keys|] == keys;
  }

  lemma NewTokenWithinCap(tokens: Record<nat, Token>, id: nat, reactor: FacilityId, r: FacilityId, cap: int)
    requires id !in tokens.keys && tokens.Valid()
    requires WithinCap(tokens, r, cap) && |TokensOf(tokens.keys, tokens.values, reactor)| < cap
    ensures WithinCap(tokens.Put(id, Token(reactor)), r, cap)
  {
    TokensOfAppend(tokens.keys, tokens.values, id, reactor, r);
  }

  lemma NewToken(tokens: Record<nat, Token>, budget: real, c: Config, reactor: FacilityId)
    requires RailBooks(tokens, budget, c)
    requires |TokensOf(tokens.keys, tokens.values, reactor)| < c.tokenCap
    ensures RailBooks(tokens.Put(|tokens.keys| + 1, Token(reactor)), budget - c.tokenCost, c)
  {
    NextNumber(tokens, Token(reactor));
    var after := tokens.Put(|tokens.keys| + 1, Token(reactor));
    forall r ensures WithinCap(after, r, c.tokenCap) {
      NewTokenWithinCap(tokens, |tokens.keys| + 1, reactor, r, c.tokenCap);
    }
  }

  lemma BuyKeepsBooks(s: State, reactor: FacilityId)
    requires Books(s, s.config)
    ensures Books(Buy(s, reactor), s.config)
    ensures Buy(s, reactor).jobs == s.jobs && Buy(s, reactor).insight == s.insight
  {
    if Buy(s, reactor) != s {
      NewToken(s.tokens, s.budget, s.config, reactor);
      NextNumber(s.tokens, Token(reactor));
    }
  }

  // ---------------------------------------------------------------- queueing

  lemma {:induction false} JobOnFinds(keys: seq<nat>, jobs: map<nat, Job>, token: nat)
    ensures JobOn(keys, jobs, token) == None
            <==> !exists j :: j in keys && Unfinished(jobs, j) && jobs[j].token == token
    ensures JobOn(keys, jobs, token).Some? ==>
              var j := JobOn(keys, jobs, token).value;
              j in keys && Unfinished(jobs, j) && jobs[j].token == token
  {
    if keys != [] {
      JobOnFinds(keys[1..], jobs, token);
      assert keys == [keys[0]] + keys[1..];
    }
  }

  lemma {:induction false} FirstIdleFinds(s: State, tokens: seq<nat>)
    ensures FirstIdle(s, tokens).Some? ==>
              FirstIdle(s, tokens).value in tokens && SlotOf(s, FirstIdle(s, tokens).value).Idle?
    ensures FirstIdle(s, tokens).None? ==> forall t :: t in tokens ==> !SlotOf(s, t).Idle?
  {
    if tokens != [] {
      FirstIdleFinds(s, tokens[1..]);
      assert tokens == [tokens[0]] + tokens[1..];
    }
  }

  /** A slot is idle exactly when its token has no unfinished job; otherwise it shows that one job. */
  lemma SlotShowsItsJob(s: State, token: nat)
    requires s.jobs.Valid() && OneJobPerToken(s.jobs.values)
    ensures SlotOf(s, token).Idle? <==> !exists j :: Unfinished(s.jobs.values, j) && s.jobs.values[j].token == token
    ensures forall j :: Unfinished(s.jobs.values, j) && s.jobs.values[j].token == token ==>
              var job := s.jobs.values[j];
              SlotOf(s, token) == Busy(token, job.status, job.remaining, j)
  {
    JobOnFinds(s.jobs.keys, s.jobs.values, token);
  }

  lemma NewJob(jobs: Record<nat, Job>, tokens: map<nat, Token>, day: int, duration: int, job: Job)
    requires JobBooks(jobs, tokens, day, duration)
    requires job.status == Queued && JobInOrder(job, tokens, day, duration)
    requires !exists j :: Unfinished(jobs.values, j) && jobs.values[j].token == job.token
    ensures JobBooks(jobs.Put(|jobs.keys| + 1, job), tokens, day, duration)
  {
    NextNumber(jobs, job);
    var id, after := |jobs.keys| + 1, jobs.Put(|jobs.keys| + 1, job);
    forall i, j | Unfinished(after.values, i) && Unfinished(after.values, j)
      && after.values[i].token == after.values[j].token
      ensures i == j
    {
      if i != id && j != id {
        assert Unfinished(jobs.values, i) && Unfinished(jobs.values, j);
      } else if i != id {
        assert Unfinished(jobs.values, i);
      } else if j != id {
        assert Unfinished(jobs.values, j);
      }
    }
  }

  /** The reactor has a token without an unfinished job. */
  ghost predicate CanQueue(s: State, reactor: FacilityId)
  {
    IsReactor(s, reactor)
    && exists t :: t in s.tokens.values && s.tokens.values[t].reactor == reactor && SlotOf(s, t).Idle?
  }

  /** What Enqueue does, decided by the slots. */
  lemma EnqueueCases(s: State, reactor: FacilityId) returns (token: Option<nat>)
    requires Books(s, s.config)
    ensures token.None? ==> Enqueue(s, reactor) == s
    ensures token.Some? ==>
      && token.value in s.tokens.values && s.tokens.values[token.value].reactor == reactor
      && SlotOf(s, token.value).Idle?
      && Enqueue(s, reactor) == s.(jobs := s.jobs.Put(
           |s.jobs.keys| + 1, Job(reactor, token.value, Queued, s.config.jobDuration, s.day, None, None)))
    ensures token.Some? <==> CanQueue(s, reactor)
  {
    var tokens := ReactorTokens(s, reactor);
    FirstIdleFinds(s, tokens);
    TokensOfMembers(s.tokens.keys, s.tokens.values, reactor);
    token := if IsReactor(s, reactor) then FirstIdle(s, tokens) else None;
  }

  lemma NewJobKeepsBooks(s: State, token: nat, reactor: FacilityId)
    requires Books(s, s.config)
    requires token in s.tokens.values && s.tokens.values[token].reactor == reactor && SlotOf(s, token).Idle?
    ensures var job := Job(reactor, token, Queued, s.config.jobDuration, s.day, None, None);
      JobBooks(s.jobs.Put(|s.jobs.keys| + 1, job), s.tokens.values, s.day, s.config.jobDuration)
  {
    SlotShowsItsJob(s, token);
    NewJob(s.jobs, s.tokens.values, s.day, s.config.jobDuration,
        Job(reactor, token, Queued, s.config.jobDuration, s.day, None, None));
  }

  lemma EnqueueKeepsBooks(s: State, reactor: FacilityId)
    requires Books(s, s.config)
    ensures Books(Enqueue(s, reactor), s.config)
  {
    var token := EnqueueCases(s, reactor);
    if token.Some? {
      NewJobKeepsBooks(s, token.value, reactor);
    }
  }

  /** Queueing adds a job exactly when the reactor has a token without an unfinished job. */
  lemma QueueingAddsAJob(s: State, reactor: FacilityId)
    requires Books(s, s.config)
    ensures |Enqueue(s, reactor).jobs.keys| == |s.jobs.keys| + 1 <==> CanQueue(s, reactor)
  {
    var token := EnqueueCases(s, reactor);
    if token.Some? {
      NextNumber(s.jobs, Job(reactor, token.value, Queued, s.config.jobDuration, s.day, None, None));
    }
  }

  // ---------------------------------------------------------------- the jobs' day

  /** How many of the listed jobs of a reactor are complete. */
  function FinishedOf(ids: seq<nat>, jobs: map<nat, Job>, reactor: FacilityId): nat
  {
    if ids == [] then 0
    else
      var id := ids[|ids| - 1];
      FinishedOf(ids[..|ids| - 1], jobs, reactor)
      + (if id in jobs && jobs[id].reactor == reactor && jobs[id].status == Complete then 1 else 0)
  }

  function Finished(s: State, reactor: FacilityId): nat
  {
    FinishedOf(s.jobs.keys, s.jobs.values, reactor)
  }

  /** The jobs after the loop has ticked the listed ones. */
  function TickedJobs(jobs: map<nat, Job>, ids: seq<nat>, day: int): map<nat, Job>
  {
    map id | id in jobs :: if id in ids then TickJob(jobs[id], day) else jobs[id]
  }

  lemma {:induction false} FinishedOfSame(ids: seq<nat>, jobs: map<nat, Job>, jobs': map<nat, Job>, reactor: FacilityId)
    requires forall id :: id in ids ==> (id in jobs <==> id in jobs') && (id in jobs ==> jobs[id] == jobs'[id])
    ensures FinishedOf(ids, jobs, reactor) == FinishedOf(ids, jobs', reactor)
  {
    if ids != [] {
      FinishedOfSame(ids[..|ids| - 1], jobs, jobs', reactor);
    }
  }

  /** Jobs among the listed ones that this tick completes for a reactor. */
  function Completing(ids: seq<nat>, jobs: map<nat, Job>, day: int, reactor: FacilityId): nat
  {
    if ids == [] then 0
    else
      var id := ids[|ids| - 1];
      Completing(ids[..|ids| - 1], jobs, day, reactor)
      + (if Unfinished(jobs, id) && jobs[id].reactor == reactor && TickJob(jobs[id], day).status == Complete
          then 1 else 0)
  }

  lemma TickedJobsStep(jobs: map<nat, Job>, before: seq<nat>, id: nat, day: int)
    requires id in jobs
    ensures TickedJobs(jobs, before + [id], day) == TickedJobs(jobs, before, day)[id := TickJob(jobs[id], day)]
    ensures jobs[id].status == Complete ==> TickedJobs(jobs, before + [id], day) == TickedJobs(jobs, before, day)
  {
  }

  /** The loop ticks each listed job once ... */
  lemma {:induction false} TickEachJobTicks(start: JobAccount, ids: seq<nat>, day: int, reward: int)
    requires start.jobs.Valid() && forall id :: id in ids ==> id in start.jobs.values
    ensures TickEachJob(start, ids, day, reward).jobs
            == Record(start.jobs.keys, TickedJobs(start.jobs.values, ids, day))
  {
    var jobs := start.jobs.values;
    if ids == [] {
      assert TickedJobs(jobs, [], day) == jobs;
    } else {
      var before, id := ids[..|ids| - 1], ids[|ids| - 1];
      assert ids == before + [id];
      TickEachJobTicks(start, before, day, reward);
      TickedJobsStep(jobs, before, id, day);
    }
  }

  /** ... and credits one reward for each job it completes. */
  lemma {:induction false} TickEachJobPays(start: JobAccount, ids: seq<nat>, day: int, reward: int, reactor: FacilityId)
    requires forall id :: id in ids ==> id in start.jobs.values
    ensures HeldIn(TickEachJob(start, ids, day, reward).insight, reactor)
         == HeldIn(start.insight, reactor) + reward * Completing(ids, start.jobs.values, day, reactor)
  {
    if ids != [] {
      var before := ids[..|ids| - 1];
      assert ids[|ids| - 1] in ids;
      TickEachJobPays(start, before, day, reward, reactor);
      RewardStep(reward, Completing(before, start.jobs.values, day, reactor));
    }
  }

  lemma RewardStep(reward: int, n: int)
    ensures reward * (n + 1) == reward * n + reward
  {
  }

  /** What is complete after the tick was complete before or is completed by it. */
  lemma {:induction false} FinishedAfterTick(
    ids: seq<nat>, all: seq<nat>, jobs: map<nat, Job>, day: int, reactor: FacilityId)
    requires forall id :: id in ids ==> id in all
    ensures FinishedOf(ids, TickedJobs(jobs, all, day), reactor)
            == FinishedOf(ids, jobs, reactor) + Completing(ids, jobs, day, reactor)
  {
    if ids != [] {
      FinishedAfterTick(ids[..|ids| - 1], all, jobs, day, reactor);
      assert ids[|ids| - 1] in ids;
    }
  }

  lemma TickJobKeepsSchedule(job: Job, day: int, duration: int)
    requires OnSchedule(job, day, duration)
    ensures OnSchedule(TickJob(job, day + 1), day + 1, duration)
    ensures TickJob(job, day + 1).token == job.token && TickJob(job, day + 1).reactor == job.reactor
    ensures job.status == Complete ==> TickJob(job, day + 1) == job
  {
  }

  lemma TickedJobsKeepBooks(jobs: Record<nat, Job>, tokens: map<nat, Token>, day: int, duration: int)
    requires JobBooks(jobs, tokens, day, duration)
    ensures JobBooks(Record(jobs.keys, TickedJobs(jobs.values, jobs.keys, day + 1)), tokens, day + 1, duration)
  {
    var after := TickedJobs(jobs.values, jobs.keys, day + 1);
    forall j | j in after
      ensures after[j] == TickJob(jobs.values[j], day + 1) && JobInOrder(after[j], tokens, day + 1, duration)
      ensures Unfinished(after, j) ==> Unfinished(jobs.values, j) && after[j].token == jobs.values[j].token
    {
      assert JobInOrder(jobs.values[j], tokens, day, duration);
      TickJobKeepsSchedule(jobs.values[j], day, duration);
    }
  }

  lemma {:induction false} RunEachKeepsAccounts(s: State, ids: seq<FacilityId>)
    ensures RunEach(s, ids) == s.(resources := RunEach(s, ids).resources, facilities := RunEach(s, ids).facilities)
  {
    if ids != [] {
      RunEachKeepsAccounts(s, ids[..|ids| - 1]);
    }
  }

  /** `m` is `s` with one more day and the job loop run; the rest of a morning does not touch the accounts. */
  ghost predicate JobsTicked(s: State, m: State)
  {
    var after := TickEachJob(JobAccount(s.jobs, s.insight), s.jobs.keys, s.day + 1, s.config.insightReward);
    && m.config == s.config && m.budget == s.budget && m.tokens == s.tokens && m.day == s.day + 1
    && m.jobs == after.jobs && m.insight == after.insight
  }

  lemma MorningAccounts(s: State)
    ensures JobsTicked(s, Morning(s))
    ensures var m := Morning(s); m.debtDays == s.debtDays && m.removed == s.removed && m.complete == s.complete
  {
    var fueled := ProduceFuel(BeginDay(s));
    RunEachKeepsAccounts(fueled, ActiveFacilities(fueled, Reactor));
  }

  lemma JobLoopTicks(s: State, m: State)
    requires s.jobs.Valid() && JobsTicked(s, m)
    ensures m.jobs == Record(s.jobs.keys, TickedJobs(s.jobs.values, s.jobs.keys, s.day + 1))
  {
    TickEachJobTicks(JobAccount(s.jobs, s.insight), s.jobs.keys, s.day + 1, s.config.insightReward);
  }

  lemma TickedRecordKeepsBooks(
    jobs: Record<nat, Job>, after: Record<nat, Job>, tokens: map<nat, Token>, day: int, duration: int)
    requires JobBooks(jobs, tokens, day, duration)
    requires after == Record(jobs.keys, TickedJobs(jobs.values, jobs.keys, day + 1))
    ensures JobBooks(after, tokens, day + 1, duration)
  {
    TickedJobsKeepBooks(jobs, tokens, day, duration);
  }

  /** The job loop moves every job one day along its schedule ... */
  lemma JobLoopKeepsBooks(s: State, m: State)
    requires Books(s, s.config) && JobsTicked(s, m)
    ensures Books(m, s.config)
  {
    JobLoopTicks(s, m);
    TickedRecordKeepsBooks(s.jobs, m.jobs, s.tokens.values, s.day, s.config.jobDuration);
  }

  /** ... and pays for exactly the jobs it completes. */
  lemma JobLoopPays(s: State, m: State, reactor: FacilityId)
    requires s.jobs.Valid() && JobsTicked(s, m)
    ensures Finished(m, reactor) >= Finished(s, reactor)
    ensures Held(m, reactor)
            == Held(s, reactor) + s.config.insightReward * (Finished(m, reactor) - Finished(s, reactor))
  {
    var start := JobAccount(s.jobs, s.insight);
    TickEachJobTicks(start, s.jobs.keys, s.day + 1, s.config.insightReward);
    TickEachJobPays(start, s.jobs.keys, s.day + 1, s.config.insightReward, reactor);
    FinishedAfterTick(s.jobs.keys, s.jobs.keys, s.jobs.values, s.day + 1, reactor);
  }

  lemma MorningKeepsBooks(s: State, reactor: FacilityId)
    requires Books(s, s.config)
    ensures Books(Morning(s), s.config)
    ensures Finished(Morning(s), reactor) >= Finished(s, reactor)
    ensures Held(Morning(s), reactor)
         == Held(s, reactor) + s.config.insightReward * (Finished(Morning(s), reactor) - Finished(s, reactor))
  {
    MorningAccounts(s);
    JobLoopKeepsBooks(s, Morning(s));
    JobLoopPays(s, Morning(s), reactor);
  }

  // ---------------------------------------------------------------- pressure

  /** Does an inspector visit cost this reactor an insight token? */
  predicate InspectorSpends(m: State, reactor: FacilityId)
  {
    InspectorTarget(m) == Some(reactor) && Held(m, reactor) != 0
  }

  predicate TroubleSpends(i: State, reactor: FacilityId)
  {
    TroubleVictim(i) == Some(reactor) && IsReactor(i, reactor) && Held(i, reactor) != 0
  }

  /** Insight tokens a day takes from a reactor: at most one for the inspector and one for trouble. */
  function SpentOnDay(s: State, reactor: FacilityId): nat
  {
    (if InspectorSpends(Morning(s), reactor) then 1 else 0)
      + (if TroubleSpends(Inspect(Morning(s)), reactor) then 1 else 0)
  }

  ghost predicate SameBooks(s: State, t: State)
  {
    t.config == s.config && t.budget == s.budget && t.tokens == s.tokens && t.jobs == s.jobs && t.day == s.day
  }

  lemma InspectAccounts(m: State, reactor: FacilityId)
    ensures SameBooks(m, Inspect(m))
    ensures Held(Inspect(m), reactor) == Held(m, reactor) - (if InspectorSpends(m, reactor) then 1 else 0)
    ensures Inspect(m).debtDays == m.debtDays && Inspect(m).removed == m.removed && Inspect(m).complete == m.complete
  {
  }

  lemma TroubleAccounts(i: State, reactor: FacilityId)
    ensures SameBooks(i, Trouble(i))
    ensures Held(Trouble(i), reactor) == Held(i, reactor) - (if TroubleSpends(i, reactor) then 1 else 0)
    ensures Trouble(i).debtDays == i.debtDays && Trouble(i).removed == i.removed && Trouble(i).complete == i.complete
  {
    var rolled := i.(rng := NextRandom(i.rng));
    assert Held(rolled, reactor) == Held(i, reactor);
  }

  lemma TickAccounts(s: State, reactor: FacilityId)
    ensures SameBooks(Morning(s), Ticked(s))
    ensures Held(Ticked(s), reactor) == Held(Morning(s), reactor) - SpentOnDay(s, reactor)
  {
    var m := Morning(s);
    InspectAccounts(m, reactor);
    TroubleAccounts(Inspect(m), reactor);
  }

  /** Insight tokens spent on a reactor in the whole game. */
  function Spent(setup: Setup, moves: seq<Move>, reactor: FacilityId): nat
  {
    if moves == [] then 0
    else
      var s := Play(Start(setup), moves[..|moves| - 1]);
      Spent(setup, moves[..|moves| - 1], reactor)
      + (if moves[|moves| - 1] == Act(TickDay) && !Ended(s) then SpentOnDay(s, reactor) else 0)
  }

  /** The insight account of one reactor. */
  ghost predicate InsightBalances(held: int, spent: nat, finished: nat, reward: int)
  {
    && held + spent == reward * finished
    && (reward >= 0 ==> held >= 0)
    && (finished == 0 ==> held == 0)
  }

  ghost predicate Balanced(s: State, spent: nat, reactor: FacilityId)
  {
    InsightBalances(Held(s, reactor), spent, Finished(s, reactor), s.config.insightReward)
  }

  /** Spending never takes a token that is not there. */
  lemma SpendsAtMostHeld(s: State, reactor: FacilityId)
    ensures Held(Morning(s), reactor) >= 0 ==> SpentOnDay(s, reactor) <= Held(Morning(s), reactor)
    ensures Held(Morning(s), reactor) == 0 ==> SpentOnDay(s, reactor) == 0
  {
    InspectAccounts(Morning(s), reactor);
  }

  lemma AccountStep(held: int, spent: nat, finished: nat, reward: int, finished': nat, out: nat)
    requires InsightBalances(held, spent, finished, reward) && finished' >= finished
    requires var paid := held + reward * (finished' - finished); (paid >= 0 ==> out <= paid) && (paid == 0 ==> out == 0)
    ensures InsightBalances(held + reward * (finished' - finished) - out, spent + out, finished', reward)
  {
    assert reward * (finished' - finished) == reward * finished' - reward * finished;
    assert reward >= 0 ==> reward * (finished' - finished) >= 0;
  }

  lemma SameBooksStand(m: State, t: State, c: Config)
    requires Books(m, c) && SameBooks(m, t)
    ensures Books(t, c)
  {
  }

  lemma TickKeepsBooks(s: State, spent: nat, reactor: FacilityId)
    requires Books(s, s.config) && Balanced(s, spent, reactor)
    ensures Books(Ticked(s), s.config)
  {
    MorningKeepsBooks(s, reactor);
    TickAccounts(s, reactor);
    SameBooksStand(Morning(s), Ticked(s), s.config);
  }

  /** A day's payments and spendings, seen from the states before, between and after them. */
  ghost predicate DayAccounts(s: State, m: State, t: State, out: nat, reactor: FacilityId)
  {
    && SameBooks(m, t) && m.config == s.config
    && Finished(m, reactor) >= Finished(s, reactor)
    && Held(m, reactor) == Held(s, reactor) + s.config.insightReward * (Finished(m, reactor) - Finished(s, reactor))
    && Held(t, reactor) == Held(m, reactor) - out
    && (Held(m, reactor) >= 0 ==> out <= Held(m, reactor)) && (Held(m, reactor) == 0 ==> out == 0)
  }

  lemma DayKeepsBalance(s: State, m: State, t: State, spent: nat, out: nat, reactor: FacilityId)
    requires Balanced(s, spent, reactor) && DayAccounts(s, m, t, out, reactor)
    ensures Balanced(t, spent + out, reactor)
  {
    AccountStep(Held(s, reactor), spent, Finished(s, reactor), s.config.insightReward, Finished(m, reactor), out);
  }

  lemma TickDayAccounts(s: State, reactor: FacilityId)
    requires Books(s, s.config)
    ensures DayAccounts(s, Morning(s), Ticked(s), SpentOnDay(s, reactor), reactor)
  {
    MorningKeepsBooks(s, reactor);
    TickAccounts(s, reactor);
    SpendsAtMostHeld(s, reactor);
  }

  lemma TickKeepsBalance(s: State, spent: nat, reactor: FacilityId)
    requires Books(s, s.config) && Balanced(s, spent, reactor)
    ensures Balanced(Ticked(s), spent + SpentOnDay(s, reactor), reactor)
  {
    TickDayAccounts(s, reactor);
    DayKeepsBalance(s, Morning(s), Ticked(s), spent, SpentOnDay(s, reactor), reactor);
  }

  lemma NewJobIsUnfinished(jobs: Record<nat, Job>, job: Job, reactor: FacilityId)
    requires NumberedRecord(jobs) && job.status != Complete
    ensures var after := jobs.Put(|jobs.keys| + 1, job);
      FinishedOf(after.keys, after.values, reactor) == FinishedOf(jobs.keys, jobs.values, reactor)
  {
    NextNumber(jobs, job);
    assert (jobs.keys + [|jobs.keys| + 1])[..|jobs.keys|] == jobs.keys;
    FinishedOfSame(jobs.keys, jobs.values, jobs.values[|jobs.keys| + 1 := job], reactor);
  }

  lemma NewJobKeepsInsight(s: State, job: Job, spent: nat, reactor: FacilityId)
    requires NumberedRecord(s.jobs) && job.status == Queued && Balanced(s, spent, reactor)
    ensures Balanced(s.(jobs := s.jobs.Put(|s.jobs.keys| + 1, job)), spent, reactor)
  {
    NewJobIsUnfinished(s.jobs, job, reactor);
  }

  lemma EnqueueKeepsInsight(s: State, id: FacilityId, spent: nat, reactor: FacilityId)
    requires Books(s, s.config) && Balanced(s, spent, reactor)
    ensures Balanced(Enqueue(s, id), spent, reactor)
  {
    var token := EnqueueCases(s, id);
    if token.Some? {
      NewJobKeepsInsight(s, Job(id, token.value, Queued, s.config.jobDuration, s.day, None, None), spent, reactor);
    }
  }

  lemma ActionKeepsBooks(s: State, action: Action, spent: nat, reactor: FacilityId)
    requires Books(s, s.config) && Balanced(s, spent, reactor) && !Ended(s)
    ensures Books(Apply(s, action), s.config)
    ensures Balanced(Apply(s, action), spent + (if action == TickDay then SpentOnDay(s, reactor) else 0), reactor)
  {
    match action {
      case TickDay => TickKeepsBooks(s, spent, reactor); TickKeepsBalance(s, spent, reactor);
      case BuyToken(r) => BuyKeepsBooks(s, r);
      case QueueJob(r) => EnqueueKeepsBooks(s, r); EnqueueKeepsInsight(s, r, spent, reactor);
      case PlaceFacility(id, kind, position) =>
        var t := Place(s, id, kind, position);
        assert SameBooks(s, t) && t.insight == s.insight;
      case RefuelFacility(id) =>
        var t := Refuel(s, id);
        assert SameBooks(s, t) && t.insight == s.insight;
    }
  }

  /** Every reachable state of every game keeps the books and every reactor's insight account. */
  lemma {:induction false} GamesBalance(setup: Setup, moves: seq<Move>, reactor: FacilityId)
    ensures Books(Play(Start(setup), moves), setup.config)
    ensures Balanced(Play(Start(setup), moves), Spent(setup, moves, reactor), reactor)
    decreases |moves|
  {
    if moves != [] {
      GamesBalance(setup, moves[..|moves| - 1], reactor);
      var s := Play(Start(setup), moves[..|moves| - 1]);
      match moves[|moves| - 1] {
        case Accept(modifiers) =>
        case Act(action) =>
          if !Ended(s) {
            ActionKeepsBooks(s, action, Spent(setup, moves[..|moves| - 1], reactor), reactor);
          }
      }
    }
  }

  lemma GamesKeepBooks(setup: Setup, moves: seq<Move>)
    ensures Books(Play(Start(setup), moves), setup.config)
  {
    GamesBalance(setup, moves, Text(""));
  }

  // ---------------------------------------------------------------- the results, spelled out

  lemma {:induction false} DistinctCount(keys: seq<nat>)
    requires AllDifferent(keys)
    ensures |set k: nat | k in keys| == |keys|
  {
    if keys != [] {
      var before, last := keys[..|keys| - 1], keys[|keys| - 1];
      DistinctCount(before);
      assert (set k: nat | k in keys) == (set k: nat | k in before) + {last};
    }
  }

  lemma NumberedKeys<V>(r: Record<nat, V>)
    requires NumberedRecord(r)
    ensures |r.values| == |r.keys|
    ensures forall k :: k in r.values <==> 1 <= k <= |r.values|
  {
    var ks := set k: nat | k in r.keys;
    DistinctCount(r.keys);
    assert |ks| == |r.keys|;
    assert r.values.Keys == ks;
    forall k: nat | 1 <= k <= |r.keys| ensures k in r.keys { assert r.keys[k - 1] == k; }
  }

  /** What is left and what the tokens cost make up the starting budget. */
  ghost predicate MoneyConserved(s: State, c: Config)
  {
    s.budget + c.tokenCost * |s.tokens.values| as real == c.simulationBudget
  }

  lemma BudgetConserved(setup: Setup, moves: seq<Move>)
    ensures MoneyConserved(Play(Start(setup), moves), setup.config)
  {
    GamesKeepBooks(setup, moves);
    BooksConserveMoney(Play(Start(setup), moves), setup.config);
  }

  lemma BooksConserveMoney(s: State, c: Config)
    requires Books(s, c)
    ensures MoneyConserved(s, c)
  {
    RailsConserveMoney(s.tokens, s.budget, c);
  }

  lemma RailsConserveMoney(tokens: Record<nat, Token>, budget: real, c: Config)
    requires NumberedRecord(tokens) && budget + CostOf(c.tokenCost, |tokens.keys|) == c.simulationBudget
    ensures budget + c.tokenCost * |tokens.values| as real == c.simulationBudget
  {
    NumberedKeys(tokens);
    CostSpelledOut(budget, c.tokenCost, |tokens.values|, c.simulationBudget);
  }

  lemma CostSpelledOut(budget: real, cost: real, n: nat, total: real)
    requires budget + CostOf(cost, n) == total
    ensures budget + cost * n as real == total
  {
    CostIsProduct(cost, n);
  }

  /** No slot rail exceeds its cap. */
  lemma RailsWithinCap(setup: Setup, moves: seq<Move>, reactor: FacilityId)
    ensures var cap := setup.config.tokenCap;
      |ReactorTokens(Play(Start(setup), moves), reactor)| <= (if cap > 0 then cap else 0)
  {
    GamesKeepBooks(setup, moves);
    assert WithinCap(Play(Start(setup), moves).tokens, reactor, setup.config.tokenCap);
  }

  /** Token and job ids are exactly 1..n. */
  lemma IdsAreNumbers(setup: Setup, moves: seq<Move>)
    ensures var s := Play(Start(setup), moves);
      && (forall t :: t in s.tokens.values <==> 1 <= t <= |s.tokens.values|)
      && (forall j :: j in s.jobs.values <==> 1 <= j <= |s.jobs.values|)
  {
    GamesKeepBooks(setup, moves);
    NumberedKeys(Play(Start(setup), moves).tokens);
    NumberedKeys(Play(Start(setup), moves).jobs);
  }

  /**
   The job schedule is exact: an unfinished job has duration minus elapsed days to go, and a finished
   one was finished max(1, duration) days after it was queued. A job belongs to its token's reactor,
   and the slot of an unfinished job's token shows that job, so no token carries two.
   */
  lemma JobsOnSchedule(setup: Setup, moves: seq<Move>, j: nat)
    requires j in Play(Start(setup), moves).jobs.values
    ensures var s := Play(Start(setup), moves); var job := s.jobs.values[j]; var d := setup.config.jobDuration;
      && (if job.status != Complete then job.remaining + s.day == job.queuedDay + d
          else job.completedDay == Some(job.queuedDay + (if d > 1 then d else 1)))
      && job.token in s.tokens.values && s.tokens.values[job.token].reactor == job.reactor
      && (job.status != Complete ==> SlotOf(s, job.token) == Busy(job.token, job.status, job.remaining, j))
  {
    GamesKeepBooks(setup, moves);
    var s := Play(Start(setup), moves);
    assert JobInOrder(s.jobs.values[j], s.tokens.values, s.day, setup.config.jobDuration);
    SlotShowsItsJob(s, s.jobs.values[j].token);
    assert s.jobs.values[j].status != Complete ==> Unfinished(s.jobs.values, j);
  }

  /** Tokens held plus tokens spent are the rewards of the finished jobs, and what is held is never
      negative exactly when the reward is not, or nothing was finished. */
  lemma InsightConserved(setup: Setup, moves: seq<Move>, reactor: FacilityId)
    ensures var s := Play(Start(setup), moves);
      && Held(s, reactor) + Spent(setup, moves, reactor) == setup.config.insightReward * Finished(s, reactor)
      && (Held(s, reactor) >= 0 <==> setup.config.insightReward >= 0 || Finished(s, reactor) == 0)
  {
    GamesBalance(setup, moves, reactor);
    NegativeReward(setup.config.insightReward, Finished(Play(Start(setup), moves), reactor));
  }

  lemma NegativeReward(reward: int, finished: nat)
    ensures reward < 0 && finished > 0 ==> reward * finished < 0
  {
  }
}
