/** The per-job loop of scripts/cleanup_watchdog_billed_dups.py: one transaction a job, one
    job's failure is its own, and on a sound ledger none fails. */
module BilledRun {
  import opened Wrappers
  import opened Seqs
  import opened Ledger
  import opened CleanupPlan
  import opened Store
  import opened BilledCleanup
  import opened BilledResults
  import opened Billing
  import opened Provenance
  import opened LedgerRuns

  /** A job of the scope that only the ledger invariants are still needed for. */
  ghost predicate Ready(s: State, job: Id, hb: bool) {
    && job in s.jobs && Terminal(s.jobs[job].status) && s.jobs[job].user in s.users
    && EffectiveBilledAt(s.jobs[job], hb).Some?
    && FlagTruthful(s, job, hb)
    && Doomed(BillableFirst, s, job) !! s.otherRefs
  }

  /** Every attributable job that a run of harmless steps can produce is ready once it is over
      and no other table refers to its copies. */
  lemma ReachableIsReady(states: seq<State>, steps: seq<Step>, n: nat, job: Id, hb: bool)
    requires IsRun(states, steps) && Sound(states[0]) && BillingOk(states[0]) && n < |states|
    requires forall i :: 0 <= i < n ==> Harmless(states[i], steps[i])
    requires var s := states[n];
      && job in s.jobs && Terminal(s.jobs[job].status) && s.jobs[job].user in s.users
      && EffectiveBilledAt(s.jobs[job], hb).Some? && Attributable(s, job, hb)
      && Doomed(BillableFirst, s, job) !! s.otherRefs
    ensures Inv(states[n]) && Ready(states[n], job, hb)
  {
    RunsStayRight(states, steps, n);
    FlagIsTruthfulIff(states[n], job, hb);
  }

  lemma LedgerNoFanOut(s: State, job: Id)
    requires LedgerOk(s)
    ensures NoFanOut(s, job)
  {
    forall c, d, id | Names(s, c, id) && Names(s, d, id) && id in s.results ensures c == d {
      OneClaimPerGroup(s, c, d, id, id);
    }
  }

  lemma ReadyCommits(s: State, job: Id, hb: bool)
    requires Inv(s) && Ready(s, job, hb)
    ensures CanCommit(s, job, Doomed(BillableFirst, s, job), hb) && FlagTruthful(s, job, hb)
  {
    LedgerNoFanOut(s, job);
    if Charge(s, job, hb) != 0 { GuardNeverFires(s, job, hb); }
  }

  /** A commit moves claims only between rows of its own job. */
  lemma AnchorsElsewhere(s: State, job: Id, hb: bool, hbc: bool, id: Id)
    requires CanCommit(s, job, Doomed(BillableFirst, s, job), hb) && id in s.results && s.results[id].job != job
    ensures var t := AfterCommit(s, job, hb, hbc);
      && id in t.results && t.results[id] == s.results[id]
      && (forall c :: Names(t, c, id) <==> Names(s, c, id)) && (Anchored(t, id) <==> Anchored(s, id))
  {
    var t := AfterCommit(s, job, hb, hbc);
    forall c ensures Names(t, c, id) <==> Names(s, c, id) {
      if c in s.claims { ClaimAfter(s, job, Doomed(BillableFirst, s, job), hb, hbc, c); }
    }
  }

  lemma SameElsewhere(s: State, job: Id, hb: bool, hbc: bool, other: Id, id: Id)
    requires CanCommit(s, job, Doomed(BillableFirst, s, job), hb) && other != job
    requires id in s.results && s.results[id].job == other
    ensures var t := AfterCommit(s, job, hb, hbc);
      id in t.results && (Survives(BillableFirst, t, id) <==> Survives(BillableFirst, s, id))
  {
    hide AfterCommit, Doomed, NoFanOut, Charge;
    var t := AfterCommit(s, job, hb, hbc);
    RowsAfter(s, job, hb, hbc);
    AnchorsElsewhere(s, job, hb, hbc, id);
    forall o ensures Grouped(t, o, id) <==> Grouped(s, o, id)
             ensures Grouped(s, o, id) ==> Key(BillableFirst, t, o) == Key(BillableFirst, s, o)
    {
      if Grouped(s, o, id) { AnchorsElsewhere(s, job, hb, hbc, o); }
    }
    assert Grouped(s, id, id);
  }

  lemma RowsAfter(s: State, job: Id, hb: bool, hbc: bool)
    requires CanCommit(s, job, Doomed(BillableFirst, s, job), hb)
    ensures var t := AfterCommit(s, job, hb, hbc);
      && t.results == s.results - Doomed(BillableFirst, s, job)
      && (forall id :: id in t.results ==> id in s.results && t.results[id] == s.results[id])
      && t.otherRefs == s.otherRefs
  {
  }

  lemma DoomedElsewhere(s: State, job: Id, hb: bool, hbc: bool, other: Id)
    requires CanCommit(s, job, Doomed(BillableFirst, s, job), hb) && other != job
    ensures Doomed(BillableFirst, AfterCommit(s, job, hb, hbc), other) == Doomed(BillableFirst, s, other)
  {
    var t := AfterCommit(s, job, hb, hbc);
    RowsAfter(s, job, hb, hbc);
    hide AfterCommit, CanCommit, Survives;
    forall id ensures id in Doomed(BillableFirst, t, other) <==> id in Doomed(BillableFirst, s, other) {
      if id in s.results && s.results[id].job == other { SameElsewhere(s, job, hb, hbc, other, id); }
    }
  }

  lemma BillableElsewhere(s: State, job: Id, hb: bool, hbc: bool, other: Id)
    requires CanCommit(s, job, Doomed(BillableFirst, s, job), hb) && other != job
    ensures var t := AfterCommit(s, job, hb, hbc);
      BillableOf(t, Doomed(BillableFirst, s, other)) == BillableOf(s, Doomed(BillableFirst, s, other))
  {
    RowsAfter(s, job, hb, hbc);
    DoomedRows(s, job);
    DoomedRows(s, other);
    hide AfterCommit, CanCommit, Doomed;
  }

  /** Cleaning one job leaves the plan and the readiness of every other job as they were. */
  lemma OtherJobUntouched(s: State, job: Id, hb: bool, hbc: bool, other: Id)
    requires CanCommit(s, job, Doomed(BillableFirst, s, job), hb) && other != job
    ensures var t := AfterCommit(s, job, hb, hbc);
      Doomed(BillableFirst, t, other) == Doomed(BillableFirst, s, other) && (Ready(s, other, hb) ==> Ready(t, other, hb))
  {
    RowsAfter(s, job, hb, hbc);
    BillableAfter(s, job, Doomed(BillableFirst, s, job), hb, hbc, s.jobs[job].user);
    JobsAfter(s, job, hb, hbc);
    DoomedElsewhere(s, job, hb, hbc, other);
    BillableElsewhere(s, job, hb, hbc, other);
    hide AfterCommit, CanCommit, ChargedNow, Doomed, BillableOf, BillableNow;
  }

  lemma JobsAfter(s: State, job: Id, hb: bool, hbc: bool)
    requires CanCommit(s, job, Doomed(BillableFirst, s, job), hb)
    ensures var t := AfterCommit(s, job, hb, hbc);
      && t.jobs.Keys == s.jobs.Keys && t.users.Keys == s.users.Keys
      && (forall j :: j in s.jobs ==> t.jobs[j] == s.jobs[j].(billedCount := t.jobs[j].billedCount))
      && (forall u :: u in s.users ==> t.users[u].periodStart == s.users[u].periodStart)
  {
  }

  ghost function AllDoomed(s: State, jobs: set<Id>): set<Id> {
    set id | id in s.results && s.results[id].job in jobs && !Survives(BillableFirst, s, id)
  }

  /** Every change of state is one job's whole commit. */
  ghost predicate CommitsOnly(states: seq<State>, hb: bool, hbc: bool) {
    forall i :: 0 <= i < |states| - 1 ==> CommitOrNothing(states[i], states[i + 1], hb, hbc)
  }

  ghost predicate CommitOrNothing(s: State, t: State, hb: bool, hbc: bool) {
    t == s || exists job, expected :: CanCommit(s, job, expected, hb) && t == AfterCommit(s, job, hb, hbc)
  }

  /** What still holds of a sound run between two jobs. */
  ghost predicate OnTrack(start: State, s: State, plan: map<Id, JobPlan>, todo: set<Id>, hb: bool) {
    && Inv(s) && todo <= plan.Keys
    && (forall j :: j in todo ==>
          && Ready(s, j, hb) && Elems(plan[j].deleteIds) == Doomed(BillableFirst, s, j)
          && Doomed(BillableFirst, s, j) == Doomed(BillableFirst, start, j))
    && s.results == start.results - AllDoomed(start, plan.Keys - todo)
  }

  lemma TrackStarts(s: State, out: seq<Joined>, jobs: set<Id>, plan: map<Id, JobPlan>, hb: bool)
    requires Inv(s) && (forall j :: j in jobs ==> Ready(s, j, hb)) && IsJoin(s, jobs, out) && Within(s, out)
    requires plan.Keys <= jobs && forall j :: j in plan ==> PlanFits(BillableFirst, s, out, j, plan[j])
    ensures OnTrack(s, s, plan, plan.Keys, hb)
  {
    forall j | j in plan ensures Elems(plan[j].deleteIds) == Doomed(BillableFirst, s, j) {
      LedgerNoFanOut(s, j);
      CleanList(BillableFirst, s, jobs, out, j);
    }
    assert AllDoomed(s, {}) == {};
  }

  lemma AllDoomedGrows(s: State, jobs: set<Id>, job: Id)
    ensures AllDoomed(s, jobs + {job}) == AllDoomed(s, jobs) + Doomed(BillableFirst, s, job)
  {
  }

  lemma TrackStep(start: State, s: State, plan: map<Id, JobPlan>, todo: set<Id>, job: Id, hb: bool, hbc: bool)
    requires OnTrack(start, s, plan, todo, hb) && job in todo
    ensures var expected := Elems(plan[job].deleteIds);
      && CanCommit(s, job, expected, hb)
      && OnTrack(start, AfterCommit(s, job, hb, hbc), plan, todo - {job}, hb)
  {
    hide Doomed, Ready, Inv, AllDoomed, CanCommit, AfterCommit, Elems;
    var doomed := Doomed(BillableFirst, s, job);
    ReadyCommits(s, job, hb);
    CommitKeepsInv(s, job, doomed, hb, hbc);
    RowsAfter(s, job, hb, hbc);
    forall other | other in todo && other != job
      ensures Doomed(BillableFirst, AfterCommit(s, job, hb, hbc), other) == Doomed(BillableFirst, s, other)
      ensures Ready(AfterCommit(s, job, hb, hbc), other, hb)
    {
      OtherJobUntouched(s, job, hb, hbc, other);
    }
    AllDoomedGrows(start, plan.Keys - todo, job);
    assert plan.Keys - (todo - {job}) == (plan.Keys - todo) + {job};
  }

  lemma TrackSkip(start: State, s: State, plan: map<Id, JobPlan>, todo: set<Id>, job: Id, hb: bool)
    requires OnTrack(start, s, plan, todo, hb) && job in todo && plan[job].deleteIds == []
    ensures OnTrack(start, s, plan, todo - {job}, hb)
  {
    hide Doomed, Ready, Inv, AllDoomed;
    assert Elems(plan[job].deleteIds) == {};
    AllDoomedGrows(start, plan.Keys - todo, job);
    assert plan.Keys - (todo - {job}) == (plan.Keys - todo) + {job};
  }

  lemma PlannedJobsSuffice(s: State, jobs: set<Id>, listed: set<Id>)
    requires forall j :: j in listed <==> j in jobs && exists id :: id in s.results && s.results[id].job == j
    ensures AllDoomed(s, listed) == AllDoomed(s, jobs)
  {
  }

  lemma TrackEnds(start: State, s: State, plan: map<Id, JobPlan>, jobs: set<Id>, hb: bool)
    requires OnTrack(start, s, plan, {}, hb)
    requires forall j :: j in plan <==> j in jobs && exists id :: id in start.results && start.results[id].job == j
    ensures Inv(s) && s.results == start.results - AllDoomed(start, jobs)
  {
    PlannedJobsSuffice(start, jobs, plan.Keys);
    assert plan.Keys - {} == plan.Keys;
  }

  /** states leads from s to t by whole commits. */
  ghost predicate Trace(states: seq<State>, s: State, t: State, hb: bool, hbc: bool) {
    states != [] && states[0] == s && states[|states| - 1] == t && CommitsOnly(states, hb, hbc)
  }

  /** Every row of s is in t as it was, or in the archive as it was; the archive only grows. */
  ghost predicate Preserved(s: State, t: State) {
    && s.archive <= t.archive
    && forall id :: id in s.results ==> (id in t.results && t.results[id] == s.results[id]) || (id, s.results[id]) in t.archive
  }

  lemma CommitPreserves(s: State, t: State, hb: bool, hbc: bool)
    requires CommitOrNothing(s, t, hb, hbc)
    ensures Preserved(s, t)
  {
    if t != s {
      var job, expected :| CanCommit(s, job, expected, hb) && t == AfterCommit(s, job, hb, hbc);
      NothingLost(s, job, expected, hb, hbc);
      assert t.archive == s.archive + Copies(s.results, Doomed(BillableFirst, s, job));
    }
  }

  /** No run loses a row, whatever the tables hold. */
  lemma {:induction false} TracePreserves(states: seq<State>, s: State, t: State, hb: bool, hbc: bool)
    requires Trace(states, s, t, hb, hbc)
    ensures Preserved(s, t)
    decreases |states|
  {
    if |states| > 1 {
      hide CommitOrNothing, Preserved;
      var n := |states| - 1;
      assert CommitOrNothing(states[n - 1], states[n], hb, hbc);
      assert Trace(states[..n], s, states[n - 1], hb, hbc) by {
        forall i | 0 <= i < n - 1 ensures CommitOrNothing(states[..n][i], states[..n][i + 1], hb, hbc) {
          assert CommitOrNothing(states[i], states[i + 1], hb, hbc);
        }
      }
      TracePreserves(states[..n], s, states[n - 1], hb, hbc);
      CommitPreserves(states[n - 1], states[n], hb, hbc);
      PreservedTwice(s, states[n - 1], t);
    }
  }

  lemma PreservedTwice(s: State, u: State, t: State)
    requires Preserved(s, u) && Preserved(u, t)
    ensures Preserved(s, t)
  {
  }

  // ---------- every job's turn, on any tables ----------

  /** The plan lists something for the job: a row that a better one outranks, or that two claims name. */
  ghost predicate Listed(s: State, j: Id) {
    exists id :: id in s.results && s.results[id].job == j && (Outranked(BillableFirst, s, id) || ClaimedTwice(s, id))
  }

  /** What the plan made on s lists for one job. */
  ghost predicate ListFits(s: State, j: Id, entry: JobPlan) {
    && (entry.deleteIds != [] <==> Listed(s, j))
    && (NoFanOut(s, j) ==> Elems(entry.deleteIds) == Doomed(BillableFirst, s, j))
  }

  lemma PlanListFits(s: State, jobs: set<Id>, out: seq<Joined>, j: Id, entry: JobPlan)
    requires IsJoin(s, jobs, out) && Within(s, out) && j in jobs && PlanFits(BillableFirst, s, out, j, entry)
    ensures ListFits(s, j, entry)
  {
    if NoFanOut(s, j) { CleanList(BillableFirst, s, jobs, out, j); }
    hide NoFanOut, IsJoin, RankJoin, DoomedIds, DoomedBilled, ClaimedTwice, Outranked, Survives;
    forall id
      ensures id in entry.deleteIds <==>
        id in s.results && s.results[id].job == j && (Outranked(BillableFirst, s, id) || ClaimedTwice(s, id))
    {
      ListedIff(BillableFirst, s, jobs, out, j, id);
      if id in s.results { OutrankedAt(BillableFirst, s, id); }
    }
    if entry.deleteIds != [] { assert entry.deleteIds[0] in entry.deleteIds; }
  }

  /** Nothing about this job has changed that its transaction looks at, but for the counter. */
  ghost predicate SameJob(s: State, now: State, j: Id) {
    && now.jobs.Keys == s.jobs.Keys && now.users.Keys == s.users.Keys && now.otherRefs == s.otherRefs
    && (forall k :: k in s.jobs ==> now.jobs[k] == s.jobs[k].(billedCount := now.jobs[k].billedCount))
    && (forall u :: u in s.users ==> now.users[u].periodStart == s.users[u].periodStart)
    && Doomed(BillableFirst, now, j) == Doomed(BillableFirst, s, j) && (NoFanOut(now, j) <==> NoFanOut(s, j))
    && BillableOf(now, Doomed(BillableFirst, s, j)) == BillableOf(s, Doomed(BillableFirst, s, j))
  }

  lemma FanOutElsewhere(s: State, job: Id, hb: bool, hbc: bool, other: Id)
    requires CanCommit(s, job, Doomed(BillableFirst, s, job), hb) && other != job
    ensures NoFanOut(AfterCommit(s, job, hb, hbc), other) <==> NoFanOut(s, other)
  {
    var t := AfterCommit(s, job, hb, hbc);
    RowsAfter(s, job, hb, hbc);
    DoomedRows(s, job);
    hide AfterCommit, CanCommit, Doomed;
    forall c, id | id in s.results && s.results[id].job == other
      ensures id in t.results && t.results[id] == s.results[id] && (Names(t, c, id) <==> Names(s, c, id))
    {
      AnchorsElsewhere(s, job, hb, hbc, id);
    }
  }

  lemma SameJobNext(s: State, now: State, job: Id, hb: bool, hbc: bool, j: Id)
    requires SameJob(s, now, j) && CanCommit(now, job, Doomed(BillableFirst, now, job), hb) && j != job
    ensures SameJob(s, AfterCommit(now, job, hb, hbc), j)
  {
    JobsAfter(now, job, hb, hbc);
    RowsAfter(now, job, hb, hbc);
    DoomedElsewhere(now, job, hb, hbc, j);
    BillableElsewhere(now, job, hb, hbc, j);
    FanOutElsewhere(now, job, hb, hbc, j);
    hide AfterCommit, CanCommit, Doomed, BillableOf, NoFanOut;
  }

  /** All the transaction asks of a job but that the counter can absorb the decrement. */
  ghost predicate Sturdy(s: State, j: Id, hb: bool) {
    && j in s.jobs && Terminal(s.jobs[j].status) && !NoTimestamp(s, j, hb) && NoFanOut(s, j)
    && Doomed(BillableFirst, s, j) !! s.otherRefs
  }

  predicate Absorbs(u: State, user: Id, n: nat) { user in u.users && u.users[user].recordsUsed >= n }

  lemma TurnIs(s: State, now: State, j: Id, entry: JobPlan, hb: bool)
    requires SameJob(s, now, j) && ListFits(s, j, entry)
    ensures CanCommit(now, j, Elems(entry.deleteIds), hb) <==>
      Sturdy(s, j, hb) && (Charge(s, j, hb) != 0 ==> Absorbs(now, s.jobs[j].user, Charge(s, j, hb)))
  {
    hide NoFanOut, Doomed, BillableOf, Listed, Elems;
  }

  /** The turns of the listed jobs, one after the other: a job is done exactly when it may commit
      on the database its turn finds, and then that is what it leaves; otherwise it has failed and
      left everything alone. */
  ghost predicate Turns(states: seq<State>, order: seq<Id>, plan: map<Id, JobPlan>, s: State, t: State, done: set<Id>,
                        failed: set<Id>, hb: bool, hbc: bool)
  {
    && |states| == |order| + 1 && states[0] == s && states[|order|] == t
    && NoDup(order) && Elems(order) == done + failed && done !! failed
    && forall n :: 0 <= n < |order| ==> Turn(states[n], states[n + 1], plan, order[n], order[n] in done, hb, hbc)
  }

  ghost predicate Turn(u: State, v: State, plan: map<Id, JobPlan>, j: Id, done: bool, hb: bool, hbc: bool) {
    && j in plan && (done <==> CanCommit(u, j, Elems(plan[j].deleteIds), hb))
    && v == if done then AfterCommit(u, j, hb, hbc) else u
  }

  lemma TurnsMore(states: seq<State>, order: seq<Id>, plan: map<Id, JobPlan>, s: State, u: State, v: State, done: set<Id>,
                  failed: set<Id>, j: Id, ok: bool, hb: bool, hbc: bool)
    requires Turns(states, order, plan, s, u, done, failed, hb, hbc) && Turn(u, v, plan, j, ok, hb, hbc)
    requires j !in done + failed
    ensures Turns(states + [v], order + [j], plan, s, v, if ok then done + {j} else done, if ok then failed else failed + {j}, hb, hbc)
  {
    hide Turn;
    NoDupAppend(order, [j]);
    assert Elems([j]) == {j} && Elems(order + [j]) == Elems(order) + {j};
    var more, d := states + [v], if ok then done + {j} else done;
    forall n | 0 <= n < |order| + 1 ensures Turn(more[n], more[n + 1], plan, (order + [j])[n], (order + [j])[n] in d, hb, hbc) {
      if n < |order| { assert order[n] in Elems(order); }
    }
  }

  /** Between turns: what was done so far is gone, and every job still to come is as it was. */
  ghost predicate UpTo(s: State, now: State, plan: map<Id, JobPlan>, todo: set<Id>, done: set<Id>) {
    && now.results == s.results - AllDoomed(s, done) && todo <= plan.Keys && done !! todo
    && forall j :: j in todo ==> SameJob(s, now, j) && ListFits(s, j, plan[j])
  }

  lemma UpToNext(s: State, now: State, plan: map<Id, JobPlan>, todo: set<Id>, done: set<Id>, j: Id, hb: bool, hbc: bool)
    requires UpTo(s, now, plan, todo, done) && j in todo && CanCommit(now, j, Elems(plan[j].deleteIds), hb)
    ensures UpTo(s, AfterCommit(now, j, hb, hbc), plan, todo - {j}, done + {j})
  {
    CommitIsDoomed(now, j, Elems(plan[j].deleteIds), hb);
    hide CanCommit, AfterCommit, Doomed, AllDoomed, SameJob, ListFits, Elems;
    RowsAfter(now, j, hb, hbc);
    forall k | k in todo - {j} ensures SameJob(s, AfterCommit(now, j, hb, hbc), k) { SameJobNext(s, now, j, hb, hbc, k); }
    SameDoomed(s, now, j);
    AllDoomedGrows(s, done, j);
  }

  lemma CommitIsDoomed(now: State, j: Id, ids: set<Id>, hb: bool)
    requires CanCommit(now, j, ids, hb)
    ensures j in now.jobs && now.jobs[j].user in now.users && CanCommit(now, j, Doomed(BillableFirst, now, j), hb)
  {
  }

  lemma SameDoomed(s: State, now: State, j: Id)
    requires SameJob(s, now, j)
    ensures Doomed(BillableFirst, now, j) == Doomed(BillableFirst, s, j)
  {
  }

  lemma UpToSkip(s: State, now: State, plan: map<Id, JobPlan>, todo: set<Id>, done: set<Id>, j: Id)
    requires UpTo(s, now, plan, todo, done)
    ensures UpTo(s, now, plan, todo - {j}, done)
  {
    hide SameJob, ListFits, AllDoomed;
  }

  lemma UpToStarts(s: State, plan: map<Id, JobPlan>)
    requires forall j :: j in plan ==> ListFits(s, j, plan[j])
    ensures UpTo(s, s, plan, plan.Keys, {}) && Turns([s], [], plan, s, s, {}, {}, true, true) && Turns([s], [], plan, s, s, {}, {}, true, false)
    ensures Turns([s], [], plan, s, s, {}, {}, false, true) && Turns([s], [], plan, s, s, {}, {}, false, false)
  {
    hide ListFits, NoFanOut, Doomed;
    assert AllDoomed(s, {}) == {};
  }

  /** Exactly which turn succeeds: the job is sturdy, and the counter its turn finds can absorb its
      charge, which other jobs of the user may have lowered. */
  lemma {:induction false} TurnIff(states: seq<State>, order: seq<Id>, plan: map<Id, JobPlan>, s: State, t: State, done: set<Id>,
                                   failed: set<Id>, hb: bool, hbc: bool, n: nat)
    requires Turns(states, order, plan, s, t, done, failed, hb, hbc) && n < |order|
    requires forall j :: j in plan ==> ListFits(s, j, plan[j])
    ensures order[n] in done <==>
      Sturdy(s, order[n], hb)
      && (Charge(s, order[n], hb) != 0 ==> Absorbs(states[n], s.jobs[order[n]].user, Charge(s, order[n], hb)))
  {
    TurnFinds(states, order, plan, s, t, done, failed, hb, hbc, n, n);
    hide SameJob, ListFits, Sturdy, Charge, CanCommit, AfterCommit;
    assert Turn(states[n], states[n + 1], plan, order[n], order[n] in done, hb, hbc);
    TurnIs(s, states[n], order[n], plan[order[n]], hb);
  }

  lemma {:induction false} TurnFinds(states: seq<State>, order: seq<Id>, plan: map<Id, JobPlan>, s: State, t: State, done: set<Id>,
                                     failed: set<Id>, hb: bool, hbc: bool, n: nat, k: nat)
    requires Turns(states, order, plan, s, t, done, failed, hb, hbc) && k <= n < |order|
    ensures SameJob(s, states[k], order[n])
  {
    hide SameJob, CanCommit, AfterCommit, Elems;
    if k == 0 {
      SameJobAtFirst(s, order[n]);
    } else {
      TurnFinds(states, order, plan, s, t, done, failed, hb, hbc, n, k - 1);
      assert Turn(states[k - 1], states[k], plan, order[k - 1], order[k - 1] in done, hb, hbc);
      if order[k - 1] in done {
        CommitIsDoomed(states[k - 1], order[k - 1], Elems(plan[order[k - 1]].deleteIds), hb);
        SameJobNext(s, states[k - 1], order[k - 1], hb, hbc, order[n]);
      }
    }
  }

  lemma SameJobAtFirst(s: State, j: Id)
    ensures SameJob(s, s, j)
  {
    hide Doomed, NoFanOut, BillableOf;
  }

  /** The loop over the planned jobs. */
  method ApplyPlans(db: Database, plan: map<Id, JobPlan>, hb: bool, hbc: bool, ghost s: State, ghost sound: bool)
    returns (done: set<Id>, failed: set<Id>, ghost states: seq<State>, ghost order: seq<Id>)
    requires db.View() == s && (sound ==> OnTrack(s, s, plan, plan.Keys, hb))
    requires forall j :: j in plan ==> ListFits(s, j, plan[j])
    modifies db
    ensures Trace(states, s, db.View(), hb, hbc)
    ensures Turns(states, order, plan, s, db.View(), done, failed, hb, hbc)
    ensures done + failed == (set j | j in plan && Listed(s, j)) && done !! failed
    ensures db.View().results == s.results - AllDoomed(s, done)
    ensures sound ==> failed == {} && OnTrack(s, db.View(), plan, {}, hb)
  {
    hide *;
    done, failed, states, order := {}, {}, [s], [];
    NoCommitsYet(s, hb, hbc);
    UpToStarts(s, plan);
    var todo := plan.Keys;
    while todo != {}
      invariant todo <= plan.Keys && done + failed <= plan.Keys - todo && done !! failed
      invariant forall j :: j in plan.Keys - todo ==> (j in done + failed <==> Listed(s, j))
      invariant Trace(states, s, db.View(), hb, hbc) && Turns(states, order, plan, s, db.View(), done, failed, hb, hbc)
      invariant UpTo(s, db.View(), plan, todo, done)
      invariant sound ==> failed == {} && OnTrack(s, db.View(), plan, todo, hb)
      decreases todo
    {
      var job :| job in todo;
      ListedFits(s, job, plan[job]);
      ghost var was := db.View();
      if plan[job].deleteIds == [] {
        if sound { TrackSkip(s, db.View(), plan, todo, job, hb); }
        UpToSkip(s, was, plan, todo, done, job);
      } else {
        if sound { TrackStep(s, db.View(), plan, todo, job, hb, hbc); }
        var outcome, more := ApplyOne(db, job, plan[job], hb, hbc, s, states);
        TurnTaken(was, db.View(), plan, job, outcome.Committed?, hb, hbc);
        TurnsMore(states, order, plan, s, was, db.View(), done, failed, job, outcome.Committed?, hb, hbc);
        states, order := more, order + [job];
        if outcome.Committed? {
          UpToNext(s, was, plan, todo, done, job, hb, hbc);
          done := done + {job};
        } else {
          UpToSkip(s, was, plan, todo, done, job);
          failed := failed + {job};
        }
      }
      todo := todo - {job};
    }
    UpToEnds(s, db.View(), plan, done);
  }

  lemma ListedFits(s: State, j: Id, entry: JobPlan)
    requires ListFits(s, j, entry)
    ensures entry.deleteIds != [] <==> Listed(s, j)
  {
  }

  lemma UpToEnds(s: State, now: State, plan: map<Id, JobPlan>, done: set<Id>)
    requires UpTo(s, now, plan, {}, done)
    ensures now.results == s.results - AllDoomed(s, done)
  {
  }

  lemma TurnTaken(u: State, v: State, plan: map<Id, JobPlan>, j: Id, ok: bool, hb: bool, hbc: bool)
    requires j in plan && (ok <==> CanCommit(u, j, Elems(plan[j].deleteIds), hb))
    requires if ok then v == AfterCommit(u, j, hb, hbc) else v == u
    ensures Turn(u, v, plan, j, ok, hb, hbc)
  {
  }

  method ApplyOne(db: Database, job: Id, entry: JobPlan, hb: bool, hbc: bool, ghost s: State, ghost states: seq<State>)
    returns (outcome: Outcome, ghost more: seq<State>)
    requires Trace(states, s, db.View(), hb, hbc)
    modifies db
    ensures Trace(more, s, db.View(), hb, hbc) && more == states + [db.View()]
    ensures outcome.Committed? <==> CanCommit(old(db.View()), job, Elems(entry.deleteIds), hb)
    ensures outcome.Committed? ==> db.View() == AfterCommit(old(db.View()), job, hb, hbc)
    ensures !outcome.Committed? ==> db.View() == old(db.View())
  {
    hide *;
    outcome := ApplyJob(db, job, Elems(entry.deleteIds), hb, hbc);
    CommitsGrow(states, s, old(db.View()), db.View(), job, Elems(entry.deleteIds), hb, hbc);
    more := states + [db.View()];
  }

  /** main with --commit: the refusal gate, then one transaction for each job with deletions.
      It refuses exactly when a listed job has no timestamp to go by. Otherwise every listed job has
      its turn, and commits whole or fails alone (TurnIff says which); exactly the copies of the
      jobs done are gone. On a sound ledger, with every job of the scope ready, no job fails, every
      copy is gone, and billing is right. */
  method Run(db: Database, jobs: set<Id>, hb: bool, hbc: bool)
    returns (refused: bool, done: set<Id>, failed: set<Id>, ghost states: seq<State>, ghost order: seq<Id>,
             ghost plan: map<Id, JobPlan>)
    modifies db
    ensures Trace(states, old(db.View()), db.View(), hb, hbc) && Preserved(old(db.View()), db.View())
    ensures refused <==> exists j :: j in jobs && Listed(old(db.View()), j) && NoTimestamp(old(db.View()), j, hb)
    ensures refused ==> db.View() == old(db.View()) && done == failed == {}
    ensures !refused ==>
      && (forall j :: j in plan ==> ListFits(old(db.View()), j, plan[j]))
      && Turns(states, order, plan, old(db.View()), db.View(), done, failed, hb, hbc)
      && done + failed == set j | j in jobs && Listed(old(db.View()), j)
    ensures done + failed <= jobs && done !! failed
    ensures db.View().results == old(db.View().results) - AllDoomed(old(db.View()), done)
    ensures Inv(old(db.View())) && (forall j :: j in jobs ==> Ready(old(db.View()), j, hb)) ==>
      && !refused && failed == {} && Inv(db.View())
      && db.View().results == old(db.View().results) - AllDoomed(old(db.View()), jobs)
  {
    hide *;
    ghost var s := db.View();
    ghost var sound := Inv(s) && forall j :: j in jobs ==> Ready(s, j, hb);
    refused, done, failed, states, order, plan := false, {}, {}, [s], [], map[];
    NoCommitsYet(s, hb, hbc);
    TracePreserves(states, s, s, hb, hbc);
    NobodyDone(s);
    var entries, out := Plan(BillableFirst, db.View(), jobs);
    forall j | j in entries ensures ListFits(s, j, entries[j]) && (entries[j].deleteIds != [] <==> Listed(s, j)) {
      PlanListFits(s, jobs, out, j, entries[j]);
      ListedFits(s, j, entries[j]);
    }
    forall j | j in jobs && Listed(s, j) ensures j in entries { ListedHasRows(s, j); }
    if exists j :: j in entries && entries[j].deleteIds != [] && NoTimestamp(db.View(), j, hb) {
      if sound { ReadyHasTimestamps(s, jobs, hb); }
      refused := true;
      return;
    }
    if sound { TrackStarts(s, out, jobs, entries, hb); }
    plan := entries;
    done, failed, states, order := ApplyPlans(db, entries, hb, hbc, s, sound);
    TracePreserves(states, s, db.View(), hb, hbc);
    if sound { TrackEnds(s, db.View(), entries, jobs, hb); }
  }

  lemma NobodyDone(s: State)
    ensures s.results == s.results - AllDoomed(s, {})
  {
  }

  lemma ListedHasRows(s: State, j: Id)
    requires Listed(s, j)
    ensures exists id :: id in s.results && s.results[id].job == j
  {
  }

  predicate NoTimestamp(s: State, j: Id, hb: bool) {
    j !in s.jobs || s.jobs[j].user !in s.users || EffectiveBilledAt(s.jobs[j], hb).None?
  }

  lemma ReadyHasTimestamps(s: State, jobs: set<Id>, hb: bool)
    requires forall j :: j in jobs ==> Ready(s, j, hb)
    ensures forall j :: j in jobs ==> !NoTimestamp(s, j, hb)
  {
  }

  lemma NoCommitsYet(s: State, hb: bool, hbc: bool)
    ensures Trace([s], s, s, hb, hbc)
  {
  }

  lemma CommitsGrow(states: seq<State>, start: State, s: State, t: State, job: Id, expected: set<Id>, hb: bool, hbc: bool)
    requires Trace(states, start, s, hb, hbc)
    requires t == s || (CanCommit(s, job, expected, hb) && t == AfterCommit(s, job, hb, hbc))
    ensures Trace(states + [t], start, t, hb, hbc)
  {
    hide CanCommit, AfterCommit;
    assert CommitOrNothing(s, t, hb, hbc);
    forall i | 0 <= i < |states + [t]| - 1 ensures CommitOrNothing((states + [t])[i], (states + [t])[i + 1], hb, hbc) {
      if i < |states| - 1 {
        assert CommitOrNothing(states[i], states[i + 1], hb, hbc);
      }
    }
  }
}
