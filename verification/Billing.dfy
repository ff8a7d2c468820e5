/** users.records_used against the rows it is supposed to count, across the billed clean-up. */
module Billing {
  import opened Wrappers
  import opened Seqs
  import opened Ledger
  import opened CleanupPlan
  import opened BilledCleanup

  /** The job was charged, and the charge is still in the user's current period. */
  ghost predicate ChargedNow(s: State, job: Id) {
    && job in s.jobs && s.jobs[job].user in s.users
    && s.jobs[job].billingAppliedAt.Some? && s.users[s.jobs[job].user].periodStart.Some?
    && s.jobs[job].billingAppliedAt.value >= s.users[s.jobs[job].user].periodStart.value
  }

  /** The user's non-duplicate rows on jobs charged in the current period. */
  ghost function BillableNow(s: State, user: Id): set<Id> {
    set id | id in s.results && !s.results[id].isDuplicate && ChargedNow(s, s.results[id].job)
             && s.jobs[s.results[id].job].user == user
  }

  /** records_used is the number of those rows, for every user with a period. */
  ghost predicate BillingOk(s: State) {
    forall u :: u in s.users && s.users[u].periodStart.Some? ==> s.users[u].recordsUsed == |BillableNow(s, u)|
  }

  /** What a commit takes out of each user's billable rows. */
  lemma BillableAfter(s: State, job: Id, expected: set<Id>, hb: bool, hbc: bool, user: Id)
    requires CanCommit(s, job, expected, hb)
    ensures var t := AfterCommit(s, job, hb, hbc);
      && (forall j :: ChargedNow(t, j) <==> ChargedNow(s, j))
      && BillableNow(t, user)
         == BillableNow(s, user)
            - if user == s.jobs[job].user && ChargedNow(s, job) then BillableOf(s, expected) else {}
  {
    DoomedRows(s, job);
    hide NoFanOut, Doomed, Survivors, MovedTo, Copies, Charge;
    var t := AfterCommit(s, job, hb, hbc);
    assert forall j :: ChargedNow(t, j) <==> ChargedNow(s, j);
    assert t.results == s.results - expected;
    forall id | id in s.results
      ensures id in BillableNow(t, user) <==>
        id in BillableNow(s, user) && !(user == s.jobs[job].user && ChargedNow(s, job) && id in BillableOf(s, expected))
    {
    }
  }

  lemma DoomedRows(s: State, job: Id)
    ensures forall id :: id in Doomed(BillableFirst, s, job) ==> id in s.results && s.results[id].job == job
  {
  }

  lemma ChargedRowsCounted(s: State, job: Id)
    requires ChargedNow(s, job)
    ensures BillableOf(s, Doomed(BillableFirst, s, job)) <= BillableNow(s, s.jobs[job].user)
  {
  }

  /** A committed clean-up keeps the counter right exactly when it deletes no billable row,
      or its period flag tells the truth about the job's charge. */
  lemma CleanupKeepsBillingIff(s: State, job: Id, expected: set<Id>, hb: bool, hbc: bool)
    requires CanCommit(s, job, expected, hb) && BillingOk(s)
    ensures BillingOk(AfterCommit(s, job, hb, hbc)) <==>
      BillableOf(s, expected) == {}
      || (PeriodCurrent(s.jobs[job], s.users[s.jobs[job].user], hb) <==> ChargedNow(s, job))
  {
    hide NoFanOut, Doomed, Survivors, MovedTo, Copies, BillableOf, BillableNow, ChargedNow;
    var t := AfterCommit(s, job, hb, hbc);
    var user := s.jobs[job].user;
    forall u | u in s.users && u != user ensures t.users[u] == s.users[u] && BillableNow(t, u) == BillableNow(s, u) {
      BillableAfter(s, job, expected, hb, hbc, u);
    }
    BillableAfter(s, job, expected, hb, hbc, user);
    if ChargedNow(s, job) {
      ChargedRowsCounted(s, job);
    } else if s.users[user].periodStart.None? {
      assert !PeriodCurrent(s.jobs[job], s.users[user], hb);
    }
    ChargedHasPeriod(s, job);
  }

  lemma ChargedHasPeriod(s: State, job: Id)
    ensures ChargedNow(s, job) ==>
      job in s.jobs && s.jobs[job].user in s.users && s.users[s.jobs[job].user].periodStart.Some?
  {
  }

  /** Once billing_applied_at is read, a charged job is told apart by its own charge: the
      counter stays right, and a charge of a prior period is never taken from this one. */
  lemma ChargedJobKeepsBilling(s: State, job: Id, expected: set<Id>, hbc: bool)
    requires CanCommit(s, job, expected, true) && BillingOk(s) && s.jobs[job].billingAppliedAt.Some?
    ensures BillingOk(AfterCommit(s, job, true, hbc))
    ensures !ChargedNow(s, job) ==> AfterCommit(s, job, true, hbc).users == s.users
  {
    CleanupKeepsBillingIff(s, job, expected, true, hbc);
  }

  /** While the counter is right, the decrement of a charged job always fits. */
  lemma GuardNeverFires(s: State, job: Id, hb: bool)
    requires BillingOk(s) && job in s.jobs && s.jobs[job].user in s.users
    requires PeriodCurrent(s.jobs[job], s.users[s.jobs[job].user], hb) ==> ChargedNow(s, job)
    ensures Charge(s, job, hb) != 0 ==> s.users[s.jobs[job].user].recordsUsed >= Charge(s, job, hb)
  {
    if Charge(s, job, hb) != 0 {
      ChargedRowsCounted(s, job);
      SubsetSize(BillableOf(s, Doomed(BillableFirst, s, job)), BillableNow(s, s.jobs[job].user));
    }
  }

  // ---------- where the finished_at fallback goes wrong ----------

  /** Billing and completion share a transaction but read the clock one after the other. */
  predicate ChargedThenFinished(j: Job) {
    j.billingAppliedAt.Some? && j.finishedAt.Some? && j.billingAppliedAt.value <= j.finishedAt.value
  }

  /** The user's period began after the job was charged and before it finished. */
  predicate Straddles(s: State, job: Id) {
    && job in s.jobs && s.jobs[job].user in s.users && ChargedThenFinished(s.jobs[job])
    && s.users[s.jobs[job].user].periodStart.Some?
    && s.jobs[job].billingAppliedAt.value < s.users[s.jobs[job].user].periodStart.value <= s.jobs[job].finishedAt.value
  }

  /** Without the billing_applied_at column a charged job keeps the counter right exactly when
      no billable row goes or the period did not begin between its charge and its end. */
  lemma FinishedAtKeepsBillingIff(s: State, job: Id, expected: set<Id>, hbc: bool)
    requires CanCommit(s, job, expected, false) && BillingOk(s) && ChargedThenFinished(s.jobs[job])
    ensures BillingOk(AfterCommit(s, job, false, hbc)) <==> BillableOf(s, expected) == {} || !Straddles(s, job)
  {
    CleanupKeepsBillingIff(s, job, expected, false, hbc);
    ChargedNeedsPeriod(s, job);
  }

  lemma ChargedNeedsPeriod(s: State, job: Id)
    requires job in s.jobs && s.jobs[job].user in s.users && ChargedThenFinished(s.jobs[job])
    ensures (PeriodCurrent(s.jobs[job], s.users[s.jobs[job].user], false) <==> ChargedNow(s, job)) <==> !Straddles(s, job)
  {
  }

  /** The clean-up may take this job's charge back: nothing billable goes; or the job was charged,
      and finished_at does not stand in for a charge the new period began after; or it was
      never charged, and its finished_at is not taken for a charge of this period. */
  ghost predicate Attributable(s: State, job: Id, hb: bool) {
    && job in s.jobs && s.jobs[job].user in s.users
    && (BillableOf(s, Doomed(BillableFirst, s, job)) == {}
        || if s.jobs[job].billingAppliedAt.Some? then hb || !Straddles(s, job)
           else !PeriodCurrent(s.jobs[job], s.users[s.jobs[job].user], hb))
  }

  /** The whole condition, for charged and uncharged jobs and both builds: exactly the commits
      of attributable jobs keep the counter right. */
  lemma AttributableIff(s: State, job: Id, expected: set<Id>, hb: bool, hbc: bool)
    requires CanCommit(s, job, expected, hb) && BillingOk(s)
    requires s.jobs[job].billingAppliedAt.Some? ==> ChargedThenFinished(s.jobs[job])
    ensures BillingOk(AfterCommit(s, job, hb, hbc)) <==> Attributable(s, job, hb)
  {
    CleanupKeepsBillingIff(s, job, expected, hb, hbc);
    FlagIff(s, job, hb);
    hide BillingOk, AfterCommit, Straddles, ChargedNow, PeriodCurrent, NoFanOut, Doomed;
  }

  lemma FlagIff(s: State, job: Id, hb: bool)
    requires job in s.jobs && s.jobs[job].user in s.users
    requires s.jobs[job].billingAppliedAt.Some? ==> ChargedThenFinished(s.jobs[job])
    ensures (PeriodCurrent(s.jobs[job], s.users[s.jobs[job].user], hb) <==> ChargedNow(s, job))
      <==> if s.jobs[job].billingAppliedAt.Some? then hb || !Straddles(s, job)
           else !PeriodCurrent(s.jobs[job], s.users[s.jobs[job].user], hb)
  {
    if s.jobs[job].billingAppliedAt.Some? { ChargedNeedsPeriod(s, job); }
  }

  function Plain(job: Id, parcel: string): Row {
    Row(job, 1, Scrape(None, Some(parcel), None, None, None, None, None, None, None), false,
        None, None, "not_attempted", None, 0, None, None, None)
  }

  /** Job 7 stored one lead twice; job 8 was charged for one row. The period began at 5. */
  function Example(seven: Job): State {
    State(map[1 := Plain(7, "A"), 2 := Plain(7, "A"), 3 := Plain(8, "B")], map[],
          map[7 := seven, 8 := Job(1, "done", 0, Some(9), Some(9), Some(1))],
          map[1 := User(1, Some(5))], {}, {})
  }

  const UNCHARGED := Job(1, "failed", 0, Some(10), None, None)
  const STRADDLING := Job(1, "done", 0, Some(6), Some(4), Some(2))

  /** The clean-up of a failed job commits, and takes away the charge of the other job. */
  lemma UnchargedJobLosesACharge()
    ensures var s := Example(UNCHARGED);
      && BillingOk(s) && CanCommit(s, 7, {2}, true)
      && AfterCommit(s, 7, true, true).users[1].recordsUsed == 0 && !BillingOk(AfterCommit(s, 7, true, true))
  {
    CleanExample(UNCHARGED, true);
  }

  /** So does, by finished_at alone, the clean-up of a job the new period began inside. */
  lemma StraddlingJobLosesACharge()
    ensures var s := Example(STRADDLING);
      && Straddles(s, 7) && BillingOk(s) && CanCommit(s, 7, {2}, false)
      && AfterCommit(s, 7, false, true).users[1].recordsUsed == 0 && !BillingOk(AfterCommit(s, 7, false, true))
  {
    CleanExample(STRADDLING, false);
  }

  lemma CleanExample(seven: Job, hb: bool)
    requires seven.user == 1 && Terminal(seven.status)
    requires seven.billingAppliedAt.Some? ==> seven.billingAppliedAt.value < 5
    requires EffectiveBilledAt(seven, hb).Some? && EffectiveBilledAt(seven, hb).value >= 5
    ensures var s := Example(seven);
      && BillingOk(s) && CanCommit(s, 7, {2}, hb)
      && AfterCommit(s, 7, hb, true).users[1].recordsUsed == 0 && !BillingOk(AfterCommit(s, 7, hb, true))
  {
    var s := Example(seven);
    assert BillableNow(s, 1) == {3};
    SecondCopyDoomed(seven);
    assert BillableOf(s, {2}) == {2};
    assert NoFanOut(s, 7);
    hide Doomed, NoFanOut, Survivors, MovedTo, Copies;
    CleanupKeepsBillingIff(s, 7, {2}, hb, true);
  }

  lemma FirstCopyFirst(seven: Job)
    ensures var s := Example(seven);
      LexLess(Key(BillableFirst, s, 1), Key(BillableFirst, s, 2)) && !LexLess(Key(BillableFirst, s, 2), Key(BillableFirst, s, 1))
  {
    var s := Example(seven);
    assert !Anchored(s, 1) && !Anchored(s, 2);
    assert Key(BillableFirst, s, 1)[..7] == Key(BillableFirst, s, 2)[..7];
    LastDecides(Key(BillableFirst, s, 1), Key(BillableFirst, s, 2));
    LexTotal(Key(BillableFirst, s, 1), Key(BillableFirst, s, 2));
  }

  lemma SecondCopyDoomed(seven: Job)
    ensures Doomed(BillableFirst, Example(seven), 7) == {2}
  {
    hide Key, SortKey, LexLess;
    var s := Example(seven);
    FirstCopyFirst(seven);
    assert Grouped(s, 1, 2) && !Survives(BillableFirst, s, 2);
    assert Survives(BillableFirst, s, 1);
  }

  lemma {:induction false} LastDecides(a: seq<int>, b: seq<int>)
    requires |a| == |b| > 0 && a[..|a| - 1] == b[..|b| - 1] && a[|a| - 1] < b[|b| - 1]
    ensures LexLess(a, b)
  {
    if |a| > 1 {
      assert a[0] == a[..|a| - 1][0] && b[0] == b[..|b| - 1][0];
      assert a[1..][..|a| - 2] == a[..|a| - 1][1..] && b[1..][..|b| - 2] == b[..|b| - 1][1..];
      LastDecides(a[1..], b[1..]);
    }
  }
}
