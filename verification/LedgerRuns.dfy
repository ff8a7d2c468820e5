/** Whole runs of the ledger: deliveries and period resets by the rest of the system, and the
    four scripts, in any order. Billing, the ledger and provenance stay right throughout. */
module LedgerRuns {
  import opened Wrappers
  import opened Seqs
  import opened Ledger
  import opened CleanupPlan
  import opened BilledCleanup
  import opened BilledResults
  import opened Billing
  import opened SafeCleanup
  import opened Release
  import opened Provenance

  datatype Step =
    | Deliver(job: Id, at: Time, done: Time, rows: map<Id, Row>, claims: map<Id, Claim>)
    | StoreOnly(job: Id, status: string, finished: Option<Time>, rows: map<Id, Row>, claims: map<Id, Claim>)
    | Reset(user: Id, start: Time)
    | BilledCommit(job: Id, expected: set<Id>, hb: bool, hbc: bool)
    | SafeDelete(gone: set<Id>)
    | ReleaseJob(job: Id, wanted: Option<nat>)
    | StampRows(results: map<Id, Row>)
    | Aborted

  // ---------- the environment's steps ----------

  /** A run of a job not billed before adds rows to it, and claims hashes nobody has claimed. */
  ghost predicate CanAdd(s: State, job: Id, rows: map<Id, Row>, claims: map<Id, Claim>) {
    && job in s.jobs && s.jobs[job].user in s.users && s.jobs[job].billingAppliedAt.None?
    && rows.Keys !! s.results.Keys && claims.Keys !! s.claims.Keys
    && (forall id :: id in rows ==>
          rows[id].job == job && rows[id].user == s.jobs[job].user && rows[id].reason != Some("prior_run"))
    && (forall c :: c in claims ==>
          && claims[c].user == s.jobs[job].user && claims[c].firstJob == Some(job)
          && claims[c].firstResult.Some? && claims[c].firstResult.value in rows
          && rows[claims[c].firstResult.value].scrape.dedupHash == Some(claims[c].hash))
    && (forall c, d :: c in claims && d in s.claims && s.claims[d].user == claims[c].user ==> s.claims[d].hash != claims[c].hash)
    && (forall c, d :: c in claims && d in claims && claims[c].hash == claims[d].hash ==> c == d)
  }

  /** A delivery also bills, at a time in the user's current period and no later than it ends. */
  ghost predicate CanDeliver(s: State, job: Id, at: Time, done: Time, rows: map<Id, Row>, claims: map<Id, Claim>) {
    && CanAdd(s, job, rows, claims) && at <= done
    && s.users[s.jobs[job].user].periodStart.Some? && at >= s.users[s.jobs[job].user].periodStart.value
  }

  /** The charge is one unit for every non-duplicate row the job then has. */
  function AfterDeliver(s: State, job: Id, at: Time, done: Time, rows: map<Id, Row>, claims: map<Id, Claim>): State
    requires job in s.jobs && s.jobs[job].user in s.users
  {
    var user, charge := s.jobs[job].user, |BilledRows(s.results + rows, job)|;
    State(
      s.results + rows, s.claims + claims,
      s.jobs[job := s.jobs[job].(status := "done", finishedAt := Some(done), billingAppliedAt := Some(at),
                                 billedCount := Some(charge))],
      s.users[user := s.users[user].(recordsUsed := s.users[user].recordsUsed + charge)],
      s.otherRefs, s.archive)
  }

  /** A run that fails, or is still going, leaves its rows and claims behind, and no charge. */
  function AfterStore(s: State, job: Id, status: string, finished: Option<Time>, rows: map<Id, Row>, claims: map<Id, Claim>): State
    requires job in s.jobs
  {
    s.(results := s.results + rows, claims := s.claims + claims,
       jobs := s.jobs[job := s.jobs[job].(status := status, finishedAt := finished)])
  }

  function AfterReset(s: State, user: Id, start: Time): State {
    s.(users := s.users[user := User(0, Some(start))])
  }

  /** A delivery keeps the counter right, also when the job had stored rows before. */
  lemma DeliveryKeepsBilling(s: State, job: Id, at: Time, done: Time, rows: map<Id, Row>, claims: map<Id, Claim>)
    requires BillingOk(s) && CanDeliver(s, job, at, done, rows, claims)
    ensures BillingOk(AfterDeliver(s, job, at, done, rows, claims))
  {
    DeliverCharges(s, job, at, done, rows, claims);
    DeliveredUncounted(s, job, at, done, rows, claims);
    hide *;
    var t := AfterDeliver(s, job, at, done, rows, claims);
    var user, now := s.jobs[job].user, BilledRows(s.results + rows, job);
    DeliveredRows(s, job, at, done, rows, claims, user);
    OthersKeepRows(s, job, at, done, rows, claims);
    DisjointSum(BillableNow(s, user), now);
    OneUserCharged(s, t, user, |now|);
  }

  lemma OthersKeepRows(s: State, job: Id, at: Time, done: Time, rows: map<Id, Row>, claims: map<Id, Claim>)
    requires CanDeliver(s, job, at, done, rows, claims)
    ensures var t := AfterDeliver(s, job, at, done, rows, claims);
      forall u :: u in s.users && u != s.jobs[job].user ==> BillableNow(t, u) == BillableNow(s, u)
  {
    forall u | u in s.users && u != s.jobs[job].user
      ensures BillableNow(AfterDeliver(s, job, at, done, rows, claims), u) == BillableNow(s, u)
    {
      DeliveredRows(s, job, at, done, rows, claims, u);
      hide *;
    }
  }

  lemma DisjointSum<T>(a: set<T>, b: set<T>)
    requires a !! b
    ensures |a + b| == |a| + |b|
  {
  }

  lemma DeliverCharges(s: State, job: Id, at: Time, done: Time, rows: map<Id, Row>, claims: map<Id, Claim>)
    requires CanDeliver(s, job, at, done, rows, claims)
    ensures job in s.jobs && s.jobs[job].user in s.users && s.users[s.jobs[job].user].periodStart.Some?
    ensures var user := s.jobs[job].user;
      AfterDeliver(s, job, at, done, rows, claims).users
      == s.users[user := s.users[user].(recordsUsed := s.users[user].recordsUsed + |BilledRows(s.results + rows, job)|)]
  {
  }

  /** A job not billed before has no row in the counter yet. */
  lemma DeliveredUncounted(s: State, job: Id, at: Time, done: Time, rows: map<Id, Row>, claims: map<Id, Claim>)
    requires CanDeliver(s, job, at, done, rows, claims)
    ensures BilledRows(s.results + rows, job) !! BillableNow(s, s.jobs[job].user)
  {
  }

  lemma OneUserCharged(s: State, t: State, user: Id, gained: nat)
    requires BillingOk(s) && user in s.users && s.users[user].periodStart.Some?
    requires t.users == s.users[user := s.users[user].(recordsUsed := s.users[user].recordsUsed + gained)]
    requires forall u :: u in s.users && u != user ==> BillableNow(t, u) == BillableNow(s, u)
    ensures BillingOk(t) <==> |BillableNow(t, user)| == |BillableNow(s, user)| + gained
  {
    hide BillableNow;
  }

  lemma DeliveredRows(s: State, job: Id, at: Time, done: Time, rows: map<Id, Row>, claims: map<Id, Claim>, u: Id)
    requires CanDeliver(s, job, at, done, rows, claims)
    ensures BillableNow(AfterDeliver(s, job, at, done, rows, claims), u)
            == BillableNow(s, u) + if u == s.jobs[job].user then BilledRows(s.results + rows, job) else {}
  {
    var t := AfterDeliver(s, job, at, done, rows, claims);
    assert t.results == s.results + rows;
    assert forall j :: ChargedNow(t, j) <==> ChargedNow(s, j) || j == job;
    AddedRows(s, t, job, rows, u);
  }

  lemma AddedRows(s: State, t: State, job: Id, rows: map<Id, Row>, u: Id)
    requires t.results == s.results + rows && rows.Keys !! s.results.Keys && job in s.jobs && job in t.jobs
    requires forall id :: id in rows ==> rows[id].job == job
    requires forall j :: ChargedNow(t, j) <==> ChargedNow(s, j) || j == job
    requires forall j :: j in s.jobs && j in t.jobs ==> t.jobs[j].user == s.jobs[j].user
    ensures BillableNow(t, u) == BillableNow(s, u) + if u == s.jobs[job].user then BilledRows(t.results, job) else {}
  {
  }

  ghost predicate ResetFits(s: State, user: Id, start: Time) {
    forall id :: id in s.results && !s.results[id].isDuplicate && s.results[id].job in s.jobs
                 && s.jobs[s.results[id].job].user == user && s.jobs[s.results[id].job].billingAppliedAt.Some?
                 ==> s.jobs[s.results[id].job].billingAppliedAt.value < start
  }

  /** Rows stored without a charge do not move the counter, nor should they. */
  lemma StoreKeepsBilling(s: State, job: Id, status: string, finished: Option<Time>, rows: map<Id, Row>, claims: map<Id, Claim>)
    requires BillingOk(s) && CanAdd(s, job, rows, claims)
    ensures BillingOk(AfterStore(s, job, status, finished, rows, claims))
  {
    var t := AfterStore(s, job, status, finished, rows, claims);
    assert forall j :: ChargedNow(t, j) <==> ChargedNow(s, j);
    forall u ensures BillableNow(t, u) == BillableNow(s, u) {}
  }

  /** A reset keeps the counter right exactly when no billable row sits on a charge made at
      or after the new period start. */
  lemma ResetKeepsBillingIff(s: State, user: Id, start: Time)
    requires BillingOk(s) && user in s.users
    ensures BillingOk(AfterReset(s, user, start)) <==> ResetFits(s, user, start)
  {
    var t := AfterReset(s, user, start);
    forall u | u in s.users && u != user ensures t.users[u] == s.users[u] && BillableNow(t, u) == BillableNow(s, u) {
      assert forall j :: j in s.jobs && s.jobs[j].user == u ==> (ChargedNow(t, j) <==> ChargedNow(s, j));
    }
    assert BillingOk(t) <==> BillableNow(t, user) == {};
    forall id | id in s.results && !s.results[id].isDuplicate && s.results[id].job in s.jobs && s.jobs[s.results[id].job].user == user
      ensures id in BillableNow(t, user) <==>
        s.jobs[s.results[id].job].billingAppliedAt.Some? && s.jobs[s.results[id].job].billingAppliedAt.value >= start
    {}
  }

  // ---------- one step ----------

  /** The period flag of the clean-up tells the truth about the job's charge, or it is moot. */
  ghost predicate FlagTruthful(s: State, job: Id, hb: bool) {
    && job in s.jobs && s.jobs[job].user in s.users
    && (BillableOf(s, Doomed(BillableFirst, s, job)) == {}
        || (PeriodCurrent(s.jobs[job], s.users[s.jobs[job].user], hb) <==> ChargedNow(s, job)))
  }

  ghost predicate Next(s: State, step: Step, t: State) {
    match step
    case Deliver(job, at, done, rows, claims) =>
      CanDeliver(s, job, at, done, rows, claims) && t == AfterDeliver(s, job, at, done, rows, claims)
    case StoreOnly(job, status, finished, rows, claims) =>
      CanAdd(s, job, rows, claims) && t == AfterStore(s, job, status, finished, rows, claims)
    case Reset(user, start) => user in s.users && t == AfterReset(s, user, start)
    case BilledCommit(job, expected, hb, hbc) => CanCommit(s, job, expected, hb) && t == AfterCommit(s, job, hb, hbc)
    case SafeDelete(gone) =>
      && gone <= s.results.Keys && ClaimsNaming(s.claims, gone) == {} && BillableOf(s, gone) == {}
      && t == Without(s, gone)
    case ReleaseJob(job, wanted) => job in s.jobs && CanRelease(s, job, wanted) && t == AfterRelease(s, job)
    case StampRows(results) => Stamped(s, results) && t == s.(results := results)
    case Aborted => t == s
  }

  /** A charged job was charged no later than it finished. */
  ghost predicate ChargesFinished(s: State) {
    forall j :: j in s.jobs && s.jobs[j].billingAppliedAt.Some? ==> ChargedThenFinished(s.jobs[j])
  }

  /** Everything but the counter. */
  ghost predicate Sound(s: State) {
    LedgerOk(s) && StampsPointBack(s) && ChargesFinished(s)
  }

  ghost predicate Inv(s: State) {
    BillingOk(s) && LedgerOk(s) && StampsPointBack(s)
  }

  /** The step leaves the counter right: a reset has no charge at or after the new start, and a
      clean-up takes back no charge but its job's own. */
  ghost predicate Harmless(s: State, step: Step) {
    match step
    case Reset(user, start) => ResetFits(s, user, start)
    case BilledCommit(job, _, hb, _) => Attributable(s, job, hb)
    case _ => true
  }

  /** The period flag of the clean-up tells the truth exactly on attributable jobs. */
  lemma FlagIsTruthfulIff(s: State, job: Id, hb: bool)
    requires ChargesFinished(s) && job in s.jobs && s.jobs[job].user in s.users
    ensures FlagTruthful(s, job, hb) <==> Attributable(s, job, hb)
  {
    FlagIff(s, job, hb);
  }

  /** What adding rows and claims to one job does, whatever else happens to the job. */
  ghost predicate Added(s: State, t: State, job: Id, rows: map<Id, Row>, claims: map<Id, Claim>) {
    && t.results == s.results + rows && t.claims == s.claims + claims && t.jobs.Keys == s.jobs.Keys
    && forall j :: j in s.jobs ==> t.jobs[j].user == s.jobs[j].user && t.jobs[j].createdAt == s.jobs[j].createdAt
  }

  lemma AddKeepsClaims(s: State, t: State, job: Id, rows: map<Id, Row>, claims: map<Id, Claim>)
    requires ClaimsResolve(s) && SameUser(s) && SameHash(s) && CanAdd(s, job, rows, claims) && Added(s, t, job, rows, claims)
    ensures ClaimsResolve(t) && SameUser(t) && SameHash(t)
  {
    forall c | c in t.claims && t.claims[c].firstResult.Some?
      ensures t.claims[c].firstResult.value in t.results
      ensures t.results[t.claims[c].firstResult.value].user == t.claims[c].user
      ensures t.results[t.claims[c].firstResult.value].scrape.dedupHash == Some(t.claims[c].hash)
    {
      if c in s.claims { assert t.claims[c] == s.claims[c]; } else { assert t.claims[c] == claims[c]; }
    }
    hide CanAdd;
  }

  lemma AddKeepsUnique(s: State, t: State, job: Id, rows: map<Id, Row>, claims: map<Id, Claim>)
    requires ClaimsUnique(s) && CanAdd(s, job, rows, claims) && Added(s, t, job, rows, claims)
    ensures ClaimsUnique(t)
  {
  }

  lemma AddKeepsRows(s: State, t: State, job: Id, rows: map<Id, Row>, claims: map<Id, Claim>)
    requires RowsOwned(s) && StampsPointBack(s) && CanAdd(s, job, rows, claims) && Added(s, t, job, rows, claims)
    ensures RowsOwned(t) && StampsPointBack(t)
  {
  }

  lemma AddKeepsLedger(s: State, t: State, job: Id, rows: map<Id, Row>, claims: map<Id, Claim>)
    requires LedgerOk(s) && StampsPointBack(s) && CanAdd(s, job, rows, claims) && Added(s, t, job, rows, claims)
    ensures LedgerOk(t) && StampsPointBack(t)
  {
    hide ClaimsResolve, SameUser, SameHash, ClaimsUnique, RowsOwned, StampsPointBack;
    AddKeepsClaims(s, t, job, rows, claims);
    AddKeepsUnique(s, t, job, rows, claims);
    AddKeepsRows(s, t, job, rows, claims);
  }

  lemma SubsetRepairs(s: State, gone: set<Id>)
    requires ClaimsNaming(s.claims, gone) == {}
    ensures Repaired(s, Without(s, gone))
  {
    forall c | c in s.claims ensures ClaimFollows(s, Without(s, gone), c) {
      assert c !in ClaimsNaming(s.claims, gone);
    }
  }

  lemma SameBillable(s: State, t: State)
    requires t.jobs == s.jobs && t.users == s.users
    requires forall id :: id in t.results && !t.results[id].isDuplicate ==>
      id in s.results && !s.results[id].isDuplicate && s.results[id].job == t.results[id].job
    requires forall id :: id in s.results && !s.results[id].isDuplicate ==>
      id in t.results && !t.results[id].isDuplicate && s.results[id].job == t.results[id].job
    ensures BillingOk(s) ==> BillingOk(t)
  {
    forall u ensures BillableNow(t, u) == BillableNow(s, u) {
      assert forall j :: ChargedNow(t, j) <==> ChargedNow(s, j);
    }
  }

  lemma StampKeepsLedger(s: State, results: map<Id, Row>)
    requires LedgerOk(s) && Stamped(s, results)
    ensures LedgerOk(s.(results := results))
    ensures forall id :: id in s.results ==>
      results[id] == s.results[id].(reason := results[id].reason, sourceJob := results[id].sourceJob, sourceAt := results[id].sourceAt)
  {
  }

  lemma CommitKeepsInv(s: State, job: Id, expected: set<Id>, hb: bool, hbc: bool)
    requires Inv(s) && CanCommit(s, job, expected, hb) && FlagTruthful(s, job, hb)
    ensures Inv(AfterCommit(s, job, hb, hbc))
  {
    hide NoFanOut, Doomed, Survivors, MovedTo, Copies, BillableOf, ChargedNow, BillingOk, LedgerOk;
    var t := AfterCommit(s, job, hb, hbc);
    CleanupKeepsBillingIff(s, job, expected, hb, hbc);
    CommitRepairs(s, job, expected, hb, hbc);
    LedgerKept(s, t);
    FewerRowsPointBack(s, t);
  }

  lemma LedgerKept(s: State, t: State)
    requires LedgerOk(s) && Repaired(s, t)
    ensures LedgerOk(t)
  {
    RepairKeepsLedger(s, t);
  }

  lemma FewerRowsPointBack(s: State, t: State)
    requires StampsPointBack(s) && forall id :: id in t.results ==> id in s.results && t.results[id] == s.results[id]
    requires t.jobs.Keys == s.jobs.Keys && forall j :: j in s.jobs ==>
      t.jobs[j].user == s.jobs[j].user && t.jobs[j].createdAt == s.jobs[j].createdAt
    ensures StampsPointBack(t)
  {
  }

  lemma DeleteKeeps(s: State, gone: set<Id>)
    requires LedgerOk(s) && StampsPointBack(s) && ClaimsNaming(s.claims, gone) == {} && BillableOf(s, gone) == {}
    ensures var t := Without(s, gone); LedgerOk(t) && StampsPointBack(t) && (BillingOk(s) ==> BillingOk(t))
  {
    hide BillingOk, LedgerOk, StampsPointBack, Repaired;
    var t := Without(s, gone);
    forall id | id in s.results && !s.results[id].isDuplicate ensures id !in gone {
      assert id !in BillableOf(s, gone);
    }
    SubsetRepairs(s, gone);
    SameBillable(s, t);
    LedgerKept(s, t);
    FewerRowsPointBack(s, t);
  }

  lemma StampKeeps(s: State, results: map<Id, Row>)
    requires LedgerOk(s) && StampsPointBack(s) && Stamped(s, results)
    ensures var t := s.(results := results); LedgerOk(t) && StampsPointBack(t) && (BillingOk(s) ==> BillingOk(t))
  {
    hide BillingOk, LedgerOk, StampsPointBack;
    StampKeepsLedger(s, results);
    SameBillable(s, s.(results := results));
    BackfillPointsBack(s, results);
  }

  lemma ReleaseKeeps(s: State, job: Id)
    requires LedgerOk(s) && StampsPointBack(s) && job in s.jobs
    ensures var t := AfterRelease(s, job); LedgerOk(t) && StampsPointBack(t) && (BillingOk(s) ==> BillingOk(t))
  {
    hide BillingOk;
    SameBillable(s, AfterRelease(s, job));
  }

  lemma CommitKeeps(s: State, job: Id, expected: set<Id>, hb: bool, hbc: bool)
    requires LedgerOk(s) && StampsPointBack(s) && CanCommit(s, job, expected, hb)
    ensures LedgerOk(AfterCommit(s, job, hb, hbc)) && StampsPointBack(AfterCommit(s, job, hb, hbc))
  {
    hide NoFanOut, Doomed, Survivors, MovedTo, Copies, BillableOf, LedgerOk;
    var t := AfterCommit(s, job, hb, hbc);
    CommitRepairs(s, job, expected, hb, hbc);
    LedgerKept(s, t);
    FewerRowsPointBack(s, t);
  }

  lemma ResetKeeps(s: State, user: Id, start: Time)
    requires LedgerOk(s) && StampsPointBack(s)
    ensures LedgerOk(AfterReset(s, user, start)) && StampsPointBack(AfterReset(s, user, start))
  {
    hide LedgerOk, StampsPointBack;
    var t := AfterReset(s, user, start);
    forall c | c in s.claims ensures ClaimFollows(s, t, c) {}
    LedgerKept(s, t);
    FewerRowsPointBack(s, t);
  }

  /** A charge, once made, stays on its job as it was. */
  lemma StepKeepsCharges(s: State, step: Step, t: State)
    requires ChargesFinished(s) && Next(s, step, t)
    ensures ChargesFinished(t)
  {
    hide CanCommit, BilledRows, Doomed, Survivors, MovedTo, Copies, Charge, Straddles, CanRelease, Proves, BillableOf, Stamped;
    match step
    case BilledCommit(job, expected, hb, hbc) => CommitKeepsJobs(s, job, expected, hb, hbc);
    case _ =>
  }

  lemma CommitKeepsJobs(s: State, job: Id, expected: set<Id>, hb: bool, hbc: bool)
    requires CanCommit(s, job, expected, hb)
    ensures var t := AfterCommit(s, job, hb, hbc);
      t.jobs.Keys == s.jobs.Keys && forall j :: j in s.jobs ==> t.jobs[j] == s.jobs[j].(billedCount := t.jobs[j].billedCount)
  {
    hide NoFanOut, Doomed, Survivors, MovedTo, Copies, Charge;
  }

  /** Every step keeps the ledger, the stamps and the charges; and the counter stays right
      exactly when the step is harmless. */
  lemma StepKeepsInv(s: State, step: Step, t: State)
    requires Sound(s) && Next(s, step, t)
    ensures Sound(t)
    ensures BillingOk(s) ==> (BillingOk(t) <==> Harmless(s, step))
  {
    hide *;
    SoundIs(s);
    StepKeepsCharges(s, step, t);
    if step.Deliver? || step.StoreOnly? || step.Reset? {
      EnvironmentKeeps(s, step, t);
    } else {
      ScriptKeeps(s, step, t);
    }
    SoundIs(t);
  }

  lemma SoundIs(s: State)
    ensures Sound(s) <==> LedgerOk(s) && StampsPointBack(s) && ChargesFinished(s)
  {
  }

  lemma DeliverAdds(s: State, job: Id, at: Time, done: Time, rows: map<Id, Row>, claims: map<Id, Claim>)
    requires CanAdd(s, job, rows, claims)
    ensures job in s.jobs && s.jobs[job].user in s.users
    ensures Added(s, AfterDeliver(s, job, at, done, rows, claims), job, rows, claims)
  {
  }

  lemma StoreAdds(s: State, job: Id, status: string, finished: Option<Time>, rows: map<Id, Row>, claims: map<Id, Claim>)
    requires CanAdd(s, job, rows, claims)
    ensures job in s.jobs && Added(s, AfterStore(s, job, status, finished, rows, claims), job, rows, claims)
  {
  }

  lemma EnvironmentKeeps(s: State, step: Step, t: State)
    requires Sound(s) && Next(s, step, t) && (step.Deliver? || step.StoreOnly? || step.Reset?)
    ensures LedgerOk(t) && StampsPointBack(t)
    ensures BillingOk(s) ==> (BillingOk(t) <==> Harmless(s, step))
  {
    hide BillingOk, LedgerOk, StampsPointBack, CanAdd, ChargesFinished, ResetFits, BilledRows, AfterDeliver, AfterStore, Added,
      AfterReset;
    match step
    case Deliver(job, at, done, rows, claims) =>
      DeliverAdds(s, job, at, done, rows, claims);
      AddKeepsLedger(s, t, job, rows, claims);
      if BillingOk(s) { DeliveryKeepsBilling(s, job, at, done, rows, claims); }
    case StoreOnly(job, status, finished, rows, claims) =>
      StoreAdds(s, job, status, finished, rows, claims);
      AddKeepsLedger(s, t, job, rows, claims);
      if BillingOk(s) { StoreKeepsBilling(s, job, status, finished, rows, claims); }
    case Reset(user, start) =>
      ResetKeeps(s, user, start);
      if BillingOk(s) { ResetKeepsBillingIff(s, user, start); }
  }

  lemma ScriptKeeps(s: State, step: Step, t: State)
    requires Sound(s) && Next(s, step, t) && !step.Deliver? && !step.StoreOnly? && !step.Reset?
    ensures LedgerOk(t) && StampsPointBack(t)
    ensures BillingOk(s) ==> (BillingOk(t) <==> Harmless(s, step))
  {
    hide BillingOk, LedgerOk, StampsPointBack, CanCommit, AfterCommit, Stamped, CanRelease, AfterRelease, ChargesFinished,
      Attributable, Without, BillableOf, ClaimsNaming;
    match step
    case BilledCommit(job, expected, hb, hbc) =>
      CommitKeeps(s, job, expected, hb, hbc);
      ChargedJob(s, job, expected, hb);
      if BillingOk(s) { AttributableIff(s, job, expected, hb, hbc); }
    case SafeDelete(gone) => DeleteKeeps(s, gone);
    case ReleaseJob(job, wanted) => ReleaseKeeps(s, job);
    case StampRows(results) => StampKeeps(s, results);
    case Aborted =>
  }

  lemma ChargedJob(s: State, job: Id, expected: set<Id>, hb: bool)
    requires ChargesFinished(s) && CanCommit(s, job, expected, hb)
    ensures job in s.jobs && (s.jobs[job].billingAppliedAt.Some? ==> ChargedThenFinished(s.jobs[job]))
  {
  }

  /** The batches the safe clean-up commits are SafeDelete steps: from any point of its run to
      any later one, on the ledger and scope it accepts. */
  lemma SafeBatchesAreSteps(s: State, jobs: set<Id>, before: set<Id>, after: set<Id>)
    requires LedgerOk(s) && Allowed(s, jobs) && before <= after <= ToDelete(s, jobs)
    ensures Next(Without(s, before), SafeDelete(after - before), Without(s, after))
  {
    var w, gone := Without(s, before), after - before;
    forall c | c in s.claims ensures c !in ClaimsNaming(w.claims, gone) {
      if s.claims[c].firstResult.Some? && s.claims[c].firstResult.value in gone {
        assert Names(s, c, s.claims[c].firstResult.value);
        AnchorSurvives(s, c, s.claims[c].firstResult.value);
      }
    }
    forall id | id in gone ensures id !in BillableOf(w, gone) {
      assert id !in BillableOf(s, ToDelete(s, jobs));
    }
  }

  // ---------- all runs ----------

  ghost predicate IsRun(states: seq<State>, steps: seq<Step>) {
    |states| == |steps| + 1 && forall i :: 0 <= i < |steps| ==> Next(states[i], steps[i], states[i + 1])
  }

  /** No step whatever damages the ledger, the stamps or the charges. */
  lemma {:induction false} RunsStaySound(states: seq<State>, steps: seq<Step>, n: nat)
    requires IsRun(states, steps) && Sound(states[0]) && n < |states|
    ensures Sound(states[n])
  {
    if n > 0 {
      RunsStaySound(states, steps, n - 1);
      StepKeepsInv(states[n - 1], steps[n - 1], states[n]);
    }
  }

  /** As long as the steps are harmless the counter is right, and the decrement guard never
      fires on a job whose charge is its own. */
  lemma {:induction false} RunsStayRight(states: seq<State>, steps: seq<Step>, n: nat)
    requires IsRun(states, steps) && Sound(states[0]) && BillingOk(states[0]) && n < |states|
    requires forall i :: 0 <= i < n ==> Harmless(states[i], steps[i])
    ensures Sound(states[n]) && BillingOk(states[n])
    ensures forall job, hb :: Attributable(states[n], job, hb) && Charge(states[n], job, hb) != 0 ==>
      states[n].users[states[n].jobs[job].user].recordsUsed >= Charge(states[n], job, hb)
  {
    hide Sound, BillingOk, Harmless, Next;
    if n > 0 {
      RunsStayRight(states, steps, n - 1);
      StepKeepsInv(states[n - 1], steps[n - 1], states[n]);
    }
    var s := states[n];
    forall job, hb | Attributable(s, job, hb) && Charge(s, job, hb) != 0
      ensures s.users[s.jobs[job].user].recordsUsed >= Charge(s, job, hb)
    {
      GuardHolds(s, job, hb);
    }
  }

  lemma GuardHolds(s: State, job: Id, hb: bool)
    requires Sound(s) && BillingOk(s) && Attributable(s, job, hb)
    ensures Charge(s, job, hb) != 0 ==> s.users[s.jobs[job].user].recordsUsed >= Charge(s, job, hb)
  {
    if Charge(s, job, hb) != 0 {
      FlagIff(s, job, hb);
      GuardNeverFires(s, job, hb);
    }
  }

  /** The counter is right in every state of a run exactly when every step is harmless. */
  lemma {:induction false} RunsStayRightIff(states: seq<State>, steps: seq<Step>)
    requires IsRun(states, steps) && Sound(states[0]) && BillingOk(states[0])
    ensures (forall i :: 0 <= i < |states| ==> BillingOk(states[i])) <==> forall i :: 0 <= i < |steps| ==> Harmless(states[i], steps[i])
  {
    hide Sound, BillingOk, Harmless, Next, Attributable, Charge;
    if forall i :: 0 <= i < |steps| ==> Harmless(states[i], steps[i]) {
      forall i | 0 <= i < |states| ensures BillingOk(states[i]) { RunsStayRight(states, steps, i); }
    }
    if forall i :: 0 <= i < |states| ==> BillingOk(states[i]) {
      forall i | 0 <= i < |steps| ensures Harmless(states[i], steps[i]) {
        RunsStaySound(states, steps, i);
        assert BillingOk(states[i]) && BillingOk(states[i + 1]);
        StepKeepsInv(states[i], steps[i], states[i + 1]);
      }
    }
  }

  /** Where every stored row was charged, the only clean-up that does harm is that of a job the
      period began inside, in the build that has finished_at alone. */
  ghost predicate RowsCharged(s: State) {
    forall r :: r in s.results && !s.results[r].isDuplicate && s.results[r].job in s.jobs ==>
      ChargedThenFinished(s.jobs[s.results[r].job])
  }

  predicate HasUser(s: State, job: Id) { job in s.jobs && s.jobs[job].user in s.users }

  lemma ChargedRowsAttributable(s: State, job: Id, hb: bool)
    requires RowsCharged(s) && HasUser(s, job) && (hb || !Straddles(s, job))
    ensures Attributable(s, job, hb)
  {
    DoomedRows(s, job);
    var gone := BillableOf(s, Doomed(BillableFirst, s, job));
    if id :| id in gone {
      assert ChargedThenFinished(s.jobs[s.results[id].job]);
    }
  }

  /** Runs of deliveries, without rows stored uncharged, stay so. */
  lemma {:induction false} DeliveredRunsAttributable(states: seq<State>, steps: seq<Step>, n: nat)
    requires IsRun(states, steps) && RowsCharged(states[0]) && n < |states|
    requires forall i :: 0 <= i < n ==> !steps[i].StoreOnly?
    ensures RowsCharged(states[n])
    ensures forall job, hb :: HasUser(states[n], job) && (hb || !Straddles(states[n], job)) ==> Attributable(states[n], job, hb)
  {
    hide RowsCharged, Next, Attributable, Straddles, HasUser;
    if n > 0 {
      DeliveredRunsAttributable(states, steps, n - 1);
      DeliveryChargesRows(states[n - 1], steps[n - 1], states[n]);
    }
    forall job, hb | HasUser(states[n], job) && (hb || !Straddles(states[n], job))
      ensures Attributable(states[n], job, hb)
    {
      ChargedRowsAttributable(states[n], job, hb);
    }
  }

  lemma DeliveryChargesRows(s: State, step: Step, t: State)
    requires RowsCharged(s) && Next(s, step, t) && !step.StoreOnly?
    ensures RowsCharged(t)
  {
    hide CanCommit, BilledRows, Doomed, Survivors, MovedTo, Copies, Charge, Straddles, CanRelease, Proves;
    match step
    case BilledCommit(job, expected, hb, hbc) =>
      CommitKeepsJobs(s, job, expected, hb, hbc);
    case StampRows(results) => StampKeepsRows(s, results);
    case _ =>
  }

  lemma StampKeepsRows(s: State, results: map<Id, Row>)
    requires Stamped(s, results)
    ensures results.Keys == s.results.Keys
    ensures forall r :: r in s.results ==> results[r].job == s.results[r].job && results[r].isDuplicate == s.results[r].isDuplicate
  {
  }

  /** The clean-up of a job not charged in this period leaves every user's counter alone exactly
      when the job is attributable. */
  lemma RunsSparePriorChargesIff(states: seq<State>, steps: seq<Step>, i: nat)
    requires IsRun(states, steps) && Sound(states[0]) && i < |steps|
    requires steps[i].BilledCommit? && !ChargedNow(states[i], steps[i].job)
    ensures states[i + 1].users == states[i].users <==> Attributable(states[i], steps[i].job, steps[i].hb)
  {
    RunsStaySound(states, steps, i);
    assert Next(states[i], steps[i], states[i + 1]);
    var s, job, hb := states[i], steps[i].job, steps[i].hb;
    FlagIff(s, job, hb);
    hide NoFanOut, Doomed, Survivors, MovedTo, Copies, BilledRows, Sound, LedgerOk, ChargedNow, Straddles;
    SpentIff(s, job, hb, steps[i].hbc);
  }

  lemma SpentIff(s: State, job: Id, hb: bool, hbc: bool)
    requires job in s.jobs && s.jobs[job].user in s.users
    ensures AfterCommit(s, job, hb, hbc).users == s.users <==> Charge(s, job, hb) == 0
  {
    var user := s.jobs[job].user;
    assert AfterCommit(s, job, hb, hbc).users[user].recordsUsed == s.users[user].recordsUsed - Charge(s, job, hb);
  }

  /** Job 7 of the example before it stored its rows. */
  function BeforeStore(): State {
    var s := Example(UNCHARGED);
    s.(results := map[3 := Plain(8, "B")], jobs := s.jobs[7 := Job(1, "running", 0, None, None, None)])
  }

  function StoreTwice(): Step {
    StoreOnly(7, "failed", Some(10), map[1 := Plain(7, "A"), 2 := Plain(7, "A")], map[])
  }

  lemma StartIsSound()
    ensures Sound(BeforeStore()) && BillingOk(BeforeStore())
  {
    assert BillableNow(BeforeStore(), 1) == {3};
    assert |{3}| == 1;
  }

  lemma StoreStep()
    ensures Next(BeforeStore(), StoreTwice(), Example(UNCHARGED))
  {
    var rows := StoreTwice().rows;
    assert Example(UNCHARGED).results == BeforeStore().results + rows && Example(UNCHARGED).claims == map[] + map[];
    assert CanAdd(BeforeStore(), 7, rows, map[]);
    assert Example(UNCHARGED).jobs == BeforeStore().jobs[7 := BeforeStore().jobs[7].(status := "failed", finishedAt := Some(10))];
    hide CanAdd;
  }

  /** The harm is within reach: a job stores one lead twice and fails, and its clean-up takes
      away the charge of another job. */
  lemma StoredJobBreaksARun() returns (states: seq<State>, steps: seq<Step>)
    ensures IsRun(states, steps) && |states| == 3 && Sound(states[0]) && BillingOk(states[0])
    ensures steps[0].StoreOnly? && steps[1].BilledCommit? && steps[1].hb && !BillingOk(states[2])
  {
    hide *;
    UnchargedJobLosesACharge();
    StartIsSound();
    StoreStep();
    var s, commit := Example(UNCHARGED), BilledCommit(7, {2}, true, true);
    CommitStep(s, 7, {2}, true, true);
    states, steps := [BeforeStore(), s, AfterCommit(s, 7, true, true)], [StoreTwice(), commit];
    TwoSteps(BeforeStore(), s, AfterCommit(s, 7, true, true), StoreTwice(), commit);
    StoreTwiceIs();
  }

  lemma StoreTwiceIs()
    ensures StoreTwice().StoreOnly?
  {
  }

  lemma CommitStep(s: State, job: Id, expected: set<Id>, hb: bool, hbc: bool)
    requires CanCommit(s, job, expected, hb)
    ensures job in s.jobs && s.jobs[job].user in s.users
    ensures Next(s, BilledCommit(job, expected, hb, hbc), AfterCommit(s, job, hb, hbc))
  {
  }

  lemma TwoSteps(a: State, b: State, c: State, x: Step, y: Step)
    requires Next(a, x, b) && Next(b, y, c)
    ensures IsRun([a, b, c], [x, y])
  {
    hide Next;
  }
}
