/** scripts/cleanup_watchdog_billed_dups.py: delete appended copies that were billed,
    keep one row per record, and take the over-charge back when it is still counted. */
module BilledCleanup {
  import opened Wrappers
  import opened Seqs
  import opened Ledger
  import opened CleanupPlan
  import opened Store

  const BATCH_SIZE: nat := 500

  predicate Terminal(status: string) { status in {"done", "failed", "cancelled"} }

  /** COALESCE(billing_applied_at, finished_at), or finished_at alone before migration 063. */
  function EffectiveBilledAt(j: Job, hasBillingApplied: bool): Option<Time> {
    if hasBillingApplied && j.billingAppliedAt.Some? then j.billingAppliedAt else j.finishedAt
  }

  predicate PeriodCurrent(j: Job, u: User, hasBillingApplied: bool) {
    var at := EffectiveBilledAt(j, hasBillingApplied);
    at.Some? && u.periodStart.Some? && at.value >= u.periodStart.value
  }

  datatype Outcome = Committed(deleted: nat, repointed: nat, decremented: nat) | Refused(reason: string)

  // ---------- what one job's transaction does ----------

  function ClaimsNaming(claims: map<Id, Claim>, ids: set<Id>): set<Id> {
    set c | c in claims && claims[c].firstResult.Some? && claims[c].firstResult.value in ids
  }

  ghost function Moved(c: Claim, target: map<Id, Id>, from: set<Id>): Claim
    requires from <= target.Keys
  {
    if c.firstResult.Some? && c.firstResult.value in from
    then c.(firstResult := Some(target[c.firstResult.value])) else c
  }

  /** Claims on the given rows moved to the rows that replace them. */
  ghost function MovedTo(claims: map<Id, Claim>, target: map<Id, Id>, from: set<Id>): map<Id, Claim>
    requires from <= target.Keys
  {
    map c | c in claims :: Moved(claims[c], target, from)
  }

  ghost function Survivors(p: Policy, s: State): map<Id, Id> {
    map id | id in s.results :: Survivor(p, s, id)
  }

  ghost function Charge(s: State, job: Id, hasBillingApplied: bool): nat
    requires job in s.jobs && s.jobs[job].user in s.users
  {
    if PeriodCurrent(s.jobs[job], s.users[s.jobs[job].user], hasBillingApplied)
    then |BillableOf(s, Doomed(BillableFirst, s, job))| else 0
  }

  /** Everything the transaction checks, as a condition on the state it starts from. */
  ghost predicate CanCommit(s: State, job: Id, expected: set<Id>, hasBillingApplied: bool) {
    && job in s.jobs && Terminal(s.jobs[job].status) && s.jobs[job].user in s.users
    && EffectiveBilledAt(s.jobs[job], hasBillingApplied).Some?
    && NoFanOut(s, job)
    && expected == Doomed(BillableFirst, s, job)
    && expected !! s.otherRefs
    && (Charge(s, job, hasBillingApplied) != 0 ==>
          s.users[s.jobs[job].user].recordsUsed >= Charge(s, job, hasBillingApplied))
  }

  /** The whole condition in terms of the columns: no two claims name one row of the job, and the
      list is the rows of the job for which a better ranked row has the same nine columns. */
  lemma CommitsIff(s: State, job: Id, expected: set<Id>, hb: bool)
    ensures CanCommit(s, job, expected, hb) <==>
      && job in s.jobs && s.jobs[job].user in s.users
      && var j, u := s.jobs[job], s.users[s.jobs[job].user];
         var at := if hb && j.billingAppliedAt.Some? then j.billingAppliedAt else j.finishedAt;
      && (j.status == "done" || j.status == "failed" || j.status == "cancelled") && at.Some?
      && (forall id :: id in s.results && s.results[id].job == job ==> !ClaimedTwice(s, id))
      && (forall id :: id in expected <==> id in s.results && s.results[id].job == job && Outranked(BillableFirst, s, id))
      && (forall id :: id in expected ==> id !in s.otherRefs)
      && (u.periodStart.Some? && at.value >= u.periodStart.value && BillableOf(s, expected) != {} ==>
            u.recordsUsed >= |BillableOf(s, expected)|)
  {
    OutrankedIff(BillableFirst, s, job);
    forall id | id in s.results && s.results[id].job == job && NoFanOut(s, job) ensures !ClaimedTwice(s, id) {}
    if forall id :: id in s.results && s.results[id].job == job ==> !ClaimedTwice(s, id) {
      forall c, d, id | Names(s, c, id) && Names(s, d, id) && id in s.results && s.results[id].job == job ensures c == d {
        assert !ClaimedTwice(s, id);
      }
    }
    hide Outranked, Doomed, NoFanOut, ClaimedTwice;
    assert expected == Doomed(BillableFirst, s, job) <==>
      forall id :: id in expected <==> id in s.results && s.results[id].job == job && Outranked(BillableFirst, s, id);
  }

  /** Another row of the job has the same nine columns and sorts strictly before this one. */
  ghost predicate Outranked(p: Policy, s: State, id: Id) {
    && id in s.results
    && exists o :: o in s.results && o != id && s.results[o].job == s.results[id].job && SameLead(s.results[o], s.results[id])
                   && LexLess(Key(p, s, o), Key(p, s, id))
  }

  lemma OutrankedIff(p: Policy, s: State, job: Id)
    ensures forall id :: id in Doomed(p, s, job) <==> id in s.results && s.results[id].job == job && Outranked(p, s, id)
  {
    forall id | id in s.results && s.results[id].job == job ensures Survives(p, s, id) <==> !Outranked(p, s, id) {
      OutrankedAt(p, s, id);
    }
    hide Survives, Outranked;
  }

  lemma OutrankedAt(p: Policy, s: State, id: Id)
    requires id in s.results
    ensures Survives(p, s, id) <==> !Outranked(p, s, id)
  {
    if Outranked(p, s, id) {
      var o :| o in s.results && o != id && s.results[o].job == s.results[id].job && SameLead(s.results[o], s.results[id])
               && LexLess(Key(p, s, o), Key(p, s, id));
      SameGroupIff(s.results[o], s.results[id]);
      assert Grouped(s, o, id);
      LexTotal(Key(p, s, o), Key(p, s, id));
    } else {
      forall o | Grouped(s, o, id) && o != id ensures LexLess(Key(p, s, id), Key(p, s, o)) {
        SameGroupIff(s.results[o], s.results[id]);
        LexTotal(Key(p, s, o), Key(p, s, id));
      }
    }
  }

  function BilledRows(results: map<Id, Row>, job: Id): set<Id> {
    set id | id in results && results[id].job == job && !results[id].isDuplicate
  }

  function Copies(results: map<Id, Row>, ids: set<Id>): set<(Id, Row)> {
    set id | id in ids && id in results :: (id, results[id])
  }

  ghost function AfterCommit(s: State, job: Id, hasBillingApplied: bool, hasBilledCount: bool): State
    requires job in s.jobs && s.jobs[job].user in s.users
  {
    var doomed := Doomed(BillableFirst, s, job);
    var user := s.jobs[job].user;
    var kept := s.results - doomed;
    State(
      kept,
      MovedTo(s.claims, Survivors(BillableFirst, s), doomed),
      if hasBilledCount then s.jobs[job := s.jobs[job].(billedCount := Some(|BilledRows(kept, job)|))] else s.jobs,
      s.users[user := s.users[user].(recordsUsed := s.users[user].recordsUsed - Charge(s, job, hasBillingApplied))],
      s.otherRefs,
      s.archive + Copies(s.results, doomed))
  }

  // ---------- the statements ----------

  /** A target map that sends every target to itself, as survivors do. */
  ghost predicate Settled(target: map<Id, Id>) {
    forall id :: id in target ==> target[id] in target && target[target[id]] == target[id]
  }

  lemma SurvivorsSettled(p: Policy, s: State)
    ensures Settled(Survivors(p, s))
    ensures forall id :: id in s.results ==> (Survives(p, s, id) <==> Survivors(p, s)[id] == id)
  {
    forall id | id in s.results
      ensures Survivor(p, s, Survivor(p, s, id)) == Survivor(p, s, id)
      ensures Survives(p, s, id) <==> Survivor(p, s, id) == id
    {
      var m := Survivor(p, s, id);
      SurvivorUnique(p, s, m, Survivor(p, s, m));
      if Survives(p, s, id) { SurvivorUnique(p, s, m, id); }
    }
  }

  function Firsts(repoint: seq<(Id, Id)>): set<Id> {
    set pair | pair in repoint :: pair.0
  }

  /** UPDATE delivered_records SET first_result_id = :v WHERE first_result_id = :d. */
  function PointTo(claims: map<Id, Claim>, d: Id, v: Id): map<Id, Claim> {
    map c | c in claims :: if claims[c].firstResult == Some(d) then claims[c].(firstResult := Some(v)) else claims[c]
  }

  /** Moving one more row's claims: a claim that names it now either named it from the
      start, or was moved onto it because it is a target, and then nothing changes. */
  lemma MoveOne(c: Claim, target: map<Id, Id>, done: set<Id>, d: Id)
    requires Settled(target) && done <= target.Keys && d in target
    ensures var m := Moved(c, target, done);
      Moved(c, target, done + {d}) == if m.firstResult == Some(d) then m.(firstResult := Some(target[d])) else m
    ensures target[d] != d ==>
      (Moved(c, target, done).firstResult == Some(d) <==> c.firstResult == Some(d) && d !in done)
  {
  }

  lemma RepointStep(was: map<Id, Claim>, target: map<Id, Id>, done: set<Id>, d: Id)
    requires Settled(target) && done <= target.Keys && d in target
    ensures PointTo(MovedTo(was, target, done), d, target[d]) == MovedTo(was, target, done + {d})
    ensures target[d] != d ==>
      |ClaimsNaming(was, done + {d})| == |ClaimsNaming(was, done)| + |ClaimsNaming(MovedTo(was, target, done), {d})|
  {
    forall c | c in was
      ensures PointTo(MovedTo(was, target, done), d, target[d])[c] == MovedTo(was, target, done + {d})[c]
    {
      MoveOne(was[c], target, done, d);
      hide Moved, Settled;
    }
    hide Moved, Settled, PointTo;
    if target[d] != d {
      NamedAfter(was, target, done, d);
      hide *;
      assert |ClaimsNaming(was, done) + ClaimsNaming(MovedTo(was, target, done), {d})|
          == |ClaimsNaming(was, done)| + |ClaimsNaming(MovedTo(was, target, done), {d})|;
    }
  }

  /** The claims that name one more row are those that name it now. */
  lemma NamedAfter(was: map<Id, Claim>, target: map<Id, Id>, done: set<Id>, d: Id)
    requires Settled(target) && done <= target.Keys && d in target && target[d] != d
    ensures var hit := ClaimsNaming(MovedTo(was, target, done), {d});
      ClaimsNaming(was, done + {d}) == ClaimsNaming(was, done) + hit && ClaimsNaming(was, done) !! hit
  {
    forall c | c in was
      ensures c in ClaimsNaming(MovedTo(was, target, done), {d}) <==> was[c].firstResult == Some(d) && d !in done
    {
      MoveOne(was[c], target, done, d);
      hide Moved, Settled;
    }
    hide Moved, Settled, MovedTo;
  }

  /** The re-point loop, pair by pair. */
  method RepointClaims(was: map<Id, Claim>, repoint: seq<(Id, Id)>, ghost target: map<Id, Id>)
    returns (claims: map<Id, Claim>, moved: nat)
    requires Settled(target)
    requires forall pair :: pair in repoint ==> pair.0 in target && pair.1 == target[pair.0]
    ensures Firsts(repoint) <= target.Keys
    ensures claims == MovedTo(was, target, Firsts(repoint))
    ensures (forall id :: id in Firsts(repoint) ==> target[id] != id) ==> moved == |ClaimsNaming(was, Firsts(repoint))|
  {
    claims, moved := was, 0;
    ghost var done: set<Id> := {};
    for n := 0 to |repoint|
      invariant done == Firsts(repoint[..n]) && done <= target.Keys
      invariant claims == MovedTo(was, target, done)
      invariant (forall id :: id in done ==> target[id] != id) ==> moved == |ClaimsNaming(was, done)|
    {
      RepointStep(was, target, done, repoint[n].0);
      moved := moved + |ClaimsNaming(claims, {repoint[n].0})|;
      claims := PointTo(claims, repoint[n].0, repoint[n].1);
      assert repoint[..n + 1] == repoint[..n] + [repoint[n]];
      done := done + {repoint[n].0};
    }
    assert repoint[..|repoint|] == repoint;
  }

  /** The batches see a list without repeats exactly when each meets only rows not yet taken. */
  lemma ChunkSplits(ids: seq<Id>, k: nat, m: nat)
    requires k <= m <= |ids|
    ensures NoDup(ids[..m]) <==> NoDup(ids[..k]) && NoDup(ids[k..m]) && Elems(ids[..k]) !! Elems(ids[k..m])
    ensures NoDup(ids) ==> NoDup(ids[..m])
    ensures Elems(ids[..m]) == Elems(ids[..k]) + Elems(ids[k..m]) && Elems(ids[..m]) <= Elems(ids)
  {
    assert ids[..m] == ids[..k] + ids[k..m];
    NoDupAppend(ids[..k], ids[k..m]);
    assert ids == ids[..m] + ids[m..];
    NoDupAppend(ids[..m], ids[m..]);
  }

  lemma DeletedTwice(results: map<Id, Row>, claims: map<Id, Claim>, a: set<Id>, b: set<Id>)
    requires a <= results.Keys && b <= results.Keys && a !! b
    ensures results - a - b == results - (a + b)
    ensures SetNull(SetNull(claims, a), b) == SetNull(claims, a + b)
    ensures Copies(results, a) + Copies(results - a, b) == Copies(results, a + b)
  {
    forall pair | pair in Copies(results, a + b) ensures pair in Copies(results, a) + Copies(results - a, b) {
      assert pair.0 in a || pair.0 in (results - a);
    }
    forall pair | pair in Copies(results, a) + Copies(results - a, b) ensures pair in Copies(results, a + b) {
      assert pair.0 in a + b;
    }
  }

  lemma ChunkComplete(chunk: seq<Id>, present: set<Id>)
    requires present <= Elems(chunk)
    ensures |present| == |chunk| <==> present == Elems(chunk) && NoDup(chunk)
  {
    ElemsSize(chunk);
    SubsetSize(present, Elems(chunk));
  }

  /** One batch: archive, then delete; fewer rows than the batch lists is a failure. */
  method ArchiveAndDeleteBatch(rows: map<Id, Row>, claims: map<Id, Claim>, kept: set<(Id, Row)>, chunk: seq<Id>)
    returns (ok: bool, results: map<Id, Row>, left: map<Id, Claim>, archive: set<(Id, Row)>)
    ensures ok <==> NoDup(chunk) && Elems(chunk) <= rows.Keys
    ensures ok ==> results == rows - Elems(chunk) && left == SetNull(claims, Elems(chunk))
    ensures ok ==> archive == kept + Copies(rows, Elems(chunk))
  {
    var present := Elems(chunk) * rows.Keys;
    ChunkComplete(chunk, present);
    ok := |present| == |chunk|;
    results, left, archive := rows - present, SetNull(claims, present), kept + Copies(rows, present);
  }

  /** All batches of one job's transaction. */
  method ArchiveAndDelete(rows: map<Id, Row>, claims: map<Id, Claim>, kept: set<(Id, Row)>, ids: seq<Id>)
    returns (ok: bool, results: map<Id, Row>, left: map<Id, Claim>, archive: set<(Id, Row)>, deleted: nat)
    ensures ok <==> NoDup(ids) && Elems(ids) <= rows.Keys
    ensures ok ==> results == rows - Elems(ids) && left == SetNull(claims, Elems(ids)) && deleted == |ids|
    ensures ok ==> archive == kept + Copies(rows, Elems(ids))
  {
    ok, results, left, archive, deleted := true, rows, claims, kept, 0;
    ghost var done: set<Id> := {};
    var k := 0;
    while k < |ids|
      invariant 0 <= k <= |ids| && deleted == k
      invariant NoDup(ids[..k]) && done == Elems(ids[..k]) && done <= rows.Keys
      invariant ok && results == rows - done && left == SetNull(claims, done)
      invariant archive == kept + Copies(rows, done)
    {
      var m := if k + BATCH_SIZE <= |ids| then k + BATCH_SIZE else |ids|;
      ok, results, left, archive := ArchiveAndDeleteBatch(results, left, archive, ids[k..m]);
      ChunkSplits(ids, k, m);
      if !ok {
        return;
      }
      DeletedTwice(rows, claims, done, Elems(ids[k..m]));
      done := done + Elems(ids[k..m]);
      deleted := deleted + (m - k);
      k := m;
    }
    assert ids[..|ids|] == ids;
  }

  // ---------- one job ----------

  /** After the re-points, the anchor check passes exactly when the list holds no target. */
  lemma AnchorCheck(was: map<Id, Claim>, target: map<Id, Id>, ids: set<Id>, firsts: set<Id>)
    requires Settled(target) && firsts <= ids <= target.Keys
    requires forall id :: id in firsts <==> id in ids && ClaimsNaming(was, {id}) != {}
    requires forall id :: id in ids && target[id] == id ==> id in firsts
    ensures ClaimsNaming(MovedTo(was, target, firsts), ids) == {} <==> forall id :: id in ids ==> target[id] != id
  {
    var claims := MovedTo(was, target, firsts);
    if id :| id in ids && target[id] == id {
      var c :| c in ClaimsNaming(was, {id});
      assert c in ClaimsNaming(claims, ids);
    }
    if c :| c in ClaimsNaming(claims, ids) {
      var o := was[c].firstResult.value;
      assert c in ClaimsNaming(was, {o});
      assert o in firsts ==> target[claims[c].firstResult.value] == claims[c].firstResult.value;
    }
  }

  lemma AnchoredIff(s: State, id: Id)
    ensures Anchored(s, id) <==> ClaimsNaming(s.claims, {id}) != {}
  {
    if c :| Names(s, c, id) { assert c in ClaimsNaming(s.claims, {id}); }
    if c :| c in ClaimsNaming(s.claims, {id}) { assert Names(s, c, id); }
  }

  lemma RepointFirsts(p: Policy, s: State, jobs: set<Id>, out: seq<Joined>, job: Id, plan: JobPlan)
    requires IsJoin(s, jobs, out) && Within(s, out) && job in jobs && PlanFits(p, s, out, job, plan)
    ensures Elems(plan.deleteIds) <= s.results.Keys
    ensures forall id :: id in Firsts(plan.repoint) <==> id in plan.deleteIds && ClaimsNaming(s.claims, {id}) != {}
    ensures forall id :: id in plan.deleteIds && Survivors(p, s)[id] == id ==> id in Firsts(plan.repoint)
  {
    DoomedIdsSound(p, s, jobs, out, job);
    SurvivorsSettled(p, s);
    hide RankJoin, Survives, Survivor, IsJoin, DoomedIds, NoFanOut;
    forall id | id in s.results ensures Anchored(s, id) <==> ClaimsNaming(s.claims, {id}) != {} { AnchoredIff(s, id); }
    forall id | id in plan.deleteIds && Anchored(s, id) ensures id in Firsts(plan.repoint) {
      assert (id, Survivor(p, s, id)) in plan.repoint;
    }
    forall id | id in plan.deleteIds && Survivors(p, s)[id] == id ensures Anchored(s, id) {
      ListedIff(p, s, jobs, out, job, id);
    }
  }

  /** The two list checks of the transaction together say: the join did not fan out. */
  lemma ChecksMeanNoFanOut(p: Policy, s: State, jobs: set<Id>, out: seq<Joined>, job: Id, plan: JobPlan)
    requires IsJoin(s, jobs, out) && Within(s, out) && job in jobs && PlanFits(p, s, out, job, plan)
    ensures Elems(plan.deleteIds) <= s.results.Keys && Firsts(plan.repoint) <= Elems(plan.deleteIds)
    ensures var passes := ClaimsNaming(MovedTo(s.claims, Survivors(p, s), Firsts(plan.repoint)), Elems(plan.deleteIds)) == {};
      && (NoFanOut(s, job) <==> NoDup(plan.deleteIds) && passes)
      && (passes <==> forall id :: id in plan.deleteIds ==> !Survives(p, s, id))
  {
    RepointFirsts(p, s, jobs, out, job, plan);
    SurvivorsSettled(p, s);
    AnchorCheck(s.claims, Survivors(p, s), Elems(plan.deleteIds), Firsts(plan.repoint));
    CleanListIffNoFanOut(p, s, jobs, out, job);
    hide RankJoin, Survives, Survivor, IsJoin, DoomedIds, NoFanOut, Moved, ClaimsNaming;
  }

  lemma MovedAlike(claims: map<Id, Claim>, target: map<Id, Id>, a: set<Id>, b: set<Id>)
    requires a <= b <= target.Keys && forall id :: id in b && ClaimsNaming(claims, {id}) != {} ==> id in a
    ensures ClaimsNaming(claims, a) == ClaimsNaming(claims, b)
    ensures MovedTo(claims, target, a) == MovedTo(claims, target, b)
  {
    forall c | c in ClaimsNaming(claims, b) ensures c in ClaimsNaming(claims, a) {
      assert c in ClaimsNaming(claims, {claims[c].firstResult.value});
    }
    forall c | c in claims ensures Moved(claims[c], target, a) == Moved(claims[c], target, b) {
      assert c in ClaimsNaming(claims, a) <==> c in ClaimsNaming(claims, b);
    }
  }

  /** What the fresh plan of one job tells the transaction, in terms of the rows. */
  ghost predicate EntryOk(s: State, job: Id, entry: JobPlan) {
    var target, ids, firsts := Survivors(BillableFirst, s), Elems(entry.deleteIds), Firsts(entry.repoint);
    && ids <= s.results.Keys && firsts <= s.results.Keys
    && (forall pair :: pair in entry.repoint ==> pair.0 in target && pair.1 == target[pair.0])
    && (NoFanOut(s, job) <==> NoDup(entry.deleteIds) && ClaimsNaming(MovedTo(s.claims, target, firsts), ids) == {})
    && (NoFanOut(s, job) ==>
          && ids == Doomed(BillableFirst, s, job)
          && entry.deleteBilled == |BillableOf(s, ids)|
          && MovedTo(s.claims, target, firsts) == MovedTo(s.claims, target, ids)
          && ClaimsNaming(s.claims, firsts) == ClaimsNaming(s.claims, ids)
          && forall id :: id in firsts ==> target[id] != id)
  }

  lemma PlanGivesEntry(s: State, out: seq<Joined>, job: Id, entry: JobPlan)
    requires IsJoin(s, {job}, out) && Within(s, out) && PlanFits(BillableFirst, s, out, job, entry)
    ensures EntryOk(s, job, entry)
  {
    var target := Survivors(BillableFirst, s);
    ChecksMeanNoFanOut(BillableFirst, s, {job}, out, job, entry);
    RepointFirsts(BillableFirst, s, {job}, out, job, entry);
    if NoFanOut(s, job) {
      CleanList(BillableFirst, s, {job}, out, job);
      DoomedMove(s, job);
      MovedAlike(s.claims, target, Firsts(entry.repoint), Elems(entry.deleteIds));
    }
  }

  lemma DoomedMove(s: State, job: Id)
    ensures forall id :: id in Doomed(BillableFirst, s, job) ==> Survivors(BillableFirst, s)[id] != id
  {
    SurvivorsSettled(BillableFirst, s);
  }

  method FreshEntry(s: State, job: Id) returns (entry: JobPlan)
    ensures EntryOk(s, job, entry)
  {
    var plan, out := Plan(BillableFirst, s, {job});
    entry := EntryOf(plan, job);
    NoRowsNoPlan(s, out, job, plan);
    PlanGivesEntry(s, out, job, entry);
  }

  /** Steps 1 and 2 of the transaction: re-point, check, archive and delete. */
  method RemoveDoomed(s: State, job: Id, entry: JobPlan)
    returns (ok: bool, results: map<Id, Row>, claims: map<Id, Claim>, archive: set<(Id, Row)>, deleted: nat, repointed: nat)
    requires EntryOk(s, job, entry)
    ensures ok <==> NoFanOut(s, job) && Elems(entry.deleteIds) !! s.otherRefs
    ensures ok ==> var doomed := Elems(entry.deleteIds);
      && results == s.results - doomed && archive == s.archive + Copies(s.results, doomed)
      && claims == MovedTo(s.claims, Survivors(BillableFirst, s), doomed)
      && deleted == |doomed| && repointed == |ClaimsNaming(s.claims, doomed)|
  {
    hide Survivors, Doomed, Moved, ClaimsNaming, NoFanOut;
    ok, results, archive, deleted := false, s.results, s.archive, 0;
    SurvivorsSettled(BillableFirst, s);
    claims, repointed := RepointClaims(s.claims, entry.repoint, Survivors(BillableFirst, s));
    if ClaimsNaming(claims, Elems(entry.deleteIds)) != {} {
      return;
    }
    if !(Elems(entry.deleteIds) !! s.otherRefs) {
      return;
    }
    NothingToNull(claims, Elems(entry.deleteIds));
    ElemsSize(entry.deleteIds);
    ok, results, claims, archive, deleted := ArchiveAndDelete(s.results, claims, s.archive, entry.deleteIds);
  }

  /** The statements of the transaction, on the session's own view of the tables. */
  method Transaction(s: State, job: Id, expected: set<Id>, hasBillingApplied: bool, hasBilledCount: bool)
    returns (outcome: Outcome, t: State)
    ensures outcome.Committed? <==> CanCommit(s, job, expected, hasBillingApplied)
    ensures outcome.Committed? ==>
      && t == AfterCommit(s, job, hasBillingApplied, hasBilledCount)
      && outcome.deleted == |expected| && outcome.repointed == |ClaimsNaming(s.claims, expected)|
      && outcome.decremented == Charge(s, job, hasBillingApplied)
  {
    hide Survivors, Doomed, MovedTo, ClaimsNaming, NoFanOut, Copies, BilledRows, Firsts, Elems, AfterCommit, EntryOk;
    t := s;
    if job !in s.jobs || !Terminal(s.jobs[job].status) {
      return Refused("unsafe job scope"), t;
    }
    var meta := s.jobs[job];
    if meta.user !in s.users {
      return Refused("user row missing"), t;
    }
    var user := s.users[meta.user];
    if EffectiveBilledAt(meta, hasBillingApplied).None? {
      return Refused("no reliable billing timestamp"), t;
    }
    var entry := FreshEntry(s, job);
    if NoFanOut(s, job) { EntryMeans(s, job, entry); }
    if Elems(entry.deleteIds) != expected {
      return Refused("plan drifted since dry-run"), t;
    }
    var decrement := if PeriodCurrent(meta, user, hasBillingApplied) then entry.deleteBilled else 0;
    var ok, results, claims, archive, deleted, repointed := RemoveDoomed(s, job, entry);
    if !ok {
      return Refused("the rows to delete are still referenced, or not all there"), t;
    }
    if decrement != 0 && user.recordsUsed < decrement {
      return Refused("records_used cannot absorb the decrement"), t;
    }
    var jobs := if hasBilledCount then s.jobs[job := meta.(billedCount := Some(|BilledRows(results, job)|))] else s.jobs;
    var users := s.users[meta.user := user.(recordsUsed := user.recordsUsed - decrement)];
    t := State(results, claims, jobs, users, s.otherRefs, archive);
    AfterCommitIs(s, job, hasBillingApplied, hasBilledCount, t);
    outcome := Committed(deleted, repointed, decrement);
  }

  lemma EntryMeans(s: State, job: Id, entry: JobPlan)
    requires EntryOk(s, job, entry) && NoFanOut(s, job)
    ensures Elems(entry.deleteIds) == Doomed(BillableFirst, s, job)
    ensures entry.deleteBilled == |BillableOf(s, Doomed(BillableFirst, s, job))|
  {
    hide NoFanOut, Doomed, MovedTo, ClaimsNaming, Elems, Firsts, Survivors;
  }

  lemma AfterCommitIs(s: State, job: Id, hb: bool, hbc: bool, t: State)
    requires job in s.jobs && s.jobs[job].user in s.users
    requires var doomed, user := Doomed(BillableFirst, s, job), s.jobs[job].user;
      && t.results == s.results - doomed && t.claims == MovedTo(s.claims, Survivors(BillableFirst, s), doomed)
      && t.jobs == (if hbc then s.jobs[job := s.jobs[job].(billedCount := Some(|BilledRows(t.results, job)|))] else s.jobs)
      && t.users == s.users[user := s.users[user].(recordsUsed := s.users[user].recordsUsed - Charge(s, job, hb))]
      && t.otherRefs == s.otherRefs && t.archive == s.archive + Copies(s.results, doomed)
    ensures t == AfterCommit(s, job, hb, hbc)
  {
  }

  /** One job: every check, then every write, then one commit; a failed check leaves the
      database as it was. It commits exactly when CanCommit held at its start. */
  method ApplyJob(db: Database, job: Id, expected: set<Id>, hasBillingApplied: bool, hasBilledCount: bool)
    returns (outcome: Outcome)
    modifies db
    ensures outcome.Committed? <==> CanCommit(old(db.View()), job, expected, hasBillingApplied)
    ensures outcome.Refused? ==> db.View() == old(db.View())
    ensures outcome.Committed? ==> db.View() == AfterCommit(old(db.View()), job, hasBillingApplied, hasBilledCount)
    ensures outcome.Committed? ==>
      && outcome.deleted == |expected|
      && outcome.repointed == |ClaimsNaming(old(db.View()).claims, expected)|
      && outcome.decremented == Charge(old(db.View()), job, hasBillingApplied)
  {
    hide CanCommit, Charge, ClaimsNaming, Survivors, Doomed, MovedTo, Copies, BilledRows;
    var t: State;
    outcome, t := Transaction(db.View(), job, expected, hasBillingApplied, hasBilledCount);
    if outcome.Committed? {
      db.results, db.claims, db.jobs, db.users, db.archive := t.results, t.claims, t.jobs, t.users, t.archive;
    }
  }

  lemma NothingToNull(claims: map<Id, Claim>, ids: set<Id>)
    requires ClaimsNaming(claims, ids) == {}
    ensures SetNull(claims, ids) == claims
  {
    forall c | c in claims ensures SetNull(claims, ids)[c] == claims[c] {
      assert c !in ClaimsNaming(claims, ids);
    }
  }

  /** plan.get(jid, empty): a job without rows has the empty entry, which fits too. */
  lemma NoRowsNoPlan(s: State, out: seq<Joined>, job: Id, plan: map<Id, JobPlan>)
    requires IsJoin(s, {job}, out) && Within(s, out)
    requires forall j :: j in plan <==> j in {job} && exists id :: id in s.results && s.results[id].job == j
    requires forall j :: j in plan ==> PlanFits(BillableFirst, s, out, j, plan[j])
    ensures PlanFits(BillableFirst, s, out, job, EntryOf(plan, job))
  {
    if job !in plan {
      JoinNonEmpty(s, {job}, out);
      assert RankJoin(BillableFirst, s, out) == [];
    }
  }
}
