/** What a committed run of the billed clean-up leaves behind in one job. */
module BilledResults {
  import opened Wrappers
  import opened Seqs
  import opened Ledger
  import opened CleanupPlan
  import opened BilledCleanup

  function PrintOf(results: map<Id, Row>): Id -> Option<Scrape> {
    (id: Id) => if id in results then Some(Fingerprint(results[id])) else None
  }

  /** The records of a job that had at least one billed copy. */
  function BilledRecords(results: map<Id, Row>, job: Id): set<Option<Scrape>> {
    Image(BilledRows(results, job), PrintOf(results))
  }

  /** Each (job, fingerprint) keeps exactly one row, unchanged, and it is billable exactly
      when some copy was; rows of other jobs stay. */
  lemma OneRowPerRecord(s: State, job: Id, expected: set<Id>, hb: bool, hbc: bool, id: Id)
    requires CanCommit(s, job, expected, hb) && id in s.results
    ensures var t := AfterCommit(s, job, hb, hbc);
      && (s.results[id].job != job ==> id in t.results && t.results[id] == s.results[id])
      && (s.results[id].job == job ==>
            var m := Survivor(BillableFirst, s, id);
            && m in t.results && t.results[m] == s.results[m] && SameGroup(t.results[m], s.results[id])
            && (forall o :: o in t.results && SameGroup(t.results[o], s.results[id]) ==> o == m)
            && (!t.results[m].isDuplicate <==> exists o :: Grouped(s, o, id) && !s.results[o].isDuplicate))
  {
    if s.results[id].job == job {
      var m := Survivor(BillableFirst, s, id);
      assert Survives(BillableFirst, s, m) && Grouped(s, m, id);
      forall o | Grouped(s, o, id) && Survives(BillableFirst, s, o) ensures o == m {
        SurvivorUnique(BillableFirst, s, o, m);
      }
      forall o | Grouped(s, o, id) && !s.results[o].isDuplicate ensures !s.results[m].isDuplicate {
        SurvivorBillable(s, m, o);
      }
    }
  }

  /** In terms of the nine columns: every row of the job has a kept row equal to it in all of
      them, and one billable if it was; and no two kept rows of the job are equal in all of them. */
  lemma LeadsKept(s: State, job: Id, expected: set<Id>, hb: bool, hbc: bool)
    requires CanCommit(s, job, expected, hb)
    ensures var t := AfterCommit(s, job, hb, hbc);
      && LeadsDistinct(t, {job})
      && forall id :: id in s.results && s.results[id].job == job ==>
           LeadKept(s, t, id) && (!s.results[id].isDuplicate ==> BilledLeadKept(s, t, id))
  {
    hide AfterCommit, KeptLike, SameLead, LeadKept, BilledLeadKept, LeadsDistinct, NoFanOut, Doomed, Charge;
    forall id | id in s.results && s.results[id].job == job
      ensures LeadKept(s, AfterCommit(s, job, hb, hbc), id)
      ensures !s.results[id].isDuplicate ==> BilledLeadKept(s, AfterCommit(s, job, hb, hbc), id)
    {
      LeadKeptAt(s, job, expected, hb, hbc, id);
    }
    DistinctLeads(s, job, expected, hb, hbc);
  }

  ghost predicate BilledLeadKept(s: State, t: State, id: Id)
    requires id in s.results
  {
    exists m :: KeptLike(s, t, id, m) && !t.results[m].isDuplicate
  }

  lemma DistinctLeads(s: State, job: Id, expected: set<Id>, hb: bool, hbc: bool)
    requires CanCommit(s, job, expected, hb)
    ensures LeadsDistinct(AfterCommit(s, job, hb, hbc), {job})
  {
    hide AfterCommit, SameLead, NoFanOut, Doomed, Charge;
    var t := AfterCommit(s, job, hb, hbc);
    forall m, n | m in t.results && n in t.results && t.results[m].job == t.results[n].job && t.results[m].job in {job}
                  && SameLead(t.results[m], t.results[n])
      ensures m == n
    {
      LeadsApart(s, job, expected, hb, hbc, m, n);
    }
  }

  lemma CommitRows(s: State, job: Id, expected: set<Id>, hb: bool, hbc: bool)
    requires CanCommit(s, job, expected, hb)
    ensures forall m :: m in AfterCommit(s, job, hb, hbc).results ==>
      m in s.results && AfterCommit(s, job, hb, hbc).results[m] == s.results[m]
  {
  }

  lemma LeadKeptAt(s: State, job: Id, expected: set<Id>, hb: bool, hbc: bool, id: Id)
    requires CanCommit(s, job, expected, hb) && id in s.results && s.results[id].job == job
    ensures var t := AfterCommit(s, job, hb, hbc);
      LeadKept(s, t, id) && (!s.results[id].isDuplicate ==> BilledLeadKept(s, t, id))
  {
    OneRowPerRecord(s, job, expected, hb, hbc, id);
    hide AfterCommit, CanCommit, SameLead, Survives;
    var t, m := AfterCommit(s, job, hb, hbc), Survivor(BillableFirst, s, id);
    SameGroupIff(t.results[m], s.results[id]);
    assert KeptLike(s, t, id, m);
    assert Grouped(s, id, id);
  }

  lemma LeadsApart(s: State, job: Id, expected: set<Id>, hb: bool, hbc: bool, m: Id, n: Id)
    requires CanCommit(s, job, expected, hb)
    requires var t := AfterCommit(s, job, hb, hbc);
      m in t.results && n in t.results && t.results[m].job == t.results[n].job == job && SameLead(t.results[m], t.results[n])
    ensures m == n
  {
    CommitRows(s, job, expected, hb, hbc);
    OneRowPerRecord(s, job, expected, hb, hbc, m);
    var t := AfterCommit(s, job, hb, hbc);
    hide AfterCommit, CanCommit, SameLead, Survives;
    SameGroupIff(t.results[m], t.results[n]);
    SameGroupIff(t.results[m], t.results[m]);
  }

  /** One billed row survives for each record that had a billed copy. */
  lemma BilledSurvivors(s: State, job: Id)
    ensures |BilledRows(s.results - Doomed(BillableFirst, s, job), job)| == |BilledRecords(s.results, job)|
  {
    var kept := BilledRows(s.results - Doomed(BillableFirst, s, job), job);
    var prints := PrintOf(s.results);
    forall x, y | x in kept && y in kept && prints(x) == prints(y) ensures x == y {
      SurvivorUnique(BillableFirst, s, x, y);
    }
    forall id | id in BilledRows(s.results, job) ensures exists k :: k in kept && prints(k) == prints(id) {
      var m := Survivor(BillableFirst, s, id);
      SurvivorBillable(s, m, id);
      assert m in kept && prints(m) == prints(id);
    }
    Representatives(kept, BilledRows(s.results, job), prints);
  }

  /** The recomputed billed_count is the number of records that had a billed copy. */
  lemma BilledCountIsRecords(s: State, job: Id, expected: set<Id>, hb: bool)
    requires CanCommit(s, job, expected, hb)
    ensures var count := AfterCommit(s, job, hb, true).jobs[job].billedCount;
      count.Some? && count.value == |BilledRecords(s.results, job)|
  {
    BilledSurvivors(s, job);
  }

  /** Every row is still in the table or was archived first. */
  lemma NothingLost(s: State, job: Id, expected: set<Id>, hb: bool, hbc: bool)
    requires CanCommit(s, job, expected, hb)
    ensures var t := AfterCommit(s, job, hb, hbc);
      forall id :: id in s.results ==> (id in t.results && t.results[id] == s.results[id]) || (id, s.results[id]) in t.archive
  {
  }

  /** Where a claim ends up. */
  lemma ClaimAfter(s: State, job: Id, expected: set<Id>, hb: bool, hbc: bool, c: Id)
    requires CanCommit(s, job, expected, hb) && c in s.claims
    ensures var t := AfterCommit(s, job, hb, hbc);
      && t.claims.Keys == s.claims.Keys
      && t.claims[c].user == s.claims[c].user && t.claims[c].hash == s.claims[c].hash
      && (c !in ClaimsNaming(s.claims, expected) ==> t.claims[c] == s.claims[c])
      && (c in ClaimsNaming(s.claims, expected) ==>
            var was := s.claims[c].firstResult.value;
            && t.claims[c] == s.claims[c].(firstResult := Some(Survivor(BillableFirst, s, was)))
            && Survivor(BillableFirst, s, was) in t.results
            && SameGroup(s.results[Survivor(BillableFirst, s, was)], s.results[was]))
  {
    if c in ClaimsNaming(s.claims, expected) {
      OneRowPerRecord(s, job, expected, hb, hbc, s.claims[c].firstResult.value);
    }
  }

  /** So every invariant in Ledger.RepairKeepsLedger survives a committed clean-up. */
  lemma CommitRepairs(s: State, job: Id, expected: set<Id>, hb: bool, hbc: bool)
    requires CanCommit(s, job, expected, hb)
    ensures Repaired(s, AfterCommit(s, job, hb, hbc))
  {
    var t := AfterCommit(s, job, hb, hbc);
    forall c | c in s.claims ensures ClaimFollows(s, t, c) {
      ClaimAfter(s, job, expected, hb, hbc, c);
      if c in ClaimsNaming(s.claims, expected) && !s.results[s.claims[c].firstResult.value].isDuplicate {
        var was := s.claims[c].firstResult.value;
        SurvivorBillable(s, Survivor(BillableFirst, s, was), was);
      }
    }
  }

  /** Under the ledger invariants only claims that contradicted the flags are re-pointed,
      each from a row flagged as a duplicate to one that is not. */
  lemma RepointRepairs(s: State, job: Id, expected: set<Id>, hb: bool, hbc: bool, c: Id)
    requires CanCommit(s, job, expected, hb) && LedgerOk(s) && c in ClaimsNaming(s.claims, expected)
    ensures var t := AfterCommit(s, job, hb, hbc);
      && c in ClaimsOnDuplicates(s) && c !in ClaimsOnDuplicates(t)
      && t.claims[c].firstResult.Some? && t.claims[c].firstResult.value in t.results
      && !t.results[t.claims[c].firstResult.value].isDuplicate
  {
    var was := s.claims[c].firstResult.value;
    var m := Survivor(BillableFirst, s, was);
    ClaimAfter(s, job, expected, hb, hbc, c);
    assert Names(s, c, was);
    OnlyAnchor(s, c, was, m);
    LexSecond(Key(BillableFirst, s, m), Key(BillableFirst, s, was));
  }

  /** A second plan for the job is empty, whatever order the database lists the join in. */
  lemma SecondPlanEmpty(s: State, job: Id, expected: set<Id>, hb: bool, hbc: bool, out: seq<Joined>)
    requires CanCommit(s, job, expected, hb) && LedgerOk(s)
    requires IsJoin(AfterCommit(s, job, hb, hbc), {job}, out)
    ensures var t := AfterCommit(s, job, hb, hbc);
      Within(t, out) && DoomedIds(RankJoin(BillableFirst, t, out), job) == [] && DoomedBilled(RankJoin(BillableFirst, t, out), job) == 0
  {
    var t := AfterCommit(s, job, hb, hbc);
    CommitRepairs(s, job, expected, hb, hbc);
    RepairKeepsLedger(s, t);
    AlreadyClean(s, job, expected, hb, hbc);
    assert NoFanOut(t, job) by {
      forall c, d, id | Names(t, c, id) && Names(t, d, id) && id in t.results ensures c == d {
        OneClaimPerGroup(t, c, d, id, id);
      }
    }
    CleanList(BillableFirst, t, {job}, out, job);
    var ids := DoomedIds(RankJoin(BillableFirst, t, out), job);
    ElemsSize(ids);
    assert BillableOf(t, {}) == {};
  }

  lemma AlreadyClean(s: State, job: Id, expected: set<Id>, hb: bool, hbc: bool)
    requires CanCommit(s, job, expected, hb)
    ensures Doomed(BillableFirst, AfterCommit(s, job, hb, hbc), job) == {}
  {
    var t := AfterCommit(s, job, hb, hbc);
    forall id | id in t.results && t.results[id].job == job ensures Survives(BillableFirst, t, id) {
      forall other | Grouped(t, other, id) ensures other == id {
        OneRowPerRecord(s, job, expected, hb, hbc, id);
      }
    }
  }
}
