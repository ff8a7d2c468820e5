/** scripts/cleanup_watchdog_dup_results.py: the clean-up of copies that were never billed,
    in many small commits, and why it may be stopped after any of them and started again. */
module SafeCleanup {
  import opened Wrappers
  import opened Seqs
  import opened Ledger
  import opened CleanupPlan
  import opened Store
  import opened BilledCleanup

  // ---------- stopping anywhere ----------

  /** All rows the clean-up of these jobs is to remove. */
  ghost function ToDelete(s: State, jobs: set<Id>): set<Id> {
    set id | id in s.results && s.results[id].job in jobs && !Survives(AnchorFirst, s, id)
  }

  /** The scope may be cleaned: every job is terminal and no billed row would go. */
  ghost predicate Allowed(s: State, jobs: set<Id>) {
    && (forall j :: j in jobs ==> j in s.jobs && Terminal(s.jobs[j].status))
    && BillableOf(s, ToDelete(s, jobs)) == {}
  }

  /** The tables after some rows are gone and nothing else has changed. */
  function Without(s: State, gone: set<Id>): State {
    s.(results := s.results - gone)
  }

  /** This ranking never dooms the row a claim names, so no claim is ever re-pointed. */
  lemma AnchorSurvives(s: State, c: Id, id: Id)
    requires LedgerOk(s) && Names(s, c, id)
    ensures Survives(AnchorFirst, s, id)
  {
    forall other | Grouped(s, other, id) && other != id
      ensures LexLess(Key(AnchorFirst, s, id), Key(AnchorFirst, s, other))
    {
      OnlyAnchor(s, c, id, other);
      assert Key(AnchorFirst, s, id)[0] < Key(AnchorFirst, s, other)[0];
    }
  }

  lemma SameKeys(s: State, gone: set<Id>, id: Id)
    requires id in s.results && id !in gone
    ensures Key(AnchorFirst, Without(s, gone), id) == Key(AnchorFirst, s, id)
  {
    var w := Without(s, gone);
    assert forall c :: Names(w, c, id) <==> Names(s, c, id);
    assert Anchored(w, id) <==> Anchored(s, id);
  }

  /** Removing any doomed rows changes no survivor. */
  lemma SurvivorsStay(s: State, gone: set<Id>, jobs: set<Id>, id: Id)
    requires gone <= ToDelete(s, jobs) && id in s.results && id !in gone
    ensures Survives(AnchorFirst, Without(s, gone), id) <==> Survives(AnchorFirst, s, id)
    ensures Survivor(AnchorFirst, s, id) in Without(s, gone).results
    ensures Survivor(AnchorFirst, Without(s, gone), id) == Survivor(AnchorFirst, s, id)
  {
    var w, m := Without(s, gone), Survivor(AnchorFirst, s, id);
    SameKeys(s, gone, id);
    forall other | Grouped(w, other, id) ensures Key(AnchorFirst, w, other) == Key(AnchorFirst, s, other) && Grouped(s, other, id) {
      SameKeys(s, gone, other);
    }
    assert m !in gone && Grouped(w, m, id);
    SurvivesIn(s, gone, m, id);
    SurvivorUnique(AnchorFirst, w, m, Survivor(AnchorFirst, w, id));
    if Survives(AnchorFirst, w, id) { SurvivorUnique(AnchorFirst, w, m, id); }
    if Survives(AnchorFirst, s, id) { SurvivorUnique(AnchorFirst, s, m, id); }
  }

  lemma SurvivesIn(s: State, gone: set<Id>, m: Id, id: Id)
    requires Survives(AnchorFirst, s, m) && m !in gone && Grouped(s, m, id)
    ensures Survives(AnchorFirst, Without(s, gone), m)
  {
    var w := Without(s, gone);
    SameKeys(s, gone, m);
    forall other | Grouped(w, other, m) && other != m ensures LexLess(Key(AnchorFirst, w, m), Key(AnchorFirst, w, other)) {
      SameKeys(s, gone, other);
      assert Grouped(s, other, m);
    }
  }

  lemma LedgerStays(s: State, gone: set<Id>, jobs: set<Id>)
    requires LedgerOk(s) && gone <= ToDelete(s, jobs)
    ensures LedgerOk(Without(s, gone))
  {
    forall c | c in s.claims && s.claims[c].firstResult.Some? ensures s.claims[c].firstResult.value !in gone {
      assert Names(s, c, s.claims[c].firstResult.value);
      AnchorSurvives(s, c, s.claims[c].firstResult.value);
    }
    hide Survives, ToDelete;
  }

  /** Crash anywhere, then run again: what is left to delete is what had not been deleted, the
      ledger still holds, and finishing from there gives the tables of an uninterrupted run. */
  lemma RestartFinishes(s: State, gone: set<Id>, jobs: set<Id>)
    requires LedgerOk(s) && gone <= ToDelete(s, jobs)
    ensures var w := Without(s, gone);
      && LedgerOk(w)
      && ToDelete(w, jobs) == ToDelete(s, jobs) - gone
      && Without(w, ToDelete(w, jobs)) == Without(s, ToDelete(s, jobs))
      && (Allowed(s, jobs) ==> Allowed(w, jobs))
  {
    hide *;
    LedgerStays(s, gone, jobs);
    LeftToDelete(s, gone, jobs);
    FinishedAlike(s, gone, jobs);
  }

  lemma LeftToDelete(s: State, gone: set<Id>, jobs: set<Id>)
    requires gone <= ToDelete(s, jobs)
    ensures ToDelete(Without(s, gone), jobs) == ToDelete(s, jobs) - gone
  {
    hide Survivor, Key, Survives;
    forall id | id in s.results && id !in gone ensures id in ToDelete(Without(s, gone), jobs) <==> id in ToDelete(s, jobs) {
      SurvivorsStay(s, gone, jobs, id);
    }
  }

  lemma FinishedAlike(s: State, gone: set<Id>, jobs: set<Id>)
    requires gone <= ToDelete(s, jobs) && ToDelete(Without(s, gone), jobs) == ToDelete(s, jobs) - gone
    ensures var w := Without(s, gone);
      && Without(w, ToDelete(w, jobs)) == Without(s, ToDelete(s, jobs))
      && (Allowed(s, jobs) ==> Allowed(w, jobs))
  {
    hide Survives, ToDelete;
    var all := ToDelete(s, jobs);
    assert s.results - gone - (all - gone) == s.results - all;
    assert BillableOf(Without(s, gone), all - gone) <= BillableOf(s, all);
  }

  // ---------- the plan under the ledger invariants ----------

  /** Under the ledger invariants a plan lists the doomed rows once each and moves no claim. */
  lemma CalmPlan(s: State, jobs: set<Id>, out: seq<Joined>, job: Id, entry: JobPlan)
    requires LedgerOk(s) && IsJoin(s, jobs, out) && Within(s, out) && job in jobs
    requires PlanFits(AnchorFirst, s, out, job, entry)
    ensures NoDup(entry.deleteIds) && Elems(entry.deleteIds) == Doomed(AnchorFirst, s, job) && entry.repoint == []
    ensures entry.deleteBilled == |BillableOf(s, Doomed(AnchorFirst, s, job))|
  {
    assert NoFanOut(s, job) by {
      forall c, d, id | Names(s, c, id) && Names(s, d, id) && id in s.results ensures c == d {
        OneClaimPerGroup(s, c, d, id, id);
      }
    }
    CleanList(AnchorFirst, s, jobs, out, job);
    forall c, id | Names(s, c, id) ensures Survives(AnchorFirst, s, id) {
      AnchorSurvives(s, c, id);
    }
    forall id | id in Elems(entry.deleteIds) ensures !Anchored(s, id) {}
    HeadIsMember(entry.repoint);
  }

  // ---------- part of the work done, on any ledger ----------

  /** A claim on a row to remove, moved to the survivor of its group. */
  ghost function Forward(s: State, jobs: set<Id>, c: Claim): Claim {
    Moved(c, Survivors(AnchorFirst, s), ToDelete(s, jobs))
  }

  /** s: the tables when the plan was made. t: the tables now, when these jobs were worked on,
      wholly or in part: only rows to remove are gone, no claim names one of them, and each
      claim is as it was or has moved to its group's survivor. */
  ghost predicate Midway(s: State, t: State, jobs: set<Id>, gone: set<Id>) {
    && gone <= ToDelete(s, jobs) && t == s.(results := s.results - gone, claims := t.claims)
    && t.claims.Keys == s.claims.Keys
    && forall c :: c in s.claims ==> ClaimMidway(s, jobs, gone, s.claims[c], t.claims[c])
  }

  ghost predicate ClaimMidway(s: State, jobs: set<Id>, gone: set<Id>, was: Claim, now: Claim) {
    && (now == was || now == Forward(s, jobs, was))
    && (now.firstResult.Some? ==> now.firstResult.value !in gone)
  }

  /** Whatever the ledger holds, no group loses its survivor, and a repair it is: every check of
      the ledger that held still holds. */
  lemma MidwayRepairs(s: State, t: State, jobs: set<Id>, gone: set<Id>)
    requires Midway(s, t, jobs, gone)
    ensures forall id :: id in s.results && Survives(AnchorFirst, s, id) ==> id in t.results && t.results[id] == s.results[id]
    ensures Repaired(s, t)
  {
    forall c | c in s.claims ensures ClaimFollows(s, t, c) {
      if t.claims[c] == s.claims[c] {
        UnmovedResolves(s, t, jobs, gone, c);
      } else {
        MovedFollows(s, t, jobs, gone, c);
      }
    }
    hide Survives, Forward, ClaimFollows;
  }

  lemma UnmovedResolves(s: State, t: State, jobs: set<Id>, gone: set<Id>, c: Id)
    requires Midway(s, t, jobs, gone) && c in s.claims && t.claims[c] == s.claims[c]
    ensures ClaimFollows(s, t, c)
  {
    assert ClaimMidway(s, jobs, gone, s.claims[c], t.claims[c]);
  }

  lemma MovedFollows(s: State, t: State, jobs: set<Id>, gone: set<Id>, c: Id)
    requires Midway(s, t, jobs, gone) && c in s.claims && t.claims[c] != s.claims[c]
    ensures ClaimFollows(s, t, c)
  {
    assert ClaimMidway(s, jobs, gone, s.claims[c], t.claims[c]);
    var d := s.claims[c].firstResult.value;
    assert Names(s, c, d);
    if !s.results[d].isDuplicate { SurvivorNoWorse(s, d); }
    hide Survives, Survivor;
  }

  /** The survivor of a claimed row is claimed too, and billable if that row is. */
  lemma SurvivorNoWorse(s: State, d: Id)
    requires d in s.results && Anchored(s, d) && !s.results[d].isDuplicate
    ensures !s.results[Survivor(AnchorFirst, s, d)].isDuplicate
  {
    var m := Survivor(AnchorFirst, s, d);
    if m != d {
      assert Grouped(s, d, m);
      KeyColumns(AnchorFirst, s, m);
      KeyColumns(AnchorFirst, s, d);
      LexSecond(Key(AnchorFirst, s, m), Key(AnchorFirst, s, d));
    }
  }

  /** In terms of the nine columns: wherever the run stops, every row has a kept row of its job
      equal to it in all of them; where all was deleted that was to be, only one. */
  lemma LeadsStay(s: State, t: State, jobs: set<Id>, gone: set<Id>, clean: set<Id>)
    requires Midway(s, t, jobs, gone) && ToDelete(s, clean) <= gone
    ensures forall id :: id in s.results ==> LeadKept(s, t, id)
    ensures LeadsDistinct(t, clean)
  {
    MidwayRows(s, t, jobs, gone);
    hide *;
    forall id | id in s.results ensures LeadKept(s, t, id) { LeadStaysAt(s, t, jobs, gone, id); }
    OneLeftEach(s, t, gone, clean);
  }

  lemma OneLeftEach(s: State, t: State, gone: set<Id>, clean: set<Id>)
    requires t.results == s.results - gone && ToDelete(s, clean) <= gone
    ensures LeadsDistinct(t, clean)
  {
    hide SameLead, ToDelete;
    forall m, n | m in t.results && n in t.results && t.results[m].job == t.results[n].job && t.results[m].job in clean
                  && SameLead(t.results[m], t.results[n])
      ensures m == n
    {
      OneLeft(s, gone, clean, m, n);
    }
  }

  lemma LeadStaysAt(s: State, t: State, jobs: set<Id>, gone: set<Id>, id: Id)
    requires t.results == s.results - gone && gone <= ToDelete(s, jobs) && id in s.results
    ensures LeadKept(s, t, id)
  {
    hide Key, LexLess, SameLead;
    var m := Survivor(AnchorFirst, s, id);
    SameGroupIff(s.results[m], s.results[id]);
    assert KeptLike(s, t, id, m);
  }

  lemma OneLeft(s: State, gone: set<Id>, clean: set<Id>, m: Id, n: Id)
    requires ToDelete(s, clean) <= gone && m in s.results && n in s.results && m !in gone && n !in gone
    requires s.results[m].job == s.results[n].job && s.results[m].job in clean && SameLead(s.results[m], s.results[n])
    ensures m == n
  {
    hide Key, LexLess, SameLead;
    SameGroupIff(s.results[m], s.results[n]);
    assert m !in ToDelete(s, clean) && n !in ToDelete(s, clean);
    SurvivorUnique(AnchorFirst, s, m, n);
  }

  lemma MidwayRows(s: State, t: State, jobs: set<Id>, gone: set<Id>)
    requires Midway(s, t, jobs, gone)
    ensures t.results == s.results - gone && gone <= ToDelete(s, jobs)
  {
  }

  /** Under the ledger invariants no claim ever had to move. */
  lemma MidwayIsWithout(s: State, t: State, jobs: set<Id>, gone: set<Id>)
    requires LedgerOk(s) && Midway(s, t, jobs, gone)
    ensures t == Without(s, gone)
  {
    forall c | c in s.claims ensures t.claims[c] == s.claims[c] {
      assert ClaimMidway(s, jobs, gone, s.claims[c], t.claims[c]);
      if s.claims[c].firstResult.Some? && s.claims[c].firstResult.value in ToDelete(s, jobs) {
        AnchorSurvives(s, c, s.claims[c].firstResult.value);
      }
    }
    assert t.claims == s.claims;
  }

  // ---------- one job's entry ----------

  /** What the re-points leave, if they are made from these claims. */
  ghost predicate Passes(s: State, claims: map<Id, Claim>, entry: JobPlan)
    requires Firsts(entry.repoint) <= s.results.Keys
  {
    ClaimsNaming(MovedTo(claims, Survivors(AnchorFirst, s), Firsts(entry.repoint)), Elems(entry.deleteIds)) == {}
  }

  /** What a plan made on s says of one job. */
  ghost predicate EntryFits(s: State, j: Id, entry: JobPlan) {
    && (forall id :: id in entry.deleteIds ==> id in s.results && s.results[id].job == j)
    && Firsts(entry.repoint) <= Elems(entry.deleteIds) && Firsts(entry.repoint) <= s.results.Keys
    && (forall pair :: pair in entry.repoint ==> pair.1 == Survivors(AnchorFirst, s)[pair.0])
    && (NoFanOut(s, j) <==> NoDup(entry.deleteIds) && Passes(s, s.claims, entry))
    && (Passes(s, s.claims, entry) ==> Elems(entry.deleteIds) == Doomed(AnchorFirst, s, j))
    && (entry.deleteIds == [] ==> Doomed(AnchorFirst, s, j) == {})
  }

  lemma PlanFitsEntry(s: State, jobs: set<Id>, out: seq<Joined>, j: Id, entry: JobPlan)
    requires IsJoin(s, jobs, out) && Within(s, out) && j in jobs && PlanFits(AnchorFirst, s, out, j, entry)
    ensures EntryFits(s, j, entry)
  {
    DoomedIdsSound(AnchorFirst, s, jobs, out, j);
    ChecksMeanNoFanOut(AnchorFirst, s, jobs, out, j, entry);
    hide RankJoin, Survives, Survivor, IsJoin, DoomedIds, NoFanOut, Moved, MovedTo, ClaimsNaming;
    forall pair | pair in entry.repoint ensures pair.0 in s.results && pair.1 == Survivors(AnchorFirst, s)[pair.0] {}
    forall id | id in Elems(entry.deleteIds) && !Survives(AnchorFirst, s, id) ensures id in Doomed(AnchorFirst, s, j) {}
  }

  /** Work on other jobs does not change what the anchor check of this one finds. */
  lemma CheckUnmoved(s: State, t: State, jobs: set<Id>, gone: set<Id>, j: Id, entry: JobPlan)
    requires Midway(s, t, jobs, gone) && j !in jobs && EntryFits(s, j, entry)
    ensures Passes(s, t.claims, entry) <==> Passes(s, s.claims, entry)
  {
    var target, firsts, ids := Survivors(AnchorFirst, s), Firsts(entry.repoint), Elems(entry.deleteIds);
    MidwayBasics(s, t, jobs, gone);
    hide Midway, EntryFits, Survivors, Survivor, Survives, ClaimMidway, Moved, Elems, Firsts, ToDelete;
    forall c | c in s.claims ensures StillNamed(s.claims[c], target, firsts, ids) == StillNamed(t.claims[c], target, firsts, ids) {
      ClaimUnmoved(s, s.claims[c], t.claims[c], jobs, gone, j, entry);
    }
    forall c | c in s.claims
      ensures c in ClaimsNaming(MovedTo(t.claims, target, firsts), ids) <==> c in ClaimsNaming(MovedTo(s.claims, target, firsts), ids)
    {}
  }

  /** After the re-points the claim names one of these rows. */
  ghost predicate StillNamed(c: Claim, target: map<Id, Id>, firsts: set<Id>, ids: set<Id>)
    requires firsts <= target.Keys
  {
    var m := Moved(c, target, firsts).firstResult; m.Some? && m.value in ids
  }

  lemma ClaimUnmoved(s: State, was: Claim, now: Claim, jobs: set<Id>, gone: set<Id>, j: Id, entry: JobPlan)
    requires ClaimMidway(s, jobs, gone, was, now) && j !in jobs && EntryFits(s, j, entry)
    ensures Firsts(entry.repoint) <= Survivors(AnchorFirst, s).Keys
    ensures var target, firsts, ids := Survivors(AnchorFirst, s), Firsts(entry.repoint), Elems(entry.deleteIds);
      StillNamed(was, target, firsts, ids) == StillNamed(now, target, firsts, ids)
  {
    hide NoFanOut, Passes, Doomed, Survivor, Survives;
    if now != was {
      ForwardElsewhere(s, jobs, j, was);
      hide Forward;
    }
  }

  /** A claim that moved within other jobs names no row of this one, before or after. */
  lemma ForwardElsewhere(s: State, jobs: set<Id>, j: Id, c: Claim)
    requires j !in jobs && Forward(s, jobs, c) != c
    ensures c.firstResult.Some? && c.firstResult.value in s.results && s.results[c.firstResult.value].job != j
    ensures var m := Forward(s, jobs, c).firstResult;
      m.Some? && m.value in s.results && s.results[m.value].job != j
  {
    hide Survives;
  }

  /** The re-points of one job keep the tables midway. */
  lemma RepointMidway(s: State, t: State, jobs: set<Id>, gone: set<Id>, j: Id, entry: JobPlan)
    requires Midway(s, t, jobs, gone) && j !in jobs && EntryFits(s, j, entry) && Passes(s, s.claims, entry)
    ensures Firsts(entry.repoint) <= s.results.Keys
    ensures Midway(s, t.(claims := MovedTo(t.claims, Survivors(AnchorFirst, s), Firsts(entry.repoint))), jobs + {j}, gone)
  {
    hide Midway, EntryFits, Passes, ClaimMidway, Moved, Survivors, Firsts;
    assert t.claims.Keys == s.claims.Keys by { MidwayBasics(s, t, jobs, gone); }
    FirstsDoomed(s, j, entry);
    var after := MovedTo(t.claims, Survivors(AnchorFirst, s), Firsts(entry.repoint));
    forall c | c in s.claims ensures ClaimMidway(s, jobs + {j}, gone, s.claims[c], after[c]) {
      MidwayBasics(s, t, jobs, gone);
      RepointedClaim(s, t.claims[c], s.claims[c], jobs, gone, j, Firsts(entry.repoint));
    }
    MidwayIs(s, t, after, jobs, gone, j);
  }

  lemma MidwayBasics(s: State, t: State, jobs: set<Id>, gone: set<Id>)
    requires Midway(s, t, jobs, gone)
    ensures t.claims.Keys == s.claims.Keys && gone <= ToDelete(s, jobs)
    ensures forall c :: c in s.claims ==> ClaimMidway(s, jobs, gone, s.claims[c], t.claims[c])
  {
  }

  lemma MidwayIs(s: State, t: State, claims: map<Id, Claim>, jobs: set<Id>, gone: set<Id>, j: Id)
    requires Midway(s, t, jobs, gone) && claims.Keys == s.claims.Keys
    requires forall c :: c in s.claims ==> ClaimMidway(s, jobs + {j}, gone, s.claims[c], claims[c])
    ensures Midway(s, t.(claims := claims), jobs + {j}, gone)
  {
    ToDeleteGrows(s, jobs, j);
    hide ClaimMidway, ToDelete;
  }

  lemma FirstsDoomed(s: State, j: Id, entry: JobPlan)
    requires EntryFits(s, j, entry) && Passes(s, s.claims, entry)
    ensures Firsts(entry.repoint) <= Doomed(AnchorFirst, s, j) && Firsts(entry.repoint) <= s.results.Keys
    ensures Firsts(entry.repoint) <= Survivors(AnchorFirst, s).Keys
  {
    hide Passes, Doomed, NoFanOut;
  }

  lemma ToDeleteGrows(s: State, jobs: set<Id>, j: Id)
    ensures ToDelete(s, jobs + {j}) == ToDelete(s, jobs) + Doomed(AnchorFirst, s, j)
  {
  }

  lemma RepointedClaim(s: State, now: Claim, was: Claim, jobs: set<Id>, gone: set<Id>, j: Id, firsts: set<Id>)
    requires ClaimMidway(s, jobs, gone, was, now) && j !in jobs && gone <= ToDelete(s, jobs)
    requires firsts <= Doomed(AnchorFirst, s, j) && firsts <= s.results.Keys
    ensures ClaimMidway(s, jobs + {j}, gone, was, Moved(now, Survivors(AnchorFirst, s), firsts))
  {
    if now != was { ForwardElsewhere(s, jobs, j, was); }
    ToDeleteGrows(s, jobs, j);
    hide Survives;
  }

  // ---------- the commits of a run, one by one ----------

  ghost predicate BatchPasses(t: State, chunk: seq<Id>) {
    ClaimsNaming(t.claims, Elems(chunk)) == {} && NoDup(chunk) && Elems(chunk) <= t.results.Keys
  }

  function BatchEnd(k: nat, n: nat): nat { if k + BATCH_SIZE <= n then k + BATCH_SIZE else n }

  /** The database after each commit of the delete batches from position k on, up to the first
      batch that fails. */
  ghost function BatchStates(t: State, ids: seq<Id>, k: nat): seq<State>
    requires k <= |ids|
    decreases |ids| - k
  {
    if k == |ids| then []
    else
      var m := BatchEnd(k, |ids|);
      var u := Without(t, Elems(ids[k..m]));
      if BatchPasses(t, ids[k..m]) then [u] + BatchStates(u, ids, m) else []
  }

  ghost predicate Usable(s: State, entry: JobPlan) { Firsts(entry.repoint) <= s.results.Keys }

  ghost function Repointed(s: State, t: State, entry: JobPlan): State
    requires Usable(s, entry)
  {
    t.(claims := MovedTo(t.claims, Survivors(AnchorFirst, s), Firsts(entry.repoint)))
  }

  /** The commits of one job: its re-points in one, then its batches. */
  ghost function JobStates(s: State, t: State, entry: JobPlan): seq<State>
    requires Usable(s, entry)
  {
    if entry.deleteIds == [] || !Passes(s, t.claims, entry) then []
    else [Repointed(s, t, entry)] + BatchStates(Repointed(s, t, entry), entry.deleteIds, 0)
  }

  ghost predicate Ordered(s: State, plan: map<Id, JobPlan>, order: seq<Id>) {
    forall n :: 0 <= n < |order| ==> order[n] in plan && Usable(s, plan[order[n]])
  }

  /** The commits of the jobs of a plan, in this order; a job that fails adds none of its own
      after its failure, and the next job starts from what it left. */
  ghost function RunStates(s: State, plan: map<Id, JobPlan>, order: seq<Id>): seq<State>
    requires Ordered(s, plan, order)
  {
    if order == [] then []
    else
      var front := RunStates(s, plan, order[..|order| - 1]);
      front + JobStates(s, StateAt(s, front, |front|), plan[order[|order| - 1]])
  }

  /** The database after n of these commits, or all of them if they are fewer. */
  ghost function StateAt(t: State, states: seq<State>, n: nat): State {
    if n == 0 || states == [] then t else if n < |states| then states[n - 1] else states[|states| - 1]
  }

  lemma StateAtSplit(t: State, a: seq<State>, b: seq<State>, n: nat)
    ensures n <= |a| ==> StateAt(t, a + b, n) == StateAt(t, a, n)
    ensures n >= |a| ==> StateAt(t, a + b, n) == StateAt(StateAt(t, a, |a|), b, n - |a|)
  {
  }

  /** What a batch loop at position k adds to the commits made before it. */
  lemma NextBatch(t: State, ids: seq<Id>, k: nat, start: State, made: seq<State>)
    requires k < |ids| && t == StateAt(start, made, |made|)
    ensures var m := BatchEnd(k, |ids|);
      var u := Without(t, Elems(ids[k..m]));
      && (BatchPasses(t, ids[k..m]) ==>
            && BatchStates(t, ids, k) == [u] + BatchStates(u, ids, m) && u == StateAt(start, made + [u], |made| + 1)
            && made + BatchStates(t, ids, k) == (made + [u]) + BatchStates(u, ids, m))
      && (!BatchPasses(t, ids[k..m]) ==> BatchStates(t, ids, k) == [])
  {
  }

  // ---------- the committed transactions ----------

  datatype JobEnd = Done | Failed | Died
  datatype Tx = Landed | RolledBack | Cut

  /** One delete transaction. A process that does not live dies before it can commit. */
  method DeleteBatch(db: Database, chunk: seq<Id>, lives: bool) returns (tx: Tx)
    modifies db
    ensures tx == RolledBack <==> !BatchPasses(old(db.View()), chunk)
    ensures tx == Landed ==> lives
    ensures tx == Cut ==> !lives
    ensures db.View() == if tx == Landed then Without(old(db.View()), Elems(chunk)) else old(db.View())
  {
    if ClaimsNaming(db.claims, Elems(chunk)) != {} {
      return RolledBack;
    }
    var present := Elems(chunk) * db.results.Keys;
    ChunkComplete(chunk, present);
    if |present| != |chunk| {
      return RolledBack;
    }
    if !lives {
      return Cut;
    }
    NothingToNull(db.claims, present);
    db.results, db.claims := db.results - present, SetNull(db.claims, present);
    tx := Landed;
  }

  /** The re-point transaction: it passes exactly when afterwards no claim names a row to
      delete. A plan made on a sound ledger gives it nothing to move (CalmPlan). */
  method RepointOnce(db: Database, entry: JobPlan, lives: bool, ghost s: State) returns (tx: Tx)
    requires forall pair :: pair in entry.repoint ==> pair.0 in s.results && pair.1 == Survivors(AnchorFirst, s)[pair.0]
    modifies db
    ensures Usable(s, entry)
    ensures tx == RolledBack <==> !Passes(s, old(db.claims), entry)
    ensures tx == Landed ==> lives
    ensures tx == Cut ==> !lives
    ensures db.View() == if tx == Landed then Repointed(s, old(db.View()), entry) else old(db.View())
    ensures tx == Landed ==> ClaimsNaming(db.claims, Elems(entry.deleteIds)) == {}
  {
    SurvivorsSettled(AnchorFirst, s);
    hide Survivor, Survives, Moved, MovedTo, ClaimsNaming, Elems, Firsts;
    var claims, moved := RepointClaims(db.claims, entry.repoint, Survivors(AnchorFirst, s));
    if ClaimsNaming(claims, Elems(entry.deleteIds)) != {} {
      return RolledBack;
    }
    if !lives {
      return Cut;
    }
    db.claims := claims;
    tx := Landed;
  }

  /** The delete batches of one job. The process lives for `budget` more commits and dies when
      it is to make another. */
  method DeleteBatches(db: Database, ids: seq<Id>, budget: nat)
    returns (end: JobEnd, left: nat, ghost done: set<Id>)
    modifies db
    ensures var all := BatchStates(old(db.View()), ids, 0);
      && db.View() == StateAt(old(db.View()), all, budget)
      && (end == Died <==> budget < |all|) && left == (if budget < |all| then 0 else budget - |all|)
    ensures done <= Elems(ids) && db.View() == Without(old(db.View()), done)
    ensures end == Done ==> done == Elems(ids) && NoDup(ids)
    ensures end == Failed ==>
      !(NoDup(ids) && Elems(ids) <= old(db.results.Keys) && ClaimsNaming(old(db.claims), Elems(ids)) == {})
  {
    left, done := budget, {};
    var k := 0;
    ghost var start := db.View();
    ghost var made: seq<State> := [];
    while k < |ids|
      invariant 0 <= k <= |ids| && done == Elems(ids[..k]) && NoDup(ids[..k])
      invariant db.View() == Without(start, done) && start == old(db.View())
      invariant db.View() == StateAt(start, made, |made|) && left + |made| == budget
      invariant BatchStates(start, ids, 0) == made + BatchStates(db.View(), ids, k)
    {
      hide BatchStates, StateAt, Elems, NoDup, ClaimsNaming, BatchPasses, Without, BatchEnd;
      BatchEndIs(k, |ids|);
      var m := BatchEnd(k, |ids|);
      ChunkSplits(ids, k, m);
      NextBatch(db.View(), ids, k, start, made);
      StateAtSplit(start, made, BatchStates(db.View(), ids, k), budget);
      StateAtSplit(start, made, BatchStates(db.View(), ids, k), |made|);
      ghost var was := db.View();
      var tx := DeleteBatch(db, ids[k..m], left > 0);
      if tx == Cut {
        return Died, left, done;
      }
      if tx == RolledBack {
        BatchFails(was, start, done, ids, k, m);
        return Failed, left, done;
      }
      WithoutMore(start, done, Elems(ids[k..m]));
      made := made + [db.View()];
      done := done + Elems(ids[k..m]);
      left := left - 1;
      k := m;
    }
    assert ids[..|ids|] == ids;
    StateAtSplit(start, made, [], budget);
    end := Done;
  }

  lemma BatchEndIs(k: nat, n: nat)
    requires k < n
    ensures k < BatchEnd(k, n) <= n
  {
  }

  lemma WithoutMore(s: State, a: set<Id>, b: set<Id>)
    ensures Without(Without(s, a), b) == Without(s, a + b)
  {
  }

  /** A batch fails only for a fault of the whole list. */
  lemma BatchFails(t: State, start: State, done: set<Id>, ids: seq<Id>, k: nat, m: nat)
    requires k < m <= |ids| && t == Without(start, done) && done == Elems(ids[..k]) && !BatchPasses(t, ids[k..m])
    ensures !(NoDup(ids) && Elems(ids) <= start.results.Keys && ClaimsNaming(start.claims, Elems(ids)) == {})
  {
    ChunkSplits(ids, k, m);
    assert ClaimsNaming(start.claims, Elems(ids[k..m])) <= ClaimsNaming(start.claims, Elems(ids));
  }

  lemma DeletesMidway(s: State, t: State, jobs: set<Id>, gone: set<Id>, j: Id, entry: JobPlan, done: set<Id>)
    requires Midway(s, t, jobs + {j}, gone) && EntryFits(s, j, entry) && Passes(s, s.claims, entry)
    requires ClaimsNaming(t.claims, Elems(entry.deleteIds)) == {} && done <= Elems(entry.deleteIds)
    ensures Midway(s, Without(t, done), jobs + {j}, gone + done)
  {
    ToDeleteGrows(s, jobs, j);
    forall c | c in t.claims ensures ClaimMidway(s, jobs + {j}, gone + done, s.claims[c], t.claims[c]) {
      assert ClaimMidway(s, jobs + {j}, gone, s.claims[c], t.claims[c]);
      assert c !in ClaimsNaming(t.claims, Elems(entry.deleteIds));
    }
    hide ToDelete, Survives, Forward, EntryFits, Passes;
    assert s.results - gone - done == s.results - (gone + done);
  }

  lemma MidwayMore(s: State, t: State, jobs: set<Id>, gone: set<Id>, j: Id)
    requires Midway(s, t, jobs, gone)
    ensures Midway(s, t, jobs + {j}, gone)
  {
    MidwayAll(s, t, jobs, jobs + {j}, gone);
  }

  /** One job: the re-point transaction, then the delete batches; the process may die after any
      commit. It ends in failure exactly when two claims name one row of the job. */
  method CleanJob(db: Database, entry: JobPlan, budget: nat, ghost s: State, ghost jobs: set<Id>, ghost gone: set<Id>, ghost j: Id)
    returns (end: JobEnd, left: nat, ghost after: set<Id>)
    requires Midway(s, db.View(), jobs, gone) && j !in jobs && EntryFits(s, j, entry) && entry.deleteIds != []
    modifies db
    ensures Usable(s, entry)
    ensures var all := JobStates(s, old(db.View()), entry);
      && db.View() == StateAt(old(db.View()), all, budget)
      && (end == Died <==> budget < |all|) && left == (if budget < |all| then 0 else budget - |all|)
    ensures Midway(s, db.View(), jobs + {j}, after) && gone <= after
    ensures end == Done ==> NoFanOut(s, j) && after == gone + Doomed(AnchorFirst, s, j)
    ensures end == Failed ==> !NoFanOut(s, j)
  {
    hide Midway, EntryFits, Passes, NoFanOut, NoDup, Doomed, ToDelete, Without, Survivors, Survivor, Survives, Moved, MovedTo,
      ClaimsNaming, Elems, Firsts, BatchStates, StateAt, Repointed, Usable;
    left, after := budget, gone;
    MidwayMore(s, db.View(), jobs, gone, j);
    EntryMeans(s, db.View(), jobs, gone, j, entry);
    CheckUnmoved(s, db.View(), jobs, gone, j, entry);
    ghost var was := db.View();
    var tx := RepointOnce(db, entry, left > 0, s);
    ghost var t := db.View();
    JobStatesAt(s, was, entry, budget);
    if tx == Cut {
      return Died, left, after;
    }
    if tx == RolledBack {
      return Failed, left, after;
    }
    RepointMidway(s, was, jobs, gone, j, entry);
    RepointedIs(s, was, entry);
    ghost var done;
    end, left, done := DeleteBatches(db, entry.deleteIds, left - 1);
    DeletesMidway(s, t, jobs, gone, j, entry, done);
    after := gone + done;
  }

  lemma RepointedIs(s: State, t: State, entry: JobPlan)
    requires Usable(s, entry)
    ensures Firsts(entry.repoint) <= s.results.Keys
    ensures Repointed(s, t, entry) == t.(claims := MovedTo(t.claims, Survivors(AnchorFirst, s), Firsts(entry.repoint)))
    ensures Repointed(s, t, entry).results == t.results
  {
  }

  lemma JobStatesAt(s: State, t: State, entry: JobPlan, n: nat)
    requires Usable(s, entry) && entry.deleteIds != []
    ensures var all := JobStates(s, t, entry);
      if !Passes(s, t.claims, entry) then all == [] && StateAt(t, all, n) == t
      else
        var u := Repointed(s, t, entry);
        var batches := BatchStates(u, entry.deleteIds, 0);
        && |all| == 1 + |batches| && StateAt(t, all, n) == if n == 0 then t else StateAt(u, batches, n - 1)
  {
    hide BatchStates, Passes, Repointed;
  }

  lemma EntryMeans(s: State, t: State, jobs: set<Id>, gone: set<Id>, j: Id, entry: JobPlan)
    requires Midway(s, t, jobs, gone) && j !in jobs && EntryFits(s, j, entry)
    ensures forall pair :: pair in entry.repoint ==> pair.0 in s.results && pair.1 == Survivors(AnchorFirst, s)[pair.0]
    ensures Firsts(entry.repoint) <= s.results.Keys && Elems(entry.deleteIds) <= t.results.Keys
    ensures NoFanOut(s, j) <==> NoDup(entry.deleteIds) && Passes(s, s.claims, entry)
    ensures Passes(s, s.claims, entry) ==> Elems(entry.deleteIds) == Doomed(AnchorFirst, s, j)
    ensures entry.deleteIds == [] ==> Doomed(AnchorFirst, s, j) == {} && NoFanOut(s, j)
  {
    hide NoFanOut, Survives, Survivor, Moved, Doomed;
    forall pair | pair in entry.repoint ensures pair.0 in Firsts(entry.repoint) {}
  }

  datatype RunEnd = RefusedRun | DiedRun | Finished(done: set<Id>, failed: set<Id>)

  /** What main asks of the scope: every job over, and no row that was billed is to go, or is
      claimed twice. */
  ghost predicate Accepted(s: State, jobs: set<Id>) {
    && (forall j :: j in jobs ==> j in s.jobs && Terminal(s.jobs[j].status))
    && forall id :: id in s.results && s.results[id].job in jobs && !s.results[id].isDuplicate ==>
         Survives(AnchorFirst, s, id) && !ClaimedTwice(s, id)
  }

  /** Under the ledger invariants that is Allowed. */
  lemma AcceptedIff(s: State, jobs: set<Id>)
    requires LedgerOk(s)
    ensures Accepted(s, jobs) <==> Allowed(s, jobs)
  {
    forall id | id in s.results ensures !ClaimedTwice(s, id) {
      forall c, d | Names(s, c, id) && Names(s, d, id) ensures c == d { OneClaimPerGroup(s, c, d, id, id); }
    }
    forall id | id in s.results && s.results[id].job in jobs && !s.results[id].isDuplicate
      ensures id in BillableOf(s, ToDelete(s, jobs)) <==> !Survives(AnchorFirst, s, id)
    {}
    hide LedgerOk, Survives, ClaimedTwice;
  }

  lemma BilledSomewhere(s: State, jobs: set<Id>, out: seq<Joined>, plan: map<Id, JobPlan>)
    requires IsJoin(s, jobs, out) && Within(s, out)
    requires forall j :: j in plan <==> j in jobs && exists id :: id in s.results && s.results[id].job == j
    requires forall j :: j in plan ==> PlanFits(AnchorFirst, s, out, j, plan[j])
    requires forall j :: j in jobs ==> j in s.jobs && Terminal(s.jobs[j].status)
    ensures (exists j :: j in plan && plan[j].deleteBilled != 0) <==> !Accepted(s, jobs)
  {
    hide Survives, ClaimedTwice, IsJoin, DoomedIds, DoomedBilled, RepointFits;
    forall j | j in plan
      ensures plan[j].deleteBilled != 0 <==>
        exists id :: id in s.results && s.results[id].job == j && !s.results[id].isDuplicate
                     && (!Survives(AnchorFirst, s, id) || ClaimedTwice(s, id))
    {
      BilledListed(AnchorFirst, s, jobs, out, j);
    }
  }

  /** The jobs whose join fans out: the ones that fail. */
  ghost function FannedOut(s: State, jobs: set<Id>): set<Id> {
    set j | j in jobs && !NoFanOut(s, j)
  }

  /** The jobs that are cleaned: something to remove, and no fan-out. */
  ghost function Cleanable(s: State, jobs: set<Id>): set<Id> {
    set j | j in jobs && NoFanOut(s, j) && Doomed(AnchorFirst, s, j) != {}
  }

  lemma OneMoreJob(s: State, jobs: set<Id>, j: Id)
    ensures FannedOut(s, jobs + {j}) == FannedOut(s, jobs) + if NoFanOut(s, j) then {} else {j}
    ensures Cleanable(s, jobs + {j})
         == Cleanable(s, jobs) + if NoFanOut(s, j) && Doomed(AnchorFirst, s, j) != {} then {j} else {}
    ensures ToDelete(s, Cleanable(s, jobs + {j}))
         == ToDelete(s, Cleanable(s, jobs)) + if NoFanOut(s, j) then Doomed(AnchorFirst, s, j) else {}
  {
    hide NoFanOut, Survives;
  }

  lemma RowlessJobs(s: State, jobs: set<Id>, listed: set<Id>)
    requires forall j :: j in listed <==> j in jobs && exists id :: id in s.results && s.results[id].job == j
    ensures ToDelete(s, listed) == ToDelete(s, jobs)
    ensures FannedOut(s, listed) == FannedOut(s, jobs) && Cleanable(s, listed) == Cleanable(s, jobs)
  {
    forall j | j in jobs && j !in listed ensures NoFanOut(s, j) && Doomed(AnchorFirst, s, j) == {} {}
    hide NoFanOut, Survives;
  }

  lemma NothingDoneYet(s: State)
    ensures Midway(s, s, {}, {}) && FannedOut(s, {}) == {} && Cleanable(s, {}) == {} && ToDelete(s, {}) == {}
  {
  }

  // ---------- how many commits it takes ----------

  /** The batches of a list that pass, from position k on, when nothing outside the list is in
      their way: up to the first that repeats an id. */
  function CleanBatches(ids: seq<Id>, k: nat): nat
    requires k <= |ids|
    decreases |ids| - k
  {
    if k == |ids| || !Distinct(ids[..BatchEnd(k, |ids|)]) then 0 else 1 + CleanBatches(ids, BatchEnd(k, |ids|))
  }

  predicate Distinct(ids: seq<Id>) { forall i, j :: 0 <= i < j < |ids| ==> ids[i] != ids[j] }

  /** The commits of one job, read off its entry. */
  ghost function JobCommits(s: State, entry: JobPlan): nat
    requires Usable(s, entry)
  {
    if entry.deleteIds == [] || !Passes(s, s.claims, entry) then 0 else 1 + CleanBatches(entry.deleteIds, 0)
  }

  /** One commit for the re-points, and one for every 500 rows to delete. */
  ghost function Cost(s: State, j: Id): nat {
    var n := |Doomed(AnchorFirst, s, j)|; if n == 0 then 0 else 1 + (n + 499) / 500
  }

  lemma {:induction false} CleanBatchCount(ids: seq<Id>, k: nat)
    requires k <= |ids| && NoDup(ids)
    ensures CleanBatches(ids, k) == (|ids| - k + 499) / 500
    decreases |ids| - k
  {
    if k < |ids| {
      var m := BatchEnd(k, |ids|);
      ChunkSplits(ids, 0, m);
      CleanBatchCount(ids, m);
    }
  }

  /** A job whose join does not fan out costs what its rows cost. */
  lemma CostIs(s: State, j: Id, entry: JobPlan)
    requires EntryFits(s, j, entry) && NoFanOut(s, j)
    ensures Usable(s, entry) && JobCommits(s, entry) == Cost(s, j)
  {
    hide NoFanOut, Doomed, Survives, Passes, CleanBatches;
    ElemsSize(entry.deleteIds);
    CleanBatchCount(entry.deleteIds, 0);
    if entry.deleteIds != [] { assert entry.deleteIds[0] in Elems(entry.deleteIds); }
  }

  /** Nothing is in the way of a job's batches but its own repeats. */
  lemma {:induction false} BatchCount(t: State, ids: seq<Id>, k: nat, done: set<Id>, start: State)
    requires k <= |ids| && NoDup(ids[..k]) && done == Elems(ids[..k]) && t == Without(start, done)
    requires Elems(ids) <= start.results.Keys && ClaimsNaming(start.claims, Elems(ids)) == {}
    ensures |BatchStates(t, ids, k)| == CleanBatches(ids, k)
    decreases |ids| - k
  {
    if k < |ids| {
      var m := BatchEnd(k, |ids|);
      var u := Without(t, Elems(ids[k..m]));
      ChunkSplits(ids, k, m);
      BatchUnhindered(t, ids, k, m, done, start);
      WithoutMore(start, done, Elems(ids[k..m]));
      hide Without, ClaimsNaming, BatchPasses, Elems;
      if BatchPasses(t, ids[k..m]) {
        BatchCount(u, ids, m, done + Elems(ids[k..m]), start);
      }
    }
  }

  lemma BatchUnhindered(t: State, ids: seq<Id>, k: nat, m: nat, done: set<Id>, start: State)
    requires k < m <= |ids| && NoDup(ids[..k]) && done == Elems(ids[..k]) && t == Without(start, done)
    requires Elems(ids) <= start.results.Keys && ClaimsNaming(start.claims, Elems(ids)) == {}
    ensures BatchPasses(t, ids[k..m]) <==> Distinct(ids[..m])
  {
    ChunkSplits(ids, k, m);
    assert Elems(ids[k..m]) <= Elems(ids);
    assert ClaimsNaming(t.claims, Elems(ids[k..m])) <= ClaimsNaming(start.claims, Elems(ids));
    assert NoDup(ids[..m]) <==> Distinct(ids[..m]);
    hide ClaimsNaming, NoDup, Distinct;
    assert Elems(ids[k..m]) <= t.results.Keys <==> Elems(ids[k..m]) !! done;
  }

  lemma JobCount(s: State, t: State, jobs: set<Id>, gone: set<Id>, j: Id, entry: JobPlan)
    requires Midway(s, t, jobs, gone) && j !in jobs && EntryFits(s, j, entry)
    ensures Usable(s, entry) && |JobStates(s, t, entry)| == JobCommits(s, entry)
  {
    hide Midway, EntryFits, NoFanOut, NoDup, Doomed, ToDelete, Survivors, Survivor, Survives, Moved, MovedTo, ClaimsNaming, Elems,
      Firsts, BatchStates, CleanBatches;
    EntryMeans(s, t, jobs, gone, j, entry);
    CheckUnmoved(s, t, jobs, gone, j, entry);
    if entry.deleteIds != [] && Passes(s, t.claims, entry) {
      RepointedIs(s, t, entry);
      NothingDeleted(Repointed(s, t, entry), entry.deleteIds);
      BatchCount(Repointed(s, t, entry), entry.deleteIds, 0, {}, Repointed(s, t, entry));
    }
  }

  lemma NothingDeleted(t: State, ids: seq<Id>)
    ensures NoDup(ids[..0]) && Elems(ids[..0]) == {} && Without(t, {}) == t
  {
  }

  // ---------- the loop over the jobs ----------

  ghost function Costs(s: State, plan: map<Id, JobPlan>): map<Id, nat>
    requires forall j :: j in plan ==> Usable(s, plan[j])
  {
    map j | j in plan :: JobCommits(s, plan[j])
  }

  /** All commits of a plan. */
  ghost function Needed(s: State, plan: map<Id, JobPlan>): nat
    requires forall j :: j in plan ==> Usable(s, plan[j])
  {
    Total(plan.Keys, Costs(s, plan))
  }

  lemma NeededMore(s: State, plan: map<Id, JobPlan>, seen: set<Id>, j: Id)
    requires (forall k :: k in plan ==> Usable(s, plan[k])) && seen <= plan.Keys && j in plan && j !in seen
    ensures Total(seen + {j}, Costs(s, plan)) == Total(seen, Costs(s, plan)) + JobCommits(s, plan[j])
  {
    TotalWithout(seen + {j}, Costs(s, plan), j);
    assert seen + {j} - {j} == seen;
  }

  /** An order of the jobs: each once. */
  ghost predicate Lists(order: seq<Id>, jobs: set<Id>) { NoDup(order) && Elems(order) == jobs }

  lemma {:induction false} SomeOrder(jobs: set<Id>) returns (order: seq<Id>)
    ensures Lists(order, jobs)
    decreases jobs
  {
    if j :| j in jobs {
      var rest := SomeOrder(jobs - {j});
      order := rest + [j];
      ListsMore(rest, jobs - {j}, j);
      assert jobs - {j} + {j} == jobs;
    } else {
      order := [];
    }
  }

  lemma ListsMore(order: seq<Id>, jobs: set<Id>, j: Id)
    requires Lists(order, jobs) && j !in jobs
    ensures Lists(order + [j], jobs + {j})
  {
    assert Elems([j]) == {j};
    NoDupAppend(order, [j]);
    assert Elems(order + [j]) == Elems(order) + {j};
  }

  lemma ListsJoin(a: seq<Id>, b: seq<Id>, jobs: set<Id>, more: set<Id>)
    requires Lists(a, jobs) && Lists(b, more) && jobs !! more
    ensures Lists(a + b, jobs + more)
  {
    NoDupAppend(a, b);
    assert Elems(a + b) == Elems(a) + Elems(b);
  }

  lemma AllUsable(s: State, plan: map<Id, JobPlan>, order: seq<Id>)
    requires forall j :: j in plan ==> Usable(s, plan[j])
    requires Elems(order) <= plan.Keys
    ensures Ordered(s, plan, order)
  {
    forall n | 0 <= n < |order| ensures order[n] in plan { assert order[n] in Elems(order); }
  }

  lemma RunStatesMore(s: State, plan: map<Id, JobPlan>, order: seq<Id>, j: Id)
    requires Ordered(s, plan, order + [j])
    ensures Ordered(s, plan, order)
    ensures var front := RunStates(s, plan, order);
      j in plan && Usable(s, plan[j])
      && RunStates(s, plan, order + [j]) == front + JobStates(s, StateAt(s, front, |front|), plan[j])
  {
    assert (order + [j])[|order|] == j;
    forall n | 0 <= n < |order| ensures order[n] in plan && Usable(s, plan[order[n]]) {
      assert (order + [j])[n] == order[n];
    }
    assert (order + [j])[..|order|] == order;
  }

  /** Later jobs change nothing of what was committed before them. */
  lemma {:induction false} RunStatesPrefix(s: State, plan: map<Id, JobPlan>, a: seq<Id>, b: seq<Id>)
    requires Ordered(s, plan, a + b)
    ensures Ordered(s, plan, a) && RunStates(s, plan, a) <= RunStates(s, plan, a + b)
  {
    if b == [] {
      assert a + b == a;
    } else {
      var n := |b| - 1;
      assert a + b == (a + b[..n]) + [b[n]];
      RunStatesMore(s, plan, a + b[..n], b[n]);
      RunStatesPrefix(s, plan, a, b[..n]);
    }
  }

  lemma PrefixStateAt(t: State, a: seq<State>, b: seq<State>, n: nat)
    requires a <= b && n <= |a|
    ensures StateAt(t, b, n) == StateAt(t, a, n)
  {
    assert b == a + b[|a|..];
    StateAtSplit(t, a, b[|a|..], n);
  }

  /** The loop stands between two jobs; `order` are those behind it. */
  ghost predicate Between(s: State, plan: map<Id, JobPlan>, order: seq<Id>, seen: set<Id>, now: State, spent: nat) {
    && (forall j :: j in plan ==> Usable(s, plan[j])) && seen <= plan.Keys && Lists(order, seen) && Ordered(s, plan, order)
    && var made := RunStates(s, plan, order);
    now == StateAt(s, made, |made|) && spent == |made| == Total(seen, Costs(s, plan))
  }

  lemma BetweenStarts(s: State, plan: map<Id, JobPlan>)
    requires forall j :: j in plan ==> EntryFits(s, j, plan[j])
    ensures Between(s, plan, [], {}, s, 0)
  {
    hide EntryFits;
    forall j | j in plan ensures Usable(s, plan[j]) { FitsUsable(s, j, plan[j]); }
  }

  lemma FitsUsable(s: State, j: Id, entry: JobPlan)
    requires EntryFits(s, j, entry)
    ensures Usable(s, entry)
  {
  }

  /** One more job: its commits follow those made, whether it is done or fails. */
  lemma BetweenNext(s: State, plan: map<Id, JobPlan>, order: seq<Id>, seen: set<Id>, now: State, spent: nat, gone: set<Id>, j: Id)
    requires Between(s, plan, order, seen, now, spent) && j in plan && j !in seen
    requires Midway(s, now, seen, gone) && EntryFits(s, j, plan[j])
    ensures Usable(s, plan[j])
    ensures var all := JobStates(s, now, plan[j]);
      && Between(s, plan, order + [j], seen + {j}, StateAt(now, all, |all|), spent + |all|)
      && RunStates(s, plan, order + [j]) == RunStates(s, plan, order) + all
  {
    hide Midway, EntryFits, JobStates, StateAt, Total, Costs, JobCommits, Usable, Lists;
    ListsMore(order, seen, j);
    ListsIs(order + [j], seen + {j});
    AllUsable(s, plan, order + [j]);
    RunStatesMore(s, plan, order, j);
    JobCount(s, now, seen, gone, j, plan[j]);
    NeededMore(s, plan, seen, j);
    var made, all := RunStates(s, plan, order), JobStates(s, now, plan[j]);
    StateAtSplit(s, made, all, |made + all|);
  }

  lemma ListsIs(order: seq<Id>, jobs: set<Id>)
    requires Lists(order, jobs)
    ensures Elems(order) == jobs
  {
  }

  /** All the run committed, if it stopped inside or after these jobs. */
  ghost predicate StoppedAt(s: State, plan: map<Id, JobPlan>, order: seq<Id>, now: State, budget: nat) {
    && (forall j :: j in plan ==> Usable(s, plan[j])) && Lists(order, plan.Keys) && Ordered(s, plan, order)
    && now == StateAt(s, RunStates(s, plan, order), budget)
  }

  /** The process died inside job j: the other jobs come after it, in whatever order. */
  lemma DiesInside(s: State, plan: map<Id, JobPlan>, order: seq<Id>, seen: set<Id>, was: State, spent: nat, gone: set<Id>, j: Id,
                   left: nat) returns (full: seq<Id>)
    requires Between(s, plan, order, seen, was, spent) && j in plan && j !in seen
    requires Midway(s, was, seen, gone) && EntryFits(s, j, plan[j])
    requires Usable(s, plan[j]) && left < |JobStates(s, was, plan[j])|
    ensures StoppedAt(s, plan, full, StateAt(was, JobStates(s, was, plan[j]), left), spent + left)
    ensures spent + left < Needed(s, plan) && spent + left < |RunStates(s, plan, full)|
  {
    hide *;
    BetweenNext(s, plan, order, seen, was, spent, gone, j);
    var all := JobStates(s, was, plan[j]);
    BetweenMeans(s, plan, order, seen, was, spent);
    BetweenMeans(s, plan, order + [j], seen + {j}, StateAt(was, all, |all|), spent + |all|);
    full := FullOrder(s, plan, order + [j], seen + {j});
    assert full == order + [j] + full[|order| + 1..];
    RunStatesPrefix(s, plan, order + [j], full[|order| + 1..]);
    var made := RunStates(s, plan, order);
    PrefixStateAt(s, made + all, RunStates(s, plan, full), spent + left);
    StateAtSplit(s, made, all, spent + left);
    CostKeys(s, plan);
    TotalGrows(seen + {j}, plan.Keys, Costs(s, plan));
    StoppedIs(s, plan, full, StateAt(was, all, left), spent + left);
  }

  lemma BetweenMeans(s: State, plan: map<Id, JobPlan>, order: seq<Id>, seen: set<Id>, now: State, spent: nat)
    requires Between(s, plan, order, seen, now, spent)
    ensures (forall j :: j in plan ==> Usable(s, plan[j])) && seen <= plan.Keys && Lists(order, seen) && Ordered(s, plan, order)
    ensures now == StateAt(s, RunStates(s, plan, order), spent)
    ensures spent == |RunStates(s, plan, order)| == Total(seen, Costs(s, plan))
  {
    hide Usable, Lists, RunStates, Total, Costs, StateAt;
  }

  lemma StoppedIs(s: State, plan: map<Id, JobPlan>, order: seq<Id>, now: State, budget: nat)
    requires (forall j :: j in plan ==> Usable(s, plan[j])) && Lists(order, plan.Keys) && Ordered(s, plan, order)
    requires now == StateAt(s, RunStates(s, plan, order), budget)
    ensures StoppedAt(s, plan, order, now, budget)
  {
  }

  /** These jobs first, then the others in whatever order. */
  lemma FullOrder(s: State, plan: map<Id, JobPlan>, order: seq<Id>, seen: set<Id>) returns (full: seq<Id>)
    requires (forall j :: j in plan ==> Usable(s, plan[j])) && seen <= plan.Keys && Lists(order, seen)
    ensures order <= full && Lists(full, plan.Keys) && Ordered(s, plan, full)
  {
    hide Usable, Lists;
    var rest := SomeOrder(plan.Keys - seen);
    ListsJoin(order, rest, seen, plan.Keys - seen);
    full := order + rest;
    assert seen + (plan.Keys - seen) == plan.Keys;
    ListsIs(full, plan.Keys);
    AllUsable(s, plan, full);
  }

  lemma CostKeys(s: State, plan: map<Id, JobPlan>)
    requires forall j :: j in plan ==> Usable(s, plan[j])
    ensures Costs(s, plan).Keys == plan.Keys && Needed(s, plan) == Total(plan.Keys, Costs(s, plan))
  {
  }

  /** The per-job loop of main; `s` is the database when the plan was made. A job's failure does
      not end it; it dies exactly when it has made `budget` commits and has another to make. */
  method RunJobs(db: Database, plan: map<Id, JobPlan>, budget: nat, ghost s: State)
    returns (end: RunEnd, ghost gone: set<Id>, ghost order: seq<Id>)
    requires db.View() == s && forall j :: j in plan ==> EntryFits(s, j, plan[j])
    modifies db
    ensures StoppedAt(s, plan, order, db.View(), budget)
    ensures !end.RefusedRun? && (end.Finished? <==> Needed(s, plan) <= budget)
    ensures end.Finished? <==> |RunStates(s, plan, order)| <= budget
    ensures Midway(s, db.View(), plan.Keys, gone)
    ensures end.Finished? ==>
      end == Finished(Cleanable(s, plan.Keys), FannedOut(s, plan.Keys)) && ToDelete(s, Cleanable(s, plan.Keys)) <= gone
  {
    hide *;
    var todo, done, failed := plan.Keys, {}, {};
    var left: nat := budget;
    ghost var seen, spent: nat := {}, 0;
    gone, order := {}, [];
    NothingDoneYet(s);
    BetweenStarts(s, plan);
    while todo != {}
      invariant todo <= plan.Keys && seen == plan.Keys - todo
      invariant Between(s, plan, order, seen, db.View(), spent) && left + spent == budget
      invariant Midway(s, db.View(), seen, gone)
      invariant done == Cleanable(s, seen) && failed == FannedOut(s, seen) && ToDelete(s, done) <= gone
      decreases todo
    {
      var j :| j in todo;
      todo := todo - {j};
      EntryMeans(s, db.View(), seen, gone, j, plan[j]);
      OneMoreJob(s, seen, j);
      BetweenNext(s, plan, order, seen, db.View(), spent, gone, j);
      ghost var was := db.View();
      if plan[j].deleteIds == [] {
        MidwayMore(s, db.View(), seen, gone, j);
        NothingListed(s, db.View(), plan[j]);
      } else {
        var e, rest, after := CleanJob(db, plan[j], left, s, seen, gone, j);
        if e == Died {
          order := DiesInside(s, plan, order, seen, was, spent, gone, j, left);
          gone := after;
          MidwayAll(s, db.View(), seen + {j}, plan.Keys, gone);
          return DiedRun, gone, order;
        }
        spent := spent + |JobStates(s, was, plan[j])|;
        AllMade(was, JobStates(s, was, plan[j]), left);
        left, gone := rest, after;
        if e == Failed {
          failed := failed + {j};
        } else {
          ListedJob(s, j, plan[j]);
          done := done + {j};
        }
      }
      seen, order := seen + {j}, order + [j];
    }
    assert seen == plan.Keys;
    Ends(s, plan, order, db.View(), spent, budget);
    end := Finished(done, failed);
  }

  lemma NothingListed(s: State, t: State, entry: JobPlan)
    requires Usable(s, entry) && entry.deleteIds == []
    ensures JobStates(s, t, entry) == [] && StateAt(t, JobStates(s, t, entry), 0) == t
  {
  }

  lemma AllMade(t: State, all: seq<State>, n: nat)
    requires n >= |all|
    ensures StateAt(t, all, n) == StateAt(t, all, |all|)
  {
  }

  lemma Ends(s: State, plan: map<Id, JobPlan>, order: seq<Id>, now: State, spent: nat, budget: nat)
    requires Between(s, plan, order, plan.Keys, now, spent) && spent <= budget
    ensures StoppedAt(s, plan, order, now, budget) && Needed(s, plan) == spent == |RunStates(s, plan, order)|
  {
    hide Usable, Lists, RunStates, Total, Costs, StateAt, Ordered;
    AllMade(s, RunStates(s, plan, order), budget);
    CostKeys(s, plan);
  }

  lemma ListedJob(s: State, j: Id, entry: JobPlan)
    requires EntryFits(s, j, entry) && NoFanOut(s, j) && entry.deleteIds != []
    ensures Doomed(AnchorFirst, s, j) != {}
  {
    hide NoFanOut, Passes, Doomed;
    assert entry.deleteIds[0] in Elems(entry.deleteIds);
  }

  lemma MidwayAll(s: State, t: State, jobs: set<Id>, all: set<Id>, gone: set<Id>)
    requires Midway(s, t, jobs, gone) && jobs <= all
    ensures Midway(s, t, all, gone)
  {
    assert ToDelete(s, jobs) <= ToDelete(s, all);
    forall c | c in s.claims ensures ClaimMidway(s, all, gone, s.claims[c], t.claims[c]) {
      assert ClaimMidway(s, jobs, gone, s.claims[c], t.claims[c]);
    }
    hide Survives, ClaimMidway;
  }

  /** On a sound ledger no join fans out, and every job with copies is cleaned. */
  lemma SoundRun(s: State, t: State, jobs: set<Id>, gone: set<Id>)
    requires LedgerOk(s) && Midway(s, t, jobs, gone)
    ensures t == Without(s, gone) && FannedOut(s, jobs) == {} && ToDelete(s, Cleanable(s, jobs)) == ToDelete(s, jobs)
  {
    MidwayIsWithout(s, t, jobs, gone);
    forall j ensures NoFanOut(s, j) {
      forall c, d, id | Names(s, c, id) && Names(s, d, id) && id in s.results ensures c == d {
        OneClaimPerGroup(s, c, d, id, id);
      }
    }
    hide LedgerOk, NoFanOut, Survives;
    forall id | id in ToDelete(s, jobs) ensures id in ToDelete(s, Cleanable(s, jobs)) {
      assert id in Doomed(AnchorFirst, s, s.results[id].job);
    }
  }

  /** What a run of these jobs costs when no join fans out: for each with rows to delete one
      commit, and one more for every 500 of them. */
  ghost function Commits(s: State, jobs: set<Id>): nat {
    Total(jobs, map j | j in jobs :: Cost(s, j))
  }

  lemma NeededIsCommits(s: State, jobs: set<Id>, plan: map<Id, JobPlan>)
    requires forall j :: j in plan ==> EntryFits(s, j, plan[j])
    requires forall j :: j in plan <==> j in jobs && exists id :: id in s.results && s.results[id].job == j
    requires forall j :: j in jobs ==> NoFanOut(s, j)
    ensures (forall j :: j in plan ==> Usable(s, plan[j])) && Needed(s, plan) == Commits(s, jobs)
  {
    forall j | j in plan ensures Usable(s, plan[j]) && JobCommits(s, plan[j]) == Cost(s, j) { CostIs(s, j, plan[j]); }
    forall j | j in jobs && j !in plan ensures Cost(s, j) == 0 { NoRowsNoCost(s, j); }
    hide EntryFits, NoFanOut, Usable, JobCommits, Cost;
    TotalOfSome(plan.Keys, jobs, Costs(s, plan), map j | j in jobs :: Cost(s, j));
  }

  lemma NoRowsNoCost(s: State, j: Id)
    requires forall id :: id in s.results ==> s.results[id].job != j
    ensures Cost(s, j) == 0
  {
    assert Doomed(AnchorFirst, s, j) == {};
  }

  /** What is left after part of the work costs no more than the whole. */
  lemma CommitsLeft(s: State, gone: set<Id>, jobs: set<Id>)
    requires gone <= ToDelete(s, jobs)
    ensures Commits(Without(s, gone), jobs) <= Commits(s, jobs)
  {
    var w := Without(s, gone);
    forall j | j in jobs ensures Cost(w, j) <= Cost(s, j) {
      FewerDoomed(s, gone, jobs, j);
      SubsetSize(Doomed(AnchorFirst, w, j), Doomed(AnchorFirst, s, j));
      hide *;
      CostGrows(s, w, j);
    }
    hide Cost, ToDelete, Without;
    TotalAtMost(jobs, map j | j in jobs :: Cost(w, j), map j | j in jobs :: Cost(s, j));
  }

  lemma CostGrows(s: State, w: State, j: Id)
    requires |Doomed(AnchorFirst, w, j)| <= |Doomed(AnchorFirst, s, j)|
    ensures Cost(w, j) <= Cost(s, j)
  {
    hide Doomed;
  }

  lemma FewerDoomed(s: State, gone: set<Id>, jobs: set<Id>, j: Id)
    requires gone <= ToDelete(s, jobs)
    ensures Doomed(AnchorFirst, Without(s, gone), j) <= Doomed(AnchorFirst, s, j)
  {
    hide Survives, Key, Survivor;
    forall id | id in Doomed(AnchorFirst, Without(s, gone), j) ensures id in Doomed(AnchorFirst, s, j) {
      SurvivorsStay(s, gone, jobs, id);
    }
  }

  /** What the plan of main says, in some order of its lists. */
  ghost predicate Planned(s: State, jobs: set<Id>, plan: map<Id, JobPlan>) {
    && (forall j :: j in plan <==> j in jobs && exists id :: id in s.results && s.results[id].job == j)
    && forall j :: j in plan ==> EntryFits(s, j, plan[j]) && Usable(s, plan[j])
  }

  /** main with --commit, living for `budget` commits. On any ledger it refuses exactly when the
      scope is not acceptable. Otherwise the database is what the first `budget` commits of its
      plan make of it, in some order of the jobs, and it ends exactly if there are no more; then
      the jobs that failed are those whose join fans out, and every other job is clean. Whenever
      it stops only rows to remove are gone and claims have only moved to survivors. On a sound
      ledger no job fails, and the tables are the old ones without some of the rows to delete:
      all of them if it ended, and it ends exactly if the budget covers one commit for each job
      and one for every 500 of its rows. */
  method Run(db: Database, jobs: set<Id>, budget: nat)
    returns (end: RunEnd, ghost gone: set<Id>, ghost plan: map<Id, JobPlan>, ghost order: seq<Id>)
    modifies db
    ensures end.RefusedRun? <==> !Accepted(old(db.View()), jobs)
    ensures end.RefusedRun? ==> db.View() == old(db.View())
    ensures Midway(old(db.View()), db.View(), jobs, gone)
    ensures !end.RefusedRun? ==>
      && Planned(old(db.View()), jobs, plan) && StoppedAt(old(db.View()), plan, order, db.View(), budget)
      && (end.Finished? <==> Needed(old(db.View()), plan) <= budget)
      && (end.Finished? <==> |RunStates(old(db.View()), plan, order)| <= budget)
    ensures var s := old(db.View());
      end.Finished? ==> end == Finished(Cleanable(s, jobs), FannedOut(s, jobs)) && ToDelete(s, Cleanable(s, jobs)) <= gone
    ensures LedgerOk(old(db.View())) ==>
      && (end.RefusedRun? <==> !Allowed(old(db.View()), jobs))
      && gone <= ToDelete(old(db.View()), jobs) && db.View() == Without(old(db.View()), gone)
      && (end.Finished? <==> Allowed(old(db.View()), jobs) && Commits(old(db.View()), jobs) <= budget)
      && (end.Finished? ==> end.failed == {} && gone == ToDelete(old(db.View()), jobs))
  {
    hide Midway, Accepted, Allowed, LedgerOk, Cleanable, FannedOut, ToDelete, Without, EntryFits, PlanFits, IsJoin, Within,
      Survives, NoFanOut, Needed, Commits, StoppedAt, RunStates, Usable;
    ghost var s := db.View();
    gone, plan, order := {}, map[], [];
    NothingDoneYet(s);
    MidwayAll(s, s, {}, jobs, gone);
    MidwayBasics(s, s, jobs, gone);
    if LedgerOk(s) {
      AcceptedIff(s, jobs);
      SoundRun(s, s, jobs, gone);
    }
    if exists j :: j in jobs && (j !in db.jobs || !Terminal(db.jobs[j].status)) {
      NotOver(s, jobs);
      return RefusedRun, gone, plan, order;
    }
    var entries, out := Plan(AnchorFirst, db.View(), jobs);
    BilledSomewhere(s, jobs, out, entries);
    if exists j :: j in entries && entries[j].deleteBilled != 0 {
      return RefusedRun, gone, plan, order;
    }
    forall j | j in entries ensures EntryFits(s, j, entries[j]) && Usable(s, entries[j]) {
      PlanFitsEntry(s, jobs, out, j, entries[j]);
      FitsUsable(s, j, entries[j]);
    }
    RowlessJobs(s, jobs, entries.Keys);
    plan := entries;
    end, gone, order := RunJobs(db, entries, budget, s);
    MidwayAll(s, db.View(), entries.Keys, jobs, gone);
    MidwayBasics(s, db.View(), jobs, gone);
    if LedgerOk(s) {
      SoundRun(s, db.View(), jobs, gone);
      SoundJobs(s, jobs);
      NeededIsCommits(s, jobs, entries);
    }
  }

  lemma SoundJobs(s: State, jobs: set<Id>)
    requires LedgerOk(s)
    ensures forall j :: j in jobs ==> NoFanOut(s, j)
  {
    forall c, d, id | Names(s, c, id) && Names(s, d, id) && id in s.results ensures c == d {
      OneClaimPerGroup(s, c, d, id, id);
    }
  }

  lemma NotOver(s: State, jobs: set<Id>)
    requires exists j :: j in jobs && (j !in s.jobs || !Terminal(s.jobs[j].status))
    ensures !Accepted(s, jobs)
  {
  }

  /** The restart, as a program: a run that dies, then one that ends, leave what one
      uninterrupted run leaves; the second is never refused, and it ends if it lives as long as
      one whole run takes. */
  method DieThenRunAgain(db: Database, jobs: set<Id>, budget: nat, again: nat) returns (end: RunEnd)
    modifies db
    ensures LedgerOk(old(db.View())) && Allowed(old(db.View()), jobs) ==>
      && !end.RefusedRun? && (Commits(old(db.View()), jobs) <= again ==> end.Finished?)
      && (end.Finished? ==> db.View() == Without(old(db.View()), ToDelete(old(db.View()), jobs)))
  {
    hide Commits, LedgerOk, Allowed, Accepted, Midway, ToDelete, Without, StoppedAt, Needed;
    ghost var s := db.View();
    ghost var gone, more, plan, order;
    var first;
    first, gone, plan, order := Run(db, jobs, budget);
    if LedgerOk(s) {
      RestartFinishes(s, gone, jobs);
      CommitsLeft(s, gone, jobs);
    }
    end, more, plan, order := Run(db, jobs, again);
  }
}
