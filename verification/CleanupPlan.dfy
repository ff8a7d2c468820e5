/** The planning half of both clean-up scripts: the ranking query over
    results LEFT JOIN delivered_records, and the loops that turn its output into
    delete lists and re-point pairs. */
module CleanupPlan {
  import opened Wrappers
  import opened Seqs
  import opened Ledger

  /** One line of the join: a result and one claim that names it, or no claim. */
  datatype Joined = Joined(id: Id, claim: Option<Id>)

  datatype Ranked = Ranked(id: Id, job: Id, isDuplicate: bool, isAnchor: bool, cfp: Scrape, rn: nat)

  datatype JobPlan = JobPlan(deleteIds: seq<Id>, deleteBilled: nat, repoint: seq<(Id, Id)>)

  ghost predicate InJoin(s: State, jobs: set<Id>, e: Joined) {
    && e.id in s.results && s.results[e.id].job in jobs
    && (match e.claim
        case Some(c) => Names(s, c, e.id)
        case None => !Anchored(s, e.id))
  }

  /** The join in some order: every line once, one line per matching claim. */
  ghost predicate IsJoin(s: State, jobs: set<Id>, out: seq<Joined>) {
    NoDup(out) && forall e :: e in out <==> InJoin(s, jobs, e)
  }

  predicate Within(s: State, out: seq<Joined>) {
    forall e :: e in out ==> e.id in s.results
  }

  function LineKey(p: Policy, s: State, e: Joined): (k: seq<int>)
    requires e.id in s.results
    ensures |k| == 8 && k[7] == e.id
  {
    SortKey(p, e.claim.Some?, e.id, s.results[e.id])
  }

  /** Line k is numbered before line i; equal keys are lines of one row, in output order. */
  predicate Ahead(p: Policy, s: State, out: seq<Joined>, k: nat, i: nat)
    requires Within(s, out) && k < |out| && i < |out|
  {
    SameGroup(s.results[out[k].id], s.results[out[i].id])
    && (LexLess(LineKey(p, s, out[k]), LineKey(p, s, out[i])) || (out[k].id == out[i].id && k < i))
  }

  function RowNumber(p: Policy, s: State, out: seq<Joined>, i: nat): nat
    requires Within(s, out) && i < |out|
  {
    1 + |set k: nat | k < |out| && Ahead(p, s, out, k, i)|
  }

  function Line(p: Policy, s: State, out: seq<Joined>, i: nat): Ranked
    requires Within(s, out) && i < |out|
  {
    var r := s.results[out[i].id];
    Ranked(out[i].id, r.job, r.isDuplicate, out[i].claim.Some?, Fingerprint(r), RowNumber(p, s, out, i))
  }

  function RankJoin(p: Policy, s: State, out: seq<Joined>): (r: seq<Ranked>)
    requires Within(s, out)
    ensures |r| == |out| && forall i :: 0 <= i < |r| ==> r[i] == Line(p, s, out, i)
  {
    seq(|out|, i requires 0 <= i < |out| => Line(p, s, out, i))
  }

  // ---------- what row number one means ----------

  lemma EveryRowListed(s: State, jobs: set<Id>, out: seq<Joined>, id: Id) returns (k: nat)
    requires IsJoin(s, jobs, out) && id in s.results && s.results[id].job in jobs
    ensures k < |out| && out[k].id == id
  {
    var e := Joined(id, None);
    if c :| Names(s, c, id) {
      e := Joined(id, Some(c));
    }
    assert InJoin(s, jobs, e);
    k :| 0 <= k < |out| && out[k] == e;
  }

  lemma LineKeyIsKey(p: Policy, s: State, jobs: set<Id>, out: seq<Joined>, k: nat)
    requires IsJoin(s, jobs, out) && k < |out|
    ensures Within(s, out) && LineKey(p, s, out[k]) == Key(p, s, out[k].id)
    ensures out[k].claim.Some? <==> Anchored(s, out[k].id)
  {
    assert InJoin(s, jobs, out[k]);
  }

  /** The first line of a surviving row has no line ahead of it. */
  lemma SurvivorFirst(p: Policy, s: State, jobs: set<Id>, out: seq<Joined>, i: nat, k: nat)
    requires IsJoin(s, jobs, out) && i < |out| && k < |out| && Within(s, out)
    requires Survives(p, s, out[i].id) && forall j :: 0 <= j < i ==> out[j].id != out[i].id
    ensures !Ahead(p, s, out, k, i)
  {
    LineKeyIsKey(p, s, jobs, out, i);
    LineKeyIsKey(p, s, jobs, out, k);
    var me, it := out[i].id, out[k].id;
    if it != me && SameGroup(s.results[it], s.results[me]) {
      assert Grouped(s, it, me);
      LexTotal(Key(p, s, me), Key(p, s, it));
    } else {
      LexTotal(Key(p, s, me), Key(p, s, me));
    }
    hide IsJoin, Survives, Key, LexLess;
  }

  /** A line with none ahead of it is its row's first, and that row survives. */
  lemma FirstSurvives(p: Policy, s: State, jobs: set<Id>, out: seq<Joined>, i: nat)
    requires IsJoin(s, jobs, out) && i < |out| && Within(s, out)
    requires forall k: nat :: k < |out| ==> !Ahead(p, s, out, k, i)
    ensures Survives(p, s, out[i].id) && forall k :: 0 <= k < i ==> out[k].id != out[i].id
  {
    var me := out[i].id;
    LineKeyIsKey(p, s, jobs, out, i);
    assert s.results[me].job in jobs by { assert InJoin(s, jobs, out[i]); }
    forall other | Grouped(s, other, me) && other != me ensures LexLess(Key(p, s, me), Key(p, s, other)) {
      var k := EveryRowListed(s, jobs, out, other);
      LineKeyIsKey(p, s, jobs, out, k);
      hide IsJoin;
      assert !Ahead(p, s, out, k, i);
      LexTotal(Key(p, s, me), Key(p, s, other));
    }
    forall k: nat | k < i ensures out[k].id != me { assert !Ahead(p, s, out, k, i); }
  }

  /** rn = 1 marks the first line of the row that survives its group, and nothing else. */
  lemma FirstIsSurvivor(p: Policy, s: State, jobs: set<Id>, out: seq<Joined>, i: nat)
    requires IsJoin(s, jobs, out) && i < |out|
    ensures Within(s, out)
    ensures RowNumber(p, s, out, i) == 1
            <==> Survives(p, s, out[i].id) && forall k :: 0 <= k < i ==> out[k].id != out[i].id
  {
    JoinWithin(s, jobs, out);
    hide IsJoin, Survives, Ahead;
    var ahead := set k: nat | k < |out| && Ahead(p, s, out, k, i);
    if Survives(p, s, out[i].id) && forall k :: 0 <= k < i ==> out[k].id != out[i].id {
      forall k: nat | k < |out| ensures k !in ahead { SurvivorFirst(p, s, jobs, out, i, k); }
      assert ahead == {};
    }
    if ahead == {} {
      forall k: nat | k < |out| ensures !Ahead(p, s, out, k, i) { assert k !in ahead; }
      FirstSurvives(p, s, jobs, out, i);
    }
  }

  // ---------- the delete list as a filter ----------

  predicate IsDoomed(r: Ranked, job: Id) { r.job == job && r.rn != 1 }

  function DoomedIds(ranked: seq<Ranked>, job: Id): seq<Id> {
    if ranked == [] then []
    else
      var last := ranked[|ranked| - 1];
      DoomedIds(ranked[..|ranked| - 1], job) + if IsDoomed(last, job) then [last.id] else []
  }

  function DoomedBilled(ranked: seq<Ranked>, job: Id): nat {
    if ranked == [] then 0
    else
      var last := ranked[|ranked| - 1];
      DoomedBilled(ranked[..|ranked| - 1], job) + if IsDoomed(last, job) && !last.isDuplicate then 1 else 0
  }

  lemma {:induction false} DoomedIdsMembers(ranked: seq<Ranked>, job: Id)
    ensures forall id ::
      id in DoomedIds(ranked, job) <==> exists i :: 0 <= i < |ranked| && IsDoomed(ranked[i], job) && ranked[i].id == id
  {
    if ranked != [] {
      var rest, n := ranked[..|ranked| - 1], |ranked| - 1;
      DoomedIdsMembers(rest, job);
      forall id
        ensures id in DoomedIds(ranked, job)
                <==> exists i :: 0 <= i < |ranked| && IsDoomed(ranked[i], job) && ranked[i].id == id
      {
        if i :| 0 <= i < |ranked| && IsDoomed(ranked[i], job) && ranked[i].id == id {
          if i < n { assert rest[i] == ranked[i]; }
        }
        if id in DoomedIds(rest, job) {
          var i :| 0 <= i < |rest| && IsDoomed(rest[i], job) && rest[i].id == id;
          assert ranked[i] == rest[i];
        }
      }
    }
  }

  ghost predicate DoomedDistinct(ranked: seq<Ranked>, job: Id) {
    forall i, k :: 0 <= i < k < |ranked| && IsDoomed(ranked[i], job) && IsDoomed(ranked[k], job)
      ==> ranked[i].id != ranked[k].id
  }

  lemma {:induction false} DoomedIdsDistinct(ranked: seq<Ranked>, job: Id)
    ensures NoDup(DoomedIds(ranked, job)) <==> DoomedDistinct(ranked, job)
  {
    if ranked != [] {
      var n := |ranked| - 1;
      var rest, last := ranked[..n], ranked[n];
      var ids := DoomedIds(rest, job);
      DoomedIdsDistinct(rest, job);
      DoomedIdsMembers(rest, job);
      assert forall i :: 0 <= i < n ==> rest[i] == ranked[i];
      if IsDoomed(last, job) {
        NoDupAppend(ids, [last.id]);
        assert DoomedIds(ranked, job) == ids + [last.id];
        assert Elems([last.id]) == {last.id};
        assert NoDup(ids + [last.id]) <==> NoDup(ids) && last.id !in ids;
        LastDistinct(ranked, job);
      } else {
        assert DoomedIds(ranked, job) == ids;
      }
    }
  }

  lemma LastDistinct(ranked: seq<Ranked>, job: Id)
    requires ranked != [] && IsDoomed(ranked[|ranked| - 1], job)
    ensures DoomedDistinct(ranked, job) <==>
      DoomedDistinct(ranked[..|ranked| - 1], job) && ranked[|ranked| - 1].id !in DoomedIds(ranked[..|ranked| - 1], job)
  {
    var n := |ranked| - 1;
    var rest, last := ranked[..n], ranked[n];
    DoomedIdsMembers(rest, job);
    if DoomedDistinct(ranked, job) {
      forall i | 0 <= i < n && IsDoomed(rest[i], job) ensures rest[i].id != last.id {
        assert ranked[i].id != ranked[n].id;
      }
      forall i, k | 0 <= i < k < n && IsDoomed(rest[i], job) && IsDoomed(rest[k], job)
        ensures rest[i].id != rest[k].id
      {
        assert ranked[i].id != ranked[k].id;
      }
    }
  }

  /** The charge to reverse counts the distinct billable rows of a list without repeats. */
  lemma {:induction false} DoomedBilledCounts(ranked: seq<Ranked>, job: Id, billable: Id -> bool)
    requires forall i :: 0 <= i < |ranked| ==> ranked[i].isDuplicate == !billable(ranked[i].id)
    requires NoDup(DoomedIds(ranked, job))
    ensures DoomedBilled(ranked, job) == |set id | id in DoomedIds(ranked, job) && billable(id)|
  {
    if ranked != [] {
      var rest, last := ranked[..|ranked| - 1], ranked[|ranked| - 1];
      NoDupAppend(DoomedIds(rest, job), if IsDoomed(last, job) then [last.id] else []);
      DoomedBilledCounts(rest, job, billable);
      var before := set id | id in DoomedIds(rest, job) && billable(id);
      var after := set id | id in DoomedIds(ranked, job) && billable(id);
      if IsDoomed(last, job) {
        assert last.id in Elems([last.id]) && last.id !in Elems(DoomedIds(rest, job));
        if billable(last.id) {
          assert after == before + {last.id};
        } else {
          assert after == before;
        }
      } else {
        assert after == before;
      }
    }
  }

  // ---------- from lines to rows ----------

  ghost function BillableOf(s: State, ids: set<Id>): set<Id> {
    set id | id in ids && id in s.results && !s.results[id].isDuplicate
  }

  lemma DoomedIdsSound(p: Policy, s: State, jobs: set<Id>, out: seq<Joined>, job: Id)
    requires IsJoin(s, jobs, out) && job in jobs
    ensures Within(s, out)
    ensures forall id :: id in DoomedIds(RankJoin(p, s, out), job) ==> id in s.results && s.results[id].job == job
    ensures forall id :: id in Doomed(p, s, job) ==> id in DoomedIds(RankJoin(p, s, out), job)
  {
    assert forall e :: e in out ==> InJoin(s, jobs, e);
    var ranked := RankJoin(p, s, out);
    DoomedIdsMembers(ranked, job);
    forall id | id in Doomed(p, s, job) ensures id in DoomedIds(ranked, job) {
      var k := EveryRowListed(s, jobs, out, id);
      FirstIsSurvivor(p, s, jobs, out, k);
      assert IsDoomed(ranked[k], job);
    }
  }

  lemma OneLineEach(s: State, jobs: set<Id>, out: seq<Joined>, job: Id)
    requires IsJoin(s, jobs, out) && NoFanOut(s, job) && Within(s, out)
    ensures forall i, k :: 0 <= i < k < |out| && s.results[out[i].id].job == job ==> out[i].id != out[k].id
  {
    forall i, k | 0 <= i < k < |out| && s.results[out[i].id].job == job ensures out[i].id != out[k].id {
      assert InJoin(s, jobs, out[i]) && InJoin(s, jobs, out[k]);
      assert out[i] != out[k];
    }
  }

  lemma NoFanOutGivesCleanList(p: Policy, s: State, jobs: set<Id>, out: seq<Joined>, job: Id)
    requires IsJoin(s, jobs, out) && job in jobs && NoFanOut(s, job)
    ensures Within(s, out)
    ensures var ids := DoomedIds(RankJoin(p, s, out), job);
      NoDup(ids) && forall id :: id in ids ==> !Survives(p, s, id)
  {
    DoomedIdsSound(p, s, jobs, out, job);
    var ranked := RankJoin(p, s, out);
    DoomedIdsMembers(ranked, job);
    DoomedIdsDistinct(ranked, job);
    OneLineEach(s, jobs, out, job);
    forall i: nat | i < |out| && IsDoomed(ranked[i], job) ensures !Survives(p, s, out[i].id) {
      FirstIsSurvivor(p, s, jobs, out, i);
    }
  }

  /** A second claim on one row puts that row in the list twice, or puts the survivor in it. */
  lemma FanOutShows(p: Policy, s: State, jobs: set<Id>, out: seq<Joined>, job: Id, id: Id, c: Id, d: Id)
    requires IsJoin(s, jobs, out) && job in jobs
    requires Names(s, c, id) && Names(s, d, id) && c != d && id in s.results && s.results[id].job == job
    ensures Within(s, out)
    ensures var ids := DoomedIds(RankJoin(p, s, out), job);
      !NoDup(ids) || (id in ids && Survives(p, s, id))
  {
    DoomedIdsSound(p, s, jobs, out, job);
    var ranked := RankJoin(p, s, out);
    DoomedIdsMembers(ranked, job);
    DoomedIdsDistinct(ranked, job);
    assert InJoin(s, jobs, Joined(id, Some(c))) && InJoin(s, jobs, Joined(id, Some(d)));
    var i :| 0 <= i < |out| && out[i] == Joined(id, Some(c));
    var k :| 0 <= k < |out| && out[k] == Joined(id, Some(d));
    FirstIsSurvivor(p, s, jobs, out, i);
    FirstIsSurvivor(p, s, jobs, out, k);
    assert ranked[i].id == ranked[k].id == id && i != k;
    assert IsDoomed(ranked[i], job) || IsDoomed(ranked[k], job);
  }

  /** Two claims name this row. */
  ghost predicate ClaimedTwice(s: State, id: Id) {
    exists c, d :: Names(s, c, id) && Names(s, d, id) && c != d
  }

  /** A row is listed exactly when it does not survive, or two claims name it. */
  lemma ListedIff(p: Policy, s: State, jobs: set<Id>, out: seq<Joined>, job: Id, id: Id)
    requires IsJoin(s, jobs, out) && job in jobs
    ensures Within(s, out)
    ensures id in DoomedIds(RankJoin(p, s, out), job) <==>
      id in s.results && s.results[id].job == job && (!Survives(p, s, id) || ClaimedTwice(s, id))
  {
    DoomedIdsSound(p, s, jobs, out, job);
    var ranked := RankJoin(p, s, out);
    DoomedIdsMembers(ranked, job);
    hide DoomedIds, Survives, ClaimedTwice, IsJoin, RowNumber;
    if i: nat :| i < |out| && IsDoomed(ranked[i], job) && ranked[i].id == id {
      FirstIsSurvivor(p, s, jobs, out, i);
      LinesOfOneRow(s, jobs, out, i);
    }
    if id in s.results && s.results[id].job == job && Survives(p, s, id) && ClaimedTwice(s, id) {
      var i := SecondLine(s, jobs, out, id);
      FirstIsSurvivor(p, s, jobs, out, i);
      assert IsDoomed(ranked[i], job);
    }
  }

  lemma LinesOfOneRow(s: State, jobs: set<Id>, out: seq<Joined>, i: nat)
    requires IsJoin(s, jobs, out) && i < |out|
    ensures (exists k :: 0 <= k < i && out[k].id == out[i].id) ==> ClaimedTwice(s, out[i].id)
  {
    if k :| 0 <= k < i && out[k].id == out[i].id {
      assert InJoin(s, jobs, out[i]) && InJoin(s, jobs, out[k]) && out[i] != out[k];
      assert out[i].claim.Some? && out[k].claim.Some?;
      assert Names(s, out[i].claim.value, out[i].id) && Names(s, out[k].claim.value, out[i].id);
    }
  }

  lemma SecondLine(s: State, jobs: set<Id>, out: seq<Joined>, id: Id) returns (i: nat)
    requires IsJoin(s, jobs, out) && id in s.results && s.results[id].job in jobs && ClaimedTwice(s, id)
    ensures i < |out| && out[i].id == id && exists k :: 0 <= k < i && out[k].id == out[i].id
  {
    var c, d :| Names(s, c, id) && Names(s, d, id) && c != d;
    assert InJoin(s, jobs, Joined(id, Some(c))) && InJoin(s, jobs, Joined(id, Some(d)));
    var a :| 0 <= a < |out| && out[a] == Joined(id, Some(c));
    var b :| 0 <= b < |out| && out[b] == Joined(id, Some(d));
    i := if a < b then b else a;
    assert out[if a < b then a else b].id == id;
  }

  /** delete_billed is positive exactly when a listed line is not a duplicate. */
  lemma {:induction false} DoomedBilledPositive(ranked: seq<Ranked>, job: Id)
    ensures DoomedBilled(ranked, job) != 0 <==>
      exists i :: 0 <= i < |ranked| && IsDoomed(ranked[i], job) && !ranked[i].isDuplicate
  {
    if ranked != [] {
      var n := |ranked| - 1;
      DoomedBilledPositive(ranked[..n], job);
      if i :| 0 <= i < |ranked| && IsDoomed(ranked[i], job) && !ranked[i].isDuplicate {
        assert i < n ==> ranked[..n][i] == ranked[i];
      }
      if i :| 0 <= i < n && IsDoomed(ranked[..n][i], job) && !ranked[..n][i].isDuplicate {
        assert ranked[..n][i] == ranked[i];
      }
    }
  }

  /** So it is when a row that is not a duplicate does not survive, or is claimed twice. */
  lemma BilledListed(p: Policy, s: State, jobs: set<Id>, out: seq<Joined>, job: Id)
    requires IsJoin(s, jobs, out) && job in jobs
    ensures Within(s, out)
    ensures DoomedBilled(RankJoin(p, s, out), job) != 0 <==>
      exists id :: id in s.results && s.results[id].job == job && !s.results[id].isDuplicate
                   && (!Survives(p, s, id) || ClaimedTwice(s, id))
  {
    JoinWithin(s, jobs, out);
    hide Survives, ClaimedTwice, IsJoin, DoomedIds, DoomedBilled, RowNumber;
    var ranked := RankJoin(p, s, out);
    DoomedBilledPositive(ranked, job);
    DoomedIdsMembers(ranked, job);
    forall id
      ensures id in DoomedIds(ranked, job) <==>
        id in s.results && s.results[id].job == job && (!Survives(p, s, id) || ClaimedTwice(s, id))
    {
      ListedIff(p, s, jobs, out, job, id);
    }
    hide IsDoomed;
    forall i: nat | i < |ranked| ensures ranked[i].isDuplicate == s.results[ranked[i].id].isDuplicate {}
    if i :| 0 <= i < |ranked| && IsDoomed(ranked[i], job) && !ranked[i].isDuplicate {
      assert ranked[i].id in DoomedIds(ranked, job);
    }
    if id :| id in DoomedIds(ranked, job) && !s.results[id].isDuplicate {
      var i :| 0 <= i < |ranked| && IsDoomed(ranked[i], job) && ranked[i].id == id;
    }
  }

  /** The delete list is free of repeats and of survivors exactly when the join did not fan out. */
  lemma CleanListIffNoFanOut(p: Policy, s: State, jobs: set<Id>, out: seq<Joined>, job: Id)
    requires IsJoin(s, jobs, out) && job in jobs
    ensures Within(s, out)
    ensures var ids := DoomedIds(RankJoin(p, s, out), job);
      NoFanOut(s, job) <==> NoDup(ids) && forall id :: id in ids ==> !Survives(p, s, id)
  {
    DoomedIdsSound(p, s, jobs, out, job);
    if NoFanOut(s, job) {
      NoFanOutGivesCleanList(p, s, jobs, out, job);
    } else {
      var c, d, id :| Names(s, c, id) && Names(s, d, id) && id in s.results && s.results[id].job == job && c != d;
      FanOutShows(p, s, jobs, out, job, id, c, d);
    }
  }

  /** Without fan-out the list names the doomed rows, and the decrement their billable part. */
  lemma CleanList(p: Policy, s: State, jobs: set<Id>, out: seq<Joined>, job: Id)
    requires IsJoin(s, jobs, out) && job in jobs && NoFanOut(s, job)
    ensures Within(s, out)
    ensures var ranked := RankJoin(p, s, out);
      && NoDup(DoomedIds(ranked, job)) && Elems(DoomedIds(ranked, job)) == Doomed(p, s, job)
      && DoomedBilled(ranked, job) == |BillableOf(s, Doomed(p, s, job))|
  {
    DoomedIdsSound(p, s, jobs, out, job);
    CleanListIffNoFanOut(p, s, jobs, out, job);
    hide IsJoin, NoFanOut, RowNumber, DoomedIds, DoomedBilled, Survives;
    var ranked := RankJoin(p, s, out);
    var ids := DoomedIds(ranked, job);
    assert Elems(ids) == Doomed(p, s, job);
    var billable := (id: Id) => id in s.results && !s.results[id].isDuplicate;
    forall i | 0 <= i < |ranked| ensures ranked[i].isDuplicate == !billable(ranked[i].id) {}
    DoomedBilledCounts(ranked, job, billable);
    assert (set id | id in ids && billable(id)) == BillableOf(s, Doomed(p, s, job));
  }

  // ---------- the query and the loops of _plan ----------

  /** What the delete list and the re-point pairs of one job say about its rows. */
  ghost predicate PlanFits(p: Policy, s: State, out: seq<Joined>, job: Id, plan: JobPlan)
    requires Within(s, out)
  {
    var ranked := RankJoin(p, s, out);
    && plan.deleteIds == DoomedIds(ranked, job)
    && plan.deleteBilled == DoomedBilled(ranked, job)
    && RepointFits(p, s, plan.deleteIds, plan.repoint)
  }

  ghost predicate RepointFits(p: Policy, s: State, ids: seq<Id>, repoint: seq<(Id, Id)>) {
    forall pair :: pair in repoint
      <==> pair.0 in ids && pair.0 in s.results && Anchored(s, pair.0) && pair.1 == Survivor(p, s, pair.0)
  }

  method JoinClaims(s: State, jobs: set<Id>) returns (out: seq<Joined>)
    ensures IsJoin(s, jobs, out)
  {
    out := [];
    var todo := s.results.Keys;
    while todo != {}
      invariant todo <= s.results.Keys && NoDup(out)
      invariant forall e :: e in out <==> InJoin(s, jobs, e) && e.id !in todo
      decreases todo
    {
      var id :| id in todo;
      if s.results[id].job in jobs {
        var named := set c | c in s.claims && s.claims[c].firstResult == Some(id);
        assert named == {} <==> !Anchored(s, id) by {
          if c :| Names(s, c, id) { assert c in named; }
          if c :| c in named { assert Names(s, c, id); }
        }
        ghost var before := out;
        if named == {} {
          out := out + [Joined(id, None)];
        }
        var left := named;
        while left != {}
          invariant left <= named && NoDup(out)
          invariant forall e :: e in out <==>
            e in before || (e.id == id && (if e.claim.Some? then e.claim.value in named - left else named == {}))
          decreases left
        {
          var c :| c in left;
          out := out + [Joined(id, Some(c))];
          left := left - {c};
        }
      }
      todo := todo - {id};
    }
  }

  lemma {:induction false} FirstLine(out: seq<Joined>, k: nat) returns (i: nat)
    requires k < |out|
    ensures i < |out| && out[i].id == out[k].id && forall j :: 0 <= j < i ==> out[j].id != out[i].id
    decreases k
  {
    i := k;
    if j :| 0 <= j < k && out[j].id == out[k].id {
      i := FirstLine(out, j);
    }
  }

  /** The lookup of a line's survivor never misses. */
  lemma SurvivorListed(p: Policy, s: State, jobs: set<Id>, out: seq<Joined>, k: nat) returns (i: nat)
    requires IsJoin(s, jobs, out) && k < |out|
    ensures Within(s, out) && i < |out| && RankJoin(p, s, out)[i].rn == 1
    ensures out[i].id == Survivor(p, s, out[k].id)
  {
    assert InJoin(s, jobs, out[k]);
    var j := EveryRowListed(s, jobs, out, Survivor(p, s, out[k].id));
    i := FirstLine(out, j);
    FirstIsSurvivor(p, s, jobs, out, i);
  }

  lemma RepointGrows(p: Policy, s: State, ids: seq<Id>, repoint: seq<(Id, Id)>, id: Id)
    requires RepointFits(p, s, ids, repoint) && id in s.results
    ensures RepointFits(p, s, ids + [id], if Anchored(s, id) then repoint + [(id, Survivor(p, s, id))] else repoint)
  {
  }

  /** Each key holds the surviving row of that group. */
  ghost predicate SurvivorsBy(p: Policy, s: State, found: map<(Id, Scrape), Id>) {
    forall k :: k in found ==>
      Survives(p, s, found[k]) && s.results[found[k]].job == k.0 && Fingerprint(s.results[found[k]]) == k.1
  }

  method FindSurvivors(p: Policy, s: State, ghost jobs: set<Id>, ranked: seq<Ranked>, ghost out: seq<Joined>)
    returns (found: map<(Id, Scrape), Id>)
    requires IsJoin(s, jobs, out) && Within(s, out) && ranked == RankJoin(p, s, out)
    ensures SurvivorsBy(p, s, found)
    ensures forall i :: 0 <= i < |ranked| && ranked[i].rn == 1 ==> (ranked[i].job, ranked[i].cfp) in found
  {
    found := map[];
    for n := 0 to |ranked|
      invariant SurvivorsBy(p, s, found)
      invariant forall i :: 0 <= i < n && ranked[i].rn == 1 ==> (ranked[i].job, ranked[i].cfp) in found
    {
      if ranked[n].rn == 1 {
        FirstIsSurvivor(p, s, jobs, out, n);
        found := found[(ranked[n].job, ranked[n].cfp) := ranked[n].id];
      }
    }
  }

  /** One turn of the second loop, for the entry of the line's own job. */
  method Classify(p: Policy, s: State, ghost jobs: set<Id>, ghost out: seq<Joined>, ghost n: nat, row: Ranked,
                  survivor: map<(Id, Scrape), Id>, j: JobPlan)
    returns (k: JobPlan)
    requires IsJoin(s, jobs, out) && Within(s, out) && n < |out| && row == Line(p, s, out, n)
    requires SurvivorsBy(p, s, survivor)
    requires forall i :: 0 <= i < |out| && RankJoin(p, s, out)[i].rn == 1 ==>
      (RankJoin(p, s, out)[i].job, RankJoin(p, s, out)[i].cfp) in survivor
    requires RepointFits(p, s, j.deleteIds, j.repoint)
    ensures k.deleteIds == j.deleteIds + if row.rn != 1 then [row.id] else []
    ensures k.deleteBilled == j.deleteBilled + if row.rn != 1 && !row.isDuplicate then 1 else 0
    ensures RepointFits(p, s, k.deleteIds, k.repoint)
  {
    k := j;
    if row.rn != 1 {
      LineKeyIsKey(p, s, jobs, out, n);
      ghost var i := SurvivorListed(p, s, jobs, out, n);
      assert (RankJoin(p, s, out)[i].job, RankJoin(p, s, out)[i].cfp) == (row.job, row.cfp);
      SurvivorUnique(p, s, survivor[(row.job, row.cfp)], Survivor(p, s, row.id));
      RepointGrows(p, s, j.deleteIds, j.repoint, row.id);
      k := k.(deleteIds := k.deleteIds + [row.id]);
      if !row.isDuplicate {
        k := k.(deleteBilled := k.deleteBilled + 1);
      }
      if row.isAnchor {
        k := k.(repoint := k.repoint + [(row.id, survivor[(row.job, row.cfp)])]);
      }
    }
  }

  lemma JoinNonEmpty(s: State, jobs: set<Id>, out: seq<Joined>)
    requires IsJoin(s, jobs, out)
    ensures out != [] ==> exists id :: id in s.results && s.results[id].job in jobs
  {
    if out != [] {
      assert out[0] in out;
      assert InJoin(s, jobs, out[0]);
    }
  }

  lemma JobsListed(p: Policy, s: State, jobs: set<Id>, out: seq<Joined>, j: Id)
    requires IsJoin(s, jobs, out) && Within(s, out)
    ensures (exists i :: 0 <= i < |out| && RankJoin(p, s, out)[i].job == j)
            <==> j in jobs && exists id :: id in s.results && s.results[id].job == j
  {
    if i :| 0 <= i < |out| && RankJoin(p, s, out)[i].job == j {
      assert InJoin(s, jobs, out[i]);
    }
    if j in jobs {
      forall id | id in s.results && s.results[id].job == j
        ensures exists i :: 0 <= i < |out| && RankJoin(p, s, out)[i].job == j
      {
        var k := EveryRowListed(s, jobs, out, id);
        assert RankJoin(p, s, out)[k].job == j;
      }
    }
  }

  /** The classification of the first n lines, for one job. */
  ghost predicate PlannedUpTo(p: Policy, s: State, ranked: seq<Ranked>, n: nat, job: Id, plan: JobPlan)
    requires n <= |ranked|
  {
    && plan.deleteIds == DoomedIds(ranked[..n], job)
    && plan.deleteBilled == DoomedBilled(ranked[..n], job)
    && RepointFits(p, s, plan.deleteIds, plan.repoint)
  }

  /** dict.setdefault / dict.get with an empty entry. */
  function EntryOf(plan: map<Id, JobPlan>, job: Id): JobPlan {
    if job in plan then plan[job] else JobPlan([], 0, [])
  }

  /** What one line adds to the entry of a job: nothing unless the line is that job's. */
  lemma PlannedGrows(p: Policy, s: State, ranked: seq<Ranked>, n: nat, job: Id, was: JobPlan, now: JobPlan)
    requires n < |ranked| && PlannedUpTo(p, s, ranked, n, job, was)
    requires RepointFits(p, s, now.deleteIds, now.repoint)
    requires now.deleteIds == was.deleteIds + if IsDoomed(ranked[n], job) then [ranked[n].id] else []
    requires now.deleteBilled == was.deleteBilled + if IsDoomed(ranked[n], job) && !ranked[n].isDuplicate then 1 else 0
    ensures PlannedUpTo(p, s, ranked, n + 1, job, now)
  {
    assert ranked[..n + 1][..n] == ranked[..n];
  }

  lemma PlannedNothing(p: Policy, s: State, ranked: seq<Ranked>, job: Id)
    ensures PlannedUpTo(p, s, ranked, 0, job, JobPlan([], 0, []))
  {
  }

  method ClassifyAll(p: Policy, s: State, ghost jobs: set<Id>, ghost out: seq<Joined>, ranked: seq<Ranked>,
                     survivor: map<(Id, Scrape), Id>)
    returns (plan: map<Id, JobPlan>)
    requires IsJoin(s, jobs, out) && Within(s, out) && ranked == RankJoin(p, s, out)
    requires SurvivorsBy(p, s, survivor)
    requires forall i :: 0 <= i < |ranked| && ranked[i].rn == 1 ==> (ranked[i].job, ranked[i].cfp) in survivor
    ensures forall j :: j in plan <==> exists i :: 0 <= i < |ranked| && ranked[i].job == j
    ensures forall j :: j in plan ==> PlanFits(p, s, out, j, plan[j])
  {
    hide DoomedIds, DoomedBilled, RepointFits, SurvivorsBy, IsJoin, RowNumber;
    plan := map[];
    forall j ensures PlannedUpTo(p, s, ranked, 0, j, JobPlan([], 0, [])) {
      PlannedNothing(p, s, ranked, j);
    }
    for n := 0 to |ranked|
      invariant forall j :: j in plan <==> exists i :: 0 <= i < n && ranked[i].job == j
      invariant forall j :: PlannedUpTo(p, s, ranked, n, j, EntryOf(plan, j))
    {
      var job := ranked[n].job;
      var k := Classify(p, s, jobs, out, n, ranked[n], survivor, EntryOf(plan, job));
      ghost var before := plan;
      plan := plan[job := k];
      forall j ensures PlannedUpTo(p, s, ranked, n + 1, j, EntryOf(plan, j)) {
        PlannedGrows(p, s, ranked, n, j, EntryOf(before, j), EntryOf(plan, j));
      }
    }
    assert ranked[..|ranked|] == ranked;
    assert forall j :: j in plan ==> EntryOf(plan, j) == plan[j];
  }

  lemma JoinWithin(s: State, jobs: set<Id>, out: seq<Joined>)
    requires IsJoin(s, jobs, out)
    ensures Within(s, out)
  {
    assert forall e :: e in out ==> InJoin(s, jobs, e);
  }

  /** _plan: one pass to find the survivors, one to classify the lines. */
  method Plan(p: Policy, s: State, jobs: set<Id>) returns (plan: map<Id, JobPlan>, ghost out: seq<Joined>)
    ensures IsJoin(s, jobs, out) && Within(s, out)
    ensures forall j :: j in plan <==> j in jobs && exists id :: id in s.results && s.results[id].job == j
    ensures forall j :: j in plan ==> PlanFits(p, s, out, j, plan[j])
  {
    var lines := JoinClaims(s, jobs);
    out := lines;
    JoinWithin(s, jobs, lines);
    var ranked := RankJoin(p, s, lines);
    var survivor := FindSurvivors(p, s, jobs, ranked, out);
    plan := ClassifyAll(p, s, jobs, out, ranked, survivor);
    forall j ensures j in plan <==> j in jobs && exists id :: id in s.results && s.results[id].job == j {
      JobsListed(p, s, jobs, out, j);
    }
  }
}
