/** The dedup ledger: the tables the clean-up scripts read and write, the invariants
    of scripts/diag_verify_repair_invariants.py, and the survivor ranking that both
    clean-ups share. */
module Ledger {
  import opened Wrappers
  import opened Seqs

  type Id = nat      // a uuid, with its order
  type Time = int

  /** The scrape-stable fields, in the order the fingerprint lists them. */
  datatype Scrape = Scrape(
    rawHtmlHash: Option<string>, parcelId: Option<string>, partyName: Option<string>,
    dateRecorded: Option<string>, docType: Option<string>, legalDescription: Option<string>,
    dedupHash: Option<string>, delinquentAmount: Option<string>, delinquentBillYear: Option<string>)

  datatype Row = Row(
    job: Id, user: Id, scrape: Scrape, isDuplicate: bool,
    mailing: Option<string>, property: Option<string>, skipTraceStatus: string,
    propertyKey: Option<string>, createdAt: Time,
    reason: Option<string>, sourceJob: Option<Id>, sourceAt: Option<Time>)

  /** One delivered_records row: "this user has already been given this lead". */
  datatype Claim = Claim(user: Id, hash: string, firstResult: Option<Id>, firstJob: Option<Id>, deliveredAt: Time)

  datatype Job = Job(
    user: Id, status: string, createdAt: Time, finishedAt: Option<Time>,
    billingAppliedAt: Option<Time>, billedCount: Option<nat>)

  datatype User = User(recordsUsed: int, periodStart: Option<Time>)

  /** otherRefs: result ids that some table other than delivered_records refers to.
      archive: what the billed clean-up preserved before deleting. */
  datatype State = State(
    results: map<Id, Row>, claims: map<Id, Claim>, jobs: map<Id, Job>, users: map<Id, User>,
    otherRefs: set<Id>, archive: set<(Id, Row)>)

  // ---------- foreign keys and ledger invariants ----------

  ghost predicate ClaimsResolve(s: State) {
    forall c :: c in s.claims && s.claims[c].firstResult.Some? ==> s.claims[c].firstResult.value in s.results
  }

  ghost predicate SameUser(s: State) {
    forall c :: c in s.claims && s.claims[c].firstResult.Some? && s.claims[c].firstResult.value in s.results ==>
      s.results[s.claims[c].firstResult.value].user == s.claims[c].user
  }

  ghost predicate SameHash(s: State) {
    forall c :: c in s.claims && s.claims[c].firstResult.Some? && s.claims[c].firstResult.value in s.results ==>
      s.results[s.claims[c].firstResult.value].scrape.dedupHash == Some(s.claims[c].hash)
  }

  /** uq_delivered_records_user_hash. */
  ghost predicate ClaimsUnique(s: State) {
    forall c, d ::
      (c in s.claims && d in s.claims && s.claims[c].user == s.claims[d].user && s.claims[c].hash == s.claims[d].hash)
      ==> c == d
  }

  /** A row belongs to the user of its job. */
  ghost predicate RowsOwned(s: State) {
    forall r :: r in s.results ==> s.results[r].job in s.jobs && s.results[r].user == s.jobs[s.results[r].job].user
  }

  ghost predicate LedgerOk(s: State) {
    ClaimsResolve(s) && SameUser(s) && SameHash(s) && ClaimsUnique(s) && RowsOwned(s)
  }

  ghost predicate Names(s: State, c: Id, id: Id) {
    c in s.claims && s.claims[c].firstResult == Some(id)
  }

  ghost predicate Anchored(s: State, id: Id) {
    exists c :: Names(s, c, id)
  }

  /** Claims that name a row flagged as a duplicate: the contradiction the re-pointing repairs. */
  ghost function ClaimsOnDuplicates(s: State): set<Id> {
    set c | c in s.claims && s.claims[c].firstResult.Some? && s.claims[c].firstResult.value in s.results
            && s.results[s.claims[c].firstResult.value].isDuplicate
  }

  // ---------- fingerprint, groups and ranking ----------

  /** The md5 of the tuple, taken as the tuple itself; '' and NULL page hashes are one value. */
  function Fingerprint(r: Row): Scrape {
    if r.scrape.rawHtmlHash == Some("") then r.scrape.(rawHtmlHash := None) else r.scrape
  }

  /** PARTITION BY job_id, fingerprint. */
  predicate SameGroup(r: Row, q: Row) {
    r.job == q.job && Fingerprint(r) == Fingerprint(q)
  }

  predicate NoHash(h: Option<string>) { h == None || h == Some("") }

  /** The nine scraped columns one by one; '' and NULL page hashes count as equal. */
  predicate SameLead(r: Row, q: Row) {
    && (r.scrape.rawHtmlHash == q.scrape.rawHtmlHash || (NoHash(r.scrape.rawHtmlHash) && NoHash(q.scrape.rawHtmlHash)))
    && r.scrape.parcelId == q.scrape.parcelId && r.scrape.partyName == q.scrape.partyName
    && r.scrape.dateRecorded == q.scrape.dateRecorded && r.scrape.docType == q.scrape.docType
    && r.scrape.legalDescription == q.scrape.legalDescription && r.scrape.dedupHash == q.scrape.dedupHash
    && r.scrape.delinquentAmount == q.scrape.delinquentAmount && r.scrape.delinquentBillYear == q.scrape.delinquentBillYear
  }

  /** Rows are one group exactly when they are one job's and agree in every one of them. */
  lemma SameGroupIff(r: Row, q: Row)
    ensures SameGroup(r, q) <==> r.job == q.job && SameLead(r, q)
  {
  }

  /** Which of the two scripts ranks: the billed one keeps the billable row first, the
      safe one keeps the claim's row first. */
  datatype Policy = BillableFirst | AnchorFirst

  function First(b: bool): int { if b then 0 else 1 }

  /** ORDER BY of the two ranking statements; the last column is the primary key. */
  function SortKey(p: Policy, anchored: bool, id: Id, r: Row): (k: seq<int>)
    ensures |k| == 8
  {
    (match p
     case BillableFirst => [First(!r.isDuplicate), First(anchored)]
     case AnchorFirst => [First(anchored), First(!r.isDuplicate)])
    + [First(r.mailing.Some?), First(r.property.Some?), First(r.skipTraceStatus == "hit"),
       First(r.propertyKey.Some?), r.createdAt, id]
  }

  ghost function Key(p: Policy, s: State, id: Id): (k: seq<int>)
    requires id in s.results
    ensures |k| == 8 && k[7] == id
  {
    SortKey(p, Anchored(s, id), id, s.results[id])
  }

  ghost predicate Grouped(s: State, a: Id, b: Id) {
    a in s.results && b in s.results && SameGroup(s.results[a], s.results[b])
  }

  /** The row the ranking keeps: strictly first of its group. */
  ghost predicate Survives(p: Policy, s: State, id: Id) {
    id in s.results
    && forall other :: Grouped(s, other, id) && other != id ==> LexLess(Key(p, s, id), Key(p, s, other))
  }

  ghost function Doomed(p: Policy, s: State, job: Id): set<Id> {
    set id | id in s.results && s.results[id].job == job && !Survives(p, s, id)
  }

  lemma {:induction false} LeastOf(p: Policy, s: State, ids: set<Id>) returns (m: Id)
    requires ids != {} && ids <= s.results.Keys
    ensures m in ids && forall o :: o in ids && o != m ==> LexLess(Key(p, s, m), Key(p, s, o))
    decreases ids
  {
    var x :| x in ids;
    var rest := ids - {x};
    if rest == {} {
      m := x;
      assert ids == {x};
    } else {
      var n := LeastOf(p, s, rest);
      LexTotal(Key(p, s, x), Key(p, s, n));
      assert Key(p, s, x) != Key(p, s, n);
      if LexLess(Key(p, s, x), Key(p, s, n)) {
        m := x;
        forall o | o in ids && o != m ensures LexLess(Key(p, s, m), Key(p, s, o)) {
          if o != n { LexTransitive(Key(p, s, x), Key(p, s, n), Key(p, s, o)); }
        }
      } else {
        m := n;
      }
    }
  }

  /** Every group keeps exactly one row. */
  lemma SurvivorExists(p: Policy, s: State, id: Id)
    requires id in s.results
    ensures exists m :: Survives(p, s, m) && Grouped(s, m, id)
  {
    var group := set o | o in s.results && SameGroup(s.results[o], s.results[id]);
    assert id in group;
    var m := LeastOf(p, s, group);
    assert Survives(p, s, m) && Grouped(s, m, id);
  }

  lemma SurvivorUnique(p: Policy, s: State, a: Id, b: Id)
    requires Survives(p, s, a) && Survives(p, s, b) && Grouped(s, a, b)
    ensures a == b
  {
    if a != b { LexTotal(Key(p, s, a), Key(p, s, b)); }
  }

  ghost function Survivor(p: Policy, s: State, id: Id): (m: Id)
    requires id in s.results
    ensures Survives(p, s, m) && Grouped(s, m, id)
  {
    SurvivorExists(p, s, id);
    var m :| Survives(p, s, m) && Grouped(s, m, id);
    m
  }

  /** Among rows that tie on flag and claim the survivor is the best enriched one: a mailing
      address decides first, then a property address, a skip-trace hit, a property key, age. */
  lemma SurvivorBestEnriched(p: Policy, s: State, m: Id, o: Id)
    requires Survives(p, s, m) && Grouped(s, o, m) && o != m
    requires s.results[o].isDuplicate == s.results[m].isDuplicate && (Anchored(s, o) <==> Anchored(s, m))
    ensures var a, b := s.results[m], s.results[o];
      && (b.mailing.Some? ==> a.mailing.Some?)
      && (b.mailing.Some? == a.mailing.Some? ==>
            && (b.property.Some? ==> a.property.Some?)
            && (b.property.Some? == a.property.Some? ==>
                  && (b.skipTraceStatus == "hit" ==> a.skipTraceStatus == "hit")
                  && ((b.skipTraceStatus == "hit") == (a.skipTraceStatus == "hit") ==>
                        && (b.propertyKey.Some? ==> a.propertyKey.Some?)
                        && (b.propertyKey.Some? == a.propertyKey.Some? ==>
                              a.createdAt < b.createdAt || (a.createdAt == b.createdAt && m < o)))))
  {
    var x, y := Key(p, s, m), Key(p, s, o);
    KeyColumns(p, s, m);
    KeyColumns(p, s, o);
    assert LexLess(x, y);
    hide Key, LexLess, Survives, Grouped, Anchored;
    LastSixDecide(x, y);
  }

  /** Where the first two columns tie, the next six decide in their order. */
  lemma LastSixDecide(x: seq<int>, y: seq<int>)
    requires |x| == |y| == 8 && LexLess(x, y) && x[0] == y[0] && x[1] == y[1]
    ensures x[2] <= y[2]
    ensures x[2] == y[2] ==> x[3] <= y[3]
    ensures x[2] == y[2] && x[3] == y[3] ==> x[4] <= y[4]
    ensures x[2] == y[2] && x[3] == y[3] && x[4] == y[4] ==> x[5] <= y[5]
    ensures x[2] == y[2] && x[3] == y[3] && x[4] == y[4] && x[5] == y[5] ==>
      x[6] < y[6] || (x[6] == y[6] && x[7] < y[7])
  {
    assert x[0..] == x && y[0..] == y;
    LexLessFrom(x, y, 0);
    hide LexLess;
    var k :| 0 <= k < |x| && x[k] < y[k] && forall j :: 0 <= j < k ==> x[j] == y[j];
    assert k >= 2;
    assert k > 2 ==> x[2] == y[2];
    assert k > 3 ==> x[3] == y[3];
    assert k > 4 ==> x[4] == y[4];
    assert k > 5 ==> x[5] == y[5];
    assert k > 6 ==> x[6] == y[6];
  }

  lemma KeyColumns(p: Policy, s: State, id: Id)
    requires id in s.results
    ensures var k, r := Key(p, s, id), s.results[id];
      && k[0] == (if p == BillableFirst then First(!r.isDuplicate) else First(Anchored(s, id)))
      && k[1] == (if p == BillableFirst then First(Anchored(s, id)) else First(!r.isDuplicate))
      && k[2] == First(r.mailing.Some?) && k[3] == First(r.property.Some?) && k[4] == First(r.skipTraceStatus == "hit")
      && k[5] == First(r.propertyKey.Some?) && k[6] == r.createdAt && k[7] == id
  {
  }

  /** Past columns that agree the order is decided by the rest. */
  lemma {:induction false} LexLessFrom(a: seq<int>, b: seq<int>, n: nat)
    requires |a| == |b| && n <= |a| && LexLess(a[n..], b[n..])
    ensures exists k :: n <= k < |a| && a[k] < b[k] && forall j :: n <= j < k ==> a[j] == b[j]
    decreases |a| - n
  {
    assert a[n..][1..] == a[n + 1..] && b[n..][1..] == b[n + 1..];
    if a[n] >= b[n] {
      LexLessFrom(a, b, n + 1);
      var k :| n + 1 <= k < |a| && a[k] < b[k] && forall j :: n + 1 <= j < k ==> a[j] == b[j];
    }
  }

  /** The billed ranking keeps a billable row whenever the group has one. */
  lemma SurvivorBillable(s: State, id: Id, other: Id)
    requires Survives(BillableFirst, s, id) && Grouped(s, other, id) && !s.results[other].isDuplicate
    ensures !s.results[id].isDuplicate
  {
  }

  /** The claim column: first for the safe ranking, second, after the flag, for the billed one. */
  lemma SurvivorClaimed(p: Policy, s: State, m: Id, o: Id)
    requires Survives(p, s, m) && Grouped(s, o, m)
    ensures p == AnchorFirst && Anchored(s, o) ==> Anchored(s, m)
    ensures p == AnchorFirst && (Anchored(s, o) <==> Anchored(s, m)) && !s.results[o].isDuplicate ==> !s.results[m].isDuplicate
    ensures p == BillableFirst && s.results[o].isDuplicate == s.results[m].isDuplicate && Anchored(s, o) ==> Anchored(s, m)
  {
    if o != m {
      KeyColumns(p, s, m);
      KeyColumns(p, s, o);
      LexSecond(Key(p, s, m), Key(p, s, o));
    }
  }

  /** No result of the job is named by two claims: the LEFT JOIN yields one line per row. */
  ghost predicate NoFanOut(s: State, job: Id) {
    forall c, d, id :: Names(s, c, id) && Names(s, d, id) && id in s.results && s.results[id].job == job ==> c == d
  }

  /** Ledger uniqueness alone rules the fan-out out, and allows one claim per group. */
  lemma OneClaimPerGroup(s: State, c: Id, d: Id, a: Id, b: Id)
    requires LedgerOk(s) && Names(s, c, a) && Names(s, d, b) && Grouped(s, a, b)
    ensures c == d && a == b
  {
  }

  lemma OnlyAnchor(s: State, c: Id, was: Id, m: Id)
    requires LedgerOk(s) && Names(s, c, was) && Grouped(s, m, was) && m != was
    ensures !Anchored(s, m)
  {
    forall d | d in s.claims ensures !Names(s, d, m) {
      if Names(s, d, m) { OneClaimPerGroup(s, c, d, was, m); }
    }
  }

  /** Some row of the job that was kept as it was agrees with this one in all nine columns. */
  ghost predicate LeadKept(s: State, t: State, id: Id)
    requires id in s.results
  {
    exists m :: KeptLike(s, t, id, m)
  }

  predicate KeptLike(s: State, t: State, id: Id, m: Id)
    requires id in s.results
  {
    m in t.results && m in s.results && t.results[m] == s.results[m] && t.results[m].job == s.results[id].job
    && SameLead(t.results[m], s.results[id])
  }

  /** No two rows of one of these jobs agree in all nine. */
  ghost predicate LeadsDistinct(t: State, jobs: set<Id>) {
    forall m, n ::
      (m in t.results && n in t.results && t.results[m].job == t.results[n].job && t.results[m].job in jobs
       && SameLead(t.results[m], t.results[n]))
      ==> m == n
  }

  // ---------- what both clean-ups do to the tables ----------

  /** A claim that named a removed row now names a kept row of the same group, billable if
      the removed one was; every other claim is as it was and still resolves. */
  ghost predicate ClaimFollows(s: State, t: State, c: Id) {
    && c in s.claims && c in t.claims
    && t.claims[c] == s.claims[c].(firstResult := t.claims[c].firstResult)
    && (t.claims[c] == s.claims[c] ==>
          s.claims[c].firstResult.Some? && s.claims[c].firstResult.value in s.results
          ==> s.claims[c].firstResult.value in t.results)
    && (t.claims[c] != s.claims[c] ==>
          && s.claims[c].firstResult.Some? && t.claims[c].firstResult.Some?
          && Grouped(s, t.claims[c].firstResult.value, s.claims[c].firstResult.value)
          && t.claims[c].firstResult.value in t.results
          && (!s.results[s.claims[c].firstResult.value].isDuplicate
              ==> !s.results[t.claims[c].firstResult.value].isDuplicate))
  }

  /** Rows were only removed, and every claim follows. */
  ghost predicate Repaired(s: State, t: State) {
    && (forall id :: id in t.results ==> id in s.results && t.results[id] == s.results[id])
    && t.claims.Keys == s.claims.Keys
    && (forall c :: c in s.claims ==> ClaimFollows(s, t, c))
    && t.jobs.Keys == s.jobs.Keys && (forall j :: j in s.jobs ==> t.jobs[j].user == s.jobs[j].user)
  }

  /** A repair keeps every ledger invariant, each on the strength of itself (same user also
      needs rows to belong to their job's user), and claims on duplicates never become more. */
  lemma RepairKeepsLedger(s: State, t: State)
    requires Repaired(s, t)
    ensures ClaimsResolve(s) ==> ClaimsResolve(t)
    ensures SameUser(s) && RowsOwned(s) ==> SameUser(t)
    ensures SameHash(s) ==> SameHash(t)
    ensures ClaimsUnique(s) ==> ClaimsUnique(t)
    ensures RowsOwned(s) ==> RowsOwned(t)
    ensures ClaimsOnDuplicates(t) <= ClaimsOnDuplicates(s)
  {
    assert forall c :: c in t.claims ==> ClaimFollows(s, t, c);
    assert ClaimsUnique(s) ==> ClaimsUnique(t);
    assert RowsOwned(s) ==> RowsOwned(t);
    hide ClaimsUnique, Fingerprint;
    RepairKeepsHash(s, t);
  }

  lemma RepairKeepsHash(s: State, t: State)
    requires Repaired(s, t)
    ensures SameHash(s) ==> SameHash(t)
  {
    if SameHash(s) {
      forall c | c in t.claims && t.claims[c].firstResult.Some? && t.claims[c].firstResult.value in t.results
        ensures t.results[t.claims[c].firstResult.value].scrape.dedupHash == Some(t.claims[c].hash)
      {
        assert ClaimFollows(s, t, c);
      }
    }
  }
}
