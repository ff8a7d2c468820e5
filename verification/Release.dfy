/** scripts/release_stranded_dedup_claims.py: give back the claims of a job that never
    delivered, unless one of them protects a lead some finished job did deliver. */
module Release {
  import opened Wrappers
  import opened Ledger
  import opened Store

  function JobClaims(s: State, job: Id): set<Id>
    requires job in s.jobs
  {
    set c | c in s.claims && s.claims[c].firstJob == Some(job) && s.claims[c].user == s.jobs[job].user
  }

  /** Hashes the job holds that a delivered row of another, finished job also carries. */
  function Overlap(s: State, job: Id): set<string>
    requires job in s.jobs
  {
    set c, r | c in JobClaims(s, job) && r in s.results
               && s.results[r].scrape.dedupHash == Some(s.claims[c].hash) && s.results[r].user == s.claims[c].user
               && s.results[r].job != job && !s.results[r].isDuplicate
               && s.results[r].job in s.jobs && s.jobs[s.results[r].job].status == "done"
             :: s.claims[c].hash
  }

  function ClaimsFor(s: State, user: Id, hash: string): set<Id> {
    set c | c in s.claims && s.claims[c].user == user && s.claims[c].hash == hash
  }

  /** A claim stands behind the row. */
  predicate Backed(s: State, r: Id)
    requires r in s.results
  {
    s.results[r].scrape.dedupHash.Some? && ClaimsFor(s, s.results[r].user, s.results[r].scrape.dedupHash.value) != {}
  }

  /** Rows that say "already delivered" with no claim behind them. */
  function Orphaned(s: State, user: Id): set<Id> {
    set r | r in s.results && s.results[r].user == user && s.results[r].isDuplicate
            && s.results[r].scrape.dedupHash.Some? && !Backed(s, r)
  }

  datatype ReleaseEnd =
    | NotFound | NotTerminal | WrongCount(found: nat) | NothingToRelease | Protected(overlap: nat) | DryRun
    | Released(deleted: nat, orphaned: nat)

  predicate CanRelease(s: State, job: Id, wanted: Option<nat>) {
    && job in s.jobs && s.jobs[job].status in {"failed", "cancelled"}
    && JobClaims(s, job) != {} && (wanted.Some? ==> wanted.value == |JobClaims(s, job)|)
    && Overlap(s, job) == {}
  }

  function AfterRelease(s: State, job: Id): State
    requires job in s.jobs
  {
    s.(claims := s.claims - JobClaims(s, job))
  }

  method ReleaseClaims(db: Database, job: Id, wanted: Option<nat>, apply: bool) returns (end: ReleaseEnd)
    modifies db
    ensures end.Released? <==> CanRelease(old(db.View()), job, wanted) && apply
    ensures !end.Released? ==> db.View() == old(db.View())
    ensures end.Released? ==>
      && db.View() == AfterRelease(old(db.View()), job)
      && end.deleted == |JobClaims(old(db.View()), job)|
      && end.orphaned == |Orphaned(db.View(), db.jobs[job].user)|
    ensures end == NotFound <==> job !in old(db.jobs)
    ensures end == NotTerminal <==>
      job in old(db.jobs) && old(db.jobs)[job].status != "failed" && old(db.jobs)[job].status != "cancelled"
    ensures end.WrongCount? || end == NothingToRelease || end.Protected? ==> job in old(db.jobs)
    ensures end.WrongCount? ==> end.found == |JobClaims(old(db.View()), job)| && wanted.Some? && end.found != wanted.value
    ensures end == NothingToRelease ==> JobClaims(old(db.View()), job) == {}
    ensures end.Protected? ==> end.overlap == |Overlap(old(db.View()), job)| > 0
    ensures end == DryRun ==> CanRelease(old(db.View()), job, wanted) && !apply
  {
    if job !in db.jobs {
      return NotFound;
    }
    if db.jobs[job].status !in {"failed", "cancelled"} {
      return NotTerminal;
    }
    var rows := JobClaims(db.View(), job);
    if wanted.Some? && |rows| != wanted.value {
      return WrongCount(|rows|);
    }
    if rows == {} {
      return NothingToRelease;
    }
    var overlap := Overlap(db.View(), job);
    if overlap != {} {
      return Protected(|overlap|);
    }
    if !apply {
      return DryRun;
    }
    db.claims := db.claims - rows;
    end := Released(|rows|, |Orphaned(db.View(), db.jobs[job].user)|);
  }

  /** The whole condition, column by column: the job failed or was cancelled, it holds claims, as
      many as expected, and none of their leads was delivered by another job that is done. */
  lemma ReleasableIff(s: State, job: Id, wanted: Option<nat>)
    ensures CanRelease(s, job, wanted) <==>
      && job in s.jobs && (s.jobs[job].status == "failed" || s.jobs[job].status == "cancelled")
      && (exists c :: Holds(s, job, c))
      && (wanted.Some? ==> wanted.value == |set c | c in s.claims && Holds(s, job, c)|)
      && forall c, r :: Holds(s, job, c) ==> !DeliveredElsewhere(s, job, c, r)
  {
    if job in s.jobs {
      assert JobClaims(s, job) == set c | c in s.claims && Holds(s, job, c);
      if exists c, r :: Holds(s, job, c) && DeliveredElsewhere(s, job, c, r) {
        var c, r :| Holds(s, job, c) && DeliveredElsewhere(s, job, c, r);
        assert s.claims[c].hash in Overlap(s, job);
      }
      if h :| h in Overlap(s, job) {
        var c, r :| c in JobClaims(s, job) && s.claims[c].hash == h && r in s.results && DeliveredElsewhere(s, job, c, r);
        assert Holds(s, job, c);
      }
      if c :| Holds(s, job, c) { assert c in JobClaims(s, job); }
      if c :| c in JobClaims(s, job) { assert Holds(s, job, c); }
    }
  }

  /** A claim of the job's own user that it was the first to deliver. */
  predicate Holds(s: State, job: Id, c: Id) {
    job in s.jobs && c in s.claims && s.claims[c].firstJob == Some(job) && s.claims[c].user == s.jobs[job].user
  }

  /** A row of another job that is done, not a duplicate, for the same user and lead. */
  predicate DeliveredElsewhere(s: State, job: Id, c: Id, r: Id) {
    && c in s.claims && r in s.results && s.results[r].user == s.claims[c].user
    && s.results[r].scrape.dedupHash == Some(s.claims[c].hash) && !s.results[r].isDuplicate
    && s.results[r].job != job && s.results[r].job in s.jobs && s.jobs[s.results[r].job].status == "done"
  }

  lemma HeldMeansOverlap(s: State, job: Id, r: Id, c: Id)
    requires job in s.jobs && r in s.results && s.results[r].job != job && !s.results[r].isDuplicate
    requires s.results[r].job in s.jobs && s.jobs[s.results[r].job].status == "done"
    requires c in s.claims && s.claims[c].user == s.results[r].user && s.results[r].scrape.dedupHash == Some(s.claims[c].hash)
    ensures c in JobClaims(s, job) ==> Overlap(s, job) != {}
  {
    if c in JobClaims(s, job) {
      assert s.claims[c].hash in Overlap(s, job);
    }
  }

  /** A delivered row of a finished job that had a claim still has one. */
  lemma DeliveredStaysBacked(s: State, job: Id, wanted: Option<nat>, r: Id)
    requires CanRelease(s, job, wanted)
    requires r in s.results && !s.results[r].isDuplicate && s.results[r].job in s.jobs
    requires s.jobs[s.results[r].job].status == "done" && Backed(s, r)
    ensures Backed(AfterRelease(s, job), r)
  {
    var c :| c in ClaimsFor(s, s.results[r].user, s.results[r].scrape.dedupHash.value);
    HeldMeansOverlap(s, job, r, c);
    assert c in ClaimsFor(AfterRelease(s, job), s.results[r].user, s.results[r].scrape.dedupHash.value);
  }

  /** The newly orphaned flags: exactly the user's duplicate rows whose hash was released. */
  lemma NewOrphans(s: State, job: Id, wanted: Option<nat>)
    requires CanRelease(s, job, wanted) && ClaimsUnique(s)
    ensures var t, user := AfterRelease(s, job), s.jobs[job].user;
      Orphaned(t, user) - Orphaned(s, user)
      == set r, c | r in s.results && s.results[r].user == user && s.results[r].isDuplicate
                    && c in JobClaims(s, job) && s.results[r].scrape.dedupHash == Some(s.claims[c].hash) :: r
  {
    var t, user := AfterRelease(s, job), s.jobs[job].user;
    forall r | r in s.results && s.results[r].user == user && s.results[r].isDuplicate && s.results[r].scrape.dedupHash.Some?
      ensures (r in Orphaned(t, user) && r !in Orphaned(s, user))
              <==> exists c :: c in JobClaims(s, job) && s.results[r].scrape.dedupHash == Some(s.claims[c].hash)
    {
      var hash := s.results[r].scrape.dedupHash.value;
      assert ClaimsFor(t, user, hash) == ClaimsFor(s, user, hash) - JobClaims(s, job);
      if c :| c in JobClaims(s, job) && hash == s.claims[c].hash {
        assert c in ClaimsFor(s, user, hash);
        assert forall d :: d in ClaimsFor(s, user, hash) ==> d == c;
      }
    }
  }

  /** No other user's flags change. */
  lemma OtherUsersUntouched(s: State, job: Id, wanted: Option<nat>, other: Id)
    requires CanRelease(s, job, wanted) && other != s.jobs[job].user
    ensures Orphaned(AfterRelease(s, job), other) == Orphaned(s, other)
  {
    var t := AfterRelease(s, job);
    forall hash: string ensures ClaimsFor(t, other, hash) == ClaimsFor(s, other, hash) {}
  }
}
