/** scripts/backfill_duplicate_provenance.py: name the earlier run behind a duplicate flag,
    where the claim ledger still proves it. */
module Provenance {
  import opened Wrappers
  import opened Seqs
  import opened Ledger
  import opened Store

  /** The join predicate of BACKFILL and PREVIEW, for one row and one claim. */
  predicate Proves(s: State, r: Id, c: Id) {
    && r in s.results && c in s.claims
    && s.results[r].isDuplicate && s.results[r].scrape.dedupHash == Some(s.claims[c].hash)
    && s.results[r].reason.None? && s.results[r].user == s.claims[c].user
    && s.results[r].job in s.jobs && s.claims[c].firstJob.Some? && s.claims[c].firstJob.value in s.jobs
    && var own, source := s.jobs[s.results[r].job], s.jobs[s.claims[c].firstJob.value];
    && source.user == s.results[r].user && source.status == "done"
    && source.createdAt < own.createdAt && s.claims[c].deliveredAt < own.createdAt
    && source.finishedAt.Some? && source.finishedAt.value < own.createdAt
  }

  function Proofs(s: State, r: Id): set<Id> {
    set c | c in s.claims && Proves(s, r, c)
  }

  function Recoverable(s: State): set<Id> {
    set r | r in s.results && Proofs(s, r) != {}
  }

  /** The lines PREVIEW counts: one per row and matching claim. */
  function PreviewLines(s: State): set<(Id, Id)> {
    set r, c | r in s.results && c in s.claims && Proves(s, r, c) :: (r, c)
  }

  function Remaining(s: State): set<Id> {
    set r | r in s.results && s.results[r].isDuplicate && s.results[r].scrape.dedupHash.Some? && s.results[r].reason.None?
  }

  function Stamp(s: State, r: Id, c: Id): Row
    requires r in s.results && c in s.claims
  {
    s.results[r].(reason := Some("prior_run"), sourceJob := s.claims[c].firstJob, sourceAt := Some(s.claims[c].deliveredAt))
  }

  /** UPDATE ... FROM: each joined row takes its values from one of its matching lines. */
  ghost predicate Stamped(s: State, results: map<Id, Row>) {
    && results.Keys == s.results.Keys
    && forall r :: r in s.results ==>
         if Proofs(s, r) == {} then results[r] == s.results[r]
         else exists c :: c in Proofs(s, r) && results[r] == Stamp(s, r, c)
  }

  lemma ProofExists(s: State, r: Id)
    ensures r in Recoverable(s) ==> r in s.results && Proofs(s, r) != {}
    ensures forall c :: c in Proofs(s, r) ==> c in s.claims
  {
  }

  method Backfill(db: Database, apply: bool) returns (before: nat, preview: nat, stamped: nat, after: nat)
    modifies db
    ensures before == |Remaining(old(db.View()))| && preview == |PreviewLines(old(db.View()))|
    ensures after == |Remaining(db.View())|
    ensures !apply ==> db.View() == old(db.View()) && stamped == 0
    ensures apply ==>
      && Stamped(old(db.View()), db.results) && db.View() == old(db.View()).(results := db.results)
      && stamped == |Recoverable(old(db.View()))|
  {
    hide Proves, Stamp, Remaining, PreviewLines;
    var s := db.View();
    before, preview, stamped := |Remaining(s)|, |PreviewLines(s)|, 0;
    if apply {
      var todo, results := Recoverable(s), s.results;
      stamped := |todo|;
      while todo != {}
        invariant todo <= Recoverable(s) && results.Keys == s.results.Keys && db.View() == s
        invariant forall r :: r in s.results && (r in todo || r !in Recoverable(s)) ==> results[r] == s.results[r]
        invariant forall r :: r in Recoverable(s) && r !in todo ==>
          exists c :: c in Proofs(s, r) && results[r] == Stamp(s, r, c)
        decreases todo
      {
        var r :| r in todo;
        ProofExists(s, r);
        var c :| c in Proofs(s, r);
        results := results[r := Stamp(s, r, c)];
        todo := todo - {r};
      }
      db.results := results;
      assert db.View() == s.(results := results) && s == old(db.View());
    }
    after := |Remaining(db.View())|;
  }

  // ---------- stamps point backwards ----------

  /** Every prior_run stamp whose job still exists names an older job of the same user. */
  ghost predicate StampsPointBack(s: State) {
    forall r :: r in s.results && s.results[r].reason == Some("prior_run") && s.results[r].sourceJob.Some?
                && s.results[r].sourceJob.value in s.jobs && s.results[r].job in s.jobs ==>
      s.jobs[s.results[r].sourceJob.value].user == s.results[r].user
      && s.jobs[s.results[r].sourceJob.value].createdAt < s.jobs[s.results[r].job].createdAt
  }

  lemma BackfillPointsBack(s: State, results: map<Id, Row>)
    requires StampsPointBack(s) && Stamped(s, results)
    ensures StampsPointBack(s.(results := results))
  {
    forall r | r in s.results && Proofs(s, r) != {} ensures exists c :: Proves(s, r, c) && results[r] == Stamp(s, r, c) {
      var c :| c in Proofs(s, r) && results[r] == Stamp(s, r, c);
    }
  }

  /** The claim names an older, finished delivery of the same lead to the same user, and the
      stamped row repeats its job and time. */
  predicate ProvenBy(s: State, r: Id, stamped: Row, c: Id)
    requires r in s.results
  {
    && c in s.claims && s.claims[c].user == s.results[r].user
    && s.results[r].scrape.dedupHash == Some(s.claims[c].hash)
    && stamped.sourceJob == s.claims[c].firstJob && stamped.sourceAt == Some(s.claims[c].deliveredAt)
    && s.claims[c].firstJob.Some? && s.claims[c].firstJob.value in s.jobs && s.results[r].job in s.jobs
    && var source, own := s.jobs[s.claims[c].firstJob.value], s.jobs[s.results[r].job];
    && source.user == s.results[r].user && source.status == "done" && source.createdAt < own.createdAt
    && source.finishedAt.Some? && source.finishedAt.value < own.createdAt && s.claims[c].deliveredAt < own.createdAt
  }

  /** A row changes only if it was an unattributed duplicate and a claim of the same user and
      hash names a job of that user that was done, finished and delivered before the row's own
      job began; then it names that job and that delivery. */
  lemma StampIsProven(s: State, results: map<Id, Row>, r: Id)
    requires Stamped(s, results) && r in s.results && results[r] != s.results[r]
    ensures s.results[r].isDuplicate && s.results[r].reason == None
    ensures results[r] == s.results[r].(reason := Some("prior_run"), sourceJob := results[r].sourceJob, sourceAt := results[r].sourceAt)
    ensures exists c :: ProvenBy(s, r, results[r], c)
  {
    var c :| c in Proofs(s, r) && results[r] == Stamp(s, r, c);
    assert Proves(s, r, c) && ProvenBy(s, r, results[r], c);
  }

  /** And every row that can be proven is stamped: a row changes exactly if it is a duplicate with no
      reason yet and some claim proves an older delivery. */
  lemma StampedIff(s: State, results: map<Id, Row>, r: Id)
    requires Stamped(s, results) && r in s.results
    ensures results[r] != s.results[r] <==>
      s.results[r].isDuplicate && s.results[r].reason == None && exists c :: OlderDelivery(s, r, c)
  {
    forall c ensures c in Proofs(s, r) <==> s.results[r].isDuplicate && s.results[r].reason == None && OlderDelivery(s, r, c) {}
    if results[r] != s.results[r] {
      var c :| c in Proofs(s, r) && results[r] == Stamp(s, r, c);
      assert OlderDelivery(s, r, c);
    }
    if Proofs(s, r) != {} {
      var c :| c in Proofs(s, r) && results[r] == Stamp(s, r, c);
    }
  }

  /** A claim of the row's user and lead whose job, the same user's, was done, and was created,
      finished and delivered before the row's job began. */
  predicate OlderDelivery(s: State, r: Id, c: Id)
    requires r in s.results
  {
    && c in s.claims && s.claims[c].user == s.results[r].user && s.results[r].scrape.dedupHash == Some(s.claims[c].hash)
    && s.claims[c].firstJob.Some? && s.claims[c].firstJob.value in s.jobs && s.results[r].job in s.jobs
    && var source, own := s.jobs[s.claims[c].firstJob.value], s.jobs[s.results[r].job];
    && source.user == s.results[r].user && source.status == "done" && source.createdAt < own.createdAt
    && source.finishedAt.Some? && source.finishedAt.value < own.createdAt && s.claims[c].deliveredAt < own.createdAt
  }

  /** What the run counts: the rows still to be explained, and the lines of its join. */
  lemma CountedRows(s: State, r: Id, c: Id)
    ensures r in Remaining(s) <==>
      r in s.results && s.results[r].isDuplicate && s.results[r].scrape.dedupHash != None && s.results[r].reason == None
    ensures (r, c) in PreviewLines(s) <==>
      r in s.results && s.results[r].isDuplicate && s.results[r].reason == None && OlderDelivery(s, r, c)
  {
  }

  /** Some row of job j was attributed to job k. */
  ghost predicate Attributed(s: State, j: Id, k: Id) {
    && j in s.jobs && k in s.jobs
    && exists r :: r in s.results && s.results[r].job == j && s.results[r].reason == Some("prior_run")
                   && s.results[r].sourceJob == Some(k)
  }

  ghost predicate Chain(s: State, p: seq<Id>) {
    (forall i :: 0 <= i < |p| - 1 ==> Attributed(s, p[i], p[i + 1])) && forall i :: 0 <= i < |p| ==> p[i] in s.jobs
  }

  lemma {:induction false} ChainDescends(s: State, p: seq<Id>, i: nat, k: nat)
    requires StampsPointBack(s) && Chain(s, p) && i < k < |p|
    ensures s.jobs[p[k]].createdAt < s.jobs[p[i]].createdAt
    decreases k - i
  {
    assert Attributed(s, p[k - 1], p[k]);
    if i < k - 1 {
      ChainDescends(s, p, i, k - 1);
    }
  }

  /** Attribution never loops, and no chain is longer than there are jobs. */
  lemma ChainsAreFinite(s: State, p: seq<Id>)
    requires StampsPointBack(s) && Chain(s, p)
    ensures NoDup(p) && |p| <= |s.jobs|
  {
    forall i, k | 0 <= i < k < |p| ensures p[i] != p[k] {
      ChainDescends(s, p, i, k);
    }
    ElemsSize(p);
    SubsetSize(Elems(p), s.jobs.Keys);
  }

  // ---------- the counts agree ----------

  lemma StampedLeavesRemaining(s: State, results: map<Id, Row>)
    requires Stamped(s, results)
    ensures Remaining(s.(results := results)) == Remaining(s) - Recoverable(s)
    ensures Recoverable(s) <= Remaining(s)
    ensures Recoverable(s.(results := results)) == {}
  {
    var t := s.(results := results);
    forall r | r in s.results
      ensures r in Recoverable(s) ==> r in Remaining(s) && t.results[r].reason.Some?
      ensures r !in Recoverable(s) ==> t.results[r] == s.results[r] && Proofs(t, r) == Proofs(s, r)
      ensures r in Recoverable(s) ==> Proofs(t, r) == {}
    {
      if r in Recoverable(s) {
        var c :| c in Proofs(s, r) && results[r] == Stamp(s, r, c);
      }
    }
  }

  /** The run ends with before - preview rows left exactly when no row had two matching claims. */
  lemma PreviewIsExactIff(s: State, results: map<Id, Row>)
    requires Stamped(s, results)
    ensures |Remaining(s.(results := results))| == |Remaining(s)| - |PreviewLines(s)|
            <==> forall r, c, d :: Proves(s, r, c) && Proves(s, r, d) ==> c == d
  {
    StampedLeavesRemaining(s, results);
    SubsetSize(Recoverable(s), Remaining(s));
    LinesPerRow(s);
  }

  lemma LinesPerRow(s: State)
    ensures |Recoverable(s)| == |PreviewLines(s)| <==> forall r, c, d :: Proves(s, r, c) && Proves(s, r, d) ==> c == d
  {
    var first := (line: (Id, Id)) => line.0;
    var lines := PreviewLines(s);
    forall r: Id ensures r in Image(lines, first) <==> r in Recoverable(s) {
      if c: Id :| c in Proofs(s, r) && r in s.results {
        assert (r, c) in lines && first((r, c)) == r;
      }
      if r in Image(lines, first) {
        var line :| line in lines && first(line) == r;
        assert line.1 in Proofs(s, r);
      }
    }
    assert Image(lines, first) == Recoverable(s);
    ImageSizeIff(lines, first);
    LinesClash(s);
  }

  lemma LinesClash(s: State)
    ensures (forall x, y :: x in PreviewLines(s) && y in PreviewLines(s) && x.0 == y.0 ==> x == y)
            <==> forall r, c, d :: Proves(s, r, c) && Proves(s, r, d) ==> c == d
  {
    forall r: Id, c: Id ensures Proves(s, r, c) <==> (r, c) in PreviewLines(s) {}
    if forall x, y :: x in PreviewLines(s) && y in PreviewLines(s) && x.0 == y.0 ==> x == y {
      forall r: Id, c: Id, d: Id | Proves(s, r, c) && Proves(s, r, d) ensures c == d {
        assert (r, c) in PreviewLines(s) && (r, d) in PreviewLines(s);
      }
    }
  }

  /** Claim uniqueness gives one proof per row, so the preview tells the truth. */
  lemma UniqueClaimsPreviewExactly(s: State, results: map<Id, Row>)
    requires Stamped(s, results) && ClaimsUnique(s)
    ensures |Remaining(s.(results := results))| == |Remaining(s)| - |PreviewLines(s)|
    ensures |Recoverable(s)| == |PreviewLines(s)|
  {
    PreviewIsExactIff(s, results);
    LinesPerRow(s);
  }

  /** A second run stamps nothing. */
  lemma SecondRunStampsNothing(s: State, results: map<Id, Row>, again: map<Id, Row>)
    requires Stamped(s, results) && Stamped(s.(results := results), again)
    ensures again == results
  {
    StampedLeavesRemaining(s, results);
  }
}
