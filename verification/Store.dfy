/** The database the scripts share: one object whose tables the transactions update. */
module Store {
  import opened Wrappers
  import opened Ledger

  class Database {
    var results: map<Id, Row>
    var claims: map<Id, Claim>
    var jobs: map<Id, Job>
    var users: map<Id, User>
    var otherRefs: set<Id>
    var archive: set<(Id, Row)>

    function View(): State
      reads this
    {
      State(results, claims, jobs, users, otherRefs, archive)
    }
  }

  /** delivered_records.first_result_id is ON DELETE SET NULL. */
  function SetNull(claims: map<Id, Claim>, deleted: set<Id>): map<Id, Claim> {
    map c | c in claims ::
      if claims[c].firstResult.Some? && claims[c].firstResult.value in deleted
      then claims[c].(firstResult := None) else claims[c]
  }
}
