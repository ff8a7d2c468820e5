/** scripts/backfill_assumed_mailing.py: rules S, K and P over leads whose mailing address is
    a copy of the property; rule K works through an ordered, limited head with retries. */
module AssumedMailing {
  import opened Wrappers

  datatype Rule = S | K | P

  datatype Status =
    | Untried | RetryLater
    | Resolved | ConfirmedSame | ClearedNoSource | NotFound | FailedTerminal

  /** rule: the county and types the row belongs to. status, attempts, source and error live in
      enrichment_data. looks is not stored anywhere: it counts the applied runs that planned
      the row, so that the retry bound can be stated. */
  datatype Row = Row(
    id: nat, rule: Option<Rule>, parcel: string, property: string, mailing: Option<string>,
    status: Status, attempts: nat, source: Option<string>, error: Option<string>, looks: nat)

  datatype Answer = Found | NoBlock | Error | NotAttempted | IdentityUnverified | Missing
  datatype Lookup = Lookup(answer: Answer, mailing: Option<string>)
  type Look = string -> Option<Lookup>

  /** signature: both addresses are filled in and the mailing begins with the property.
      norm: _norm_mailing. */
  datatype Env = Env(signature: (string, string) -> bool, norm: string -> string)

  // ---------- decide ----------

  datatype Action = Write | Confirm | Skip
  datatype Decision = Decision(action: Action, mailing: Option<string>, source: string, status: Status)

  function AnswerName(l: Option<Lookup>): string {
    match l
    case None => "missing"
    case Some(k) =>
      match k.answer
      case Found => "found" case NoBlock => "none" case Error => "error"
      case NotAttempted => "not_attempted" case IdentityUnverified => "identity_unverified" case Missing => "missing"
  }

  predicate HasMailing(l: Option<Lookup>) {
    l.Some? && l.value.mailing.Some? && l.value.mailing.value != ""
  }

  function Decide(env: Env, rule: Rule, was: string, l: Option<Lookup>): Decision {
    match rule
    case S => Decision(Write, None, "none_no_source", ClearedNoSource)
    case K =>
      if l.Some? && l.value.answer == Found && HasMailing(l) then
        Decision(Write, l.value.mailing, "king_assessor_tax_bill",
                 if env.norm(l.value.mailing.value) == env.norm(was) then ConfirmedSame else Resolved)
      else if l.Some? && l.value.answer == NoBlock then
        Decision(Write, None, "none_king_assessor_no_mailing_block", ClearedNoSource)
      else Decision(Skip, None, "king_lookup_" + AnswerName(l), RetryLater)
    case P =>
      if !HasMailing(l) then Decision(Skip, None, "pierce_parcel_not_in_county_layer", NotFound)
      else if env.norm(l.value.mailing.value) == env.norm(was) then
        Decision(Confirm, Some(was), "pierce_county_gis", ConfirmedSame)
      else Decision(Write, l.value.mailing, "pierce_county_gis", Resolved)
  }

  // ---------- the candidate query ----------

  predicate Terminal(s: Status) { s != Untried && s != RetryLater }

  predicate Candidate(env: Env, rule: Rule, r: Row) {
    r.rule == Some(rule) && r.mailing.Some? && env.signature(r.property, r.mailing.value) && !Terminal(r.status)
  }

  /** The positions that hold, in table order; the table lists rows by created_at, id. */
  function Where(flags: seq<bool>): seq<nat> {
    if flags == [] then []
    else Where(flags[..|flags| - 1]) + if flags[|flags| - 1] then [|flags| - 1] else []
  }

  lemma {:induction false} InWhere(flags: seq<bool>, i: nat)
    ensures i in Where(flags) <==> i < |flags| && flags[i]
  {
    if flags != [] {
      InWhere(flags[..|flags| - 1], i);
    }
  }

  lemma {:induction false} FewerHold(a: seq<bool>, b: seq<bool>)
    requires |a| == |b| && forall i :: 0 <= i < |a| && b[i] ==> a[i]
    ensures |Where(b)| <= |Where(a)|
    ensures |Where(b)| == |Where(a)| ==> a == b
  {
    if a != [] {
      var n := |a| - 1;
      FewerHold(a[..n], b[..n]);
      assert a == a[..n] + [a[n]] && b == b[..n] + [b[n]];
    }
  }

  function Flags(env: Env, rule: Rule, rows: seq<Row>, s: Status): seq<bool> {
    seq(|rows|, i requires 0 <= i < |rows| => Candidate(env, rule, rows[i]) && rows[i].status == s)
  }

  /** ORDER BY (status = 'retry_later'), created_at, id. */
  function Candidates(env: Env, rule: Rule, rows: seq<Row>): seq<nat> {
    Where(Flags(env, rule, rows, Untried)) + Where(Flags(env, rule, rows, RetryLater))
  }

  lemma InCandidates(env: Env, rule: Rule, rows: seq<Row>, i: nat)
    ensures i in Candidates(env, rule, rows) <==> i < |rows| && Candidate(env, rule, rows[i])
  {
    InWhere(Flags(env, rule, rows, Untried), i);
    InWhere(Flags(env, rule, rows, RetryLater), i);
  }

  /** rows[:limit], with Python's meaning of a negative bound. */
  function Slice(s: seq<nat>, limit: int): seq<nat> {
    if limit >= |s| then s else if limit >= 0 then s[..limit] else if |s| + limit >= 0 then s[..|s| + limit] else []
  }

  function Head(env: Env, rule: Rule, rows: seq<Row>, limit: int): seq<nat> {
    if rule == K then Slice(Candidates(env, rule, rows), limit) else Candidates(env, rule, rows)
  }

  lemma HeadIs(env: Env, rule: Rule, rows: seq<Row>, limit: int)
    ensures var h, c := Head(env, rule, rows, limit), Candidates(env, rule, rows);
      && h <= c && (rule != K ==> h == c) && (limit >= 1 && c != [] ==> h != [])
      && forall k :: 0 <= k < |h| ==> h[k] < |rows| && Candidate(env, rule, rows[h[k]])
  {
    var h := Head(env, rule, rows, limit);
    forall k | 0 <= k < |h| ensures h[k] < |rows| && Candidate(env, rule, rows[h[k]]) {
      assert h[k] in Candidates(env, rule, rows);
      InCandidates(env, rule, rows, h[k]);
    }
  }

  // ---------- what one applied run does ----------

  function GiveUp(status: Status, attempts: nat, max: int): Status {
    if status == RetryLater && attempts >= max then FailedTerminal else status
  }

  /** The row after its UPDATE or its stamp: guarded on both addresses, which nothing else
      changes on a quiescent table. */
  function Stamped(r: Row, d: Decision, status: Status, attempts: nat): Row {
    r.(mailing := if d.action == Write then d.mailing else r.mailing,
       status := status, attempts := attempts,
       source := if status in {Resolved, ConfirmedSame, ClearedNoSource} then Some(d.source) else None,
       error := if status == RetryLater then Some(d.source) else None,
       looks := r.looks + 1)
  }

  function Planned(env: Env, look: Look, rule: Rule, max: int, r: Row, attempts: nat): Row
    requires r.mailing.Some?
  {
    var d := Decide(env, rule, r.mailing.value, look(r.parcel));
    Stamped(r, d, GiveUp(d.status, r.attempts + 1, max), attempts)
  }

  /** The attempts every row of the head is stamped with: the script keeps the value of the
      last planned row. With carry each row keeps its own, as the retry bound intends. */
  function Stamp(rows: seq<Row>, h: seq<nat>, i: nat, carry: bool): nat
    requires h != [] && h[|h| - 1] < |rows| && i < |rows|
  {
    if carry then rows[i].attempts + 1 else rows[h[|h| - 1]].attempts + 1
  }

  function After(env: Env, rule: Rule, rows: seq<Row>, look: Look, limit: int, max: int, carry: bool): (t: seq<Row>)
    ensures |t| == |rows|
  {
    HeadIs(env, rule, rows, limit);
    var h := Head(env, rule, rows, limit);
    seq(|rows|, i requires 0 <= i < |rows| =>
      if i in h && rows[i].mailing.Some? then Planned(env, look, rule, max, rows[i], Stamp(rows, h, i, carry)) else rows[i])
  }

  // ---------- convergence ----------

  lemma PlannedStatus(env: Env, look: Look, rule: Rule, max: int, r: Row, attempts: nat)
    requires Candidate(env, rule, r)
    ensures var t := Planned(env, look, rule, max, r, attempts);
      && t.status != Untried && t.looks == r.looks + 1 && t.attempts == attempts
      && (t.status == RetryLater ==> rule == K && r.attempts + 1 < max && Candidate(env, rule, t) && t.mailing == r.mailing)
      && (Candidate(env, rule, t) ==> t.status == RetryLater)
  {
  }

  /** Rules S and P settle every candidate in one run. */
  lemma OneRunClears(env: Env, rule: Rule, rows: seq<Row>, look: Look, limit: int, max: int, carry: bool)
    requires rule != K
    ensures Candidates(env, rule, After(env, rule, rows, look, limit, max, carry)) == []
  {
    var t := After(env, rule, rows, look, limit, max, carry);
    var c := Candidates(env, rule, t);
    HeadIs(env, rule, rows, limit);
    if c != [] {
      var i := c[0];
      InCandidates(env, rule, t, i);
      InCandidates(env, rule, rows, i);
      var h := Head(env, rule, rows, limit);
      if i in h {
        PlannedStatus(env, look, rule, max, rows[i], Stamp(rows, h, i, carry));
      }
    }
  }

  /** What is left to do: candidates, untried candidates, and how many more attempts the last
      row of the head has. */
  ghost function Measure(env: Env, rows: seq<Row>, limit: int, max: int): (nat, nat, nat) {
    HeadIs(env, K, rows, limit);
    var h := Head(env, K, rows, limit);
    (|Candidates(env, K, rows)|, |Where(Flags(env, K, rows, Untried))|,
     if h == [] || rows[h[|h| - 1]].attempts >= max then 0 else max - rows[h[|h| - 1]].attempts)
  }

  predicate Below(a: (nat, nat, nat), b: (nat, nat, nat)) {
    a.0 < b.0 || (a.0 == b.0 && (a.1 < b.1 || (a.1 == b.1 && a.2 < b.2)))
  }

  function Open(env: Env, rule: Rule, rows: seq<Row>): seq<bool> {
    seq(|rows|, i requires 0 <= i < |rows| => Candidate(env, rule, rows[i]))
  }

  lemma {:induction false} TwoKinds(u: seq<bool>, r: seq<bool>, both: seq<bool>)
    requires |u| == |r| == |both|
    requires forall i :: 0 <= i < |u| ==> !(u[i] && r[i]) && both[i] == (u[i] || r[i])
    ensures |Where(u)| + |Where(r)| == |Where(both)|
  {
    if u != [] {
      var n := |u| - 1;
      TwoKinds(u[..n], r[..n], both[..n]);
    }
  }

  lemma CandidateCount(env: Env, rule: Rule, rows: seq<Row>)
    ensures |Candidates(env, rule, rows)| == |Where(Open(env, rule, rows))|
  {
    TwoKinds(Flags(env, rule, rows, Untried), Flags(env, rule, rows, RetryLater), Open(env, rule, rows));
  }

  lemma AfterAt(env: Env, rule: Rule, rows: seq<Row>, look: Look, limit: int, max: int, carry: bool, i: nat)
    requires i < |rows|
    ensures var h := Head(env, rule, rows, limit);
      var t := After(env, rule, rows, look, limit, max, carry);
      if i in h then
        && Candidate(env, rule, rows[i]) && h != [] && h[|h| - 1] < |rows|
        && t[i] == Planned(env, look, rule, max, rows[i], Stamp(rows, h, i, carry))
      else t[i] == rows[i]
  {
    HeadIs(env, rule, rows, limit);
  }

  /** No row becomes a candidate, and none becomes untried. */
  lemma NothingReopens(env: Env, rows: seq<Row>, look: Look, limit: int, max: int, carry: bool)
    ensures var t := After(env, K, rows, look, limit, max, carry);
      && (forall i :: 0 <= i < |rows| && Open(env, K, t)[i] ==> Open(env, K, rows)[i])
      && (forall i :: 0 <= i < |rows| && Flags(env, K, t, Untried)[i] ==> Flags(env, K, rows, Untried)[i])
  {
    var t := After(env, K, rows, look, limit, max, carry);
    forall i | 0 <= i < |rows|
      ensures Open(env, K, t)[i] ==> Open(env, K, rows)[i]
      ensures Flags(env, K, t, Untried)[i] ==> Flags(env, K, rows, Untried)[i]
    {
      AfterAt(env, K, rows, look, limit, max, carry, i);
      var h := Head(env, K, rows, limit);
      if i in h { PlannedStatus(env, look, K, max, rows[i], Stamp(rows, h, i, carry)); }
    }
  }

  /** If neither count moved then nothing untried was in the head, the order is the same, and
      the last row of the head used up one attempt. */
  lemma LastRowMoves(env: Env, rows: seq<Row>, look: Look, limit: int, max: int, carry: bool)
    requires limit >= 1 && Candidates(env, K, rows) != []
    requires var t := After(env, K, rows, look, limit, max, carry);
      Open(env, K, t) == Open(env, K, rows) && Flags(env, K, t, Untried) == Flags(env, K, rows, Untried)
    ensures var t := After(env, K, rows, look, limit, max, carry);
      var h := Head(env, K, rows, limit);
      && h != [] && h[|h| - 1] < |rows| && Head(env, K, t, limit) == h
      && t[h[|h| - 1]].attempts == rows[h[|h| - 1]].attempts + 1 < max
  {
    hide *;
    var t := After(env, K, rows, look, limit, max, carry);
    HeadIs(env, K, rows, limit);
    var h := Head(env, K, rows, limit);
    assert h != [];
    var i := h[|h| - 1];
    AfterAt(env, K, rows, look, limit, max, carry, i);
    assert i in h;
    PlannedStatus(env, look, K, max, rows[i], Stamp(rows, h, i, carry));
    StampOfLast(rows, h, carry);
    OpenAt(env, rows, t, i);
    SameHead(env, rows, t, limit);
  }

  lemma StampOfLast(rows: seq<Row>, h: seq<nat>, carry: bool)
    requires h != [] && h[|h| - 1] < |rows|
    ensures Stamp(rows, h, h[|h| - 1], carry) == rows[h[|h| - 1]].attempts + 1
  {
  }

  lemma OpenAt(env: Env, rows: seq<Row>, t: seq<Row>, i: nat)
    requires |t| == |rows| && i < |rows| && Open(env, K, t) == Open(env, K, rows)
    ensures Candidate(env, K, t[i]) <==> Candidate(env, K, rows[i])
  {
    hide Candidate;
    assert Open(env, K, t)[i] == Open(env, K, rows)[i];
  }

  lemma SameHead(env: Env, rows: seq<Row>, t: seq<Row>, limit: int)
    requires |t| == |rows| && Open(env, K, t) == Open(env, K, rows) && Flags(env, K, t, Untried) == Flags(env, K, rows, Untried)
    ensures Head(env, K, t, limit) == Head(env, K, rows, limit)
  {
    forall j | 0 <= j < |rows| ensures Flags(env, K, t, RetryLater)[j] == Flags(env, K, rows, RetryLater)[j] {
      assert Open(env, K, t)[j] == Open(env, K, rows)[j];
      assert Flags(env, K, t, Untried)[j] == Flags(env, K, rows, Untried)[j];
    }
    assert Flags(env, K, t, RetryLater) == Flags(env, K, rows, RetryLater);
  }

  /** Convergence as written: on a quiescent table a rule K run that stamps its head strictly
      lowers the measure, whatever the source answered and even though a row that turns out to
      be owner-occupied still carries the situs-copy signature. */
  lemma Progress(env: Env, rows: seq<Row>, look: Look, limit: int, max: int, carry: bool)
    requires limit >= 1 && Candidates(env, K, rows) != []
    ensures Below(Measure(env, After(env, K, rows, look, limit, max, carry), limit, max), Measure(env, rows, limit, max))
  {
    hide *;
    var t := After(env, K, rows, look, limit, max, carry);
    NothingReopens(env, rows, look, limit, max, carry);
    CandidateCount(env, K, rows);
    CandidateCount(env, K, t);
    SizesAre(env, rows);
    SizesAre(env, t);
    FewerHold(Open(env, K, rows), Open(env, K, t));
    FewerHold(Flags(env, K, rows, Untried), Flags(env, K, t, Untried));
    MeasureIs(env, rows, limit, max);
    MeasureIs(env, t, limit, max);
    if Open(env, K, t) == Open(env, K, rows) && Flags(env, K, t, Untried) == Flags(env, K, rows, Untried) {
      LastRowMoves(env, rows, look, limit, max, carry);
    }
    BelowIf(Measure(env, t, limit, max), Measure(env, rows, limit, max));
  }

  lemma SizesAre(env: Env, rows: seq<Row>)
    ensures |Open(env, K, rows)| == |Flags(env, K, rows, Untried)| == |rows|
  {
  }

  lemma MeasureIs(env: Env, rows: seq<Row>, limit: int, max: int)
    ensures var m, h := Measure(env, rows, limit, max), Head(env, K, rows, limit);
      && m.0 == |Candidates(env, K, rows)| && m.1 == |Where(Flags(env, K, rows, Untried))|
      && (h != [] && h[|h| - 1] < |rows| ==>
            m.2 == if rows[h[|h| - 1]].attempts >= max then 0 else max - rows[h[|h| - 1]].attempts)
  {
  }

  lemma BelowIf(a: (nat, nat, nat), b: (nat, nat, nat))
    requires a.0 <= b.0 && a.1 <= b.1 && (a.0 == b.0 && a.1 == b.1 ==> a.2 < b.2)
    ensures Below(a, b)
  {
  }

  // ---------- the script ----------

  datatype Plan = Plan(row: Row, decision: Decision, status: Status)
  datatype Outcome = Idle | Unavailable | SourceDown | Applied

  /** _UPDATE and _STAMP: id, mailing_address and property_address must all still match. */
  function Guarded(rows: seq<Row>, p: Plan, attempts: nat): (t: seq<Row>)
    ensures |t| == |rows|
  {
    seq(|rows|, i requires 0 <= i < |rows| =>
      if rows[i].id == p.row.id && rows[i].mailing.Some? && rows[i].mailing == p.row.mailing
         && rows[i].property == p.row.property
      then Stamped(rows[i], p.decision, p.status, attempts) else rows[i])
  }

  ghost predicate IdsUnique(rows: seq<Row>) {
    forall i, j :: 0 <= i < j < |rows| ==> rows[i].id != rows[j].id
  }

  /** The health gate of rule K: every parcel of the head failed at the transport level. */
  predicate AllFailed(rows: seq<Row>, h: seq<nat>, look: Look)
    requires forall k :: 0 <= k < |h| ==> h[k] < |rows|
  {
    forall k :: 0 <= k < |h| ==>
      var l := look(rows[h[k]].parcel); l == None || l.value.answer in {Error, Missing}
  }

  datatype Run = Run(look: Look, limit: int)

  predicate StopsOnFailure(env: Env, rows: seq<Row>, run: Run) {
    HeadIs(env, K, rows, run.limit);
    AllFailed(rows, Head(env, K, rows, run.limit), run.look)
  }

  lemma GuardedAt(env: Env, rows: seq<Row>, now: seq<Row>, p: Plan, attempts: nat, i: nat)
    requires IdsUnique(rows) && |now| == |rows| && i < |rows| && p.row == rows[i] && rows[i].mailing.Some?
    requires now[i] == rows[i] && forall j :: 0 <= j < |rows| ==> now[j].id == rows[j].id
    ensures Guarded(now, p, attempts) == now[i := Stamped(rows[i], p.decision, p.status, attempts)]
  {
  }

  function PlanOf(env: Env, look: Look, rule: Rule, max: int, r: Row): Plan
    requires r.mailing.Some?
  {
    var d := Decide(env, rule, r.mailing.value, look(r.parcel));
    Plan(r, d, GiveUp(d.status, r.attempts + 1, max))
  }

  lemma PlanWrites(env: Env, look: Look, rule: Rule, max: int, r: Row, attempts: nat)
    requires r.mailing.Some?
    ensures var p := PlanOf(env, look, rule, max, r);
      && p.row == r && Stamped(r, p.decision, p.status, attempts) == Planned(env, look, rule, max, r, attempts)
      && Planned(env, look, rule, max, r, attempts).id == r.id
  {
  }

  /** On a table others may have edited since it was planned, a statement changes only the row it
      names, and only if both its addresses are still as read; then it writes what was planned. */
  lemma LateChangeWins(env: Env, look: Look, rule: Rule, max: int, r: Row, now: seq<Row>, attempts: nat, i: nat)
    requires r.mailing.Some? && i < |now|
    ensures var t := Guarded(now, PlanOf(env, look, rule, max, r), attempts)[i];
      var q := Planned(env, look, rule, max, r, attempts);
      && (now[i].id != r.id || now[i].mailing != r.mailing || now[i].property != r.property ==> t == now[i])
      && (now[i].id == r.id && now[i].mailing == r.mailing && now[i].property == r.property ==>
            t == now[i].(mailing := q.mailing, status := q.status, attempts := attempts, source := q.source, error := q.error,
                         looks := now[i].looks + 1))
  {
  }

  lemma {:induction false} WhereGrows(flags: seq<bool>)
    ensures forall a, b :: 0 <= a < b < |Where(flags)| ==> Where(flags)[a] < Where(flags)[b]
    ensures forall a :: 0 <= a < |Where(flags)| ==> Where(flags)[a] < |flags| && flags[Where(flags)[a]]
  {
    if flags != [] {
      WhereGrows(flags[..|flags| - 1]);
    }
  }

  lemma CandidatesDistinct(env: Env, rule: Rule, rows: seq<Row>)
    ensures var c := Candidates(env, rule, rows); forall a, b :: 0 <= a < b < |c| ==> c[a] != c[b]
  {
    var u, r := Flags(env, rule, rows, Untried), Flags(env, rule, rows, RetryLater);
    WhereGrows(u);
    WhereGrows(r);
    var c := Candidates(env, rule, rows);
    forall a, b | 0 <= a < b < |c| ensures c[a] != c[b] {
      if a < |Where(u)| <= b {
        assert u[c[a]] && r[c[b]];
      }
    }
  }

  lemma HeadDistinct(env: Env, rule: Rule, rows: seq<Row>, limit: int)
    ensures var h := Head(env, rule, rows, limit); forall a, b :: 0 <= a < b < |h| ==> h[a] != h[b]
  {
    CandidatesDistinct(env, rule, rows);
    HeadIs(env, rule, rows, limit);
    hide Head, Candidates;
  }

  lemma HeadHasMail(env: Env, rule: Rule, rows: seq<Row>, limit: int)
    ensures var h := Head(env, rule, rows, limit);
      forall k :: 0 <= k < |h| ==> h[k] < |rows| && rows[h[k]].mailing.Some?
  {
    HeadIs(env, rule, rows, limit);
  }

  /** How one rule of a run ends. blocked: its lookup raised. */
  function OutcomeOf(env: Env, rule: Rule, rows: seq<Row>, look: Look, blocked: bool, limit: int): Outcome {
    if Head(env, rule, rows, limit) == [] then Idle
    else if rule == P && blocked then SourceDown
    else if rule == K && blocked then Unavailable
    else if rule == K && StopsOnFailure(env, rows, Run(look, limit)) then SourceDown
    else Applied
  }

  /** The table it leaves. */
  function TableOf(env: Env, rule: Rule, rows: seq<Row>, look: Look, blocked: bool, limit: int, max: int, apply: bool): seq<Row> {
    if apply && OutcomeOf(env, rule, rows, look, blocked, limit) == Applied
    then After(env, rule, rows, look, limit, max, false) else rows
  }

  /** One command line, and what each rule's source answers or whether asking raised. */
  datatype Call = Call(
    rules: seq<Rule>, look: Rule -> Look, blocked: Rule -> bool, limit: int, max: int, apply: bool)

  /** The table before the n-th rule of the run. */
  function TableBefore(env: Env, rows: seq<Row>, c: Call, n: nat): seq<Row>
    requires n <= |c.rules|
  {
    if n == 0 then rows
    else var rule := c.rules[n - 1];
         TableOf(env, rule, TableBefore(env, rows, c, n - 1), c.look(rule), c.blocked(rule), c.limit, c.max, c.apply)
  }

  function OutcomeAt(env: Env, rows: seq<Row>, c: Call, n: nat): Outcome
    requires n < |c.rules|
  {
    OutcomeOf(env, c.rules[n], TableBefore(env, rows, c, n), c.look(c.rules[n]), c.blocked(c.rules[n]), c.limit)
  }

  /** A rule had candidates to work on and stopped without touching them, for its source. */
  predicate Stopped(o: Outcome) { o == Unavailable || o == SourceDown }

  /** The process exit code of a run over these rules' outcomes, with no write conflict. */
  function ExitCode(outcomes: seq<Outcome>): int {
    if SourceDown in outcomes then 2 else 0
  }

  class Leads {
    var rows: seq<Row>

    /** The planning loop: attempts is assigned for every row but only its last value is left. */
    method MakePlans(env: Env, rule: Rule, h: seq<nat>, look: Look, max: int)
      returns (plans: seq<Plan>, attempts: nat)
      requires h != [] && forall k :: 0 <= k < |h| ==> h[k] < |rows| && rows[h[k]].mailing.Some?
      ensures |plans| == |h| && attempts == rows[h[|h| - 1]].attempts + 1
      ensures forall k :: 0 <= k < |h| ==> plans[k] == PlanOf(env, look, rule, max, rows[h[k]])
    {
      hide Decide;
      plans, attempts := [], 0;
      for n := 0 to |h|
        invariant |plans| == n && (n > 0 ==> attempts == rows[h[n - 1]].attempts + 1)
        invariant forall k :: 0 <= k < n ==> plans[k] == PlanOf(env, look, rule, max, rows[h[k]])
      {
        var r := rows[h[n]];
        var d := Decide(env, rule, r.mailing.value, look(r.parcel));
        attempts := r.attempts + 1;
        var status := if d.status == RetryLater && attempts >= max then FailedTerminal else d.status;
        plans := plans + [Plan(r, d, status)];
      }
    }

    /** The write loop: on a quiescent table every guarded statement hits its own row. */
    method WritePlans(env: Env, rule: Rule, h: seq<nat>, look: Look, max: int, plans: seq<Plan>, attempts: nat)
      requires IdsUnique(rows) && |plans| == |h| && (forall a, b :: 0 <= a < b < |h| ==> h[a] != h[b])
      requires forall k :: 0 <= k < |h| ==>
        h[k] < |rows| && rows[h[k]].mailing.Some? && plans[k] == PlanOf(env, look, rule, max, rows[h[k]])
      modifies this
      ensures |rows| == old(|rows|)
      ensures forall i :: 0 <= i < |rows| ==>
        rows[i] == if i in h then Planned(env, look, rule, max, old(rows)[i], attempts) else old(rows)[i]
    {
      hide *;
      ghost var start := rows;
      for n := 0 to |plans|
        invariant |rows| == |start|
        invariant forall k :: 0 <= k < n ==> rows[h[k]] == Planned(env, look, rule, max, start[h[k]], attempts)
        invariant forall i :: 0 <= i < |rows| && i !in h[..n] ==> rows[i] == start[i]
        invariant forall i :: 0 <= i < |rows| ==> rows[i].id == start[i].id
      {
        PlanWrites(env, look, rule, max, start[h[n]], attempts);
        assert h[n] !in h[..n];
        GuardedAt(env, start, rows, plans[n], attempts, h[n]);
        rows := Guarded(rows, plans[n], attempts);
      }
    }

    /** One rule of main. blocked: the lookup itself raised. */
    method RunRule(env: Env, rule: Rule, look: Look, blocked: bool, limit: int, max: int, apply: bool)
      returns (outcome: Outcome)
      requires IdsUnique(rows)
      modifies this
      ensures IdsUnique(rows)
      ensures outcome == OutcomeOf(env, rule, old(rows), look, blocked, limit)
      ensures rows == TableOf(env, rule, old(rows), look, blocked, limit, max, apply)
    {
      hide *;
      HeadIs(env, rule, rows, limit);
      HeadDistinct(env, rule, rows, limit);
      HeadHasMail(env, rule, rows, limit);
      OutcomeIs(env, rule, rows, look, blocked, limit, max, apply);
      var h := Head(env, rule, rows, limit);
      if h == [] { return Idle; }
      if blocked && rule == P { return SourceDown; }
      if blocked && rule == K { return Unavailable; }
      if rule == K && StopsOnFailure(env, rows, Run(look, limit)) { return SourceDown; }
      var plans, attempts := MakePlans(env, rule, h, look, max);
      if apply {
        ghost var start := rows;
        WritePlans(env, rule, h, look, max, plans, attempts);
        RowsAre(env, rule, start, rows, look, limit, max, attempts);
      }
      return Applied;
    }

    /** The rule loop and the exit code. */
    method RunRules(env: Env, c: Call) returns (code: int, outcomes: seq<Outcome>)
      requires IdsUnique(rows)
      modifies this
      ensures |outcomes| == |c.rules| && code == ExitCode(outcomes)
      ensures forall n :: 0 <= n < |c.rules| ==> outcomes[n] == OutcomeAt(env, old(rows), c, n)
      ensures rows == TableBefore(env, old(rows), c, |c.rules|)
    {
      hide IdsUnique, OutcomeOf, TableOf;
      outcomes := [];
      ghost var start := rows;
      for n := 0 to |c.rules|
        invariant IdsUnique(rows) && |outcomes| == n
        invariant rows == TableBefore(env, start, c, n)
        invariant forall k :: 0 <= k < n ==> outcomes[k] == OutcomeAt(env, start, c, k)
      {
        var rule := c.rules[n];
        var outcome := RunRule(env, rule, c.look(rule), c.blocked(rule), c.limit, c.max, c.apply);
        outcomes := outcomes + [outcome];
      }
      code := ExitCode(outcomes);
    }

    /** "Repeat until candidates: 0": the repetition ends, and unless some run could not reach
        the source it ends with no candidate left. */
    method RepeatKing(env: Env, looks: nat -> Look, blocked: nat -> bool, limit: int, max: int)
      returns (runs: nat, stalled: bool)
      requires IdsUnique(rows) && limit >= 1
      modifies this
      ensures !stalled ==> Candidates(env, K, rows) == []
      ensures stalled ==> runs > 0 && (blocked(runs - 1) || StopsOnFailure(env, rows, Run(looks(runs - 1), limit)))
    {
      runs, stalled := 0, false;
      while Candidates(env, K, rows) != []
        invariant IdsUnique(rows) && !stalled
        decreases Measure(env, rows, limit, max).0, Measure(env, rows, limit, max).1, Measure(env, rows, limit, max).2
      {
        HeadIs(env, K, rows, limit);
        Progress(env, rows, looks(runs), limit, max, false);
        hide After, Candidates, Head, Measure, IdsUnique;
        var outcome := RunRule(env, K, looks(runs), blocked(runs), limit, max, true);
        runs := runs + 1;
        if outcome != Applied {
          stalled := true;
          break;
        }
      }
    }
  }

  lemma OutcomeIs(env: Env, rule: Rule, rows: seq<Row>, look: Look, blocked: bool, limit: int, max: int, apply: bool)
    ensures var h, o := Head(env, rule, rows, limit), OutcomeOf(env, rule, rows, look, blocked, limit);
      && o == (if h == [] then Idle else if rule == P && blocked then SourceDown else if rule == K && blocked then Unavailable
               else if rule == K && StopsOnFailure(env, rows, Run(look, limit)) then SourceDown else Applied)
      && TableOf(env, rule, rows, look, blocked, limit, max, apply)
         == if apply && o == Applied then After(env, rule, rows, look, limit, max, false) else rows
  {
  }

  // ---------- what an applied run does, read off rule, row and answer ----------

  /** t: the row r of the head after the run; l: what the source said of its parcel. */
  ghost predicate RowReads(env: Env, rule: Rule, r: Row, l: Option<Lookup>, max: int, t: Row)
    requires r.mailing.Some?
  {
    var found := l.Some? && l.value.mailing.Some? && l.value.mailing.value != "";
    var same := found && env.norm(l.value.mailing.value) == env.norm(r.mailing.value);
    && t.id == r.id && t.rule == r.rule && t.parcel == r.parcel && t.property == r.property && t.looks == r.looks + 1
    && match rule
       case S => t.mailing == None && t.status == ClearedNoSource && t.source == Some("none_no_source") && t.error == None
       case P =>
         && t.error == None
         && (!found ==> t.mailing == r.mailing && t.status == NotFound && t.source == None)
         && (same ==> t.mailing == r.mailing && t.status == ConfirmedSame && t.source == Some("pierce_county_gis"))
         && (found && !same ==> t.mailing == l.value.mailing && t.status == Resolved && t.source == Some("pierce_county_gis"))
       case K =>
         if found && l.value.answer == Found then
           && t.mailing == l.value.mailing && t.source == Some("king_assessor_tax_bill") && t.error == None
           && t.status == if same then ConfirmedSame else Resolved
         else if l.Some? && l.value.answer == NoBlock then
           && t.mailing == None && t.status == ClearedNoSource && t.error == None
           && t.source == Some("none_king_assessor_no_mailing_block")
         else
           && t.mailing == r.mailing && t.source == None && t.error.Some? == (t.status == RetryLater)
           && t.status == if r.attempts + 1 >= max then FailedTerminal else RetryLater
  }

  /** A rule that is not applied leaves the table alone. An applied one leaves the rows outside its
      head alone, and reads every row of it so; all of them are stamped with one number of
      attempts, the last one's. */
  lemma AppliedRow(env: Env, rule: Rule, rows: seq<Row>, look: Look, blocked: bool, limit: int, max: int, apply: bool, i: nat)
    requires i < |rows|
    ensures var t := TableOf(env, rule, rows, look, blocked, limit, max, apply);
      var h := Head(env, rule, rows, limit);
      && |t| == |rows|
      && (i !in h || !apply || OutcomeOf(env, rule, rows, look, blocked, limit) != Applied ==> t[i] == rows[i])
      && (i in h && apply && OutcomeOf(env, rule, rows, look, blocked, limit) == Applied ==>
            && rows[i].mailing.Some? && RowReads(env, rule, rows[i], look(rows[i].parcel), max, t[i])
            && h[|h| - 1] < |rows| && t[i].attempts == rows[h[|h| - 1]].attempts + 1)
  {
    AfterAt(env, rule, rows, look, limit, max, false, i);
    var h := Head(env, rule, rows, limit);
    hide Head, After, OutcomeOf;
    if i in h {
      PlannedReads(env, look, rule, max, rows[i], Stamp(rows, h, i, false));
    }
  }

  lemma PlannedReads(env: Env, look: Look, rule: Rule, max: int, r: Row, attempts: nat)
    requires r.mailing.Some?
    ensures var t := Planned(env, look, rule, max, r, attempts);
      RowReads(env, rule, r, look(r.parcel), max, t) && t.attempts == attempts
  {
  }

  /** A row the run may work on: of this rule, with an address that begins with the property's, and
      not settled. */
  predicate Workable(env: Env, rule: Rule, r: Row) {
    && r.rule == Some(rule) && r.mailing.Some? && env.signature(r.property, r.mailing.value)
    && (r.status == Untried || r.status == RetryLater)
  }

  function Before(flags: seq<bool>, i: nat): nat
    requires i <= |flags|
  {
    if i == 0 then 0 else Before(flags, i - 1) + if flags[i - 1] then 1 else 0
  }

  lemma {:induction false} WherePosition(flags: seq<bool>, i: nat)
    requires i < |flags| && flags[i]
    ensures Before(flags, i) < |Where(flags)| && Where(flags)[Before(flags, i)] == i
  {
    var n := |flags| - 1;
    BeforeFront(flags, i);
    if i < n {
      WherePosition(flags[..n], i);
    } else {
      WhereCount(flags[..n]);
    }
  }

  lemma {:induction false} BeforeFront(flags: seq<bool>, i: nat)
    requires i < |flags|
    ensures Before(flags[..|flags| - 1], i) == Before(flags, i)
  {
    if i > 0 { BeforeFront(flags, i - 1); }
  }

  lemma {:induction false} WhereCount(flags: seq<bool>)
    ensures |Where(flags)| == Before(flags, |flags|)
  {
    if flags != [] {
      WhereCount(flags[..|flags| - 1]);
      BeforeFront(flags, |flags| - 1);
    }
  }

  function Untouched(env: Env, rule: Rule, rows: seq<Row>): seq<bool> {
    seq(|rows|, i requires 0 <= i < |rows| => Workable(env, rule, rows[i]) && rows[i].status == Untried)
  }

  function Waiting(env: Env, rule: Rule, rows: seq<Row>): seq<bool> {
    seq(|rows|, i requires 0 <= i < |rows| => Workable(env, rule, rows[i]) && rows[i].status == RetryLater)
  }

  /** How many rows come before row i: untried rows in table order, then those to be retried. */
  function Rank(env: Env, rule: Rule, rows: seq<Row>, i: nat): nat
    requires i < |rows|
  {
    if rows[i].status == Untried then Before(Untouched(env, rule, rows), i)
    else Before(Untouched(env, rule, rows), |rows|) + Before(Waiting(env, rule, rows), i)
  }

  /** How many rows rule K takes: the limit, or, if it is negative, all but so many. */
  function Quota(env: Env, rule: Rule, rows: seq<Row>, limit: int): int {
    if limit >= 0 then limit
    else Before(Untouched(env, rule, rows), |rows|) + Before(Waiting(env, rule, rows), |rows|) + limit
  }

  /** The head, row by row: rules S and P take every workable row, rule K the first of them. */
  lemma InHeadIff(env: Env, rule: Rule, rows: seq<Row>, limit: int, i: nat)
    requires i < |rows|
    ensures i in Head(env, rule, rows, limit) <==>
      Workable(env, rule, rows[i]) && (rule == K ==> Rank(env, rule, rows, i) < Quota(env, rule, rows, limit))
  {
    var u, w := Flags(env, rule, rows, Untried), Flags(env, rule, rows, RetryLater);
    assert u == Untouched(env, rule, rows) && w == Waiting(env, rule, rows);
    InCandidates(env, rule, rows, i);
    WhereCount(u);
    WhereCount(w);
    assert Candidate(env, rule, rows[i]) <==> Workable(env, rule, rows[i]);
    if Workable(env, rule, rows[i]) && rule == K {
      CandidatePosition(env, rows, i);
      CandidatesDistinct(env, K, rows);
      hide Candidates, Rank, Before, Flags;
      InPrefix(Candidates(env, K, rows), Rank(env, K, rows, i), limit);
    }
  }

  lemma CandidatePosition(env: Env, rows: seq<Row>, i: nat)
    requires i < |rows| && Workable(env, K, rows[i])
    ensures var c := Candidates(env, K, rows); Rank(env, K, rows, i) < |c| && c[Rank(env, K, rows, i)] == i
    ensures |Candidates(env, K, rows)| == Before(Untouched(env, K, rows), |rows|) + Before(Waiting(env, K, rows), |rows|)
  {
    var u, w := Flags(env, K, rows, Untried), Flags(env, K, rows, RetryLater);
    assert u == Untouched(env, K, rows) && w == Waiting(env, K, rows);
    WhereCount(u);
    WhereCount(w);
    hide Before, Where;
    if rows[i].status == Untried { WherePosition(u, i); } else { WherePosition(w, i); }
  }

  lemma InPrefix(c: seq<nat>, p: nat, limit: int)
    requires p < |c| && forall a, b :: 0 <= a < b < |c| ==> c[a] != c[b]
    ensures c[p] in Slice(c, limit) <==> p < if limit >= 0 then limit else |c| + limit
  {
    var s := Slice(c, limit);
    if p < |s| { assert s[p] == c[p]; }
  }

  /** How a rule ends, read off the rows of its head: nothing to do; the lookup raised, which only
      rules K and P notice; for rule K every parcel unanswered, missing or in error; or applied. */
  lemma OutcomeIff(env: Env, rule: Rule, rows: seq<Row>, look: Look, blocked: bool, limit: int)
    ensures var o := OutcomeOf(env, rule, rows, look, blocked, limit);
      var idle := forall i :: 0 <= i < |rows| ==> i !in Head(env, rule, rows, limit);
      var failed := forall i :: 0 <= i < |rows| && i in Head(env, rule, rows, limit) ==>
        var l := look(rows[i].parcel); l == None || l.value.answer == Error || l.value.answer == Missing;
      && (o == Idle <==> idle)
      && (o == Unavailable <==> !idle && rule == K && blocked)
      && (o == SourceDown <==> !idle && ((rule == P && blocked) || (rule == K && !blocked && failed)))
      && (o == Applied <==> !idle && (rule == S || !blocked) && !(rule == K && failed))
  {
    HeadIs(env, rule, rows, limit);
    var h := Head(env, rule, rows, limit);
    if h != [] { assert h[0] in h; }
    hide Head;
    if rule == K { FailedIff(env, rows, look, limit); }
    hide StopsOnFailure;
  }

  lemma FailedIff(env: Env, rows: seq<Row>, look: Look, limit: int)
    ensures StopsOnFailure(env, rows, Run(look, limit)) <==>
      forall i :: 0 <= i < |rows| && i in Head(env, K, rows, limit) ==>
        var l := look(rows[i].parcel); l == None || l.value.answer == Error || l.value.answer == Missing
  {
    HeadIs(env, K, rows, limit);
    var h := Head(env, K, rows, limit);
    forall k | 0 <= k < |h| ensures h[k] in h && h[k] < |rows| {}
    hide Head;
  }

  // ---------- what the columns say, over any commands ----------

  /** was: the row before the first command, with whatever source, error or status earlier runs
      and other scripts left in it. */
  ghost predicate Tells(env: Env, was: Row, r: Row) {
    && r == was.(mailing := r.mailing, status := r.status, attempts := r.attempts, source := r.source,
                 error := r.error, looks := r.looks)
    && (r == was || ColumnsAgree(env, was, r))
  }

  /** The row was worked on, and its columns agree: a source is recorded exactly for a settled
      address, an error exactly for a row to be retried, and the address is what the status says
      of the one the row began with. */
  ghost predicate ColumnsAgree(env: Env, was: Row, r: Row) {
    && (r.source.Some? <==> r.status in {Resolved, ConfirmedSame, ClearedNoSource})
    && (r.error.Some? <==> r.status == RetryLater)
    && match r.status
       case Resolved => r.mailing.Some? && was.mailing.Some? && env.norm(r.mailing.value) != env.norm(was.mailing.value)
       case ConfirmedSame => r.mailing.Some? && was.mailing.Some? && env.norm(r.mailing.value) == env.norm(was.mailing.value)
       case ClearedNoSource => r.mailing == None
       case _ => r.mailing == was.mailing
  }

  ghost predicate TableTells(env: Env, was: seq<Row>, rows: seq<Row>) {
    |rows| == |was| && forall i :: 0 <= i < |rows| ==> Tells(env, was[i], rows[i])
  }

  lemma PlannedTells(env: Env, look: Look, rule: Rule, max: int, was: Row, r: Row, attempts: nat)
    requires Tells(env, was, r) && Candidate(env, rule, r)
    ensures Tells(env, was, Planned(env, look, rule, max, r, attempts))
    ensures ColumnsAgree(env, was, Planned(env, look, rule, max, r, attempts))
  {
  }

  lemma RuleTells(env: Env, was: seq<Row>, rule: Rule, rows: seq<Row>, look: Look, blocked: bool, limit: int, max: int, apply: bool)
    requires TableTells(env, was, rows)
    ensures TableTells(env, was, TableOf(env, rule, rows, look, blocked, limit, max, apply))
  {
    hide Tells, Planned, Candidate, Head, OutcomeOf;
    forall i | 0 <= i < |rows| ensures Tells(env, was[i], After(env, rule, rows, look, limit, max, false)[i]) {
      AfterAt(env, rule, rows, look, limit, max, false, i);
      var h := Head(env, rule, rows, limit);
      if i in h { PlannedTells(env, look, rule, max, was[i], rows[i], Stamp(rows, h, i, false)); }
    }
  }

  lemma {:induction false} CallTells(env: Env, was: seq<Row>, rows: seq<Row>, c: Call, n: nat)
    requires TableTells(env, was, rows) && n <= |c.rules|
    ensures TableTells(env, was, TableBefore(env, rows, c, n))
  {
    if n > 0 {
      hide TableTells, TableOf;
      CallTells(env, was, rows, c, n - 1);
      var rule := c.rules[n - 1];
      RuleTells(env, was, rule, TableBefore(env, rows, c, n - 1), c.look(rule), c.blocked(rule), c.limit, c.max, c.apply);
    }
  }

  function AfterCalls(env: Env, rows: seq<Row>, calls: seq<Call>): seq<Row> {
    if calls == [] then rows
    else var c := calls[|calls| - 1]; TableBefore(env, AfterCalls(env, rows, calls[..|calls| - 1]), c, |c.rules|)
  }

  /** Any table, commands, rules, limits, answers and outages: a row is as it was, or its columns
      tell what was found out about it. */
  lemma {:induction false} ColumnsTell(env: Env, rows: seq<Row>, calls: seq<Call>)
    ensures TableTells(env, rows, AfterCalls(env, rows, calls))
  {
    if calls != [] {
      hide Tells, TableTells, TableBefore;
      ColumnsTell(env, rows, calls[..|calls| - 1]);
      var c := calls[|calls| - 1];
      CallTells(env, rows, AfterCalls(env, rows, calls[..|calls| - 1]), c, |c.rules|);
    }
  }

  lemma {:induction false} CallSkips(env: Env, rows: seq<Row>, c: Call, n: nat, i: nat)
    requires n <= |c.rules| && i < |rows| && Terminal(rows[i].status)
    ensures var t := TableBefore(env, rows, c, n); |t| == |rows| && t[i] == rows[i]
  {
    if n > 0 {
      hide After, Head, Candidate, OutcomeOf;
      CallSkips(env, rows, c, n - 1, i);
      var rule, now := c.rules[n - 1], TableBefore(env, rows, c, n - 1);
      AfterAt(env, rule, now, c.look(rule), c.limit, c.max, false, i);
      SettledIsNoCandidate(env, rule, now[i]);
    }
  }

  lemma SettledIsNoCandidate(env: Env, rule: Rule, r: Row)
    requires Terminal(r.status)
    ensures !Candidate(env, rule, r)
  {
  }

  /** A settled row is final: no later command changes anything in it. */
  lemma {:induction false} SettledIsFinal(env: Env, rows: seq<Row>, calls: seq<Call>, i: nat)
    requires i < |rows| && Terminal(rows[i].status)
    ensures var t := AfterCalls(env, rows, calls); |t| == |rows| && t[i] == rows[i]
  {
    if calls != [] {
      hide TableBefore, Terminal;
      SettledIsFinal(env, rows, calls[..|calls| - 1], i);
      var c := calls[|calls| - 1];
      CallSkips(env, AfterCalls(env, rows, calls[..|calls| - 1]), c, |c.rules|, i);
    }
  }

  /** Rule K had candidates, and its lookup raised. */
  predicate KingUnreachable(env: Env, rows: seq<Row>, c: Call, n: nat)
    requires n < |c.rules|
  {
    c.rules[n] == K && c.blocked(K) && Head(env, K, TableBefore(env, rows, c, n), c.limit) != []
  }

  /** A rule had candidates and found its source down: rule P's lookup raised, or every parcel
      of rule K's head failed at the transport level. */
  predicate FoundDown(env: Env, rows: seq<Row>, c: Call, n: nat)
    requires n < |c.rules|
  {
    var rule, now := c.rules[n], TableBefore(env, rows, c, n);
    && Head(env, rule, now, c.limit) != []
    && (if rule == K then !c.blocked(K) && StopsOnFailure(env, now, Run(c.look(K), c.limit)) else rule == P && c.blocked(P))
  }

  lemma OutcomeReads(env: Env, rows: seq<Row>, c: Call, n: nat)
    requires n < |c.rules|
    ensures OutcomeAt(env, rows, c, n) == Unavailable <==> KingUnreachable(env, rows, c, n)
    ensures OutcomeAt(env, rows, c, n) == SourceDown <==> FoundDown(env, rows, c, n)
  {
    hide Head, StopsOnFailure, TableBefore;
  }

  /** The silent stall: some rule stopped for its source and the run still exits 0 exactly when
      rule K was unreachable at some point and no rule found its source down. The exit code is
      otherwise 2 exactly when some rule did. */
  lemma SilentStallIff(env: Env, rows: seq<Row>, c: Call, outcomes: seq<Outcome>)
    requires |outcomes| == |c.rules|
    requires forall n :: 0 <= n < |c.rules| ==> outcomes[n] == OutcomeAt(env, rows, c, n)
    ensures ExitCode(outcomes) == if exists n :: 0 <= n < |c.rules| && FoundDown(env, rows, c, n) then 2 else 0
    ensures (ExitCode(outcomes) == 0 && exists n :: 0 <= n < |outcomes| && Stopped(outcomes[n])) <==>
      ((exists n :: 0 <= n < |c.rules| && KingUnreachable(env, rows, c, n))
       && forall n :: 0 <= n < |c.rules| ==> !FoundDown(env, rows, c, n))
  {
    forall n | 0 <= n < |c.rules|
      ensures outcomes[n] == Unavailable <==> KingUnreachable(env, rows, c, n)
      ensures outcomes[n] == SourceDown <==> FoundDown(env, rows, c, n)
    {
      OutcomeReads(env, rows, c, n);
    }
    hide KingUnreachable, FoundDown, OutcomeAt;
    if n :| 0 <= n < |c.rules| && KingUnreachable(env, rows, c, n) {
      assert Stopped(outcomes[n]);
    }
  }

  /** Such a run: two undecided leads, rule K asked for, the assessor unreachable. */
  lemma SilentStall() returns (env: Env, rows: seq<Row>, c: Call)
    ensures c.rules == [K] && c.apply && KingUnreachable(env, rows, c, 0) && !FoundDown(env, rows, c, 0)
    ensures TableBefore(env, rows, c, 1) == rows && Candidates(env, K, rows) != []
    ensures OutcomeAt(env, rows, c, 0) == Unavailable && ExitCode([OutcomeAt(env, rows, c, 0)]) == 0
  {
    env, rows, c := PlainEnv(), New(1), Call([K], r => Deferred, r => true, 30, 3, true);
    LeadIsOpen(0, Untried, 0, 0);
    InCandidates(env, K, rows, 0);
    HeadIs(env, K, rows, 30);
    assert 0 in Candidates(env, K, rows);
    assert TableBefore(env, rows, c, 0) == rows;
    hide Head, Candidates, StopsOnFailure;
  }

  lemma RowsAre(env: Env, rule: Rule, start: seq<Row>, rows: seq<Row>, look: Look, limit: int, max: int, attempts: nat)
    requires |rows| == |start| && Head(env, rule, start, limit) != []
    requires var h := Head(env, rule, start, limit);
      h[|h| - 1] < |start| && attempts == start[h[|h| - 1]].attempts + 1
    requires var h := Head(env, rule, start, limit);
      forall i :: 0 <= i < |rows| ==>
        rows[i] == if i in h && start[i].mailing.Some? then Planned(env, look, rule, max, start[i], attempts) else start[i]
    requires IdsUnique(start)
    ensures rows == After(env, rule, start, look, limit, max, false) && IdsUnique(rows)
  {
    forall i | 0 <= i < |rows| ensures rows[i] == After(env, rule, start, look, limit, max, false)[i] {
      AfterAt(env, rule, start, look, limit, max, false, i);
    }
    assert forall i :: 0 <= i < |rows| ==> rows[i].id == start[i].id;
  }

  // ---------- the retry bound ----------

  function Once(env: Env, rows: seq<Row>, run: Run, max: int, carry: bool): seq<Row> {
    if StopsOnFailure(env, rows, run) then rows else After(env, K, rows, run.look, run.limit, max, carry)
  }

  function Runs(env: Env, rows: seq<Row>, runs: seq<Run>, max: int, carry: bool): seq<Row> {
    if runs == [] then rows else Once(env, Runs(env, rows, runs[..|runs| - 1], max, carry), runs[|runs| - 1], max, carry)
  }

  predicate Fresh(rows: seq<Row>) {
    forall i :: 0 <= i < |rows| ==> rows[i].status == Untried && rows[i].attempts == 0 && rows[i].looks == 0
  }

  function AtLeastOne(max: int): int { if max < 1 then 1 else max }

  /** What the stored counter says about how often a row was looked at. */
  predicate CounterOk(r: Row, max: int, carry: bool) {
    && r.looks <= AtLeastOne(max)
    && (r.status == Untried ==> r.looks == 0 && r.attempts == 0)
    && (r.status == RetryLater ==> 1 <= r.looks < max && r.attempts >= 1)
    && (r.status == RetryLater ==> if carry then r.attempts == r.looks else r.looks >= 2 ==> r.attempts >= 2)
  }

  /** A retry row is only in the head when the last row of the head is a retry row too. */
  lemma LastIsRetry(env: Env, rows: seq<Row>, limit: int, i: nat)
    requires i in Head(env, K, rows, limit) && i < |rows| && rows[i].status == RetryLater
    ensures var h := Head(env, K, rows, limit);
      h != [] && h[|h| - 1] < |rows| && rows[h[|h| - 1]].status == RetryLater
  {
    hide *;
    var h, u, r := Head(env, K, rows, limit), Where(Flags(env, K, rows, Untried)), Where(Flags(env, K, rows, RetryLater));
    HeadParts(env, rows, limit);
    StatusOf(env, rows, i);
    var k :| 0 <= k < |h| && h[k] == i;
    assert (u + r)[k] == i;
    forall j | 0 <= j < |u| ensures u[j] != i { assert u[j] in u; }
    assert h[|h| - 1] == r[|h| - 1 - |u|];
    StatusOf(env, rows, h[|h| - 1]);
  }

  lemma HeadParts(env: Env, rows: seq<Row>, limit: int)
    ensures Head(env, K, rows, limit) <= Where(Flags(env, K, rows, Untried)) + Where(Flags(env, K, rows, RetryLater))
  {
    HeadIs(env, K, rows, limit);
  }

  lemma StatusOf(env: Env, rows: seq<Row>, i: nat)
    ensures i in Where(Flags(env, K, rows, Untried)) ==> i < |rows| && rows[i].status == Untried
    ensures i in Where(Flags(env, K, rows, RetryLater)) ==> i < |rows| && rows[i].status == RetryLater
  {
    InWhere(Flags(env, K, rows, Untried), i);
    InWhere(Flags(env, K, rows, RetryLater), i);
  }

  lemma CounterRow(env: Env, look: Look, r: Row, last: Row, max: int, carry: bool)
    requires Candidate(env, K, r) && CounterOk(r, max, carry) && CounterOk(last, max, carry)
    requires carry || max <= 3
    requires r.status == RetryLater ==> last.status == RetryLater
    ensures CounterOk(Planned(env, look, K, max, r, if carry then r.attempts + 1 else last.attempts + 1), max, carry)
  {
    PlannedStatus(env, look, K, max, r, if carry then r.attempts + 1 else last.attempts + 1);
    hide Planned, Candidate;
  }

  lemma CounterStep(env: Env, rows: seq<Row>, run: Run, max: int, carry: bool)
    requires carry || max <= 3
    requires forall i :: 0 <= i < |rows| ==> CounterOk(rows[i], max, carry)
    ensures var t := Once(env, rows, run, max, carry);
      |t| == |rows| && forall i :: 0 <= i < |t| ==> CounterOk(t[i], max, carry)
  {
    hide CounterOk, Planned, Head, After;
    var t := Once(env, rows, run, max, carry);
    var h := Head(env, K, rows, run.limit);
    if !StopsOnFailure(env, rows, run) {
      forall i | 0 <= i < |t| ensures CounterOk(t[i], max, carry) {
        AfterAt(env, K, rows, run.look, run.limit, max, carry, i);
        if i in h {
          if rows[i].status == RetryLater { LastIsRetry(env, rows, run.limit, i); }
          CounterRow(env, run.look, rows[i], rows[h[|h| - 1]], max, carry);
        }
      }
    }
  }

  /** With at most three attempts, the default, no row is looked at more often than allowed,
      over any runs, limits and answers; with the counter carried in the plan no maximum is
      ever exceeded. */
  lemma {:induction false} LooksBounded(env: Env, rows: seq<Row>, runs: seq<Run>, max: int, carry: bool)
    requires Fresh(rows) && (carry || max <= 3)
    ensures var t := Runs(env, rows, runs, max, carry);
      |t| == |rows| && forall i :: 0 <= i < |t| ==> CounterOk(t[i], max, carry) && t[i].looks <= AtLeastOne(max)
  {
    if runs != [] {
      LooksBounded(env, rows, runs[..|runs| - 1], max, carry);
      CounterStep(env, Runs(env, rows, runs[..|runs| - 1], max, carry), runs[|runs| - 1], max, carry);
    }
  }

  // ---------- why the bound stops at three ----------

  function Deferred(p: string): Option<Lookup> { Some(Lookup(NotAttempted, None)) }

  /** The first row's parcel stays deferred, every other page has no mailing block. */
  function OthersAnswered(p: string): Option<Lookup> {
    Some(Lookup(if p == "first" then NotAttempted else NoBlock, None))
  }

  function PlainEnv(): Env { Env((p, m) => p == m, s => s) }

  function Lead(i: nat, status: Status, attempts: nat, looks: nat): Row {
    Row(i, Some(K), if i == 0 then "first" else "other", "1 MAIN ST",
        if status == ClearedNoSource then None else Some("1 MAIN ST"), status, attempts,
        if status == ClearedNoSource then Some("none_king_assessor_no_mailing_block") else None,
        if status == RetryLater then Some("king_lookup_not_attempted") else None, looks)
  }

  /** n + 1 leads no run has seen. */
  function New(n: nat): seq<Row> { seq(n + 1, i requires 0 <= i <= n => Lead(i, Untried, 0, 0)) }

  /** The first lead retried, the next j cleared, the rest retried once. */
  function Table(n: nat, j: nat, attempts: nat, looks: nat): seq<Row> {
    seq(n + 1, i requires 0 <= i <= n =>
      if i == 0 then Lead(0, RetryLater, attempts, looks)
      else if i <= j then Lead(i, ClearedNoSource, 2, 2) else Lead(i, RetryLater, 1, 1))
  }

  lemma {:induction false} FirstTwo(flags: seq<bool>, m: nat)
    requires 0 < m < |flags| && flags[0] && flags[m] && forall i :: 0 < i < m ==> !flags[i]
    ensures |Where(flags)| >= 2 && Where(flags)[0] == 0 && Where(flags)[1] == m
  {
    if |flags| == m + 1 {
      OnlyFirst(flags[..m]);
    } else {
      FirstTwo(flags[..|flags| - 1], m);
    }
  }

  lemma {:induction false} OnlyFirst(flags: seq<bool>)
    requires flags != [] && flags[0] && forall i :: 0 < i < |flags| ==> !flags[i]
    ensures Where(flags) == [0]
  {
    if |flags| == 1 {
      assert Where(flags[..0]) == [];
    } else {
      OnlyFirst(flags[..|flags| - 1]);
    }
  }

  lemma {:induction false} NoneHold(flags: seq<bool>)
    requires forall i :: 0 <= i < |flags| ==> !flags[i]
    ensures Where(flags) == []
  {
    if flags != [] { NoneHold(flags[..|flags| - 1]); }
  }

  lemma LeadIsOpen(i: nat, status: Status, attempts: nat, looks: nat)
    ensures Candidate(PlainEnv(), K, Lead(i, status, attempts, looks)) <==> status == Untried || status == RetryLater
  {
    assert PlainEnv().signature("1 MAIN ST", "1 MAIN ST");
  }

  lemma TableCandidates(n: nat, j: nat, attempts: nat, looks: nat)
    requires j < n
    ensures var c := Candidates(PlainEnv(), K, Table(n, j, attempts, looks));
      |c| >= 2 && c[0] == 0 && c[1] == j + 1
  {
    var env, t := PlainEnv(), Table(n, j, attempts, looks);
    var u, r := Flags(env, K, t, Untried), Flags(env, K, t, RetryLater);
    forall i | 0 <= i <= n ensures !u[i] && r[i] == (i == 0 || i > j) {
      LeadIsOpen(0, RetryLater, attempts, looks);
      LeadIsOpen(i, RetryLater, 1, 1);
    }
    NoneHold(u);
    FirstTwo(r, j + 1);
  }

  lemma DeferredRow(i: nat, status: Status, attempts: nat, looks: nat, max: int, stamp: nat)
    requires attempts + 1 < max && (status == Untried || status == RetryLater)
    ensures Lead(i, status, attempts, looks).mailing.Some?
    ensures Planned(PlainEnv(), Deferred, K, max, Lead(i, status, attempts, looks), stamp)
         == Lead(i, RetryLater, stamp, looks + 1)
    ensures Planned(PlainEnv(), OthersAnswered, K, max, Lead(i, status, attempts, looks), stamp)
         == Lead(i, if i == 0 then RetryLater else ClearedNoSource, stamp, looks + 1)
  {
    assert "king_lookup_" + "not_attempted" == "king_lookup_not_attempted";
    assert "first"[0] != "other"[0];
  }

  lemma FirstIsDeferred(rows: seq<Row>, run: Run)
    requires rows != [] && rows[0].parcel == "first" && (run.look == Deferred || run.look == OthersAnswered)
    requires 0 in Head(PlainEnv(), K, rows, run.limit)
    ensures !StopsOnFailure(PlainEnv(), rows, run)
  {
    hide Head, Candidates;
    HeadIs(PlainEnv(), K, rows, run.limit);
    var h := Head(PlainEnv(), K, rows, run.limit);
    var k :| 0 <= k < |h| && h[k] == 0;
    assert rows[h[k]].parcel == "first";
    if run.look == Deferred {
      assert run.look("first") == Deferred("first");
    } else {
      assert run.look("first") == OthersAnswered("first");
    }
  }

  lemma AllInHead(n: nat, i: nat)
    requires i <= n
    ensures i in Head(PlainEnv(), K, New(n), n + 1)
    ensures var h := Head(PlainEnv(), K, New(n), n + 1); h != [] && h[|h| - 1] <= n
  {
    var env, rows := PlainEnv(), New(n);
    CandidateCount(env, K, rows);
    WhereSize(Open(env, K, rows));
    HeadIs(env, K, rows, n + 1);
    LeadIsOpen(i, Untried, 0, 0);
    InCandidates(env, K, rows, i);
  }

  lemma FirstRunAt(n: nat, max: int, i: nat)
    requires max >= 4 && i <= n
    ensures After(PlainEnv(), K, New(n), Deferred, n + 1, max, false)[i] == Table(n, 0, 1, 1)[i]
  {
    hide Head, Planned, After, Candidate;
    AllInHead(n, i);
    AfterAt(PlainEnv(), K, New(n), Deferred, n + 1, max, false, i);
    DeferredRow(i, Untried, 0, 0, max, 1);
  }

  /** Every lead is deferred once. */
  lemma FirstRun(n: nat, max: int)
    requires max >= 4 && n >= 1
    ensures Once(PlainEnv(), New(n), Run(Deferred, n + 1), max, false) == Table(n, 0, 1, 1)
  {
    hide Head, Planned, StopsOnFailure, After;
    var env, rows := PlainEnv(), New(n);
    AllInHead(n, 0);
    assert rows[0] == Lead(0, Untried, 0, 0);
    FirstIsDeferred(rows, Run(Deferred, n + 1));
    forall i | 0 <= i <= n ensures After(env, K, rows, Deferred, n + 1, max, false)[i] == Table(n, 0, 1, 1)[i] {
      FirstRunAt(n, max, i);
    }
  }

  lemma {:induction false} WhereSize(flags: seq<bool>)
    ensures |Where(flags)| <= |flags|
  {
    if flags != [] { WhereSize(flags[..|flags| - 1]); }
  }

  lemma TableHead(n: nat, j: nat, attempts: nat, looks: nat)
    requires j < n
    ensures Head(PlainEnv(), K, Table(n, j, attempts, looks), 1) == [0]
    ensures Head(PlainEnv(), K, Table(n, j, attempts, looks), 2) == [0, j + 1]
  {
    TableCandidates(n, j, attempts, looks);
  }

  /** --king-limit 1: only the first lead is retried. */
  lemma SecondRun(n: nat, max: int)
    requires max >= 4 && n >= 1
    ensures Once(PlainEnv(), Table(n, 0, 1, 1), Run(Deferred, 1), max, false) == Table(n, 0, 2, 2)
  {
    hide Head, Planned, StopsOnFailure;
    var env, rows := PlainEnv(), Table(n, 0, 1, 1);
    TableHead(n, 0, 1, 1);
    FirstIsDeferred(rows, Run(Deferred, 1));
    DeferredRow(0, RetryLater, 1, 1, max, 2);
    forall i | 0 <= i <= n ensures After(env, K, rows, Deferred, 1, max, false)[i] == Table(n, 0, 2, 2)[i] {
      AfterAt(env, K, rows, Deferred, 1, max, false, i);
    }
  }

  /** --king-limit 2: the second row answers, and its counter overwrites the first one's. */
  lemma LaterRun(n: nat, j: nat, looks: nat, max: int)
    requires max >= 4 && j < n
    ensures Once(PlainEnv(), Table(n, j, 2, looks), Run(OthersAnswered, 2), max, false) == Table(n, j + 1, 2, looks + 1)
  {
    hide Head, Planned, StopsOnFailure;
    var env, rows := PlainEnv(), Table(n, j, 2, looks);
    TableHead(n, j, 2, looks);
    assert rows[0] == Lead(0, RetryLater, 2, looks);
    assert Lead(0, RetryLater, 2, looks).parcel == "first";
    FirstIsDeferred(rows, Run(OthersAnswered, 2));
    DeferredRow(0, RetryLater, 2, looks, max, 2);
    DeferredRow(j + 1, RetryLater, 1, 1, max, 2);
    forall i | 0 <= i <= n
      ensures After(env, K, rows, OthersAnswered, 2, max, false)[i] == Table(n, j + 1, 2, looks + 1)[i]
    {
      AfterAt(env, K, rows, OthersAnswered, 2, max, false, i);
    }
  }

  function Schedule(n: nat, j: nat): seq<Run> {
    if j == 0 then [Run(Deferred, n + 1), Run(Deferred, 1)] else Schedule(n, j - 1) + [Run(OthersAnswered, 2)]
  }

  lemma RunsPush(env: Env, rows: seq<Row>, runs: seq<Run>, last: Run, max: int)
    ensures Runs(env, rows, runs + [last], max, false) == Once(env, Runs(env, rows, runs, max, false), last, max, false)
  {
    assert (runs + [last])[..|runs|] == runs;
  }

  lemma {:induction false} ScheduleEnds(n: nat, j: nat, max: int)
    requires max >= 4 && n >= 1 && j <= n
    ensures Runs(PlainEnv(), New(n), Schedule(n, j), max, false) == Table(n, j, 2, j + 2)
  {
    hide Once, Table, New, PlainEnv;
    var env, rows := PlainEnv(), New(n);
    if j == 0 {
      FirstRun(n, max);
      SecondRun(n, max);
      assert Schedule(n, 0) == ([] + [Run(Deferred, n + 1)]) + [Run(Deferred, 1)];
      RunsPush(env, rows, [], Run(Deferred, n + 1), max);
      RunsPush(env, rows, [] + [Run(Deferred, n + 1)], Run(Deferred, 1), max);
    } else {
      ScheduleEnds(n, j - 1, max);
      LaterRun(n, j - 1, j + 1, max);
      RunsPush(env, rows, Schedule(n, j - 1), Run(OthersAnswered, 2), max);
    }
  }

  /** For every maximum of four or more the promised bound fails: some row of a table that
      started untried is looked at more than max times and is still waiting. */
  lemma BoundFails(max: int) returns (env: Env, rows: seq<Row>, runs: seq<Run>)
    requires max >= 4
    ensures Fresh(rows) && rows != []
    ensures var t := Runs(env, rows, runs, max, false);
      |t| == |rows| && t[0].looks > max && t[0].status == RetryLater
  {
    hide Runs, Schedule, PlainEnv;
    env, rows, runs := PlainEnv(), New(max - 1), Schedule(max - 1, max - 1);
    ScheduleEnds(max - 1, max - 1, max);
    assert Table(max - 1, max - 1, 2, max + 1)[0] == Lead(0, RetryLater, 2, max + 1);
  }

  predicate LooksWithin(rows: seq<Row>, max: int) {
    forall i :: 0 <= i < |rows| ==> rows[i].looks <= AtLeastOne(max)
  }

  /** The promise "give up after N attempts" holds of the script exactly for N up to three. */
  lemma BoundIff(max: int)
    ensures (forall env, rows, runs :: Fresh(rows) ==> LooksWithin(Runs(env, rows, runs, max, false), max)) <==> max <= 3
  {
    if max <= 3 {
      forall env, rows, runs | Fresh(rows) ensures LooksWithin(Runs(env, rows, runs, max, false), max) {
        LooksBounded(env, rows, runs, max, false);
      }
    } else {
      var env, rows, runs := BoundFails(max);
      assert !LooksWithin(Runs(env, rows, runs, max, false), max);
    }
  }
}
