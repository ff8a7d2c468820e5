/** scripts/king_rpacct_mailing.py and scripts/king_taxbill_mailing_check.py: two writers that
    repair King mailing addresses from plans that may be arbitrarily old. */
module KingMailing {
  import opened Wrappers

  /** The keys of enrichment_data the scripts use; rest stands for all the others. */
  datatype Fields = Fields(
    source: Option<string>, outcome: Option<string>, deferred: bool, taxBill: Option<string>,
    reason: Option<string>, previous: Option<string>, kcPin: Option<string>, rest: string)

  /** Damaged: an array or a scalar left by an old null-merge bug. */
  datatype Enrichment = Absent | JsonNull | Obj(fields: Fields) | Damaged(content: string)

  /** parcelScope: King, WA and a ten-digit parcel. cvScope: a King code violation whose
      strictly located parcel may carry a mailing address. */
  datatype Row = Row(
    id: nat, user: nat, parcel: Option<string>, property: Option<string>, mailing: Option<string>,
    ed: Enrichment, jobDone: bool, parcelScope: bool, cvScope: bool)

  /** street: _street. echoTail, postalTail: the two regular expressions. */
  datatype Env = Env(street: string -> string, echoTail: string -> bool, postalTail: string -> bool)

  predicate Truthy(s: Option<string>) { s.Some? && s.value != "" }

  /** What the extract says of a parcel: it is found only with an address (king_rpacct.resolve). */
  datatype Resolution = Resolution(found: bool, mailing: Option<string>)
  type Answer = a: Resolution | a.found ==> Truthy(a.mailing) witness Resolution(false, None)

  const EXTRACT_SOURCE := "king_rpacct"
  const TAX_BILL_SOURCE := "king_tax_bill"

  // ---------- blanks ----------

  /** SQL btrim removes spaces, Python strip removes all white space. */
  const SQL_BLANKS: set<char> := {' '}
  const PY_BLANKS: set<char> := {' ', '\t', '\n', '\r'}

  function TrimLeft(s: string, blanks: set<char>): string {
    if s != "" && s[0] in blanks then TrimLeft(s[1..], blanks) else s
  }

  function TrimRight(s: string, blanks: set<char>): string {
    if s != "" && s[|s| - 1] in blanks then TrimRight(s[..|s| - 1], blanks) else s
  }

  function Trim(s: Option<string>, blanks: set<char>): string {
    if s == None then "" else TrimRight(TrimLeft(s.value, blanks), blanks)
  }

  function F(ed: Enrichment): Fields {
    if ed.Obj? then ed.fields else Fields(None, None, false, None, None, None, None, "")
  }

  predicate Sourced(r: Row) { Trim(F(r.ed).source, SQL_BLANKS) != "" }

  // ---------- the extract script ----------

  predicate IsSitusEcho(env: Env, r: Row) {
    Truthy(r.mailing) && Truthy(r.property)
    && Trim(F(r.ed).source, PY_BLANKS) == "" && Trim(F(r.ed).outcome, PY_BLANKS) == ""
    && env.street(r.mailing.value) == env.street(r.property.value) && env.echoTail(r.mailing.value)
  }

  predicate IsTruncated(env: Env, r: Row) {
    Truthy(r.mailing) && Trim(F(r.ed).source, PY_BLANKS) == "" && !env.postalTail(r.mailing.value)
  }

  datatype Pass = TruncatedRepair | TruncatedUnresolved | EchoRepair | EchoUnresolved | DeferredFill
  datatype Decision = Decision(row: Row, pass: Pass, newMail: Option<string>)

  const RETRIABLE: set<string> := {"", "error", "identity_unverified"}

  predicate FoundIn(a: Option<Answer>) { a.Some? && a.value.found }

  /** plan, for one row. */
  function PlanRow(env: Env, r: Row, a: Option<Answer>): Option<Decision> {
    if r.mailing.Some? then
      if IsTruncated(env, r) then
        Some(if FoundIn(a) then Decision(r, TruncatedRepair, a.value.mailing) else Decision(r, TruncatedUnresolved, None))
      else if !IsSitusEcho(env, r) then None
      else Some(if FoundIn(a) then Decision(r, EchoRepair, a.value.mailing) else Decision(r, EchoUnresolved, None))
    else if F(r.ed).deferred && FoundIn(a) && Trim(F(r.ed).source, PY_BLANKS) == ""
            && Trim(F(r.ed).outcome, PY_BLANKS) in RETRIABLE then
      Some(Decision(r, DeferredFill, a.value.mailing))
    else None
  }

  function PlanAll(env: Env, rows: seq<Row>, answer: Row -> Option<Answer>): seq<Decision> {
    if rows == [] then []
    else PlanAll(env, rows[..|rows| - 1], answer)
         + var d := PlanRow(env, rows[|rows| - 1], answer(rows[|rows| - 1])); if d.Some? then [d.value] else []
  }

  /** Decisions of one part of the rows follow those of the part before it. */
  lemma {:induction false} PlanConcat(env: Env, a: seq<Row>, b: seq<Row>, answer: Row -> Option<Answer>)
    ensures PlanAll(env, a + b, answer) == PlanAll(env, a, answer) + PlanAll(env, b, answer)
  {
    if b == [] {
      assert a + b == a;
    } else {
      hide PlanRow;
      PlanConcat(env, a, b[..|b| - 1], answer);
      assert (a + b)[..|a + b| - 1] == a + b[..|b| - 1];
    }
  }

  /** A decision is planned exactly when it is the decision of some row. */
  lemma {:induction false} InPlanAll(env: Env, rows: seq<Row>, answer: Row -> Option<Answer>, d: Decision)
    ensures d in PlanAll(env, rows, answer) <==> d.row in rows && PlanRow(env, d.row, answer(d.row)) == Some(d)
  {
    if rows != [] {
      var n := |rows| - 1;
      InPlanAll(env, rows[..n], answer, d);
      assert rows == rows[..n] + [rows[n]];
    }
  }

  predicate Mergeable(ed: Enrichment) { !ed.Damaged? }

  predicate ExtractGuard(r: Row, d: Decision) {
    && r.id == d.row.id && r.user == d.row.user && r.parcel.Some? && r.parcel == d.row.parcel
    && r.mailing == d.row.mailing && Mergeable(r.ed) && !Sourced(r) && r.jobDone
    && match d.pass
       case EchoRepair => Trim(F(r.ed).outcome, SQL_BLANKS) == "" && r.property == d.row.property
       case TruncatedRepair => r.mailing.Some?
       case DeferredFill => r.mailing == None && F(r.ed).deferred && Trim(F(r.ed).outcome, SQL_BLANKS) in RETRIABLE
       case _ => false
  }

  function ExtractWrite(r: Row, d: Decision): Row {
    var f := F(r.ed).(source := Some(EXTRACT_SOURCE), deferred := false, outcome := Some("found"));
    r.(mailing := d.newMail,
       ed := Obj(match d.pass
                 case EchoRepair => f.(reason := Some("situs_echo"), previous := d.row.mailing)
                 case TruncatedRepair => f.(reason := Some("truncated_taxbill"), previous := d.row.mailing)
                 case _ => f))
  }

  /** One guarded UPDATE: only decisions with an address are sent. */
  function ExtractStep(r: Row, d: Decision): Row {
    if Truthy(d.newMail) && ExtractGuard(r, d) then ExtractWrite(r, d) else r
  }

  // ---------- the tax-bill script ----------

  datatype Kind = Echo | Truncated | CodeViolation

  /** select_candidates, for one row. */
  function Select(env: Env, r: Row, a: Option<Answer>): Option<Kind> {
    if r.parcelScope && r.jobDone && r.parcel.Some? && (r.mailing.Some? || F(r.ed).deferred) && F(r.ed).taxBill == None then
      match PlanRow(env, r, a)
      case Some(Decision(_, EchoUnresolved, _)) => Some(Echo)
      case Some(Decision(_, TruncatedUnresolved, _)) => Some(Truncated)
      case _ => None
    else if r.cvScope && r.jobDone && r.parcel == None && r.mailing == None && F(r.ed).kcPin.Some?
            && !Sourced(r) && F(r.ed).taxBill == None && !FoundIn(a) then Some(CodeViolation)
    else None
  }

  datatype Seen = Found | NoAddress | ParcelUnverified | IdentityUnverified | NotAttempted | NotReached | Failed

  /** What a parcel's tax page said: it is found only when an address was read from it
      (batch_enrich_king_county). trusted: the page is known to be the parcel's. */
  datatype Page = Page(outcome: Seen, trusted: bool, mailing: Option<string>)
  type Lookup = l: Page | l.outcome == Found ==> Truthy(l.mailing) witness Page(Failed, false, None)

  datatype Verdict = Verdict(row: Row, kind: Kind, outcome: Seen, newMail: Option<string>, write: bool)

  function DecideBill(row: Row, kind: Kind, l: Option<Lookup>): Verdict {
    match l
    case None => Verdict(row, kind, NotReached, None, false)
    case Some(page) =>
      var outcome, trusted, mailing := page.outcome, page.trusted, page.mailing;
      var newMail := if outcome == Found && trusted then mailing else None;
      Verdict(row, kind, if outcome == Found && !trusted then ParcelUnverified else outcome, newMail,
              (outcome == NoAddress && trusted) || newMail.Some?)
  }

  function SeenName(s: Seen): string {
    match s case Found => "found" case NoAddress => "none" case ParcelUnverified => "parcel_unverified"
            case IdentityUnverified => "identity_unverified" case NotAttempted => "not_attempted"
            case NotReached => "not_reached" case Failed => "error"
  }

  function Pin(r: Row): string { if F(r.ed).kcPin.Some? then F(r.ed).kcPin.value else "" }

  predicate BillGuard(r: Row, v: Verdict) {
    && r.id == v.row.id && r.user == v.row.user && r.parcel == v.row.parcel && r.mailing == v.row.mailing
    && Mergeable(r.ed) && !Sourced(r) && F(r.ed).taxBill == None
    && (v.kind == CodeViolation ==> Pin(r) == Pin(v.row)) && r.jobDone
  }

  function BillWrite(r: Row, v: Verdict): Row {
    var f := F(r.ed).(taxBill := Some(SeenName(v.outcome)));
    var g := if Truthy(v.newMail) then f.(source := Some(TAX_BILL_SOURCE), deferred := false) else f;
    r.(mailing := if v.newMail.Some? then v.newMail else r.mailing,
       ed := Obj(if Truthy(v.newMail) && Truthy(v.row.mailing)
                 then g.(previous := v.row.mailing,
                         reason := Some(if v.kind == Echo then "situs_echo" else "truncated_taxbill"))
                 else g))
  }

  function BillStep(r: Row, v: Verdict): Row {
    if v.write && BillGuard(r, v) then BillWrite(r, v) else r
  }

  // ---------- any interleaving of both ----------

  /** One statement of one of the scripts. row is what its run read, however long ago. */
  datatype Step =
    | Extract(row: Row, answer: Option<Answer>)
    | Bill(row: Row, answer: Option<Answer>, lookup: Option<Lookup>)

  function After(env: Env, r: Row, s: Step): Row {
    match s
    case Extract(row, a) =>
      var d := PlanRow(env, row, a); if d.Some? then ExtractStep(r, d.value) else r
    case Bill(row, a, l) =>
      var k := Select(env, row, a); if k.Some? then BillStep(r, DecideBill(row, k.value, l)) else r
  }

  lemma SourcesAreSet()
    ensures Trim(Some(EXTRACT_SOURCE), SQL_BLANKS) != "" && Trim(Some(TAX_BILL_SOURCE), SQL_BLANKS) != ""
    ensures Trim(Some(EXTRACT_SOURCE), PY_BLANKS) != "" && Trim(Some(TAX_BILL_SOURCE), PY_BLANKS) != ""
  {
  }

  /** A changed address is sourced, and a sourced row never changes. */
  lemma StepSettles(env: Env, r: Row, s: Step)
    ensures var t := After(env, r, s);
      && (t.mailing != r.mailing ==> Sourced(t) && Truthy(t.mailing) && Trim(F(t.ed).source, PY_BLANKS) != "")
      && (Sourced(r) ==> t == r)
  {
    SourcesAreSet();
    hide Trim, TrimLeft, TrimRight;
  }

  /** A row changes only while it is exactly what the plan read (owner, parcel, address), its
      job is done, and no source is recorded; an echo also still has the property it echoed. */
  lemma WritesAreGuarded(env: Env, r: Row, s: Step)
    requires After(env, r, s) != r
    ensures var t := After(env, r, s);
      && r.id == s.row.id && r.user == s.row.user && r.parcel == s.row.parcel && r.mailing == s.row.mailing
      && r.jobDone && !Sourced(r) && Mergeable(r.ed)
      && (s.Extract? && r.mailing.Some? && Truthy(s.row.property) && !IsTruncated(env, s.row) ==> r.property == s.row.property)
      && (s.Extract? && r.mailing == None ==> F(r.ed).deferred)
      && t == r.(mailing := t.mailing, ed := t.ed)
  {
    hide Trim, TrimLeft, TrimRight;
  }

  /** The county's answer behind a statement: the extract's, or a trusted tax page's. */
  ghost predicate Answers(s: Step, mailing: Option<string>) {
    match s
    case Extract(_, a) => FoundIn(a) && a.value.mailing == mailing
    case Bill(_, a, l) => !FoundIn(a) && l.Some? && l.value.outcome == Found && l.value.trusted && l.value.mailing == mailing
  }

  /** What is written is what the county answered, and only over an address that is an echo, is
      truncated, or is missing; a page that names no address only stamps. */
  lemma WritesAreAnswers(env: Env, r: Row, s: Step)
    requires After(env, r, s).mailing != r.mailing
    ensures Answers(s, After(env, r, s).mailing)
    ensures r.mailing == None || IsTruncated(env, s.row) || IsSitusEcho(env, s.row)
  {
    hide Trim, TrimLeft, TrimRight;
  }

  // ---------- what the statements do, read off the columns ----------

  /** NULL, or nothing but these characters. */
  ghost predicate Blank(o: Option<string>, blanks: set<char>) {
    o.Some? ==> forall k :: 0 <= k < |o.value| ==> o.value[k] in blanks
  }

  /** The word with nothing but these characters around it. */
  ghost predicate Padded(o: Option<string>, w: string, blanks: set<char>) {
    o.Some? && exists p, q :: o.value == p + w + q && Blank(Some(p), blanks) && Blank(Some(q), blanks)
  }

  predicate Solid(w: string, blanks: set<char>) { w != "" && w[0] !in blanks && w[|w| - 1] !in blanks }

  lemma {:induction false} TrimLeftIs(s: string, blanks: set<char>) returns (i: nat)
    ensures i <= |s| && TrimLeft(s, blanks) == s[i..] && Blank(Some(s[..i]), blanks)
    ensures i < |s| ==> s[i] !in blanks
  {
    i := 0;
    if s != "" && s[0] in blanks {
      var k := TrimLeftIs(s[1..], blanks);
      i := k + 1;
      assert s[..i] == [s[0]] + s[1..][..k];
    }
  }

  lemma {:induction false} TrimRightIs(s: string, blanks: set<char>) returns (i: nat)
    ensures i <= |s| && TrimRight(s, blanks) == s[..i] && Blank(Some(s[i..]), blanks)
    ensures i > 0 ==> s[i - 1] !in blanks
  {
    i := |s|;
    if s != "" && s[|s| - 1] in blanks {
      i := TrimRightIs(s[..|s| - 1], blanks);
      assert s[i..] == s[..|s| - 1][i..] + [s[|s| - 1]];
    }
  }

  /** Where the trimmed value lies. */
  lemma TrimCuts(s: string, blanks: set<char>) returns (i: nat, j: nat)
    ensures i <= j <= |s| && Trim(Some(s), blanks) == s[i..j] && Blank(Some(s[..i]), blanks) && Blank(Some(s[j..]), blanks)
    ensures i < j ==> s[i] !in blanks && s[j - 1] !in blanks
  {
    i := TrimLeftIs(s, blanks);
    var k := TrimRightIs(s[i..], blanks);
    j := i + k;
    assert s[j..] == s[i..][k..] && s[i..j] == s[i..][..k];
  }

  lemma TrimEmptyIff(o: Option<string>, blanks: set<char>)
    ensures Trim(o, blanks) == "" <==> Blank(o, blanks)
  {
    if o.Some? {
      var i, j := TrimCuts(o.value, blanks);
      if i == j { assert o.value == o.value[..i] + o.value[j..]; }
    }
  }

  lemma TrimIsIff(o: Option<string>, w: string, blanks: set<char>)
    requires Solid(w, blanks)
    ensures Trim(o, blanks) == w <==> Padded(o, w, blanks)
  {
    if o.Some? {
      var s := o.value;
      var i, j := TrimCuts(s, blanks);
      if s[i..j] == w { assert s == s[..i] + w + s[j..]; }
      if Padded(o, w, blanks) {
        var p, q :| s == p + w + q && Blank(Some(p), blanks) && Blank(Some(q), blanks);
        SameCut(s, p, w, q, i, j, blanks);
      }
    }
  }

  lemma SameCut(s: string, p: string, w: string, q: string, i: nat, j: nat, blanks: set<char>)
    requires Solid(w, blanks) && s == p + w + q && Blank(Some(p), blanks) && Blank(Some(q), blanks)
    requires i <= j <= |s| && Blank(Some(s[..i]), blanks) && Blank(Some(s[j..]), blanks)
    requires i < j ==> s[i] !in blanks && s[j - 1] !in blanks
    ensures s[i..j] == w
  {
    var x, y := |p|, |p| + |w|;
    assert s[x] == w[0] && s[y - 1] == w[|w| - 1] && s[x..y] == w;
    forall k | 0 <= k < x ensures s[k] in blanks { assert s[k] == p[k]; }
    forall k | y <= k < |s| ensures s[k] in blanks { assert s[k] == q[k - y]; }
    forall k | 0 <= k < i ensures s[k] in blanks { assert s[k] == s[..i][k]; }
    forall k | j <= k < |s| ensures s[k] in blanks { assert s[k] == s[j..][k - j]; }
    hide *;
    OneCut(s, blanks, i, j, x, y);
  }

  lemma OneCut(s: string, blanks: set<char>, i: nat, j: nat, x: nat, y: nat)
    requires i <= j <= |s| && x < y <= |s|
    requires forall k :: 0 <= k < i || j <= k < |s| ==> s[k] in blanks
    requires forall k :: 0 <= k < x || y <= k < |s| ==> s[k] in blanks
    requires i < j ==> s[i] !in blanks && s[j - 1] !in blanks
    requires s[x] !in blanks && s[y - 1] !in blanks
    ensures i == x && j == y
  {
  }

  /** Nothing recorded, or an outcome that is to be tried again. */
  ghost predicate Retriable(o: Option<string>, blanks: set<char>) {
    Blank(o, blanks) || Padded(o, "error", blanks) || Padded(o, "identity_unverified", blanks)
  }

  lemma RetriableIff(o: Option<string>, blanks: set<char>)
    requires blanks == SQL_BLANKS || blanks == PY_BLANKS
    ensures Trim(o, blanks) in RETRIABLE <==> Retriable(o, blanks)
  {
    TrimEmptyIff(o, blanks);
    assert "error"[0] == 'e' && "error"[4] == 'r' && "identity_unverified"[0] == 'i' && "identity_unverified"[18] == 'd';
    TrimIsIff(o, "error", blanks);
    TrimIsIff(o, "identity_unverified", blanks);
    hide Trim, Padded, Blank;
  }

  /** A stored address with no recorded source that does not end in a postal code. */
  ghost predicate CutOff(env: Env, r: Row) {
    && r.mailing.Some? && r.mailing.value != "" && Blank(F(r.ed).source, PY_BLANKS) && !env.postalTail(r.mailing.value)
  }

  /** A stored address with neither source nor outcome recorded, on the property's own street and
      with the tail the old copies have. */
  ghost predicate Echoes(env: Env, r: Row) {
    && r.mailing.Some? && r.mailing.value != "" && r.property.Some? && r.property.value != ""
    && Blank(F(r.ed).source, PY_BLANKS) && Blank(F(r.ed).outcome, PY_BLANKS)
    && env.street(r.mailing.value) == env.street(r.property.value) && env.echoTail(r.mailing.value)
  }

  /** No address, marked deferred, and nothing recorded that would settle it. */
  ghost predicate Awaits(r: Row, blanks: set<char>) {
    r.mailing == None && F(r.ed).deferred && Blank(F(r.ed).source, blanks) && Retriable(F(r.ed).outcome, blanks)
  }

  /** The pass of every row: which rows are planned, for what, and with which address. */
  lemma PassIff(env: Env, r: Row, a: Option<Answer>)
    ensures var p := PlanRow(env, r, a);
      var pass := if p.Some? then Some(p.value.pass) else None;
      var found := a.Some? && a.value.found;
      && (pass == Some(TruncatedRepair) <==> CutOff(env, r) && found)
      && (pass == Some(TruncatedUnresolved) <==> CutOff(env, r) && !found)
      && (pass == Some(EchoRepair) <==> !CutOff(env, r) && Echoes(env, r) && found)
      && (pass == Some(EchoUnresolved) <==> !CutOff(env, r) && Echoes(env, r) && !found)
      && (pass == Some(DeferredFill) <==> Awaits(r, PY_BLANKS) && found)
      && (p.Some? ==> p.value.row == r)
      && (p.Some? && (pass == Some(TruncatedUnresolved) || pass == Some(EchoUnresolved)) ==> p.value.newMail == None)
      && (p.Some? && pass != Some(TruncatedUnresolved) && pass != Some(EchoUnresolved) ==> p.value.newMail == a.value.mailing)
  {
    TrimEmptyIff(F(r.ed).source, PY_BLANKS);
    TrimEmptyIff(F(r.ed).outcome, PY_BLANKS);
    RetriableIff(F(r.ed).outcome, PY_BLANKS);
    hide Trim, Blank, Retriable;
  }

  /** The row is still what the plan read, its job is done, and its metadata is whole and names
      no source. */
  ghost predicate StillAsRead(r: Row, row: Row) {
    && r.id == row.id && r.user == row.user && r.parcel == row.parcel && r.mailing == row.mailing
    && r.jobDone && !r.ed.Damaged? && Blank(F(r.ed).source, SQL_BLANKS)
  }

  /** A statement of the extract script writes exactly when the county has an address, the row
      was planned and is still as read; and then it writes this. */
  lemma ExtractWritesIff(env: Env, r: Row, row: Row, a: Option<Answer>)
    ensures var t := After(env, r, Extract(row, a));
      var echo := !CutOff(env, row) && Echoes(env, row);
      && (t != r <==>
            && a.Some? && a.value.found && StillAsRead(r, row) && r.parcel.Some?
            && (CutOff(env, row)
                || (echo && r.property == row.property && Blank(F(r.ed).outcome, SQL_BLANKS))
                || (Awaits(row, PY_BLANKS) && F(r.ed).deferred && Retriable(F(r.ed).outcome, SQL_BLANKS))))
      && (t != r ==>
            && t == r.(mailing := a.value.mailing, ed := t.ed) && t.ed.Obj?
            && t.ed.fields == F(r.ed).(source := Some("king_rpacct"), deferred := false, outcome := Some("found"),
                 previous := if row.mailing.Some? then row.mailing else F(r.ed).previous,
                 reason := if CutOff(env, row) then Some("truncated_taxbill")
                           else if echo then Some("situs_echo") else F(r.ed).reason))
  {
    PassIff(env, row, a);
    TrimEmptyIff(F(r.ed).source, SQL_BLANKS);
    TrimEmptyIff(F(r.ed).outcome, SQL_BLANKS);
    RetriableIff(F(r.ed).outcome, SQL_BLANKS);
    SourcesAreSet();
    hide Trim, Blank, Retriable, PlanRow, CutOff, Echoes;
  }

  /** The two scripts' notions of blank differ: a source that is one tab is none to the planner, and
      one to the statement, so the planned row is never written; one that is a space is none to both. */
  lemma TabIsASource(env: Env, r: Row, a: Option<Answer>)
    requires F(r.ed).source == Some("\t") || F(r.ed).source == Some("\n") || F(r.ed).source == Some("\r")
    ensures Blank(F(r.ed).source, PY_BLANKS) && !Blank(F(r.ed).source, SQL_BLANKS)
    ensures Blank(Some(" "), PY_BLANKS) && Blank(Some(" "), SQL_BLANKS)
    ensures forall row: Row :: After(env, r, Extract(row, a)) == r
  {
    assert F(r.ed).source.value[0] !in SQL_BLANKS;
    forall row: Row ensures After(env, r, Extract(row, a)) == r {
      ExtractWritesIff(env, r, row, a);
      hide After;
    }
  }

  /** Why the tax-bill script looks a row up: the extract left it unresolved, or it is a located
      code violation with neither address nor source. */
  lemma SelectIff(env: Env, r: Row, a: Option<Answer>)
    ensures var k := Select(env, r, a);
      var found := a.Some? && a.value.found;
      var open := r.jobDone && F(r.ed).taxBill == None && !found;
      && (k == Some(Truncated) <==> open && r.parcelScope && r.parcel.Some? && CutOff(env, r))
      && (k == Some(Echo) <==> open && r.parcelScope && r.parcel.Some? && !CutOff(env, r) && Echoes(env, r))
      && (k == Some(CodeViolation) <==>
            open && r.cvScope && r.parcel == None && r.mailing == None && F(r.ed).kcPin.Some? && Blank(F(r.ed).source, SQL_BLANKS))
  {
    PassIff(env, r, a);
    TrimEmptyIff(F(r.ed).source, SQL_BLANKS);
    hide Trim, Blank, PlanRow, Retriable;
  }

  /** A statement of the tax-bill script writes exactly when the row was selected, a trusted page
      named an address or said there is none, and the row is still as read and not stamped. */
  lemma BillWritesIff(env: Env, r: Row, row: Row, a: Option<Answer>, l: Option<Lookup>)
    ensures var t := After(env, r, Bill(row, a, l));
      var k := Select(env, row, a);
      && (t != r <==>
            && k.Some? && l.Some? && l.value.trusted && (l.value.outcome == Found || l.value.outcome == NoAddress)
            && StillAsRead(r, row) && F(r.ed).taxBill == None
            && (k == Some(CodeViolation) ==> Pin(r) == Pin(row)))
      && (t != r && l.value.outcome == NoAddress ==> t == r.(ed := Obj(F(r.ed).(taxBill := Some("none")))))
      && (t != r && l.value.outcome == Found ==>
            && t == r.(mailing := l.value.mailing, ed := t.ed) && t.ed.Obj?
            && t.ed.fields == F(r.ed).(source := Some("king_tax_bill"), deferred := false, taxBill := Some("found"),
                 previous := if Truthy(row.mailing) then row.mailing else F(r.ed).previous,
                 reason := if !Truthy(row.mailing) then F(r.ed).reason
                           else if k == Some(Echo) then Some("situs_echo") else Some("truncated_taxbill")))
  {
    TrimEmptyIff(F(r.ed).source, SQL_BLANKS);
    hide Trim, Blank, Select;
  }

  ghost predicate IsRun(env: Env, ws: seq<Row>, ss: seq<Step>) {
    |ws| == |ss| + 1 && forall n :: 0 <= n < |ss| ==> ws[n + 1] == After(env, ws[n], ss[n])
  }

  lemma {:induction false} SourcedStays(env: Env, ws: seq<Row>, ss: seq<Step>, i: nat, j: nat)
    requires IsRun(env, ws, ss) && i <= j < |ws| && Sourced(ws[i])
    ensures ws[j] == ws[i]
    decreases j - i
  {
    if i < j {
      StepSettles(env, ws[i], ss[i]);
      SourcedStays(env, ws, ss, i + 1, j);
    }
  }

  /** Over any interleaving of both scripts with arbitrarily stale plans a mailing address
      changes at most once, and a row with a non-empty mailing_source never changes at all. */
  lemma WriteOnce(env: Env, ws: seq<Row>, ss: seq<Step>, i: nat, j: nat)
    requires IsRun(env, ws, ss) && i < |ss| && j < |ss|
    ensures ws[i].mailing != ws[i + 1].mailing && ws[j].mailing != ws[j + 1].mailing ==> i == j
    ensures Sourced(ws[i]) && i <= j ==> ws[j] == ws[i]
  {
    hide After, Sourced;
    if i != j && ws[i].mailing != ws[i + 1].mailing && ws[j].mailing != ws[j + 1].mailing {
      var a, b := if i < j then i else j, if i < j then j else i;
      StepSettles(env, ws[a], ss[a]);
      SourcedStays(env, ws, ss, a + 1, b);
      SourcedStays(env, ws, ss, a + 1, b + 1);
    }
    if Sourced(ws[i]) && i <= j {
      SourcedStays(env, ws, ss, i, j);
    }
  }

  /** A statement that replaces an address keeps the old one in mailing_repair_previous. */
  lemma PreviousKept(env: Env, r: Row, s: Step)
    requires After(env, r, s).mailing != r.mailing && r.mailing.Some?
    ensures Truthy(r.mailing) && F(After(env, r, s).ed).previous == r.mailing
  {
    hide Trim, TrimLeft, TrimRight;
  }

  /** Kept for good: what was replaced stays readable to the end of the run. */
  lemma PreviousStays(env: Env, ws: seq<Row>, ss: seq<Step>, i: nat, j: nat)
    requires IsRun(env, ws, ss) && i < |ss| && i < j < |ws|
    requires ws[i].mailing.Some? && ws[i + 1].mailing != ws[i].mailing
    ensures F(ws[j].ed).previous == ws[i].mailing && ws[j].mailing == ws[i + 1].mailing && Truthy(ws[j].mailing)
  {
    hide After, Sourced;
    PreviousKept(env, ws[i], ss[i]);
    StepSettles(env, ws[i], ss[i]);
    SourcedStays(env, ws, ss, i + 1, j);
  }

  /** Nothing is lost over any run: a row ends with the address it began with, or its one new
      address is a county answer and what it began with is in mailing_repair_previous. */
  lemma {:induction false} NothingIsLost(env: Env, ws: seq<Row>, ss: seq<Step>)
    requires IsRun(env, ws, ss)
    ensures var first, last := ws[0], ws[|ss|];
      last.mailing == first.mailing || (
        && Truthy(last.mailing) && Sourced(last)
        && (first.mailing.Some? ==> F(last.ed).previous == first.mailing)
        && exists n :: 0 <= n < |ss| && Answers(ss[n], last.mailing))
  {
    if ss != [] {
      hide After, Sourced, Truthy, FoundIn;
      var n := |ss| - 1;
      assert IsRun(env, ws[..n + 1], ss[..n]);
      NothingIsLost(env, ws[..n + 1], ss[..n]);
      StepSettles(env, ws[n], ss[n]);
      if ws[n].mailing == ws[0].mailing {
        if ws[n + 1].mailing != ws[n].mailing {
          WritesAreAnswers(env, ws[n], ss[n]);
          if ws[0].mailing.Some? { PreviousKept(env, ws[n], ss[n]); }
        }
      } else {
        var k :| 0 <= k < n && Answers(ss[..n][k], ws[n].mailing);
        assert Answers(ss[k], ws[n].mailing);
      }
    }
  }

  /** After a row is written neither script ever plans it again, whatever the sources answer;
      a row that was only stamped is never selected for the tax bill again. */
  lemma NoLaterPlan(env: Env, r: Row, s: Step, a: Option<Answer>)
    requires After(env, r, s) != r
    ensures var t := After(env, r, s);
      && (t.mailing != r.mailing ==> PlanRow(env, t, a) == None && Select(env, t, a) == None)
      && (s.Bill? ==> Select(env, t, a) == None)
      && Mergeable(r.ed) && t.ed.Obj?
  {
    StepSettles(env, r, s);
    hide Trim, TrimLeft, TrimRight;
  }

  // ---------- whole tables ----------

  /** A statement names one id; the guard makes it a no-op for every other row. */
  function TableAfter(env: Env, t: map<nat, Row>, s: Step): map<nat, Row> {
    map id | id in t :: After(env, t[id], s)
  }

  ghost predicate Keyed(t: map<nat, Row>) { forall id :: id in t ==> t[id].id == id }

  lemma OnlyItsRow(env: Env, t: map<nat, Row>, s: Step)
    requires Keyed(t)
    ensures Keyed(TableAfter(env, t, s))
    ensures TableAfter(env, t, s) == if s.row.id in t then t[s.row.id := After(env, t[s.row.id], s)] else t
  {
    hide Trim, TrimLeft, TrimRight, IsTruncated, IsSitusEcho;
  }

  function TableAfterAll(env: Env, t: map<nat, Row>, ss: seq<Step>): map<nat, Row> {
    if ss == [] then t else TableAfter(env, TableAfterAll(env, t, ss[..|ss| - 1]), ss[|ss| - 1])
  }

  /** Every row of a table run lives through a row run, so the laws above hold of each. */
  lemma {:induction false} TableProjects(env: Env, t: map<nat, Row>, ss: seq<Step>, id: nat) returns (ws: seq<Row>)
    requires id in t
    ensures IsRun(env, ws, ss) && ws[0] == t[id]
    ensures id in TableAfterAll(env, t, ss) && TableAfterAll(env, t, ss)[id] == ws[|ss|]
  {
    if ss == [] {
      ws := [t[id]];
    } else {
      var n := |ss| - 1;
      var front := TableProjects(env, t, ss[..n], id);
      ws := front + [After(env, front[n], ss[n])];
      forall k | 0 <= k < |ss| ensures ws[k + 1] == After(env, ws[k], ss[k]) {
        if k < n { assert ss[..n][k] == ss[k]; }
      }
    }
  }

  // ---------- the scripts' loops ----------

  method Plan(env: Env, rows: seq<Row>, answer: Row -> Option<Answer>) returns (decisions: seq<Decision>)
    ensures decisions == PlanAll(env, rows, answer)
  {
    decisions := [];
    for n := 0 to |rows|
      invariant decisions == PlanAll(env, rows[..n], answer)
    {
      assert rows[..n + 1][..n] == rows[..n];
      var d := PlanRow(env, rows[n], answer(rows[n]));
      if d.Some? { decisions := decisions + [d.value]; }
    }
    assert rows[..|rows|] == rows;
  }

  function ExtractAll(t: map<nat, Row>, ds: seq<Decision>): map<nat, Row> {
    if ds == [] then t
    else var u := ExtractAll(t, ds[..|ds| - 1]);
         map id | id in u :: ExtractStep(u[id], ds[|ds| - 1])
  }

  /** How many of the statements hit: each on the table the ones before it left. */
  function ExtractHits(t: map<nat, Row>, ds: seq<Decision>): nat {
    if ds == [] then 0
    else var u, d := ExtractAll(t, ds[..|ds| - 1]), ds[|ds| - 1];
         ExtractHits(t, ds[..|ds| - 1])
         + if Truthy(d.newMail) && d.row.id in u && ExtractGuard(u[d.row.id], d) then 1 else 0
  }

  function WithAddress(ds: seq<Decision>): nat {
    if ds == [] then 0 else WithAddress(ds[..|ds| - 1]) + if Truthy(ds[|ds| - 1].newMail) then 1 else 0
  }

  lemma ExtractHitsOne(u: map<nat, Row>, d: Decision)
    requires Keyed(u)
    ensures (map id | id in u :: ExtractStep(u[id], d))
         == if d.row.id in u then u[d.row.id := ExtractStep(u[d.row.id], d)] else u
  {
  }

  function BillAll(t: map<nat, Row>, vs: seq<Verdict>): map<nat, Row> {
    if vs == [] then t
    else var u := BillAll(t, vs[..|vs| - 1]);
         map id | id in u :: BillStep(u[id], vs[|vs| - 1])
  }

  function BillHits(t: map<nat, Row>, vs: seq<Verdict>): nat {
    if vs == [] then 0
    else var u, v := BillAll(t, vs[..|vs| - 1]), vs[|vs| - 1];
         BillHits(t, vs[..|vs| - 1]) + if v.write && v.row.id in u && BillGuard(u[v.row.id], v) then 1 else 0
  }

  function ToWrite(vs: seq<Verdict>): nat {
    if vs == [] then 0 else ToWrite(vs[..|vs| - 1]) + if vs[|vs| - 1].write then 1 else 0
  }

  lemma BillHitsOne(u: map<nat, Row>, v: Verdict)
    requires Keyed(u)
    ensures (map id | id in u :: BillStep(u[id], v))
         == if v.row.id in u then u[v.row.id := BillStep(u[v.row.id], v)] else u
  {
  }

  /** What the loops do is a run of the model's statements: the laws apply to them. */
  lemma {:induction false} ExtractsAreSteps(env: Env, t: map<nat, Row>, ds: seq<Decision>, ss: seq<Step>)
    requires |ss| == |ds|
    requires forall n :: 0 <= n < |ds| ==> ss[n].Extract? && PlanRow(env, ss[n].row, ss[n].answer) == Some(ds[n])
    ensures ExtractAll(t, ds) == TableAfterAll(env, t, ss)
  {
    if ds != [] {
      hide PlanRow, ExtractStep;
      var n := |ds| - 1;
      ExtractsAreSteps(env, t, ds[..n], ss[..n]);
    }
  }

  lemma {:induction false} BillsAreSteps(env: Env, t: map<nat, Row>, vs: seq<Verdict>, ss: seq<Step>)
    requires |ss| == |vs|
    requires forall n :: 0 <= n < |vs| ==>
      ss[n].Bill? && Select(env, ss[n].row, ss[n].answer).Some?
      && vs[n] == DecideBill(ss[n].row, Select(env, ss[n].row, ss[n].answer).value, ss[n].lookup)
    ensures BillAll(t, vs) == TableAfterAll(env, t, ss)
  {
    if vs != [] {
      hide Select, BillStep, DecideBill;
      var n := |vs| - 1;
      BillsAreSteps(env, t, vs[..n], ss[..n]);
    }
  }

  class KingTable {
    var rows: map<nat, Row>

    /** The other script's apply: one guarded statement per verdict worth writing. */
    method ApplyBills(verdicts: seq<Verdict>) returns (written: nat, skipped: nat)
      requires Keyed(rows)
      modifies this
      ensures Keyed(rows) && rows == BillAll(old(rows), verdicts)
      ensures written == BillHits(old(rows), verdicts) && written + skipped == ToWrite(verdicts)
    {
      written, skipped := 0, 0;
      ghost var start := rows;
      for n := 0 to |verdicts|
        invariant Keyed(rows) && rows == BillAll(start, verdicts[..n])
        invariant written == BillHits(start, verdicts[..n]) && written + skipped == ToWrite(verdicts[..n])
      {
        var v := verdicts[n];
        assert verdicts[..n + 1][..n] == verdicts[..n];
        BillHitsOne(rows, v);
        if v.write {
          if v.row.id in rows && BillGuard(rows[v.row.id], v) {
            rows, written := rows[v.row.id := BillWrite(rows[v.row.id], v)], written + 1;
          } else {
            skipped := skipped + 1;
          }
        } else {
          assert rows == map id | id in rows :: BillStep(rows[id], v);
        }
      }
      assert verdicts[..|verdicts|] == verdicts;
    }

    /** apply: one guarded statement per decision that has an address; the counters add up. */
    method Apply(decisions: seq<Decision>) returns (written: nat, skipped: nat, left: nat)
      requires Keyed(rows)
      modifies this
      ensures Keyed(rows) && rows == ExtractAll(old(rows), decisions)
      ensures written == ExtractHits(old(rows), decisions) && written + skipped == WithAddress(decisions)
      ensures written + skipped + left == |decisions|
    {
      written, skipped, left := 0, 0, 0;
      ghost var start := rows;
      for n := 0 to |decisions|
        invariant Keyed(rows) && rows == ExtractAll(start, decisions[..n])
        invariant written == ExtractHits(start, decisions[..n]) && written + skipped == WithAddress(decisions[..n])
        invariant written + skipped + left == n
      {
        var d := decisions[n];
        assert decisions[..n + 1][..n] == decisions[..n];
        ExtractHitsOne(rows, d);
        if !Truthy(d.newMail) {
          left := left + 1;
          assert rows == map id | id in rows :: ExtractStep(rows[id], d);
        } else if d.row.id in rows && ExtractGuard(rows[d.row.id], d) {
          rows, written := rows[d.row.id := ExtractWrite(rows[d.row.id], d)], written + 1;
        } else {
          skipped := skipped + 1;
        }
      }
      assert decisions[..|decisions|] == decisions;
    }
  }
}
