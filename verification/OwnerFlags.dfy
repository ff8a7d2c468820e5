/** scripts/backfill_owner_flags.py: an OFFSET that walks a window which shrinks under it as
    chunks commit, and that has to survive dropped connections. */
module OwnerFlags {
  import opened Wrappers
  import opened Seqs

  datatype Flags = Flags(
    propertyState: Option<string>, ownerState: Option<string>, absentee: Option<bool>, outOfState: Option<bool>)

  datatype Lead = Lead(id: nat, property: Option<string>, mailing: Option<string>, flags: Flags)

  /** compute_owner_flags: any pure function of the two addresses. */
  type Compute = (Option<string>, Option<string>) -> Flags

  const ALL_NULL := Flags(None, None, None, None)

  function Computed(f: Compute, r: Lead): Flags { f(r.property, r.mailing) }

  function Fill(f: Compute, r: Lead): Lead { r.(flags := Computed(f, r)) }

  predicate Computable(f: Compute, r: Lead) { Computed(f, r) != ALL_NULL }

  /** The _SELECT window, in id order. */
  function Window(rows: seq<Lead>): seq<Lead> {
    if rows == [] then []
    else (if rows[0].flags == ALL_NULL then [rows[0]] else []) + Window(rows[1..])
  }

  lemma {:induction false} InWindow(rows: seq<Lead>, r: Lead)
    ensures r in Window(rows) <==> r in rows && r.flags == ALL_NULL
  {
    if rows != [] { InWindow(rows[1..], r); }
  }

  /** LIMIT and OFFSET. */
  function Page(w: seq<Lead>, limit: nat, offset: nat): (p: seq<Lead>)
    ensures offset <= |w| ==> offset + |p| <= |w| && p == w[offset..offset + |p|]
    ensures |p| <= limit && (limit > 0 && offset < |w| ==> |p| > 0)
  {
    if offset > |w| then [] else if offset + limit <= |w| then w[offset..offset + limit] else w[offset..]
  }

  function One(b: bool): nat { if b then 1 else 0 }

  function CountComputable(f: Compute, s: seq<Lead>): nat {
    if s == [] then 0 else One(Computable(f, s[0])) + CountComputable(f, s[1..])
  }

  lemma {:induction false} CountConcat(f: Compute, a: seq<Lead>, b: seq<Lead>)
    ensures CountComputable(f, a + b) == CountComputable(f, a) + CountComputable(f, b)
  {
    if a == [] {
      assert a + b == b;
    } else {
      ConcatTail(a, b);
      CountConcat(f, a[1..], b);
    }
  }

  lemma CountOneMore(f: Compute, s: seq<Lead>, n: nat)
    requires n < |s|
    ensures CountComputable(f, s[..n + 1]) == CountComputable(f, s[..n]) + One(Computable(f, s[n]))
  {
    assert s[..n + 1] == s[..n] + [s[n]];
    CountConcat(f, s[..n], [s[n]]);
  }

  ghost predicate IdsUnique(rows: seq<Lead>) {
    forall i, j :: 0 <= i < j < |rows| ==> rows[i].id != rows[j].id
  }

  /** UPDATE ... WHERE id = :id. */
  function Update(rows: seq<Lead>, id: nat, flags: Flags): (r: seq<Lead>)
    ensures |r| == |rows|
    ensures forall i :: 0 <= i < |rows| ==> r[i] == if rows[i].id == id then rows[i].(flags := flags) else rows[i]
  {
    seq(|rows|, i requires 0 <= i < |rows| => if rows[i].id == id then rows[i].(flags := flags) else rows[i])
  }

  /** What the window keeps when the computable rows with these ids are written. */
  function Kept(f: Compute, w: seq<Lead>, ids: set<nat>): seq<Lead> {
    if w == [] then []
    else (if w[0].id in ids && Computable(f, w[0]) then [] else [w[0]]) + Kept(f, w[1..], ids)
  }

  lemma {:induction false} KeptUncomputable(f: Compute, w: seq<Lead>, ids: set<nat>)
    requires forall r :: r in w ==> r.id in ids
    ensures forall k :: 0 <= k < |Kept(f, w, ids)| ==> !Computable(f, Kept(f, w, ids)[k])
  {
    if w != [] { KeptUncomputable(f, w[1..], ids); }
  }

  lemma {:induction false} KeptConcat(f: Compute, a: seq<Lead>, b: seq<Lead>, ids: set<nat>)
    ensures Kept(f, a + b, ids) == Kept(f, a, ids) + Kept(f, b, ids)
  {
    if a == [] {
      assert a + b == b;
    } else {
      ConcatTail(a, b);
      KeptConcat(f, a[1..], b, ids);
      Assoc(if a[0].id in ids && Computable(f, a[0]) then [] else [a[0]], Kept(f, a[1..], ids), Kept(f, b, ids));
    }
  }

  lemma {:induction false} KeptAll(f: Compute, w: seq<Lead>, ids: set<nat>)
    requires forall r :: r in w ==> r.id !in ids || !Computable(f, r)
    ensures Kept(f, w, ids) == w
  {
    if w != [] { KeptAll(f, w[1..], ids); }
  }

  lemma {:induction false} KeptSize(f: Compute, w: seq<Lead>, ids: set<nat>)
    requires forall r :: r in w ==> r.id in ids
    ensures |Kept(f, w, ids)| + CountComputable(f, w) == |w|
  {
    if w != [] { KeptSize(f, w[1..], ids); }
  }

  predicate Written(f: Compute, was: Lead, now: Lead, ids: set<nat>) {
    now == if was.id in ids && was.flags == ALL_NULL then Fill(f, was) else was
  }

  ghost predicate Sent(f: Compute, before: seq<Lead>, after: seq<Lead>, ids: set<nat>) {
    && |before| == |after|
    && forall i :: 0 <= i < |before| ==> Written(f, before[i], after[i], ids)
  }

  lemma {:induction false} WindowAfter(f: Compute, before: seq<Lead>, after: seq<Lead>, ids: set<nat>)
    requires Sent(f, before, after, ids)
    ensures Window(after) == Kept(f, Window(before), ids)
  {
    if before != [] {
      var r := before[0];
      assert Written(f, r, after[0], ids);
      WindowAfter(f, before[1..], after[1..], ids);
      var rest := Window(before[1..]);
      if r.flags == ALL_NULL {
        assert ([r] + rest)[1..] == rest;
        assert Kept(f, [r] + rest, ids)
            == (if r.id in ids && Computable(f, r) then [] else [r]) + Kept(f, rest, ids);
      } else {
        assert Window(before) == rest;
      }
    }
  }

  function Ids(s: seq<Lead>): set<nat> { set r | r in s :: r.id }

  lemma {:induction false} WindowUnique(rows: seq<Lead>)
    requires IdsUnique(rows)
    ensures IdsUnique(Window(rows))
  {
    if rows != [] {
      WindowUnique(rows[1..]);
      forall r | r in Window(rows[1..]) ensures r.id != rows[0].id { InWindow(rows[1..], r); }
    }
  }

  /** LIMIT and OFFSET cut the window in three. */
  lemma PageSplits(w: seq<Lead>, limit: nat, offset: nat)
    requires offset <= |w|
    ensures var p := Page(w, limit, offset);
      w == w[..offset] + p + w[offset + |p|..] && w[offset..] == p + w[offset + |p|..]
  {
  }

  lemma TailNotInPage(w: seq<Lead>, limit: nat, offset: nat)
    requires IdsUnique(w) && offset <= |w|
    ensures var p := Page(w, limit, offset); forall r :: r in w[offset + |p|..] ==> r.id !in Ids(p)
  {
    var p := Page(w, limit, offset);
    forall r | r in w[offset + |p|..] ensures r.id !in Ids(p) {
      var i :| offset + |p| <= i < |w| && w[i] == r;
      forall j | 0 <= j < |p| ensures p[j].id != r.id {
        assert w[offset + j] == p[j];
      }
    }
  }

  /** The moving window: committing one page takes its computable rows out and leaves the
      rest of the window in place. */
  lemma PageCommitted(f: Compute, before: seq<Lead>, after: seq<Lead>, limit: nat, offset: nat)
    requires IdsUnique(before) && offset <= |Window(before)|
    requires Sent(f, before, after, Ids(Page(Window(before), limit, offset)))
    requires forall k :: 0 <= k < offset ==> !Computable(f, Window(before)[k])
    ensures var w, p := Window(before), Page(Window(before), limit, offset);
      var kept := Kept(f, p, Ids(p));
      && |kept| + CountComputable(f, p) == |p|
      && Window(after) == w[..offset] + kept + w[offset + |p|..]
  {
    hide Sent, Computable, IdsUnique;
    var w := Window(before);
    var p := Page(w, limit, offset);
    var head, tail := w[..offset], w[offset + |p|..];
    WindowUnique(before);
    WindowAfter(f, before, after, Ids(p));
    PageSplits(w, limit, offset);
    TailNotInPage(w, limit, offset);
    KeptConcat(f, head + p, tail, Ids(p));
    KeptConcat(f, head, p, Ids(p));
    KeptAll(f, head, Ids(p));
    KeptAll(f, tail, Ids(p));
    KeptSize(f, p, Ids(p));
  }

  /** How one chunk ends: well; with the connection lost after some rows were evaluated and
      nothing committed, raises telling whether it was the UPDATE of the last of them that
      failed; or lost after the commit but before the offset moved. */
  datatype Fault = Fine | Lost(evaluated: nat, raises: bool) | CommittedThenLost

  datatype Totals = Totals(propertyState: nat, ownerState: nat, absentee: nat, outOfState: nat)

  predicate Truthy(s: Option<string>) { s.Some? && s.value != "" }

  function AddTotals(t: Totals, g: Flags): Totals {
    Totals(t.propertyState + One(Truthy(g.propertyState)), t.ownerState + One(Truthy(g.ownerState)),
           t.absentee + One(g.absentee.Some?), t.outOfState + One(g.outOfState.Some?))
  }

  function TotalsOf(f: Compute, log: seq<Lead>): Totals {
    if log == [] then Totals(0, 0, 0, 0)
    else AddTotals(TotalsOf(f, log[..|log| - 1]), Computed(f, log[|log| - 1]))
  }

  datatype Column = PropertyState | OwnerState | Absentee | OutOfState

  predicate Known(g: Flags, c: Column) {
    match c
    case PropertyState => g.propertyState.Some? && g.propertyState.value != ""
    case OwnerState => g.ownerState.Some? && g.ownerState.value != ""
    case Absentee => g.absentee.Some?
    case OutOfState => g.outOfState.Some?
  }

  function Hits(f: Compute, log: seq<Lead>, c: Column): set<nat> {
    set i: nat | i < |log| && Known(Computed(f, log[i]), c)
  }

  lemma InHits(f: Compute, log: seq<Lead>, c: Column, i: nat)
    requires log != []
    ensures var n := |log| - 1;
      && (i in Hits(f, log[..n], c) ==> i != n)
      && (i in Hits(f, log, c) <==> i in Hits(f, log[..n], c) || (i == n && Known(Computed(f, log[n]), c)))
  {
    hide Known, Computed;
  }

  lemma HitsOneMore(f: Compute, log: seq<Lead>, c: Column)
    requires log != []
    ensures |Hits(f, log, c)| == |Hits(f, log[..|log| - 1], c)| + One(Known(Computed(f, log[|log| - 1]), c))
  {
    hide Known, Computed, Hits;
    var n := |log| - 1;
    var before, more := Hits(f, log[..n], c), if Known(Computed(f, log[n]), c) then {n} else {};
    forall i: nat ensures (i in Hits(f, log, c) <==> i in before + more) && !(i in before && i in more) {
      InHits(f, log, c, i);
    }
    assert Hits(f, log, c) == before + more && before !! more;
  }

  function Total(t: Totals, c: Column): nat {
    match c
    case PropertyState => t.propertyState
    case OwnerState => t.ownerState
    case Absentee => t.absentee
    case OutOfState => t.outOfState
  }

  lemma AddOne(t: Totals, g: Flags, c: Column)
    ensures Total(AddTotals(t, g), c) == Total(t, c) + One(Known(g, c))
  {
  }

  /** Each printed total is the number of evaluated rows whose flag is known: a state by its
      non-empty text, the two booleans by not being NULL. */
  lemma {:induction false} TotalsCount(f: Compute, log: seq<Lead>, c: Column)
    ensures Total(TotalsOf(f, log), c) == |Hits(f, log, c)|
  {
    if log == [] {
      assert Hits(f, log, c) == {};
    } else {
      var front, last := log[..|log| - 1], log[|log| - 1];
      assert TotalsOf(f, log) == AddTotals(TotalsOf(f, front), Computed(f, last));
      hide *;
      TotalsCount(f, front, c);
      HitsOneMore(f, log, c);
      AddOne(TotalsOf(f, front), Computed(f, last), c);
    }
  }

  /** The table the backfill is for. */
  function Filled(f: Compute, rows: seq<Lead>): seq<Lead> {
    seq(|rows|, i requires 0 <= i < |rows| => if rows[i].flags == ALL_NULL then Fill(f, rows[i]) else rows[i])
  }

  /** Column by column: a row with all four flags NULL ends with what the two addresses, property
      first, say; every other row is left alone. */
  lemma FilledIs(f: Compute, rows: seq<Lead>, i: nat)
    requires i < |rows|
    ensures |Filled(f, rows)| == |rows|
    ensures var r, t := rows[i], Filled(f, rows)[i];
      var open := r.flags.propertyState == None && r.flags.ownerState == None && r.flags.absentee == None && r.flags.outOfState == None;
      t == if open then r.(flags := f(r.property, r.mailing)) else r
  {
  }

  /** So are the totals. */
  lemma TotalsRead(f: Compute, log: seq<Lead>)
    ensures var t := TotalsOf(f, log);
      && t.propertyState == |set i: nat | i < |log| && Said(f(log[i].property, log[i].mailing).propertyState)|
      && t.ownerState == |set i: nat | i < |log| && Said(f(log[i].property, log[i].mailing).ownerState)|
      && t.absentee == |set i: nat | i < |log| && f(log[i].property, log[i].mailing).absentee != None|
      && t.outOfState == |set i: nat | i < |log| && f(log[i].property, log[i].mailing).outOfState != None|
  {
    TotalsCount(f, log, PropertyState);
    TotalsCount(f, log, OwnerState);
    TotalsCount(f, log, Absentee);
    TotalsCount(f, log, OutOfState);
    hide TotalsOf, Hits;
    PropertyHits(f, log);
    OwnerHits(f, log);
    AbsenteeHits(f, log);
    OutOfStateHits(f, log);
  }

  lemma PropertyHits(f: Compute, log: seq<Lead>)
    ensures Hits(f, log, PropertyState) == set i: nat | i < |log| && Said(f(log[i].property, log[i].mailing).propertyState)
  {
  }

  lemma OwnerHits(f: Compute, log: seq<Lead>)
    ensures Hits(f, log, OwnerState) == set i: nat | i < |log| && Said(f(log[i].property, log[i].mailing).ownerState)
  {
  }

  lemma AbsenteeHits(f: Compute, log: seq<Lead>)
    ensures Hits(f, log, Absentee) == set i: nat | i < |log| && f(log[i].property, log[i].mailing).absentee != None
  {
  }

  lemma OutOfStateHits(f: Compute, log: seq<Lead>)
    ensures Hits(f, log, OutOfState) == set i: nat | i < |log| && f(log[i].property, log[i].mailing).outOfState != None
  {
  }

  predicate Said(s: Option<string>) { s != None && s != Some("") }

  /** Some rows of the window already have their flags, everything else is as it was. */
  ghost predicate Partway(f: Compute, start: seq<Lead>, rows: seq<Lead>) {
    && |rows| == |start|
    && forall i :: 0 <= i < |rows| ==>
         rows[i] == start[i] || (start[i].flags == ALL_NULL && rows[i] == Fill(f, start[i]))
  }

  /** Nothing left of the window but rows without flags: the table is done. */
  lemma PartwayDone(f: Compute, start: seq<Lead>, rows: seq<Lead>)
    requires Partway(f, start, rows)
    requires forall r :: r in Window(rows) ==> !Computable(f, r)
    ensures rows == Filled(f, start)
  {
    forall i | 0 <= i < |rows| ensures rows[i] == Filled(f, start)[i] {
      InWindow(rows, rows[i]);
    }
  }

  lemma PartwayStep(f: Compute, start: seq<Lead>, rows: seq<Lead>, work: seq<Lead>, ids: set<nat>)
    requires Partway(f, start, rows) && Sent(f, rows, work, ids)
    ensures Partway(f, start, work)
  {
    forall i | 0 <= i < |rows|
      ensures work[i] == start[i] || (start[i].flags == ALL_NULL && work[i] == Fill(f, start[i]))
    {
      assert Written(f, rows[i], work[i], ids);
    }
  }

  lemma PartwayIds(f: Compute, start: seq<Lead>, rows: seq<Lead>)
    requires Partway(f, start, rows) && IdsUnique(start)
    ensures IdsUnique(rows)
    ensures forall r :: r in Window(rows) ==> r in Window(start)
  {
    forall i | 0 <= i < |rows| ensures rows[i].id == start[i].id {
    }
    forall r | r in Window(rows) ensures r in Window(start) {
      InWindow(rows, r);
      InWindow(start, r);
      var i :| 0 <= i < |rows| && rows[i] == r;
      assert start[i] == r;
    }
  }

  lemma OneRow(rows: seq<Lead>, r: Lead, i: nat)
    requires IdsUnique(rows) && r in rows && i < |rows| && rows[i].id == r.id
    ensures rows[i] == r
  {
  }

  lemma SendOne(f: Compute, rows: seq<Lead>, work: seq<Lead>, ids: set<nat>, r: Lead)
    requires IdsUnique(rows) && r in rows && r.flags == ALL_NULL && Sent(f, rows, work, ids)
    ensures Sent(f, rows, if Computable(f, r) then Update(work, r.id, Computed(f, r)) else work, ids + {r.id})
  {
    var next := if Computable(f, r) then Update(work, r.id, Computed(f, r)) else work;
    forall i | 0 <= i < |rows| ensures Written(f, rows[i], next[i], ids + {r.id}) {
      assert Written(f, rows[i], work[i], ids);
      if rows[i].id == r.id { OneRow(rows, r, i); }
    }
  }

  lemma NothingYet(f: Compute)
    ensures TotalsOf(f, []) == Totals(0, 0, 0, 0) && CountComputable(f, []) == 0
  {
  }

  method EvaluateOne(f: Compute, ghost rows: seq<Lead>, work0: seq<Lead>, ghost ids: set<nat>, r: Lead, commit: bool)
    returns (work: seq<Lead>, sent: nat)
    requires IdsUnique(rows) && r in Window(rows)
    requires if commit then Sent(f, rows, work0, ids) else work0 == rows
    ensures if commit then Sent(f, rows, work, ids + {r.id}) else work == rows
    ensures sent == if commit then One(Computable(f, r)) else 0
  {
    InWindow(rows, r);
    hide Sent, IdsUnique;
    if Computable(f, r) && commit {
      SendOne(f, rows, work0, ids, r);
      return Update(work0, r.id, Computed(f, r)), 1;
    }
    if commit { SendOne(f, rows, work0, ids, r); }
    return work0, 0;
  }

  lemma IdsOneMore(s: seq<Lead>, n: nat)
    requires n < |s|
    ensures Ids(s[..n + 1]) == Ids(s[..n]) + {s[n].id}
  {
    assert s[..n + 1] == s[..n] + [s[n]];
  }

  lemma TotalsOneMore(f: Compute, log: seq<Lead>, r: Lead)
    ensures TotalsOf(f, log + [r]) == AddTotals(TotalsOf(f, log), Computed(f, r))
  {
    assert (log + [r])[..|log|] == log;
  }

  // ---------- the loop as a function ----------

  /** committed is the script's own counter; lost counts the UPDATEs it counted whose
      transaction never committed. */
  datatype Scan = Scan(rows: seq<Lead>, offset: nat, log: seq<Lead>, committed: nat, lost: nat)

  /** The rows of the page that are evaluated. */
  function Seen(page: seq<Lead>, fault: Fault): seq<Lead> {
    if fault.Lost? && fault.evaluated < |page| then page[..fault.evaluated] else page
  }

  predicate LastRaises(f: Compute, seen: seq<Lead>, fault: Fault) {
    fault.Lost? && fault.raises && seen != [] && Computable(f, seen[|seen| - 1])
  }

  /** The rows whose UPDATE was sent and counted. */
  function SentOf(f: Compute, seen: seq<Lead>, fault: Fault, commit: bool): nat {
    if !commit then 0 else CountComputable(f, if LastRaises(f, seen, fault) then seen[..|seen| - 1] else seen)
  }

  function Applied(f: Compute, rows: seq<Lead>, ids: set<nat>): seq<Lead> {
    seq(|rows|, i requires 0 <= i < |rows| =>
      if rows[i].id in ids && rows[i].flags == ALL_NULL then Fill(f, rows[i]) else rows[i])
  }

  /** One turn of the inner loop. */
  function TurnOf(f: Compute, s: Scan, batch: nat, commit: bool, fault: Fault): Scan {
    var page := Page(Window(s.rows), batch, s.offset);
    if page == [] && !fault.Lost? then s
    else
      var seen := Seen(page, fault);
      var sent := SentOf(f, seen, fault, commit);
      CountBounded(f, page);
      Scan(if commit && !fault.Lost? then Applied(f, s.rows, Ids(page)) else s.rows,
           if fault.Fine? then s.offset + |page| - sent else s.offset,
           s.log + seen, s.committed + sent, if fault.Lost? then s.lost + sent else s.lost)
  }

  lemma {:induction false} CountBounded(f: Compute, s: seq<Lead>)
    ensures CountComputable(f, s) <= |s|
  {
    if s != [] { CountBounded(f, s[1..]); }
  }

  function FaultAt(faults: seq<Fault>, n: nat): Fault { if n < |faults| then faults[n] else Fine }

  /** The scan after n turns. */
  function Turns(f: Compute, start: seq<Lead>, batch: nat, commit: bool, faults: seq<Fault>, n: nat): Scan {
    if n == 0 then Scan(start, 0, [], 0, 0)
    else TurnOf(f, Turns(f, start, batch, commit, faults, n - 1), batch, commit, FaultAt(faults, n - 1))
  }

  /** max(100, min(batch, 5000)). */
  function Clamp(batch: int): nat { if batch < 100 then 100 else if batch > 5000 then 5000 else batch }

  lemma SentIsApplied(f: Compute, rows: seq<Lead>, work: seq<Lead>, ids: set<nat>)
    requires Sent(f, rows, work, ids)
    ensures work == Applied(f, rows, ids)
  {
    forall i | 0 <= i < |rows| ensures work[i] == Applied(f, rows, ids)[i] {
      assert Written(f, rows[i], work[i], ids);
    }
  }

  /** One chunk: evaluate these rows of the page and, unless this is a dry run, send their
      UPDATEs; the last one may raise. What it returns is the transaction's own view. */
  method Evaluate(f: Compute, rows: seq<Lead>, page: seq<Lead>, commit: bool, fault: Fault, log0: seq<Lead>, totals0: Totals)
    returns (work: seq<Lead>, log: seq<Lead>, totals: Totals, sent: nat)
    requires IdsUnique(rows) && totals0 == TotalsOf(f, log0)
    requires forall r :: r in page ==> r in Window(rows)
    ensures log == log0 + page && totals == TotalsOf(f, log)
    ensures sent == SentOf(f, page, fault, commit)
    ensures commit && !fault.Lost? ==> Sent(f, rows, work, Ids(page))
    ensures !commit ==> work == rows
  {
    hide *;
    work, log, totals, sent := rows, log0, totals0, 0;
    NothingEvaluated(f, rows, page);
    SentIs(f, page, fault, commit);
    var upTo := if commit && LastRaises(f, page, fault) then |page| - 1 else |page|;
    for n := 0 to upTo
      invariant log == log0 + page[..n] && totals == TotalsOf(f, log)
      invariant sent == if commit then CountComputable(f, page[..n]) else 0
      invariant if commit then Sent(f, rows, work, Ids(page[..n])) else work == rows
    {
      var r := page[n];
      assert r in page;
      var more;
      work, more := EvaluateOne(f, rows, work, Ids(page[..n]), r, commit);
      sent := sent + more;
      IdsOneMore(page, n);
      TakeOneMore(log0, page, n);
      CountOneMore(f, page, n);
      TotalsOneMore(f, log, r);
      totals := AddTotals(totals, Computed(f, r));
      log := log + [r];
    }
    assert page[..|page|] == page;
    if upTo < |page| {
      TakeOneMore(log0, page, upTo);
      TotalsOneMore(f, log, page[upTo]);
      totals := AddTotals(totals, Computed(f, page[upTo]));
      log := log + [page[upTo]];
    }
  }

  lemma SentIs(f: Compute, page: seq<Lead>, fault: Fault, commit: bool)
    ensures LastRaises(f, page, fault) ==> page != [] && fault.Lost?
    ensures SentOf(f, page, fault, commit)
         == if !commit then 0 else CountComputable(f, if LastRaises(f, page, fault) then page[..|page| - 1] else page)
  {
  }

  lemma NothingEvaluated(f: Compute, rows: seq<Lead>, page: seq<Lead>)
    ensures CountComputable(f, page[..0]) == 0 && Sent(f, rows, rows, Ids(page[..0]))
  {
  }

  /** Between two chunks: the rows before the offset can never be filled, and whatever the
      window held at the start has been evaluated or is still ahead. */
  ghost predicate Between(f: Compute, start: seq<Lead>, rows: seq<Lead>, offset: nat, log: seq<Lead>, commit: bool) {
    && offset <= |Window(rows)|
    && Partway(f, start, rows) && (!commit ==> rows == start)
    && (commit ==> forall k :: 0 <= k < offset ==> !Computable(f, Window(rows)[k]))
    && (forall r :: r in log ==> r in Window(start))
    && (forall r :: r in Window(start) ==> r in log || r in Window(rows)[offset..])
  }

  /** Nothing of this chunk was committed. */
  lemma LostKeeps(f: Compute, start: seq<Lead>, rows: seq<Lead>, offset: nat, log: seq<Lead>, commit: bool, batch: nat, n: nat)
    requires Between(f, start, rows, offset, log, commit) && IdsUnique(start)
    requires n <= |Page(Window(rows), batch, offset)|
    ensures Between(f, start, rows, offset, log + Page(Window(rows), batch, offset)[..n], commit)
  {
    PartwayIds(f, start, rows);
  }

  /** A dry-run chunk: the offset walks over every row. */
  lemma WalkKeeps(f: Compute, start: seq<Lead>, rows: seq<Lead>, offset: nat, log: seq<Lead>, batch: nat)
    requires Between(f, start, rows, offset, log, false)
    ensures var page := Page(Window(rows), batch, offset);
      Between(f, start, rows, offset + |page|, log + page, false)
  {
    PageSplits(Window(rows), batch, offset);
  }

  /** Where the window stands after a committed chunk. */
  lemma CommittedWindow(f: Compute, before: seq<Lead>, after: seq<Lead>, offset: nat, batch: nat)
    requires IdsUnique(before) && offset <= |Window(before)|
    requires Sent(f, before, after, Ids(Page(Window(before), batch, offset)))
    requires forall k :: 0 <= k < offset ==> !Computable(f, Window(before)[k])
    ensures var w, page := Window(before), Page(Window(before), batch, offset);
      var left := |page| - CountComputable(f, page);
      && left >= 0 && |Window(after)| == |w| - CountComputable(f, page)
      && Window(after)[offset + left..] == w[offset + |page|..]
      && forall k :: 0 <= k < offset + left ==> !Computable(f, Window(after)[k])
  {
    hide Sent, IdsUnique, Computable, Page, CountComputable;
    var w := Window(before);
    var page := Page(w, batch, offset);
    PageCommitted(f, before, after, batch, offset);
    var kept := Kept(f, page, Ids(page));
    KeptUncomputable(f, page, Ids(page));
    forall k | 0 <= k < offset + |kept| ensures !Computable(f, Window(after)[k]) {
      if k >= offset {
        assert Window(after)[k] == kept[k - offset];
      } else {
        assert Window(after)[k] == w[k];
      }
    }
  }

  lemma StillAhead<T>(all: seq<T>, log: seq<T>, page: seq<T>, tail: seq<T>, now: seq<T>, from: nat, to: nat)
    requires forall r :: r in all ==> r in log || r in page + tail
    requires from <= to <= |now| && now[to..] == tail
    ensures forall r :: r in all ==> r in log + page || r in now[from..]
    ensures forall r :: r in all ==> r in log + page || r in now[to..]
  {
    assert now[from..] == now[from..to] + tail;
  }

  lemma BetweenBasics(f: Compute, start: seq<Lead>, rows: seq<Lead>, offset: nat, log: seq<Lead>, commit: bool)
    requires Between(f, start, rows, offset, log, commit) && IdsUnique(start)
    ensures offset <= |Window(rows)| && IdsUnique(rows) && (!commit ==> rows == start)
  {
    PartwayIds(f, start, rows);
  }

  lemma PageKnown(f: Compute, start: seq<Lead>, rows: seq<Lead>, offset: nat, log: seq<Lead>, commit: bool, batch: nat)
    requires Between(f, start, rows, offset, log, commit) && IdsUnique(start)
    ensures var page := Page(Window(rows), batch, offset);
      && (forall r :: r in log + page ==> r in Window(start))
      && (forall r :: r in Window(start) ==> r in log || r in page + Window(rows)[offset + |page|..])
  {
    PartwayIds(f, start, rows);
    PageSplits(Window(rows), batch, offset);
  }

  /** A committed chunk, whether or not the offset moves past the rows it left NULL. */
  lemma CommitKeeps(
      f: Compute, start: seq<Lead>, rows: seq<Lead>, offset: nat, log: seq<Lead>, batch: nat, work: seq<Lead>, moved: bool)
    requires Between(f, start, rows, offset, log, true) && IdsUnique(start)
    requires Sent(f, rows, work, Ids(Page(Window(rows), batch, offset)))
    ensures var page := Page(Window(rows), batch, offset);
      var left := |page| - CountComputable(f, page);
      left >= 0 && Between(f, start, work, if moved then offset + left else offset, log + page, true)
  {
    hide Sent, Partway, IdsUnique, Computable, CountComputable, Page, Window;
    BetweenBasics(f, start, rows, offset, log, true);
    PageKnown(f, start, rows, offset, log, true, batch);
    var w := Window(rows);
    var page := Page(w, batch, offset);
    PartwayStep(f, start, rows, work, Ids(page));
    CommittedWindow(f, rows, work, offset, batch);
    var left := |page| - CountComputable(f, page);
    StillAhead(Window(start), log, page, w[offset + |page|..], Window(work), offset, offset + left);
  }

  lemma CommittedBetween(
      f: Compute, start: seq<Lead>, rows: seq<Lead>, work: seq<Lead>, offset: nat, log: seq<Lead>, batch: nat)
    requires Between(f, start, rows, offset, log, true) && IdsUnique(start)
    requires Sent(f, rows, work, Ids(Page(Window(rows), batch, offset)))
    ensures var w, page := Window(rows), Page(Window(rows), batch, offset);
      var left := |page| - CountComputable(f, page);
      && left >= 0 && |Window(work)| == |w| - CountComputable(f, page)
      && Window(work)[offset + left..] == w[offset + |page|..]
  {
    hide Sent, Partway, IdsUnique, Computable, CountComputable, Page, Window;
    BetweenBasics(f, start, rows, offset, log, true);
    CommittedWindow(f, rows, work, offset, batch);
  }

  lemma Appended<T>(a: seq<T>, b: seq<T>, c: seq<T>, d: seq<T>)
    requires b == c + d
    ensures a + c + d == a + b
  {
  }

  /** Counting what is left to write: a committed page takes its computable rows out. */
  lemma CommittedCount(f: Compute, before: seq<Lead>, after: seq<Lead>, offset: nat, batch: nat)
    requires IdsUnique(before) && offset <= |Window(before)|
    requires Sent(f, before, after, Ids(Page(Window(before), batch, offset)))
    requires forall k :: 0 <= k < offset ==> !Computable(f, Window(before)[k])
    ensures CountComputable(f, Window(after))
         == CountComputable(f, Window(before)) - CountComputable(f, Page(Window(before), batch, offset))
  {
    hide Sent, IdsUnique, Computable, Page, Window, Kept;
    var w := Window(before);
    var page := Page(w, batch, offset);
    var head, kept, tail := w[..offset], Kept(f, page, Ids(page)), w[offset + |page|..];
    PageSplits(w, batch, offset);
    PageCommitted(f, before, after, batch, offset);
    KeptUncomputable(f, page, Ids(page));
    NoneToCount(f, kept);
    CountConcat(f, head + page, tail);
    CountConcat(f, head, page);
    CountConcat(f, head + kept, tail);
    CountConcat(f, head, kept);
  }

  lemma {:induction false} NoneToCount(f: Compute, s: seq<Lead>)
    requires forall k :: 0 <= k < |s| ==> !Computable(f, s[k])
    ensures CountComputable(f, s) == 0
  {
    if s != [] { NoneToCount(f, s[1..]); }
  }

  /** The script's counter, less what was lost, and what is still to write add up. */
  ghost predicate Balanced(f: Compute, start: seq<Lead>, rows: seq<Lead>, committed: nat, lost: nat) {
    committed + CountComputable(f, Window(rows)) == CountComputable(f, Window(start)) + lost
  }

  lemma CommitBalances(
      f: Compute, start: seq<Lead>, rows: seq<Lead>, work: seq<Lead>, offset: nat, log: seq<Lead>, batch: nat,
      committed: nat, lost: nat)
    requires Between(f, start, rows, offset, log, true) && IdsUnique(start) && Balanced(f, start, rows, committed, lost)
    requires Sent(f, rows, work, Ids(Page(Window(rows), batch, offset)))
    ensures Balanced(f, start, work, committed + CountComputable(f, Page(Window(rows), batch, offset)), lost)
  {
    hide Sent, Partway, IdsUnique, CountComputable, Page, Window;
    BetweenBasics(f, start, rows, offset, log, true);
    CommittedCount(f, rows, work, offset, batch);
  }

  lemma LostBalances(f: Compute, start: seq<Lead>, rows: seq<Lead>, committed: nat, lost: nat, sent: nat)
    requires Balanced(f, start, rows, committed, lost)
    ensures Balanced(f, start, rows, committed + sent, lost + sent)
  {
  }

  /** All a committed chunk does, in one place. */
  lemma CommitTurn(
      f: Compute, start: seq<Lead>, rows: seq<Lead>, work: seq<Lead>, offset: nat, log: seq<Lead>, batch: nat,
      committed: nat, lost: nat, fault: Fault)
    requires Between(f, start, rows, offset, log, true) && IdsUnique(start) && Balanced(f, start, rows, committed, lost)
    requires Sent(f, rows, work, Ids(Page(Window(rows), batch, offset)))
    ensures var w, page := Window(rows), Page(Window(rows), batch, offset);
      var sent := CountComputable(f, page);
      var next := if fault.Fine? then offset + |page| - sent else offset;
      && sent <= |page| && Between(f, start, work, next, log + page, true)
      && Balanced(f, start, work, committed + sent, lost) && work == Applied(f, rows, Ids(page))
      && (fault.Fine? ==>
            next <= |Window(work)| && offset + |page| <= |w|
            && Window(work)[next..] == w[offset + |page|..] && |Window(work)| - next == |w| - offset - |page|)
  {
    hide *;
    PageInside(rows, batch, offset);
    BetweenBasics(f, start, rows, offset, log, true);
    CommitKeeps(f, start, rows, offset, log, batch, work, fault.Fine?);
    CommittedBetween(f, start, rows, work, offset, log, batch);
    CommitBalances(f, start, rows, work, offset, log, batch, committed, lost);
    SentIsApplied(f, rows, work, Ids(Page(Window(rows), batch, offset)));
  }

  lemma PageInside(rows: seq<Lead>, batch: nat, offset: nat)
    ensures offset <= |Window(rows)| ==> offset + |Page(Window(rows), batch, offset)| <= |Window(rows)|
  {
  }

  lemma EmptyTurn(f: Compute, s: Scan, batch: nat, commit: bool, fault: Fault)
    requires batch > 0 && Page(Window(s.rows), batch, s.offset) == [] && !fault.Lost? && s.offset <= |Window(s.rows)|
    ensures TurnOf(f, s, batch, commit, fault) == s && Window(s.rows)[s.offset..] == []
  {
  }

  lemma FullTurn(f: Compute, s: Scan, batch: nat, commit: bool, fault: Fault)
    requires Page(Window(s.rows), batch, s.offset) != [] || fault.Lost?
    ensures var page := Page(Window(s.rows), batch, s.offset);
      var seen := Seen(page, fault);
      var sent := SentOf(f, seen, fault, commit);
      && (!fault.Lost? ==> seen == page && sent == (if commit then CountComputable(f, page) else 0) <= |page|)
      && |seen| <= |page| && seen == page[..|seen|]
      && TurnOf(f, s, batch, commit, fault)
         == Scan(if commit && !fault.Lost? then Applied(f, s.rows, Ids(page)) else s.rows,
                 if fault.Fine? then s.offset + |page| - sent else s.offset,
                 s.log + seen, s.committed + sent, if fault.Lost? then s.lost + sent else s.lost)
  {
    CountBounded(f, Page(Window(s.rows), batch, s.offset));
  }

  class Results {
    var rows: seq<Lead>

    /** One turn of the loop: select a page, evaluate it, and commit unless the connection
        goes first. done: the page was empty. */
    method Chunk(f: Compute, batch: nat, commit: bool, fault: Fault, ghost start: seq<Lead>, offset0: nat,
                 log0: seq<Lead>, totals0: Totals, committed0: nat, ghost lost0: nat)
      returns (done: bool, offset: nat, log: seq<Lead>, totals: Totals, committed: nat, ghost lost: nat)
      requires IdsUnique(start) && batch > 0 && Between(f, start, rows, offset0, log0, commit)
      requires totals0 == TotalsOf(f, log0) && (commit ==> Balanced(f, start, rows, committed0, lost0))
      modifies this
      ensures Scan(rows, offset, log, committed, lost)
           == TurnOf(f, Scan(old(rows), offset0, log0, committed0, lost0), batch, commit, fault)
      ensures Between(f, start, rows, offset, log, commit)
      ensures totals == TotalsOf(f, log) && (commit ==> Balanced(f, start, rows, committed, lost))
      ensures done ==> rows == old(rows) && offset == offset0 && log == log0 && Window(rows)[offset..] == []
      ensures fault.Fine? ==> log + Window(rows)[offset..] == log0 + old(Window(rows))[offset0..]
      ensures fault.Fine? && !done ==> |Window(rows)| - offset < old(|Window(rows)|) - offset0
    {
      hide *;
      ghost var scan := Scan(rows, offset0, log0, committed0, lost0);
      done, offset, log, totals, committed, lost := false, offset0, log0, totals0, committed0, lost0;
      BetweenBasics(f, start, rows, offset, log, commit);
      ghost var was := rows;
      PageSplits(Window(rows), batch, offset);
      PageFromWindow(rows, batch, offset);
      var page := Page(Window(rows), batch, offset);
      if page == [] && !fault.Lost? {
        EmptyTurn(f, scan, batch, commit, fault);
        done := true;
        return;
      }
      FullTurn(f, scan, batch, commit, fault);
      var seen := Seen(page, fault);
      var work, sent;
      work, log, totals, sent := Evaluate(f, rows, seen, commit, fault, log, totals);
      committed := committed + sent;
      if fault.Lost? {
        LostKeeps(f, start, rows, offset, log0, commit, batch, |seen|);
        if commit { LostBalances(f, start, rows, committed0, lost, sent); }
        lost := lost + sent;
      } else {
        Appended(log0, Window(was)[offset0..], page, Window(was)[offset0 + |page|..]);
        if commit {
          CommitTurn(f, start, rows, work, offset, log0, batch, committed0, lost, fault);
          rows := work;
        } else if fault.Fine? {
          WalkKeeps(f, start, rows, offset, log0, batch);
        } else {
          LostKeeps(f, start, rows, offset, log0, commit, batch, |seen|);
        }
        offset := if fault.Fine? then offset + |page| - sent else offset;
      }
    }

    /** main: whatever the batch size and the pattern of dropped connections, a committed run
        ends in exactly the filled table with no row skipped; without failures every row of
        the window is evaluated once, in order, and the totals are the dry run's. The printed
        count is the number of rows written plus the UPDATEs that were lost with a connection. */
    method Backfill(f: Compute, batchArg: int, commit: bool, faults: seq<Fault>)
      returns (log: seq<Lead>, totals: Totals, committed: nat, ghost end: Scan, ghost turns: nat)
      requires IdsUnique(rows)
      modifies this
      ensures rows == if commit then Filled(f, old(rows)) else old(rows)
      ensures Elems(log) == Elems(Window(old(rows)))
      ensures (forall k :: 0 <= k < |faults| ==> faults[k].Fine?) ==> log == Window(old(rows))
      ensures totals == TotalsOf(f, log)
      ensures end == Turns(f, old(rows), Clamp(batchArg), commit, faults, turns)
      ensures end.rows == rows && end.log == log && end.committed == committed
      ensures commit ==> committed == |WithFlags(f, Window(old(rows)))| + end.lost
    {
      hide *;
      var batch := Clamp(batchArg);
      ClampIs(batchArg);
      ghost var start := rows;
      var offset: nat, used: nat, done := 0, 0, false;
      log, totals, committed, turns := [], Totals(0, 0, 0, 0), 0, 0;
      ghost var lost := 0;
      StartOfRun(f, start, batch, commit, faults);
      while !done
        invariant used <= |faults| && Between(f, start, rows, offset, log, commit) && offset <= |Window(rows)|
        invariant used == if turns < |faults| then turns else |faults|
        invariant Scan(rows, offset, log, committed, lost) == Turns(f, start, batch, commit, faults, turns)
        invariant (forall k :: 0 <= k < used ==> faults[k].Fine?) ==> log + Window(rows)[offset..] == Window(start)
        invariant totals == TotalsOf(f, log) && (commit ==> Balanced(f, start, rows, committed, lost))
        invariant done ==> Window(rows)[offset..] == []
        decreases !done, |faults| - used, |Window(rows)| - offset
      {
        var fault := if used < |faults| then faults[used] else Fine;
        NextTurn(f, start, batch, commit, faults, turns);
        done, offset, log, totals, committed, lost :=
          Chunk(f, batch, commit, fault, start, offset, log, totals, committed, lost);
        BetweenBasics(f, start, rows, offset, log, commit);
        used := if used < |faults| then used + 1 else used;
        turns := turns + 1;
      }
      end := Scan(rows, offset, log, committed, lost);
      EndOfRun(f, start, rows, offset, log, commit, committed, lost);
    }
  }

  lemma PageFromWindow(rows: seq<Lead>, batch: nat, offset: nat)
    ensures forall r :: r in Page(Window(rows), batch, offset) ==> r in Window(rows)
  {
  }

  /** The page size: what was asked for, brought between 100 and 5000. */
  lemma ClampIs(batch: int)
    ensures 100 <= Clamp(batch) <= 5000
    ensures 100 <= batch <= 5000 ==> Clamp(batch) == batch
    ensures batch < 100 ==> Clamp(batch) == 100
  {
  }

  lemma StartOfRun(f: Compute, start: seq<Lead>, batch: nat, commit: bool, faults: seq<Fault>)
    ensures Between(f, start, start, 0, [], commit) && Balanced(f, start, start, 0, 0)
    ensures Turns(f, start, batch, commit, faults, 0) == Scan(start, 0, [], 0, 0)
    ensures TotalsOf(f, []) == Totals(0, 0, 0, 0)
    ensures [] + Window(start)[0..] == Window(start)
  {
  }

  lemma NextTurn(f: Compute, start: seq<Lead>, batch: nat, commit: bool, faults: seq<Fault>, n: nat)
    ensures Turns(f, start, batch, commit, faults, n + 1)
         == TurnOf(f, Turns(f, start, batch, commit, faults, n), batch, commit, if n < |faults| then faults[n] else Fine)
  {
  }

  lemma EndOfRun(f: Compute, start: seq<Lead>, rows: seq<Lead>, offset: nat, log: seq<Lead>, commit: bool, committed: nat, lost: nat)
    requires Between(f, start, rows, offset, log, commit) && IdsUnique(start) && Window(rows)[offset..] == []
    requires commit ==> Balanced(f, start, rows, committed, lost)
    ensures rows == if commit then Filled(f, start) else start
    ensures Elems(log) == Elems(Window(start))
    ensures log + Window(rows)[offset..] == Window(start) ==> log == Window(start)
    ensures commit ==> committed == |WithFlags(f, Window(start))| + lost
  {
    assert |Window(rows)| == offset;
    if commit {
      PartwayDone(f, start, rows);
      NoneToCount(f, Window(rows));
      WindowUnique(start);
      assert NoDup(Window(start));
      CountIsSizeIff(f, Window(start));
    }
  }

  /** A second run has nothing to write: what is still all NULL has no computable flag. */
  lemma FilledTwice(f: Compute, rows: seq<Lead>)
    ensures Filled(f, Filled(f, rows)) == Filled(f, rows)
    ensures forall r :: r in Window(Filled(f, rows)) ==> !Computable(f, r)
  {
    var done := Filled(f, rows);
    forall r | r in Window(done) ensures !Computable(f, r) {
      InWindow(done, r);
      var i :| 0 <= i < |done| && done[i] == r;
      assert rows[i].flags == ALL_NULL ==> done[i] == Fill(f, rows[i]);
    }
  }

  function WithFlags(f: Compute, s: seq<Lead>): set<Lead> { set r | r in s && Computable(f, r) }

  lemma WithFlagsSplit(f: Compute, r: Lead, rest: seq<Lead>)
    ensures WithFlags(f, [r] + rest) == WithFlags(f, rest) + if Computable(f, r) then {r} else {}
  {
  }

  /** No computable row stands twice. */
  ghost predicate NoneTwice(f: Compute, s: seq<Lead>) {
    forall i, j :: 0 <= i < j < |s| && s[i] == s[j] ==> !Computable(f, s[i])
  }

  lemma NoneTwiceTail(f: Compute, x: Lead, rest: seq<Lead>)
    ensures NoneTwice(f, [x] + rest) <==> NoneTwice(f, rest) && (x in rest ==> !Computable(f, x))
  {
    var s := [x] + rest;
    if NoneTwice(f, s) {
      forall i, j | 0 <= i < j < |rest| && rest[i] == rest[j] ensures !Computable(f, rest[i]) {
        assert s[i + 1] == s[j + 1];
      }
      if x in rest {
        var j :| 0 <= j < |rest| && rest[j] == x;
        assert s[0] == s[j + 1];
      }
    }
  }

  /** A list counts its computable rows exactly when none of them stands in it twice. */
  lemma {:induction false} CountIsSizeIff(f: Compute, s: seq<Lead>)
    ensures |WithFlags(f, s)| <= CountComputable(f, s)
    ensures |WithFlags(f, s)| == CountComputable(f, s) <==> NoneTwice(f, s)
  {
    hide Computable, WithFlags, NoneTwice;
    if s == [] {
      NoFlags(f);
    } else {
      CountIsSizeIff(f, s[1..]);
      assert s == [s[0]] + s[1..];
      WithFlagsSplit(f, s[0], s[1..]);
      NoneTwiceTail(f, s[0], s[1..]);
      Member(f, s[1..], s[0]);
    }
  }

  lemma NoFlags(f: Compute)
    ensures WithFlags(f, []) == {} && NoneTwice(f, [])
  {
  }

  lemma Member(f: Compute, s: seq<Lead>, r: Lead)
    ensures r in WithFlags(f, s) <==> r in s && Computable(f, r)
  {
  }

  /** When no UPDATE raises, the script counts each evaluated computable row; that is the
      number of rows written exactly when none of them was evaluated twice. */
  lemma PrintedCountIff(f: Compute, rows: seq<Lead>, log: seq<Lead>)
    requires IdsUnique(rows) && Elems(log) == Elems(Window(rows))
    ensures CountComputable(f, log) >= |WithFlags(f, Window(rows))|
    ensures CountComputable(f, log) == |WithFlags(f, Window(rows))| <==> NoneTwice(f, log)
  {
    CountIsSizeIff(f, log);
    forall r | r in Window(rows) ensures r in log { assert r in Elems(Window(rows)); }
    forall r | r in log ensures r in Window(rows) { assert r in Elems(log); }
    assert WithFlags(f, log) == WithFlags(f, Window(rows));
  }

  lemma TurnCounts(f: Compute, s: Scan, batch: nat, fault: Fault)
    requires !(fault.Lost? && fault.raises) && s.committed == CountComputable(f, s.log)
    ensures var t := TurnOf(f, s, batch, true, fault); t.committed == CountComputable(f, t.log)
  {
    var page := Page(Window(s.rows), batch, s.offset);
    if page != [] || fault.Lost? {
      FullTurn(f, s, batch, true, fault);
      CountConcat(f, s.log, Seen(page, fault));
      assert SentOf(f, Seen(page, fault), fault, true) == CountComputable(f, Seen(page, fault));
      hide *;
    }
  }

  /** When no UPDATE raises, the script counts exactly the evaluated computable rows. */
  lemma {:induction false} CountsTheLog(f: Compute, start: seq<Lead>, batch: nat, faults: seq<Fault>, n: nat)
    requires forall k :: 0 <= k < |faults| ==> !(faults[k].Lost? && faults[k].raises)
    ensures var s := Turns(f, start, batch, true, faults, n); s.committed == CountComputable(f, s.log)
  {
    hide TurnOf, CountComputable;
    if n == 0 {
      NothingYet(f);
    } else {
      CountsTheLog(f, start, batch, faults, n - 1);
      TurnCounts(f, Turns(f, start, batch, true, faults, n - 1), batch, FaultAt(faults, n - 1));
    }
  }

  /** A turn in this state loses UPDATEs that had been counted. */
  predicate LosesSome(f: Compute, s: Scan, batch: nat, commit: bool, fault: Fault) {
    fault.Lost? && SentOf(f, Seen(Page(Window(s.rows), batch, s.offset), fault), fault, commit) > 0
  }

  lemma TurnLoses(f: Compute, s: Scan, batch: nat, commit: bool, fault: Fault)
    ensures TurnOf(f, s, batch, commit, fault).lost >= s.lost
    ensures TurnOf(f, s, batch, commit, fault).lost == s.lost <==> !LosesSome(f, s, batch, commit, fault)
  {
  }

  /** The fault pattern behind it: the printed count is right exactly when no connection was
      lost before the commit of a chunk that had already sent an UPDATE. */
  lemma {:induction false} LostIff(f: Compute, start: seq<Lead>, batch: nat, commit: bool, faults: seq<Fault>, n: nat)
    ensures Turns(f, start, batch, commit, faults, n).lost == 0
      <==> forall k :: 0 <= k < n ==> !LosesSome(f, Turns(f, start, batch, commit, faults, k), batch, commit, FaultAt(faults, k))
  {
    hide TurnOf, LosesSome;
    if n > 0 {
      LostIff(f, start, batch, commit, faults, n - 1);
      TurnLoses(f, Turns(f, start, batch, commit, faults, n - 1), batch, commit, FaultAt(faults, n - 1));
    }
  }

  lemma OneRowWindow(f: Compute, r: Lead)
    requires r.flags == ALL_NULL && Computable(f, r)
    ensures Window([r]) == [r] && Window([Fill(f, r)]) == []
  {
    assert [r][1..] == [] && [Fill(f, r)][1..] == [];
  }

  lemma OneRowFilled(f: Compute, r: Lead)
    requires r.flags == ALL_NULL && Computable(f, r)
    ensures Filled(f, [r]) == [Fill(f, r)] && CountComputable(f, [r]) == 1 && WithFlags(f, [r]) == {r}
    ensures Applied(f, [r], Ids([r])) == [Fill(f, r)]
  {
    assert [r][1..] == [];
    assert r in [r];
  }

  /** One row, and a connection lost after its UPDATE was sent: the next turn writes it again,
      and the rest find nothing. */
  function OneRowScan(f: Compute, r: Lead, n: nat): Scan {
    if n == 0 then Scan([r], 0, [], 0, 0)
    else if n == 1 then Scan([r], 0, [r], 1, 1)
    else Scan([Fill(f, r)], 0, [r, r], 2, 1)
  }

  lemma OneRowTurn(f: Compute, r: Lead, batch: nat, fault: Fault, n: nat)
    requires r.flags == ALL_NULL && Computable(f, r) && batch > 0
    requires fault == if n == 0 then Lost(1, false) else Fine
    ensures TurnOf(f, OneRowScan(f, r, n), batch, true, fault) == OneRowScan(f, r, n + 1)
  {
    OneRowWindow(f, r);
    OneRowFilled(f, r);
    var s := OneRowScan(f, r, n);
    assert n < 2 ==> Page(Window(s.rows), batch, s.offset) == [r] && Seen([r], fault) == [r];
    assert n >= 2 ==> Page(Window(s.rows), batch, s.offset) == [];
    hide Window, Page, Applied, CountComputable, Seen;
  }

  lemma {:induction false} OneRowRun(f: Compute, r: Lead, batch: nat, faults: seq<Fault>, n: nat)
    requires r.flags == ALL_NULL && Computable(f, r) && batch > 0 && |faults| == 1 && faults[0] == Lost(1, false)
    ensures Turns(f, [r], batch, true, faults, n) == OneRowScan(f, r, n)
  {
    hide TurnOf, Computable;
    if n > 0 {
      OneRowRun(f, r, batch, faults, n - 1);
      OneRowTurn(f, r, batch, FaultAt(faults, n - 1), n - 1);
    }
  }

  /** A run that prints too much: it writes one row and counts two. */
  method PrintsTooMuch(db: Results, f: Compute, r: Lead) returns (committed: nat)
    requires db.rows == [r] && r.flags == ALL_NULL && Computable(f, r)
    modifies db
    ensures db.rows == [Fill(f, r)] && committed == 2
  {
    hide Turns, Filled, WithFlags, Window, Computable, TotalsOf;
    var log, totals;
    ghost var end, turns;
    log, totals, committed, end, turns := db.Backfill(f, 1000, true, [Lost(1, false)]);
    OneRowRun(f, r, Clamp(1000), [Lost(1, false)], turns);
    OneRowFilled(f, r);
    OneRowWindow(f, r);
  }
}
