/** scripts/backfill_king_tax_owner_names.py: a keyset scan with a limit, a lookup cache, a
    circuit breaker that aborts the run, and compare-and-swap writes. */
module OwnerNames {
  import opened Wrappers
  import opened Seqs

  /** scope: the row's config is King, WA, tax_delinquent. */
  datatype Row = Row(id: nat, scope: bool, parcel: Option<string>, name: Option<string>)

  /** str.strip, is_tax_placeholder_party and the county's answers, all taken as given. */
  datatype Env = Env(strip: string -> string, placeholder: string -> bool, owner: string -> Option<string>)

  const LEGACY := "Tax Delinquent"

  /** The WHERE clause of the page query. Ids start above the nil uuid. */
  predicate Selected(r: Row, last: nat) {
    r.id > last && r.scope && r.parcel.Some?
    && (r.name == None || r.name == Some("") || LEGACY <= r.name.value)
  }

  function Eligible(rows: seq<Row>, last: nat): seq<Row> {
    if rows == [] then [] else (if Selected(rows[0], last) then [rows[0]] else []) + Eligible(rows[1..], last)
  }

  predicate Candidate(env: Env, r: Row) {
    env.strip(if r.name.Some? then r.name.value else "") == "" || (r.name.Some? && env.placeholder(r.name.value))
  }

  function Key(env: Env, r: Row): string {
    if r.parcel.Some? then env.strip(r.parcel.value) else ""
  }

  function Truthy(o: Option<string>): Option<string> { if o == Some("") then None else o }

  /** The repair of one row, as a single pass over the table would do it. */
  function Fix(env: Env, r: Row): Row {
    var o := Truthy(env.owner(Key(env, r)));
    if Selected(r, 0) && Candidate(env, r) && o.Some? then r.(name := o) else r
  }

  /** The page query and the repair, column by column: a row of the scope with a parcel and no name,
      an empty one, or one with the legacy prefix is read; it is repaired exactly if the name is
      missing, blank or the placeholder and its parcel has an owner. */
  lemma RepairedIff(env: Env, r: Row, last: nat)
    requires env.strip("") == ""
    ensures var read := r.scope && r.parcel.Some? && (r.name == None || r.name == Some("") || "Tax Delinquent" <= r.name.value);
      var vacant := r.name == None || r.name == Some("") || env.strip(r.name.value) == "" || env.placeholder(r.name.value);
      var o := if r.parcel.Some? then env.owner(env.strip(r.parcel.value)) else None;
      && (Selected(r, last) <==> read && r.id > last)
      && Fix(env, r) == (if read && r.id > 0 && vacant && o.Some? && o.value != "" then r.(name := o) else r)
  {
  }

  function Ids(s: seq<Row>): set<nat> { set r | r in s :: r.id }

  function FixIds(env: Env, rows: seq<Row>, ids: set<nat>): (t: seq<Row>)
    ensures |t| == |rows|
    ensures forall i :: 0 <= i < |rows| ==> t[i] == if rows[i].id in ids then Fix(env, rows[i]) else rows[i]
  {
    seq(|rows|, i requires 0 <= i < |rows| => if rows[i].id in ids then Fix(env, rows[i]) else rows[i])
  }

  ghost predicate Sorted(rows: seq<Row>) {
    forall i, j :: 0 <= i < j < |rows| ==> rows[i].id < rows[j].id
  }

  /** The one-pass answer: the first n eligible rows repaired. */
  function RepairFirst(env: Env, rows: seq<Row>, n: nat): (t: seq<Row>)
    requires n <= |Eligible(rows, 0)|
    ensures |t| == |rows|
  {
    FixIds(env, rows, Ids(Eligible(rows, 0)[..n]))
  }

  lemma {:induction false} InEligible(rows: seq<Row>, last: nat, r: Row)
    ensures r in Eligible(rows, last) <==> r in rows && Selected(r, last)
  {
    if rows != [] { InEligible(rows[1..], last, r); }
  }

  /** A run only ever changes names, only of rows in scope whose name is blank or the legacy
      placeholder, and only to the non-empty owner of the row's own parcel. */
  lemma OnlyPlaceholdersChange(env: Env, rows: seq<Row>, n: nat, i: nat)
    requires n <= |Eligible(rows, 0)| && i < |rows|
    ensures var r, t := rows[i], RepairFirst(env, rows, n)[i];
      && t == r.(name := t.name)
      && (t.name != r.name ==>
            && r.scope && r.parcel.Some? && t.name == env.owner(env.strip(r.parcel.value)) && t.name.Some? && t.name.value != ""
            && (r.name == None || env.strip(r.name.value) == "" || env.placeholder(r.name.value)))
  {
  }

  /** A whole run is the repair of every row. */
  lemma WholeRunIs(env: Env, rows: seq<Row>, i: nat)
    requires i < |rows|
    ensures RepairFirst(env, rows, |Eligible(rows, 0)|)[i] == Fix(env, rows[i])
  {
    var e := Eligible(rows, 0);
    assert e[..|e|] == e;
    InEligible(rows, 0, rows[i]);
    if Selected(rows[i], 0) { assert rows[i] in e; }
  }

  /** Only rows past the cursor matter. */
  lemma {:induction false} SameBeyond(a: seq<Row>, b: seq<Row>, last: nat)
    requires |a| == |b|
    requires forall i :: 0 <= i < |a| ==> a[i] == b[i] || (a[i].id == b[i].id <= last)
    ensures Eligible(a, last) == Eligible(b, last)
  {
    if a != [] {
      assert a[0] == b[0] || (a[0].id == b[0].id <= last);
      SameBeyond(a[1..], b[1..], last);
    }
  }

  lemma {:induction false} CursorBelow(rows: seq<Row>, a: nat, b: nat)
    requires forall r :: r in rows ==> r.id > a && r.id > b
    ensures Eligible(rows, a) == Eligible(rows, b)
  {
    if rows != [] {
      assert rows[0] in rows;
      CursorBelow(rows[1..], a, b);
    }
  }

  /** Moving the cursor to the n-th eligible row leaves exactly the rest. */
  lemma {:induction false} CursorMoves(rows: seq<Row>, last: nat, n: nat)
    requires Sorted(rows) && 0 < n <= |Eligible(rows, last)|
    ensures Eligible(rows, last)[n - 1].id > last
    ensures Eligible(rows, Eligible(rows, last)[n - 1].id) == Eligible(rows, last)[n..]
  {
    var r, rest := rows[0], rows[1..];
    var e := Eligible(rest, last);
    if Selected(r, last) {
      assert Eligible(rows, last) == [r] + e;
      if n == 1 {
        CursorBelow(rest, last, r.id);
      } else {
        InEligible(rest, last, e[n - 2]);
        CursorMoves(rest, last, n - 1);
        assert ([r] + e)[n - 1] == e[n - 2] && ([r] + e)[n..] == e[n - 1..];
      }
    } else {
      assert Eligible(rows, last) == e;
      InEligible(rest, last, e[n - 1]);
      CursorMoves(rest, last, n);
    }
  }

  lemma {:induction false} EligibleSorted(rows: seq<Row>, last: nat)
    requires Sorted(rows)
    ensures Sorted(Eligible(rows, last))
  {
    if rows != [] {
      var e := Eligible(rows[1..], last);
      EligibleSorted(rows[1..], last);
      forall k | 0 <= k < |e| ensures rows[0].id < e[k].id { InEligible(rows[1..], last, e[k]); }
    }
  }

  // ---------- writes ----------

  datatype Triple = Triple(id: nat, owner: string, was: Option<string>)

  /** UPDATE ... FROM (VALUES ...): the row takes the owner of a triple with its id, provided
      its name is still the one that was read. */
  function Cas(r: Row, ts: seq<Triple>): Row {
    if ts == [] then r
    else if ts[0].id == r.id && ts[0].was == r.name then r.(name := Some(ts[0].owner))
    else Cas(r, ts[1..])
  }

  function CasAll(rows: seq<Row>, ts: seq<Triple>): (t: seq<Row>)
    ensures |t| == |rows| && forall i :: 0 <= i < |rows| ==> t[i] == Cas(rows[i], ts)
  {
    seq(|rows|, i requires 0 <= i < |rows| => Cas(rows[i], ts))
  }

  /** What the page writes: candidates whose parcel resolved to a real owner. */
  function TriplesOf(env: Env, cands: seq<Row>): seq<Triple> {
    if cands == [] then []
    else (var o := Truthy(env.owner(Key(env, cands[0])));
          if o.Some? then [Triple(cands[0].id, o.value, cands[0].name)] else [])
         + TriplesOf(env, cands[1..])
  }

  function CandidatesOf(env: Env, page: seq<Row>): seq<Row> {
    if page == [] then [] else (if Candidate(env, page[0]) then [page[0]] else []) + CandidatesOf(env, page[1..])
  }

  lemma {:induction false} CasMiss(env: Env, cands: seq<Row>, r: Row)
    requires forall c :: c in cands ==> c.id != r.id || c.name != r.name
    ensures Cas(r, TriplesOf(env, cands)) == r
  {
    if cands != [] {
      assert cands[0] in cands;
      CasMiss(env, cands[1..], r);
      FirstTriple(env, cands, r);
    }
  }

  lemma FirstTriple(env: Env, cands: seq<Row>, r: Row)
    requires cands != []
    ensures var o := Truthy(env.owner(Key(env, cands[0])));
      Cas(r, TriplesOf(env, cands)) ==
        if o.Some? && cands[0].id == r.id && cands[0].name == r.name then r.(name := o)
        else Cas(r, TriplesOf(env, cands[1..]))
  {
    var o := Truthy(env.owner(Key(env, cands[0])));
    var rest := TriplesOf(env, cands[1..]);
    if o.Some? {
      var t := Triple(cands[0].id, o.value, cands[0].name);
      assert ([t] + rest)[1..] == rest && ([t] + rest)[0] == t;
    } else {
      assert TriplesOf(env, cands) == rest;
    }
  }

  lemma {:induction false} CasHit(env: Env, cands: seq<Row>, r: Row)
    requires r in cands && forall c :: c in cands && c.id == r.id ==> c == r
    ensures Cas(r, TriplesOf(env, cands))
         == var o := Truthy(env.owner(Key(env, r))); if o.Some? then r.(name := o) else r
  {
    var o := Truthy(env.owner(Key(env, cands[0])));
    FirstTriple(env, cands, r);
    if cands[0] != r {
      assert cands[0].id != r.id;
      CasHit(env, cands[1..], r);
    } else if o == None {
      if r in cands[1..] { CasHit(env, cands[1..], r); } else { CasMiss(env, cands[1..], r); }
    }
  }

  lemma {:induction false} InCandidates(env: Env, page: seq<Row>, r: Row)
    ensures r in CandidatesOf(env, page) <==> r in page && Candidate(env, r)
  {
    if page != [] { InCandidates(env, page[1..], r); }
  }

  ghost predicate PageOf(page: seq<Row>, before: seq<Row>) {
    forall p :: p in page ==> p in before && Selected(p, 0)
  }

  /** Compare and swap: against whatever the table has become since the page was read, a row
      that another writer renamed keeps its new name, and an untouched one is repaired. */
  lemma LateWriterWins(env: Env, before: seq<Row>, now: seq<Row>, page: seq<Row>, i: nat)
    requires Sorted(before) && PageOf(page, before)
    requires |now| == |before| && forall k :: 0 <= k < |now| ==> now[k].id == before[k].id
    requires i < |now|
    ensures var after := CasAll(now, TriplesOf(env, CandidatesOf(env, page)));
      && (now[i].name != before[i].name ==> after[i] == now[i])
      && (now[i] == before[i] ==> after[i] == if before[i] in page then Fix(env, before[i]) else before[i])
  {
    var cands := CandidatesOf(env, page);
    forall c | c in cands && c.id == now[i].id ensures c == before[i] {
      InCandidates(env, page, c);
      var k :| 0 <= k < |before| && before[k] == c;
      assert k == i;
    }
    InCandidates(env, page, before[i]);
    if now[i].name != before[i].name || before[i] !in cands {
      CasMiss(env, cands, now[i]);
    } else if now[i] == before[i] {
      CasHit(env, cands, now[i]);
    }
  }

  /** With no other writer the page update is the one-pass repair of those rows. */
  lemma PageIsFix(env: Env, rows: seq<Row>, page: seq<Row>)
    requires Sorted(rows) && PageOf(page, rows)
    ensures CasAll(rows, TriplesOf(env, CandidatesOf(env, page))) == FixIds(env, rows, Ids(page))
  {
    forall i | 0 <= i < |rows|
      ensures CasAll(rows, TriplesOf(env, CandidatesOf(env, page)))[i] == FixIds(env, rows, Ids(page))[i]
    {
      LateWriterWins(env, rows, rows, page, i);
      if rows[i].id in Ids(page) {
        var p :| p in page && p.id == rows[i].id;
        var k :| 0 <= k < |rows| && rows[k] == p;
        assert k == i;
      }
    }
  }

  // ---------- the scan ----------

  lemma FixTwice(env: Env, r: Row)
    ensures Fix(env, Fix(env, r)) == Fix(env, r)
  {
  }

  lemma FixUnion(env: Env, rows: seq<Row>, a: set<nat>, b: set<nat>)
    ensures FixIds(env, FixIds(env, rows, a), b) == FixIds(env, rows, a + b)
  {
    forall i | 0 <= i < |rows|
      ensures FixIds(env, FixIds(env, rows, a), b)[i] == FixIds(env, rows, a + b)[i]
    {
      FixTwice(env, rows[i]);
    }
  }

  function Cursor(e: seq<Row>, n: nat): nat
    requires n <= |e|
  {
    if n == 0 then 0 else e[n - 1].id
  }

  lemma FixKeepsId(env: Env, r: Row)
    ensures Fix(env, r).id == r.id
  {
  }

  /** What n repaired rows are, row by row. */
  lemma RepairedAt(env: Env, start: seq<Row>, n: nat, i: nat)
    requires n <= |Eligible(start, 0)| && i < |start|
    ensures var rows := RepairFirst(env, start, n);
      |rows| == |start| && rows[i].id == start[i].id && (start[i].id !in Ids(Eligible(start, 0)[..n]) ==> rows[i] == start[i])
  {
    hide Eligible, Fix, Ids;
    FixKeepsId(env, start[i]);
  }

  lemma IdsBelow(e: seq<Row>, n: nat)
    requires Sorted(e) && 0 < n <= |e|
    ensures forall id :: id in Ids(e[..n]) ==> id <= e[n - 1].id
  {
  }

  lemma SortedIds(a: seq<Row>, b: seq<Row>)
    requires Sorted(a) && |a| == |b| && forall i :: 0 <= i < |a| ==> a[i].id == b[i].id
    ensures Sorted(b)
  {
  }

  /** After the first n eligible rows are repaired the cursor sees exactly the others. */
  lemma RestIsAhead(env: Env, start: seq<Row>, rows: seq<Row>, n: nat)
    requires Sorted(start) && n <= |Eligible(start, 0)|
    requires rows == start || rows == RepairFirst(env, start, n)
    ensures Sorted(rows)
    ensures Eligible(rows, Cursor(Eligible(start, 0), n)) == Eligible(start, 0)[n..]
  {
    hide Eligible, Fix, Ids, Sorted, FixIds, RepairFirst;
    var e := Eligible(start, 0);
    EligibleSorted(start, 0);
    if n > 0 {
      IdsBelow(e, n);
      CursorMoves(start, 0, n);
      forall i | 0 <= i < |start| ensures rows[i].id == start[i].id && (rows[i] == start[i] || rows[i].id <= e[n - 1].id) {
        RepairedAt(env, start, n, i);
      }
      SortedIds(start, rows);
      SameBeyond(rows, start, e[n - 1].id);
    } else {
      NothingRepaired(env, start);
      assert e[0..] == e;
    }
  }

  lemma NextPage(env: Env, start: seq<Row>, n: nat, m: nat)
    requires Sorted(start) && n <= m <= |Eligible(start, 0)|
    ensures var e := Eligible(start, 0);
      var rows := RepairFirst(env, start, n);
      CasAll(rows, TriplesOf(env, CandidatesOf(env, e[n..m]))) == RepairFirst(env, start, m)
  {
    hide Eligible, Sorted, CasAll, TriplesOf, CandidatesOf, FixIds, Ids, PageOf;
    var e := Eligible(start, 0);
    var rows := RepairFirst(env, start, n);
    RestIsAhead(env, start, rows, n);
    PageWithin(env, start, rows, n, m);
    PageIsFix(env, rows, e[n..m]);
    FixUnion(env, start, Ids(e[..n]), Ids(e[n..m]));
    IdsGrow(e, n, m);
  }

  lemma IdsGrow(e: seq<Row>, n: nat, m: nat)
    requires n <= m <= |e|
    ensures Ids(e[..m]) == Ids(e[..n]) + Ids(e[n..m])
  {
    assert e[..m] == e[..n] + e[n..m];
  }

  lemma PageWithin(env: Env, start: seq<Row>, rows: seq<Row>, n: nat, m: nat)
    requires Sorted(start) && n <= m <= |Eligible(start, 0)|
    requires rows == start || rows == RepairFirst(env, start, n)
    ensures PageOf(Eligible(start, 0)[n..m], rows)
  {
    var e := Eligible(start, 0);
    RestIsAhead(env, start, rows, n);
    forall p | p in e[n..m] ensures p in rows && Selected(p, 0) {
      assert p in e[n..];
      InEligible(rows, Cursor(e, n), p);
    }
  }

  function KeysOf(env: Env, page: seq<Row>): set<string> {
    set r | r in page && Candidate(env, r) :: Key(env, r)
  }

  ghost predicate CacheOk(env: Env, cache: map<string, Option<string>>) {
    forall p :: p in cache ==> cache[p] == env.owner(p)
  }

  /** _resolve_owners: asks for each parcel not in the cache once; a blocked source raises
      and leaves the cache alone. */
  method Resolve(env: Env, parcels: seq<string>, cache0: map<string, Option<string>>, blocked: bool)
    returns (ok: bool, cache: map<string, Option<string>>, todo: seq<string>)
    requires CacheOk(env, cache0)
    ensures NoDup(todo) && Elems(todo) == Elems(parcels) - cache0.Keys
    ensures ok == (todo == [] || !blocked)
    ensures CacheOk(env, cache) && cache.Keys == cache0.Keys + if ok then Elems(parcels) else {}
  {
    todo, cache := [], cache0;
    for i := 0 to |parcels|
      invariant NoDup(todo) && Elems(todo) == Elems(parcels[..i]) - cache0.Keys
    {
      TakeOneMore([], parcels, i);
      assert Elems(parcels[..i + 1]) == Elems(parcels[..i]) + {parcels[i]};
      if parcels[i] !in cache0 && parcels[i] !in todo {
        NoDupAppend(todo, [parcels[i]]);
        assert Elems(todo + [parcels[i]]) == Elems(todo) + {parcels[i]};
        todo := todo + [parcels[i]];
      } else if parcels[i] !in cache0 {
        assert parcels[i] in Elems(todo);
      }
    }
    assert parcels[..|parcels|] == parcels;
    ok := todo == [] || !blocked;
    if !ok { return; }
    for i := 0 to |todo|
      invariant CacheOk(env, cache) && cache.Keys == cache0.Keys + Elems(todo[..i])
    {
      TakeOneMore([], todo, i);
      assert Elems(todo[..i + 1]) == Elems(todo[..i]) + {todo[i]};
      cache := cache[todo[i] := env.owner(todo[i])];
    }
    assert todo[..|todo|] == todo;
  }

  lemma OneMoreCandidate(env: Env, page: seq<Row>, i: nat)
    requires i < |page|
    ensures CandidatesOf(env, page[..i + 1])
         == CandidatesOf(env, page[..i]) + if Candidate(env, page[i]) then [page[i]] else []
  {
    CandidatesConcat(env, page[..i], [page[i]]);
    assert page[..i + 1] == page[..i] + [page[i]];
  }

  lemma {:induction false} CandidatesConcat(env: Env, a: seq<Row>, b: seq<Row>)
    ensures CandidatesOf(env, a + b) == CandidatesOf(env, a) + CandidatesOf(env, b)
  {
    if a == [] {
      assert a + b == b;
    } else {
      ConcatTail(a, b);
      CandidatesConcat(env, a[1..], b);
      Assoc(if Candidate(env, a[0]) then [a[0]] else [], CandidatesOf(env, a[1..]), CandidatesOf(env, b));
    }
  }

  lemma {:induction false} TriplesConcat(env: Env, a: seq<Row>, b: seq<Row>)
    ensures TriplesOf(env, a + b) == TriplesOf(env, a) + TriplesOf(env, b)
  {
    if a == [] {
      assert a + b == b;
    } else {
      ConcatTail(a, b);
      TriplesConcat(env, a[1..], b);
      var o := Truthy(env.owner(Key(env, a[0])));
      Assoc(if o.Some? then [Triple(a[0].id, o.value, a[0].name)] else [], TriplesOf(env, a[1..]), TriplesOf(env, b));
    }
  }

  /** Candidates of one page, as the row loop collects them. */
  method Pick(env: Env, page: seq<Row>) returns (cands: seq<Row>, parcels: seq<string>)
    ensures cands == CandidatesOf(env, page)
    ensures |parcels| == |cands| && forall k :: 0 <= k < |cands| ==> parcels[k] == Key(env, cands[k])
  {
    cands, parcels := [], [];
    for i := 0 to |page|
      invariant cands == CandidatesOf(env, page[..i])
      invariant |parcels| == |cands| && forall k :: 0 <= k < |cands| ==> parcels[k] == Key(env, cands[k])
    {
      OneMoreCandidate(env, page, i);
      if Candidate(env, page[i]) {
        cands, parcels := cands + [page[i]], parcels + [Key(env, page[i])];
      }
    }
    assert page[..|page|] == page;
  }

  method MakeTriples(env: Env, cands: seq<Row>, cache: map<string, Option<string>>) returns (ts: seq<Triple>)
    requires CacheOk(env, cache) && forall c :: c in cands ==> Key(env, c) in cache
    ensures ts == TriplesOf(env, cands)
  {
    ts := [];
    for i := 0 to |cands|
      invariant ts == TriplesOf(env, cands[..i])
    {
      var c := cands[i];
      assert c in cands;
      TakeOneMore([], cands, i);
      TriplesConcat(env, cands[..i], [c]);
      var o := Truthy(cache[Key(env, c)]);
      assert TriplesOf(env, [c]) == if o.Some? then [Triple(c.id, o.value, c.name)] else [];
      if o.Some? { ts := ts + [Triple(c.id, o.value, c.name)]; }
    }
    assert cands[..|cands|] == cands;
  }

  function Min(a: int, b: int): int { if a < b then a else b }

  /** How many rows a run may scan. */
  function Target(batch: nat, limit: Option<int>, n: nat): (t: nat)
    ensures t <= n
  {
    if batch == 0 then 0
    else if limit == None then n
    else if limit.value <= 0 then 0 else Min(limit.value, n)
  }

  lemma NoTriples(rows: seq<Row>)
    ensures CasAll(rows, []) == rows
  {
  }

  lemma KeysOfPicked(env: Env, page: seq<Row>, parcels: seq<string>)
    requires var c := CandidatesOf(env, page);
      |parcels| == |c| && forall k :: 0 <= k < |c| ==> parcels[k] == Key(env, c[k])
    ensures Elems(parcels) == KeysOf(env, page)
    ensures forall c :: c in CandidatesOf(env, page) ==> Key(env, c) in KeysOf(env, page)
  {
    var c := CandidatesOf(env, page);
    forall r | r in page && Candidate(env, r) ensures Key(env, r) in Elems(parcels) {
      InCandidates(env, page, r);
      var k :| 0 <= k < |c| && c[k] == r;
      assert parcels[k] in parcels;
    }
    forall k | 0 <= k < |c| ensures parcels[k] in KeysOf(env, page) {
      InCandidates(env, page, c[k]);
    }
  }

  lemma KeysGrow(env: Env, e: seq<Row>, n: nat, m: nat)
    requires n <= m <= |e|
    ensures KeysOf(env, e[..m]) == KeysOf(env, e[..n]) + KeysOf(env, e[n..m])
  {
    assert e[..m] == e[..n] + e[n..m];
  }

  lemma NothingRepaired(env: Env, rows: seq<Row>)
    ensures RepairFirst(env, rows, 0) == rows && KeysOf(env, Eligible(rows, 0)[..0]) == {}
  {
  }

  lemma AskedGrows(asked: seq<string>, todo: seq<string>, known: set<string>, keys: set<string>)
    requires NoDup(asked) && Elems(asked) == known && NoDup(todo) && Elems(todo) == keys - known
    ensures NoDup(asked + todo) && Elems(asked + todo) == known + keys
  {
    NoDupAppend(asked, todo);
    assert Elems(asked + todo) == Elems(asked) + Elems(todo);
  }

  /** Between two pages: the first n eligible rows are repaired and their parcels asked for. */
  ghost predicate Between(env: Env, start: seq<Row>, rows: seq<Row>, n: nat, asked: seq<string>, dryRun: bool) {
    && n <= |Eligible(start, 0)|
    && rows == (if dryRun then start else RepairFirst(env, start, n))
    && NoDup(asked) && Elems(asked) == KeysOf(env, Eligible(start, 0)[..n])
  }

  ghost function CursorAt(start: seq<Row>, n: nat): nat
    requires n <= |Eligible(start, 0)|
  {
    Cursor(Eligible(start, 0), n)
  }

  function PageAt(rows: seq<Row>, last: nat, room: nat): seq<Row> {
    var ahead := Eligible(rows, last);
    ahead[..Min(room, |ahead|)]
  }

  lemma NextPageIs(env: Env, start: seq<Row>, rows: seq<Row>, n: nat, asked: seq<string>, dryRun: bool, room: nat)
    requires Sorted(start) && Between(env, start, rows, n, asked, dryRun)
    ensures var page := PageAt(rows, CursorAt(start, n), room);
      && |page| == Min(room, |Eligible(start, 0)| - n)
      && (page != [] ==> page[|page| - 1].id == CursorAt(start, n + |page|))
      && page == Eligible(start, 0)[n..n + |page|]
  {
    BetweenMeans(env, start, rows, n, asked, dryRun);
    hide Eligible, Sorted, RepairFirst, Between;
    RestIsAhead(env, start, rows, n);
  }

  lemma AskedNext(env: Env, start: seq<Row>, rows: seq<Row>, n: nat, asked: seq<string>, dryRun: bool, page: seq<Row>,
                  todo: seq<string>)
    requires Between(env, start, rows, n, asked, dryRun)
    requires n + |page| <= |Eligible(start, 0)| && page == Eligible(start, 0)[n..n + |page|]
    requires NoDup(todo) && Elems(todo) == KeysOf(env, page) - Elems(asked)
    ensures NoDup(asked + todo) && Elems(asked + todo) == KeysOf(env, Eligible(start, 0)[..n + |page|])
    ensures Elems(asked + todo) == Elems(asked) + KeysOf(env, page)
  {
    AskedGrows(asked, todo, Elems(asked), KeysOf(env, page));
    KeysGrow(env, Eligible(start, 0), n, n + |page|);
  }

  lemma WrittenNext(env: Env, start: seq<Row>, rows: seq<Row>, n: nat, asked: seq<string>, dryRun: bool, page: seq<Row>,
                    todo: seq<string>)
    requires Sorted(start) && Between(env, start, rows, n, asked, dryRun)
    requires n + |page| <= |Eligible(start, 0)| && page == Eligible(start, 0)[n..n + |page|]
    requires NoDup(todo) && Elems(todo) == KeysOf(env, page) - Elems(asked)
    ensures Between(env, start, if dryRun then rows else CasAll(rows, TriplesOf(env, CandidatesOf(env, page))),
                    n + |page|, asked + todo, dryRun)
  {
    hide CasAll, TriplesOf, CandidatesOf, RepairFirst;
    AskedNext(env, start, rows, n, asked, dryRun, page, todo);
    NextPage(env, start, n, n + |page|);
  }

  lemma BetweenMeans(env: Env, start: seq<Row>, rows: seq<Row>, n: nat, asked: seq<string>, dryRun: bool)
    requires Between(env, start, rows, n, asked, dryRun)
    ensures n <= |Eligible(start, 0)|
    ensures rows == if dryRun then start else RepairFirst(env, start, n)
    ensures NoDup(asked) && Elems(asked) == KeysOf(env, Eligible(start, 0)[..n])
  {
  }

  lemma NothingYet(env: Env, start: seq<Row>, dryRun: bool)
    ensures Between(env, start, start, 0, [], dryRun) && CursorAt(start, 0) == 0
    ensures CacheOk(env, map[]) && Elems<string>([]) == {}
  {
    NothingRepaired(env, start);
  }

  /** The two ways out of the loop, the limit and an empty page, both leave the target. */
  lemma StopsAtTarget(batch: nat, limit: Option<int>, n: nat, scanned: nat)
    requires scanned <= Target(batch, limit, n)
    ensures limit.Some? && limit.value - scanned <= 0 ==> scanned == Target(batch, limit, n)
    ensures limit == None || limit.value - scanned > 0 ==>
      var room := Room(batch, limit, scanned);
      room >= 0 && scanned + Min(room, n - scanned) <= Target(batch, limit, n)
      && (Min(room, n - scanned) == 0 ==> scanned == Target(batch, limit, n))
  {
  }

  /** effective_batch. */
  function Room(batch: nat, limit: Option<int>, scanned: nat): int {
    if limit.Some? then Min(batch, limit.value - scanned) else batch
  }

  /** The state between two pages of a run nobody disturbs. */
  ghost predicate Alone(env: Env, start: seq<Row>, rows: seq<Row>, n: nat, asked: seq<string>, dryRun: bool, last: nat,
                        batch: nat, limit: Option<int>)
  {
    Between(env, start, rows, n, asked, dryRun) && last == CursorAt(start, n) && n <= Target(batch, limit, |Eligible(start, 0)|)
  }

  lemma AloneStarts(env: Env, start: seq<Row>, dryRun: bool, batch: nat, limit: Option<int>)
    ensures Alone(env, start, start, 0, [], dryRun, 0, batch, limit)
    ensures CacheOk(env, map[]) && Elems<string>([]) == {} && NoDup<string>([])
  {
    NothingYet(env, start, dryRun);
  }

  lemma AloneMeans(env: Env, start: seq<Row>, rows: seq<Row>, n: nat, asked: seq<string>, dryRun: bool, last: nat,
                   batch: nat, limit: Option<int>)
    requires Alone(env, start, rows, n, asked, dryRun, last, batch, limit)
    ensures n <= Target(batch, limit, |Eligible(start, 0)|) <= |Eligible(start, 0)|
    ensures rows == if dryRun then start else RepairFirst(env, start, n)
    ensures NoDup(asked) && Elems(asked) == KeysOf(env, Eligible(start, 0)[..n])
    ensures Between(env, start, rows, n, asked, dryRun) && last == CursorAt(start, n)
  {
  }

  lemma AloneStops(env: Env, start: seq<Row>, rows: seq<Row>, n: nat, asked: seq<string>, dryRun: bool, last: nat,
                   batch: nat, limit: Option<int>)
    requires Sorted(start) && Alone(env, start, rows, n, asked, dryRun, last, batch, limit)
    requires (limit.Some? && limit.value - n <= 0) || (Room(batch, limit, n) >= 0 && PageAt(rows, last, Room(batch, limit, n)) == [])
    ensures n == Target(batch, limit, |Eligible(start, 0)|)
  {
    hide *;
    AloneMeans(env, start, rows, n, asked, dryRun, last, batch, limit);
    StopsAtTarget(batch, limit, |Eligible(start, 0)|, n);
    if limit == None || limit.value - n > 0 {
      NextPageIs(env, start, rows, n, asked, dryRun, Room(batch, limit, n));
    }
  }

  lemma AloneNext(env: Env, start: seq<Row>, rows: seq<Row>, n: nat, asked: seq<string>, dryRun: bool, last: nat,
                  batch: nat, limit: Option<int>, page: seq<Row>, todo: seq<string>)
    requires Sorted(start) && Alone(env, start, rows, n, asked, dryRun, last, batch, limit)
    requires limit == None || limit.value - n > 0
    requires Room(batch, limit, n) >= 0 && page == PageAt(rows, last, Room(batch, limit, n)) && page != []
    requires NoDup(todo) && Elems(todo) == KeysOf(env, page) - Elems(asked)
    ensures n + |page| <= Target(batch, limit, |Eligible(start, 0)|) <= |Eligible(start, 0)|
    ensures NoDup(asked + todo) && Elems(asked + todo) == KeysOf(env, Eligible(start, 0)[..n + |page|])
    ensures Alone(env, start, if dryRun then rows else CasAll(rows, TriplesOf(env, CandidatesOf(env, page))),
                  n + |page|, asked + todo, dryRun, page[|page| - 1].id, batch, limit)
  {
    hide *;
    AloneMeans(env, start, rows, n, asked, dryRun, last, batch, limit);
    StopsAtTarget(batch, limit, |Eligible(start, 0)|, n);
    NextPageIs(env, start, rows, n, asked, dryRun, Room(batch, limit, n));
    AskedNext(env, start, rows, n, asked, dryRun, page, todo);
    WrittenNext(env, start, rows, n, asked, dryRun, page, todo);
    AloneIs(env, start, if dryRun then rows else CasAll(rows, TriplesOf(env, CandidatesOf(env, page))), n + |page|,
            asked + todo, dryRun, page[|page| - 1].id, batch, limit);
  }

  lemma AloneIs(env: Env, start: seq<Row>, rows: seq<Row>, n: nat, asked: seq<string>, dryRun: bool, last: nat,
                batch: nat, limit: Option<int>)
    requires Between(env, start, rows, n, asked, dryRun) && n <= Target(batch, limit, |Eligible(start, 0)|) <= |Eligible(start, 0)|
    requires last == CursorAt(start, n)
    ensures Alone(env, start, rows, n, asked, dryRun, last, batch, limit)
  {
  }

  // ---------- other writers ----------

  /** Names other sessions give to rows between one page's read and its write. */
  type Names = map<nat, Option<string>>

  function Edit(rows: seq<Row>, names: Names): (t: seq<Row>)
    ensures |t| == |rows|
    ensures forall i :: 0 <= i < |rows| ==> t[i] == EditRow(rows[i], names)
  {
    seq(|rows|, i requires 0 <= i < |rows| => EditRow(rows[i], names))
  }

  function EditRow(r: Row, names: Names): Row { if r.id in names then r.(name := names[r.id]) else r }

  /** The table as the others alone would have left it after n pages. */
  ghost function Others(rows: seq<Row>, others: nat -> Names, n: nat): (t: seq<Row>)
    ensures |t| == |rows|
  {
    if n == 0 then rows else Edit(Others(rows, others, n - 1), others(n - 1))
  }

  ghost predicate Touched(others: nat -> Names, n: nat, id: nat) { exists k :: 0 <= k < n && id in others(k) }

  ghost predicate Quiet(others: nat -> Names) { forall k :: others(k) == map[] }

  /** s: the row at the start. w: what the others made of it. r: what it is. It is what the others
      left or that repaired; if they left it alone and the cursor has passed, it is repaired. */
  ghost predicate RowShared(env: Env, s: Row, w: Row, r: Row, through: nat, touched: bool, dryRun: bool) {
    && s.id == w.id == r.id && (!touched ==> w == s)
    && (r == w || (!dryRun && s.id <= through && r == Fix(env, w)))
    && (!dryRun && !touched && s.id <= through ==> r == Fix(env, s))
  }

  ghost predicate Shared(env: Env, start: seq<Row>, others: nat -> Names, n: nat, rows: seq<Row>, through: nat, dryRun: bool) {
    |rows| == |start| && forall i :: 0 <= i < |start| ==>
      RowShared(env, start[i], Others(start, others, n)[i], rows[i], through, Touched(others, n, start[i].id), dryRun)
  }

  lemma SharedStarts(env: Env, start: seq<Row>, others: nat -> Names, dryRun: bool)
    ensures Shared(env, start, others, 0, start, 0, dryRun)
  {
  }

  /** A row the page query saw by then is on the page; one it never saw needs no repair. */
  lemma PageReach(rows: seq<Row>, last: nat, room: nat, page: seq<Row>, r: Row)
    requires Sorted(rows) && page == PageAt(rows, last, room) && page != [] && r in rows
    ensures r in page <==> last < r.id <= page[|page| - 1].id && Selected(r, last)
  {
    var e := Eligible(rows, last);
    EligibleSorted(rows, last);
    InEligible(rows, last, r);
    if r in e {
      var k :| 0 <= k < |e| && e[k] == r;
      if k < |page| { assert page[k] == r; }
    }
  }

  lemma PageEnd(rows: seq<Row>, last: nat, room: nat, page: seq<Row>)
    requires page == PageAt(rows, last, room) && page != []
    ensures last < page[|page| - 1].id && page[|page| - 1] in rows
  {
    InEligible(rows, last, page[|page| - 1]);
  }

  lemma PageRowShared(env: Env, s: Row, w: Row, r: Row, names: Names, after: Row, last: nat, next: nat,
                      touched: bool, dryRun: bool, onPage: bool)
    requires RowShared(env, s, w, r, last, touched, dryRun) && last < next
    requires onPage <==> last < r.id <= next && Selected(r, last)
    requires var now := EditRow(r, names);
      if dryRun then after == now
      else (now.name != r.name ==> after == now) && (now == r ==> after == if onPage then Fix(env, r) else r)
    ensures RowShared(env, s, EditRow(w, names), after, next, touched || s.id in names, dryRun)
    ensures RowShared(env, s, EditRow(w, names), EditRow(r, names), last, touched || s.id in names, dryRun)
  {
    var now := EditRow(r, names);
    if s.id in names { assert now == EditRow(w, names); }
  }

  lemma SharedNext(env: Env, start: seq<Row>, others: nat -> Names, n: nat, rows: seq<Row>, last: nat, dryRun: bool,
                   room: nat, page: seq<Row>)
    requires Sorted(start) && Shared(env, start, others, n, rows, last, dryRun)
    requires page == PageAt(rows, last, room) && page != []
    ensures last < page[|page| - 1].id <= Top(start)
    ensures var now := Edit(rows, others(n));
      && Shared(env, start, others, n + 1, now, last, dryRun)
      && Shared(env, start, others, n + 1, if dryRun then now else CasAll(now, TriplesOf(env, CandidatesOf(env, page))),
                page[|page| - 1].id, dryRun)
  {
    hide *;
    var now, next := Edit(rows, others(n)), page[|page| - 1].id;
    SharedIds(env, start, others, n, rows, last, dryRun);
    PageEnd(rows, last, room, page);
    forall i | 0 <= i < |start|
      ensures var touched := Touched(others, n + 1, start[i].id);
        var w := Others(start, others, n + 1)[i];
        && RowShared(env, start[i], w, now[i], last, touched, dryRun)
        && RowShared(env, start[i], w, AfterPage(env, now, page, dryRun)[i], next, touched, dryRun)
    {
      SharedRow(env, start, others, n, rows, last, dryRun, room, page, i);
    }
    SharedIs(env, start, others, n + 1, now, last, dryRun);
    SharedIs(env, start, others, n + 1, AfterPage(env, now, page, dryRun), next, dryRun);
    AfterPageIs(env, now, page, dryRun);
  }

  function AfterPage(env: Env, now: seq<Row>, page: seq<Row>, dryRun: bool): (t: seq<Row>)
    ensures |t| == |now|
  {
    if dryRun then now else CasAll(now, TriplesOf(env, CandidatesOf(env, page)))
  }

  lemma AfterPageIs(env: Env, now: seq<Row>, page: seq<Row>, dryRun: bool)
    ensures AfterPage(env, now, page, dryRun)
         == if dryRun then now else CasAll(now, TriplesOf(env, CandidatesOf(env, page)))
  {
  }

  lemma SharedIs(env: Env, start: seq<Row>, others: nat -> Names, n: nat, rows: seq<Row>, through: nat, dryRun: bool)
    requires |rows| == |start| && forall i :: 0 <= i < |start| ==>
      RowShared(env, start[i], Others(start, others, n)[i], rows[i], through, Touched(others, n, start[i].id), dryRun)
    ensures Shared(env, start, others, n, rows, through, dryRun)
  {
    hide RowShared, Others, Touched;
  }

  lemma SharedAt(env: Env, start: seq<Row>, others: nat -> Names, n: nat, rows: seq<Row>, through: nat, dryRun: bool, i: nat)
    requires Shared(env, start, others, n, rows, through, dryRun) && i < |start|
    ensures |rows| == |start| && rows[i].id == start[i].id
    ensures RowShared(env, start[i], Others(start, others, n)[i], rows[i], through, Touched(others, n, start[i].id), dryRun)
  {
  }

  lemma SharedRow(env: Env, start: seq<Row>, others: nat -> Names, n: nat, rows: seq<Row>, last: nat, dryRun: bool,
                  room: nat, page: seq<Row>, i: nat)
    requires Sorted(start) && Shared(env, start, others, n, rows, last, dryRun) && i < |start|
    requires page == PageAt(rows, last, room) && page != []
    ensures |rows| == |start|
    ensures var now := Edit(rows, others(n));
      var touched := Touched(others, n + 1, start[i].id);
      var w := Others(start, others, n + 1)[i];
      && RowShared(env, start[i], w, now[i], last, touched, dryRun)
      && RowShared(env, start[i], w, AfterPage(env, now, page, dryRun)[i], page[|page| - 1].id, touched, dryRun)
  {
    hide *;
    var now := Edit(rows, others(n));
    SharedIds(env, start, others, n, rows, last, dryRun);
    SharedAt(env, start, others, n, rows, last, dryRun, i);
    PageIsOf(rows, last, room, page);
    PageEnd(rows, last, room, page);
    PageReach(rows, last, room, page, rows[i]);
    EditIds(rows, others(n));
    LateWriterWins(env, rows, now, page, i);
    TouchedNext(others, n, start[i].id);
    OthersNext(start, others, n, i);
    AfterPageIs(env, now, page, dryRun);
    PageRowShared(env, start[i], Others(start, others, n)[i], rows[i], others(n), AfterPage(env, now, page, dryRun)[i],
                  last, page[|page| - 1].id, Touched(others, n, start[i].id), dryRun, rows[i] in page);
  }

  lemma EditIds(rows: seq<Row>, names: Names)
    ensures forall i :: 0 <= i < |rows| ==> Edit(rows, names)[i].id == rows[i].id
  {
  }

  lemma OthersNext(rows: seq<Row>, others: nat -> Names, n: nat, i: nat)
    requires i < |rows|
    ensures Others(rows, others, n + 1)[i] == EditRow(Others(rows, others, n)[i], others(n))
  {
  }

  lemma PageIsOf(rows: seq<Row>, last: nat, room: nat, page: seq<Row>)
    requires page == PageAt(rows, last, room)
    ensures PageOf(page, rows)
  {
    forall p | p in page ensures p in rows && Selected(p, 0) { InEligible(rows, last, p); }
  }

  lemma TouchedNext(others: nat -> Names, n: nat, id: nat)
    ensures Touched(others, n + 1, id) <==> Touched(others, n, id) || id in others(n)
  {
  }

  function Top(rows: seq<Row>): nat { if rows == [] then 0 else rows[|rows| - 1].id }

  lemma SharedIds(env: Env, start: seq<Row>, others: nat -> Names, n: nat, rows: seq<Row>, last: nat, dryRun: bool)
    requires Sorted(start) && Shared(env, start, others, n, rows, last, dryRun)
    ensures |rows| == |start| && Sorted(rows) && forall r :: r in rows ==> r.id <= Top(start)
  {
    forall i | 0 <= i < |start| ensures rows[i].id == start[i].id {
      assert RowShared(env, start[i], Others(start, others, n)[i], rows[i], last, Touched(others, n, start[i].id), dryRun);
    }
  }

  /** An unlimited run ended: every row the others left alone is repaired. */
  lemma SharedEnds(env: Env, start: seq<Row>, others: nat -> Names, n: nat, rows: seq<Row>, last: nat, room: nat)
    requires Shared(env, start, others, n, rows, last, false) && room > 0 && PageAt(rows, last, room) == []
    ensures forall i :: 0 <= i < |start| && !Touched(others, n, start[i].id) ==> rows[i] == Fix(env, start[i])
  {
    forall i | 0 <= i < |start| && !Touched(others, n, start[i].id) ensures rows[i] == Fix(env, start[i]) {
      assert RowShared(env, start[i], Others(start, others, n)[i], rows[i], last, false, false);
      InEligible(rows, last, rows[i]);
    }
  }

  /** What a run promises whatever the others do. */
  ghost predicate KeepsOthers(env: Env, start: seq<Row>, others: nat -> Names, pages: nat, rows: seq<Row>) {
    |rows| == |start| && forall i :: 0 <= i < |start| ==>
      var w := Others(start, others, pages)[i]; rows[i] == w || rows[i] == Fix(env, w)
  }

  lemma SharedKeeps(env: Env, start: seq<Row>, others: nat -> Names, n: nat, rows: seq<Row>, last: nat, dryRun: bool)
    requires Shared(env, start, others, n, rows, last, dryRun)
    ensures KeepsOthers(env, start, others, n, rows)
    ensures dryRun ==> rows == Others(start, others, n)
  {
    forall i | 0 <= i < |start|
      ensures var w := Others(start, others, n)[i]; rows[i] == w || (!dryRun && rows[i] == Fix(env, w))
    {
      assert RowShared(env, start[i], Others(start, others, n)[i], rows[i], last, Touched(others, n, start[i].id), dryRun);
    }
  }

  /** So a name the others gave that is neither blank nor a placeholder is what the row has. */
  lemma RealNamesStay(env: Env, start: seq<Row>, others: nat -> Names, pages: nat, rows: seq<Row>, i: nat)
    requires KeepsOthers(env, start, others, pages, rows) && i < |start|
    ensures var w := Others(start, others, pages)[i];
      && (!Candidate(env, w) || !Selected(w, 0) ==> rows[i] == w)
      && rows[i] == w.(name := rows[i].name)
      && (rows[i].name != w.name ==> rows[i].name == Truthy(env.owner(Key(env, w))) != None)
  {
  }

  lemma NoEdit(rows: seq<Row>)
    ensures Edit(rows, map[]) == rows
  {
  }

  /** The parcels asked for, page after page. */
  function Joined(lookups: seq<seq<string>>): seq<string> {
    if lookups == [] then [] else Joined(lookups[..|lookups| - 1]) + lookups[|lookups| - 1]
  }

  /** Page k had parcels to ask for, and asking tripped the breaker. */
  predicate Trips(lookups: seq<seq<string>>, blocked: nat -> bool, k: nat)
    requires k < |lookups|
  {
    lookups[k] != [] && blocked(k)
  }

  lemma NothingJoined()
    ensures Joined([]) == []
  {
  }

  lemma JoinedMore(lookups: seq<seq<string>>, todo: seq<string>, blocked: nat -> bool)
    ensures Joined(lookups + [todo]) == Joined(lookups) + todo
    ensures forall k :: 0 <= k < |lookups| ==> Trips(lookups + [todo], blocked, k) == Trips(lookups, blocked, k)
    ensures Trips(lookups + [todo], blocked, |lookups|) <==> todo != [] && blocked(|lookups|)
  {
    assert (lookups + [todo])[..|lookups|] == lookups;
  }

  class OwnerTable {
    var rows: seq<Row>

    /** One page: look the missing parcels up, then write the owners that came back. names:
        what other sessions write between the page's read and its own write. */
    method DoPage(env: Env, page: seq<Row>, cache0: map<string, Option<string>>, blocked: bool, dryRun: bool, names: Names)
      returns (ok: bool, cache: map<string, Option<string>>, todo: seq<string>)
      requires CacheOk(env, cache0)
      modifies this
      ensures var now := Edit(old(rows), names);
        rows == if ok && !dryRun then CasAll(now, TriplesOf(env, CandidatesOf(env, page))) else now
      ensures NoDup(todo) && Elems(todo) == KeysOf(env, page) - cache0.Keys
      ensures CacheOk(env, cache) && cache.Keys == cache0.Keys + if ok then KeysOf(env, page) else {}
      ensures ok <==> todo == [] || !blocked
    {
      hide *;
      var cands, parcels := Pick(env, page);
      KeysOfPicked(env, page, parcels);
      ok, cache, todo := Resolve(env, parcels, cache0, blocked);
      rows := Edit(rows, names);
      if ok {
        var ts := MakeTriples(env, cands, cache);
        NoTriples(rows);
        if ts != [] && !dryRun { rows := CasAll(rows, ts); }
      }
    }

    /** run: blocked(k) says whether the lookup of the k-th page trips the breaker, others(k)
        what other sessions rename meanwhile. Whatever they do, every row ends as they left it or
        as that repaired, a whole unlimited run repairs every row they leave alone, and no parcel
        is asked for twice. Alone, for any batch and limit exactly the first eligible rows are
        scanned in id order and repaired as one pass would; an abort keeps the pages committed
        before it and nothing of its own. */
    method Run(env: Env, batch: nat, limit: Option<int>, dryRun: bool, blocked: nat -> bool, others: nat -> Names)
      returns (scanned: nat, asked: seq<string>, aborted: bool, ghost kept: nat, ghost pages: nat, ghost lookups: seq<seq<string>>)
      requires Sorted(rows)
      modifies this
      ensures NoDup(asked) && asked == Joined(lookups) && |lookups| == pages
      ensures aborted <==> pages > 0 && Trips(lookups, blocked, pages - 1)
      ensures forall k :: 0 <= k < pages - 1 ==> !Trips(lookups, blocked, k)
      ensures KeepsOthers(env, old(rows), others, pages, rows)
      ensures dryRun ==> rows == Others(old(rows), others, pages)
      ensures !dryRun && !aborted && limit == None && batch > 0 ==>
        forall i :: 0 <= i < |rows| && !Touched(others, pages, old(rows)[i].id) ==> rows[i] == Fix(env, old(rows)[i])
      ensures Quiet(others) ==>
        && kept <= scanned <= |Eligible(old(rows), 0)|
        && rows == (if dryRun then old(rows) else RepairFirst(env, old(rows), kept))
        && (!aborted ==> kept == scanned == Target(batch, limit, |Eligible(old(rows), 0)|))
        && (aborted ==> kept < scanned <= Target(batch, limit, |Eligible(old(rows), 0)|))
        && Elems(asked) == KeysOf(env, Eligible(old(rows), 0)[..scanned])
    {
      hide *;
      ghost var start := rows;
      ghost var quiet := Quiet(others);
      var last: nat, page: nat := 0, 0;
      var cache: map<string, Option<string>> := map[];
      scanned, asked, aborted, kept, pages, lookups := 0, [], false, 0, 0, [];
      NothingJoined();
      AloneStarts(env, start, dryRun, batch, limit);
      SharedStarts(env, start, others, dryRun);
      while true
        invariant !aborted && kept == scanned && page == pages == |lookups| && asked == Joined(lookups)
        invariant forall k :: 0 <= k < pages ==> !Trips(lookups, blocked, k)
        invariant quiet ==> Alone(env, start, rows, scanned, asked, dryRun, last, batch, limit)
        invariant Shared(env, start, others, pages, rows, last, dryRun)
        invariant CacheOk(env, cache) && cache.Keys == Elems(asked) && NoDup(asked)
        decreases Top(start) - last
      {
        SharedKeeps(env, start, others, pages, rows, last, dryRun);
        if quiet { AloneMeans(env, start, rows, scanned, asked, dryRun, last, batch, limit); }
        if limit.Some? && limit.value - scanned <= 0 {
          if quiet { AloneStops(env, start, rows, scanned, asked, dryRun, last, batch, limit); }
          break;
        }
        var room := Room(batch, limit, scanned);
        RoomIs(batch, limit, scanned);
        var read := PageAt(rows, last, room);
        if read == [] {
          if quiet { AloneStops(env, start, rows, scanned, asked, dryRun, last, batch, limit); }
          if !dryRun && limit == None && batch > 0 { SharedEnds(env, start, others, pages, rows, last, room); }
          break;
        }
        ghost var was, n, before := rows, scanned, last;
        SharedNext(env, start, others, pages, rows, last, dryRun, room, read);
        last := read[|read| - 1].id;
        scanned := scanned + |read|;
        var ok, todo;
        ok, cache, todo := DoPage(env, read, cache, blocked(page), dryRun, others(page));
        AskedGrows(asked, todo, Elems(asked), KeysOf(env, read));
        if quiet {
          QuietPage(others, pages, was);
          AloneNext(env, start, was, n, asked, dryRun, before, batch, limit, read, todo);
        }
        JoinedMore(lookups, todo, blocked);
        pages := pages + 1;
        lookups := lookups + [todo];
        asked := asked + todo;
        if !ok {
          SharedKeeps(env, start, others, pages, rows, before, dryRun);
          aborted := true;
          break;
        }
        page := page + 1;
        kept := scanned;
      }
    }

    /** An aborted run, then the same command again, alone on the table. */
    method AbortThenRerun(env: Env, batch: nat, limit: Option<int>, blocked: nat -> bool, later: nat -> bool)
      returns (aborted: bool, again: bool, ghost kept: nat)
      requires Sorted(rows)
      modifies this
      ensures kept <= |Eligible(old(rows), 0)|
      ensures !aborted ==> rows == RepairFirst(env, old(rows), Target(batch, limit, |Eligible(old(rows), 0)|))
      ensures aborted && !again ==> rows == RepairFirst(env, old(rows), Landing(env, old(rows), limit, kept))
    {
      hide *;
      ghost var start := rows;
      var nobody: nat -> Names := k => map[];
      Nobody(nobody);
      var scanned, asked;
      ghost var pages, lookups;
      scanned, asked, aborted, kept, pages, lookups := Run(env, batch, limit, false, blocked, nobody);
      again := false;
      if aborted {
        ghost var more;
        RepairedIds(env, start, kept);
        scanned, asked, again, more, pages, lookups := Run(env, batch, limit, false, later, nobody);
        if !again { TwoRuns(env, start, batch, limit, kept); }
      }
    }
  }

  /** How many rows an aborted run and the same command again repair together: without a limit
      all, with one the limit and the rows the first run took out of the query. */
  function Landing(env: Env, start: seq<Row>, limit: Option<int>, kept: nat): (m: nat)
    requires kept <= |Eligible(start, 0)|
    ensures m <= |Eligible(start, 0)|
  {
    var m := if limit == None then |Eligible(start, 0)| else Min(limit.value + Left(env, start, kept), |Eligible(start, 0)|);
    if m < 0 then 0 else m
  }

  lemma RoomIs(batch: nat, limit: Option<int>, scanned: nat)
    requires limit == None || limit.value - scanned > 0
    ensures Room(batch, limit, scanned) >= 0 && (limit == None ==> Room(batch, limit, scanned) == batch)
  {
  }

  lemma QuietPage(others: nat -> Names, k: nat, rows: seq<Row>)
    requires Quiet(others)
    ensures others(k) == map[] && Edit(rows, others(k)) == rows
  {
    NoEdit(rows);
  }

  lemma Nobody(others: nat -> Names)
    requires forall k :: others(k) == map[]
    ensures Quiet(others)
  {
  }

  lemma RepairedIds(env: Env, start: seq<Row>, k: nat)
    requires Sorted(start) && k <= |Eligible(start, 0)|
    ensures Sorted(RepairFirst(env, start, k))
  {
    hide Eligible, RepairFirst, Sorted;
    var t := RepairFirst(env, start, k);
    forall i | 0 <= i < |start| ensures t[i].id == start[i].id { RepairedAt(env, start, k, i); }
    SortedIds(start, t);
  }

  lemma TwoRuns(env: Env, start: seq<Row>, batch: nat, limit: Option<int>, k: nat)
    requires Sorted(start) && k < Target(batch, limit, |Eligible(start, 0)|)
    ensures var again := RepairFirst(env, start, k);
      RepairFirst(env, again, Target(batch, limit, |Eligible(again, 0)|))
      == RepairFirst(env, start, Landing(env, start, limit, k))
  {
    hide Eligible, RepairFirst, Left, Sorted;
    if limit == None {
      RerunWithoutLimit(env, start, k);
    } else {
      RerunLands(env, start, k, limit.value);
    }
  }

  // ---------- abort, then run again ----------

  /** The rows of the aborted run that its own writes took out of the page query. */
  function Left(env: Env, rows: seq<Row>, kept: nat): int
    requires kept <= |Eligible(rows, 0)|
  {
    var first := Eligible(rows, 0)[..kept];
    kept - |Eligible(FixIds(env, first, Ids(first)), 0)|
  }

  lemma {:induction false} EligibleConcat(a: seq<Row>, b: seq<Row>, last: nat)
    ensures Eligible(a + b, last) == Eligible(a, last) + Eligible(b, last)
  {
    if a == [] {
      assert a + b == b;
    } else {
      ConcatTail(a, b);
      EligibleConcat(a[1..], b, last);
      Assoc(if Selected(a[0], last) then [a[0]] else [], Eligible(a[1..], last), Eligible(b, last));
    }
  }

  lemma {:induction false} AllEligible(a: seq<Row>, last: nat)
    requires forall r :: r in a ==> Selected(r, last)
    ensures Eligible(a, last) == a
  {
    if a != [] {
      assert a[0] in a;
      AllEligible(a[1..], last);
    }
  }

  lemma {:induction false} EligibleSize(a: seq<Row>, last: nat)
    ensures |Eligible(a, last)| <= |a|
  {
    if a != [] { EligibleSize(a[1..], last); }
  }

  lemma FixTail(env: Env, rows: seq<Row>, ids: set<nat>)
    requires rows != []
    ensures FixIds(env, rows, ids)[1..] == FixIds(env, rows[1..], ids)
  {
  }

  /** A row outside the query stays outside it. */
  lemma {:induction false} EligibleAfterFix(env: Env, rows: seq<Row>, ids: set<nat>)
    ensures Eligible(FixIds(env, rows, ids), 0) == Eligible(FixIds(env, Eligible(rows, 0), ids), 0)
  {
    if rows != [] {
      EligibleAfterFix(env, rows[1..], ids);
      FixTail(env, rows, ids);
      var e := Eligible(rows, 0);
      if Selected(rows[0], 0) {
        FixTail(env, e, ids);
        assert e[1..] == Eligible(rows[1..], 0);
      } else {
        assert e == Eligible(rows[1..], 0);
      }
    }
  }

  lemma FixFirstPart(env: Env, e: seq<Row>, k: nat)
    requires Sorted(e) && k <= |e|
    ensures FixIds(env, e, Ids(e[..k])) == FixIds(env, e[..k], Ids(e[..k])) + e[k..]
  {
    var t := FixIds(env, e, Ids(e[..k]));
    forall i | 0 <= i < |e| ensures t[i] == (FixIds(env, e[..k], Ids(e[..k])) + e[k..])[i] {
      if i < k {
        assert e[..k][i] == e[i];
      } else {
        forall r | r in e[..k] ensures r.id != e[i].id { }
      }
    }
  }

  lemma EligibleAgain(env: Env, start: seq<Row>, k: nat)
    requires Sorted(start) && k <= |Eligible(start, 0)|
    ensures var e := Eligible(start, 0);
      Eligible(RepairFirst(env, start, k), 0) == Eligible(FixIds(env, e[..k], Ids(e[..k])), 0) + e[k..]
  {
    var e := Eligible(start, 0);
    EligibleSorted(start, 0);
    EligibleAfterFix(env, start, Ids(e[..k]));
    FixFirstPart(env, e, k);
    EligibleConcat(FixIds(env, e[..k], Ids(e[..k])), e[k..], 0);
    forall r | r in e[k..] ensures Selected(r, 0) { InEligible(start, 0, r); }
    AllEligible(e[k..], 0);
  }

  lemma IdsWithin(env: Env, part: seq<Row>)
    ensures Ids(Eligible(FixIds(env, part, Ids(part)), 0)) <= Ids(part)
  {
    var t := FixIds(env, part, Ids(part));
    forall r | r in Eligible(t, 0) ensures r.id in Ids(part) {
      InEligible(t, 0, r);
      var i :| 0 <= i < |t| && t[i] == r;
      assert part[i] in part;
    }
  }

  lemma IdsReached(e: seq<Row>, k: nat, m: nat, a: seq<Row>)
    requires k <= m <= |e| && Ids(a) <= Ids(e[..k])
    ensures Ids(e[..k]) + Ids(a + e[k..m]) == Ids(e[..m])
  {
    assert e[..m] == e[..k] + e[k..m];
    assert Ids(a + e[k..m]) == Ids(a) + Ids(e[k..m]);
    assert Ids(e[..m]) == Ids(e[..k]) + Ids(e[k..m]);
  }

  /** A run with a limit aborts after its first k rows; run again with the same limit and
      answers it ends where one run with limit + Left would have: the rows it repaired no
      longer use the limit up. */
  lemma RerunLands(env: Env, start: seq<Row>, k: nat, limit: nat)
    requires Sorted(start) && k <= |Eligible(start, 0)| && k <= limit
    ensures 0 <= Left(env, start, k) <= k
    ensures var again := RepairFirst(env, start, k);
      var n := |Eligible(start, 0)|;
      RepairFirst(env, again, Min(limit, |Eligible(again, 0)|)) == RepairFirst(env, start, Min(limit + Left(env, start, k), n))
  {
    var e := Eligible(start, 0);
    var again := RepairFirst(env, start, k);
    var part := FixIds(env, e[..k], Ids(e[..k]));
    var a := Eligible(part, 0);
    EligibleSize(part, 0);
    EligibleAgain(env, start, k);
    IdsWithin(env, e[..k]);
    var left := k - |a|;
    var m := Min(limit + left, |e|);
    hide Eligible, FixIds, Fix, Sorted;
    assert (a + e[k..])[..Min(limit, |a + e[k..]|)] == a + e[k..m];
    IdsReached(e, k, m, a);
    FixUnion(env, start, Ids(e[..k]), Ids(a + e[k..m]));
  }

  /** Without a limit an abort costs nothing: the second run ends in the uninterrupted table. */
  lemma RerunWithoutLimit(env: Env, start: seq<Row>, k: nat)
    requires Sorted(start) && k <= |Eligible(start, 0)|
    ensures var again := RepairFirst(env, start, k);
      RepairFirst(env, again, |Eligible(again, 0)|) == RepairFirst(env, start, |Eligible(start, 0)|)
  {
    RerunLands(env, start, k, |Eligible(start, 0)|);
    var again := RepairFirst(env, start, k);
    EligibleAgain(env, start, k);
  }

  /** With a limit it ends in the uninterrupted table exactly when none of the extra rows it
      reaches has an owner to write. */
  lemma RerunSameIff(env: Env, start: seq<Row>, k: nat, limit: nat)
    requires Sorted(start) && k <= |Eligible(start, 0)| && k <= limit
    ensures var e := Eligible(start, 0);
      var again := RepairFirst(env, start, k);
      RepairFirst(env, again, Min(limit, |Eligible(again, 0)|)) == RepairFirst(env, start, Min(limit, |e|))
      <==> forall i :: limit <= i < |e| && i < limit + Left(env, start, k) ==> Fix(env, e[i]) == e[i]
  {
    var e := Eligible(start, 0);
    var m := Min(limit + Left(env, start, k), |e|);
    RerunLands(env, start, k, limit);
    SamePrefixIff(env, start, Min(limit, |e|), m);
  }

  lemma SamePrefixIff(env: Env, start: seq<Row>, l: nat, m: nat)
    requires Sorted(start) && l <= m <= |Eligible(start, 0)|
    ensures RepairFirst(env, start, m) == RepairFirst(env, start, l)
      <==> forall i :: l <= i < m ==> Fix(env, Eligible(start, 0)[i]) == Eligible(start, 0)[i]
  {
    var e := Eligible(start, 0);
    var a, b := RepairFirst(env, start, l), RepairFirst(env, start, m);
    EligibleSorted(start, 0);
    forall i | l <= i < m ensures a == b ==> Fix(env, e[i]) == e[i] {
      InEligible(start, 0, e[i]);
      var j :| 0 <= j < |start| && start[j] == e[i];
      assert e[i] in e[..m];
      forall r | r in e[..l] ensures r.id != e[i].id { }
      assert b[j] == Fix(env, e[i]) && a[j] == e[i];
    }
    if forall i :: l <= i < m ==> Fix(env, e[i]) == e[i] {
      forall j | 0 <= j < |start| ensures a[j] == b[j] { SameAt(env, start, l, m, j); }
    }
  }

  lemma SameAt(env: Env, start: seq<Row>, l: nat, m: nat, j: nat)
    requires Sorted(start) && l <= m <= |Eligible(start, 0)| && j < |start|
    requires forall i :: l <= i < m ==> Fix(env, Eligible(start, 0)[i]) == Eligible(start, 0)[i]
    ensures RepairFirst(env, start, l)[j] == RepairFirst(env, start, m)[j]
  {
    var e := Eligible(start, 0);
    if start[j].id in Ids(e[..m]) {
      var r :| r in e[..m] && r.id == start[j].id;
      InEligible(start, 0, r);
      var q :| 0 <= q < |start| && start[q] == r;
      assert q == j;
      var i :| 0 <= i < m && e[i] == r;
      if i < l { assert r in e[..l]; }
    } else {
      assert e[..m] == e[..l] + e[l..m];
      assert Ids(e[..l]) <= Ids(e[..m]);
    }
  }

  lemma OwnerLeaves(r: Row)
    requires r.name == Some("OWNER")
    ensures Eligible([r], 0) == []
  {
    assert LEGACY[0] == 'T' && "OWNER"[0] == 'O';
    assert !Selected(r, 0);
    assert [r][1..] == [];
  }

  lemma FixFirst(env: Env, r: Row)
    ensures FixIds(env, [r], Ids([r])) == [Fix(env, r)]
  {
    assert r in [r];
  }

  /** The promise does fail: three nameless rows, --limit 2, blocked after the first. */
  lemma RerunWithLimitDiffers() returns (env: Env, start: seq<Row>)
    ensures Sorted(start) && |Eligible(start, 0)| == 3
    ensures var again := RepairFirst(env, start, 1);
      2 <= |Eligible(again, 0)| && RepairFirst(env, again, 2) != RepairFirst(env, start, 2)
  {
    env := Env(s => s, s => false, s => Some("OWNER"));
    var r1, r2, r3 := Row(1, true, Some("a"), None), Row(2, true, Some("b"), None), Row(3, true, Some("c"), None);
    start := [r1, r2, r3];
    AllEligible(start, 0);
    assert start[..1] == [r1];
    FixFirst(env, r1);
    OwnerLeaves(Fix(env, r1));
    assert Fix(env, r3) != r3;
    assert Left(env, start, 1) == 1;
    hide RepairFirst, Left, Fix, Ids, FixIds;
    EligibleAgain(env, start, 1);
    RerunSameIff(env, start, 1, 2);
    assert start[2] == r3;
  }
}
