/** scripts/backfill_property_membership.py builds the (user, record type, property) roll-up
    page by page with additive upserts; scripts/backfill_property_keys.py re-keys the results
    and builds the same roll-up with one GROUP BY per user. */
module Membership {
  import opened Wrappers
  import opened Seqs

  /** One line of results JOIN jobs JOIN scraper_configs. */
  datatype Row = Row(
    id: nat, user: nat, parcel: Option<string>, address: Option<string>,
    recordType: string, county: string, state: string, propertyKey: Option<string>)

  /** A property key is a digest, never empty. */
  type Key = s: string | s != "" witness "0"

  /** compute_property_key, and the collation: whether one text sorts before another. */
  datatype Env = Env(
    key: (Option<string>, Option<string>, string, string) -> Option<Key>,
    before: (string, string) -> bool)

  datatype K = K(user: nat, recordType: string, key: string)
  datatype Member = Member(parcel: Option<string>, address: Option<string>, count: nat)

  function NewKey(env: Env, r: Row): Option<Key> { env.key(r.parcel, r.address, r.county, r.state) }

  /** The page loop skips a row without a key or with an empty record type. */
  function Sight(env: Env, r: Row): Option<K> {
    match NewKey(env, r)
    case Some(key) => if r.recordType == "" then None else Some(K(r.user, r.recordType, key))
    case None => None
  }

  /** The GROUP BY only asks for property_key IS NOT NULL. */
  function Stored(r: Row): Option<K> {
    if r.propertyKey.Some? then Some(K(r.user, r.recordType, r.propertyKey.value)) else None
  }

  function Sights(env: Env, rows: seq<Row>): seq<Option<K>> {
    seq(|rows|, i requires 0 <= i < |rows| => Sight(env, rows[i]))
  }

  function StoredAll(rows: seq<Row>): seq<Option<K>> {
    seq(|rows|, i requires 0 <= i < |rows| => Stored(rows[i]))
  }

  function Count(ks: seq<Option<K>>, k: K): nat {
    if ks == [] then 0 else Count(ks[..|ks| - 1], k) + if ks[|ks| - 1] == Some(k) then 1 else 0
  }

  lemma {:induction false} CountConcat(a: seq<Option<K>>, b: seq<Option<K>>, k: K)
    ensures Count(a + b, k) == Count(a, k) + Count(b, k)
  {
    if b == [] {
      assert a + b == a;
    } else {
      var front := b[..|b| - 1];
      assert (a + b)[..|a + b| - 1] == a + front;
      CountConcat(a, front, k);
    }
  }

  lemma {:induction false} CountPositive(ks: seq<Option<K>>, k: K)
    ensures Count(ks, k) > 0 <==> Some(k) in ks
  {
    if ks != [] {
      CountPositive(ks[..|ks| - 1], k);
      assert ks == ks[..|ks| - 1] + [ks[|ks| - 1]];
    }
  }

  // ---------- the incremental build ----------

  /** agg: the first row of the page names the parcel and the address, every row counts. */
  function Tally(env: Env, agg: map<K, Member>, r: Row): map<K, Member> {
    match Sight(env, r)
    case None => agg
    case Some(k) =>
      if k in agg then agg[k := agg[k].(count := agg[k].count + 1)] else agg[k := Member(r.parcel, r.address, 1)]
  }

  function Aggregate(env: Env, page: seq<Row>): map<K, Member> {
    if page == [] then map[] else Tally(env, Aggregate(env, page[..|page| - 1]), page[|page| - 1])
  }

  function Coalesce<T>(a: Option<T>, b: Option<T>): Option<T> { if a.Some? then a else b }

  /** ON CONFLICT DO UPDATE. */
  function Merged(was: Member, now: Member): Member {
    Member(Coalesce(was.parcel, now.parcel), Coalesce(was.address, now.address), was.count + now.count)
  }

  function Upsert(m: map<K, Member>, agg: map<K, Member>): map<K, Member> {
    map k | k in m.Keys + agg.Keys ::
      if k in m && k in agg then Merged(m[k], agg[k]) else if k in agg then agg[k] else m[k]
  }

  function Min(a: nat, b: nat): nat { if a < b then a else b }

  /** LIMIT. */
  function Take(rows: seq<Row>, batch: nat): seq<Row> { rows[..Min(batch, |rows|)] }

  /** The table after the pages of the given size have been merged one after the other. */
  function RolledUp(env: Env, m: map<K, Member>, rows: seq<Row>, batch: nat): map<K, Member>
    decreases |rows|
  {
    if rows == [] || batch == 0 then m
    else var n := Min(batch, |rows|);
         RolledUp(env, Upsert(m, Aggregate(env, rows[..n])), rows[n..], batch)
  }

  function CountIn(m: map<K, Member>, k: K): nat { if k in m then m[k].count else 0 }

  lemma {:induction false} AggregateCounts(env: Env, page: seq<Row>, k: K)
    ensures CountIn(Aggregate(env, page), k) == Count(Sights(env, page), k)
    ensures k in Aggregate(env, page) <==> Some(k) in Sights(env, page)
  {
    if page != [] {
      var front := page[..|page| - 1];
      AggregateCounts(env, front, k);
      assert Sights(env, page)[..|page| - 1] == Sights(env, front);
      CountPositive(Sights(env, page), k);
      CountPositive(Sights(env, front), k);
    } else {
      assert Sights(env, page) == [];
    }
  }

  /** The page dictionary takes parcel and address from the first row of the page with the key. */
  lemma {:induction false} FirstRowNames(env: Env, page: seq<Row>, i: nat)
    requires i < |page| && Sight(env, page[i]).Some?
    requires forall j :: 0 <= j < i ==> Sight(env, page[j]) != Sight(env, page[i])
    ensures var k := Sight(env, page[i]).value;
      k in Aggregate(env, page) && Aggregate(env, page)[k].parcel == page[i].parcel
      && Aggregate(env, page)[k].address == page[i].address
  {
    var front, k := page[..|page| - 1], Sight(env, page[i]).value;
    if i < |front| {
      FirstRowNames(env, front, i);
    } else {
      AggregateCounts(env, front, k);
      assert forall j :: 0 <= j < |front| ==> Sights(env, front)[j] != Some(k);
    }
  }

  lemma SightsSplit(env: Env, rows: seq<Row>, n: nat)
    requires n <= |rows|
    ensures Sights(env, rows) == Sights(env, rows[..n]) + Sights(env, rows[n..])
  {
  }

  /** Whatever the batch size, every key ends with its old count plus one for each row that
      carries it, and no key appears that no row carries. */
  lemma {:induction false} RolledUpCounts(env: Env, m: map<K, Member>, rows: seq<Row>, batch: nat, k: K)
    requires batch > 0
    ensures CountIn(RolledUp(env, m, rows, batch), k) == CountIn(m, k) + Count(Sights(env, rows), k)
    ensures k in RolledUp(env, m, rows, batch) <==> k in m || Some(k) in Sights(env, rows)
    decreases |rows|
  {
    if rows != [] {
      var n := Min(batch, |rows|);
      var next := Upsert(m, Aggregate(env, rows[..n]));
      AggregateCounts(env, rows[..n], k);
      RolledUpCounts(env, next, rows[n..], batch, k);
      SightsSplit(env, rows, n);
      CountConcat(Sights(env, rows[..n]), Sights(env, rows[n..]), k);
      assert CountIn(next, k) == CountIn(m, k) + CountIn(Aggregate(env, rows[..n]), k);
    }
  }

  /** A parcel or address once known is never replaced. */
  lemma {:induction false} KnownStays(env: Env, m: map<K, Member>, rows: seq<Row>, batch: nat, k: K)
    requires k in m
    ensures var t := RolledUp(env, m, rows, batch);
      k in t && (m[k].parcel.Some? ==> t[k].parcel == m[k].parcel) && (m[k].address.Some? ==> t[k].address == m[k].address)
    decreases |rows|
  {
    if rows != [] && batch > 0 {
      var n := Min(batch, |rows|);
      KnownStays(env, Upsert(m, Aggregate(env, rows[..n])), rows[n..], batch, k);
    }
  }

  // ---------- what is stored beside a key ----------

  datatype Field = Parcel | Address

  function Of(r: Row, f: Field): Option<string> { if f.Parcel? then r.parcel else r.address }

  function In(m: map<K, Member>, k: K, f: Field): Option<string> {
    if k !in m then None else if f.Parcel? then m[k].parcel else m[k].address
  }

  /** The value on the first row with the key. */
  function First(env: Env, rows: seq<Row>, k: K, f: Field): Option<string> {
    if rows == [] then None else if Sight(env, rows[0]) == Some(k) then Of(rows[0], f) else First(env, rows[1..], k, f)
  }

  /** Some row with the key carries a value. */
  predicate Carried(env: Env, rows: seq<Row>, k: K, f: Field) {
    exists r :: r in rows && Sight(env, r) == Some(k) && Of(r, f).Some?
  }

  lemma {:induction false} FirstSplit(env: Env, a: seq<Row>, b: seq<Row>, k: K, f: Field)
    ensures First(env, a + b, k, f) == if Some(k) in Sights(env, a) then First(env, a, k, f) else First(env, b, k, f)
  {
    if a == [] {
      assert a + b == b;
    } else {
      ConcatTail(a, b);
      FirstSplit(env, a[1..], b, k, f);
      assert Sights(env, a) == [Sight(env, a[0])] + Sights(env, a[1..]);
    }
  }

  lemma {:induction false} AggregateField(env: Env, page: seq<Row>, k: K, f: Field)
    ensures In(Aggregate(env, page), k, f) == First(env, page, k, f)
  {
    if page != [] {
      var front, last := page[..|page| - 1], page[|page| - 1];
      AggregateField(env, front, k, f);
      AggregateCounts(env, front, k);
      assert page == front + [last];
      FirstSplit(env, front, [last], k, f);
      assert First(env, [last], k, f) == if Sight(env, last) == Some(k) then Of(last, f) else None by {
        assert [last][1..] == [];
      }
    }
  }

  lemma {:induction false} FirstIsCarried(env: Env, rows: seq<Row>, k: K, f: Field)
    ensures First(env, rows, k, f).Some? ==> Carried(env, rows, k, f)
  {
    if rows != [] {
      FirstIsCarried(env, rows[1..], k, f);
      assert rows[0] in rows && forall r :: r in rows[1..] ==> r in rows;
    }
  }

  /** Merging a page fills a gap with the value of the page's first row, and changes nothing else. */
  lemma UpsertField(env: Env, m: map<K, Member>, page: seq<Row>, k: K, f: Field)
    ensures In(Upsert(m, Aggregate(env, page)), k, f) == Coalesce(In(m, k, f), First(env, page, k, f))
  {
    AggregateField(env, page, k, f);
  }

  lemma StoredStays(env: Env, m: map<K, Member>, rows: seq<Row>, batch: nat, k: K, f: Field)
    requires In(m, k, f).Some?
    ensures In(RolledUp(env, m, rows, batch), k, f) == In(m, k, f)
  {
    KnownStays(env, m, rows, batch, k);
  }

  /** A value was stored before, no row with the key carries one, or the first such row does. */
  predicate Decided(env: Env, m: map<K, Member>, rows: seq<Row>, k: K, f: Field) {
    In(m, k, f).Some? || !Carried(env, rows, k, f) || First(env, rows, k, f).Some?
  }

  lemma CarriedSplit(env: Env, a: seq<Row>, b: seq<Row>, k: K, f: Field)
    ensures Carried(env, a + b, k, f) <==> Carried(env, a, k, f) || Carried(env, b, k, f)
  {
    if r :| r in a && Sight(env, r) == Some(k) && Of(r, f).Some? { assert r in a + b; }
    if r :| r in b && Sight(env, r) == Some(k) && Of(r, f).Some? { assert r in a + b; }
  }

  lemma {:induction false} CarriedIsSeen(env: Env, page: seq<Row>, k: K, f: Field)
    ensures Some(k) !in Sights(env, page) ==> First(env, page, k, f) == None
  {
    if page != [] {
      CarriedIsSeen(env, page[1..], k, f);
      assert Sights(env, page) == [Sight(env, page[0])] + Sights(env, page[1..]);
    }
  }

  /** Merging one page leaves the rest of the rows decided, with the same outcome. */
  lemma DecidedStep(env: Env, m: map<K, Member>, page: seq<Row>, rest: seq<Row>, k: K, f: Field)
    requires Decided(env, m, page + rest, k, f)
    ensures var next := Upsert(m, Aggregate(env, page));
      && Decided(env, next, rest, k, f)
      && Coalesce(In(next, k, f), First(env, rest, k, f)) == Coalesce(In(m, k, f), First(env, page + rest, k, f))
  {
    UpsertField(env, m, page, k, f);
    FirstSplit(env, page, rest, k, f);
    CarriedSplit(env, page, rest, k, f);
    FirstIsCarried(env, page, k, f);
    FirstIsCarried(env, rest, k, f);
    CarriedIsSeen(env, page, k, f);
    hide Carried, First, In, Upsert, Aggregate, Sights;
  }

  /** Then every page size stores the same: what was there, else what the first row carries. */
  lemma {:induction false} SameForEveryBatch(env: Env, m: map<K, Member>, rows: seq<Row>, batch: nat, k: K, f: Field)
    requires batch > 0 && Decided(env, m, rows, k, f)
    ensures In(RolledUp(env, m, rows, batch), k, f) == Coalesce(In(m, k, f), First(env, rows, k, f))
    decreases |rows|
  {
    if rows != [] {
      hide Decided, In, Upsert, Aggregate;
      var n := Min(batch, |rows|);
      assert rows == rows[..n] + rows[n..];
      DecidedStep(env, m, rows[..n], rows[n..], k, f);
      SameForEveryBatch(env, Upsert(m, Aggregate(env, rows[..n])), rows[n..], batch, k, f);
    }
  }

  /** Pages of one row: some row's value is stored if any row carries one. */
  lemma {:induction false} SingleRowsFind(env: Env, m: map<K, Member>, rows: seq<Row>, k: K, f: Field)
    requires Carried(env, rows, k, f)
    ensures In(RolledUp(env, m, rows, 1), k, f).Some?
    decreases |rows|
  {
    var page, rest := rows[..1], rows[1..];
    var next := Upsert(m, Aggregate(env, page));
    UpsertField(env, m, page, k, f);
    assert page == [rows[0]] && page[1..] == [];
    if In(next, k, f).Some? {
      StoredStays(env, next, rest, 1, k, f);
    } else {
      var r :| r in rows && Sight(env, r) == Some(k) && Of(r, f).Some?;
      assert r != rows[0] && r in rest;
      SingleRowsFind(env, next, rest, k, f);
    }
  }

  /** The parcel, and likewise the address, stored beside a key is the same for every page size
      exactly when one was stored before, no row with the key carries one, or the first does. */
  lemma StoredFieldIff(env: Env, m: map<K, Member>, rows: seq<Row>, k: K, f: Field)
    ensures (forall a: nat, b: nat :: a > 0 && b > 0 ==>
               In(RolledUp(env, m, rows, a), k, f) == In(RolledUp(env, m, rows, b), k, f))
      <==> In(m, k, f).Some? || !Carried(env, rows, k, f) || First(env, rows, k, f).Some?
  {
    if Decided(env, m, rows, k, f) {
      forall a: nat, b: nat | a > 0 && b > 0
        ensures In(RolledUp(env, m, rows, a), k, f) == In(RolledUp(env, m, rows, b), k, f)
      {
        SameForEveryBatch(env, m, rows, a, k, f);
        SameForEveryBatch(env, m, rows, b, k, f);
      }
    } else {
      SingleRowsFind(env, m, rows, k, f);
      var next := Upsert(m, Aggregate(env, rows));
      UpsertField(env, m, rows, k, f);
      assert rows[..|rows|] == rows && rows[|rows|..] == [];
      assert RolledUp(env, m, rows, |rows|) == RolledUp(env, next, [], |rows|) == next;
      assert In(RolledUp(env, m, rows, 1), k, f) != In(RolledUp(env, m, rows, |rows|), k, f);
    }
  }

  /** The parcel stored beside a key does depend on the page size: inside one page the first
      row decides, even with NULL; across pages a later value fills the gap. */
  lemma ParcelDependsOnBatch() returns (env: Env, rows: seq<Row>, k: K)
    ensures k in RolledUp(env, map[], rows, 1) && k in RolledUp(env, map[], rows, 2)
    ensures RolledUp(env, map[], rows, 1)[k].parcel != RolledUp(env, map[], rows, 2)[k].parcel
  {
    env := Env((p, a, c, s) => Some("key"), (x, y) => false);
    k := K(7, "tax", "key");
    var r1 := Row(1, 7, None, Some("1 Main St"), "tax", "king", "WA", None);
    var r2 := Row(2, 7, Some("0042"), Some("1 Main St"), "tax", "king", "WA", None);
    rows := [r1, r2];
    assert Sight(env, r1) == Some(k) && Sight(env, r2) == Some(k);
    OnePage(env, r1);
    OnePage(env, r2);
    assert [r1, r2][..1] == [r1] && [r1, r2][1..] == [r2];
    assert Aggregate(env, [r1, r2]) == map[k := Member(None, Some("1 Main St"), 2)];
    var m1 := Upsert(map[], Aggregate(env, [r1]));
    var m2 := Upsert(m1, Aggregate(env, [r2]));
    assert [r2][..1] == [r2] && RolledUp(env, m1, [r2], 1) == RolledUp(env, m2, [], 1);
    assert [r1, r2][..2] == [r1, r2] && RolledUp(env, map[], rows, 2) == RolledUp(env, Upsert(map[], Aggregate(env, rows)), [], 2);
  }

  lemma OnePage(env: Env, r: Row)
    requires Sight(env, r).Some?
    ensures Aggregate(env, [r]) == map[Sight(env, r).value := Member(r.parcel, r.address, 1)]
  {
    assert [r][..0] == [];
  }

  // ---------- one chunk of the multi-row upsert ----------

  function KeysOf(items: seq<(K, Member)>): seq<K> {
    seq(|items|, i requires 0 <= i < |items| => items[i].0)
  }

  function AsMap(items: seq<(K, Member)>): map<K, Member> {
    if items == [] then map[] else AsMap(items[..|items| - 1])[items[|items| - 1].0 := items[|items| - 1].1]
  }

  lemma {:induction false} AsMapKeys(items: seq<(K, Member)>)
    ensures AsMap(items).Keys == Elems(KeysOf(items))
  {
    if items != [] {
      var front := items[..|items| - 1];
      AsMapKeys(front);
      assert KeysOf(items) == KeysOf(front) + [items[|items| - 1].0];
      assert Elems(KeysOf(items)) == Elems(KeysOf(front)) + {items[|items| - 1].0};
    } else {
      assert KeysOf(items) == [];
    }
  }

  lemma {:induction false} AsMapConcat(a: seq<(K, Member)>, b: seq<(K, Member)>)
    ensures AsMap(a + b) == AsMap(a) + AsMap(b)
  {
    if b == [] {
      assert a + b == a;
    } else {
      var front := b[..|b| - 1];
      assert (a + b)[..|a + b| - 1] == a + front;
      AsMapConcat(a, front);
    }
  }

  /** Disjoint chunks may be merged one after the other. */
  lemma UpsertTwice(m: map<K, Member>, a: map<K, Member>, b: map<K, Member>)
    requires a.Keys !! b.Keys
    ensures Upsert(Upsert(m, a), b) == Upsert(m, a + b)
  {
  }

  lemma KeysConcat(a: seq<(K, Member)>, b: seq<(K, Member)>)
    ensures KeysOf(a + b) == KeysOf(a) + KeysOf(b)
  {
  }

  ghost predicate ItemsOf(items: seq<(K, Member)>, agg: map<K, Member>) {
    NoDup(KeysOf(items)) && AsMap(items) == agg
  }

  lemma ItemsAppend(items: seq<(K, Member)>, k: K, m: Member, agg: map<K, Member>)
    requires ItemsOf(items, agg) && k !in agg
    ensures ItemsOf(items + [(k, m)], agg[k := m])
  {
    KeysConcat(items, [(k, m)]);
    assert KeysOf([(k, m)]) == [k];
    AsMapKeys(items);
    NoDupAppend(KeysOf(items), [k]);
    assert (items + [(k, m)])[..|items|] == items;
  }

  /** agg.items(): every key once, in some order. */
  method Items(agg: map<K, Member>) returns (items: seq<(K, Member)>)
    ensures ItemsOf(items, agg)
  {
    items := [];
    var left := agg.Keys;
    ghost var done: map<K, Member> := map[];
    assert ItemsOf(items, done) by { assert KeysOf([]) == []; }
    while left != {}
      invariant left <= agg.Keys && done.Keys == agg.Keys - left
      invariant forall k :: k in done ==> done[k] == agg[k]
      invariant ItemsOf(items, done)
      decreases left
    {
      hide ItemsOf;
      var k :| k in left;
      ItemsAppend(items, k, agg[k], done);
      items := items + [(k, agg[k])];
      done := done[k := agg[k]];
      left := left - {k};
    }
    assert done == agg;
  }

  /** One page's dictionary. */
  method Tabulate(env: Env, page: seq<Row>) returns (agg: map<K, Member>)
    ensures agg == Aggregate(env, page)
  {
    agg := map[];
    for i := 0 to |page|
      invariant agg == Aggregate(env, page[..i])
    {
      assert page[..i + 1][..i] == page[..i];
      agg := Tally(env, agg, page[i]);
    }
    assert page[..|page|] == page;
  }

  lemma PieceDisjoint(items: seq<(K, Member)>, i: nat, j: nat)
    requires NoDup(KeysOf(items)) && i <= j <= |items|
    ensures NoDup(KeysOf(items[i..j])) && AsMap(items[..i]).Keys !! AsMap(items[i..j]).Keys
    ensures AsMap(items[..j]) == AsMap(items[..i]) + AsMap(items[i..j])
  {
    assert items[..j] == items[..i] + items[i..j];
    KeysConcat(items[..i], items[i..j]);
    KeysConcat(items[..j], items[j..]);
    assert items == items[..j] + items[j..];
    NoDupAppend(KeysOf(items[..j]), KeysOf(items[j..]));
    NoDupAppend(KeysOf(items[..i]), KeysOf(items[i..j]));
    AsMapKeys(items[..i]);
    AsMapKeys(items[i..j]);
    AsMapConcat(items[..i], items[i..j]);
  }

  // ---------- keyset pages over a table that only this script changes ----------

  ghost predicate Keyed(rows: seq<Row>) {
    && (forall i :: 0 <= i < |rows| ==> rows[i].id > 0)
    && forall i, j :: 0 <= i < j < |rows| ==> rows[i].id < rows[j].id
  }

  /** WHERE id > last over rows in id order. */
  function Beyond(rows: seq<Row>, last: nat): seq<Row> {
    if rows == [] || rows[0].id > last then rows else Beyond(rows[1..], last)
  }

  lemma {:induction false} BeyondIs(rows: seq<Row>, n: nat, last: nat)
    requires Keyed(rows) && n <= |rows| && last == if n == 0 then 0 else rows[n - 1].id
    ensures Beyond(rows, last) == rows[n..]
  {
    if n > 0 {
      if n == 1 {
        assert Beyond(rows[1..], last) == rows[1..];
      } else {
        BeyondIs(rows[1..], n - 1, last);
      }
    }
  }

  function Rekeyed(env: Env, r: Row): Row { r.(propertyKey := NewKey(env, r)) }

  function RekeyedAll(env: Env, rows: seq<Row>): seq<Row> {
    seq(|rows|, i requires 0 <= i < |rows| => Rekeyed(env, rows[i]))
  }

  /** How many of the first n rows the re-key changes. */
  function Changed(env: Env, rows: seq<Row>, n: nat): nat
    requires n <= |rows|
  {
    if n == 0 then 0
    else Changed(env, rows, n - 1) + if Rekeyed(env, rows[n - 1]) == rows[n - 1] then 0 else 1
  }

  /** UPDATE results SET property_key = ... WHERE id = :id. */
  function SetKey(rows: seq<Row>, id: nat, key: Option<string>): seq<Row> {
    seq(|rows|, i requires 0 <= i < |rows| => if rows[i].id == id then rows[i].(propertyKey := key) else rows[i])
  }

  // ---------- the one-shot rebuild ----------

  function StoredKeys(rows: seq<Row>): set<K> { set r | r in rows && Stored(r).Some? :: Stored(r).value }

  function Group(rows: seq<Row>, k: K): seq<Row> {
    if rows == [] then [] else (if Stored(rows[0]) == Some(k) then [rows[0]] else []) + Group(rows[1..], k)
  }

  function Parcels(rows: seq<Row>): seq<Option<string>> {
    seq(|rows|, i requires 0 <= i < |rows| => rows[i].parcel)
  }

  function Addresses(rows: seq<Row>): seq<Option<string>> {
    seq(|rows|, i requires 0 <= i < |rows| => rows[i].address)
  }

  /** min(): the smallest value that is not NULL. */
  function Least(env: Env, s: seq<Option<string>>): Option<string> {
    if s == [] then None
    else
      var rest, last := Least(env, s[..|s| - 1]), s[|s| - 1];
      if last == None then rest else if rest == None || env.before(last.value, rest.value) then last else rest
  }

  ghost predicate Collates(env: Env) {
    && (forall x, y :: x == y || env.before(x, y) || env.before(y, x))
    && (forall x, y :: env.before(x, y) ==> x != y && !env.before(y, x))
    && forall x, y, z :: env.before(x, y) && env.before(y, z) ==> env.before(x, z)
  }

  lemma {:induction false} LeastIs(env: Env, s: seq<Option<string>>)
    requires Collates(env)
    ensures Least(env, s) == None <==> forall i :: 0 <= i < |s| ==> s[i] == None
    ensures Least(env, s) != None ==> Least(env, s) in s
    ensures forall i :: 0 <= i < |s| && s[i].Some? ==>
      Least(env, s).Some? && (s[i] == Least(env, s) || env.before(Least(env, s).value, s[i].value))
  {
    if s != [] {
      var n := |s| - 1;
      LeastIs(env, s[..n]);
      assert forall i :: 0 <= i < n ==> s[..n][i] == s[i];
      assert s[n] in s;
    }
  }

  /** GROUP BY user_id, record_type, property_key. */
  function GroupBy(env: Env, rows: seq<Row>, k: K): Member {
    var g := Group(rows, k);
    Member(Least(env, Parcels(g)), Least(env, Addresses(g)), |g|)
  }

  lemma {:induction false} GroupCounts(rows: seq<Row>, k: K)
    ensures |Group(rows, k)| == Count(StoredAll(rows), k)
  {
    if rows == [] {
      assert StoredAll(rows) == [];
    } else {
      GroupCounts(rows[1..], k);
      assert StoredAll(rows) == [Stored(rows[0])] + StoredAll(rows[1..]);
      CountConcat([Stored(rows[0])], StoredAll(rows[1..]), k);
      OneSight(Stored(rows[0]), k);
    }
  }

  lemma OneSight(o: Option<K>, k: K)
    ensures Count([o], k) == if o == Some(k) then 1 else 0
  {
    assert [o][..0] == [];
  }

  /** The roll-up of these users replaced, every other user's left alone. */
  function Rebuilt(env: Env, m: map<K, Member>, rows: seq<Row>, users: set<nat>): map<K, Member> {
    map k | k in m.Keys + StoredKeys(rows) && (k.user in users ==> k in StoredKeys(rows)) && (k.user !in users ==> k in m)
      :: if k.user in users then GroupBy(env, rows, k) else m[k]
  }

  /** The row counts for this key: its user, its list, and its stored key. */
  predicate Counts(r: Row, k: K) {
    r.user == k.user && r.recordType == k.recordType && r.propertyKey == Some(k.key)
  }

  ghost function CountedIn(rows: seq<Row>, k: K): set<nat> { set i: nat | i < |rows| && Counts(rows[i], k) }

  lemma {:induction false} GroupIs(rows: seq<Row>, k: K)
    ensures forall r :: r in Group(rows, k) <==> r in rows && Counts(r, k)
    ensures |Group(rows, k)| == |CountedIn(rows, k)|
  {
    if rows != [] {
      GroupIs(rows[1..], k);
      var rest := CountedIn(rows[1..], k);
      ShiftCount(rows, k);
      assert rows == [rows[0]] + rows[1..];
    } else {
      assert CountedIn(rows, k) == {};
    }
  }

  lemma ShiftCount(rows: seq<Row>, k: K)
    requires rows != []
    ensures |CountedIn(rows, k)| == |CountedIn(rows[1..], k)| + if Counts(rows[0], k) then 1 else 0
  {
    hide Counts;
    ShiftedSize(CountedIn(rows, k), CountedIn(rows[1..], k), Counts(rows[0], k));
  }

  lemma {:induction false} ShiftedSize(all: set<nat>, rest: set<nat>, first: bool)
    requires forall i: nat :: i in all <==> if i == 0 then first else i - 1 in rest
    ensures |all| == |rest| + if first then 1 else 0
    decreases rest
  {
    if j :| j in rest {
      ShiftedSize(all - {j + 1}, rest - {j}, first);
      assert j + 1 in all;
    } else {
      assert all == if first then {0} else {};
    }
  }

  /** The rebuilt roll-up, column by column: the keys some row counts for, how many rows count, and
      the smallest parcel and address among them. */
  lemma RebuiltIs(env: Env, m: map<K, Member>, rows: seq<Row>, users: set<nat>, k: K)
    requires Collates(env)
    ensures var t := Rebuilt(env, m, rows, users);
      && (k.user !in users ==> (k in t <==> k in m) && (k in t ==> t[k] == m[k]))
      && (k.user in users ==> (k in t <==> exists i :: 0 <= i < |rows| && Counts(rows[i], k)))
      && (k.user in users && k in t ==>
            && t[k].count == |CountedIn(rows, k)|
            && (t[k].parcel.Some? ==> exists i :: 0 <= i < |rows| && Counts(rows[i], k) && rows[i].parcel == t[k].parcel)
            && (t[k].address.Some? ==> exists i :: 0 <= i < |rows| && Counts(rows[i], k) && rows[i].address == t[k].address)
            && (forall i :: 0 <= i < |rows| && Counts(rows[i], k) ==>
                  NotAfter(env, t[k].parcel, rows[i].parcel) && NotAfter(env, t[k].address, rows[i].address)))
  {
    GroupIs(rows, k);
    var t := Rebuilt(env, m, rows, users);
    if k.user in users {
      forall i | 0 <= i < |rows| && Counts(rows[i], k) ensures k in StoredKeys(rows) {
        assert rows[i] in rows && Stored(rows[i]) == Some(k);
      }
      if k in t {
        hide Group, Least, Counts, CountedIn;
        LeastOfColumn(env, rows, k);
      }
    }
  }

  /** NULL sorts after every value. */
  predicate NotAfter(env: Env, a: Option<string>, b: Option<string>) {
    b.Some? ==> a.Some? && (a == b || env.before(a.value, b.value))
  }

  lemma LeastOfColumn(env: Env, rows: seq<Row>, k: K)
    requires Collates(env)
    ensures var g := GroupBy(env, rows, k);
      && g.count == |CountedIn(rows, k)|
      && (g.parcel.Some? ==> exists i :: 0 <= i < |rows| && Counts(rows[i], k) && rows[i].parcel == g.parcel)
      && (g.address.Some? ==> exists i :: 0 <= i < |rows| && Counts(rows[i], k) && rows[i].address == g.address)
      && (forall i :: 0 <= i < |rows| && Counts(rows[i], k) ==>
            NotAfter(env, g.parcel, rows[i].parcel) && NotAfter(env, g.address, rows[i].address))
  {
    GroupIs(rows, k);
    var g := Group(rows, k);
    hide Group, Least, Counts, CountedIn, Collates;
    LeastIs(env, Parcels(g));
    LeastIs(env, Addresses(g));
    var m := GroupBy(env, rows, k);
    if m.parcel.Some? {
      var j :| 0 <= j < |g| && Parcels(g)[j] == m.parcel;
      assert g[j] in g;
    }
    if m.address.Some? {
      var j :| 0 <= j < |g| && Addresses(g)[j] == m.address;
      assert g[j] in g;
    }
    forall i | 0 <= i < |rows| && Counts(rows[i], k)
      ensures NotAfter(env, m.parcel, rows[i].parcel) && NotAfter(env, m.address, rows[i].address)
    {
      assert rows[i] in g;
      var j :| 0 <= j < |g| && g[j] == rows[i];
      assert Parcels(g)[j] == rows[i].parcel && Addresses(g)[j] == rows[i].address;
    }
  }

  /** The new key, and what the page loop counts a row under, column by column. */
  lemma KeyedBy(env: Env, rows: seq<Row>, i: nat)
    requires i < |rows|
    ensures var r := rows[i];
      var key := env.key(r.parcel, r.address, r.county, r.state);
      && |RekeyedAll(env, rows)| == |rows| && RekeyedAll(env, rows)[i] == r.(propertyKey := key)
      && Sight(env, r) == if key.Some? && r.recordType != "" then Some(K(r.user, r.recordType, key.value)) else None
  {
  }

  lemma RebuiltOneMore(env: Env, m: map<K, Member>, rows: seq<Row>, users: set<nat>, u: nat)
    ensures Rebuilt(env, Rebuilt(env, m, rows, users), rows, {u}) == Rebuilt(env, m, rows, users + {u})
  {
  }

  lemma EmptyChunk(m: map<K, Member>, chunk: seq<(K, Member)>)
    ensures NoDup(KeysOf(chunk[..0])) && Upsert(m, AsMap(chunk[..0])) == m
  {
    assert Upsert(m, map[]) == m;
  }

  lemma RepeatRefused(chunk: seq<(K, Member)>, j: nat, i: nat)
    requires j < i < |chunk| && chunk[j].0 == chunk[i].0
    ensures !NoDup(KeysOf(chunk))
  {
    assert KeysOf(chunk)[j] == KeysOf(chunk)[i];
  }

  lemma ChunkOneMore(m: map<K, Member>, chunk: seq<(K, Member)>, i: nat)
    requires i < |chunk| && NoDup(KeysOf(chunk[..i])) && forall j :: 0 <= j < i ==> chunk[j].0 != chunk[i].0
    ensures NoDup(KeysOf(chunk[..i + 1]))
    ensures Upsert(Upsert(m, AsMap(chunk[..i])), map[chunk[i].0 := chunk[i].1]) == Upsert(m, AsMap(chunk[..i + 1]))
  {
    var a, k := chunk[..i], chunk[i].0;
    assert chunk[..i + 1][..i] == a;
    AsMapKeys(a);
    forall j | 0 <= j < i ensures KeysOf(a)[j] != k { assert a[j] == chunk[j]; }
    UpsertTwice(m, AsMap(a), map[k := chunk[i].1]);
    assert AsMap(a)[k := chunk[i].1] == AsMap(a) + map[k := chunk[i].1];
    assert KeysOf(chunk[..i + 1]) == KeysOf(a) + [k];
    NoDupAppend(KeysOf(a), [k]);
  }

  lemma ItemsFacts(items: seq<(K, Member)>, agg: map<K, Member>, was: map<K, Member>)
    requires ItemsOf(items, agg)
    ensures NoDup(KeysOf(items)) && AsMap(items) == agg && Upsert(was, AsMap(items[..0])) == was
  {
    EmptyChunk(was, items);
  }

  /** How far a re-key run has come after n rows. */
  ghost predicate Reached(env: Env, start: seq<Row>, rows: seq<Row>, n: nat, commit: bool) {
    && n <= |start| == |rows|
    && forall i :: 0 <= i < |rows| ==> rows[i] == if commit && i < n then Rekeyed(env, start[i]) else start[i]
  }

  lemma RekeyAhead(env: Env, start: seq<Row>, rows: seq<Row>, n: nat, last: nat, commit: bool)
    requires Keyed(start) && Reached(env, start, rows, n, commit) && last == if n == 0 then 0 else start[n - 1].id
    ensures Beyond(rows, last) == start[n..]
  {
    assert forall i :: 0 <= i < |rows| ==> rows[i].id == start[i].id;
    BeyondIs(rows, n, last);
  }

  /** One row of the re-key: its key is replaced when it differs, and then counted. */
  lemma RekeyStep(env: Env, start: seq<Row>, rows: seq<Row>, n: nat, commit: bool)
    requires Keyed(start) && Reached(env, start, rows, n, commit) && n < |start|
    ensures var key := NewKey(env, start[n]);
      Reached(env, start, if commit && key != start[n].propertyKey then SetKey(rows, start[n].id, key) else rows, n + 1, commit)
      && Changed(env, start, n + 1) == Changed(env, start, n) + if key == start[n].propertyKey then 0 else 1
  {
  }

  lemma ReachedNothing(env: Env, start: seq<Row>, commit: bool)
    ensures Reached(env, start, start, 0, commit) && Changed(env, start, 0) == 0
  {
  }

  lemma TakeIs(start: seq<Row>, n: nat, batch: nat)
    requires n <= |start|
    ensures var page := Take(start[n..], batch);
      && n + |page| <= |start| && page == start[n..n + |page|] && (page == [] <==> batch == 0 || n == |start|)
      && (page != [] ==> page[|page| - 1] == start[n + |page| - 1])
  {
  }

  lemma ReachedEnd(env: Env, start: seq<Row>, rows: seq<Row>, n: nat, commit: bool)
    requires Reached(env, start, rows, n, commit)
    ensures n <= |start| == |rows|
    ensures n == |start| ==> rows == if commit then RekeyedAll(env, start) else start
    ensures n == 0 ==> rows == start
  {
  }

  class Store {
    var rows: seq<Row>
    var members: map<K, Member>

    /** INSERT ... VALUES (chunk) ON CONFLICT DO UPDATE: the server refuses a statement that
        would touch one row twice. */
    method UpsertChunk(chunk: seq<(K, Member)>) returns (ok: bool)
      modifies this`members
      ensures ok <==> NoDup(KeysOf(chunk))
      ensures members == if ok then Upsert(old(members), AsMap(chunk)) else old(members)
    {
      hide NoDup, KeysOf, Upsert;
      var m := members;
      assert NoDup(KeysOf(chunk[..0])) && m == Upsert(members, AsMap(chunk[..0])) by { EmptyChunk(members, chunk); }
      for i := 0 to |chunk|
        invariant NoDup(KeysOf(chunk[..i])) && m == Upsert(members, AsMap(chunk[..i])) && members == old(members)
      {
        if j :| 0 <= j < i && chunk[j].0 == chunk[i].0 {
          RepeatRefused(chunk, j, i);
          return false;
        }
        ChunkOneMore(members, chunk, i);
        m := Upsert(m, map[chunk[i].0 := chunk[i].1]);
      }
      assert chunk[..|chunk|] == chunk;
      members, ok := m, true;
    }

    /** One page's items go in chunks of 500, none of which ever names a key twice. */
    method MergePage(agg: map<K, Member>)
      modifies this`members
      ensures members == Upsert(old(members), agg)
    {
      hide *;
      var items := Items(agg);
      ghost var was := members;
      ItemsFacts(items, agg, was);
      var i := 0;
      while i < |items|
        invariant 0 <= i <= |items| && members == Upsert(was, AsMap(items[..i]))
      {
        var j := if i + 500 < |items| then i + 500 else |items|;
        PieceDisjoint(items, i, j);
        UpsertTwice(was, AsMap(items[..i]), AsMap(items[i..j]));
        var ok := UpsertChunk(items[i..j]);
        assert ok;
        i := j;
      }
      assert items[..|items|] == items;
    }

    /** backfill_property_membership.run. */
    method Accumulate(env: Env, batch: nat) returns (total: nat)
      requires Keyed(rows)
      modifies this`members
      ensures members == RolledUp(env, old(members), rows, batch)
      ensures batch > 0 ==> total == |rows|
    {
      hide Keyed, Upsert, Aggregate;
      var last := 0;
      total := 0;
      while true
        invariant total <= |rows| && last == if total == 0 then 0 else rows[total - 1].id
        invariant RolledUp(env, members, rows[total..], batch) == RolledUp(env, old(members), rows, batch)
        decreases |rows| - total
      {
        BeyondIs(rows, total, last);
        var page := Take(Beyond(rows, last), batch);
        if page == [] { break; }
        last := page[|page| - 1].id;
        var agg := Tabulate(env, page);
        MergePage(agg);
        assert rows[total..][|page|..] == rows[total + |page|..];
        total := total + |page|;
      }
    }

    /** The updates of one page of the re-key. */
    method RekeyPage(env: Env, ghost start: seq<Row>, ghost n: nat, page: seq<Row>, commit: bool) returns (more: nat)
      requires Keyed(start) && Reached(env, start, rows, n, commit)
      requires n + |page| <= |start| && page == start[n..n + |page|]
      modifies this`rows
      ensures Reached(env, start, rows, n + |page|, commit)
      ensures Changed(env, start, n + |page|) == Changed(env, start, n) + more
    {
      hide *;
      more := 0;
      for i := 0 to |page|
        invariant Reached(env, start, rows, n + i, commit)
        invariant Changed(env, start, n + i) == Changed(env, start, n) + more
      {
        var r := page[i];
        assert r == start[n + i];
        RekeyStep(env, start, rows, n + i, commit);
        var key := NewKey(env, r);
        if key != r.propertyKey {
          more := more + 1;
          if commit { rows := SetKey(rows, r.id, key); }
        }
      }
    }

    /** rekey_results: every row ends with the key of the new scheme. */
    method Rekey(env: Env, batch: nat, commit: bool) returns (scanned: nat, changed: nat)
      requires Keyed(rows)
      modifies this`rows
      ensures batch > 0 ==> rows == if commit then RekeyedAll(env, old(rows)) else old(rows)
      ensures batch > 0 ==> scanned == |old(rows)| && changed == Changed(env, old(rows), |old(rows)|)
      ensures batch == 0 ==> rows == old(rows)
    {
      hide *;
      ghost var start := rows;
      var last := 0;
      scanned, changed := 0, 0;
      ReachedNothing(env, start, commit);
      while true
        invariant Reached(env, start, rows, scanned, commit) && (batch == 0 ==> scanned == 0)
        invariant scanned <= |start| && last == (if scanned == 0 then 0 else start[scanned - 1].id)
        invariant changed == Changed(env, start, scanned)
        decreases |start| - scanned
      {
        RekeyAhead(env, start, rows, scanned, last, commit);
        var page := Take(Beyond(rows, last), batch);
        TakeIs(start, scanned, batch);
        if page == [] { break; }
        last := page[|page| - 1].id;
        var more := RekeyPage(env, start, scanned, page, commit);
        changed := changed + more;
        scanned := scanned + |page|;
      }
      ReachedEnd(env, start, rows, scanned, commit);
    }

    /** rebuild_membership: DELETE and INSERT of one user at a time. */
    method Rebuild(env: Env, users: seq<nat>)
      modifies this`members
      ensures members == Rebuilt(env, old(members), rows, Elems(users))
    {
      assert members == Rebuilt(env, members, rows, {});
      assert Elems(users[..0]) == {};
      for i := 0 to |users|
        invariant members == Rebuilt(env, old(members), rows, Elems(users[..i]))
      {
        RebuiltOneMore(env, old(members), rows, Elems(users[..i]), users[i]);
        assert Elems(users[..i + 1]) == Elems(users[..i]) + {users[i]};
        DeleteInsert(env, members, rows, users[i]);
        hide Rebuilt, Elems, InsertGroups, DeleteUser;
        members := DeleteUser(members, users[i]);
        members := InsertGroups(env, members, rows, users[i]);
      }
      assert users[..|users|] == users;
    }
  }

  function DeleteUser(m: map<K, Member>, u: nat): map<K, Member> {
    map k | k in m && k.user != u :: m[k]
  }

  function InsertGroups(env: Env, m: map<K, Member>, rows: seq<Row>, u: nat): map<K, Member> {
    m + map k | k in StoredKeys(rows) && k.user == u :: GroupBy(env, rows, k)
  }

  lemma DeleteInsert(env: Env, m: map<K, Member>, rows: seq<Row>, u: nat)
    ensures InsertGroups(env, DeleteUser(m, u), rows, u) == Rebuilt(env, m, rows, {u})
  {
  }

  // ---------- the two builds agree ----------

  /** From an empty table the page-by-page build and the GROUP BY after re-keying give the same
      keys and the same sighting counts, for any page size, exactly when no row that has a key
      has an empty record type: those the first skips and the second counts. */
  lemma BuildsAgreeIff(env: Env, rows: seq<Row>, batch: nat, users: set<nat>)
    requires batch > 0 && forall r :: r in rows ==> r.user in users
    ensures var paged := RolledUp(env, map[], rows, batch);
      var grouped := Rebuilt(env, map[], RekeyedAll(env, rows), users);
      (paged.Keys == grouped.Keys && forall k :: k in paged ==> paged[k].count == grouped[k].count)
      <==> forall r :: r in rows && NewKey(env, r).Some? ==> r.recordType != ""
  {
    var paged := RolledUp(env, map[], rows, batch);
    var after := RekeyedAll(env, rows);
    var grouped := Rebuilt(env, map[], after, users);
    if forall r :: r in rows && NewKey(env, r).Some? ==> r.recordType != "" {
      assert Sights(env, rows) == StoredAll(after);
      forall k ensures k in paged <==> k in grouped { SameKeys(env, rows, batch, users, k); }
      forall k | k in paged && k in grouped ensures paged[k].count == grouped[k].count {
        SameKeys(env, rows, batch, users, k);
      }
    } else {
      var r :| r in rows && NewKey(env, r).Some? && r.recordType == "";
      SkippedRow(env, rows, batch, users, r);
    }
  }

  lemma SameKeys(env: Env, rows: seq<Row>, batch: nat, users: set<nat>, k: K)
    requires batch > 0 && forall r :: r in rows ==> r.user in users
    requires Sights(env, rows) == StoredAll(RekeyedAll(env, rows))
    ensures var paged := RolledUp(env, map[], rows, batch);
      var grouped := Rebuilt(env, map[], RekeyedAll(env, rows), users);
      (k in paged <==> k in grouped) && (k in paged && k in grouped ==> paged[k].count == grouped[k].count)
  {
    var after := RekeyedAll(env, rows);
    RolledUpCounts(env, map[], rows, batch, k);
    GroupCounts(after, k);
    KeysStored(env, rows, users, k);
  }

  lemma KeysStored(env: Env, rows: seq<Row>, users: set<nat>, k: K)
    requires forall r :: r in rows ==> r.user in users
    ensures var after := RekeyedAll(env, rows);
      && (k in StoredKeys(after) <==> Some(k) in StoredAll(after))
      && (k in StoredKeys(after) ==> k.user in users)
  {
    var after := RekeyedAll(env, rows);
    if k in StoredKeys(after) {
      var r :| r in after && Stored(r) == Some(k);
      var i :| 0 <= i < |after| && after[i] == r;
      assert rows[i] in rows && StoredAll(after)[i] == Some(k);
    }
    if Some(k) in StoredAll(after) {
      var i :| 0 <= i < |after| && StoredAll(after)[i] == Some(k);
      assert after[i] in after;
    }
  }

  lemma SkippedRow(env: Env, rows: seq<Row>, batch: nat, users: set<nat>, r: Row)
    requires batch > 0 && forall q :: q in rows ==> q.user in users
    requires r in rows && NewKey(env, r).Some? && r.recordType == ""
    ensures var k := K(r.user, r.recordType, NewKey(env, r).value);
      k !in RolledUp(env, map[], rows, batch) && k in Rebuilt(env, map[], RekeyedAll(env, rows), users)
  {
    var k := K(r.user, r.recordType, NewKey(env, r).value);
    var after := RekeyedAll(env, rows);
    RolledUpCounts(env, map[], rows, batch, k);
    forall i | 0 <= i < |rows| ensures Sights(env, rows)[i] != Some(k) { }
    var i :| 0 <= i < |rows| && rows[i] == r;
    assert after[i] in after && Stored(after[i]) == Some(k);
  }

  /** One row of a config whose record type is the empty string: nothing built, one row built. */
  lemma EmptyTypeDisagrees(batch: nat) returns (env: Env, rows: seq<Row>)
    requires batch > 0
    ensures RolledUp(env, map[], rows, batch).Keys == {}
    ensures Rebuilt(env, map[], RekeyedAll(env, rows), {7}).Keys == {K(7, "", "key")}
  {
    env := Env((p, a, c, s) => Some("key"), (x, y) => false);
    var r := Row(1, 7, Some("0042"), None, "", "king", "WA", None);
    rows := [r];
    SkippedRow(env, rows, batch, {7}, r);
    forall k ensures k !in RolledUp(env, map[], rows, batch) {
      RolledUpCounts(env, map[], rows, batch, k);
      assert Sight(env, r) == None && Sights(env, rows) == [None];
    }
    assert forall q :: q in RekeyedAll(env, rows) ==> Stored(q) == Some(K(7, "", "key"));
  }

  /** A second page-by-page run doubles every count it built: sighting_count is advisory. */
  lemma SecondRunDoubles(env: Env, rows: seq<Row>, batch: nat, k: K)
    requires batch > 0
    ensures var once := RolledUp(env, map[], rows, batch);
      CountIn(RolledUp(env, once, rows, batch), k) == 2 * CountIn(once, k)
  {
    RolledUpCounts(env, map[], rows, batch, k);
    RolledUpCounts(env, RolledUp(env, map[], rows, batch), rows, batch, k);
  }

  /** The rebuild is idempotent where the page-by-page build is not. */
  lemma RebuildTwice(env: Env, m: map<K, Member>, rows: seq<Row>, users: set<nat>)
    ensures Rebuilt(env, Rebuilt(env, m, rows, users), rows, users) == Rebuilt(env, m, rows, users)
  {
  }
}
