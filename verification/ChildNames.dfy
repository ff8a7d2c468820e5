/** scripts/backfill_batch_child_names.py: plan the renames of colliding batch children, check
    the state the renames would leave, and apply them all or not at all. */
module ChildNames {
  import opened Wrappers
  import opened Seqs

  /** batchName: the parent's name through the LEFT JOIN, None without a parent or a name. */
  datatype Config = Config(
    id: nat, user: nat, name: string, county: string, recordType: string,
    batch: Option<nat>, batchName: Option<string>)

  /** norm: strip().lower(). derive: derive_batch_child_name. */
  datatype Env = Env(norm: string -> string, derive: (string, string, string) -> string)

  datatype Rename = Rename(id: nat, user: nat, was: string, to: string, batch: nat)
  datatype Audit = Audit(user: nat, id: nat, was: string, to: string)

  function KeyOf(env: Env, c: Config): (nat, string) { (c.user, env.norm(c.name)) }

  predicate UsableParent(env: Env, c: Config) {
    c.batch.Some? && c.batchName.Some? && env.norm(c.batchName.value) != ""
  }

  function Derived(env: Env, c: Config): string
    requires c.batchName.Some?
  {
    env.derive(c.batchName.value, c.county, c.recordType)
  }

  predicate Renamable(env: Env, c: Config) {
    UsableParent(env, c) && c.name != Derived(env, c)
  }

  function RenameOf(env: Env, c: Config): Rename
    requires Renamable(env, c)
  {
    Rename(c.id, c.user, c.name, Derived(env, c), c.batch.value)
  }

  // ---------- build_plan ----------

  function Group(env: Env, rows: seq<Config>, key: (nat, string)): seq<Config> {
    if rows == [] then []
    else Group(env, rows[..|rows| - 1], key)
         + if KeyOf(env, rows[|rows| - 1]) == key then [rows[|rows| - 1]] else []
  }

  /** The keys in the order their first config comes. */
  function Keys(env: Env, rows: seq<Config>): seq<(nat, string)> {
    if rows == [] then []
    else var front, k := Keys(env, rows[..|rows| - 1]), KeyOf(env, rows[|rows| - 1]);
         if k in front then front else front + [k]
  }

  function RenamesIn(env: Env, group: seq<Config>): seq<Rename> {
    if group == [] then []
    else RenamesIn(env, group[..|group| - 1])
         + var c := group[|group| - 1]; if Renamable(env, c) then [RenameOf(env, c)] else []
  }

  function PlanFor(env: Env, rows: seq<Config>, keys: seq<(nat, string)>): seq<Rename> {
    if keys == [] then []
    else PlanFor(env, rows, keys[..|keys| - 1])
         + var g := Group(env, rows, keys[|keys| - 1]); if |g| < 2 then [] else RenamesIn(env, g)
  }

  function BuildPlan(env: Env, rows: seq<Config>): seq<Rename> { PlanFor(env, rows, Keys(env, rows)) }

  lemma {:induction false} InKeys(env: Env, rows: seq<Config>, k: (nat, string))
    ensures k in Keys(env, rows) <==> exists c :: c in rows && KeyOf(env, c) == k
    ensures NoDup(Keys(env, rows))
  {
    if rows != [] {
      var front, last := rows[..|rows| - 1], rows[|rows| - 1];
      InKeys(env, front, k);
      InKeys(env, front, KeyOf(env, last));
      assert rows == front + [last];
    }
  }

  lemma {:induction false} InGroup(env: Env, rows: seq<Config>, k: (nat, string), c: Config)
    ensures c in Group(env, rows, k) <==> c in rows && KeyOf(env, c) == k
  {
    if rows != [] {
      InGroup(env, rows[..|rows| - 1], k, c);
      assert rows == rows[..|rows| - 1] + [rows[|rows| - 1]];
    }
  }

  lemma {:induction false} InRenames(env: Env, group: seq<Config>, p: Rename)
    ensures p in RenamesIn(env, group) <==> exists c :: c in group && Renamable(env, c) && RenameOf(env, c) == p
  {
    if group != [] {
      InRenames(env, group[..|group| - 1], p);
      assert group == group[..|group| - 1] + [group[|group| - 1]];
    }
  }

  predicate PlannedFrom(env: Env, rows: seq<Config>, k: (nat, string), p: Rename) {
    |Group(env, rows, k)| >= 2 && p in RenamesIn(env, Group(env, rows, k))
  }

  lemma {:induction false} InPlanFor(env: Env, rows: seq<Config>, keys: seq<(nat, string)>, p: Rename)
    ensures p in PlanFor(env, rows, keys) <==> exists k :: k in keys && PlannedFrom(env, rows, k, p)
  {
    hide Group, RenamesIn;
    if keys != [] {
      var front, last := keys[..|keys| - 1], keys[|keys| - 1];
      InPlanFor(env, rows, front, p);
      assert keys == front + [last];
      assert p in PlanFor(env, rows, keys) <==> p in PlanFor(env, rows, front) || PlannedFrom(env, rows, last, p);
    }
  }

  ghost predicate IdsUnique(rows: seq<Config>) {
    forall i, j :: 0 <= i < j < |rows| ==> rows[i].id != rows[j].id
  }

  /** Some other config of the same user shows under the same name. */
  ghost predicate Collides(env: Env, rows: seq<Config>, c: Config) {
    exists d :: d in rows && d.id != c.id && KeyOf(env, d) == KeyOf(env, c)
  }

  lemma {:induction false} GroupUnique(env: Env, rows: seq<Config>, k: (nat, string))
    requires IdsUnique(rows)
    ensures IdsUnique(Group(env, rows, k))
  {
    if rows != [] {
      var front, last := rows[..|rows| - 1], rows[|rows| - 1];
      GroupUnique(env, front, k);
      forall c | c in Group(env, front, k) ensures c.id != last.id { InGroup(env, front, k, c); }
    }
  }

  lemma BigGroupIff(env: Env, rows: seq<Config>, c: Config)
    requires IdsUnique(rows) && c in rows
    ensures |Group(env, rows, KeyOf(env, c))| >= 2 <==> Collides(env, rows, c)
  {
    var g := Group(env, rows, KeyOf(env, c));
    GroupUnique(env, rows, KeyOf(env, c));
    InGroup(env, rows, KeyOf(env, c), c);
    if |g| >= 2 {
      var d := if g[0] == c then g[1] else g[0];
      InGroup(env, rows, KeyOf(env, c), d);
      assert d.id != c.id;
    }
    if Collides(env, rows, c) {
      var d :| d in rows && d.id != c.id && KeyOf(env, d) == KeyOf(env, c);
      InGroup(env, rows, KeyOf(env, c), d);
      assert c in g && d in g && c != d;
    }
  }

  /** The plan renames exactly the configs whose shown name collides within their user, whose
      parent batch has a usable name, and whose rebuilt name is a different one. */
  lemma PlanIs(env: Env, rows: seq<Config>, p: Rename)
    requires IdsUnique(rows)
    ensures p in BuildPlan(env, rows) <==>
      exists c :: c in rows && Collides(env, rows, c) && Renamable(env, c) && RenameOf(env, c) == p
  {
    InPlanFor(env, rows, Keys(env, rows), p);
    if p in BuildPlan(env, rows) {
      var k :| k in Keys(env, rows) && PlannedFrom(env, rows, k, p);
      InRenames(env, Group(env, rows, k), p);
      var c :| c in Group(env, rows, k) && Renamable(env, c) && RenameOf(env, c) == p;
      InGroup(env, rows, k, c);
      BigGroupIff(env, rows, c);
    }
    if c :| c in rows && Collides(env, rows, c) && Renamable(env, c) && RenameOf(env, c) == p {
      var k := KeyOf(env, c);
      BigGroupIff(env, rows, c);
      InGroup(env, rows, k, c);
      InRenames(env, Group(env, rows, k), p);
      InKeys(env, rows, k);
      assert PlannedFrom(env, rows, k, p);
    }
  }

  /** Column by column: another config of the user shows under the same name, the config is in a
      batch whose name is not blank, and the name built from it is a different one. */
  lemma PlannedIff(env: Env, rows: seq<Config>, p: Rename)
    requires IdsUnique(rows)
    ensures p in BuildPlan(env, rows) <==> exists c :: c in rows && PlannedAs(env, rows, c, p)
  {
    PlanIs(env, rows, p);
    hide BuildPlan;
  }

  ghost predicate PlannedAs(env: Env, rows: seq<Config>, c: Config, p: Rename) {
    && (exists d :: d in rows && d.id != c.id && d.user == c.user && env.norm(d.name) == env.norm(c.name))
    && c.batch.Some? && c.batchName.Some? && env.norm(c.batchName.value) != ""
    && env.derive(c.batchName.value, c.county, c.recordType) != c.name
    && p == Rename(c.id, c.user, c.name, env.derive(c.batchName.value, c.county, c.recordType), c.batch.value)
  }

  lemma {:induction false} NoCollisionNoPlan(env: Env, rows: seq<Config>)
    requires IdsUnique(rows) && forall c :: c in rows ==> !Collides(env, rows, c)
    ensures BuildPlan(env, rows) == []
  {
    var plan := BuildPlan(env, rows);
    if plan != [] {
      PlanIs(env, rows, plan[0]);
    }
  }

  /** by_user_name after some rows: for each key the configs that carry it. */
  ghost predicate Grouped(env: Env, rows: seq<Config>, keys: seq<(nat, string)>, groups: map<(nat, string), seq<Config>>) {
    && keys == Keys(env, rows) && (forall k :: k in groups <==> k in keys)
    && forall k :: k in keys ==> groups[k] == Group(env, rows, k)
  }

  lemma GroupedNext(env: Env, rows: seq<Config>, n: nat, keys: seq<(nat, string)>, groups: map<(nat, string), seq<Config>>)
    requires n < |rows| && Grouped(env, rows[..n], keys, groups)
    ensures var k := KeyOf(env, rows[n]);
      Grouped(env, rows[..n + 1], if k in keys then keys else keys + [k],
              groups[k := (if k in groups then groups[k] else []) + [rows[n]]])
  {
    var k := KeyOf(env, rows[n]);
    assert rows[..n + 1][..n] == rows[..n];
    if k !in keys { NoGroup(env, rows[..n], k); }
  }

  lemma NoGroup(env: Env, rows: seq<Config>, k: (nat, string))
    requires k !in Keys(env, rows)
    ensures Group(env, rows, k) == []
  {
    InKeys(env, rows, k);
    if Group(env, rows, k) != [] { InGroup(env, rows, k, Group(env, rows, k)[0]); }
  }

  method RenameGroup(env: Env, group: seq<Config>) returns (plan: seq<Rename>)
    ensures plan == RenamesIn(env, group)
  {
    plan := [];
    for n := 0 to |group|
      invariant plan == RenamesIn(env, group[..n])
    {
      var c := group[n];
      assert group[..n + 1][..n] == group[..n];
      if UsableParent(env, c) {
        var to := Derived(env, c);
        if to != c.name {
          plan := plan + [Rename(c.id, c.user, c.name, to, c.batch.value)];
        }
      }
    }
    assert group[..|group|] == group;
  }

  /** build_plan: group by user and shown name, then rebuild the names of colliding children. */
  method MakePlan(env: Env, rows: seq<Config>) returns (plan: seq<Rename>)
    ensures plan == BuildPlan(env, rows)
  {
    var keys: seq<(nat, string)>, groups: map<(nat, string), seq<Config>> := [], map[];
    assert rows[..0] == [];
    for n := 0 to |rows|
      invariant Grouped(env, rows[..n], keys, groups)
    {
      GroupedNext(env, rows, n, keys, groups);
      hide Grouped;
      var k := KeyOf(env, rows[n]);
      groups := groups[k := (if k in groups then groups[k] else []) + [rows[n]]];
      keys := if k in keys then keys else keys + [k];
    }
    assert rows[..|rows|] == rows;
    plan := [];
    for n := 0 to |keys|
      invariant plan == PlanFor(env, rows, keys[..n])
    {
      assert keys[..n + 1][..n] == keys[..n] && keys[n] in keys;
      var group := groups[keys[n]];
      if |group| >= 2 {
        var more := RenameGroup(env, group);
        plan := plan + more;
      }
    }
    assert keys[..|keys|] == keys;
  }

  // ---------- validate ----------

  function NewName(plan: seq<Rename>, id: nat): Option<string> {
    if plan == [] then None
    else if plan[|plan| - 1].id == id then Some(plan[|plan| - 1].to)
    else NewName(plan[..|plan| - 1], id)
  }

  function IdsOf(plan: seq<Rename>): seq<nat> { seq(|plan|, i requires 0 <= i < |plan| => plan[i].id) }

  function NameAfter(plan: seq<Rename>, c: Config): string {
    if NewName(plan, c.id).Some? then NewName(plan, c.id).value else c.name
  }

  /** The state as it will exist: nobody sees two configs under one name. */
  predicate NoneCollides(env: Env, rows: seq<Config>, plan: seq<Rename>) {
    forall i, j :: 0 <= i < j < |rows| && rows[i].user == rows[j].user ==>
      env.norm(NameAfter(plan, rows[i])) != env.norm(NameAfter(plan, rows[j]))
  }

  ghost predicate Valid(env: Env, plan: seq<Rename>, rows: seq<Config>) {
    plan == [] || (NoDup(IdsOf(plan)) && NoneCollides(env, rows, plan))
  }

  function Shown(env: Env, rows: seq<Config>, plan: seq<Rename>): seq<(nat, string)> {
    seq(|rows|, i requires 0 <= i < |rows| => (rows[i].user, env.norm(NameAfter(plan, rows[i]))))
  }

  lemma ShownTwice(env: Env, rows: seq<Config>, plan: seq<Rename>)
    ensures NoneCollides(env, rows, plan) <==> NoDup(Shown(env, rows, plan))
  {
    var s := Shown(env, rows, plan);
    if NoDup(s) {
      forall i, j | 0 <= i < j < |rows| && rows[i].user == rows[j].user
        ensures env.norm(NameAfter(plan, rows[i])) != env.norm(NameAfter(plan, rows[j]))
      {
        assert s[i] != s[j];
      }
    }
    if NoneCollides(env, rows, plan) {
      forall i, j | 0 <= i < j < |rows| ensures s[i] != s[j] { }
    }
  }

  /** validate: model the state after the write and look for duplicates in it. */
  method Validate(env: Env, plan: seq<Rename>, rows: seq<Config>) returns (ok: bool)
    requires NoDup(IdsOf(plan))
    ensures ok <==> Valid(env, plan, rows)
  {
    if plan == [] { return true; }
    ShownTwice(env, rows, plan);
    ghost var s := Shown(env, rows, plan);
    var seen: seq<(nat, string)> := [];
    for n := 0 to |rows|
      invariant seen == s[..n] && NoDup(seen)
    {
      var k := (rows[n].user, env.norm(NameAfter(plan, rows[n])));
      assert s[n] == k;
      if k in seen {
        assert !NoDup(s);
        return false;
      }
      NoDupAppend(seen, [k]);
      seen := seen + [k];
    }
    assert s[..|rows|] == s;
    return true;
  }

  lemma {:induction false} NotRenamed(plan: seq<Rename>, id: nat)
    ensures NewName(plan, id) == None <==> forall i :: 0 <= i < |plan| ==> plan[i].id != id
  {
    if plan != [] { NotRenamed(plan[..|plan| - 1], id); }
  }

  lemma {:induction false} RenamedTo(plan: seq<Rename>, i: nat)
    requires NoDup(IdsOf(plan)) && i < |plan|
    ensures NewName(plan, plan[i].id) == Some(plan[i].to)
  {
    var n := |plan| - 1;
    if i < n {
      assert IdsOf(plan)[i] != IdsOf(plan)[n];
      forall a, b | 0 <= a < b < n ensures IdsOf(plan[..n])[a] != IdsOf(plan[..n])[b] {
        assert IdsOf(plan)[a] != IdsOf(plan)[b];
      }
      RenamedTo(plan[..n], i);
    }
  }

  /** One pair of configs that collide and that the plan leaves alone blocks every rename,
      whoever they belong to. */
  lemma StuckPairBlocksAll(env: Env, plan: seq<Rename>, rows: seq<Config>, i: nat, j: nat)
    requires plan != [] && i < j < |rows| && KeyOf(env, rows[i]) == KeyOf(env, rows[j])
    requires NewName(plan, rows[i].id) == None && NewName(plan, rows[j].id) == None
    ensures !Valid(env, plan, rows)
  {
    assert NameAfter(plan, rows[i]) == rows[i].name && NameAfter(plan, rows[j]) == rows[j].name;
  }

  lemma {:induction false} RenamesUnique(env: Env, group: seq<Config>)
    requires IdsUnique(group)
    ensures NoDup(IdsOf(RenamesIn(env, group)))
    ensures forall p :: p in RenamesIn(env, group) ==> exists c :: c in group && c.id == p.id
  {
    if group != [] {
      var front, c := group[..|group| - 1], group[|group| - 1];
      RenamesUnique(env, front);
      assert group == front + [c];
      var r := RenamesIn(env, front);
      if Renamable(env, c) {
        assert IdsOf(r + [RenameOf(env, c)]) == IdsOf(r) + [c.id];
        forall i | 0 <= i < |r| ensures r[i].id != c.id {
          assert r[i] in r;
          var d :| d in front && d.id == r[i].id;
        }
        NoDupAppend(IdsOf(r), [c.id]);
        assert RenamesIn(env, group) == r + [RenameOf(env, c)];
      } else {
        assert RenamesIn(env, group) == r;
      }
    }
  }

  /** The plan never names a config twice, so that check of validate cannot fire. */
  lemma {:induction false} PlanUnique(env: Env, rows: seq<Config>, keys: seq<(nat, string)>)
    requires IdsUnique(rows) && NoDup(keys)
    ensures NoDup(IdsOf(PlanFor(env, rows, keys)))
    ensures forall p :: p in PlanFor(env, rows, keys) ==> exists c :: c in rows && c.id == p.id && KeyOf(env, c) in keys
  {
    if keys != [] {
      var front, k := keys[..|keys| - 1], keys[|keys| - 1];
      assert keys == front + [k];
      NoDupAppend(front, [k]);
      PlanUnique(env, rows, front);
      GroupUnique(env, rows, k);
      var g := Group(env, rows, k);
      RenamesUnique(env, g);
      var more := if |g| < 2 then [] else RenamesIn(env, g);
      forall p | p in more ensures exists c :: c in rows && c.id == p.id && KeyOf(env, c) == k {
        var c :| c in g && c.id == p.id;
        InGroup(env, rows, k, c);
      }
      JoinUnique(env, rows, PlanFor(env, rows, front), more, front, k);
    }
  }

  lemma JoinUnique(env: Env, rows: seq<Config>, a: seq<Rename>, b: seq<Rename>, front: seq<(nat, string)>, k: (nat, string))
    requires IdsUnique(rows) && k !in front && NoDup(IdsOf(a)) && NoDup(IdsOf(b))
    requires forall p :: p in a ==> exists c :: c in rows && c.id == p.id && KeyOf(env, c) in front
    requires forall p :: p in b ==> exists c :: c in rows && c.id == p.id && KeyOf(env, c) == k
    ensures NoDup(IdsOf(a + b))
  {
    assert IdsOf(a + b) == IdsOf(a) + IdsOf(b);
    forall i, j | 0 <= i < |a| && 0 <= j < |b| ensures a[i].id != b[j].id {
      assert a[i] in a && b[j] in b;
      var c :| c in rows && c.id == a[i].id && KeyOf(env, c) in front;
      var d :| d in rows && d.id == b[j].id && KeyOf(env, d) == k;
      var x :| 0 <= x < |rows| && rows[x] == c;
      var y :| 0 <= y < |rows| && rows[y] == d;
      assert x != y;
    }
    NoDupAppend(IdsOf(a), IdsOf(b));
  }

  /** The name the whole run is to leave a config with, read off the rows alone. */
  ghost function Target(env: Env, rows: seq<Config>, c: Config): string {
    if Collides(env, rows, c) && Renamable(env, c) then Derived(env, c) else c.name
  }

  lemma PlanIsUnique(env: Env, rows: seq<Config>)
    requires IdsUnique(rows)
    ensures NoDup(IdsOf(BuildPlan(env, rows)))
  {
    InKeys(env, rows, (0, ""));
    PlanUnique(env, rows, Keys(env, rows));
  }

  lemma NewNameIs(env: Env, rows: seq<Config>, c: Config)
    requires IdsUnique(rows) && c in rows
    ensures var renamed := Collides(env, rows, c) && Renamable(env, c);
      NewName(BuildPlan(env, rows), c.id) == if renamed then Some(Derived(env, c)) else None
  {
    var plan := BuildPlan(env, rows);
    PlanIsUnique(env, rows);
    NotRenamed(plan, c.id);
    hide BuildPlan, Collides;
    if Collides(env, rows, c) && Renamable(env, c) {
      PlanIs(env, rows, RenameOf(env, c));
      var i :| 0 <= i < |plan| && plan[i] == RenameOf(env, c);
      RenamedTo(plan, i);
    } else if i :| 0 <= i < |plan| && plan[i].id == c.id {
      PlanIs(env, rows, plan[i]);
      var d :| d in rows && Collides(env, rows, d) && Renamable(env, d) && RenameOf(env, d) == plan[i];
      OneOfId(rows, c, d);
    }
  }

  lemma OneOfId(rows: seq<Config>, c: Config, d: Config)
    requires IdsUnique(rows) && c in rows && d in rows && c.id == d.id
    ensures c == d
  {
    var i :| 0 <= i < |rows| && rows[i] == c;
    var j :| 0 <= j < |rows| && rows[j] == d;
  }

  ghost predicate StillCollide(env: Env, rows: seq<Config>, c: Config, d: Config) {
    c.user == d.user && env.norm(Target(env, rows, c)) == env.norm(Target(env, rows, d))
  }

  /** The plan is refused, for every user, exactly when some user has two configs whose names
      would meet: left alone, rebuilt alike, or one rebuilt onto the other. */
  lemma RefusedIff(env: Env, rows: seq<Config>)
    requires IdsUnique(rows) && BuildPlan(env, rows) != []
    ensures !Valid(env, BuildPlan(env, rows), rows) <==>
      exists i, j :: 0 <= i < j < |rows| && StillCollide(env, rows, rows[i], rows[j])
  {
    var plan := BuildPlan(env, rows);
    PlanIsUnique(env, rows);
    hide BuildPlan, Target;
    forall c | c in rows ensures NameAfter(plan, c) == Target(env, rows, c) { TargetIs(env, rows, c); }
  }

  lemma TargetIs(env: Env, rows: seq<Config>, c: Config)
    requires IdsUnique(rows) && c in rows
    ensures NameAfter(BuildPlan(env, rows), c) == Target(env, rows, c)
  {
    hide BuildPlan, Collides;
    NewNameIs(env, rows, c);
  }

  function CountyNames(): Env { Env(s => s, (b, c, t) => c) }

  /** Two configs of user 1 made outside a batch, and two batch children of user 2. */
  function StuckRows(): seq<Config> {
    [Config(1, 1, "A", "king", "tax", None, None), Config(2, 1, "A", "pierce", "tax", None, None)]
  }

  function FineRows(): seq<Config> {
    [Config(3, 2, "A", "king", "tax", Some(1), Some("B")), Config(4, 2, "A", "pierce", "tax", Some(1), Some("B"))]
  }

  lemma PairTargets(front: seq<Config>)
    requires front == [] || front == StuckRows()
    ensures var rows := front + FineRows();
      && IdsUnique(rows) && BuildPlan(CountyNames(), rows) != []
      && forall c :: c in FineRows() ==> Target(CountyNames(), rows, c) == c.county
  {
    hide BuildPlan, Target;
    PairCollides(front);
    var env, rows, c := CountyNames(), front + FineRows(), FineRows()[0];
    PlanIs(env, rows, RenameOf(env, c));
    forall k | k in FineRows() ensures Target(env, rows, k) == k.county { PairTarget(rows, k); }
  }

  lemma PairTarget(rows: seq<Config>, k: Config)
    requires k in FineRows() && Collides(CountyNames(), rows, k)
    ensures Renamable(CountyNames(), k) && Target(CountyNames(), rows, k) == k.county
  {
    hide Collides;
    assert |"king"| != |"A"| && |"pierce"| != |"A"|;
  }

  lemma PairCollides(front: seq<Config>)
    requires front == [] || front == StuckRows()
    ensures var rows := front + FineRows();
      && IdsUnique(rows) && (forall k :: k in FineRows() ==> k in rows && Collides(CountyNames(), rows, k))
      && Renamable(CountyNames(), FineRows()[0])
  {
    var env, rows, c, d := CountyNames(), front + FineRows(), FineRows()[0], FineRows()[1];
    assert rows[|front|] == c && rows[|front| + 1] == d;
    assert |"king"| != |"A"|;
    assert KeyOf(env, c) == KeyOf(env, d);
    hide KeyOf;
  }

  lemma PairApart(env: Env, rows: seq<Config>)
    requires IdsUnique(rows) && BuildPlan(env, rows) != [] && |rows| == 2
    requires !StillCollide(env, rows, rows[0], rows[1])
    ensures Valid(env, BuildPlan(env, rows), rows)
  {
    hide *;
    RefusedIff(env, rows);
  }

  lemma FineApart()
    ensures Valid(CountyNames(), BuildPlan(CountyNames(), FineRows()), FineRows())
  {
    hide BuildPlan, Valid, Target, IdsUnique;
    var env, fine := CountyNames(), FineRows();
    PairTargets([]);
    assert [] + fine == fine;
    assert fine[0] in fine && fine[1] in fine && |"king"| != |"pierce"|;
    PairApart(env, fine);
  }

  lemma StuckMeet()
    ensures var all := StuckRows() + FineRows(); !Valid(CountyNames(), BuildPlan(CountyNames(), all), all)
  {
    hide BuildPlan, Valid, Collides;
    var env, all := CountyNames(), StuckRows() + FineRows();
    PairTargets(StuckRows());
    RefusedIff(env, all);
    assert all[0] == StuckRows()[0] && all[1] == StuckRows()[1];
    assert StillCollide(env, all, all[0], all[1]);
  }

  /** Alone the second user's plan passes; beside the first user's pair nobody is renamed. */
  lemma StuckPair()
    ensures var env, stuck, fine := CountyNames(), StuckRows(), FineRows();
      && (forall c, d :: c in stuck && d in fine ==> c.user != d.user)
      && BuildPlan(env, fine) != [] && Valid(env, BuildPlan(env, fine), fine)
      && BuildPlan(env, stuck + fine) != [] && !Valid(env, BuildPlan(env, stuck + fine), stuck + fine)
  {
    hide BuildPlan, Valid;
    FineApart();
    StuckMeet();
    PairTargets([]);
    PairTargets(StuckRows());
    assert [] + FineRows() == FineRows();
  }

  // ---------- apply ----------

  /** WHERE id = :id AND name = :old AND batch_id = :batch. */
  predicate Matches(t: map<nat, Config>, p: Rename) {
    p.id in t && t[p.id].name == p.was && t[p.id].batch == Some(p.batch)
  }

  function RenameOne(t: map<nat, Config>, p: Rename): map<nat, Config> {
    if Matches(t, p) then t[p.id := t[p.id].(name := p.to)] else t
  }

  function Renamed(t: map<nat, Config>, plan: seq<Rename>): map<nat, Config> {
    map id | id in t :: if NewName(plan, id).Some? then t[id].(name := NewName(plan, id).value) else t[id]
  }

  function Audits(plan: seq<Rename>): seq<Audit> {
    seq(|plan|, i requires 0 <= i < |plan| => Audit(plan[i].user, plan[i].id, plan[i].was, plan[i].to))
  }

  lemma NoDupFront(plan: seq<Rename>, n: nat)
    requires NoDup(IdsOf(plan)) && n < |plan|
    ensures NoDup(IdsOf(plan[..n])) && forall i :: 0 <= i < n ==> plan[i].id != plan[n].id
  {
    forall a, b | 0 <= a < b < n ensures IdsOf(plan[..n])[a] != IdsOf(plan[..n])[b] {
      assert IdsOf(plan)[a] != IdsOf(plan)[b];
    }
    forall i | 0 <= i < n ensures plan[i].id != plan[n].id { assert IdsOf(plan)[i] != IdsOf(plan)[n]; }
  }

  /** A later statement of the transaction sees its own row as it was at the start. */
  lemma NextRename(start: map<nat, Config>, plan: seq<Rename>, n: nat, t: map<nat, Config>)
    requires NoDup(IdsOf(plan)) && n < |plan|
    requires t.Keys == start.Keys
    requires forall id :: id in start && NewName(plan[..n], id) == None ==> t[id] == start[id]
    ensures Matches(t, plan[n]) <==> Matches(start, plan[n])
    ensures t == Renamed(start, plan[..n]) && Matches(start, plan[n]) ==>
      RenameOne(t, plan[n]) == Renamed(start, plan[..n + 1])
    ensures forall id :: id in start && NewName(plan[..n + 1], id) == None ==> NewName(plan[..n], id) == None && id != plan[n].id
  {
    NoDupFront(plan, n);
    NotRenamed(plan[..n], plan[n].id);
    assert plan[..n + 1][..n] == plan[..n];
  }

  lemma RenameKeeps(t: map<nat, Config>, p: Rename)
    ensures RenameOne(t, p).Keys == t.Keys
    ensures forall id :: id in t && id != p.id ==> RenameOne(t, p)[id] == t[id]
  {
  }

  // ---------- rename safety ----------

  /** rows: what the SELECT returned of the table. */
  ghost predicate Lists(rows: seq<Config>, t: map<nat, Config>) {
    && IdsUnique(rows) && (forall id :: id in t <==> exists c :: c in rows && c.id == id)
    && forall c :: c in rows ==> c.id in t && t[c.id] == c
  }

  /** Unplanned rows stay put, planned ones keep their owner. */
  ghost predicate StayedPut(before: map<nat, Config>, now: map<nat, Config>, plan: seq<Rename>) {
    && now.Keys == before.Keys
    && forall id :: id in before ==> now[id].user == before[id].user && (NewName(plan, id) == None ==> now[id] == before[id])
  }

  /** Nobody is left with two configs under the same trimmed lower-case name, and the next
      plan is empty. */
  lemma RenameSafety(env: Env, before: map<nat, Config>, rows: seq<Config>, plan: seq<Rename>,
                     now: map<nat, Config>, later: seq<Config>)
    requires Lists(rows, before) && plan == BuildPlan(env, rows) && plan != [] && Valid(env, plan, rows)
    requires StayedPut(before, now, plan) && Lists(later, Renamed(now, plan))
    ensures forall i, j :: 0 <= i < j < |later| ==> KeyOf(env, later[i]) != KeyOf(env, later[j])
    ensures BuildPlan(env, later) == []
  {
    var t := Renamed(now, plan);
    forall i, j | 0 <= i < |later| && 0 <= j < |later| && i != j ensures KeyOf(env, later[i]) != KeyOf(env, later[j]) {
      DifferentAfter(env, before, rows, plan, now, later[i], later[j]);
    }
    forall c | c in later ensures !Collides(env, later, c) {
      var i :| 0 <= i < |later| && later[i] == c;
      forall d | d in later && d.id != c.id ensures KeyOf(env, d) != KeyOf(env, c) {
        var j :| 0 <= j < |later| && later[j] == d;
      }
    }
    NoCollisionNoPlan(env, later);
  }

  lemma DifferentAfter(env: Env, before: map<nat, Config>, rows: seq<Config>, plan: seq<Rename>,
                       now: map<nat, Config>, a: Config, b: Config)
    requires Lists(rows, before) && NoneCollides(env, rows, plan) && StayedPut(before, now, plan)
    requires var t := Renamed(now, plan); a.id in t && t[a.id] == a && b.id in t && t[b.id] == b && a.id != b.id
    ensures KeyOf(env, a) != KeyOf(env, b)
  {
    hide *;
    var i := KeyAfter(env, before, rows, plan, now, a);
    var j := KeyAfter(env, before, rows, plan, now, b);
    if rows[i].user == rows[j].user {
      PairDiffers(env, rows, plan, if i < j then i else j, if i < j then j else i);
    }
  }

  lemma KeyAfter(env: Env, before: map<nat, Config>, rows: seq<Config>, plan: seq<Rename>, now: map<nat, Config>, a: Config)
      returns (i: nat)
    requires Lists(rows, before) && StayedPut(before, now, plan)
    requires var t := Renamed(now, plan); a.id in t && t[a.id] == a
    ensures i < |rows| && rows[i].id == a.id && KeyOf(env, a) == (rows[i].user, env.norm(NameAfter(plan, rows[i])))
  {
    hide NewName;
    var c :| c in rows && c.id == a.id;
    i :| 0 <= i < |rows| && rows[i] == c;
  }

  lemma PairDiffers(env: Env, rows: seq<Config>, plan: seq<Rename>, i: nat, j: nat)
    requires NoneCollides(env, rows, plan) && i < j < |rows| && rows[i].user == rows[j].user
    ensures env.norm(NameAfter(plan, rows[i])) != env.norm(NameAfter(plan, rows[j]))
  {
  }

  // ---------- the program ----------

  /** How one call of the script ends. */
  datatype End = NothingToDo | Refused | DryRun | RolledBack | Committed

  /** now: the table when the transaction begins, which other sessions may have edited since
      rows were read. */
  ghost function EndOf(env: Env, rows: seq<Config>, now: map<nat, Config>, apply: bool): End {
    var plan := BuildPlan(env, rows);
    if plan == [] then NothingToDo
    else if exists i, j :: 0 <= i < j < |rows| && StillCollide(env, rows, rows[i], rows[j]) then Refused
    else if !apply then DryRun
    else if exists i :: 0 <= i < |plan| && !Matches(now, plan[i]) then RolledBack
    else Committed
  }

  /** Alone a run that gets that far always commits; otherwise it rolls back exactly when a
      config it renames is gone, or was renamed or re-parented since it was read. */
  lemma RollsBackIff(env: Env, rows: seq<Config>, before: map<nat, Config>, now: map<nat, Config>)
    requires Lists(rows, before)
    requires EndOf(env, rows, now, true) == RolledBack || EndOf(env, rows, now, true) == Committed
    ensures EndOf(env, rows, now, true) == RolledBack <==>
      exists c :: c in rows && Collides(env, rows, c) && Renamable(env, c)
        && (c.id !in now || now[c.id].name != c.name || now[c.id].batch != c.batch)
  {
    var plan := BuildPlan(env, rows);
    hide BuildPlan, Collides, StillCollide, Lists;
    ListsUnique(rows, before);
    forall p | p in plan && !Matches(now, p)
      ensures exists c :: c in rows && Collides(env, rows, c) && Renamable(env, c)
                && (c.id !in now || now[c.id].name != c.name || now[c.id].batch != c.batch)
    {
      PlanIs(env, rows, p);
      var c :| c in rows && Collides(env, rows, c) && Renamable(env, c) && RenameOf(env, c) == p;
    }
    forall c | c in rows && Collides(env, rows, c) && Renamable(env, c) ensures RenameOf(env, c) in plan {
      PlanIs(env, rows, RenameOf(env, c));
    }
  }

  class Configs {
    var configs: map<nat, Config>
    var audit: seq<Audit>

    /** All or nothing: it commits exactly when every planned row still has the name and the
        parent it was planned with, and then every rename has one audit row. */
    method Apply(plan: seq<Rename>) returns (committed: bool)
      requires NoDup(IdsOf(plan))
      modifies this
      ensures committed <==> forall i :: 0 <= i < |plan| ==> Matches(old(configs), plan[i])
      ensures configs == if committed then Renamed(old(configs), plan) else old(configs)
      ensures audit == if committed then old(audit) + Audits(plan) else old(audit)
    {
      var t, log, updated := configs, audit, 0;
      ghost var start := configs;
      assert plan[..0] == [];
      for n := 0 to |plan|
        invariant configs == start && audit == old(audit) && updated <= n
        invariant t.Keys == start.Keys && log == audit + Audits(plan[..n])
        invariant forall id :: id in start && NewName(plan[..n], id) == None ==> t[id] == start[id]
        invariant updated == n <==> forall i :: 0 <= i < n ==> Matches(start, plan[i])
        invariant updated == n ==> t == Renamed(start, plan[..n])
      {
        NextRename(start, plan, n, t);
        hide Matches, Renamed, NewName, NoDup;
        var p := plan[n];
        updated := updated + if Matches(t, p) then 1 else 0;
        RenameKeeps(t, p);
        t := RenameOne(t, p);
        log := log + [Audit(p.user, p.id, p.was, p.to)];
        assert Audits(plan[..n + 1]) == Audits(plan[..n]) + [Audit(p.user, p.id, p.was, p.to)];
      }
      assert plan[..|plan|] == plan;
      if updated != |plan| {
        return false;
      }
      configs, audit := t, log;
      return true;
    }

    /** main: plan, check, and apply to the table other sessions have meanwhile made of it. */
    method Run(env: Env, rows: seq<Config>, meanwhile: map<nat, Config>, apply: bool) returns (end: End)
      requires Lists(rows, configs)
      modifies this
      ensures end == EndOf(env, rows, meanwhile, apply)
      ensures configs == if end == Committed then Renamed(meanwhile, BuildPlan(env, rows))
                         else if end == RolledBack then meanwhile else old(configs)
      ensures audit == old(audit) + if end == Committed then Audits(BuildPlan(env, rows)) else []
      ensures end == Committed && StayedPut(old(configs), meanwhile, BuildPlan(env, rows)) ==>
        forall later :: Lists(later, configs) ==>
          && BuildPlan(env, later) == []
          && forall i, j :: 0 <= i < j < |later| ==> KeyOf(env, later[i]) != KeyOf(env, later[j])
    {
      hide *;
      ghost var before := configs;
      ListsUnique(rows, configs);
      PlanIsUnique(env, rows);
      EndIs(env, rows, meanwhile, apply);
      var plan := MakePlan(env, rows);
      if plan == [] { return NothingToDo; }
      var ok := Validate(env, plan, rows);
      if !ok { return Refused; }
      if !apply { return DryRun; }
      configs := meanwhile;
      var committed := Apply(plan);
      if !committed { return RolledBack; }
      forall later | Lists(later, configs) && StayedPut(before, meanwhile, plan)
        ensures BuildPlan(env, later) == []
        ensures forall i, j :: 0 <= i < j < |later| ==> KeyOf(env, later[i]) != KeyOf(env, later[j])
      {
        RenameSafety(env, before, rows, plan, meanwhile, later);
      }
      return Committed;
    }
  }

  lemma ListsUnique(rows: seq<Config>, t: map<nat, Config>)
    requires Lists(rows, t)
    ensures IdsUnique(rows)
  {
  }

  lemma EndIs(env: Env, rows: seq<Config>, now: map<nat, Config>, apply: bool)
    requires IdsUnique(rows)
    ensures var plan := BuildPlan(env, rows);
      EndOf(env, rows, now, apply)
        == (if plan == [] then NothingToDo else if !Valid(env, plan, rows) then Refused else if !apply then DryRun
            else if forall i :: 0 <= i < |plan| ==> Matches(now, plan[i]) then Committed else RolledBack)
  {
    hide BuildPlan, Valid, StillCollide, Matches;
    if BuildPlan(env, rows) != [] { RefusedIff(env, rows); }
  }
}
