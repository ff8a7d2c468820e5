/** scripts/migrate.py: replicas that race to upgrade one schema under a session advisory
    lock, each migrating on the very connection that holds the lock. */
module Migrate {
  import opened Wrappers

  /** Where a replica is. Upgrading(from, done): revisions from..done are in its open
      transaction. InBlock(k): revision k runs outside a transaction (autocommit_block). */
  datatype Pc =
    | Start | Polling | Acquired
    | Upgrading(from: nat, done: nat) | InBlock(k: nat) | BlockDone(k: nat)
    | Upgraded | Returned(code: nat)

  /** session: the server still has this replica's connection. client: its process is alive.
      head: the last revision its own code knows; old and new instances overlap in a deploy. */
  datatype Replica = Replica(pc: Pc, session: bool, client: bool, head: nat)

  /** version: how many revisions of the chain are committed. effects[k]: how often the body
      of revision k has taken effect. transactional[k]: k runs inside a transaction. */
  datatype World = World(
    replicas: seq<Replica>, lock: Option<nat>, version: nat, effects: seq<nat>, transactional: seq<bool>)

  datatype Action =
    | Connect(i: nat) | TryLock(i: nat) | GiveUp(i: nat) | Begin(i: nat)
    | Apply(i: nat) | EnterBlock(i: nat) | RunBlock(i: nat) | LeaveBlock(i: nat)
    | Commit(i: nat) | Unlock(i: nat) | Raise(i: nat) | Drop(i: nat) | SeeDrop(i: nat) | Crash(i: nat)

  predicate Holding(pc: Pc) {
    pc.Acquired? || pc.Upgrading? || pc.InBlock? || pc.BlockDone? || pc.Upgraded?
  }

  function Set(w: World, i: nat, pc: Pc): World
    requires i < |w.replicas|
  {
    w.(replicas := w.replicas[i := w.replicas[i].(pc := pc)])
  }

  function ReleaseLock(w: World, i: nat): World {
    if w.lock == Some(i) then w.(lock := None) else w
  }

  /** The connection is gone: the server rolls its transaction back and frees its lock. */
  function Disconnect(w: World, i: nat): World
    requires i < |w.replicas|
  {
    ReleaseLock(w.(replicas := w.replicas[i := w.replicas[i].(session := false)]), i)
  }

  /** COMMIT of revisions from..done: the version row and their effects appear together. */
  function Publish(w: World, from: nat, done: nat): World
    requires |w.effects| == |w.transactional|
  {
    w.(version := if from < done then done else w.version,
       effects := seq(|w.effects|, k requires 0 <= k < |w.effects| =>
         if from <= k < done && w.transactional[k] then w.effects[k] + 1 else w.effects[k]))
  }

  /** The row the session sees in alembic_version: its own uncommitted one, else the committed. */
  function Seen(w: World, from: nat, done: nat): nat {
    if from < done then done else w.version
  }

  /** UPDATE alembic_version SET k+1 WHERE version = k on the session in state (from, done). */
  predicate GuardMatches(w: World, i: nat) {
    && i < |w.replicas|
    && match w.replicas[i].pc
       case Upgrading(from, done) => Seen(w, from, done) == done
       case BlockDone(k) => w.version == k
       case _ => true
  }

  predicate Sane(w: World) {
    |w.effects| == |w.transactional| && forall i :: 0 <= i < |w.replicas| ==> w.replicas[i].head <= |w.transactional|
  }

  function Who(a: Action): nat { a.i }

  predicate Live(w: World, i: nat) {
    i < |w.replicas| && w.replicas[i].session
  }

  predicate Enabled(w: World, a: Action) {
    var i := Who(a);
    && Sane(w) && i < |w.replicas|
    && var r := w.replicas[i];
    match a
    case Connect(_) => r.client && r.pc == Start
    case GiveUp(_) => r.client && r.session && r.pc == Polling
    // alembic refuses a database revision its own scripts do not know
    case Begin(_) => r.client && r.session && r.pc == Acquired && w.version <= r.head
    // statements already sent may still run on the server after the client is gone
    case TryLock(_) => r.session && r.pc == Polling
    case Apply(_) =>
      r.session && r.pc.Upgrading? && r.pc.done < r.head && w.transactional[r.pc.done] && GuardMatches(w, i)
    case EnterBlock(_) => r.session && r.pc.Upgrading? && r.pc.done < r.head && !w.transactional[r.pc.done]
    case RunBlock(_) => r.session && r.pc.InBlock? && r.pc.k < |w.effects|
    case LeaveBlock(_) => r.session && r.pc.BlockDone? && GuardMatches(w, i)
    case Commit(_) => r.session && r.pc.Upgrading? && r.pc.done == r.head
    case Unlock(_) => r.client && r.pc == Upgraded
    // any failed statement: roll back, unlock, close
    case Raise(_) => r.client && r.session && Holding(r.pc) && r.pc != Upgraded
    case Drop(_) => r.session
    case SeeDrop(_) => r.client && !r.session && (r.pc == Polling || (Holding(r.pc) && r.pc != Upgraded))
    case Crash(_) => r.client && !r.pc.Returned?
  }

  function After(w: World, a: Action): World
    requires Enabled(w, a)
  {
    var i := Who(a);
    var r := w.replicas[i];
    match a
    case Connect(_) => w.(replicas := w.replicas[i := r.(pc := Polling, session := true)])
    case TryLock(_) => if w.lock == None then Set(w, i, Acquired).(lock := Some(i)) else w
    case GiveUp(_) => Disconnect(Set(w, i, Returned(1)), i)
    case Begin(_) => Set(w, i, Upgrading(w.version, w.version))
    case Apply(_) => Set(w, i, Upgrading(r.pc.from, r.pc.done + 1))
    case EnterBlock(_) => Set(Publish(w, r.pc.from, r.pc.done), i, InBlock(r.pc.done))
    case RunBlock(_) => Set(w.(effects := w.effects[r.pc.k := w.effects[r.pc.k] + 1]), i, BlockDone(r.pc.k))
    case LeaveBlock(_) => Set(w, i, Upgrading(r.pc.k, r.pc.k + 1))
    case Commit(_) => Set(Publish(w, r.pc.from, r.pc.done), i, Upgraded)
    case Unlock(_) => Disconnect(Set(w, i, Returned(0)), i)
    case Raise(_) => Disconnect(Set(w, i, Returned(1)), i)
    case Drop(_) => Disconnect(w, i)
    case SeeDrop(_) => Set(w, i, Returned(1))
    case Crash(_) => w.(replicas := w.replicas[i := r.(client := false)])
  }

  ghost predicate Init(w: World) {
    && Sane(w) && w.lock == None && w.version <= |w.transactional|
    && (forall i :: 0 <= i < |w.replicas| ==> w.replicas[i].pc == Start && !w.replicas[i].session)
    && forall k :: 0 <= k < |w.effects| ==> w.effects[k] == if k < w.version then 1 else 0
  }

  /** What a live session in the middle of an upgrade knows about the database. */
  ghost predicate SessionOk(w: World, i: nat)
    requires Sane(w) && w.version <= |w.transactional| && i < |w.replicas|
  {
    var r := w.replicas[i];
    && (r.session && Holding(r.pc) ==> w.lock == Some(i))
    && (r.session && r.pc.Upgrading? ==> r.pc.from == w.version <= r.pc.done <= r.head)
    && (r.session && r.pc.InBlock? ==> r.pc.k == w.version < r.head && !w.transactional[r.pc.k])
    && (r.session && r.pc.BlockDone? ==> r.pc.k == w.version < r.head && !w.transactional[r.pc.k] && w.effects[r.pc.k] > 0)
    && (r.session && r.pc.Upgrading? ==>
          forall k :: r.pc.from <= k < r.pc.done && !w.transactional[k] ==> w.effects[k] > 0)
    && (r.pc == Upgraded || r.pc == Returned(0) ==> r.head <= w.version)
    && (r.pc == Start ==> !r.session)
  }

  ghost predicate Inv(w: World) {
    && Sane(w) && w.version <= |w.transactional|
    && (forall i :: 0 <= i < |w.replicas| ==> SessionOk(w, i))
    && (w.lock.Some? ==> w.lock.value < |w.replicas| && w.replicas[w.lock.value].session && Holding(w.replicas[w.lock.value].pc))
    && (forall k :: 0 <= k < |w.effects| && w.transactional[k] ==> w.effects[k] == if k < w.version then 1 else 0)
    && (forall k :: 0 <= k < w.version ==> w.effects[k] > 0)
  }

  lemma InitInv(w: World)
    requires Init(w)
    ensures Inv(w)
  {
  }

  /** The other replicas notice nothing: only the lock holder moves the version, and no
      effect is ever undone. */
  lemma OthersOk(w: World, t: World, i: nat)
    requires Inv(w) && Sane(t) && i < |w.replicas| == |t.replicas| && t.transactional == w.transactional
    requires forall j :: 0 <= j < |w.replicas| && j != i ==> t.replicas[j] == w.replicas[j]
    requires w.version <= t.version <= |t.transactional| && (t.version != w.version ==> w.lock == Some(i))
    requires t.lock == w.lock || (w.lock == None && t.lock == Some(i)) || (w.lock == Some(i) && t.lock == None)
    requires forall k :: 0 <= k < |w.effects| ==> t.effects[k] >= w.effects[k]
    ensures forall j :: 0 <= j < |t.replicas| && j != i ==> SessionOk(t, j)
  {
    forall j | 0 <= j < |t.replicas| && j != i ensures SessionOk(t, j) {
      assert SessionOk(w, j);
    }
  }

  /** A commit by the lock holder publishes each of its transactional revisions once. */
  lemma PublishInv(w: World, i: nat, pc: Pc)
    requires Inv(w) && Live(w, i) && w.replicas[i].pc.Upgrading? && w.replicas[i].pc.done <= w.replicas[i].head
    requires var r := w.replicas[i];
      if r.pc.done == r.head then pc == Upgraded else pc == InBlock(r.pc.done) && !w.transactional[r.pc.done]
    ensures Inv(Set(Publish(w, w.replicas[i].pc.from, w.replicas[i].pc.done), i, pc))
  {
    assert SessionOk(w, i);
    var r := w.replicas[i];
    var t := Set(Publish(w, r.pc.from, r.pc.done), i, pc);
    OthersOk(w, t, i);
    assert SessionOk(t, i);
  }

  /** Steps that move only the acting replica and perhaps the lock. */
  lemma QuietInv(w: World, t: World, i: nat)
    requires Inv(w) && i < |w.replicas| == |t.replicas|
    requires t.version == w.version && t.effects == w.effects && t.transactional == w.transactional
    requires forall j :: 0 <= j < |w.replicas| && j != i ==> t.replicas[j] == w.replicas[j]
    requires t.replicas[i].head == w.replicas[i].head
    requires t.lock == w.lock || (w.lock == None && t.lock == Some(i)) || (w.lock == Some(i) && t.lock == None)
    requires t.lock == Some(i) <==> t.replicas[i].session && Holding(t.replicas[i].pc)
    requires SessionOk(t, i)
    ensures Inv(t)
  {
    OthersOk(w, t, i);
  }

  predicate LetsGo(a: Action) {
    a.GiveUp? || a.Unlock? || a.Raise? || a.Drop? || a.SeeDrop? || a.Crash?
  }

  /** Leaving, by plan or by accident, frees the lock exactly when this replica held it. */
  lemma LeavingInv(w: World, a: Action)
    requires Inv(w) && Enabled(w, a) && LetsGo(a)
    ensures Inv(After(w, a))
  {
    assert SessionOk(w, Who(a));
    QuietInv(w, After(w, a), Who(a));
  }

  /** Every step of every replica keeps the protocol invariant. */
  lemma StepInv(w: World, a: Action)
    requires Inv(w) && Enabled(w, a)
    ensures Inv(After(w, a))
  {
    if LetsGo(a) {
      LeavingInv(w, a);
    } else {
      WorkingInv(w, a);
    }
  }

  lemma WorkingInv(w: World, a: Action)
    requires Inv(w) && Enabled(w, a) && !LetsGo(a)
    ensures Inv(After(w, a))
  {
    hide After, Inv, Enabled, LetsGo;
    if a.EnterBlock? || a.Commit? {
      PublishingInv(w, a);
    } else if a.RunBlock? {
      RunBlockInv(w, a);
    } else {
      AdvancingInv(w, a);
    }
  }

  lemma PublishingInv(w: World, a: Action)
    requires Inv(w) && Enabled(w, a) && (a.EnterBlock? || a.Commit?)
    ensures Inv(After(w, a))
  {
    assert SessionOk(w, Who(a));
    var pc := if a.Commit? then Upgraded else InBlock(w.replicas[Who(a)].pc.done);
    PublishInv(w, Who(a), pc);
    hide Inv, SessionOk, GuardMatches;
  }

  lemma RunBlockInv(w: World, a: Action)
    requires Inv(w) && Enabled(w, a) && a.RunBlock?
    ensures Inv(After(w, a))
  {
    var i, t := Who(a), After(w, a);
    assert SessionOk(w, i);
    OthersOk(w, t, i);
    assert SessionOk(t, i);
  }

  lemma AdvancingInv(w: World, a: Action)
    requires Inv(w) && Enabled(w, a) && !LetsGo(a) && !a.EnterBlock? && !a.Commit? && !a.RunBlock?
    ensures Inv(After(w, a))
  {
    assert SessionOk(w, Who(a));
    QuietInv(w, After(w, a), Who(a));
  }

  ghost predicate IsRun(ws: seq<World>, acts: seq<Action>) {
    && |ws| == |acts| + 1
    && forall n :: 0 <= n < |acts| ==> Enabled(ws[n], acts[n]) && ws[n + 1] == After(ws[n], acts[n])
  }

  lemma {:induction false} RunInv(ws: seq<World>, acts: seq<Action>, n: nat)
    requires IsRun(ws, acts) && Init(ws[0]) && n < |ws|
    ensures Inv(ws[n])
  {
    if n == 0 {
      InitInv(ws[0]);
    } else {
      RunInv(ws, acts, n - 1);
      StepInv(ws[n - 1], acts[n - 1]);
    }
  }

  predicate Migrating(pc: Pc) {
    pc.Upgrading? || pc.InBlock? || pc.BlockDone?
  }

  /** Any number of replicas, any interleaving, crashes and dropped connections anywhere: at
      most one live connection migrates and it holds the lock, its guarded version update
      matches, every committed transactional revision took effect once, none that is not
      committed did, and a replica that returned 0 saw its head. */
  lemma MigrationSafety(ws: seq<World>, acts: seq<Action>, n: nat, i: nat, j: nat)
    requires IsRun(ws, acts) && Init(ws[0]) && n < |ws| && i < |ws[n].replicas| && j < |ws[n].replicas|
    ensures var w := ws[n];
      && (Live(w, i) && Live(w, j) && Migrating(w.replicas[i].pc) && Migrating(w.replicas[j].pc) ==> i == j)
      && (Live(w, i) && Migrating(w.replicas[i].pc) ==> w.lock == Some(i) && GuardMatches(w, i))
      && |w.effects| == |w.transactional| && w.version <= |w.effects|
      && (forall k :: 0 <= k < |w.effects| && w.transactional[k] ==> w.effects[k] == if k < w.version then 1 else 0)
      && (forall k :: 0 <= k < w.version ==> w.effects[k] > 0)
      && (w.replicas[i].pc == Returned(0) ==> w.replicas[i].head <= w.version)
  {
    RunInv(ws, acts, n);
    assert SessionOk(ws[n], i) && SessionOk(ws[n], j);
  }

  // ---------- a replica can always finish ----------

  /** Only replica i moves, and it neither fails, gives up, crashes nor loses its connection. */
  ghost predicate OwnWork(acts: seq<Action>, i: nat) {
    forall n :: 0 <= n < |acts| ==> Who(acts[n]) == i && (LetsGo(acts[n]) ==> acts[n].Unlock?)
  }

  lemma RunStep(w: World, a: Action, i: nat, ws: seq<World>, acts: seq<Action>)
    requires Enabled(w, a) && Who(a) == i && (LetsGo(a) ==> a.Unlock?)
    requires IsRun(ws, acts) && ws[0] == After(w, a) && OwnWork(acts, i)
    ensures IsRun([w] + ws, [a] + acts) && ([w] + ws)[0] == w && ([w] + ws)[|acts| + 1] == ws[|acts|] && OwnWork([a] + acts, i)
  {
    var us, bs := [w] + ws, [a] + acts;
    forall n | 0 <= n < |bs| ensures Enabled(us[n], bs[n]) && us[n + 1] == After(us[n], bs[n]) {
      if n > 0 { assert us[n] == ws[n - 1] && bs[n] == acts[n - 1] && us[n + 1] == ws[n]; }
    }
  }

  /** What the actions of replica i alone left as it was. */
  ghost predicate OthersAsTheyWere(w: World, t: World, i: nat) {
    && |t.replicas| == |w.replicas| && t.transactional == w.transactional && |t.effects| == |w.effects|
    && i < |w.replicas| && t.replicas[i].head == w.replicas[i].head
    && forall j :: 0 <= j < |w.replicas| && j != i ==> t.replicas[j] == w.replicas[j]
  }

  /** From the middle of an upgrade: what is open in the transaction takes effect with the commit,
      and every revision still to come takes effect once. */
  ghost predicate UpgradeDone(w: World, t: World, i: nat, from: nat, done: nat) {
    && OthersAsTheyWere(w, t, i) && t.lock == w.lock && |w.transactional| == |w.effects|
    && t.replicas[i] == w.replicas[i].(pc := Upgraded) && t.version == w.replicas[i].head
    && forall k :: 0 <= k < |w.effects| ==>
         t.effects[k] == w.effects[k]
           + if (from <= k < done && w.transactional[k]) || done <= k < w.replicas[i].head then 1 else 0
  }

  lemma {:induction false} Upgrades(w: World, i: nat) returns (ws: seq<World>, acts: seq<Action>)
    requires Inv(w) && Live(w, i) && w.replicas[i].pc.Upgrading?
    ensures IsRun(ws, acts) && ws[0] == w && OwnWork(acts, i)
    ensures UpgradeDone(w, ws[|acts|], i, w.replicas[i].pc.from, w.replicas[i].pc.done)
    decreases w.replicas[i].head - w.replicas[i].pc.done
  {
    assert w.replicas[i].pc.done <= w.replicas[i].head <= |w.transactional| by { assert SessionOk(w, i); }
    hide Inv, Enabled, After, SessionOk, GuardMatches, UpgradeDone, OwnWork, OthersAsTheyWere;
    var r := w.replicas[i];
    if r.pc.done == r.head {
      ws, acts := CommitEnds(w, i);
    } else if w.transactional[r.pc.done] {
      var t := ApplyStep(w, i);
      ws, acts := Upgrades(t, i);
      AfterApply(w, t, ws[|acts|], i);
      RunStep(w, Apply(i), i, ws, acts);
      ws, acts := [w] + ws, [Apply(i)] + acts;
    } else {
      var a, b, t := BlockSteps(w, i);
      ws, acts := Upgrades(t, i);
      AfterBlock(w, t, ws[|acts|], i);
      ws, acts := ThreeSteps(w, a, b, i, ws, acts);
    }
  }

  lemma CommitEnds(w: World, i: nat) returns (ws: seq<World>, acts: seq<Action>)
    requires Inv(w) && Live(w, i) && w.replicas[i].pc.Upgrading? && w.replicas[i].pc.done == w.replicas[i].head
    ensures IsRun(ws, acts) && ws[0] == w && OwnWork(acts, i)
    ensures UpgradeDone(w, ws[|acts|], i, w.replicas[i].pc.from, w.replicas[i].pc.done)
  {
    assert SessionOk(w, i);
    ws, acts := [w, After(w, Commit(i))], [Commit(i)];
    hide Inv, SessionOk;
  }

  lemma AfterApply(w: World, t: World, u: World, i: nat)
    requires i < |w.replicas| && w.replicas[i].pc.Upgrading? && |w.effects| == |w.transactional|
    requires var r := w.replicas[i];
      && r.pc.from <= r.pc.done < r.head <= |w.transactional| && w.transactional[r.pc.done]
      && t == Set(w, i, Upgrading(r.pc.from, r.pc.done + 1)) && UpgradeDone(t, u, i, r.pc.from, r.pc.done + 1)
    ensures UpgradeDone(w, u, i, w.replicas[i].pc.from, w.replicas[i].pc.done)
  {
  }

  lemma AfterBlock(w: World, t: World, u: World, i: nat)
    requires i < |w.replicas| && w.replicas[i].pc.Upgrading? && |w.effects| == |w.transactional|
    requires var r := w.replicas[i];
      var d := r.pc.done;
      && r.pc.from <= d < r.head <= |w.transactional| && !w.transactional[d]
      && OthersAsTheyWere(w, t, i) && t.lock == w.lock && t.replicas[i] == r.(pc := Upgrading(d, d + 1))
      && (forall k :: 0 <= k < |w.effects| ==>
            t.effects[k] == w.effects[k] + if (r.pc.from <= k < d && w.transactional[k]) || k == d then 1 else 0)
      && UpgradeDone(t, u, i, d, d + 1)
    ensures UpgradeDone(w, u, i, w.replicas[i].pc.from, w.replicas[i].pc.done)
  {
  }

  lemma ThreeSteps(w: World, a: World, b: World, i: nat, ws0: seq<World>, acts0: seq<Action>)
      returns (ws: seq<World>, acts: seq<Action>)
    requires Enabled(w, EnterBlock(i)) && a == After(w, EnterBlock(i)) && Enabled(a, RunBlock(i)) && b == After(a, RunBlock(i))
    requires Enabled(b, LeaveBlock(i)) && IsRun(ws0, acts0) && ws0[0] == After(b, LeaveBlock(i)) && OwnWork(acts0, i)
    ensures IsRun(ws, acts) && ws[0] == w && OwnWork(acts, i) && ws[|acts|] == ws0[|acts0|]
  {
    hide Enabled, After, OwnWork;
    RunStep(b, LeaveBlock(i), i, ws0, acts0);
    RunStep(a, RunBlock(i), i, [b] + ws0, [LeaveBlock(i)] + acts0);
    RunStep(w, EnterBlock(i), i, [a] + ([b] + ws0), [RunBlock(i)] + ([LeaveBlock(i)] + acts0));
    ws, acts := [w] + ([a] + ([b] + ws0)), [EnterBlock(i)] + ([RunBlock(i)] + ([LeaveBlock(i)] + acts0));
  }

  lemma ApplyStep(w: World, i: nat) returns (t: World)
    requires Inv(w) && Live(w, i) && w.replicas[i].pc.Upgrading? && w.replicas[i].pc.done < w.replicas[i].head
    requires w.transactional[w.replicas[i].pc.done]
    ensures Enabled(w, Apply(i)) && t == After(w, Apply(i)) && Inv(t) && Live(t, i)
    ensures var r := w.replicas[i];
      && r.pc.from <= r.pc.done && |w.effects| == |w.transactional|
      && t == Set(w, i, Upgrading(r.pc.from, r.pc.done + 1))
  {
    assert SessionOk(w, i);
    StepInv(w, Apply(i));
    t := After(w, Apply(i));
    hide Inv;
  }

  /** A revision outside a transaction: what was open is committed, then its body runs. */
  lemma BlockSteps(w: World, i: nat) returns (a: World, b: World, t: World)
    requires Inv(w) && Live(w, i) && w.replicas[i].pc.Upgrading? && w.replicas[i].pc.done < w.replicas[i].head
    requires !w.transactional[w.replicas[i].pc.done]
    ensures Enabled(w, EnterBlock(i)) && a == After(w, EnterBlock(i))
    ensures Enabled(a, RunBlock(i)) && b == After(a, RunBlock(i))
    ensures Enabled(b, LeaveBlock(i)) && t == After(b, LeaveBlock(i)) && Inv(t) && Live(t, i)
    ensures OthersAsTheyWere(w, t, i) && t.lock == w.lock && |w.effects| == |w.transactional|
    ensures w.replicas[i].pc.from <= w.replicas[i].pc.done
    ensures var d := w.replicas[i].pc.done;
      && t.replicas[i] == w.replicas[i].(pc := Upgrading(d, d + 1))
      && forall k :: 0 <= k < |w.effects| ==>
           t.effects[k] == w.effects[k] + if (w.replicas[i].pc.from <= k < d && w.transactional[k]) || k == d then 1 else 0
  {
    assert SessionOk(w, i);
    StepInv(w, EnterBlock(i));
    a := After(w, EnterBlock(i));
    assert SessionOk(a, i);
    StepInv(a, RunBlock(i));
    b := After(a, RunBlock(i));
    assert SessionOk(b, i);
    StepInv(b, LeaveBlock(i));
    t := After(b, LeaveBlock(i));
    hide Inv, SessionOk;
  }

  /** Finished: exit 0, lock and session given back, the version at this replica's head, and
      each revision in between in effect exactly once more than before. */
  ghost predicate FinishedFrom(w: World, t: World, i: nat) {
    && OthersAsTheyWere(w, t, i) && t.lock == None
    && t.replicas[i] == w.replicas[i].(pc := Returned(0), session := false) && t.version == w.replicas[i].head
    && (forall k :: 0 <= k < |w.effects| ==>
          t.effects[k] == w.effects[k] + if w.version <= k < w.replicas[i].head then 1 else 0)
    && forall k :: 0 <= k < t.version && k < |t.effects| ==> t.effects[k] > 0
  }

  /** Progress: whoever polls on a live connection while the lock is free, and knows the revision
      the database is at, can finish by its own steps, up to date already or not, with or
      without revisions that run outside a transaction. */
  lemma CanFinish(w: World, i: nat) returns (ws: seq<World>, acts: seq<Action>)
    requires Inv(w) && Live(w, i) && w.replicas[i].client && w.replicas[i].pc == Polling
    requires w.lock == None && w.version <= w.replicas[i].head
    ensures IsRun(ws, acts) && ws[0] == w && OwnWork(acts, i)
    ensures FinishedFrom(w, ws[|acts|], i)
  {
    var a, b := Starts(w, i);
    hide Inv, SessionOk, After, Enabled, UpgradeDone, OwnWork, FinishedFrom, OthersAsTheyWere;
    ws, acts := Upgrades(b, i);
    ws, acts := Closes(b, i, ws, acts);
    AfterStart(w, b, ws[|acts|], i);
    RunStep(a, Begin(i), i, ws, acts);
    RunStep(w, TryLock(i), i, [a] + ws, [Begin(i)] + acts);
    ws, acts := [w] + ([a] + ws), [TryLock(i)] + ([Begin(i)] + acts);
  }

  lemma Starts(w: World, i: nat) returns (a: World, b: World)
    requires Inv(w) && Live(w, i) && w.replicas[i].client && w.replicas[i].pc == Polling
    requires w.lock == None && w.version <= w.replicas[i].head
    ensures Enabled(w, TryLock(i)) && a == After(w, TryLock(i)) && Enabled(a, Begin(i)) && b == After(a, Begin(i)) && Inv(b)
    ensures b == Set(w, i, Upgrading(w.version, w.version)).(lock := Some(i))
  {
    StepInv(w, TryLock(i));
    a := After(w, TryLock(i));
    StepInv(a, Begin(i));
    b := After(a, Begin(i));
    hide Inv;
  }

  lemma AfterStart(w: World, b: World, t: World, i: nat)
    requires i < |w.replicas| && b == Set(w, i, Upgrading(w.version, w.version)).(lock := Some(i)) && FinishedFrom(b, t, i)
    ensures FinishedFrom(w, t, i)
  {
  }

  lemma Closes(b: World, i: nat, ws0: seq<World>, acts0: seq<Action>) returns (ws: seq<World>, acts: seq<Action>)
    requires Inv(b) && Live(b, i) && b.replicas[i].client && b.lock == Some(i)
    requires b.replicas[i].pc == Upgrading(b.version, b.version)
    requires IsRun(ws0, acts0) && ws0[0] == b && OwnWork(acts0, i) && UpgradeDone(b, ws0[|acts0|], i, b.version, b.version)
    ensures IsRun(ws, acts) && ws[0] == b && OwnWork(acts, i) && FinishedFrom(b, ws[|acts|], i)
  {
    RunKeepsInv(ws0, acts0, |acts0|);
    var u := ws0[|acts0|];
    var t := After(u, Unlock(i));
    StepInv(u, Unlock(i));
    ws, acts := ws0 + [t], acts0 + [Unlock(i)];
    forall n | 0 <= n < |acts| ensures Enabled(ws[n], acts[n]) && ws[n + 1] == After(ws[n], acts[n]) {
      if n < |acts0| { assert ws[n] == ws0[n] && ws[n + 1] == ws0[n + 1] && acts[n] == acts0[n]; }
    }
    hide Enabled, IsRun;
    assert SessionOk(t, i);
  }

  lemma {:induction false} RunKeepsInv(ws: seq<World>, acts: seq<Action>, n: nat)
    requires IsRun(ws, acts) && Inv(ws[0]) && n < |ws|
    ensures Inv(ws[n])
  {
    if n > 0 {
      RunKeepsInv(ws, acts, n - 1);
      StepInv(ws[n - 1], acts[n - 1]);
    }
  }

  /** So it is in every world a deploy can reach. */
  lemma ReachableCanFinish(us: seq<World>, bs: seq<Action>, n: nat, i: nat) returns (ws: seq<World>, acts: seq<Action>)
    requires IsRun(us, bs) && Init(us[0]) && n < |us|
    requires Live(us[n], i) && us[n].replicas[i].client && us[n].replicas[i].pc == Polling
    requires us[n].lock == None && us[n].version <= us[n].replicas[i].head
    ensures IsRun(ws, acts) && ws[0] == us[n] && OwnWork(acts, i) && FinishedFrom(us[n], ws[|acts|], i)
  {
    RunInv(us, bs, n);
    ws, acts := CanFinish(us[n], i);
  }

  /** No client ever hangs: until it has returned it has a step of its own. */
  lemma NeverStuck(us: seq<World>, bs: seq<Action>, n: nat, i: nat) returns (a: Action)
    requires IsRun(us, bs) && Init(us[0]) && n < |us|
    requires i < |us[n].replicas| && us[n].replicas[i].client && !us[n].replicas[i].pc.Returned?
    ensures Enabled(us[n], a) && Who(a) == i && !a.Drop? && !a.Crash?
    ensures us[n].replicas[i].pc == Acquired && us[n].replicas[i].head < us[n].version ==> After(us[n], a).replicas[i].pc == Returned(1)
  {
    RunInv(us, bs, n);
    var w := us[n];
    assert SessionOk(w, i);
    a := NextStep(w, w.replicas[i], i);
  }

  /** What main does next. */
  function NextStep(w: World, r: Replica, i: nat): Action {
    if r.pc == Start then Connect(i)
    else if r.pc == Upgraded then Unlock(i)
    else if !r.session then SeeDrop(i)
    else
      match r.pc
      case Polling => TryLock(i)
      case Acquired => if w.version <= r.head then Begin(i) else Raise(i)
      case Upgrading(_, done) =>
        if done == r.head then Commit(i) else if done < |w.transactional| && w.transactional[done] then Apply(i) else EnterBlock(i)
      case InBlock(_) => RunBlock(i)
      case _ => LeaveBlock(i)
  }

  /** A crashed holder never wedges the next deploy: whoever holds the lock still has a live
      session, and once the server drops that session any polling replica can take it. */
  lemma DropFreesTheLock(ws: seq<World>, acts: seq<Action>, n: nat, i: nat, j: nat)
    requires IsRun(ws, acts) && Init(ws[0]) && n < |ws|
    requires ws[n].lock == Some(i)
    requires i != j && j < |ws[n].replicas| && ws[n].replicas[j].session && ws[n].replicas[j].pc == Polling
    ensures Enabled(ws[n], Drop(i))
    ensures var t := After(ws[n], Drop(i));
      Enabled(t, TryLock(j)) && After(t, TryLock(j)).lock == Some(j) && After(t, TryLock(j)).replicas[j].pc == Acquired
  {
    RunInv(ws, acts, n);
  }

  /** The version a client returns 0 on is its own head exactly when it commits. */
  lemma CommitReachesHead(w: World, i: nat)
    requires Inv(w) && Enabled(w, Commit(i))
    ensures After(w, Commit(i)).version == w.replicas[i].head && After(w, Commit(i)).version >= w.version
  {
    assert SessionOk(w, i);
  }

  // ---------- waiting for the lock ----------

  const LOCK_WAIT_BUDGET_S := 900.0
  const POLL_BASE_S := 2.0

  /** What the environment answers: the n-th try, the clock readings and the n-th sleep. */
  datatype Wait = Wait(locked: nat -> bool, started: real, work: nat -> real, slept: nat -> real)

  /** The monotonic clock after n tries that failed and n sleeps. */
  function ClockAt(e: Wait, n: nat): real {
    if n == 0 then e.started else ClockAt(e, n - 1) + e.work(n - 1) + e.slept(n - 1)
  }

  /** time.sleep returns no earlier than asked, and the clock does not run backwards. */
  ghost predicate Honest(e: Wait) {
    forall n: nat :: e.work(n) >= 0.0 && e.slept(n) >= POLL_BASE_S
  }

  lemma {:induction false} ClockAdvances(e: Wait, n: nat)
    requires Honest(e)
    ensures ClockAt(e, n) >= e.started + n as real * POLL_BASE_S
  {
    if n > 0 {
      ClockAdvances(e, n - 1);
      assert e.work(n - 1) >= 0.0 && e.slept(n - 1) >= POLL_BASE_S;
    }
  }

  predicate InTime(e: Wait, n: nat) {
    ClockAt(e, n) + e.work(n) < e.started + LOCK_WAIT_BUDGET_S
  }

  lemma InTimeIsEarly(e: Wait, n: nat)
    requires Honest(e) && InTime(e, n)
    ensures n < 450
  {
    ClockAdvances(e, n);
    assert e.work(n) >= 0.0;
  }

  /** _acquire: at most 451 tries; true exactly when the last one got the lock, false only
      after the whole budget. */
  method Acquire(e: Wait) returns (acquired: bool, tries: nat)
    requires Honest(e)
    ensures 1 <= tries <= 451
    ensures acquired == e.locked(tries - 1)
    ensures forall n :: 0 <= n < tries - 1 ==> !e.locked(n) && InTime(e, n)
    ensures !acquired ==> !InTime(e, tries - 1)
  {
    hide Honest;
    var deadline := e.started + LOCK_WAIT_BUDGET_S;
    var now := e.started;
    var n := 0;
    while !e.locked(n)
      invariant 0 <= n <= 450 && now == ClockAt(e, n)
      invariant forall m :: 0 <= m < n ==> !e.locked(m) && InTime(e, m)
      decreases 450 - n
    {
      now := now + e.work(n);
      if now >= deadline {
        return false, n + 1;
      }
      InTimeIsEarly(e, n);
      now := now + e.slept(n);
      n := n + 1;
    }
    return true, n + 1;
  }

  /** The bound is met: sleeps of exactly two seconds and a lock that never frees. */
  lemma AllTriesAreUsed()
    ensures var e := Wait(n => false, 0.0, n => 0.0, n => 2.0);
      Honest(e) && forall n: nat :: n < 450 ==> InTime(e, n)
  {
    var e := Wait(n => false, 0.0, n => 0.0, n => 2.0);
    forall n: nat ensures ClockAt(e, n) == n as real * 2.0 {
      EvenSleeps(n);
    }
  }

  lemma {:induction false} EvenSleeps(n: nat)
    ensures ClockAt(Wait(n => false, 0.0, n => 0.0, n => 2.0), n) == n as real * 2.0
  {
    if n > 0 { EvenSleeps(n - 1); }
  }
}
