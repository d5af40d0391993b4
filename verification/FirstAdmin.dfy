/**
 * First-admin bootstrap: any number of CreateFirstAdmin calls, each a transaction under READ COMMITTED
 * that takes an advisory lock, counts users, inserts and commits, interleaved step by step with each
 * other, with CreateUser inserts, and with failures at any point.
 */
module FirstAdmin {
  import opened Collections

  datatype Role = Admin | Other

  /** `Durable` means the insert was committed, whether or not the caller saw the acknowledgement. */
  datatype Outcome = Durable(acknowledged: bool) | BootstrapClosed | Failed

  datatype Phase = Begun | Locked | SawEmpty | Inserted | Ended(outcome: Outcome)

  datatype Call = Call(username: string, phase: Phase)

  /** Committed user rows by unique name, the holder of the advisory lock, and the calls so far. */
  datatype Db = Db(users: map<string, Role>, lock: Option<nat>, calls: map<nat, Call>)

  datatype Step =
    | Begin(id: nat, username: string)
    | TakeLock(id: nat)
    | CountUsers(id: nat)
    | InsertAdmin(id: nat)
    | Commit(id: nat, acknowledged: bool)
    | Abort(id: nat)
    | CreateUser(username: string, role: Role)

  predicate InPhase(db: Db, id: nat, phase: Phase) { id in db.calls && db.calls[id].phase == phase }

  /** Inside the critical section that the lock is meant to protect. */
  predicate Inside(phase: Phase) { phase in {Locked, SawEmpty, Inserted} }

  /** An insert of the same name that is not yet committed blocks another insert of it. */
  predicate NameHeld(db: Db, username: string) {
    exists id :: id in db.calls && db.calls[id] == Call(username, Inserted)
  }

  /** Which steps the database lets happen; with `locking` false the advisory lock is never waited for. */
  predicate Enabled(locking: bool, db: Db, s: Step) {
    match s
    case Begin(id, username) => id !in db.calls && username != ""
    case TakeLock(id) => InPhase(db, id, Begun) && (locking ==> db.lock == None)
    case CountUsers(id) => InPhase(db, id, Locked)
    case InsertAdmin(id) => InPhase(db, id, SawEmpty) && !NameHeld(db, db.calls[id].username)
    case Commit(id, _) => InPhase(db, id, Inserted)
    case Abort(id) => id in db.calls && !db.calls[id].phase.Ended?
    case CreateUser(username, _) => !NameHeld(db, username)
  }

  function Move(db: Db, id: nat, phase: Phase): Db
    requires id in db.calls
  {
    db.(calls := db.calls[id := db.calls[id].(phase := phase)])
  }

  /** The end of a transaction, by commit or by the deferred rollback, releases its lock. */
  function End(db: Db, id: nat, outcome: Outcome): Db
    requires id in db.calls
  {
    Move(db, id, Ended(outcome)).(lock := if db.lock == Some(id) then None else db.lock)
  }

  function Next(locking: bool, db: Db, s: Step): Db
    requires Enabled(locking, db, s)
  {
    match s
    case Begin(id, username) => db.(calls := db.calls[id := Call(username, Begun)])
    case TakeLock(id) => Move(db, id, Locked).(lock := Some(id))
    case CountUsers(id) => if db.users != map[] then End(db, id, BootstrapClosed) else Move(db, id, SawEmpty)
    case InsertAdmin(id) =>
      if db.calls[id].username in db.users then End(db, id, BootstrapClosed) else Move(db, id, Inserted)
    case Commit(id, acknowledged) =>
      End(db, id, Durable(acknowledged)).(users := db.users[db.calls[id].username := Admin])
    case Abort(id) => End(db, id, Failed)
    case CreateUser(username, role) =>
      if username in db.users then db else db.(users := db.users[username := role])
  }

  predicate EnabledRun(locking: bool, db: Db, steps: seq<Step>)
    decreases |steps|
  {
    steps == [] || (Enabled(locking, db, steps[0]) && EnabledRun(locking, Next(locking, db, steps[0]), steps[1..]))
  }

  function Run(locking: bool, db: Db, steps: seq<Step>): Db
    requires EnabledRun(locking, db, steps)
    decreases |steps|
  {
    if steps == [] then db else Run(locking, Next(locking, db, steps[0]), steps[1..])
  }

  /** `BootstrapRequired` with authentication enabled. */
  predicate BootstrapRequired(db: Db) { db.users == map[] }

  function Start(users: map<string, Role>): Db { Db(users, None, map[]) }

  // ---- what every step keeps ----

  predicate Bootstrapped(db: Db, id: nat) {
    id in db.calls && db.calls[id].phase.Ended? && db.calls[id].phase.outcome.Durable?
  }

  ghost predicate LockGuards(db: Db) {
    forall id :: id in db.calls && Inside(db.calls[id].phase) ==> db.lock == Some(id)
  }

  /** One call at most is durable; then the table is not empty, and nobody is past the count. */
  ghost predicate OneAdmin(db: Db) {
    && (forall a, b :: Bootstrapped(db, a) && Bootstrapped(db, b) ==> a == b)
    && (forall a :: Bootstrapped(db, a) ==> db.users != map[])
    && (forall a, b :: Bootstrapped(db, a) ==> !InPhase(db, b, SawEmpty) && !InPhase(db, b, Inserted))
  }

  lemma StepKeepsLock(db: Db, s: Step)
    requires LockGuards(db) && Enabled(true, db, s)
    ensures LockGuards(Next(true, db, s))
  {
  }

  lemma StepKeepsOneAdmin(db: Db, s: Step)
    requires LockGuards(db) && OneAdmin(db) && Enabled(true, db, s)
    ensures OneAdmin(Next(true, db, s))
  {
    var next := Next(true, db, s);
    if s.Commit? {
      assert InPhase(db, s.id, Inserted);
      assert forall a: nat :: !Bootstrapped(db, a);
      assert db.calls[s.id].username in next.users;
    }
    forall a: nat | Bootstrapped(next, a)
      ensures Bootstrapped(db, a) || (s.Commit? && s.id == a)
      ensures next.users != map[]
    {
      if Bootstrapped(db, a) {
        var name :| name in db.users;
        assert name in next.users;
      }
    }
    forall a: nat, b: nat | Bootstrapped(next, a)
      ensures !InPhase(next, b, SawEmpty) && !InPhase(next, b, Inserted)
    {
      PastCountCameFrom(db, s, b);
      if s.Commit? && s.id == a {
        assert db.lock == Some(a);
      } else {
        assert Bootstrapped(db, a);
      }
    }
  }

  /** A call past the count was past it before the step, or the step is its count of an empty table. */
  lemma PastCountCameFrom(db: Db, s: Step, b: nat)
    requires Enabled(true, db, s)
    ensures var next := Next(true, db, s);
      InPhase(next, b, SawEmpty) || InPhase(next, b, Inserted) ==>
        || InPhase(db, b, SawEmpty)
        || InPhase(db, b, Inserted)
        || (s == CountUsers(b) && db.users == map[])
    ensures s.Commit? ==> !InPhase(Next(true, db, s), s.id, SawEmpty) && !InPhase(Next(true, db, s), s.id, Inserted)
  {
  }

  /** In every run at most one CreateFirstAdmin ever commits. */
  lemma {:induction false} AtMostOneBootstrap(db: Db, steps: seq<Step>)
    requires LockGuards(db) && OneAdmin(db) && EnabledRun(true, db, steps)
    ensures LockGuards(Run(true, db, steps)) && OneAdmin(Run(true, db, steps))
    decreases |steps|
  {
    if steps != [] {
      StepKeepsLock(db, steps[0]);
      StepKeepsOneAdmin(db, steps[0]);
      AtMostOneBootstrap(Next(true, db, steps[0]), steps[1..]);
    }
  }

  /** The same from any initial table. */
  lemma AtMostOneBootstrapFromStart(users: map<string, Role>, steps: seq<Step>, a: nat, b: nat)
    requires EnabledRun(true, Start(users), steps)
    requires Bootstrapped(Run(true, Start(users), steps), a) && Bootstrapped(Run(true, Start(users), steps), b)
    ensures a == b
  {
    AtMostOneBootstrap(Start(users), steps);
  }

  lemma {:induction false} RowsNeverVanish(locking: bool, db: Db, steps: seq<Step>)
    requires EnabledRun(locking, db, steps)
    ensures db.users.Keys <= Run(locking, db, steps).users.Keys
    decreases |steps|
  {
    if steps != [] { RowsNeverVanish(locking, Next(locking, db, steps[0]), steps[1..]); }
  }

  /**
   * Once a call has committed the window stays shut: later, every call that counts is refused, and
   * the bootstrap is never reported as required again.
   */
  lemma ClosedForGood(db: Db, steps: seq<Step>, winner: nat, late: nat)
    requires LockGuards(db) && OneAdmin(db) && Bootstrapped(db, winner) && EnabledRun(true, db, steps)
    ensures var end := Run(true, db, steps);
      && !BootstrapRequired(end)
      && (Enabled(true, end, CountUsers(late)) ==>
            Next(true, end, CountUsers(late)).calls[late].phase == Ended(BootstrapClosed))
  {
    RowsNeverVanish(true, db, steps);
    var name :| name in db.users;
  }

  /** A table that starts non-empty is never bootstrapped at all. */
  lemma {:induction false} NonEmptyIsNeverBootstrapped(db: Db, steps: seq<Step>)
    requires LockGuards(db) && db.users != map[] && EnabledRun(true, db, steps)
    requires forall id :: id in db.calls ==> !InPhase(db, id, SawEmpty) && !InPhase(db, id, Inserted) && !Bootstrapped(db, id)
    ensures forall id :: !Bootstrapped(Run(true, db, steps), id)
    decreases |steps|
  {
    if steps != [] {
      var next := Next(true, db, steps[0]);
      StepKeepsLock(db, steps[0]);
      assert next.users != map[] by { RowsNeverVanish(true, db, [steps[0]]); var name :| name in db.users; assert name in next.users; }
      NonEmptyIsNeverBootstrapped(next, steps[1..]);
    }
  }

  // ---- the lock is let go, and the bootstrap can succeed ----

  /** Only a call inside the critical section holds the lock. */
  predicate LockIsLive(db: Db) {
    db.lock.Some? ==> db.lock.value in db.calls && Inside(db.calls[db.lock.value].phase)
  }

  /** Over every interleaving the end of a call, however it ends, has let go of the lock. */
  lemma {:induction false} LockIsLetGo(db: Db, steps: seq<Step>)
    requires LockGuards(db) && LockIsLive(db) && EnabledRun(true, db, steps)
    ensures LockIsLive(Run(true, db, steps))
    decreases |steps|
  {
    if steps != [] {
      StepKeepsLock(db, steps[0]);
      LockIsLetGo(Next(true, db, steps[0]), steps[1..]);
    }
  }

  /** A call alone at an empty table goes through, and its user is the one row, an admin. */
  lemma BootstrapIsPossible(db: Db, id: nat, name: string)
    requires db.users == map[] && db.lock == None && LockGuards(db) && id !in db.calls && name != ""
    ensures var steps := [Begin(id, name), TakeLock(id), CountUsers(id), InsertAdmin(id), Commit(id, true)];
      && EnabledRun(true, db, steps)
      && Run(true, db, steps).users == map[name := Admin]
      && Bootstrapped(Run(true, db, steps), id)
  {
    var d1 := Next(true, db, Begin(id, name));
    var d2 := Next(true, d1, TakeLock(id));
    var d3 := Next(true, d2, CountUsers(id));
    var d4 := Next(true, d3, InsertAdmin(id));
    var d5 := Next(true, d4, Commit(id, true));
    var rest := Prepend(true, d4, Commit(id, true), d5, [], d5);
    rest := Prepend(true, d3, InsertAdmin(id), d4, rest, d5);
    rest := Prepend(true, d2, CountUsers(id), d3, rest, d5);
    rest := Prepend(true, d1, TakeLock(id), d2, rest, d5);
    rest := Prepend(true, db, Begin(id, name), d1, rest, d5);
    assert rest == [Begin(id, name), TakeLock(id), CountUsers(id), InsertAdmin(id), Commit(id, true)];
  }

  // ---- the rows and their roles ----

  /**
   * A durable bootstrap's user is in the table as an admin; a name that is inserted and not committed is
   * not in it, and is held by one call only.
   */
  ghost predicate AdminsStand(db: Db) {
    && (forall id :: Bootstrapped(db, id) ==> db.calls[id].username in db.users && db.users[db.calls[id].username] == Admin)
    && (forall id :: InPhase(db, id, Inserted) ==> db.calls[id].username !in db.users)
    && (forall a, b :: InPhase(db, a, Inserted) && InPhase(db, b, Inserted) && db.calls[a].username == db.calls[b].username ==> a == b)
  }

  /** No row is lost and none changes its role. */
  predicate RolesKept(before: map<string, Role>, after: map<string, Role>) {
    forall name :: name in before ==> name in after && after[name] == before[name]
  }

  lemma InsertedCameFrom(locking: bool, db: Db, s: Step, id: nat)
    requires Enabled(locking, db, s) && InPhase(Next(locking, db, s), id, Inserted)
    ensures id in db.calls && Next(locking, db, s).calls[id].username == db.calls[id].username
    ensures InPhase(db, id, Inserted) || s == InsertAdmin(id)
    ensures s == InsertAdmin(id) ==> db.calls[id].username !in db.users && !NameHeld(db, db.calls[id].username)
  {
  }

  lemma BootstrappedCameFrom(locking: bool, db: Db, s: Step, id: nat)
    requires Enabled(locking, db, s) && Bootstrapped(Next(locking, db, s), id)
    ensures id in db.calls && Next(locking, db, s).calls[id].username == db.calls[id].username
    ensures Bootstrapped(db, id) || (s.Commit? && s.id == id)
  {
  }

  lemma StepKeepsRoles(locking: bool, db: Db, s: Step)
    requires AdminsStand(db) && Enabled(locking, db, s)
    ensures RolesKept(db.users, Next(locking, db, s).users)
  {
    if s.Commit? { assert InPhase(db, s.id, Inserted); }
  }

  lemma StepKeepsAdmins(locking: bool, db: Db, s: Step)
    requires AdminsStand(db) && Enabled(locking, db, s)
    ensures AdminsStand(Next(locking, db, s))
  {
    var next := Next(locking, db, s);
    StepKeepsRoles(locking, db, s);
    forall id: nat | Bootstrapped(next, id)
      ensures next.calls[id].username in next.users && next.users[next.calls[id].username] == Admin
    {
      BootstrappedCameFrom(locking, db, s, id);
    }
    forall id: nat | InPhase(next, id, Inserted) ensures next.calls[id].username !in next.users {
      InsertedCameFrom(locking, db, s, id);
      InsertedNameStaysFree(locking, db, s, id);
    }
    forall a: nat, b: nat | InPhase(next, a, Inserted) && InPhase(next, b, Inserted) && next.calls[a].username == next.calls[b].username
      ensures a == b
    {
      InsertedCameFrom(locking, db, s, a);
      InsertedCameFrom(locking, db, s, b);
    }
  }

  /** No step adds a row under a name that some call has inserted and not committed. */
  lemma InsertedNameStaysFree(locking: bool, db: Db, s: Step, id: nat)
    requires AdminsStand(db) && Enabled(locking, db, s) && InPhase(Next(locking, db, s), id, Inserted)
    ensures Next(locking, db, s).calls[id].username !in Next(locking, db, s).users
  {
    InsertedCameFrom(locking, db, s, id);
    if InPhase(db, id, Inserted) {
      if s.Commit? { assert InPhase(db, s.id, Inserted); }
      if s.CreateUser? { assert db.calls[id] == Call(db.calls[id].username, Inserted); }
    }
  }

  /** Over every interleaving a bootstrap leaves its user in the table as an admin, and no row ever changes its role. */
  lemma {:induction false} BootstrapMakesAnAdmin(locking: bool, db: Db, steps: seq<Step>)
    requires AdminsStand(db) && EnabledRun(locking, db, steps)
    ensures AdminsStand(Run(locking, db, steps)) && RolesKept(db.users, Run(locking, db, steps).users)
    decreases |steps|
  {
    if steps != [] {
      StepKeepsAdmins(locking, db, steps[0]);
      StepKeepsRoles(locking, db, steps[0]);
      BootstrapMakesAnAdmin(locking, Next(locking, db, steps[0]), steps[1..]);
    }
  }

  /** A step of the run creates the user with that role. */
  predicate Created(steps: seq<Step>, name: string, role: Role) {
    exists i :: 0 <= i < |steps| && steps[i] == CreateUser(name, role)
  }

  /** A bootstrap of the run is for that name. */
  ghost predicate BootstrappedAs(db: Db, name: string) { exists id :: Bootstrapped(db, id) && db.calls[id].username == name }

  lemma {:induction false} BootstrapStays(locking: bool, db: Db, steps: seq<Step>, id: nat)
    requires EnabledRun(locking, db, steps) && Bootstrapped(db, id)
    ensures Bootstrapped(Run(locking, db, steps), id) && Run(locking, db, steps).calls[id] == db.calls[id]
    decreases |steps|
  {
    if steps != [] { BootstrapStays(locking, Next(locking, db, steps[0]), steps[1..], id); }
  }

  lemma CreatedLater(steps: seq<Step>, name: string, role: Role)
    requires steps != [] && (Created(steps[1..], name, role) || steps[0] == CreateUser(name, role))
    ensures Created(steps, name, role)
  {
    if Created(steps[1..], name, role) {
      var i :| 0 <= i < |steps[1..]| && steps[1..][i] == CreateUser(name, role);
      assert steps[i + 1] == CreateUser(name, role);
    }
  }

  /** Every row was there before, was created by a CreateUser with its role, or is the admin of a bootstrap. */
  lemma {:induction false} RowsComeFrom(locking: bool, db: Db, steps: seq<Step>, name: string)
    requires AdminsStand(db) && EnabledRun(locking, db, steps) && name in Run(locking, db, steps).users
    ensures var role := Run(locking, db, steps).users[name];
      || (name in db.users && db.users[name] == role)
      || Created(steps, name, role)
      || (role == Admin && BootstrappedAs(Run(locking, db, steps), name))
    decreases |steps|
  {
    if steps != [] {
      var s, next, end := steps[0], Next(locking, db, steps[0]), Run(locking, db, steps);
      StepKeepsAdmins(locking, db, s);
      StepKeepsRoles(locking, db, s);
      RowsComeFrom(locking, next, steps[1..], name);
      BootstrapMakesAnAdmin(locking, next, steps[1..]);
      if Created(steps[1..], name, end.users[name]) {
        CreatedLater(steps, name, end.users[name]);
      } else if name in next.users && name !in db.users {
        if s.Commit? {
          assert Bootstrapped(next, s.id);
          BootstrapStays(locking, next, steps[1..], s.id);
        } else {
          CreatedLater(steps, name, end.users[name]);
        }
      }
    }
  }

  /** A CreateUser puts its name into the table, with its role unless the name was there. */
  lemma CreateUserCreates(locking: bool, db: Db, name: string, role: Role)
    requires Enabled(locking, db, CreateUser(name, role))
    ensures var after := Next(locking, db, CreateUser(name, role)).users;
      name in after && after[name] == (if name in db.users then db.users[name] else role)
  {
  }

  // ---- without CreateUser the table stays at one row ----

  predicate NoCreateUser(steps: seq<Step>) { forall i :: 0 <= i < |steps| ==> !steps[i].CreateUser? }

  ghost predicate AtMostOneRow(db: Db) {
    && |db.users| <= 1
    && (forall id :: InPhase(db, id, SawEmpty) || InPhase(db, id, Inserted) ==> db.users == map[])
  }

  lemma StepKeepsOneRow(db: Db, s: Step)
    requires LockGuards(db) && AtMostOneRow(db) && Enabled(true, db, s) && !s.CreateUser?
    ensures AtMostOneRow(Next(true, db, s))
  {
    forall id: nat | InPhase(Next(true, db, s), id, SawEmpty) || InPhase(Next(true, db, s), id, Inserted)
      ensures Next(true, db, s).users == map[]
    {
      PastCountCameFrom(db, s, id);
    }
    if s.Commit? {
      var name := db.calls[s.id].username;
      assert InPhase(db, s.id, Inserted);
      assert db.users[name := Admin] == map[name := Admin];
    }
  }

  lemma {:induction false} TableNeverHoldsTwoRows(db: Db, steps: seq<Step>)
    requires LockGuards(db) && AtMostOneRow(db) && EnabledRun(true, db, steps) && NoCreateUser(steps)
    ensures AtMostOneRow(Run(true, db, steps))
    decreases |steps|
  {
    if steps != [] {
      StepKeepsLock(db, steps[0]);
      StepKeepsOneRow(db, steps[0]);
      TableNeverHoldsTwoRows(Next(true, db, steps[0]), steps[1..]);
    }
  }

  /** The lock is what makes it hold: without it two calls can both see an empty table and commit. */
  lemma UnlockedAdmitsTwo()
    ensures exists steps: seq<Step> :: EnabledRun(false, Start(map[]), steps) &&
              Bootstrapped(Run(false, Start(map[]), steps), 0) && Bootstrapped(Run(false, Start(map[]), steps), 1)
  {
    var both := Db(map[], Some(1), map[0 := Call("a", SawEmpty), 1 := Call("b", SawEmpty)]);
    var first := BothSeeEmpty(both);
    var second := BothCommit(both);
    RunConcat(false, Start(map[]), first, second);
  }

  lemma BothSeeEmpty(both: Db) returns (steps: seq<Step>)
    requires both == Db(map[], Some(1), map[0 := Call("a", SawEmpty), 1 := Call("b", SawEmpty)])
    ensures EnabledRun(false, Start(map[]), steps) && Run(false, Start(map[]), steps) == both
  {
    var d1 := Db(map[], None, map[0 := Call("a", Begun)]);
    var d2 := Db(map[], None, map[0 := Call("a", Begun), 1 := Call("b", Begun)]);
    var d3 := Db(map[], Some(0), map[0 := Call("a", Locked), 1 := Call("b", Begun)]);
    var d4 := Db(map[], Some(1), map[0 := Call("a", Locked), 1 := Call("b", Locked)]);
    var d5 := Db(map[], Some(1), map[0 := Call("a", SawEmpty), 1 := Call("b", Locked)]);
    steps := Prepend(false, d5, CountUsers(1), both, [], both);
    steps := Prepend(false, d4, CountUsers(0), d5, steps, both);
    steps := Prepend(false, d3, TakeLock(1), d4, steps, both);
    steps := Prepend(false, d2, TakeLock(0), d3, steps, both);
    steps := Prepend(false, d1, Begin(1, "b"), d2, steps, both);
    steps := Prepend(false, Start(map[]), Begin(0, "a"), d1, steps, both);
  }

  lemma BothCommit(both: Db) returns (steps: seq<Step>)
    requires both == Db(map[], Some(1), map[0 := Call("a", SawEmpty), 1 := Call("b", SawEmpty)])
    ensures EnabledRun(false, both, steps)
    ensures Bootstrapped(Run(false, both, steps), 0) && Bootstrapped(Run(false, both, steps), 1)
  {
    var yes := Ended(Durable(true));
    var d1 := Db(map[], Some(1), map[0 := Call("a", Inserted), 1 := Call("b", SawEmpty)]);
    var d2 := Db(map[], Some(1), map[0 := Call("a", Inserted), 1 := Call("b", Inserted)]);
    var d3 := Db(map["a" := Admin], Some(1), map[0 := Call("a", yes), 1 := Call("b", Inserted)]);
    var d4 := Db(map["a" := Admin, "b" := Admin], None, map[0 := Call("a", yes), 1 := Call("b", yes)]);
    assert "a"[0] != "b"[0];
    steps := Prepend(false, d3, Commit(1, true), d4, [], d4);
    steps := Prepend(false, d2, Commit(0, true), d3, steps, d4);
    steps := Prepend(false, d1, InsertAdmin(1), d2, steps, d4);
    steps := Prepend(false, both, InsertAdmin(0), d1, steps, d4);
  }

  lemma Prepend(locking: bool, db: Db, s: Step, next: Db, rest: seq<Step>, end: Db) returns (steps: seq<Step>)
    requires Enabled(locking, db, s) && Next(locking, db, s) == next
    requires EnabledRun(locking, next, rest) && Run(locking, next, rest) == end
    ensures steps == [s] + rest && EnabledRun(locking, db, steps) && Run(locking, db, steps) == end
  {
    steps := [s] + rest;
    assert steps[1..] == rest;
  }

  lemma {:induction false} RunConcat(locking: bool, db: Db, a: seq<Step>, b: seq<Step>)
    requires EnabledRun(locking, db, a) && EnabledRun(locking, Run(locking, db, a), b)
    ensures EnabledRun(locking, db, a + b) && Run(locking, db, a + b) == Run(locking, Run(locking, db, a), b)
    decreases |a|
  {
    if a == [] {
      assert a + b == b;
    } else {
      assert (a + b)[1..] == a[1..] + b;
      RunConcat(locking, Next(locking, db, a[0]), a[1..], b);
    }
  }
}
