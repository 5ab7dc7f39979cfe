/** The lock protocol around the database schema: core/catalogschema/database.go, lines 45-105, 107-131
    and 144-182.

    Processes are numbered, any number of them; each does one thing at a time and may hold several
    leases. `catalog` and `schema` are the two file locks; a crash frees what its process held. */
module SchemaLease {
  import opened Wrappers

  const VERSION: int := 16

  /** The recorded state of the schema: its version, the migration journal and the import marker. */
  datatype Schema = Schema(version: int, recorded: int, dirty: bool, imported: bool)

  datatype Readiness = Ready | NotReady | Unusable

  function Check(s: Schema): Readiness {
    if s.version > VERSION || s.version < 0 then Unusable
    else if s.version != VERSION then NotReady
    else if s.dirty || s.recorded != s.version then Unusable
    else if s.imported then Ready
    else NotReady
  }

  type Pid = nat

  /** Where a process stands; `locked` says the caller already owned the catalog lock. */
  datatype Pc =
    | Idle
    // Acquire
    | Checking(locked: bool)
    | WantCatalog
    | Rechecking(locked: bool)
    | WantLease(locked: bool)
    | WantExclusive(locked: bool)
    | Upgrading(locked: bool)
    | Importing(locked: bool)
    | HandingOver(locked: bool)
    // MigrateOffline
    | Migrating(target: int)

  datatype System = System(
    schema: Schema,
    pcs: map<Pid, Pc>,
    leases: map<Pid, nat>,
    catalog: Option<Pid>,
    exclusive: Option<Pid>)

  function At(s: System, p: Pid): Pc {
    if p in s.pcs then s.pcs[p] else Idle
  }

  function Leases(s: System, p: Pid): nat {
    if p in s.leases then s.leases[p] else 0
  }

  /** A process that has the schema lock shared: its leases, and the check it is making. */
  predicate Shares(s: System, p: Pid) {
    Leases(s, p) > 0 || At(s, p).Checking?
  }

  ghost predicate NobodyShares(s: System) {
    forall p :: !Shares(s, p)
  }

  function Goto(s: System, p: Pid, pc: Pc): System {
    s.(pcs := s.pcs[p := pc])
  }

  function Lease(s: System, p: Pid): System {
    s.(leases := s.leases[p := Leases(s, p) + 1])
  }

  /** Returning from Acquire releases the catalog lock it took itself. */
  function Return(s: System, p: Pid, locked: bool): System {
    Goto(if locked then s else s.(catalog := None), p, Idle)
  }

  datatype Label =
    | TakeCatalog(p: Pid)
    | DropCatalog(p: Pid)
    | BeginAcquire(p: Pid, locked: bool)
    | CheckReady(p: Pid)
    | LockCatalog(p: Pid)
    | Recheck(p: Pid)
    | TakeLease(p: Pid)
    | LockExclusive(p: Pid)
    | Change(p: Pid, schema: Schema)
    | Migrated(p: Pid)
    | Imported(p: Pid)
    | Unlock(p: Pid)
    | GiveUp(p: Pid)
    | Release(p: Pid)
    | BeginMigrate(p: Pid, target: int)
    | MigrateDone(p: Pid)
    | Crash(p: Pid)

  ghost predicate Enabled(s: System, l: Label) {
    match l
    case TakeCatalog(p) => At(s, p).Idle? && s.catalog == None
    case DropCatalog(p) => At(s, p).Idle? && s.catalog == Some(p)
    case BeginAcquire(p, locked) => At(s, p).Idle? && s.exclusive == None && (locked ==> s.catalog == Some(p))
    case CheckReady(p) => At(s, p).Checking?
    case LockCatalog(p) => At(s, p).WantCatalog? && s.catalog == None
    case Recheck(p) => At(s, p).Rechecking?
    case TakeLease(p) => (At(s, p).WantLease? || At(s, p).HandingOver?) && s.exclusive == None
    case LockExclusive(p) => At(s, p).WantExclusive? && s.exclusive == None && NobodyShares(s)
    case Change(p, _) => At(s, p).Upgrading? || At(s, p).Migrating?
    case Migrated(p) => At(s, p).Upgrading?
    case Imported(p) => At(s, p).Importing?
    case Unlock(p) => At(s, p).HandingOver? && s.exclusive == Some(p)
    case GiveUp(p) => !At(s, p).Idle?
    case Release(p) => At(s, p).Idle? && Leases(s, p) > 0
    case BeginMigrate(p, _) => At(s, p).Idle? && s.catalog == Some(p) && s.exclusive == None && NobodyShares(s)
    case MigrateDone(p) => At(s, p).Migrating?
    case Crash(_) => true
  }

  /** Closing a lock file frees whatever it held. */
  function Closed(s: System, p: Pid): System {
    if s.exclusive == Some(p) then s.(exclusive := None) else s
  }

  function Locked(pc: Pc): bool {
    match pc
    case Rechecking(locked) => locked
    case WantLease(locked) => locked
    case WantExclusive(locked) => locked
    case Upgrading(locked) => locked
    case Importing(locked) => locked
    case HandingOver(locked) => locked
    case _ => true
  }

  function Do(s: System, l: Label): System
    requires Enabled(s, l)
  {
    match l
    case TakeCatalog(p) => s.(catalog := Some(p))
    case DropCatalog(p) => s.(catalog := None)
    case BeginAcquire(p, locked) => Goto(s, p, Checking(locked))
    case CheckReady(p) =>
      (match Check(s.schema)
       case Ready => Goto(Lease(s, p), p, Idle)
       case Unusable => Goto(s, p, Idle)
       case NotReady => Goto(s, p, if At(s, p).locked then Rechecking(true) else WantCatalog))
    case LockCatalog(p) => Goto(s.(catalog := Some(p)), p, Rechecking(false))
    case Recheck(p) =>
      var locked := At(s, p).locked;
      (match Check(s.schema)
       case Ready => Goto(s, p, WantLease(locked))
       case Unusable => Return(s, p, locked)
       case NotReady => Goto(s, p, WantExclusive(locked)))
    case TakeLease(p) => Return(Lease(s, p), p, At(s, p).locked)
    case LockExclusive(p) => Goto(s.(exclusive := Some(p)), p, Upgrading(At(s, p).locked))
    case Change(p, schema) => s.(schema := schema)
    // A migration that completes has recorded its version, and cleanly.
    case Migrated(p) =>
      Goto(s.(schema := Schema(VERSION, VERSION, false, s.schema.imported)), p, Importing(At(s, p).locked))
    case Imported(p) => Goto(s.(schema := s.schema.(imported := true)), p, HandingOver(At(s, p).locked))
    case Unlock(p) => s.(exclusive := None)
    case GiveUp(p) => Return(Closed(s, p), p, Locked(At(s, p)))
    case Release(p) => s.(leases := s.leases[p := Leases(s, p) - 1])
    case BeginMigrate(p, target) => Goto(s.(exclusive := Some(p)), p, Migrating(target))
    case MigrateDone(p) => Goto(Closed(s, p), p, Idle)
    case Crash(p) =>
      var t := Closed(if s.catalog == Some(p) then s.(catalog := None) else s, p);
      Goto(t.(leases := t.leases[p := 0]), p, Idle)
  }

  // ---------------------------------------------------------------------
  // What holds in every state
  // ---------------------------------------------------------------------

  /** Positions at which a process has the catalog lock, its own or its caller's. */
  predicate NeedsCatalog(pc: Pc) {
    match pc
    case Idle => false
    case Checking(locked) => locked
    case WantCatalog => false
    case _ => true
  }

  /** Positions at which a process may have the schema lock exclusively. */
  predicate MayExclude(pc: Pc) {
    pc.Upgrading? || pc.Importing? || pc.Migrating? || pc.HandingOver?
  }

  predicate LocksOk(s: System, p: Pid) {
    && (NeedsCatalog(At(s, p)) ==> s.catalog == Some(p))
    && (At(s, p).Upgrading? || At(s, p).Importing? || At(s, p).Migrating? ==> s.exclusive == Some(p))
    && (s.exclusive == Some(p) ==> MayExclude(At(s, p)))
  }

  /** Between the end of an upgrade, or the second check, and the lease, the schema is current; after
      the migrations only the import is missing. */
  predicate CurrentOk(s: System, p: Pid) {
    && (At(s, p).WantLease? || At(s, p).HandingOver? || Leases(s, p) > 0 ==> Check(s.schema).Ready?)
    && (At(s, p).Importing? ==> Check(s.schema.(imported := true)).Ready?)
  }

  ghost predicate Inv(s: System) {
    && (forall p :: LocksOk(s, p))
    && (forall p :: CurrentOk(s, p))
    && (s.exclusive.Some? ==> NobodyShares(s))
  }

  function Begin(schema: Schema): System {
    System(schema, map[], map[], None, None)
  }

  lemma BeginInv(schema: Schema)
    ensures Inv(Begin(schema))
  {}

  lemma StepLocks(s: System, l: Label, p: Pid)
    requires Inv(s) && Enabled(s, l)
    ensures LocksOk(Do(s, l), p)
  {
    assert LocksOk(s, p) && LocksOk(s, l.p);
  }

  lemma StepCurrent(s: System, l: Label, p: Pid)
    requires Inv(s) && Enabled(s, l)
    ensures CurrentOk(Do(s, l), p)
  {
    assert LocksOk(s, p) && LocksOk(s, l.p) && CurrentOk(s, p) && CurrentOk(s, l.p);
    if l.Change? || l.Migrated? || l.Imported? {
      assert s.exclusive == Some(l.p);
      assert !Shares(s, p);
    }
  }

  lemma StepShares(s: System, l: Label, p: Pid)
    requires Inv(s) && Enabled(s, l) && Do(s, l).exclusive.Some?
    ensures !Shares(Do(s, l), p)
  {
    assert LocksOk(s, l.p);
    if s.exclusive.Some? || l.LockExclusive? || l.BeginMigrate? {
      assert !Shares(s, p);
    }
  }

  lemma StepInv(s: System, l: Label)
    requires Inv(s) && Enabled(s, l)
    ensures Inv(Do(s, l))
  {
    forall p ensures LocksOk(Do(s, l), p) && CurrentOk(Do(s, l), p) {
      StepLocks(s, l, p);
      StepCurrent(s, l, p);
    }
    if Do(s, l).exclusive.Some? {
      forall p ensures !Shares(Do(s, l), p) {
        StepShares(s, l, p);
      }
    }
  }

  ghost predicate Reaches(s: System, run: seq<Label>, t: System)
    decreases |run|
  {
    if run == [] then s == t else Enabled(s, run[0]) && Reaches(Do(s, run[0]), run[1..], t)
  }

  lemma {:induction false} RunInv(s: System, run: seq<Label>, t: System)
    requires Inv(s) && Reaches(s, run, t)
    ensures Inv(t)
    decreases |run|
  {
    hide Inv, Enabled, Do;
    if run != [] {
      StepInv(s, run[0]);
      RunInv(Do(s, run[0]), run[1..], t);
    }
  }

  /** While any process holds a lease the schema is current, nobody upgrades or migrates it, and no
      step of anybody changes it; whatever crashed or failed before. */
  lemma LeaseMeansCurrent(schema: Schema, run: seq<Label>, t: System, holder: Pid, q: Pid, l: Label)
    requires Reaches(Begin(schema), run, t) && Leases(t, holder) > 0
    requires Enabled(t, l)
    ensures Check(t.schema).Ready?
    ensures !At(t, q).Upgrading? && !At(t, q).Importing? && !At(t, q).Migrating?
    ensures Do(t, l).schema == t.schema
  {
    BeginInv(schema);
    RunInv(Begin(schema), run, t);
    assert CurrentOk(t, holder) && Shares(t, holder);
    assert LocksOk(t, q) && LocksOk(t, l.p);
  }

  /** A step that changes the schema is one of the process that has both locks: no other process holds
      a lease, checks the schema, or stands anywhere under the catalog lock. */
  lemma OneChanger(schema: Schema, run: seq<Label>, t: System, l: Label)
    requires Reaches(Begin(schema), run, t) && Enabled(t, l) && Do(t, l).schema != t.schema
    ensures t.catalog == t.exclusive == Some(l.p)
    ensures forall q :: !Shares(t, q) && (q != l.p ==> !NeedsCatalog(At(t, q)) && !MayChange(At(t, q)))
  {
    BeginInv(schema);
    RunInv(Begin(schema), run, t);
    assert LocksOk(t, l.p);
    forall q ensures !Shares(t, q) && (q != l.p ==> !NeedsCatalog(At(t, q)) && !MayChange(At(t, q))) {
      assert LocksOk(t, q);
    }
  }

  predicate MayChange(pc: Pc) {
    pc.Upgrading? || pc.Importing? || pc.Migrating?
  }

  /** During the handoff from the exclusive lock to the shared one nobody can slip in: no other process
      is, or can get, into a position to change the schema. */
  lemma HandoffIsSafe(schema: Schema, run: seq<Label>, t: System, p: Pid, l: Label)
    requires Reaches(Begin(schema), run, t) && (At(t, p).HandingOver? || At(t, p).WantLease?)
    requires Enabled(t, l) && l.p != p
    ensures Check(t.schema).Ready? && t.catalog == Some(p)
    ensures Do(t, l).schema == t.schema && !l.LockExclusive? && !l.BeginMigrate?
  {
    BeginInv(schema);
    RunInv(Begin(schema), run, t);
    assert LocksOk(t, p) && CurrentOk(t, p) && LocksOk(t, l.p);
  }
}
