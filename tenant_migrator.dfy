/** The tenant-aware migrator: filters the shared migration files by the
    configured policy, then migrates or rolls back every tenant in turn,
    switching the active connection and ledger source per tenant. Every call
    into a collaborator is recorded in the ghost `trace`. */
module TenantMigrations {
  import opened MigrationFilter
  import opened Orchestration

  class TenantMigrator {
    /** The tenant manager: policy, tenant directory, connection bootstrap. */
    const manager: TenantManager
    /** The ran-migrations repository's rows. */
    const ledger: Ledger
    /** File discovery (`getMigrationFiles`) as a function of the path. */
    const migrationFiles: Path -> seq<FileId>
    /** The name resolver (`resolveMigrationName`), total and deterministic. */
    const resolveName: FileId -> Name

    var usePath: bool
    var path: Path
    /** The cached tenant list; `None` is PHP's `null`. */
    var tenants: Option<seq<Tenant>>
    /** The default database connection (`setConnection`); `None` before any. */
    var connection: Option<string>
    /** The ledger's current source (`repository->setSource`); `None` before any. */
    var source: Option<string>
    /** Every collaborator call made so far, in order. */
    ghost var trace: seq<Event>

    constructor (manager: TenantManager, ledger: Ledger, migrationFiles: Path -> seq<FileId>,
                 resolveName: FileId -> Name)
      ensures this.manager == manager && this.ledger == ledger
      ensures this.migrationFiles == migrationFiles && this.resolveName == resolveName
      ensures !usePath && path == "" && tenants == None
      ensures connection == None && source == None && trace == []
    {
      this.manager := manager;
      this.ledger := ledger;
      this.migrationFiles := migrationFiles;
      this.resolveName := resolveName;
      usePath := false;
      path := "";
      tenants := None;
      connection := None;
      source := None;
      trace := [];
    }

    /** Discovers the files at `p`, keeps those the policy makes eligible (in
        discovery order) and loads them. */
    method IncludeMigrations(p: Path) returns (list: seq<FileId>)
      modifies this`trace
      ensures list == Filter(migrationFiles(p), manager.policy, resolveName)
      ensures trace == old(trace) + IncludeEvents(p, list)
    {
      var configured := manager.policy.configured;
      var available := migrationFiles(p);
      trace := trace + [DiscoverFiles(p)];
      list := [];
      var i := 0;
      while i < |available|
        invariant 0 <= i <= |available|
        invariant list == Filter(available[..i], manager.policy, resolveName)
        invariant trace == old(trace) + [DiscoverFiles(p)]
      {
        var migration := available[i];
        var name := resolveName(migration);
        if manager.policy.behavior == OnlyBehavior {
          if name in configured {
            list := list + [migration];
          }
        } else {
          if name !in configured {
            list := list + [migration];
          }
        }
        assert available[..i + 1][..i] == available[..i];
        i := i + 1;
      }
      assert available[..i] == available;
      trace := trace + [RequireFiles(p, list)];
    }

    /** Makes `rollback` load the migrations at `p` first. */
    method UsePath(p: Path)
      modifies this`usePath, this`path
      ensures usePath && path == p
    {
      usePath := true;
      path := p;
    }

    /** The tenant list, queried from the repository unless a non-empty list
        is already cached. */
    method GetTenants() returns (ts: seq<Tenant>)
      modifies this`tenants, this`trace
      ensures ts == Snapshot(old(tenants), manager.directory)
      ensures tenants == Some(ts)
      ensures trace == old(trace) + FetchEvents(old(tenants))
    {
      if !CacheHit(tenants) {
        tenants := Some(manager.directory);
        trace := trace + [QueryTenants];
      }
      ts := tenants.value;
    }

    /** One pass of `run`'s tenant loop: bootstrap the tenant's connection;
        if that succeeds, switch the connection and ledger source to it, read
        its ran set and hand the executor the filtered files not in it. */
    method MigrateTenant(name: string, list: seq<FileId>, pretend: bool) returns (bootstrapped: bool)
      modifies this`trace, this`connection, this`source
      ensures bootstrapped == (name in manager.connectable)
      ensures trace == old(trace) + if bootstrapped then TenantRunEvents(name, list, ledger, pretend)
                                    else [Bootstrap(name)]
      ensures connection == (if bootstrapped then Some(name) else old(connection))
      ensures source == (if bootstrapped then Some(name) else old(source))
    {
      ghost var before := trace;
      trace := trace + [Bootstrap(name)];
      bootstrapped := name in manager.connectable;
      if !bootstrapped {
        return;
      }
      connection := Some(name);
      trace := trace + [SetConnection(name)];
      source := Some(name);
      trace := trace + [SetSource(name)];
      var ran := ledger.Ran(name);
      trace := trace + [GetRan(name)];
      var migrations := Outstanding(list, ran);
      trace := trace + [RunList(migrations, pretend)];
      RunBlockCalls(before, name, list, ledger, pretend);
    }

    /** `run`'s tenant loop over snapshot `ts` with the filtered list `list`. */
    method MigrateTenants(ts: seq<Tenant>, list: seq<FileId>, pretend: bool) returns (outcome: Outcome)
      modifies this`trace, this`connection, this`source
      ensures var done := Connected(ts, manager.connectable);
        && trace == old(trace) + RunEvents(ts, list, ledger, manager.connectable, pretend)
        && connection == Active(old(connection), done)
        && source == Active(old(source), done)
        && outcome == RunOutcome(ts, manager.connectable)
    {
      ghost var t0 := trace;
      var ok := manager.connectable;
      var i := 0;
      while i < |ts|
        invariant 0 <= i <= |ts|
        invariant AllConnectable(ts[..i], ok)
        invariant trace == t0 + RunEvents(ts[..i], list, ledger, ok, pretend)
        invariant connection == (if i == 0 then old(connection) else Some(ts[i - 1].tenantName))
        invariant source == (if i == 0 then old(source) else Some(ts[i - 1].tenantName))
      {
        ghost var before := trace;
        var bootstrapped := MigrateTenant(ts[i].tenantName, list, pretend);
        if !bootstrapped {
          RunTraceHalt(t0, before, ts, i, list, ledger, ok, pretend);
          ActiveAt(old(connection), ts, i);
          ActiveAt(old(source), ts, i);
          return Halted(BootstrapFailed(ts[i].tenantName));
        }
        RunTraceStep(t0, before, ts, i, list, ledger, ok, pretend);
        i := i + 1;
      }
      ConnectedAt(ts, ok, i);
      ActiveAt(old(connection), ts, i);
      ActiveAt(old(source), ts, i);
      assert ts[..i] == ts;
      outcome := Done;
    }

    /** Runs the outstanding migrations at `p` on every tenant: the filtered
        list is computed once, then each tenant gets it minus its own ran set.
        A failed bootstrap halts the run. */
    method Run(p: Path, pretend: bool) returns (outcome: Outcome)
      modifies this`tenants, this`trace, this`connection, this`source
      ensures var snap := Snapshot(old(tenants), manager.directory);
              var filtered := Filter(migrationFiles(p), manager.policy, resolveName);
              var done := Connected(snap, manager.connectable);
        && tenants == Some(snap)
        && trace == old(trace) + FetchEvents(old(tenants)) + IncludeEvents(p, filtered)
                    + RunEvents(snap, filtered, ledger, manager.connectable, pretend)
        && connection == Active(old(connection), done)
        && source == Active(old(source), done)
        && outcome == RunOutcome(snap, manager.connectable)
    {
      var ts := GetTenants();
      var list := IncludeMigrations(p);
      outcome := MigrateTenants(ts, list, pretend);
    }

    /** One pass of `rollback`'s tenant loop: bootstrap the tenant's
        connection; if that succeeds, switch the connection and ledger source
        to it, read its last batch and run `runDown` on each entry in order
        (nothing when the batch is empty). Returns the batch size. */
    method RollbackTenant(name: string, pretend: bool) returns (rolledBack: Option<nat>)
      modifies this`trace, this`connection, this`source
      ensures rolledBack == if name in manager.connectable then Some(|ledger.Last(name)|) else None
      ensures trace == old(trace) + if rolledBack.Some? then TenantRollbackEvents(name, ledger, pretend)
                                    else [Bootstrap(name)]
      ensures connection == (if rolledBack.Some? then Some(name) else old(connection))
      ensures source == (if rolledBack.Some? then Some(name) else old(source))
    {
      ghost var before := trace;
      trace := trace + [Bootstrap(name)];
      if name !in manager.connectable {
        return None;
      }
      connection := Some(name);
      trace := trace + [SetConnection(name)];
      source := Some(name);
      trace := trace + [SetSource(name)];
      var migrations := ledger.Last(name);
      trace := trace + [GetLast(name)];
      RollbackBlockCalls(before, name, ledger, pretend);
      if |migrations| == 0 {
        // nothing to roll back on this tenant
        return Some(0);
      }
      ghost var head := trace;
      var j := 0;
      while j < |migrations|
        modifies this`trace
        invariant 0 <= j <= |migrations|
        invariant trace == head + DownEvents(migrations[..j], pretend)
      {
        trace := trace + [RunDown(migrations[j], pretend)];
        assert migrations[..j + 1][..j] == migrations[..j];
        j := j + 1;
      }
      assert migrations[..j] == migrations;
      rolledBack := Some(|migrations|);
    }

    /** `rollback`'s tenant loop over snapshot `ts`; the count is the sum of
        the batch sizes. */
    method RollbackTenants(ts: seq<Tenant>, pretend: bool) returns (result: Result<nat>)
      modifies this`trace, this`connection, this`source
      ensures var done := Connected(ts, manager.connectable);
        && trace == old(trace) + RollbackEvents(ts, ledger, manager.connectable, pretend)
        && connection == Active(old(connection), done)
        && source == Active(old(source), done)
        && result == RollbackResult(ts, ledger, manager.connectable)
    {
      var everyMigration: nat := 0;
      ghost var t0 := trace;
      var ok := manager.connectable;
      var i := 0;
      while i < |ts|
        invariant 0 <= i <= |ts|
        invariant AllConnectable(ts[..i], ok)
        invariant trace == t0 + RollbackEvents(ts[..i], ledger, ok, pretend)
        invariant everyMigration == RolledBackCount(ts[..i], ledger)
        invariant connection == (if i == 0 then old(connection) else Some(ts[i - 1].tenantName))
        invariant source == (if i == 0 then old(source) else Some(ts[i - 1].tenantName))
      {
        ghost var before := trace;
        var rolledBack := RollbackTenant(ts[i].tenantName, pretend);
        if rolledBack.None? {
          RollbackTraceHalt(t0, before, ts, i, ledger, ok, pretend);
          ActiveAt(old(connection), ts, i);
          ActiveAt(old(source), ts, i);
          return Err(BootstrapFailed(ts[i].tenantName));
        }
        RollbackTraceStep(t0, before, ts, i, ledger, ok, pretend);
        everyMigration := everyMigration + rolledBack.value;
        i := i + 1;
      }
      ConnectedAt(ts, ok, i);
      ActiveAt(old(connection), ts, i);
      ActiveAt(old(source), ts, i);
      assert ts[..i] == ts;
      result := Ok(everyMigration);
    }

    /** Rolls back every tenant's last batch, one `runDown` per entry in batch
        order, skipping tenants whose last batch is empty, and returns the
        number of entries rolled back. Loads the migrations of the stored path
        first when `UsePath` was called. A failed bootstrap halts the rollback. */
    method Rollback(pretend: bool) returns (result: Result<nat>)
      modifies this`tenants, this`trace, this`connection, this`source
      ensures var snap := Snapshot(old(tenants), manager.directory);
              var done := Connected(snap, manager.connectable);
        && tenants == Some(snap)
        && trace == old(trace) + FetchEvents(old(tenants))
                    + (if usePath then IncludeEvents(path, Filter(migrationFiles(path), manager.policy, resolveName))
                       else [])
                    + RollbackEvents(snap, ledger, manager.connectable, pretend)
        && connection == Active(old(connection), done)
        && source == Active(old(source), done)
        && result == RollbackResult(snap, ledger, manager.connectable)
    {
      var ts := GetTenants();
      var migrationsFileList: seq<FileId> := [];
      if usePath {
        migrationsFileList := IncludeMigrations(path);
      }
      result := RollbackTenants(ts, pretend);
    }
  }
}
