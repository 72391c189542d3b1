# Tenant migrator

A model of `TenantMigrator`, the multi-tenant migration runner of the
`Stillat\Database\Tenant` package. Every tenant has its own database
connection and its own migration ledger (the table of migrations already
run). All tenants share one set of migration files on disk.

The migrator does three things:

- It **filters** the discovered migration files by the tenant manager's
  policy. The policy is a behaviour string plus a list of configured
  migration names. The behaviour `"only"` makes the list an allow-list. Every
  other behaviour makes it a deny-list. Files keep their discovery order and
  duplicates are kept.
- It **runs** migrations with `run`. The migrator fetches the tenants (cached)
  and filters the files once. Then, in snapshot order, it bootstraps each
  tenant's connection and switches the default connection and the ledger
  source to that tenant. It reads the tenant's ran set and hands the executor
  the filtered files minus that set.
- It **rolls back** with `rollback`. The migrator fetches the tenants and
  first loads the migrations at the stored path when `usePath` was called.
  Then, per tenant, it bootstraps and switches, reads the last batch, and
  calls `runDown` once per entry in batch order. A tenant with an empty batch
  gets no `runDown`. `rollback` returns the total number of entries.

The modules are:

- `Selection`: the order-preserving selection `Where`, which both the filter
  and the ran-set difference use, together with its lemmas.
- `MigrationFilter`: the policy rule `Keeps`, the function `Filter` and the
  properties of the two modes.
- `Orchestration`: the collaborators as values, plus the specification of
  each call sequence:
  - `RunEvents` and `RollbackEvents` give the expected sequence of
    collaborator calls.
  - `Connected` gives the tenants reached before a failed bootstrap.
  - `RolledBackCount` gives the sum of the batch sizes.
  - The remaining lemmas state what these sequences guarantee.
- `TenantMigrations`: the class `TenantMigrator`. Its fields are `usePath`,
  `path`, the tenant cache, the active connection and the ledger source, plus
  a ghost `trace` of every collaborator call. Its methods follow the source's
  loops, and each one proves that its new state and trace equal the
  specification functions.

The collaborators are modelled as follows:

- The tenant manager's policy, tenant directory and the set of tenants whose
  connection bootstraps form one `TenantManager` value.
- The ledger's ran sets and last batches per source form one `Ledger` value.
  The ledger and the tenant directory are constants of the migrator for its
  whole lifetime. When a cached snapshot is empty, the class queries the
  directory again and gets the same list. Only `CacheAfterLookup`, at the
  level of functions, covers a directory that changes between lookups.
- File discovery (`getMigrationFiles`) is an arbitrary function from a path
  to file identifiers.
- The name resolver (`TenantMigrationResolver::resolveMigrationName`) is an
  arbitrary total function from file identifier to name.

A bootstrap that fails stops the operation: `run` returns `Halted` and
`rollback` returns `Err`. Everything done before that point stays in the
trace.

`array_diff($migrationsFileList, $ran)` compares the discovered file
identifiers with the entries of the tenant's ran set as plain strings; the
resolved logical names play no part in it. The model does the same
(`Outstanding`).

PHP's `$this->tenants == null` is a loose comparison. An empty cached array
therefore counts as uncached and is queried again. The model states this
with `CacheHit`.

## Model

| member | source | states |
|---|---|---|
| Selection.Where | src/Stillat/Database/Tenant/Migrations/TenantMigrator.php:67-85 | the selection is never longer than its input and holds only elements of the input that the rule keeps |
| Selection.WhereMembers | src/Stillat/Database/Tenant/Migrations/TenantMigrator.php:67-85 | an element is selected if and only if it occurs in the input and the rule keeps it |
| Selection.WhereCounts | src/Stillat/Database/Tenant/Migrations/TenantMigrator.php:67-85 | every occurrence of a kept element is kept and none of a dropped one: no deduplication |
| Selection.WhereIsSubsequence | src/Stillat/Database/Tenant/Migrations/TenantMigrator.php:67-85 | the selection is a subsequence of the input, so input order is kept |
| Selection.WhereCongruent | src/Stillat/Database/Tenant/Migrations/TenantMigrator.php:71-84 | two rules that agree on every input element select the same sequence |
| Selection.WhereSplits | src/Stillat/Database/Tenant/Migrations/TenantMigrator.php:71-84 | a rule and its negation together select every occurrence exactly once, by multiset and by length |
| Selection.WhereNone | src/Stillat/Database/Tenant/Migrations/TenantMigrator.php:67-85 | when the rule keeps nothing, the selection is empty |
| Selection.WhereAll | src/Stillat/Database/Tenant/Migrations/TenantMigrator.php:67-85 | when the rule keeps everything, the selection is the whole input |
| MigrationFilter.Keeps | src/Stillat/Database/Tenant/Migrations/TenantMigrator.php:71-84 | the eligibility rule: in "only" mode a name is kept when it is configured, in every other mode when it is not (definition; its meaning is proved in `FilterOnly` and `FilterExcept`) |
| MigrationFilter.Filter | src/Stillat/Database/Tenant/Migrations/TenantMigrator.php:61-89 | the filtered list is never longer than the discovered list |
| MigrationFilter.FilterOnly | src/Stillat/Database/Tenant/Migrations/TenantMigrator.php:71-77 | in "only" mode a file is kept if and only if it was discovered and its resolved name is configured, with every occurrence kept |
| MigrationFilter.FilterExcept | src/Stillat/Database/Tenant/Migrations/TenantMigrator.php:78-84 | in any other mode a file is kept if and only if it was discovered and its resolved name is not configured, with every occurrence kept |
| MigrationFilter.FilterOtherModesAgree | src/Stillat/Database/Tenant/Migrations/TenantMigrator.php:71-84 | every behaviour string other than "only" selects the same files |
| MigrationFilter.FilterModesPartition | src/Stillat/Database/Tenant/Migrations/TenantMigrator.php:71-84 | "only" mode and any other mode partition the discovered files: the multisets add up to the input, the lengths add up, and no file is in both |
| MigrationFilter.FilterKeepsOrder | src/Stillat/Database/Tenant/Migrations/TenantMigrator.php:67-85 | the filtered list is a subsequence of the discovered list |
| Orchestration.Outstanding | src/Stillat/Database/Tenant/Migrations/TenantMigrator.php:152 | the files handed to a tenant are never more than the filtered files |
| Orchestration.OutstandingMembers | src/Stillat/Database/Tenant/Migrations/TenantMigrator.php:150-152 | a file is outstanding if and only if it is filtered and its identifier is not in the tenant's ran set (every occurrence kept) |
| Orchestration.OutstandingShape | src/Stillat/Database/Tenant/Migrations/TenantMigrator.php:152 | outstanding files keep filtered order; when everything has run the list is empty, and when nothing has run it is the whole filtered list |
| Orchestration.CacheHit | src/Stillat/Database/Tenant/Migrations/TenantMigrator.php:105 | the loose `== null` test: a cached list counts only when it is present and non-empty (definition) |
| Orchestration.Snapshot | src/Stillat/Database/Tenant/Migrations/TenantMigrator.php:105-110 | the tenant list `getTenants` returns and leaves cached: the cache on a hit, the repository's list otherwise (definition) |
| Orchestration.FetchEvents | src/Stillat/Database/Tenant/Migrations/TenantMigrator.php:105-108 | the repository query `getTenants` makes: none on a hit, one otherwise (definition) |
| Orchestration.CacheAfterLookup | src/Stillat/Database/Tenant/Migrations/TenantMigrator.php:105-110 | after one lookup a non-empty snapshot is served from the cache without a query, whatever the directory holds; an empty one is queried again |
| Orchestration.Connected | src/Stillat/Database/Tenant/Migrations/TenantMigrator.php:140-142 | the tenants reached form a prefix of the snapshot, all of them bootstrap, and the first tenant not reached fails to bootstrap |
| Orchestration.DownEvents | src/Stillat/Database/Tenant/Migrations/TenantMigrator.php:197-201 | one `runDown` call per batch entry |
| Orchestration.TenantRunEvents | src/Stillat/Database/Tenant/Migrations/TenantMigrator.php:142-156 | the calls `run` makes for one tenant that bootstraps: bootstrap, setConnection, setSource, getRan, then `runMigrationList` of the filtered files minus that tenant's ran set (definition) |
| Orchestration.RunEvents | src/Stillat/Database/Tenant/Migrations/TenantMigrator.php:140-158 | the calls of `run`'s tenant loop: each tenant's calls in snapshot order, stopping after the first bootstrap that fails (definition; its properties are the lemmas below) |
| Orchestration.RunOutcome | src/Stillat/Database/Tenant/Migrations/TenantMigrator.php:140-142 | `run` completes when every tenant bootstraps and otherwise halts with the first failing tenant (definition) |
| Orchestration.RunCallCount | src/Stillat/Database/Tenant/Migrations/TenantMigrator.php:140-158 | `run` makes five calls per reached tenant, plus one for the failed bootstrap when it halts |
| Orchestration.RunHandsEachTenantItsOutstanding | src/Stillat/Database/Tenant/Migrations/TenantMigrator.php:140-156 | `run` calls `runMigrationList` once per reached tenant, and tenant k gets exactly the filtered list minus tenant k's own ran set |
| Orchestration.RunSwitchesInSnapshotOrder | src/Stillat/Database/Tenant/Migrations/TenantMigrator.php:140-144 | `run` switches the ledger source to the reached tenants in snapshot order, once each |
| Orchestration.RunEventsOrdered | src/Stillat/Database/Tenant/Migrations/TenantMigrator.php:142-156 | every ran-set read directly follows the bootstrap, connection switch and source switch of the same tenant; every `runMigrationList` directly follows a ran-set read and gets that tenant's outstanding files |
| Orchestration.RunLoopNeverRefilters | src/Stillat/Database/Tenant/Migrations/TenantMigrator.php:122-158 | the tenant loop never discovers, loads or filters files and never queries the tenants: filtering happens once, before the loop |
| Orchestration.TenantRollbackEvents | src/Stillat/Database/Tenant/Migrations/TenantMigrator.php:182-201 | the calls `rollback` makes for one tenant that bootstraps: bootstrap, setConnection, setSource, getLast, then one `runDown` per batch entry (definition) |
| Orchestration.RollbackEvents | src/Stillat/Database/Tenant/Migrations/TenantMigrator.php:180-205 | the calls of `rollback`'s tenant loop: each tenant's calls in snapshot order, stopping after the first bootstrap that fails (definition; its properties are the lemmas below) |
| Orchestration.RolledBackCount | src/Stillat/Database/Tenant/Migrations/TenantMigrator.php:178-203 | the running total `$everyMigration`: the sum of the tenants' last-batch sizes (definition; see `LastBatchesCount`) |
| Orchestration.RollbackResult | src/Stillat/Database/Tenant/Migrations/TenantMigrator.php:178-207 | `rollback` returns the total when every tenant bootstraps and otherwise fails with the first failing tenant (definition) |
| Orchestration.RollbackCallCount | src/Stillat/Database/Tenant/Migrations/TenantMigrator.php:180-205 | `rollback` makes four calls per reached tenant plus one `runDown` per entry of its last batch, plus one for the failed bootstrap when it halts |
| Orchestration.RollbackSwitchesInSnapshotOrder | src/Stillat/Database/Tenant/Migrations/TenantMigrator.php:180-186 | `rollback` switches the ledger source to the reached tenants in snapshot order, once each |
| Orchestration.RollbackEventsOrdered | src/Stillat/Database/Tenant/Migrations/TenantMigrator.php:182-188 | every last-batch read directly follows the bootstrap, connection switch and source switch of the same tenant |
| Orchestration.RollbackDownsAfterRead | src/Stillat/Database/Tenant/Migrations/TenantMigrator.php:188-201 | every `runDown` follows the same tenant's getLast with only `runDown`s in between, and reverts that batch's entry at its place in the run |
| Orchestration.DownEventsOnlyDowns | src/Stillat/Database/Tenant/Migrations/TenantMigrator.php:197-201 | the batch loop makes only `runDown` calls |
| Orchestration.LastBatchesCount | src/Stillat/Database/Tenant/Migrations/TenantMigrator.php:203 | the concatenated last batches have as many entries as the running count adds up |
| Orchestration.RollbackRevertsLastBatches | src/Stillat/Database/Tenant/Migrations/TenantMigrator.php:188-203 | the entries passed to `runDown` are exactly the reached tenants' last batches, in snapshot and batch order (nothing for an empty batch), and their number is the sum of the batch sizes |
| Orchestration.RollbackReturnsDownCount | src/Stillat/Database/Tenant/Migrations/TenantMigrator.php:178-207 | when every tenant bootstraps, `rollback`'s result is the number of `runDown` calls it made |
| TenantMigrations.TenantMigrator.constructor | src/Stillat/Database/Tenant/Migrations/TenantMigrator.php:26-56 | keeps the collaborators; `usePath` is false, `path` is empty, no tenants are cached, and no connection or source is selected yet |
| TenantMigrations.TenantMigrator.IncludeMigrations | src/Stillat/Database/Tenant/Migrations/TenantMigrator.php:59-90 | the returned list is the policy filter of the discovered files; the only calls are one discovery and one load of that list |
| TenantMigrations.TenantMigrator.UsePath | src/Stillat/Database/Tenant/Migrations/TenantMigrator.php:92-96 | sets `usePath` and `path` and nothing else |
| TenantMigrations.TenantMigrator.GetTenants | src/Stillat/Database/Tenant/Migrations/TenantMigrator.php:103-111 | returns and caches the directory, querying only when the cache is `null` or empty; a non-empty cache is returned unchanged without a query |
| TenantMigrations.TenantMigrator.MigrateTenant | src/Stillat/Database/Tenant/Migrations/TenantMigrator.php:142-156 | one tenant of `run`: bootstrap; if it succeeds, the switch, the ran-set read and the outstanding list in that order, with connection and source set to the tenant |
| TenantMigrations.TenantMigrator.MigrateTenants | src/Stillat/Database/Tenant/Migrations/TenantMigrator.php:140-158 | the tenant loop produces exactly `RunEvents` over the snapshot, halts at the first failed bootstrap, and leaves connection and source on the last tenant reached |
| TenantMigrations.TenantMigrator.Run | src/Stillat/Database/Tenant/Migrations/TenantMigrator.php:120-159 | `run` is one tenant lookup, then one filter, then the tenant loop over the snapshot with that filtered list; it returns `Halted` exactly when some tenant fails to bootstrap |
| TenantMigrations.TenantMigrator.RollbackTenant | src/Stillat/Database/Tenant/Migrations/TenantMigrator.php:180-203 | one tenant of `rollback`: bootstrap; if it succeeds, the switch, the last-batch read and one `runDown` per entry in order; returns the batch size |
| TenantMigrations.TenantMigrator.RollbackTenants | src/Stillat/Database/Tenant/Migrations/TenantMigrator.php:178-207 | the tenant loop produces exactly `RollbackEvents` over the snapshot and returns the sum of the batch sizes, or the failed tenant's error |
| TenantMigrations.TenantMigrator.Rollback | src/Stillat/Database/Tenant/Migrations/TenantMigrator.php:167-208 | `rollback` looks up the tenants, loads the stored path's filtered migrations only when `usePath` is set, then runs the tenant loop and returns its count |

## Left out

- Ledger writes are not modelled. `runMigrationList` and `runDown` belong to the parent Laravel `Migrator` and appear only as trace events. Batch numbering and the effect of `pretend` are not modelled either. The ledger and the tenant directory stay constant for the migrator's lifetime, so the model does not cover:
  - that a second `run` does nothing;
  - that a batch is applied as a unit;
  - that the ran set shrinks after a rollback;
  - a tenant that appears twice in the snapshot, which sees the same ran set both times.
- Exceptions are modelled only for a failed bootstrap, which halts the operation. Failures of the executor, the ledger or the tenant directory are not modelled.
- The text of the `note()` progress messages is not modelled. They are output only.
- PHP's loose `in_array` comparison, which treats numeric strings as equal, is modelled as exact membership.
- `getMigrationBehavior() == 'only'` (TenantMigrator.php:71) is a loose PHP comparison as well. The model uses exact string equality with `"only"`.
- `getMigrationBehavior()` is called for every file in the source. The model reads the behaviour once from the policy, assuming the manager's configuration does not change during one call.
- `TenantMigrationResolver` is not part of this model. `resolveMigrationName` is an arbitrary total function.
- `getMigrationFiles` is an arbitrary function of the path, and `requireFiles` is a trace event. Real file system access is not modelled.
- `setConnection` and `setSource` are modelled as fields of the migrator. Real database connections are not modelled.
- The `NameCommand` classes are not part of this model.
- `SchemaCreatorInterface` is not part of this model.
- The wiring of the parent `Migrator` constructor (repository, connection resolver, file system) is not modelled.
- In `rollback`, the loaded file list is computed and recorded in the trace but never used afterwards, as in the source.
