/** What the tenant orchestrator does, as the sequence of collaborator calls it
    makes (the trace), and the facts about that sequence: per-tenant ordering,
    the diff handed to the executor, and the rollback count. */
module Orchestration {
  import opened Selection
  import opened MigrationFilter

  datatype Option<+T> = None | Some(value: T)

  /** A row of the tenant directory; only its name is used. */
  datatype Tenant = Tenant(tenantName: string)

  /** One row of the ran-migrations ledger. */
  datatype LedgerEntry = LedgerEntry(migration: FileId, batch: int)

  /** The ledger's rows, per source (a tenant name). A source with no rows
      reads as empty. */
  datatype Ledger = Ledger(ran: map<string, seq<FileId>>, last: map<string, seq<LedgerEntry>>) {
    /** `getRan()` once the source is `source`. */
    function Ran(source: string): seq<FileId> {
      if source in ran then ran[source] else []
    }
    /** `getLast()` once the source is `source`: that tenant's most recent batch. */
    function Last(source: string): seq<LedgerEntry> {
      if source in last then last[source] else []
    }
  }

  /** The tenant manager as the orchestrator consults it: the migration policy,
      the repository's tenant list, and the tenants whose connection can be
      bootstrapped (for any other name bootstrapping throws). */
  datatype TenantManager = TenantManager(policy: Policy, directory: seq<Tenant>, connectable: set<string>)

  datatype Error = BootstrapFailed(tenant: string)

  /** How `run` ends: normally, or by the exception of a failed bootstrap. */
  datatype Outcome = Done | Halted(error: Error)

  /** How `rollback` ends: with its count, or by the exception of a failed bootstrap. */
  datatype Result<T> = Ok(value: T) | Err(error: Error)

  /** One call the orchestrator makes into a collaborator. */
  datatype Event =
    | QueryTenants                                  // manager->getRepository()->getTenants()
    | DiscoverFiles(path: Path)                     // getMigrationFiles($path)
    | RequireFiles(path: Path, files: seq<FileId>)  // requireFiles($path, $list)
    | Bootstrap(tenant: string)                     // manager->bootstrapConnectionByTenantName
    | SetConnection(tenant: string)
    | SetSource(tenant: string)                     // repository->setSource
    | GetRan(tenant: string)                        // repository->getRan() on that source
    | GetLast(tenant: string)                       // repository->getLast() on that source
    | RunList(files: seq<FileId>, pretend: bool)    // runMigrationList
    | RunDown(entry: LedgerEntry, pretend: bool)    // runDown

  // ---------------------------------------------------------------------
  // The ran-set difference of the forward run (PHP array_diff)

  /** The filtered files not yet recorded as ran, in filtered order; files are
      compared as identifiers, with every occurrence kept. */
  function Outstanding(filtered: seq<FileId>, ran: seq<FileId>): (r: seq<FileId>)
    ensures |r| <= |filtered|
  {
    Where(filtered, f => f !in ran)
  }

  /** A file is outstanding exactly when it is eligible and not ran. */
  lemma OutstandingMembers(filtered: seq<FileId>, ran: seq<FileId>, f: FileId)
    ensures f in Outstanding(filtered, ran) <==> f in filtered && f !in ran
    ensures multiset(Outstanding(filtered, ran))[f] == if f in ran then 0 else multiset(filtered)[f]
  {
    WhereMembers(filtered, f => f !in ran, f);
    WhereCounts(filtered, f => f !in ran, f);
  }

  /** Outstanding files keep the filtered order; when every eligible file has
      run nothing is outstanding, and when none has everything is. */
  lemma OutstandingShape(filtered: seq<FileId>, ran: seq<FileId>)
    ensures IsSubsequence(Outstanding(filtered, ran), filtered)
    ensures (forall f :: f in filtered ==> f in ran) ==> Outstanding(filtered, ran) == []
    ensures (forall f :: f in filtered ==> f !in ran) ==> Outstanding(filtered, ran) == filtered
  {
    WhereIsSubsequence(filtered, f => f !in ran);
    if forall f :: f in filtered ==> f in ran {
      WhereNone(filtered, f => f !in ran);
    }
    if forall f :: f in filtered ==> f !in ran {
      WhereAll(filtered, f => f !in ran);
    }
  }

  // ---------------------------------------------------------------------
  // The tenant cache of getTenants

  /** PHP's `$this->tenants == null` is a loose comparison: an empty array
      counts as not cached. */
  predicate CacheHit(cache: Option<seq<Tenant>>) {
    cache.Some? && cache.value != []
  }

  /** The tenant list `getTenants` returns and leaves cached. */
  function Snapshot(cache: Option<seq<Tenant>>, directory: seq<Tenant>): seq<Tenant> {
    if CacheHit(cache) then cache.value else directory
  }

  /** The repository queries `getTenants` makes. */
  function FetchEvents(cache: Option<seq<Tenant>>): seq<Event> {
    if CacheHit(cache) then [] else [QueryTenants]
  }

  /** After one lookup a non-empty snapshot is served from the cache, whatever
      the directory says by then; an empty one is queried again. */
  lemma CacheAfterLookup(cache: Option<seq<Tenant>>, d1: seq<Tenant>, d2: seq<Tenant>)
    ensures var s := Snapshot(cache, d1);
      && (s != [] ==> Snapshot(Some(s), d2) == s && FetchEvents(Some(s)) == [])
      && (s == [] ==> Snapshot(Some(s), d2) == d2 && FetchEvents(Some(s)) == [QueryTenants])
  {
  }

  // ---------------------------------------------------------------------
  // Tenants reached before a failed bootstrap

  /** The longest prefix of `ts` whose connections bootstrap: the tenants an
      orchestration finishes before a failed bootstrap halts it. */
  function Connected(ts: seq<Tenant>, ok: set<string>): (r: seq<Tenant>)
    ensures |r| <= |ts| && r == ts[..|r|]
    ensures forall k :: 0 <= k < |r| ==> r[k].tenantName in ok
    ensures |r| < |ts| ==> ts[|r|].tenantName !in ok
  {
    if ts == [] || ts[0].tenantName !in ok then [] else [ts[0]] + Connected(ts[1..], ok)
  }

  predicate AllConnectable(ts: seq<Tenant>, ok: set<string>) {
    forall k :: 0 <= k < |ts| ==> ts[k].tenantName in ok
  }

  /** A prefix that bootstraps, followed by a tenant that does not, is exactly
      what is reached; a snapshot that bootstraps throughout is reached whole. */
  lemma ConnectedAt(ts: seq<Tenant>, ok: set<string>, i: nat)
    requires i <= |ts| && AllConnectable(ts[..i], ok)
    ensures i < |ts| && ts[i].tenantName !in ok ==> Connected(ts, ok) == ts[..i]
    ensures i == |ts| ==> Connected(ts, ok) == ts
  {
  }

  lemma AllConnectableStep(ts: seq<Tenant>, i: nat, ok: set<string>)
    requires i < |ts| && AllConnectable(ts[..i], ok) && ts[i].tenantName in ok
    ensures AllConnectable(ts[..i + 1], ok)
  {
    assert ts[..i + 1] == ts[..i] + [ts[i]];
  }

  /** The active connection (and ledger source) once `done` has been processed. */
  function Active(before: Option<string>, done: seq<Tenant>): Option<string> {
    if done == [] then before else Some(done[|done| - 1].tenantName)
  }

  lemma ActiveAt(before: Option<string>, ts: seq<Tenant>, i: nat)
    requires i <= |ts|
    ensures Active(before, ts[..i]) == if i == 0 then before else Some(ts[i - 1].tenantName)
  {
  }

  /** Bootstrap, set the connection, set the ledger source. */
  function Switch(n: string): seq<Event> {
    [Bootstrap(n), SetConnection(n), SetSource(n)]
  }

  /** The calls of `includeMigrations($path)` whose result is `filtered`. */
  function IncludeEvents(path: Path, filtered: seq<FileId>): seq<Event> {
    [DiscoverFiles(path), RequireFiles(path, filtered)]
  }

  // ---------------------------------------------------------------------
  // run

  function TenantRunEvents(n: string, filtered: seq<FileId>, ledger: Ledger, pretend: bool): seq<Event> {
    Switch(n) + [GetRan(n), RunList(Outstanding(filtered, ledger.Ran(n)), pretend)]
  }

  /** The calls of `run`'s tenant loop over snapshot `ts`: each tenant in turn,
      up to and including the first bootstrap that fails. */
  function RunEvents(ts: seq<Tenant>, filtered: seq<FileId>, ledger: Ledger, ok: set<string>,
                     pretend: bool): seq<Event>
    decreases |ts|
  {
    if ts == [] then []
    else if ts[0].tenantName !in ok then [Bootstrap(ts[0].tenantName)]
    else TenantRunEvents(ts[0].tenantName, filtered, ledger, pretend) + RunEvents(ts[1..], filtered, ledger, ok, pretend)
  }

  function RunOutcome(ts: seq<Tenant>, ok: set<string>): Outcome {
    var done := Connected(ts, ok);
    if |done| == |ts| then Done else Halted(BootstrapFailed(ts[|done|].tenantName))
  }

  lemma {:induction false} RunEventsAppend(a: seq<Tenant>, b: seq<Tenant>, filtered: seq<FileId>,
                                           ledger: Ledger, ok: set<string>, pretend: bool)
    requires AllConnectable(a, ok)
    ensures RunEvents(a + b, filtered, ledger, ok, pretend)
         == RunEvents(a, filtered, ledger, ok, pretend) + RunEvents(b, filtered, ledger, ok, pretend)
  {
    if a != [] {
      assert (a + b)[0] == a[0] && (a + b)[1..] == a[1..] + b;
      RunEventsAppend(a[1..], b, filtered, ledger, ok, pretend);
    } else {
      assert a + b == b;
    }
  }

  /** One more tenant of the run loop: its block when it bootstraps, the
      failed bootstrap and nothing after it otherwise. */
  lemma RunEventsStep(ts: seq<Tenant>, i: nat, filtered: seq<FileId>, ledger: Ledger, ok: set<string>,
                      pretend: bool)
    requires i < |ts| && AllConnectable(ts[..i], ok)
    ensures ts[i].tenantName in ok ==>
      RunEvents(ts[..i + 1], filtered, ledger, ok, pretend)
      == RunEvents(ts[..i], filtered, ledger, ok, pretend) + TenantRunEvents(ts[i].tenantName, filtered, ledger, pretend)
    ensures ts[i].tenantName !in ok ==>
      RunEvents(ts, filtered, ledger, ok, pretend)
      == RunEvents(ts[..i], filtered, ledger, ok, pretend) + [Bootstrap(ts[i].tenantName)]
  {
    assert ts[..i + 1] == ts[..i] + [ts[i]];
    assert ts == ts[..i] + ts[i..];
    RunEventsAppend(ts[..i], [ts[i]], filtered, ledger, ok, pretend);
    RunEventsAppend(ts[..i], ts[i..], filtered, ledger, ok, pretend);
    assert [ts[i]][1..] == [];
  }

  /** The run loop body appends one tenant's block, call by call. */
  lemma RunBlockCalls(before: seq<Event>, n: string, filtered: seq<FileId>, ledger: Ledger, pretend: bool)
    ensures before + [Bootstrap(n)] + [SetConnection(n)] + [SetSource(n)] + [GetRan(n)]
            + [RunList(Outstanding(filtered, ledger.Ran(n)), pretend)]
         == before + TenantRunEvents(n, filtered, ledger, pretend)
  {
  }

  /** The run loop's trace after one more tenant that bootstraps. */
  lemma RunTraceStep(t0: seq<Event>, before: seq<Event>, ts: seq<Tenant>, i: nat, filtered: seq<FileId>,
                     ledger: Ledger, ok: set<string>, pretend: bool)
    requires i < |ts| && AllConnectable(ts[..i], ok) && ts[i].tenantName in ok
    requires before == t0 + RunEvents(ts[..i], filtered, ledger, ok, pretend)
    ensures AllConnectable(ts[..i + 1], ok)
    ensures before + TenantRunEvents(ts[i].tenantName, filtered, ledger, pretend)
         == t0 + RunEvents(ts[..i + 1], filtered, ledger, ok, pretend)
  {
    RunEventsStep(ts, i, filtered, ledger, ok, pretend);
    AllConnectableStep(ts, i, ok);
  }

  /** The run loop's trace when tenant `i` fails to bootstrap: the whole
      `RunEvents` of the snapshot, and the run halts with that tenant's error. */
  lemma RunTraceHalt(t0: seq<Event>, before: seq<Event>, ts: seq<Tenant>, i: nat, filtered: seq<FileId>,
                     ledger: Ledger, ok: set<string>, pretend: bool)
    requires i < |ts| && AllConnectable(ts[..i], ok) && ts[i].tenantName !in ok
    requires before == t0 + RunEvents(ts[..i], filtered, ledger, ok, pretend)
    ensures before + [Bootstrap(ts[i].tenantName)] == t0 + RunEvents(ts, filtered, ledger, ok, pretend)
    ensures Connected(ts, ok) == ts[..i]
    ensures RunOutcome(ts, ok) == Halted(BootstrapFailed(ts[i].tenantName))
  {
    RunEventsStep(ts, i, filtered, ledger, ok, pretend);
    ConnectedAt(ts, ok, i);
  }

  // ---------------------------------------------------------------------
  // rollback

  /** One `runDown` per entry of the batch, in batch order. */
  function DownEvents(batch: seq<LedgerEntry>, pretend: bool): (r: seq<Event>)
    ensures |r| == |batch|
  {
    if batch == [] then []
    else DownEvents(batch[..|batch| - 1], pretend) + [RunDown(batch[|batch| - 1], pretend)]
  }

  function TenantRollbackEvents(n: string, ledger: Ledger, pretend: bool): seq<Event> {
    Switch(n) + [GetLast(n)] + DownEvents(ledger.Last(n), pretend)
  }

  /** The calls of `rollback`'s tenant loop over snapshot `ts`. */
  function RollbackEvents(ts: seq<Tenant>, ledger: Ledger, ok: set<string>, pretend: bool): seq<Event>
    decreases |ts|
  {
    if ts == [] then []
    else if ts[0].tenantName !in ok then [Bootstrap(ts[0].tenantName)]
    else TenantRollbackEvents(ts[0].tenantName, ledger, pretend) + RollbackEvents(ts[1..], ledger, ok, pretend)
  }

  /** The sum over `ts` of each tenant's last-batch size. */
  function RolledBackCount(ts: seq<Tenant>, ledger: Ledger): nat
    decreases |ts|
  {
    if ts == [] then 0 else |ledger.Last(ts[0].tenantName)| + RolledBackCount(ts[1..], ledger)
  }

  function RollbackResult(ts: seq<Tenant>, ledger: Ledger, ok: set<string>): Result<nat> {
    var done := Connected(ts, ok);
    if |done| == |ts| then Ok(RolledBackCount(ts, ledger)) else Err(BootstrapFailed(ts[|done|].tenantName))
  }

  lemma {:induction false} RollbackEventsAppend(a: seq<Tenant>, b: seq<Tenant>, ledger: Ledger,
                                                ok: set<string>, pretend: bool)
    requires AllConnectable(a, ok)
    ensures RollbackEvents(a + b, ledger, ok, pretend)
         == RollbackEvents(a, ledger, ok, pretend) + RollbackEvents(b, ledger, ok, pretend)
  {
    if a != [] {
      assert (a + b)[0] == a[0] && (a + b)[1..] == a[1..] + b;
      RollbackEventsAppend(a[1..], b, ledger, ok, pretend);
    } else {
      assert a + b == b;
    }
  }

  /** One more tenant of the rollback loop: its block and its batch size when
      it bootstraps, the failed bootstrap and nothing after it otherwise. */
  lemma RollbackEventsStep(ts: seq<Tenant>, i: nat, ledger: Ledger, ok: set<string>, pretend: bool)
    requires i < |ts| && AllConnectable(ts[..i], ok)
    ensures ts[i].tenantName in ok ==>
      RollbackEvents(ts[..i + 1], ledger, ok, pretend)
      == RollbackEvents(ts[..i], ledger, ok, pretend) + TenantRollbackEvents(ts[i].tenantName, ledger, pretend)
    ensures ts[i].tenantName !in ok ==>
      RollbackEvents(ts, ledger, ok, pretend)
      == RollbackEvents(ts[..i], ledger, ok, pretend) + [Bootstrap(ts[i].tenantName)]
    ensures RolledBackCount(ts[..i + 1], ledger) == RolledBackCount(ts[..i], ledger) + |ledger.Last(ts[i].tenantName)|
  {
    assert ts[..i + 1] == ts[..i] + [ts[i]];
    assert ts == ts[..i] + ts[i..];
    RollbackEventsAppend(ts[..i], [ts[i]], ledger, ok, pretend);
    RollbackEventsAppend(ts[..i], ts[i..], ledger, ok, pretend);
    RolledBackCountAppend(ts[..i], [ts[i]], ledger);
    assert [ts[i]][1..] == [];
  }

  /** The rollback loop body appends one tenant's block, call by call. */
  lemma RollbackBlockCalls(before: seq<Event>, n: string, ledger: Ledger, pretend: bool)
    ensures before + [Bootstrap(n)] + [SetConnection(n)] + [SetSource(n)] + [GetLast(n)]
            + DownEvents(ledger.Last(n), pretend)
         == before + TenantRollbackEvents(n, ledger, pretend)
  {
  }

  /** The rollback loop's trace and count after one more tenant that bootstraps. */
  lemma RollbackTraceStep(t0: seq<Event>, before: seq<Event>, ts: seq<Tenant>, i: nat, ledger: Ledger,
                          ok: set<string>, pretend: bool)
    requires i < |ts| && AllConnectable(ts[..i], ok) && ts[i].tenantName in ok
    requires before == t0 + RollbackEvents(ts[..i], ledger, ok, pretend)
    ensures AllConnectable(ts[..i + 1], ok)
    ensures before + TenantRollbackEvents(ts[i].tenantName, ledger, pretend)
         == t0 + RollbackEvents(ts[..i + 1], ledger, ok, pretend)
    ensures RolledBackCount(ts[..i + 1], ledger) == RolledBackCount(ts[..i], ledger) + |ledger.Last(ts[i].tenantName)|
  {
    RollbackEventsStep(ts, i, ledger, ok, pretend);
    AllConnectableStep(ts, i, ok);
  }

  /** The rollback loop's trace when tenant `i` fails to bootstrap. */
  lemma RollbackTraceHalt(t0: seq<Event>, before: seq<Event>, ts: seq<Tenant>, i: nat, ledger: Ledger,
                          ok: set<string>, pretend: bool)
    requires i < |ts| && AllConnectable(ts[..i], ok) && ts[i].tenantName !in ok
    requires before == t0 + RollbackEvents(ts[..i], ledger, ok, pretend)
    ensures before + [Bootstrap(ts[i].tenantName)] == t0 + RollbackEvents(ts, ledger, ok, pretend)
    ensures Connected(ts, ok) == ts[..i]
    ensures RollbackResult(ts, ledger, ok) == Err(BootstrapFailed(ts[i].tenantName))
  {
    RollbackEventsStep(ts, i, ledger, ok, pretend);
    ConnectedAt(ts, ok, i);
  }

  lemma {:induction false} RolledBackCountAppend(a: seq<Tenant>, b: seq<Tenant>, ledger: Ledger)
    ensures RolledBackCount(a + b, ledger) == RolledBackCount(a, ledger) + RolledBackCount(b, ledger)
  {
    if a != [] {
      assert (a + b)[0] == a[0] && (a + b)[1..] == a[1..] + b;
      RolledBackCountAppend(a[1..], b, ledger);
    } else {
      assert a + b == b;
    }
  }

  // ---------------------------------------------------------------------
  // Views of a trace

  /** The lists handed to `runMigrationList`, in call order. */
  function ExecutedLists(tr: seq<Event>): seq<seq<FileId>>
    decreases |tr|
  {
    if tr == [] then []
    else (if tr[0].RunList? then [tr[0].files] else []) + ExecutedLists(tr[1..])
  }

  /** The entries handed to `runDown`, in call order. */
  function RolledBackEntries(tr: seq<Event>): seq<LedgerEntry>
    decreases |tr|
  {
    if tr == [] then []
    else (if tr[0].RunDown? then [tr[0].entry] else []) + RolledBackEntries(tr[1..])
  }

  /** The ledger sources switched to, in call order. */
  function SwitchedSources(tr: seq<Event>): seq<string>
    decreases |tr|
  {
    if tr == [] then []
    else (if tr[0].SetSource? then [tr[0].tenant] else []) + SwitchedSources(tr[1..])
  }

  function Names(ts: seq<Tenant>): seq<string>
    decreases |ts|
  {
    if ts == [] then [] else [ts[0].tenantName] + Names(ts[1..])
  }

  /** The last batches of `ts`, one after the other. */
  function LastBatches(ts: seq<Tenant>, ledger: Ledger): seq<LedgerEntry>
    decreases |ts|
  {
    if ts == [] then [] else ledger.Last(ts[0].tenantName) + LastBatches(ts[1..], ledger)
  }

  lemma {:induction false} ViewsAppend(a: seq<Event>, b: seq<Event>)
    ensures ExecutedLists(a + b) == ExecutedLists(a) + ExecutedLists(b)
    ensures RolledBackEntries(a + b) == RolledBackEntries(a) + RolledBackEntries(b)
    ensures SwitchedSources(a + b) == SwitchedSources(a) + SwitchedSources(b)
  {
    if a != [] {
      assert (a + b)[0] == a[0] && (a + b)[1..] == a[1..] + b;
      ViewsAppend(a[1..], b);
    } else {
      assert a + b == b;
    }
  }

  /** The views of a single tenant's switch: one source, nothing executed. */
  lemma SwitchViews(n: string)
    ensures SwitchedSources(Switch(n)) == [n]
    ensures ExecutedLists(Switch(n)) == [] && RolledBackEntries(Switch(n)) == []
  {
    ViewsAppend([Bootstrap(n), SetConnection(n)], [SetSource(n)]);
    ViewsAppend([Bootstrap(n)], [SetConnection(n)]);
    assert Switch(n) == [Bootstrap(n), SetConnection(n)] + [SetSource(n)];
    assert [Bootstrap(n), SetConnection(n)] == [Bootstrap(n)] + [SetConnection(n)];
  }

  /** The views of one tenant's block in `run` and of the head of one in `rollback`. */
  lemma BlockViews(n: string, files: seq<FileId>, pretend: bool)
    ensures var run := Switch(n) + [GetRan(n), RunList(files, pretend)];
      SwitchedSources(run) == [n] && ExecutedLists(run) == [files] && RolledBackEntries(run) == []
    ensures var head := Switch(n) + [GetLast(n)];
      SwitchedSources(head) == [n] && ExecutedLists(head) == [] && RolledBackEntries(head) == []
  {
    SwitchViews(n);
    ViewsAppend([GetRan(n)], [RunList(files, pretend)]);
    ViewsAppend(Switch(n), [GetRan(n)] + [RunList(files, pretend)]);
    assert [GetRan(n), RunList(files, pretend)] == [GetRan(n)] + [RunList(files, pretend)];
    ViewsAppend(Switch(n), [GetLast(n)]);
  }

  lemma {:induction false} DownEventsViews(batch: seq<LedgerEntry>, pretend: bool)
    ensures RolledBackEntries(DownEvents(batch, pretend)) == batch
    ensures ExecutedLists(DownEvents(batch, pretend)) == []
    ensures SwitchedSources(DownEvents(batch, pretend)) == []
  {
    if batch != [] {
      var init := batch[..|batch| - 1];
      DownEventsViews(init, pretend);
      ViewsAppend(DownEvents(init, pretend), [RunDown(batch[|batch| - 1], pretend)]);
      assert batch == init + [batch[|batch| - 1]];
    }
  }

  /** `run` hands the executor one list per tenant it reaches, in snapshot
      order, and tenant k's list is exactly the shared filtered list minus
      tenant k's own ran set. */
  lemma {:induction false} RunHandsEachTenantItsOutstanding(ts: seq<Tenant>, filtered: seq<FileId>,
                                                            ledger: Ledger, ok: set<string>, pretend: bool)
    ensures var lists, done := ExecutedLists(RunEvents(ts, filtered, ledger, ok, pretend)), Connected(ts, ok);
      |lists| == |done|
      && forall k :: 0 <= k < |done| ==> lists[k] == Outstanding(filtered, ledger.Ran(done[k].tenantName))
    decreases |ts|
  {
    if ts != [] && ts[0].tenantName in ok {
      var n := ts[0].tenantName;
      var block := TenantRunEvents(n, filtered, ledger, pretend);
      var rest := RunEvents(ts[1..], filtered, ledger, ok, pretend);
      RunHandsEachTenantItsOutstanding(ts[1..], filtered, ledger, ok, pretend);
      ViewsAppend(block, rest);
      BlockViews(n, Outstanding(filtered, ledger.Ran(n)), pretend);
      var lists, done := ExecutedLists(block + rest), Connected(ts, ok);
      assert lists == [Outstanding(filtered, ledger.Ran(n))] + ExecutedLists(rest);
      assert done == [ts[0]] + Connected(ts[1..], ok);
      forall k | 0 <= k < |done| ensures lists[k] == Outstanding(filtered, ledger.Ran(done[k].tenantName)) {
        if k > 0 {
          assert lists[k] == ExecutedLists(rest)[k - 1] && done[k] == Connected(ts[1..], ok)[k - 1];
        }
      }
    } else if ts != [] {
      assert ExecutedLists([Bootstrap(ts[0].tenantName)]) == [];
    }
  }

  /** `run` switches the ledger source to the tenants it reaches, in snapshot
      order, once each. */
  lemma {:induction false} RunSwitchesInSnapshotOrder(ts: seq<Tenant>, filtered: seq<FileId>,
                                                      ledger: Ledger, ok: set<string>, pretend: bool)
    ensures SwitchedSources(RunEvents(ts, filtered, ledger, ok, pretend)) == Names(Connected(ts, ok))
    decreases |ts|
  {
    if ts != [] && ts[0].tenantName in ok {
      var n := ts[0].tenantName;
      var block := TenantRunEvents(n, filtered, ledger, pretend);
      RunSwitchesInSnapshotOrder(ts[1..], filtered, ledger, ok, pretend);
      ViewsAppend(block, RunEvents(ts[1..], filtered, ledger, ok, pretend));
      BlockViews(n, Outstanding(filtered, ledger.Ran(n)), pretend);
      assert Connected(ts, ok) == [ts[0]] + Connected(ts[1..], ok);
    } else if ts != [] {
      assert SwitchedSources([Bootstrap(ts[0].tenantName)]) == [];
    }
  }

  /** `rollback` switches the ledger source to the tenants it reaches, in
      snapshot order, once each. */
  lemma {:induction false} RollbackSwitchesInSnapshotOrder(ts: seq<Tenant>, ledger: Ledger,
                                                           ok: set<string>, pretend: bool)
    ensures SwitchedSources(RollbackEvents(ts, ledger, ok, pretend)) == Names(Connected(ts, ok))
    decreases |ts|
  {
    if ts != [] && ts[0].tenantName in ok {
      var n := ts[0].tenantName;
      var head := Switch(n) + [GetLast(n)];
      RollbackSwitchesInSnapshotOrder(ts[1..], ledger, ok, pretend);
      DownEventsViews(ledger.Last(n), pretend);
      ViewsAppend(head, DownEvents(ledger.Last(n), pretend));
      ViewsAppend(TenantRollbackEvents(n, ledger, pretend), RollbackEvents(ts[1..], ledger, ok, pretend));
      BlockViews(n, [], pretend);
      assert Connected(ts, ok) == [ts[0]] + Connected(ts[1..], ok);
    } else if ts != [] {
      assert SwitchedSources([Bootstrap(ts[0].tenantName)]) == [];
    }
  }

  lemma {:induction false} LastBatchesCount(ts: seq<Tenant>, ledger: Ledger)
    ensures |LastBatches(ts, ledger)| == RolledBackCount(ts, ledger)
    decreases |ts|
  {
    if ts != [] {
      LastBatchesCount(ts[1..], ledger);
    }
  }

  /** `rollback` reverts, tenant after tenant in snapshot order, exactly each
      reached tenant's last batch in batch order (nothing for an empty batch),
      and the number of `runDown` calls is the sum of the batch sizes. */
  lemma {:induction false} RollbackRevertsLastBatches(ts: seq<Tenant>, ledger: Ledger,
                                                      ok: set<string>, pretend: bool)
    ensures RolledBackEntries(RollbackEvents(ts, ledger, ok, pretend)) == LastBatches(Connected(ts, ok), ledger)
    ensures |RolledBackEntries(RollbackEvents(ts, ledger, ok, pretend))| == RolledBackCount(Connected(ts, ok), ledger)
    decreases |ts|
  {
    if ts != [] && ts[0].tenantName in ok {
      var n := ts[0].tenantName;
      var head := Switch(n) + [GetLast(n)];
      RollbackRevertsLastBatches(ts[1..], ledger, ok, pretend);
      DownEventsViews(ledger.Last(n), pretend);
      ViewsAppend(head, DownEvents(ledger.Last(n), pretend));
      ViewsAppend(TenantRollbackEvents(n, ledger, pretend), RollbackEvents(ts[1..], ledger, ok, pretend));
      BlockViews(n, [], pretend);
      assert Connected(ts, ok) == [ts[0]] + Connected(ts[1..], ok);
    } else if ts != [] {
      assert RolledBackEntries([Bootstrap(ts[0].tenantName)]) == [];
    }
    LastBatchesCount(Connected(ts, ok), ledger);
  }

  /** When every bootstrap succeeds, `rollback` returns the number of
      `runDown` calls it made. */
  lemma RollbackReturnsDownCount(ts: seq<Tenant>, ledger: Ledger, ok: set<string>, pretend: bool)
    requires AllConnectable(ts, ok)
    ensures RollbackResult(ts, ledger, ok) == Ok(|RolledBackEntries(RollbackEvents(ts, ledger, ok, pretend))|)
  {
    RollbackRevertsLastBatches(ts, ledger, ok, pretend);
    assert Connected(ts, ok) == ts;
  }

  // ---------------------------------------------------------------------
  // Per-tenant ordering

  /** The call at position `j`, if it is a ledger read, is immediately
      preceded by bootstrapping, selecting the connection of and selecting the
      ledger source of the same tenant. */
  ghost predicate SwitchedBeforeRead(tr: seq<Event>, j: int)
    requires 0 <= j < |tr|
  {
    (tr[j].GetRan? || tr[j].GetLast?) ==>
      j >= 3 && tr[j - 3] == Bootstrap(tr[j].tenant) && tr[j - 2] == SetConnection(tr[j].tenant)
      && tr[j - 1] == SetSource(tr[j].tenant)
  }

  /** The call at position `j`, if it is a `runMigrationList`, directly
      follows a ran-set read and is given the filtered list minus that
      tenant's ran set. */
  ghost predicate ReadBeforeExecute(tr: seq<Event>, j: int, filtered: seq<FileId>, ledger: Ledger)
    requires 0 <= j < |tr|
  {
    tr[j].RunList? ==>
      j >= 1 && tr[j - 1].GetRan? && tr[j].files == Outstanding(filtered, ledger.Ran(tr[j - 1].tenant))
  }

  ghost predicate ReadsAfterSwitch(tr: seq<Event>) {
    forall j :: 0 <= j < |tr| ==> SwitchedBeforeRead(tr, j)
  }

  ghost predicate ExecutesAfterRead(tr: seq<Event>, filtered: seq<FileId>, ledger: Ledger) {
    forall j :: 0 <= j < |tr| ==> ReadBeforeExecute(tr, j, filtered, ledger)
  }

  lemma OrderingAppend(a: seq<Event>, b: seq<Event>, filtered: seq<FileId>, ledger: Ledger)
    ensures ReadsAfterSwitch(a) && ReadsAfterSwitch(b) ==> ReadsAfterSwitch(a + b)
    ensures ExecutesAfterRead(a, filtered, ledger) && ExecutesAfterRead(b, filtered, ledger)
            ==> ExecutesAfterRead(a + b, filtered, ledger)
  {
    var c := a + b;
    if ReadsAfterSwitch(a) && ReadsAfterSwitch(b) {
      forall j | 0 <= j < |c| ensures SwitchedBeforeRead(c, j) {
        if j < |a| {
          assert SwitchedBeforeRead(a, j);
        } else {
          assert SwitchedBeforeRead(b, j - |a|);
        }
      }
    }
    if ExecutesAfterRead(a, filtered, ledger) && ExecutesAfterRead(b, filtered, ledger) {
      forall j | 0 <= j < |c| ensures ReadBeforeExecute(c, j, filtered, ledger) {
        if j < |a| {
          assert ReadBeforeExecute(a, j, filtered, ledger);
        } else {
          assert ReadBeforeExecute(b, j - |a|, filtered, ledger);
        }
      }
    }
  }

  /** `run` makes five calls per tenant it reaches, plus the failed
      bootstrap when it halts. */
  lemma {:induction false} RunCallCount(ts: seq<Tenant>, filtered: seq<FileId>, ledger: Ledger,
                                        ok: set<string>, pretend: bool)
    ensures var done := Connected(ts, ok);
      |RunEvents(ts, filtered, ledger, ok, pretend)| == 5 * |done| + (if |done| < |ts| then 1 else 0)
    decreases |ts|
  {
    if ts != [] && ts[0].tenantName in ok {
      RunCallCount(ts[1..], filtered, ledger, ok, pretend);
    }
  }

  /** `rollback` makes four calls per tenant it reaches plus one `runDown`
      per entry of its last batch, and the failed bootstrap when it halts. */
  lemma {:induction false} RollbackCallCount(ts: seq<Tenant>, ledger: Ledger, ok: set<string>, pretend: bool)
    ensures var done := Connected(ts, ok);
      |RollbackEvents(ts, ledger, ok, pretend)|
      == 4 * |done| + RolledBackCount(done, ledger) + (if |done| < |ts| then 1 else 0)
    decreases |ts|
  {
    if ts != [] && ts[0].tenantName in ok {
      var done := Connected(ts, ok);
      assert done[0] == ts[0] && done[1..] == Connected(ts[1..], ok);
      RollbackCallCount(ts[1..], ledger, ok, pretend);
    }
  }

  /** Per tenant, `run` switches before it reads and reads before it executes. */
  lemma {:induction false} RunEventsOrdered(ts: seq<Tenant>, filtered: seq<FileId>, ledger: Ledger,
                                            ok: set<string>, pretend: bool)
    ensures ReadsAfterSwitch(RunEvents(ts, filtered, ledger, ok, pretend))
    ensures ExecutesAfterRead(RunEvents(ts, filtered, ledger, ok, pretend), filtered, ledger)
    decreases |ts|
  {
    if ts != [] && ts[0].tenantName in ok {
      var block := TenantRunEvents(ts[0].tenantName, filtered, ledger, pretend);
      forall j | 0 <= j < |block|
        ensures SwitchedBeforeRead(block, j) && ReadBeforeExecute(block, j, filtered, ledger)
      {
        assert j == 0 || j == 1 || j == 2 || j == 3 || j == 4;
      }
      RunEventsOrdered(ts[1..], filtered, ledger, ok, pretend);
      OrderingAppend(block, RunEvents(ts[1..], filtered, ledger, ok, pretend), filtered, ledger);
    } else if ts != [] {
      assert SwitchedBeforeRead([Bootstrap(ts[0].tenantName)], 0);
    }
  }

  /** Per tenant, `rollback` switches before it reads the last batch. */
  lemma {:induction false} RollbackEventsOrdered(ts: seq<Tenant>, ledger: Ledger, ok: set<string>, pretend: bool)
    ensures ReadsAfterSwitch(RollbackEvents(ts, ledger, ok, pretend))
    decreases |ts|
  {
    if ts != [] && ts[0].tenantName in ok {
      var n := ts[0].tenantName;
      var head, downs := Switch(n) + [GetLast(n)], DownEvents(ledger.Last(n), pretend);
      forall j | 0 <= j < |head| ensures SwitchedBeforeRead(head, j) {
        assert j == 0 || j == 1 || j == 2 || j == 3;
      }
      DownEventsOnlyDowns(ledger.Last(n), pretend);
      forall j | 0 <= j < |downs| ensures SwitchedBeforeRead(downs, j) {
        assert downs[j] in downs;
      }
      OrderingAppend(head, downs, [], ledger);
      RollbackEventsOrdered(ts[1..], ledger, ok, pretend);
      OrderingAppend(TenantRollbackEvents(n, ledger, pretend), RollbackEvents(ts[1..], ledger, ok, pretend), [], ledger);
    } else if ts != [] {
      assert SwitchedBeforeRead([Bootstrap(ts[0].tenantName)], 0);
    }
  }

  lemma {:induction false} DownEventsOnlyDowns(batch: seq<LedgerEntry>, pretend: bool)
    ensures forall e :: e in DownEvents(batch, pretend) ==> e.RunDown?
  {
    if batch != [] {
      DownEventsOnlyDowns(batch[..|batch| - 1], pretend);
    }
  }

  /** `runDown` calls immediately before position `j` of `tr`. */
  ghost function DownsBefore(tr: seq<Event>, j: int): nat
    requires 0 <= j <= |tr|
    decreases j
  {
    if j == 0 || !tr[j - 1].RunDown? then 0 else 1 + DownsBefore(tr, j - 1)
  }

  /** The call at position `j`, if it is a `runDown`, belongs to the run of
      `runDown`s that directly follows a last-batch read, and reverts that
      tenant's batch entry at its place in the run. */
  ghost predicate LastReadBeforeDown(tr: seq<Event>, j: int, ledger: Ledger)
    requires 0 <= j < |tr|
  {
    tr[j].RunDown? ==>
      var d := DownsBefore(tr, j);
      d < j && tr[j - d - 1].GetLast?
      && d < |ledger.Last(tr[j - d - 1].tenant)| && tr[j].entry == ledger.Last(tr[j - d - 1].tenant)[d]
  }

  ghost predicate DownsAfterLastRead(tr: seq<Event>, ledger: Ledger) {
    forall j :: 0 <= j < |tr| ==> LastReadBeforeDown(tr, j, ledger)
  }

  lemma {:induction false} DownsBeforePrefix(a: seq<Event>, b: seq<Event>, j: int)
    requires 0 <= j <= |a|
    ensures DownsBefore(a + b, j) == DownsBefore(a, j)
    decreases j
  {
    if j > 0 {
      assert (a + b)[j - 1] == a[j - 1];
      DownsBeforePrefix(a, b, j - 1);
    }
  }

  lemma {:induction false} DownsBeforeShift(a: seq<Event>, b: seq<Event>, j: int)
    requires 0 <= j <= |b| && DownsBefore(b, j) < j
    ensures DownsBefore(a + b, |a| + j) == DownsBefore(b, j)
    decreases j
  {
    assert (a + b)[|a| + j - 1] == b[j - 1];
    if b[j - 1].RunDown? {
      DownsBeforeShift(a, b, j - 1);
    }
  }

  lemma DownsAfterLastReadAppend(a: seq<Event>, b: seq<Event>, ledger: Ledger)
    requires DownsAfterLastRead(a, ledger) && DownsAfterLastRead(b, ledger)
    ensures DownsAfterLastRead(a + b, ledger)
  {
    var c := a + b;
    forall j | 0 <= j < |c| ensures LastReadBeforeDown(c, j, ledger) {
      if j < |a| {
        assert LastReadBeforeDown(a, j, ledger);
        DownsBeforePrefix(a, b, j);
      } else {
        assert LastReadBeforeDown(b, j - |a|, ledger);
        if c[j].RunDown? {
          DownsBeforeShift(a, b, j - |a|);
        }
      }
    }
  }

  lemma {:induction false} DownEventsAt(batch: seq<LedgerEntry>, pretend: bool, k: int)
    requires 0 <= k < |batch|
    ensures DownEvents(batch, pretend)[k] == RunDown(batch[k], pretend)
  {
    if k < |batch| - 1 {
      DownEventsAt(batch[..|batch| - 1], pretend, k);
    }
  }

  lemma {:induction false} DownsBeforeBatch(n: string, batch: seq<LedgerEntry>, pretend: bool, k: int)
    requires 0 <= k <= |batch|
    ensures DownsBefore(Switch(n) + [GetLast(n)] + DownEvents(batch, pretend), 4 + k) == k
    decreases k
  {
    var tr := Switch(n) + [GetLast(n)] + DownEvents(batch, pretend);
    if k > 0 {
      DownEventsAt(batch, pretend, k - 1);
      assert tr[3 + k] == DownEvents(batch, pretend)[k - 1];
      DownsBeforeBatch(n, batch, pretend, k - 1);
    } else {
      assert tr[3] == GetLast(n);
    }
  }

  lemma TenantRollbackDownsAfterRead(n: string, ledger: Ledger, pretend: bool)
    ensures DownsAfterLastRead(TenantRollbackEvents(n, ledger, pretend), ledger)
  {
    var batch := ledger.Last(n);
    var tr := TenantRollbackEvents(n, ledger, pretend);
    forall j | 0 <= j < |tr| ensures LastReadBeforeDown(tr, j, ledger) {
      if j >= 4 {
        DownEventsAt(batch, pretend, j - 4);
        DownsBeforeBatch(n, batch, pretend, j - 4);
        assert tr[j] == DownEvents(batch, pretend)[j - 4];
        assert tr[3] == GetLast(n);
      } else {
        assert j == 0 || j == 1 || j == 2 || j == 3;
      }
    }
  }

  /** Per tenant, every `runDown` of `rollback` follows that tenant's
      last-batch read with only `runDown`s in between, and reverts the batch
      entry at its place; with `RollbackEventsOrdered`, the bootstrap and both
      switches of the same tenant come before all of them. */
  lemma {:induction false} RollbackDownsAfterRead(ts: seq<Tenant>, ledger: Ledger, ok: set<string>, pretend: bool)
    ensures DownsAfterLastRead(RollbackEvents(ts, ledger, ok, pretend), ledger)
    decreases |ts|
  {
    if ts != [] && ts[0].tenantName in ok {
      var n := ts[0].tenantName;
      TenantRollbackDownsAfterRead(n, ledger, pretend);
      RollbackDownsAfterRead(ts[1..], ledger, ok, pretend);
      DownsAfterLastReadAppend(TenantRollbackEvents(n, ledger, pretend), RollbackEvents(ts[1..], ledger, ok, pretend), ledger);
    } else if ts != [] {
      assert LastReadBeforeDown([Bootstrap(ts[0].tenantName)], 0, ledger);
    }
  }

  /** The tenant loop of `run` never discovers, loads or re-filters files and
      never re-queries the tenants: the filtered list is computed once, before it. */
  lemma {:induction false} RunLoopNeverRefilters(ts: seq<Tenant>, filtered: seq<FileId>, ledger: Ledger,
                                                 ok: set<string>, pretend: bool)
    ensures forall e :: e in RunEvents(ts, filtered, ledger, ok, pretend) ==>
      !e.DiscoverFiles? && !e.RequireFiles? && !e.QueryTenants?
    decreases |ts|
  {
    if ts != [] && ts[0].tenantName in ok {
      RunLoopNeverRefilters(ts[1..], filtered, ledger, ok, pretend);
    }
  }
}
