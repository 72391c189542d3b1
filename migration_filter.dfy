/** The selection rule of `TenantMigrator::includeMigrations`: which of the
    discovered migration files a deployment's policy makes eligible. */
module MigrationFilter {
  import opened Selection

  /** A migration file identifier as discovery returns it. */
  type FileId = string
  /** A logical migration name, as the name resolver derives it. */
  type Name = string
  type Path = string

  /** The one behaviour string that turns the name list into an allow-list. */
  const OnlyBehavior: string := "only"

  /** The manager's configuration: the migration behaviour and the list of
      configured migration names. */
  datatype Policy = Policy(behavior: string, configured: seq<Name>)

  /** Whether a file with logical name `name` is eligible under `policy`:
      in "only" mode the list is an allow-list, in every other mode a deny-list. */
  predicate Keeps(policy: Policy, name: Name) {
    if policy.behavior == OnlyBehavior then name in policy.configured
    else name !in policy.configured
  }

  /** The eligible files among `files`, in discovery order. */
  function Filter(files: seq<FileId>, policy: Policy, resolve: FileId -> Name): (r: seq<FileId>)
    ensures |r| <= |files|
  {
    Where(files, f => Keeps(policy, resolve(f)))
  }

  /** In "only" mode the filter keeps exactly the files whose resolved name is
      configured, each occurrence of such a file and none of another. */
  lemma FilterOnly(files: seq<FileId>, policy: Policy, resolve: FileId -> Name, f: FileId)
    requires policy.behavior == OnlyBehavior
    ensures f in Filter(files, policy, resolve) <==> f in files && resolve(f) in policy.configured
    ensures multiset(Filter(files, policy, resolve))[f]
         == if resolve(f) in policy.configured then multiset(files)[f] else 0
  {
    WhereMembers(files, f => Keeps(policy, resolve(f)), f);
    WhereCounts(files, f => Keeps(policy, resolve(f)), f);
  }

  /** In any other mode the filter keeps exactly the files whose resolved name
      is not configured, each occurrence of such a file and none of another. */
  lemma FilterExcept(files: seq<FileId>, policy: Policy, resolve: FileId -> Name, f: FileId)
    requires policy.behavior != OnlyBehavior
    ensures f in Filter(files, policy, resolve) <==> f in files && resolve(f) !in policy.configured
    ensures multiset(Filter(files, policy, resolve))[f]
         == if resolve(f) !in policy.configured then multiset(files)[f] else 0
  {
    WhereMembers(files, f => Keeps(policy, resolve(f)), f);
    WhereCounts(files, f => Keeps(policy, resolve(f)), f);
  }

  /** Every behaviour other than "only" selects the same files. */
  lemma FilterOtherModesAgree(files: seq<FileId>, b1: string, b2: string, names: seq<Name>,
                              resolve: FileId -> Name)
    requires b1 != OnlyBehavior && b2 != OnlyBehavior
    ensures Filter(files, Policy(b1, names), resolve) == Filter(files, Policy(b2, names), resolve)
  {
    WhereCongruent(files, f => Keeps(Policy(b1, names), resolve(f)),
                          f => Keeps(Policy(b2, names), resolve(f)));
  }

  /** For the same files and names, "only" mode and any other mode partition
      the discovered files: every occurrence lands in exactly one of them. */
  lemma FilterModesPartition(files: seq<FileId>, other: string, names: seq<Name>,
                             resolve: FileId -> Name)
    requires other != OnlyBehavior
    ensures multiset(Filter(files, Policy(OnlyBehavior, names), resolve))
          + multiset(Filter(files, Policy(other, names), resolve)) == multiset(files)
    ensures |Filter(files, Policy(OnlyBehavior, names), resolve)|
          + |Filter(files, Policy(other, names), resolve)| == |files|
    ensures forall f :: f in Filter(files, Policy(OnlyBehavior, names), resolve)
                    ==> f !in Filter(files, Policy(other, names), resolve)
  {
    var keep := f => Keeps(Policy(OnlyBehavior, names), resolve(f));
    var drop := f => Keeps(Policy(other, names), resolve(f));
    WhereSplits(files, keep, drop);
    forall f | f in Where(files, keep) ensures f !in Where(files, drop) {
      WhereMembers(files, keep, f);
      WhereMembers(files, drop, f);
    }
  }

  /** The filter keeps discovery order: its result is a subsequence of the
      discovered files. */
  lemma FilterKeepsOrder(files: seq<FileId>, policy: Policy, resolve: FileId -> Name)
    ensures IsSubsequence(Filter(files, policy, resolve), files)
  {
    WhereIsSubsequence(files, f => Keeps(policy, resolve(f)));
  }
}
