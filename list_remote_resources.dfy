/** The list-remote-resources service: turn the operation's local-ID filter into a remote-ID
    filter (refusing to run a query that the conversion left unscoped), serve the listing from the
    cache when it is complete, otherwise run the live query and write its result to the cache,
    and hand the resources to the association builder. Models
    AbstractListRemoteResourcesService. */
module ListRemoteResources {
  import opened Php
  import opened ResourceMap
  import opened ResourceAssociation

  /** The list operation's filters: local IDs, and remote IDs (None when `getIds()` is null). */
  class ListOperation {
    var localIds: seq<int>
    var ids: Option<seq<string>>

    constructor (localIds: seq<int>, ids: Option<seq<string>>)
      ensures this.localIds == localIds && this.ids == ids
    {
      this.localIds := localIds;
      this.ids := ids;
    }
  }

  /** The service's collaborators. The caching helper and the gateway see the operation through
      its remote-ID filter. `cachedResources` gives None when reading the cache throws a
      CachingStrategyException, `cacheWriteSucceeds` says whether `setMany` returns without
      throwing one, and `executeListQuery` gives None when the gateway throws. */
  datatype Collaborators = Collaborators(
    repo: Repository,
    canCacheOperation: Option<seq<string>> -> bool,
    cachedResources: Option<seq<string>> -> Option<seq<Resource>>,
    isFullyCached: (Option<seq<string>>, seq<Resource>) -> bool,
    executeListQuery: Option<seq<string>> -> Option<seq<Resource>>,
    cacheWriteSucceeds: seq<Resource> -> bool,
    builder: Policy)

  datatype ListError = MissingRemoteIdsAfterLocalIdConversion | QueryFailed | CachingFailed

  /** What `convertLocalIdsToRemoteIds` does to the remote-ID filter. */
  datatype Conversion = Unchanged | Converted(ids: seq<string>) | MissingRemoteIds

  /** Everything one call of `list` did: its result, the remote-ID filter it left on the
      operation, whether it read the cache and ran the live query, what it handed to `setMany`,
      and the builder's run. */
  datatype ListOutcome = ListOutcome(
    result: Result<seq<Association>, ListError>,
    finalIds: Option<seq<string>>,
    cacheRead: bool,
    queried: bool,
    cacheWrite: Option<seq<Resource>>,
    build: Option<BuildOutcome>)

  /** `TypeHelper::array($operation->getIds(), [])`. */
  function ExistingIds(ids: Option<seq<string>>): seq<string> {
    if ids.Some? then ids.value else []
  }

  /** The commerce IDs mapped to the given local IDs, in table order. */
  function MappedRemoteIds(repo: Repository, localIds: seq<int>): seq<string> {
    CommerceIds(RowsByLocalIds(repo, localIds))
  }

  /** The remote IDs the conversion collects: the existing filter followed by the mapped
      commerce IDs, with the empty strings dropped. */
  function CollectedRemoteIds(localIds: seq<int>, ids: Option<seq<string>>, repo: Repository): seq<string> {
    NonEmptyStrings(ExistingIds(ids) + MappedRemoteIds(repo, localIds))
  }

  /** `convertLocalIdsToRemoteIds` on the operation's filters. */
  function ConvertIds(localIds: seq<int>, ids: Option<seq<string>>, repo: Repository): Conversion {
    if localIds == [] then Unchanged
    else
      var remoteIds := CollectedRemoteIds(localIds, ids, repo);
      if remoteIds == [] then MissingRemoteIds else Converted(Dedup(remoteIds))
  }

  /** The remote-ID filter `list` goes on with after a conversion that did not fail. */
  function FilterAfter(conversion: Conversion, ids: Option<seq<string>>): Option<seq<string>> {
    if conversion.Converted? then Some(conversion.ids) else ids
  }

  /** `list` from the cache step on, with the final remote-ID filter. */
  function ServeSpec(finalIds: Option<seq<string>>, c: Collaborators): ListOutcome {
    var cacheRead := c.canCacheOperation(finalIds);
    if cacheRead && c.cachedResources(finalIds).None? then
      ListOutcome(Failure(CachingFailed), finalIds, true, false, None, None)
    else
      var cached := if cacheRead then c.cachedResources(finalIds).value else [];
      if c.isFullyCached(finalIds, cached) then
        var built := BuildSpec(cached, c.repo, c.builder);
        ListOutcome(Success(built.associations), finalIds, cacheRead, false, None, Some(built))
      else
        match c.executeListQuery(finalIds)
        case None =>
          ListOutcome(Failure(QueryFailed), finalIds, cacheRead, true, None, None)
        case Some(live) =>
          if !c.cacheWriteSucceeds(live) then
            ListOutcome(Failure(CachingFailed), finalIds, cacheRead, true, Some(live), None)
          else
            var built := BuildSpec(live, c.repo, c.builder);
            ListOutcome(Success(built.associations), finalIds, cacheRead, true, Some(live), Some(built))
  }

  /** `list`, on the operation's initial filters. */
  function ListSpec(localIds: seq<int>, ids: Option<seq<string>>, c: Collaborators): ListOutcome {
    var conversion := ConvertIds(localIds, ids, c.repo);
    if conversion.MissingRemoteIds? then
      ListOutcome(Failure(MissingRemoteIdsAfterLocalIdConversion), ids, false, false, None, None)
    else
      ServeSpec(FilterAfter(conversion, ids), c)
  }

  /** `convertLocalIdsToRemoteIds`: rewrites the operation's remote-ID filter; false where the
      source throws MissingRemoteIdsAfterLocalIdConversionException. */
  method ConvertLocalIdsToRemoteIds(op: ListOperation, repo: Repository) returns (ok: bool)
    modifies op
    ensures op.localIds == old(op.localIds)
    ensures match ConvertIds(old(op.localIds), old(op.ids), repo)
      case Unchanged => ok && op.ids == old(op.ids)
      case Converted(ids) => ok && op.ids == Some(ids)
      case MissingRemoteIds => !ok && op.ids == old(op.ids)
  {
    if op.localIds != [] {
      var rows := RowsByLocalIds(repo, op.localIds);
      var remoteIds := NonEmptyStrings(ExistingIds(op.ids) + CommerceIds(rows));
      if remoteIds == [] {
        return false;
      }
      op.ids := Some(Dedup(remoteIds));
    }
    return true;
  }

  /** `list`. */
  method List(op: ListOperation, c: Collaborators) returns (outcome: ListOutcome)
    modifies op
    ensures outcome == ListSpec(old(op.localIds), old(op.ids), c)
    ensures op.ids == outcome.finalIds && op.localIds == old(op.localIds)
  {
    var ok := ConvertLocalIdsToRemoteIds(op, c.repo);
    if !ok {
      return ListOutcome(Failure(MissingRemoteIdsAfterLocalIdConversion), op.ids, false, false, None, None);
    }
    var resources: seq<Resource> := [];
    var cacheRead := c.canCacheOperation(op.ids);
    if cacheRead {
      var cached := c.cachedResources(op.ids);
      if cached.None? {
        return ListOutcome(Failure(CachingFailed), op.ids, true, false, None, None);
      }
      resources := cached.value;
    }
    var queried := false;
    var cacheWrite: Option<seq<Resource>> := None;
    if !c.isFullyCached(op.ids, resources) {
      queried := true;
      var live := c.executeListQuery(op.ids);
      if live.None? {
        return ListOutcome(Failure(QueryFailed), op.ids, cacheRead, true, None, None);
      }
      resources := live.value;
      cacheWrite := Some(resources);
      if !c.cacheWriteSucceeds(resources) {
        return ListOutcome(Failure(CachingFailed), op.ids, cacheRead, true, cacheWrite, None);
      }
    }
    var built := Build(resources, c.repo, c.builder);
    outcome := ListOutcome(Success(built.associations), op.ids, cacheRead, queried, cacheWrite, Some(built));
  }

  // ---------------------------------------------------------------------------
  // Properties of the service

  /** Without local IDs the remote-ID filter is left as it was and the table is not consulted. */
  lemma NoLocalIdsLeavesFilterAlone(ids: Option<seq<string>>, c: Collaborators)
    ensures ConvertIds([], ids, c.repo) == Unchanged
    ensures ListSpec([], ids, c).finalIds == ids
    ensures ListSpec([], ids, c).result != Failure(MissingRemoteIdsAfterLocalIdConversion)
  {
  }

  /** With local IDs, the new filter is the union of the old filter and the mapped commerce IDs,
      without repetitions and without empty strings. */
  lemma ConvertedFilterIsDedupedUnion(localIds: seq<int>, ids: Option<seq<string>>, repo: Repository)
    requires ConvertIds(localIds, ids, repo).Converted?
    ensures var r := ConvertIds(localIds, ids, repo).ids;
      && NoDuplicates(r)
      && r != []
      && forall x :: x in r <==> x != "" && (x in ExistingIds(ids) || x in MappedRemoteIds(repo, localIds))
  {
    var remoteIds := CollectedRemoteIds(localIds, ids, repo);
    DedupProperties(remoteIds);
    assert remoteIds[0] in Dedup(remoteIds);
  }

  /** The conversion fails exactly when local IDs were given but neither the existing filter nor
      the table yields a non-empty remote ID; an InvalidArgumentException from the table counts
      as no mapped ID. */
  lemma MissingRemoteIdsExactly(localIds: seq<int>, ids: Option<seq<string>>, repo: Repository)
    ensures ConvertIds(localIds, ids, repo).MissingRemoteIds? <==>
      && localIds != []
      && (forall x :: x in ExistingIds(ids) ==> x == "")
      && (forall x :: x in MappedRemoteIds(repo, localIds) ==> x == "")
    ensures repo.rejectsQuery ==> MappedRemoteIds(repo, localIds) == []
  {
    var existing := ExistingIds(ids);
    var mapped := MappedRemoteIds(repo, localIds);
    assert forall x :: x in existing + mapped <==> x in existing || x in mapped;
  }

  /** A filter that holds only empty strings counts as no remote ID at all. */
  lemma EmptyStringFilterIsMissing(localIds: seq<int>, repo: Repository)
    requires localIds != [] && MappedRemoteIds(repo, localIds) == []
    ensures ConvertIds(localIds, Some([""]), repo) == MissingRemoteIds
  {
    assert ExistingIds(Some([""])) + MappedRemoteIds(repo, localIds) == [""];
  }

  /** A failed conversion stops `list` before the cache, the query and the builder. */
  lemma FailedConversionDoesNothingElse(localIds: seq<int>, ids: Option<seq<string>>, c: Collaborators)
    requires ConvertIds(localIds, ids, c.repo).MissingRemoteIds?
    ensures var o := ListSpec(localIds, ids, c);
      && o.result == Failure(MissingRemoteIdsAfterLocalIdConversion)
      && !o.cacheRead && !o.queried && o.cacheWrite.None? && o.build.None? && o.finalIds == ids
  {
  }

  /** When local IDs were given, any query that runs is scoped by a non-empty remote-ID filter. */
  lemma NoUnscopedQueryFromLocalIds(localIds: seq<int>, ids: Option<seq<string>>, c: Collaborators)
    requires localIds != []
    requires ListSpec(localIds, ids, c).queried || ListSpec(localIds, ids, c).cacheRead
    ensures var f := ListSpec(localIds, ids, c).finalIds;
      f.Some? && f.value != [] && NoDuplicates(f.value) && "" !in f.value
  {
    var conversion := ConvertIds(localIds, ids, c.repo);
    ListSpecServes(localIds, ids, c);
    if conversion.Converted? {
      ServeCacheRead(Some(conversion.ids), c);
      ConvertedFilterIsScoped(localIds, ids, c.repo);
    }
  }

  /** A converted filter is a non-empty list of distinct, non-empty IDs. */
  lemma ConvertedFilterIsScoped(localIds: seq<int>, ids: Option<seq<string>>, repo: Repository)
    requires ConvertIds(localIds, ids, repo).Converted?
    ensures var r := ConvertIds(localIds, ids, repo).ids;
      r != [] && NoDuplicates(r) && "" !in r
  {
    var remoteIds := CollectedRemoteIds(localIds, ids, repo);
    DedupProperties(remoteIds);
    assert remoteIds[0] in Dedup(remoteIds);
  }

  /** `list` either stops at a failed conversion or serves the converted filter. */
  lemma ListSpecServes(localIds: seq<int>, ids: Option<seq<string>>, c: Collaborators)
    ensures var conversion := ConvertIds(localIds, ids, c.repo);
      ListSpec(localIds, ids, c) ==
        if conversion.MissingRemoteIds?
        then ListOutcome(Failure(MissingRemoteIdsAfterLocalIdConversion), ids, false, false, None, None)
        else ServeSpec(FilterAfter(conversion, ids), c)
  {
  }

  lemma ServeCacheRead(f: Option<seq<string>>, c: Collaborators)
    ensures ServeSpec(f, c).finalIds == f
    ensures ServeSpec(f, c).cacheRead == c.canCacheOperation(f)
  {
  }

  lemma ServeFullyCached(f: Option<seq<string>>, c: Collaborators)
    requires c.canCacheOperation(f) ==> c.cachedResources(f).Some?
    requires c.isFullyCached(f, if c.canCacheOperation(f) then c.cachedResources(f).value else [])
    ensures var o := ServeSpec(f, c);
      && !o.queried && o.cacheWrite.None? && o.cacheRead == c.canCacheOperation(o.finalIds)
      && o.build == Some(BuildSpec(if c.canCacheOperation(o.finalIds) then c.cachedResources(o.finalIds).value else [],
                                   c.repo, c.builder))
  {
  }

  lemma ServeCachingFailure(f: Option<seq<string>>, c: Collaborators)
    ensures var o := ServeSpec(f, c);
      o.cacheRead && c.cachedResources(o.finalIds).None? ==>
        o.result == Failure(CachingFailed) && !o.queried && o.cacheWrite.None? && o.build.None?
    ensures var o := ServeSpec(f, c);
      o.result == Failure(CachingFailed) <==>
        || (o.cacheRead && c.cachedResources(o.finalIds).None?)
        || (o.queried && o.cacheWrite.Some? && !c.cacheWriteSucceeds(o.cacheWrite.value))
    ensures var o := ServeSpec(f, c);
      o.result == Failure(CachingFailed) ==> o.build.None?
  {
  }

  lemma ServeLive(f: Option<seq<string>>, c: Collaborators)
    requires ServeSpec(f, c).queried
    ensures var o := ServeSpec(f, c);
      match c.executeListQuery(o.finalIds)
      case None => o.result == Failure(QueryFailed) && o.cacheWrite.None? && o.build.None?
      case Some(live) =>
        && o.cacheWrite == Some(live)
        && (c.cacheWriteSucceeds(live) ==> o.build == Some(BuildSpec(live, c.repo, c.builder)))
        && (!c.cacheWriteSucceeds(live) ==> o.result == Failure(CachingFailed) && o.build.None?)
  {
  }

  lemma ServeResult(f: Option<seq<string>>, c: Collaborators)
    ensures var o := ServeSpec(f, c);
      o.result.Success? ==> o.build.Some? && o.result.value == o.build.value.associations
  {
  }

  /** The cache is read only when the helper says the operation can be cached. */
  lemma CacheReadOnlyWhenCacheable(localIds: seq<int>, ids: Option<seq<string>>, c: Collaborators)
    ensures var o := ListSpec(localIds, ids, c);
      o.cacheRead ==> c.canCacheOperation(o.finalIds)
    ensures var o := ListSpec(localIds, ids, c);
      !ConvertIds(localIds, ids, c.repo).MissingRemoteIds? ==> o.cacheRead == c.canCacheOperation(o.finalIds)
  {
    ListSpecServes(localIds, ids, c);
    ServeCacheRead(FilterAfter(ConvertIds(localIds, ids, c.repo), ids), c);
  }

  /** A fully cached operation runs no query and writes nothing; its result is the builder's
      output on the cached resources. */
  lemma FullyCachedServedFromCache(localIds: seq<int>, ids: Option<seq<string>>, c: Collaborators)
    requires !ConvertIds(localIds, ids, c.repo).MissingRemoteIds?
    requires var f := ListSpec(localIds, ids, c).finalIds;
      && (c.canCacheOperation(f) ==> c.cachedResources(f).Some?)
      && c.isFullyCached(f, if c.canCacheOperation(f) then c.cachedResources(f).value else [])
    ensures var o := ListSpec(localIds, ids, c);
      && !o.queried && o.cacheWrite.None? && o.cacheRead == c.canCacheOperation(o.finalIds)
      && o.build == Some(BuildSpec(if c.canCacheOperation(o.finalIds) then c.cachedResources(o.finalIds).value else [],
                                   c.repo, c.builder))
  {
    ListSpecServes(localIds, ids, c);
    var f := FilterAfter(ConvertIds(localIds, ids, c.repo), ids);
    ServeCacheRead(f, c);
    ServeFullyCached(f, c);
  }

  /** A CachingStrategyException from reading or writing the cache ends `list`: no association is
      built. A failed read also runs no query. */
  lemma CachingFailureStopsBeforeBuild(localIds: seq<int>, ids: Option<seq<string>>, c: Collaborators)
    ensures var o := ListSpec(localIds, ids, c);
      o.cacheRead && c.cachedResources(o.finalIds).None? ==>
        o.result == Failure(CachingFailed) && !o.queried && o.cacheWrite.None? && o.build.None?
    ensures var o := ListSpec(localIds, ids, c);
      o.result == Failure(CachingFailed) <==>
        || (o.cacheRead && c.cachedResources(o.finalIds).None?)
        || (o.queried && o.cacheWrite.Some? && !c.cacheWriteSucceeds(o.cacheWrite.value))
    ensures var o := ListSpec(localIds, ids, c);
      o.result == Failure(CachingFailed) ==> o.build.None?
  {
    ListSpecServes(localIds, ids, c);
    ServeCachingFailure(FilterAfter(ConvertIds(localIds, ids, c.repo), ids), c);
  }

  /** When the live query runs and answers, exactly its resources are written to the cache, and
      they are built into associations once the write succeeded. */
  lemma LiveResultWrittenAndBuilt(localIds: seq<int>, ids: Option<seq<string>>, c: Collaborators)
    requires ListSpec(localIds, ids, c).queried
    ensures var o := ListSpec(localIds, ids, c);
      match c.executeListQuery(o.finalIds)
      case None => o.result == Failure(QueryFailed) && o.cacheWrite.None? && o.build.None?
      case Some(live) =>
        && o.cacheWrite == Some(live)
        && (c.cacheWriteSucceeds(live) ==> o.build == Some(BuildSpec(live, c.repo, c.builder)))
        && (!c.cacheWriteSucceeds(live) ==> o.result == Failure(CachingFailed) && o.build.None?)
  {
    ListSpecServes(localIds, ids, c);
    ServeLive(FilterAfter(ConvertIds(localIds, ids, c.repo), ids), c);
  }

  /** Every successful result is the builder's output. */
  lemma ResultIsBuilderOutput(localIds: seq<int>, ids: Option<seq<string>>, c: Collaborators)
    requires ListSpec(localIds, ids, c).result.Success?
    ensures var o := ListSpec(localIds, ids, c);
      o.build.Some? && o.result.value == o.build.value.associations
  {
    ListSpecServes(localIds, ids, c);
    ServeResult(FilterAfter(ConvertIds(localIds, ids, c.repo), ids), c);
  }
}
