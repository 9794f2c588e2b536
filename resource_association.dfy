/** The resource association builder: given a batch of remote DTOs, resolve each to a local
    ID, reusing an existing resource-map row or inserting a new local record, and return one
    association per resolved resource. Models AbstractResourceAssociationBuilder. */
module ResourceAssociation {
  import opened Php
  import opened ResourceMap

  /** A remote DTO: the value of its remote-ID property (None when it is null) and the rest of
      its fields, which the builder only carries along. */
  datatype Resource = Resource(remoteId: Option<string>, payload: string)

  datatype Association = Association(localId: int, remoteResource: Resource)

  /** What the insert service does with a resource: it returns the new local ID (0 stands for
      a null or zero return), or it throws. */
  datatype InsertOutcome = Inserted(localId: int) | InsertThrew

  /** The collaborators a concrete builder supplies: `shouldInsertLocalResource` and the insert
      service. */
  datatype Policy = Policy(shouldInsert: Resource -> bool, insert: Resource -> InsertOutcome)

  /** What one call of `build` did: the associations it returned, whether it queried the
      repository, the resources it handed to the insert service, and the resources whose
      processing threw (each reported once and skipped). */
  datatype BuildOutcome = BuildOutcome(
    associations: seq<Association>,
    queried: bool,
    inserted: seq<Resource>,
    reported: seq<Resource>)

  /** The policy of the base class: every unmapped resource is inserted. */
  function DefaultShouldInsert(resource: Resource): bool {
    true
  }

  /** `array_filter(array_column($resources, $this->remoteObjectIdProperty))`: the truthy remote
      IDs of the batch, in batch order. */
  function TruthyRemoteIds(resources: seq<Resource>): (r: seq<string>)
    ensures forall id :: id in r ==> Truthy(id)
    ensures forall res :: res in resources && TruthyOpt(res.remoteId) ==> res.remoteId.value in r
    ensures r == [] <==> forall res :: res in resources ==> !TruthyOpt(res.remoteId)
    decreases |resources|
  {
    if resources == [] then []
    else
      var init := resources[..|resources| - 1];
      var last := resources[|resources| - 1];
      assert forall res :: res in resources <==> res in init || res == last;
      TruthyRemoteIds(init) + (if TruthyOpt(last.remoteId) then [last.remoteId.value] else [])
  }

  /** The first row whose `commerce_id` is strictly equal to the resource's remote ID. */
  function FirstMatchingRow(rows: seq<MapRow>, remoteId: Option<string>): (r: Option<MapRow>)
    ensures r.Some? ==> r.value in rows && remoteId == Some(r.value.commerceId)
    ensures r.None? ==> forall row :: row in rows ==> remoteId != Some(row.commerceId)
    decreases |rows|
  {
    if rows == [] then None
    else if remoteId == Some(rows[0].commerceId) then Some(rows[0])
    else FirstMatchingRow(rows[1..], remoteId)
  }

  /** `getRemoteResourceLocalIdFromMappedIds`: the local ID of the first matching row, when it
      is non-zero. */
  function LocalIdFromMappedIds(resource: Resource, rows: seq<MapRow>): Option<int> {
    var row := FirstMatchingRow(rows, resource.remoteId);
    if row.Some? && row.value.localId != 0 then Some(row.value.localId) else None
  }

  /** Whether `getRemoteResourceLocalId` reaches the insert service for this resource. */
  predicate CallsInsert(resource: Resource, rows: seq<MapRow>, policy: Policy) {
    LocalIdFromMappedIds(resource, rows).None? && policy.shouldInsert(resource)
  }

  /** The association `build` appends for one resource, if any. */
  function AssociationFor(resource: Resource, rows: seq<MapRow>, policy: Policy): seq<Association> {
    var mapped := LocalIdFromMappedIds(resource, rows);
    if mapped.Some? then [Association(mapped.value, resource)]
    else if !policy.shouldInsert(resource) then []
    else match policy.insert(resource)
      case Inserted(id) => if id != 0 then [Association(id, resource)] else []
      case InsertThrew => []
  }

  /** The associations of a batch, resource by resource. */
  function Associations(resources: seq<Resource>, rows: seq<MapRow>, policy: Policy): seq<Association>
    decreases |resources|
  {
    if resources == [] then []
    else
      Associations(resources[..|resources| - 1], rows, policy)
      + AssociationFor(resources[|resources| - 1], rows, policy)
  }

  /** The resources handed to the insert service, in batch order. */
  function InsertCalls(resources: seq<Resource>, rows: seq<MapRow>, policy: Policy): seq<Resource>
    decreases |resources|
  {
    if resources == [] then []
    else
      var last := resources[|resources| - 1];
      InsertCalls(resources[..|resources| - 1], rows, policy)
      + (if CallsInsert(last, rows, policy) then [last] else [])
  }

  /** The resources whose insertion threw, in batch order. */
  function FailedResources(resources: seq<Resource>, rows: seq<MapRow>, policy: Policy): seq<Resource>
    decreases |resources|
  {
    if resources == [] then []
    else
      var last := resources[|resources| - 1];
      FailedResources(resources[..|resources| - 1], rows, policy)
      + (if CallsInsert(last, rows, policy) && policy.insert(last).InsertThrew? then [last] else [])
  }

  /** What `build` does with a batch. */
  function BuildSpec(resources: seq<Resource>, repo: Repository, policy: Policy): BuildOutcome {
    var remoteIds := TruthyRemoteIds(resources);
    if remoteIds == [] then BuildOutcome([], false, [], [])
    else
      var rows := RowsByCommerceIds(repo, remoteIds);
      BuildOutcome(
        Associations(resources, rows, policy), true,
        InsertCalls(resources, rows, policy), FailedResources(resources, rows, policy))
  }

  /** `build`: one pass over the batch, each resource processed on its own. */
  method Build(resources: seq<Resource>, repo: Repository, policy: Policy) returns (outcome: BuildOutcome)
    ensures outcome == BuildSpec(resources, repo, policy)
    ensures !outcome.queried <==> forall res :: res in resources ==> !TruthyOpt(res.remoteId)
  {
    var remoteIds := TruthyRemoteIds(resources);
    if remoteIds == [] {
      return BuildOutcome([], false, [], []);
    }
    var rows := RowsByCommerceIds(repo, remoteIds);
    var associations: seq<Association> := [];
    var inserted: seq<Resource> := [];
    var reported: seq<Resource> := [];
    var i := 0;
    while i < |resources|
      invariant 0 <= i <= |resources|
      invariant associations == Associations(resources[..i], rows, policy)
      invariant inserted == InsertCalls(resources[..i], rows, policy)
      invariant reported == FailedResources(resources[..i], rows, policy)
    {
      var resource := resources[i];
      assert resources[..i + 1][..i] == resources[..i];
      var mapped := LocalIdFromMappedIds(resource, rows);
      if mapped.Some? {
        associations := associations + [Association(mapped.value, resource)];
      } else if policy.shouldInsert(resource) {
        inserted := inserted + [resource];
        match policy.insert(resource)
        case InsertThrew =>
          reported := reported + [resource];
        case Inserted(id) =>
          if id != 0 {
            associations := associations + [Association(id, resource)];
          }
      }
      i := i + 1;
    }
    assert resources[..|resources|] == resources;
    outcome := BuildOutcome(associations, true, inserted, reported);
  }

  // ---------------------------------------------------------------------------
  // Properties of the builder

  function ResourcesOf(associations: seq<Association>): (r: seq<Resource>)
    ensures |r| == |associations|
    ensures forall i :: 0 <= i < |r| ==> r[i] == associations[i].remoteResource
  {
    seq(|associations|, i requires 0 <= i < |associations| => associations[i].remoteResource)
  }

  lemma {:induction false} SubsequenceAppend(a: seq<Resource>, b: seq<Resource>, extra: seq<Resource>, x: Resource)
    requires IsSubsequence(a, b)
    requires extra == [] || extra == [x]
    ensures IsSubsequence(a + extra, b + [x])
  {
    if extra == [] {
      assert a + extra == a;
      if a != [] {
        assert (b + [x])[..|b + [x]| - 1] == b;
      }
    } else {
      assert (a + extra)[..|a + extra| - 1] == a;
      assert (b + [x])[..|b + [x]| - 1] == b;
    }
  }

  lemma AssociationForResource(resource: Resource, rows: seq<MapRow>, policy: Policy)
    ensures ResourcesOf(AssociationFor(resource, rows, policy)) == []
      || ResourcesOf(AssociationFor(resource, rows, policy)) == [resource]
  {
  }

  lemma ResourcesOfAppend(a: seq<Association>, b: seq<Association>)
    ensures ResourcesOf(a + b) == ResourcesOf(a) + ResourcesOf(b)
  {
  }

  /** The associated resources are the input resources with some left out, in their original
      order: at most one association per resource. */
  lemma {:induction false} AssociationsAreSubsequence(resources: seq<Resource>, rows: seq<MapRow>, policy: Policy)
    ensures IsSubsequence(ResourcesOf(Associations(resources, rows, policy)), resources)
    ensures |Associations(resources, rows, policy)| <= |resources|
    decreases |resources|
  {
    if resources != [] {
      var init := resources[..|resources| - 1];
      var last := resources[|resources| - 1];
      var initAssocs := Associations(init, rows, policy);
      var lastAssocs := AssociationFor(last, rows, policy);
      assert Associations(resources, rows, policy) == initAssocs + lastAssocs;
      AssociationsAreSubsequence(init, rows, policy);
      AssociationForResource(last, rows, policy);
      assert |lastAssocs| == |ResourcesOf(lastAssocs)| <= 1;
      ResourcesOfAppend(initAssocs, lastAssocs);
      SubsequenceAppend(ResourcesOf(initAssocs), init, ResourcesOf(lastAssocs), last);
      assert init + [last] == resources;
    }
  }

  /** Every association carries a non-zero local ID. */
  lemma {:induction false} AssociationsHaveLocalIds(resources: seq<Resource>, rows: seq<MapRow>, policy: Policy)
    ensures forall a :: a in Associations(resources, rows, policy) ==> a.localId != 0
    decreases |resources|
  {
    if resources != [] {
      AssociationsHaveLocalIds(resources[..|resources| - 1], rows, policy);
    }
  }

  /** Processing is per resource: the associations of two batches run one after the other are
      the associations of their concatenation, so a resource that throws affects no other. */
  lemma {:induction false} AssociationsAppend(a: seq<Resource>, b: seq<Resource>, rows: seq<MapRow>, policy: Policy)
    ensures Associations(a + b, rows, policy) == Associations(a, rows, policy) + Associations(b, rows, policy)
    ensures FailedResources(a + b, rows, policy) == FailedResources(a, rows, policy) + FailedResources(b, rows, policy)
    decreases |b|
  {
    if b == [] {
      assert a + b == a;
    } else {
      var init := b[..|b| - 1];
      assert (a + b)[..|a + b| - 1] == a + init;
      assert (a + b)[|a + b| - 1] == b[|b| - 1];
      AssociationsAppend(a, init, rows, policy);
    }
  }

  /** A resource whose first matching row has a non-zero local ID is associated with that ID
      and never reaches the insert service. */
  lemma MappedResourceIsReused(resource: Resource, rows: seq<MapRow>, policy: Policy, row: MapRow)
    requires FirstMatchingRow(rows, resource.remoteId) == Some(row) && row.localId != 0
    ensures AssociationFor(resource, rows, policy) == [Association(row.localId, resource)]
    ensures !CallsInsert(resource, rows, policy)
  {
  }

  /** A first matching row whose local ID converted to 0 counts as no mapping: the resource goes
      to the insertion policy. */
  lemma ZeroLocalIdIsUnmapped(resource: Resource, rows: seq<MapRow>, policy: Policy, row: MapRow)
    requires FirstMatchingRow(rows, resource.remoteId) == Some(row) && row.localId == 0
    ensures CallsInsert(resource, rows, policy) <==> policy.shouldInsert(resource)
    ensures !policy.shouldInsert(resource) ==> AssociationFor(resource, rows, policy) == []
  {
  }

  /** Only unmapped resources that the policy accepts reach the insert service. */
  lemma {:induction false} InsertCallsAreUnmapped(resources: seq<Resource>, rows: seq<MapRow>, policy: Policy)
    ensures forall r :: r in InsertCalls(resources, rows, policy) ==>
      LocalIdFromMappedIds(r, rows).None? && policy.shouldInsert(r)
    ensures forall r :: r in FailedResources(resources, rows, policy) ==> r in InsertCalls(resources, rows, policy)
    decreases |resources|
  {
    if resources != [] {
      InsertCallsAreUnmapped(resources[..|resources| - 1], rows, policy);
    }
  }

  /** The rows `build` looks at are fetched for truthy remote IDs only, so a resource whose remote
      ID is null, "" or "0" is never matched: it is inserted or dropped. */
  lemma UnidentifiedResourceIsNeverMapped(resources: seq<Resource>, repo: Repository, resource: Resource)
    requires !TruthyOpt(resource.remoteId)
    ensures LocalIdFromMappedIds(resource, RowsByCommerceIds(repo, TruthyRemoteIds(resources))).None?
  {
  }

  /** With the base-class policy, an unmapped resource is always handed to the insert service. */
  lemma DefaultPolicyInsertsUnmapped(resource: Resource, rows: seq<MapRow>, insert: Resource -> InsertOutcome)
    requires LocalIdFromMappedIds(resource, rows).None?
    ensures CallsInsert(resource, rows, Policy(DefaultShouldInsert, insert))
  {
  }
}
