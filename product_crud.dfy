/** The Commerce Catalog product data-store CRUD trait: SKU generation (`slug-id`), SKU
    uniqueness by `-1`, `-2`, … suffixes on the original SKU, the gate on platform writes, and the
    order of the local and remote steps in `create` and `update`. Models
    HasProductPlatformDataStoreCrudTrait. */
module ProductCrud {
  import opened Php

  // ---------------------------------------------------------------------------
  // SKUs

  /** `generateProductSku`: `sprintf('%s-%s', $slug, $id)`. */
  function GenerateProductSku(slug: string, id: int): (r: string)
    ensures |r| > |slug| + 1
    ensures r[..|slug| + 1] == slug + "-"
    ensures StringToInt(r[|slug| + 1..]) == id
  {
    var digits := IntToString(id);
    StringToIntOfIntToString(id);
    assert (slug + "-" + digits)[|slug| + 1..] == digits;
    slug + "-" + digits
  }

  /** The n-th SKU that `ensureUniqueSku` tries: the original SKU for n = 0, `original-n`
      for n >= 1. */
  function Candidate(sku: string, n: nat): string {
    if n == 0 then sku else sku + "-" + IntToString(n)
  }

  /** A suffixed candidate is the original SKU, a dash and the decimal suffix: suffixes are
      never stacked on an earlier candidate. */
  lemma CandidateShape(sku: string, n: nat)
    requires n >= 1
    ensures var c := Candidate(sku, n);
      && |c| > |sku| + 1
      && c[..|sku| + 1] == sku + "-"
      && IsDigits(c[|sku| + 1..])
      && StringToInt(c[|sku| + 1..]) == n
  {
    var c := Candidate(sku, n);
    assert c[|sku| + 1..] == NatToString(n);
    StringToIntOfIntToString(n);
  }

  /** Different attempts try different SKUs. */
  lemma CandidatesDistinct(sku: string, n: nat, m: nat)
    requires n != m
    ensures Candidate(sku, n) != Candidate(sku, m)
  {
    if n >= 1 {
      CandidateShape(sku, n);
    }
    if m >= 1 {
      CandidateShape(sku, m);
    }
  }

  /** The first attempt at or after `from` that the uniqueness predicate accepts; `bound` is an
      attempt known to be accepted. */
  ghost function FirstUniqueFrom(isUnique: (int, string) -> bool, productId: int, sku: string, from: nat, bound: nat): (n: nat)
    requires from <= bound && isUnique(productId, Candidate(sku, bound))
    ensures from <= n <= bound && isUnique(productId, Candidate(sku, n))
    ensures forall k: nat :: from <= k < n ==> !isUnique(productId, Candidate(sku, k))
    decreases bound - from
  {
    if isUnique(productId, Candidate(sku, from)) then from
    else FirstUniqueFrom(isUnique, productId, sku, from + 1, bound)
  }

  /** The attempt `ensureUniqueSku` stops at: the least n whose candidate is unique. */
  ghost function LeastUniqueSuffix(isUnique: (int, string) -> bool, productId: int, sku: string): (n: nat)
    requires exists b: nat :: isUnique(productId, Candidate(sku, b))
    ensures isUnique(productId, Candidate(sku, n))
    ensures forall k: nat :: k < n ==> !isUnique(productId, Candidate(sku, k))
  {
    var b: nat :| isUnique(productId, Candidate(sku, b));
    FirstUniqueFrom(isUnique, productId, sku, 0, b)
  }

  /** `ensureUniqueSku`: tries the SKU, then `sku-1`, `sku-2`, … until `wc_product_has_unique_sku`
      accepts one. The loop only ends when some attempt is accepted, which the precondition
      states. */
  method EnsureUniqueSku(isUnique: (int, string) -> bool, productId: int, sku: string) returns (r: string)
    requires exists b: nat :: isUnique(productId, Candidate(sku, b))
    ensures r == Candidate(sku, LeastUniqueSuffix(isUnique, productId, sku))
    ensures isUnique(productId, r)
  {
    ghost var least := LeastUniqueSuffix(isUnique, productId, sku);
    var originalSku := sku;
    r := sku;
    var count := 1;
    while !isUnique(productId, r)
      invariant 1 <= count <= least + 1
      invariant r == Candidate(originalSku, count - 1)
      decreases least + 1 - count
    {
      r := originalSku + "-" + IntToString(count);
      count := count + 1;
    }
  }

  /** A SKU the predicate already accepts is kept as it is. */
  lemma UniqueSkuIsKept(isUnique: (int, string) -> bool, productId: int, sku: string)
    requires isUnique(productId, Candidate(sku, 0))
    ensures LeastUniqueSuffix(isUnique, productId, sku) == 0
  {
  }

  /** Writes go to the platform only with the write capability and for a product whose status
      is set and is neither `new` nor `auto-draft` (`shouldWriteProductToCatalog`). */
  predicate ShouldWriteProductToCatalog(canWrite: bool, status: string) {
    if !canWrite then false
    else if !Truthy(status) || status in ["new", "auto-draft"] then false
    else true
  }

  // ---------------------------------------------------------------------------
  // Products and the data store

  /** The product properties the trait reads or writes; `changed` says whether `get_changes()`
      is non-empty. */
  datatype ProductData = ProductData(id: int, slug: string, sku: string, status: string, changed: bool)

  datatype CrudFailure = SkuRejected(sku: string) | PlatformWriteFailed(product: ProductData)

  /** What the trait does, in order: parent (local) creates and updates, calls to the products
      service's `createOrUpdateProduct`, and Sentry reports. */
  datatype CrudEvent =
    | LocalCreate(id: int)
    | LocalUpdate(id: int)
    | PlatformWrite(product: ProductData)
    | Reported(failure: CrudFailure)

  /** The collaborators: the write capability, `wc_product_has_unique_sku`, whether `set_sku`
      throws WC_Data_Exception for a SKU, and whether the platform write (product adapter and
      products service) goes through. */
  datatype CatalogEnv = CatalogEnv(
    canWrite: bool,
    isUnique: (int, string) -> bool,
    rejectsSku: string -> bool,
    platformAccepts: ProductData -> bool)

  /** The state a trait operation leaves the product in, and the events it produced. */
  datatype Step = Step(product: ProductData, events: seq<CrudEvent>)

  /** The SKU `transformProduct` starts from: the current one, or a generated one when the
      current one is empty (`empty()` also holds for "0"). */
  function SkuBase(p: ProductData): string {
    if Truthy(p.sku) then p.sku else GenerateProductSku(p.slug, p.id)
  }

  /** Some suffix of the product's base SKU is accepted as unique. */
  ghost predicate CanMakeUnique(env: CatalogEnv, p: ProductData) {
    exists b: nat :: env.isUnique(p.id, Candidate(SkuBase(p), b))
  }

  /** `transformProduct`. */
  ghost function Transformed(p: ProductData, env: CatalogEnv): Step
    requires CanMakeUnique(env, p)
  {
    var sku := Candidate(SkuBase(p), LeastUniqueSuffix(env.isUnique, p.id, SkuBase(p)));
    if env.rejectsSku(sku) then Step(p, [Reported(SkuRejected(sku))])
    else Step(p.(sku := sku, changed := p.changed || sku != p.sku), [])
  }

  /** `createOrUpdateProductInPlatform`. */
  function PlatformWriteEvents(p: ProductData, env: CatalogEnv): seq<CrudEvent> {
    if !ShouldWriteProductToCatalog(env.canWrite, p.status) then []
    else if env.platformAccepts(p) then [PlatformWrite(p)]
    else [PlatformWrite(p), Reported(PlatformWriteFailed(p))]
  }

  /** The product as the parent `create` leaves it: saved under its new local ID, with no
      pending changes. */
  function Created(p: ProductData, newId: int): ProductData {
    p.(id := newId, changed := false)
  }

  /** `create`. */
  ghost function CreateSpec(p: ProductData, newId: int, env: CatalogEnv): Step
    requires CanMakeUnique(env, Created(p, newId))
  {
    var t := Transformed(Created(p, newId), env);
    Step(t.product, [LocalCreate(newId)] + t.events + PlatformWriteEvents(t.product, env))
  }

  /** `update`. */
  ghost function UpdateSpec(p: ProductData, env: CatalogEnv): Step
    requires CanMakeUnique(env, p)
  {
    var t := Transformed(p, env);
    var write := if t.product.changed then PlatformWriteEvents(t.product, env) else [];
    Step(t.product.(changed := false), t.events + write + [LocalUpdate(t.product.id)])
  }

  /** No `createOrUpdateProduct` call among the events. */
  predicate NoPlatformWrite(events: seq<CrudEvent>) {
    forall i :: 0 <= i < |events| ==> !events[i].PlatformWrite?
  }

  /** A WooCommerce product, updated in place by the data store. */
  class Product {
    var id: int
    var slug: string
    var sku: string
    var status: string
    var changed: bool

    constructor (data: ProductData)
      ensures Data() == data
    {
      id, slug, sku, status, changed := data.id, data.slug, data.sku, data.status, data.changed;
    }

    function Data(): ProductData
      reads this
    {
      ProductData(id, slug, sku, status, changed)
    }

    /** `set_sku` on a product that does not reject the value: a different SKU is a pending
        change. */
    method SetSku(newSku: string)
      modifies this
      ensures Data() == old(Data()).(sku := newSku, changed := old(changed) || newSku != old(sku))
    {
      changed := changed || newSku != sku;
      sku := newSku;
    }
  }

  /** The product data store that uses the trait, with the events it has produced. */
  class ProductDataStore {
    var log: seq<CrudEvent>

    constructor ()
      ensures log == []
    {
      log := [];
    }

    /** `createOrUpdateProductInPlatform`. */
    method CreateOrUpdateProductInPlatform(product: Product, env: CatalogEnv)
      modifies this
      ensures log == old(log) + PlatformWriteEvents(product.Data(), env)
    {
      if !ShouldWriteProductToCatalog(env.canWrite, product.status) {
        return;
      }
      var data := product.Data();
      log := log + [PlatformWrite(data)];
      if !env.platformAccepts(data) {
        log := log + [Reported(PlatformWriteFailed(data))];
      }
    }

    /** `transformProduct`. */
    method TransformProduct(product: Product, env: CatalogEnv)
      requires CanMakeUnique(env, product.Data())
      modifies this, product
      ensures product.Data() == Transformed(old(product.Data()), env).product
      ensures log == old(log) + Transformed(old(product.Data()), env).events
    {
      var sku := product.sku;
      if !Truthy(sku) {
        sku := GenerateProductSku(product.slug, product.id);
      }
      sku := EnsureUniqueSku(env.isUnique, product.id, sku);
      if env.rejectsSku(sku) {
        log := log + [Reported(SkuRejected(sku))];
      } else {
        product.SetSku(sku);
      }
    }

    /** `create`: the parent create first, so that the product has a local ID, then the SKU
        transform, then the platform write. */
    method Create(product: Product, newId: int, env: CatalogEnv)
      requires CanMakeUnique(env, Created(product.Data(), newId))
      modifies this, product
      ensures product.Data() == CreateSpec(old(product.Data()), newId, env).product
      ensures log == old(log) + CreateSpec(old(product.Data()), newId, env).events
    {
      product.id, product.changed := newId, false;
      log := log + [LocalCreate(newId)];
      TransformProduct(product, env);
      CreateOrUpdateProductInPlatform(product, env);
    }

    /** `update`: the SKU transform, a platform write when changes are pending, then the parent
        update. */
    method Update(product: Product, env: CatalogEnv)
      requires CanMakeUnique(env, product.Data())
      modifies this, product
      ensures product.Data() == UpdateSpec(old(product.Data()), env).product
      ensures log == old(log) + UpdateSpec(old(product.Data()), env).events
    {
      TransformProduct(product, env);
      if product.changed {
        CreateOrUpdateProductInPlatform(product, env);
      }
      product.changed := false;
      log := log + [LocalUpdate(product.id)];
    }
  }

  // ---------------------------------------------------------------------------
  // Properties of the trait

  /** A platform write is attempted exactly when the capability and status gate allows it. */
  lemma PlatformWriteGate(p: ProductData, env: CatalogEnv)
    ensures PlatformWriteEvents(p, env) != [] <==>
      env.canWrite && p.status != "" && p.status != "0" && p.status != "new" && p.status != "auto-draft"
    ensures !env.platformAccepts(p) && PlatformWriteEvents(p, env) != [] ==>
      Reported(PlatformWriteFailed(p)) in PlatformWriteEvents(p, env)
  {
  }

  /** The transform leaves the status, slug and ID alone, and the SKU it sets is one the
      predicate accepts; a rejected SKU is reported and the product is left as it was. */
  lemma TransformOutcome(p: ProductData, env: CatalogEnv)
    requires CanMakeUnique(env, p)
    ensures var t := Transformed(p, env);
      && t.product.id == p.id && t.product.slug == p.slug && t.product.status == p.status
      && (t.events == [] ==> env.isUnique(p.id, t.product.sku))
      && (t.events != [] ==> t.product == p && |t.events| == 1 && t.events[0].Reported?)
  {
  }

  /** A product whose SKU is set and already unique keeps its SKU, gains no pending change and
      produces no report. */
  lemma TransformKeepsUniqueSku(p: ProductData, env: CatalogEnv)
    requires Truthy(p.sku) && env.isUnique(p.id, p.sku) && !env.rejectsSku(p.sku)
    ensures CanMakeUnique(env, p)
    ensures Transformed(p, env) == Step(p, [])
  {
    assert env.isUnique(p.id, Candidate(SkuBase(p), 0));
    UniqueSkuIsKept(env.isUnique, p.id, p.sku);
  }

  /** An empty SKU is replaced by a suffix of the generated `slug-id` SKU; a set SKU only gets a
      suffix. */
  lemma TransformSkuSource(p: ProductData, env: CatalogEnv)
    requires CanMakeUnique(env, p)
    requires Transformed(p, env).events == []
    ensures var sku := Transformed(p, env).product.sku;
      && (Truthy(p.sku) ==> exists n: nat :: sku == Candidate(p.sku, n))
      && (!Truthy(p.sku) ==> exists n: nat :: sku == Candidate(GenerateProductSku(p.slug, p.id), n))
  {
    var n := LeastUniqueSuffix(env.isUnique, p.id, SkuBase(p));
    assert Transformed(p, env).product.sku == Candidate(SkuBase(p), n);
  }

  /** `create` starts with the local create, sends the product under its new local ID, and never
      writes to the platform when the gate is closed. */
  lemma CreateOrder(p: ProductData, newId: int, env: CatalogEnv)
    requires CanMakeUnique(env, Created(p, newId))
    ensures var s := CreateSpec(p, newId, env);
      && s.events[0] == LocalCreate(newId)
      && s.product.id == newId
      && (forall i :: 0 <= i < |s.events| && s.events[i].PlatformWrite? ==> i > 0 && s.events[i].product == s.product)
      && (!ShouldWriteProductToCatalog(env.canWrite, p.status) ==> NoPlatformWrite(s.events))
  {
  }

  /** `update` ends with the local update, and writes to the platform only when the product has
      pending changes after the transform and the gate is open. */
  lemma UpdateOrder(p: ProductData, env: CatalogEnv)
    requires CanMakeUnique(env, p)
    ensures var s := UpdateSpec(p, env);
      && s.events[|s.events| - 1] == LocalUpdate(p.id)
      && !s.product.changed
      && (!Transformed(p, env).product.changed ==> NoPlatformWrite(s.events))
      && (!ShouldWriteProductToCatalog(env.canWrite, p.status) ==> NoPlatformWrite(s.events))
      && (Transformed(p, env).product.changed && ShouldWriteProductToCatalog(env.canWrite, p.status) ==>
            PlatformWrite(Transformed(p, env).product) in s.events)
  {
  }
}
