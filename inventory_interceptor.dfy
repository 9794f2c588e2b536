/** The inventory interceptor on the product data store: overlays a stock-managing product's
    quantity with the inventory service's summary for its remote product, and turns the
    "inventory update failed" flag into a one-time admin notice. Models
    ProductDataStoreInterceptor. Quantities are opaque values of type Q; the model never does
    arithmetic on them. */
module InventoryInterceptor {
  import opened Php

  /** An inventory summary: the remote product it is about and its total available quantity. */
  datatype Summary<Q> = Summary(productId: string, totalAvailable: Q)

  /** The filter's second argument: something that is not a WC_Product, or a product with its
      `managing_stock()` answer and its `get_stock_managed_by_id()`. */
  datatype ProductArg = NotAProduct | Product(managingStock: bool, stockManagedById: int)

  /** The collaborators: the product map's `getRemoteId`, the read capability, and the summaries
      list (None when it throws). */
  datatype InventoryEnv<Q> = InventoryEnv(
    remoteIdOf: int -> Option<string>,
    canRead: bool,
    summaries: Option<seq<Summary<Q>>>)

  /** The filter's answer and whether it reported a failure (for the given local product ID). */
  datatype Filtered<Q> = Filtered(quantity: Q, reported: Option<int>)

  /** Index of the first summary about `remoteId`, or `|s|` when there is none. */
  function FirstMatchIndex<Q>(s: seq<Summary<Q>>, remoteId: string): (k: nat)
    ensures k <= |s|
    ensures forall j :: 0 <= j < k ==> s[j].productId != remoteId
    ensures k < |s| ==> s[k].productId == remoteId
    decreases |s|
  {
    if s == [] then 0
    else if s[0].productId == remoteId then 0
    else 1 + FirstMatchIndex(s[1..], remoteId)
  }

  /** `maybeFilterStockQuantity`. */
  function FilteredQuantity<Q>(quantity: Q, product: ProductArg, env: InventoryEnv<Q>): Filtered<Q> {
    if product.NotAProduct? || !product.managingStock then Filtered(quantity, None)
    else
      var remoteId := env.remoteIdOf(product.stockManagedById);
      if !TruthyOpt(remoteId) then Filtered(quantity, None)
      else if !env.canRead then Filtered(quantity, None)
      else if env.summaries.None? then Filtered(quantity, Some(product.stockManagedById))
      else
        var s := env.summaries.value;
        var k := FirstMatchIndex(s, remoteId.value);
        Filtered(if k < |s| then s[k].totalAvailable else quantity, None)
  }

  /** `maybeFilterStockQuantity`: a search over the summaries that stops at the first one about
      the product's remote ID. */
  method MaybeFilterStockQuantity<Q>(quantity: Q, product: ProductArg, env: InventoryEnv<Q>) returns (r: Filtered<Q>)
    ensures r == FilteredQuantity(quantity, product, env)
  {
    if product.NotAProduct? || !product.managingStock {
      return Filtered(quantity, None);
    }
    var localProductId := product.stockManagedById;
    var remoteProductId := env.remoteIdOf(localProductId);
    if !TruthyOpt(remoteProductId) {
      return Filtered(quantity, None);
    }
    if !env.canRead {
      return Filtered(quantity, None);
    }
    if env.summaries.None? {
      return Filtered(quantity, Some(localProductId));
    }
    var summaries := env.summaries.value;
    var q := quantity;
    var i := 0;
    while i < |summaries|
      invariant 0 <= i <= |summaries|
      invariant forall j :: 0 <= j < i ==> summaries[j].productId != remoteProductId.value
      invariant q == quantity
    {
      if summaries[i].productId == remoteProductId.value {
        q := summaries[i].totalAvailable;
        break;
      }
      i := i + 1;
    }
    FirstMatchIsUnique(summaries, remoteProductId.value, i);
    return Filtered(q, None);
  }

  /** The first match is the only index with no match before it. */
  lemma FirstMatchIsUnique<Q>(s: seq<Summary<Q>>, remoteId: string, i: nat)
    requires i <= |s|
    requires forall j :: 0 <= j < i ==> s[j].productId != remoteId
    requires i < |s| ==> s[i].productId == remoteId
    ensures FirstMatchIndex(s, remoteId) == i
  {
  }

  // ---------------------------------------------------------------------------
  // Properties of the filter

  /** The quantity is returned as it was, without a report, for anything that is not a
      stock-managing product, for a product without a remote ID and without the read
      capability. */
  lemma QuantityKeptWhenNotApplicable<Q>(quantity: Q, product: ProductArg, env: InventoryEnv<Q>)
    requires || product.NotAProduct?
             || !product.managingStock
             || !TruthyOpt(env.remoteIdOf(product.stockManagedById))
             || !env.canRead
    ensures FilteredQuantity(quantity, product, env) == Filtered(quantity, None)
  {
  }

  /** When the summaries are read, the result is the quantity of the first summary about the
      remote product, and the original quantity when there is none. */
  lemma QuantityFromFirstMatchingSummary<Q>(quantity: Q, product: ProductArg, env: InventoryEnv<Q>, i: nat)
    requires product.Product? && product.managingStock && env.canRead
    requires TruthyOpt(env.remoteIdOf(product.stockManagedById))
    requires env.summaries.Some? && i < |env.summaries.value|
    requires env.summaries.value[i].productId == env.remoteIdOf(product.stockManagedById).value
    requires forall j :: 0 <= j < i ==> env.summaries.value[j].productId != env.remoteIdOf(product.stockManagedById).value
    ensures FilteredQuantity(quantity, product, env) == Filtered(env.summaries.value[i].totalAvailable, None)
  {
    FirstMatchIsUnique(env.summaries.value, env.remoteIdOf(product.stockManagedById).value, i);
  }

  /** Summaries after a matching one never change the result. */
  lemma {:induction false} LaterSummariesIgnored<Q>(s: seq<Summary<Q>>, later: seq<Summary<Q>>, remoteId: string)
    requires FirstMatchIndex(s, remoteId) < |s|
    ensures FirstMatchIndex(s + later, remoteId) == FirstMatchIndex(s, remoteId)
    decreases |s|
  {
    if s[0].productId != remoteId {
      assert (s + later)[1..] == s[1..] + later;
      LaterSummariesIgnored(s[1..], later, remoteId);
    }
  }

  /** A summaries failure leaves the quantity alone and is reported for the local product ID. */
  lemma SummariesFailureReported<Q>(quantity: Q, product: ProductArg, env: InventoryEnv<Q>)
    requires product.Product? && product.managingStock && env.canRead
    requires TruthyOpt(env.remoteIdOf(product.stockManagedById))
    requires env.summaries.None?
    ensures FilteredQuantity(quantity, product, env) == Filtered(quantity, Some(product.stockManagedById))
  {
  }

  /** No summary about the remote product: the original quantity, no report. */
  lemma NoMatchKeepsQuantity<Q>(quantity: Q, product: ProductArg, env: InventoryEnv<Q>)
    requires product.Product? && product.managingStock && env.canRead
    requires TruthyOpt(env.remoteIdOf(product.stockManagedById))
    requires env.summaries.Some?
    requires forall j :: 0 <= j < |env.summaries.value| ==>
      env.summaries.value[j].productId != env.remoteIdOf(product.stockManagedById).value
    ensures FilteredQuantity(quantity, product, env) == Filtered(quantity, None)
  {
    FirstMatchIsUnique(env.summaries.value, env.remoteIdOf(product.stockManagedById).value, |env.summaries.value|);
  }

  // ---------------------------------------------------------------------------
  // The admin notice

  /** The "inventory update failed" flag, its fail reason, and the admin notices enqueued so
      far (each carrying its fail reason). */
  datatype NoticeState = NoticeState(flagOn: bool, failReason: string, enqueued: seq<string>)

  /** `onAdminInit`. */
  function AdminInit(s: NoticeState): NoticeState {
    if s.flagOn then NoticeState(false, s.failReason, s.enqueued + [s.failReason]) else s
  }

  /** Running the admin hook again right away does nothing more: the notice is enqueued once
      per raised flag. */
  lemma AdminInitOnce(s: NoticeState)
    ensures AdminInit(AdminInit(s)) == AdminInit(s)
    ensures !AdminInit(s).flagOn
    ensures |AdminInit(s).enqueued| == |s.enqueued| + (if s.flagOn then 1 else 0)
    ensures s.flagOn ==> AdminInit(s).enqueued[|s.enqueued|] == s.failReason
    ensures AdminInit(s).enqueued[..|s.enqueued|] == s.enqueued
  {
  }

  /** The interceptor's admin-notice side. */
  class InventoryNotices {
    var flagOn: bool
    var failReason: string
    var enqueued: seq<string>

    constructor (s: NoticeState)
      ensures State() == s
    {
      flagOn, failReason, enqueued := s.flagOn, s.failReason, s.enqueued;
    }

    function State(): NoticeState
      reads this
    {
      NoticeState(flagOn, failReason, enqueued)
    }

    /** `onAdminInit`. */
    method OnAdminInit()
      modifies this
      ensures State() == AdminInit(old(State()))
    {
      if flagOn {
        enqueued := enqueued + [failReason];
        flagOn := false;
      }
    }
  }
}
