/** The Commerce orders service: creating an order in the remote Orders service and mapping the
    returned remote ID, and sending an order status update when the WooCommerce status changed to
    a final one. Models OrdersService and the Status enum. */
module CommerceOrders {
  import opened Php

  /** The Commerce order statuses. */
  datatype Status = Open | Completed | Canceled

  /** The enum's string values. */
  function StatusValue(s: Status): string {
    match s
    case Open => "OPEN"
    case Completed => "COMPLETED"
    case Canceled => "CANCELED"
  }

  /** Distinct statuses have distinct values. */
  lemma StatusValuesDistinct(a: Status, b: Status)
    requires a != b
    ensures StatusValue(a) != StatusValue(b)
  {
  }

  /** An order model: its local ID (None before the local record exists) and the Commerce status
      the order adapter derives from it. */
  datatype Order = Order(localId: Option<int>, commerceStatus: Status)

  /** The order data object the adapter produces: the store ID and remote ID set on the adapter,
      and the converted order. */
  datatype OrderDataObject = OrderDataObject(storeId: string, remoteId: string, status: Status, order: Order)

  /** The errors the service raises: MissingOrderRemoteIdException, and any other Commerce
      exception from the remote Orders service. */
  datatype CommerceError = MissingOrderRemoteId | GatewayFailure

  /** The update operation: the order and the new and old WooCommerce statuses. */
  datatype UpdateOrderOperation = UpdateOrderOperation(order: Order, newWooStatus: string, oldWooStatus: string)

  /** The remote collaborators: the Orders service's create (the ID of the returned order, which
      may be missing or empty), its status update (true when it succeeds) and the orders mapping
      service's lookup of an order's remote ID. */
  datatype Gateway = Gateway(
    create: OrderDataObject -> Result<Option<string>, CommerceError>,
    updateStatus: OrderDataObject -> bool,
    mappedRemoteId: Order -> Option<string>)

  /** The service's outside effects, in order. */
  datatype Effect =
    | RemoteCreate(input: OrderDataObject)
    | SavedOrderMapping(order: Order, remoteId: string)
    | SavedItemMappings(order: Order, remoteId: string)
    | RemoteStatusUpdate(input: OrderDataObject)

  /** A service call's result and effects. */
  datatype Run<T> = Run(result: Result<T, CommerceError>, effects: seq<Effect>)

  /** `convertOrderToDataObject` with the given remote ID (`''` when none is given). */
  function DataObject(storeId: string, order: Order, remoteId: Option<string>): OrderDataObject {
    OrderDataObject(storeId, if remoteId.Some? then remoteId.value else "", order.commerceStatus, order)
  }

  /** `createOrder`. */
  function CreateOrderSpec(storeId: string, order: Order, gw: Gateway): Run<string> {
    var input := DataObject(storeId, order, None);
    match gw.create(input)
    case Failure(e) => Run(Failure(e), [RemoteCreate(input)])
    case Success(returned) =>
      if !TruthyOpt(returned) then Run(Failure(MissingOrderRemoteId), [RemoteCreate(input)])
      else
        Run(Success(returned.value),
            [RemoteCreate(input), SavedOrderMapping(order, returned.value), SavedItemMappings(order, returned.value)])
  }

  /** `shouldUpdateOrderStatus`. */
  predicate ShouldUpdateOrderStatus(op: UpdateOrderOperation, obj: OrderDataObject) {
    if op.oldWooStatus == op.newWooStatus then false
    else if obj.status !in {Completed, Canceled} then false
    else true
  }

  /** `updateOrder`; the result says whether a status update was sent. */
  function UpdateOrderSpec(storeId: string, op: UpdateOrderOperation, gw: Gateway): Run<bool> {
    var mapped := gw.mappedRemoteId(op.order);
    if !TruthyOpt(mapped) then Run(Failure(MissingOrderRemoteId), [])
    else
      var obj := DataObject(storeId, op.order, mapped);
      if !ShouldUpdateOrderStatus(op, obj) then Run(Success(false), [])
      else if gw.updateStatus(obj) then Run(Success(true), [RemoteStatusUpdate(obj)])
      else Run(Failure(GatewayFailure), [RemoteStatusUpdate(obj)])
  }

  /** The orders service, with its shared order adapter's settings and its effects so far. */
  class OrdersService {
    const storeId: string
    var adapterStoreId: string
    var adapterRemoteId: string
    var journal: seq<Effect>

    constructor (storeId: string)
      ensures this.storeId == storeId && adapterStoreId == "" && adapterRemoteId == "" && journal == []
    {
      this.storeId := storeId;
      adapterStoreId, adapterRemoteId, journal := "", "", [];
    }

    /** `convertOrderToDataObject`: always overwrites the adapter's remote ID, so that a remote ID
        set by an earlier call is never reused. */
    method ConvertOrderToDataObject(order: Order, remoteId: Option<string>) returns (obj: OrderDataObject)
      modifies this
      ensures adapterStoreId == storeId
      ensures adapterRemoteId == if remoteId.Some? then remoteId.value else ""
      ensures obj == DataObject(storeId, order, remoteId) && obj.remoteId == adapterRemoteId
      ensures journal == old(journal)
    {
      adapterStoreId := storeId;
      adapterRemoteId := if remoteId.Some? then remoteId.value else "";
      obj := OrderDataObject(adapterStoreId, adapterRemoteId, order.commerceStatus, order);
    }

    /** `createOrder`. */
    method CreateOrder(order: Order, gw: Gateway) returns (r: Result<string, CommerceError>)
      modifies this
      ensures r == CreateOrderSpec(storeId, order, gw).result
      ensures journal == old(journal) + CreateOrderSpec(storeId, order, gw).effects
      ensures adapterStoreId == storeId && adapterRemoteId == ""
    {
      var input := ConvertOrderToDataObject(order, None);
      journal := journal + [RemoteCreate(input)];
      var output := gw.create(input);
      if output.Failure? {
        return Failure(output.error);
      }
      var remoteId := output.value;
      if !TruthyOpt(remoteId) {
        return Failure(MissingOrderRemoteId);
      }
      journal := journal + [SavedOrderMapping(order, remoteId.value)];
      journal := journal + [SavedItemMappings(order, remoteId.value)];
      return Success(remoteId.value);
    }

    /** `getRemoteIdForUpdate`. */
    method GetRemoteIdForUpdate(op: UpdateOrderOperation, gw: Gateway) returns (r: Result<string, CommerceError>)
      ensures r.Success? <==> TruthyOpt(gw.mappedRemoteId(op.order))
      ensures r.Success? ==> Some(r.value) == gw.mappedRemoteId(op.order) && Truthy(r.value)
      ensures r.Failure? ==> r.error == MissingOrderRemoteId
    {
      var remoteId := gw.mappedRemoteId(op.order);
      if !TruthyOpt(remoteId) {
        return Failure(MissingOrderRemoteId);
      }
      return Success(remoteId.value);
    }

    /** `updateOrder`. The adapter is left alone when the remote ID is missing. */
    method UpdateOrder(op: UpdateOrderOperation, gw: Gateway) returns (r: Result<bool, CommerceError>)
      modifies this
      ensures r == UpdateOrderSpec(storeId, op, gw).result
      ensures journal == old(journal) + UpdateOrderSpec(storeId, op, gw).effects
      ensures r == Failure(MissingOrderRemoteId) ==>
        adapterStoreId == old(adapterStoreId) && adapterRemoteId == old(adapterRemoteId)
      ensures r != Failure(MissingOrderRemoteId) ==>
        adapterStoreId == storeId && adapterRemoteId == gw.mappedRemoteId(op.order).value
    {
      var remoteId := GetRemoteIdForUpdate(op, gw);
      if remoteId.Failure? {
        return Failure(remoteId.error);
      }
      var obj := ConvertOrderToDataObject(op.order, Some(remoteId.value));
      if !ShouldUpdateOrderStatus(op, obj) {
        return Success(false);
      }
      journal := journal + [RemoteStatusUpdate(obj)];
      if gw.updateStatus(obj) {
        return Success(true);
      }
      return Failure(GatewayFailure);
    }
  }

  // ---------------------------------------------------------------------------
  // Properties of the service

  /** A created order succeeds exactly when the returned ID is truthy; then the order mapping is
      saved before the item mappings, both with that ID, and the response carries it. A missing
      or empty ID fails with MissingOrderRemoteId and saves no mapping. */
  lemma CreateOrderMapsReturnedId(storeId: string, order: Order, gw: Gateway)
    ensures var run := CreateOrderSpec(storeId, order, gw);
      && run.effects[0] == RemoteCreate(DataObject(storeId, order, None))
      && (run.result.Success? <==>
            gw.create(DataObject(storeId, order, None)).Success? && TruthyOpt(gw.create(DataObject(storeId, order, None)).value))
      && (run.result.Success? ==>
            && Truthy(run.result.value)
            && run.effects[1..] == [SavedOrderMapping(order, run.result.value), SavedItemMappings(order, run.result.value)])
      && (run.result.Failure? ==> run.effects == [RemoteCreate(DataObject(storeId, order, None))])
      && (gw.create(DataObject(storeId, order, None)) == Success(Some("0")) ==>
            run.result == Failure(MissingOrderRemoteId))
  {
  }

  /** The create request carries the store ID and an empty remote ID. */
  lemma CreateRequestHasNoRemoteId(storeId: string, order: Order, gw: Gateway)
    ensures var input := CreateOrderSpec(storeId, order, gw).effects[0].input;
      input.remoteId == "" && input.storeId == storeId && input.order == order
  {
  }

  /** Without a mapped remote ID, `updateOrder` fails with MissingOrderRemoteId before any
      remote call. */
  lemma UpdateWithoutRemoteIdFailsFirst(storeId: string, op: UpdateOrderOperation, gw: Gateway)
    requires !TruthyOpt(gw.mappedRemoteId(op.order))
    ensures UpdateOrderSpec(storeId, op, gw) == Run(Failure(MissingOrderRemoteId), [])
  {
  }

  /** A status update request is sent exactly when the order has a mapped remote ID, its
      WooCommerce status changed, and its Commerce status is COMPLETED or CANCELED; the request
      carries the mapped remote ID. */
  lemma StatusUpdateSentExactly(storeId: string, op: UpdateOrderOperation, gw: Gateway)
    ensures var run := UpdateOrderSpec(storeId, op, gw);
      (run.effects != []) <==>
        && TruthyOpt(gw.mappedRemoteId(op.order))
        && op.oldWooStatus != op.newWooStatus
        && (op.order.commerceStatus == Completed || op.order.commerceStatus == Canceled)
    ensures var run := UpdateOrderSpec(storeId, op, gw);
      forall e :: e in run.effects ==>
        e.RemoteStatusUpdate? && e.input.remoteId == gw.mappedRemoteId(op.order).value && e.input.storeId == storeId
  {
  }

  /** An unchanged WooCommerce status, or an OPEN order, never produces a status update. */
  lemma NoStatusUpdateWithoutFinalChange(storeId: string, op: UpdateOrderOperation, gw: Gateway)
    requires op.oldWooStatus == op.newWooStatus || op.order.commerceStatus == Open
    ensures UpdateOrderSpec(storeId, op, gw).effects == []
    ensures UpdateOrderSpec(storeId, op, gw).result != Success(true)
  {
  }
}
