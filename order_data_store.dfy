/** The Commerce order data store that WooCommerce uses for orders: on create it gives the order
    a cart ID, creates it in the Commerce platform and then locally; on update it sends the status
    change to the platform and then updates locally. Failures on the platform side are isolated so
    that the local write always happens. Models OrderDataStore. */
module OrderPersistence {
  import opened Php
  import opened CommerceOrders

  /** The WooCommerce order properties the data store reads or writes: the local ID (0 before the
      order is saved), the cart ID, the current status and the status stored in `get_data()`
      (None when the key is absent). */
  datatype WooOrderData = WooOrderData(id: int, cartId: Option<string>, status: string, savedStatus: Option<string>)

  /** The data store's own effects, in order. Calls into the orders service carry what the
      service answered. */
  datatype StoreEvent =
    | CartIdGenerated(cartId: string)
    | ConversionReported
    | ReservationsSynced(order: Order)
    | ServiceCreate(order: Order, result: Result<string, CommerceError>)
    | CreateReported(error: CommerceError)
    | ParentCreate(id: int)
    | ServiceUpdate(op: UpdateOrderOperation, outcome: Result<bool, CommerceError>)
    | UpdateReported(error: CommerceError)
    | ParentUpdate(id: int)

  /** The collaborators: whether the input is a WC_Order, the write capability, the ID the ID
      provider generates, the order adapter (None when it throws AdapterException), whether the
      reservations service throws a Commerce exception, the Commerce gateway, and the local ID the
      parent create assigns. */
  datatype StoreEnv = StoreEnv(
    isWcOrder: bool,
    canWrite: bool,
    generatedId: string,
    convert: WooOrderData -> Option<Order>,
    reservationsFail: Order -> bool,
    gw: Gateway,
    newLocalId: int)

  /** The result of a data-store call: the order's new state, the store's events and the orders
      service's effects. */
  datatype StoreStep = StoreStep(order: WooOrderData, events: seq<StoreEvent>, serviceEffects: seq<Effect>)

  /** `shouldCreateWooCommerceOrderInPlatform` (and the identical update gate). */
  predicate UsesPlatform(env: StoreEnv) {
    env.isWcOrder && env.canWrite
  }

  /** `generateCartIdIfNotSet`: the order afterwards. */
  function Prepared(o: WooOrderData, generatedId: string): (r: WooOrderData)
    ensures TruthyOpt(o.cartId) ==> r == o
    ensures !TruthyOpt(o.cartId) ==> r == o.(cartId := Some(generatedId))
  {
    if TruthyOpt(o.cartId) then o else o.(cartId := Some(generatedId))
  }

  /** `generateCartIdIfNotSet`: the events. */
  function PrepareEvents(o: WooOrderData, generatedId: string): seq<StoreEvent> {
    if TruthyOpt(o.cartId) then [] else [CartIdGenerated(generatedId)]
  }

  /** `getOldWooCommerceOrderStatusForOrder`: the stored status, else the current one. */
  function OldStatus(o: WooOrderData): string {
    if o.savedStatus.Some? then o.savedStatus.value else o.status
  }

  /** `makeUpdateOrderOperation`. */
  function MakeUpdateOrderOperation(order: Order, o: WooOrderData): (op: UpdateOrderOperation)
    ensures op.order == order && op.newWooStatus == o.status
    ensures o.savedStatus.Some? ==> op.oldWooStatus == o.savedStatus.value
    ensures o.savedStatus.None? ==> op.oldWooStatus == op.newWooStatus
  {
    UpdateOrderOperation(order, o.status, OldStatus(o))
  }

  /** `tryToCreateOrderInPlatform` for a converted order: reservations, then the orders
      service's create; a Commerce exception from either is reported. */
  function TryCreateEvents(order: Order, storeId: string, env: StoreEnv): seq<StoreEvent> {
    if env.reservationsFail(order) then [CreateReported(GatewayFailure)]
    else
      var run := CreateOrderSpec(storeId, order, env.gw);
      [ReservationsSynced(order), ServiceCreate(order, run.result)]
        + (if run.result.Failure? then [CreateReported(run.result.error)] else [])
  }

  function TryCreateEffects(order: Order, storeId: string, env: StoreEnv): seq<Effect> {
    if env.reservationsFail(order) then [] else CreateOrderSpec(storeId, order, env.gw).effects
  }

  /** `create`. */
  function StoreCreateSpec(o: WooOrderData, storeId: string, env: StoreEnv): StoreStep {
    if !UsesPlatform(env) then
      StoreStep(o.(id := env.newLocalId), [ParentCreate(env.newLocalId)], [])
    else
      var prepared := Prepared(o, env.generatedId);
      var created := prepared.(id := env.newLocalId);
      match env.convert(prepared)
      case None =>
        StoreStep(created, PrepareEvents(o, env.generatedId) + [ConversionReported, ParentCreate(env.newLocalId)], [])
      case Some(order) =>
        StoreStep(created,
          PrepareEvents(o, env.generatedId) + TryCreateEvents(order, storeId, env) + [ParentCreate(env.newLocalId)],
          TryCreateEffects(order, storeId, env))
  }

  /** `tryToUpdateOrderInPlatform`: MissingOrderRemoteId is swallowed, other Commerce errors are
      reported. */
  function TryUpdateEvents(op: UpdateOrderOperation, storeId: string, env: StoreEnv): seq<StoreEvent> {
    var run := UpdateOrderSpec(storeId, op, env.gw);
    [ServiceUpdate(op, run.result)]
      + (if run.result.Failure? && run.result.error != MissingOrderRemoteId then [UpdateReported(run.result.error)] else [])
  }

  /** `update`. */
  function StoreUpdateSpec(o: WooOrderData, storeId: string, env: StoreEnv): StoreStep {
    if !UsesPlatform(env) then
      StoreStep(o, [ParentUpdate(o.id)], [])
    else
      var prepared := Prepared(o, env.generatedId);
      match env.convert(prepared)
      case None =>
        StoreStep(prepared, PrepareEvents(o, env.generatedId) + [ConversionReported, ParentUpdate(o.id)], [])
      case Some(order) =>
        var op := MakeUpdateOrderOperation(order, prepared);
        StoreStep(prepared,
          PrepareEvents(o, env.generatedId) + TryUpdateEvents(op, storeId, env) + [ParentUpdate(o.id)],
          UpdateOrderSpec(storeId, op, env.gw).effects)
  }

  /** A WooCommerce order, updated in place. */
  class WooOrder {
    var id: int
    var cartId: Option<string>
    var status: string
    var savedStatus: Option<string>

    constructor (data: WooOrderData)
      ensures Data() == data
    {
      id, cartId, status, savedStatus := data.id, data.cartId, data.status, data.savedStatus;
    }

    function Data(): WooOrderData
      reads this
    {
      WooOrderData(id, cartId, status, savedStatus)
    }
  }

  /** The order data store, with its events and the orders service it calls. */
  class OrderDataStore {
    const ordersService: OrdersService
    var log: seq<StoreEvent>

    constructor (ordersService: OrdersService)
      ensures this.ordersService == ordersService && log == []
    {
      this.ordersService := ordersService;
      log := [];
    }

    /** `generateCartIdIfNotSet`. */
    method GenerateCartIdIfNotSet(wooOrder: WooOrder, generatedId: string)
      modifies this, wooOrder
      ensures wooOrder.Data() == Prepared(old(wooOrder.Data()), generatedId)
      ensures log == old(log) + PrepareEvents(old(wooOrder.Data()), generatedId)
    {
      if !TruthyOpt(wooOrder.cartId) {
        wooOrder.cartId := Some(generatedId);
        log := log + [CartIdGenerated(generatedId)];
      }
    }

    /** `convertOrderForPlatform`: an AdapterException is reported. */
    method ConvertOrderForPlatform(wooOrder: WooOrder, env: StoreEnv) returns (order: Option<Order>)
      modifies this
      ensures order == env.convert(wooOrder.Data())
      ensures log == old(log) + (if order.None? then [ConversionReported] else [])
    {
      order := env.convert(wooOrder.Data());
      if order.None? {
        log := log + [ConversionReported];
      }
    }

    /** `tryToCreateOrderInPlatform` with `createOrderInPlatform`. */
    method TryToCreateOrderInPlatform(order: Order, env: StoreEnv)
      modifies this, ordersService
      ensures log == old(log) + TryCreateEvents(order, ordersService.storeId, env)
      ensures ordersService.journal == old(ordersService.journal) + TryCreateEffects(order, ordersService.storeId, env)
    {
      if env.reservationsFail(order) {
        log := log + [CreateReported(GatewayFailure)];
        return;
      }
      log := log + [ReservationsSynced(order)];
      var result := ordersService.CreateOrder(order, env.gw);
      log := log + [ServiceCreate(order, result)];
      if result.Failure? {
        log := log + [CreateReported(result.error)];
      }
    }

    /** `create`. */
    method Create(wooOrder: WooOrder, env: StoreEnv)
      modifies this, wooOrder, ordersService
      ensures wooOrder.Data() == StoreCreateSpec(old(wooOrder.Data()), ordersService.storeId, env).order
      ensures log == old(log) + StoreCreateSpec(old(wooOrder.Data()), ordersService.storeId, env).events
      ensures ordersService.journal ==
        old(ordersService.journal) + StoreCreateSpec(old(wooOrder.Data()), ordersService.storeId, env).serviceEffects
    {
      if !UsesPlatform(env) {
        wooOrder.id := env.newLocalId;
        log := log + [ParentCreate(env.newLocalId)];
        return;
      }
      GenerateCartIdIfNotSet(wooOrder, env.generatedId);
      var order := ConvertOrderForPlatform(wooOrder, env);
      if order.Some? {
        TryToCreateOrderInPlatform(order.value, env);
      }
      wooOrder.id := env.newLocalId;
      log := log + [ParentCreate(env.newLocalId)];
    }

    /** `tryToUpdateOrderInPlatform`. */
    method TryToUpdateOrderInPlatform(op: UpdateOrderOperation, env: StoreEnv)
      modifies this, ordersService
      ensures log == old(log) + TryUpdateEvents(op, ordersService.storeId, env)
      ensures ordersService.journal == old(ordersService.journal) + UpdateOrderSpec(ordersService.storeId, op, env.gw).effects
    {
      var result := ordersService.UpdateOrder(op, env.gw);
      log := log + [ServiceUpdate(op, result)];
      if result.Failure? && result.error != MissingOrderRemoteId {
        log := log + [UpdateReported(result.error)];
      }
    }

    /** `update`. */
    method Update(wooOrder: WooOrder, env: StoreEnv)
      modifies this, wooOrder, ordersService
      ensures wooOrder.Data() == StoreUpdateSpec(old(wooOrder.Data()), ordersService.storeId, env).order
      ensures log == old(log) + StoreUpdateSpec(old(wooOrder.Data()), ordersService.storeId, env).events
      ensures ordersService.journal ==
        old(ordersService.journal) + StoreUpdateSpec(old(wooOrder.Data()), ordersService.storeId, env).serviceEffects
    {
      if UsesPlatform(env) {
        GenerateCartIdIfNotSet(wooOrder, env.generatedId);
        var order := ConvertOrderForPlatform(wooOrder, env);
        if order.Some? {
          TryToUpdateOrderInPlatform(MakeUpdateOrderOperation(order.value, wooOrder.Data()), env);
        }
      }
      log := log + [ParentUpdate(wooOrder.id)];
    }
  }

  // ---------------------------------------------------------------------------
  // Properties of the data store

  /** Without a WC_Order or without the write capability, `create` is exactly the parent create
      and `update` exactly the parent update. */
  lemma LocalOnlyWithoutPlatform(o: WooOrderData, storeId: string, env: StoreEnv)
    requires !UsesPlatform(env)
    ensures StoreCreateSpec(o, storeId, env) == StoreStep(o.(id := env.newLocalId), [ParentCreate(env.newLocalId)], [])
    ensures StoreUpdateSpec(o, storeId, env) == StoreStep(o, [ParentUpdate(o.id)], [])
  {
  }

  /** A cart ID is generated only when the order has none, and an existing one is kept; once an
      order has a non-empty cart ID, preparing it again changes nothing. */
  lemma CartIdGeneratedOnlyWhenMissing(o: WooOrderData, generatedId: string, laterId: string)
    ensures TruthyOpt(o.cartId) ==> Prepared(o, generatedId).cartId == o.cartId && PrepareEvents(o, generatedId) == []
    ensures !TruthyOpt(o.cartId) ==> Prepared(o, generatedId).cartId == Some(generatedId)
    ensures Truthy(generatedId) ==>
      Prepared(Prepared(o, generatedId), laterId) == Prepared(o, generatedId)
      && PrepareEvents(Prepared(o, generatedId), laterId) == []
  {
  }

  /** On the platform path of `create`, the local parent create comes last: every remote step
      and every report precedes it, and it happens whatever the platform did. The order handed
      to the orders service is converted before the order has its new local ID. */
  lemma CreateRemoteBeforeLocal(o: WooOrderData, storeId: string, env: StoreEnv)
    requires UsesPlatform(env)
    ensures var s := StoreCreateSpec(o, storeId, env);
      && s.events[|s.events| - 1] == ParentCreate(env.newLocalId)
      && (forall i :: 0 <= i < |s.events| - 1 ==> !s.events[i].ParentCreate?)
      && s.order.id == env.newLocalId
      && (env.convert(Prepared(o, env.generatedId)).Some? && !env.reservationsFail(env.convert(Prepared(o, env.generatedId)).value) ==>
            ServiceCreate(env.convert(Prepared(o, env.generatedId)).value,
                          CreateOrderSpec(storeId, env.convert(Prepared(o, env.generatedId)).value, env.gw).result) in s.events)
  {
  }

  /** A failed conversion means no reservation and no remote create, but the local create still
      happens; a Commerce failure on the remote create is reported. */
  lemma CreateFailuresIsolated(o: WooOrderData, storeId: string, env: StoreEnv)
    requires UsesPlatform(env)
    ensures var s := StoreCreateSpec(o, storeId, env);
      env.convert(Prepared(o, env.generatedId)).None? ==>
        && s.serviceEffects == []
        && ConversionReported in s.events
        && (forall e :: e in s.events ==> !e.ServiceCreate? && !e.ReservationsSynced?)
    ensures var s := StoreCreateSpec(o, storeId, env);
      forall i :: 0 <= i < |s.events| && s.events[i].ServiceCreate? && s.events[i].result.Failure? ==>
        i + 1 < |s.events| && s.events[i + 1] == CreateReported(s.events[i].result.error)
  {
    var s := StoreCreateSpec(o, storeId, env);
    var prepared := Prepared(o, env.generatedId);
    if env.convert(prepared).Some? {
      var order := env.convert(prepared).value;
      var pre := PrepareEvents(o, env.generatedId);
      var mid := TryCreateEvents(order, storeId, env);
      assert s.events == pre + mid + [ParentCreate(env.newLocalId)];
      forall i | 0 <= i < |s.events| && s.events[i].ServiceCreate? && s.events[i].result.Failure?
        ensures i + 1 < |s.events| && s.events[i + 1] == CreateReported(s.events[i].result.error)
      {
        assert |pre| <= i < |pre| + |mid|;
        assert i == |pre| + 1;
      }
    }
  }

  /** `update` always ends with the parent update. A missing remote ID is not reported; every
      other Commerce failure of the service's update is. */
  lemma UpdateReportsAllButMissingRemoteId(o: WooOrderData, storeId: string, env: StoreEnv)
    ensures var s := StoreUpdateSpec(o, storeId, env);
      && s.events[|s.events| - 1] == ParentUpdate(o.id)
      && (forall e :: e in s.events ==> e != UpdateReported(MissingOrderRemoteId))
    ensures var s := StoreUpdateSpec(o, storeId, env);
      UsesPlatform(env) && env.convert(Prepared(o, env.generatedId)).Some? ==>
        var op := MakeUpdateOrderOperation(env.convert(Prepared(o, env.generatedId)).value, Prepared(o, env.generatedId));
        var result := UpdateOrderSpec(storeId, op, env.gw).result;
        (UpdateReported(GatewayFailure) in s.events <==> result == Failure(GatewayFailure))
  {
  }

  /** An order whose status equals the stored one, or that has no stored status, never causes a
      remote status update. */
  lemma NoStatusUpdateWithoutStatusChange(o: WooOrderData, storeId: string, env: StoreEnv)
    requires o.savedStatus.None? || o.savedStatus == Some(o.status)
    ensures StoreUpdateSpec(o, storeId, env).serviceEffects == []
  {
    if UsesPlatform(env) && env.convert(Prepared(o, env.generatedId)).Some? {
      var op := MakeUpdateOrderOperation(env.convert(Prepared(o, env.generatedId)).value, Prepared(o, env.generatedId));
      NoStatusUpdateWithoutFinalChange(storeId, op, env.gw);
    }
  }
}
