# Commerce sync core of mwc-core, modelled in Dafny

This project models the Commerce-sync layer of GoDaddy's Managed WooCommerce core (mwc-core). It also models a few decision procedures of the hosting system plugin. The model covers:

- **Resource association builder** (`ResourceAssociation`): resolves a batch of remote DTOs to local IDs. It reuses mapping rows or inserts local records, and isolates per-item failures.
- **List-remote-resources service** (`ListRemoteResources`): turns local-ID filters into remote-ID filters, never runs an unscoped query, and reads through the cache.
- **Product data-store CRUD trait** (`ProductCrud`):
  - `slug-id` SKU generation, and collisions resolved with `-1`, `-2`, …
  - the capability and status gate on platform writes;
  - the order of local and remote steps.
- **Variant list job** (`VariantsJob`): deduplicates and chunks the IDs, defaults the chunk size, and makes one list call per chunk.
- **Orders service** (`CommerceOrders`) and **order data store** (`OrderPersistence`): order create and update sequencing, the status-update gate and error classification.
- **Inventory interceptor** (`InventoryInterceptor`): the stock-quantity overlay and the one-shot admin notice.
- **Adapters**:
  - `InventoryAdapter`: WooCommerce stock settings to a Commerce Inventory;
  - `ExternalIdsAdapter`: GTIN/MPN to external IDs;
  - `ProductAttributes`: product attributes in both directions, with round-trip lemmas.
- **Host REST routes** (`HostRestApi`):
  - the origin gate and the per-endpoint memo of signature checks;
  - the XML-RPC toggle;
  - the CDN flush-status poll;
  - the activity-log `number` argument.
- **GoDaddy Payments admin notices** (`PaymentNotices`): the ID-keyed registry, the render predicate, and the page and shipping-zone predicates.

`Php` holds the PHP semantics the models rely on:

- `Option` and `Result`;
- truthiness, where `""` and `"0"` are falsy;
- ASCII `strtolower`;
- integer-to-string conversion and back;
- `array_unique`, `array_chunk` and flattening.

`ResourceMap` models the resource-map table as a sequence of rows.

Outside collaborators become parameters:

- the insert service, the caching helper and the Commerce gateways become arrow-typed functions or `Result` values;
- WooCommerce and WordPress predicates and options become values or functions;
- `wp_remote_request` becomes a function from request to response.

Sentry reports and remote calls become events appended to a log. Code that updates objects in place is modelled as classes. Their methods are proved equal to a pure specification function on the old state, and the lemmas state the source's promises about those functions.

## Model

| member | source | states |
|---|---|---|
| ResourceMap.RowsWithCommerceIdIn | wp-content/mu-plugins/vendor/godaddy/mwc-core/src/Features/Commerce/DataSources/WooCommerce/Builders/AbstractResourceAssociationBuilder.php:110-123 | the rows looked up by remote ID are exactly the table rows whose commerce ID is among the requested IDs, in table order |
| ResourceMap.RowsWithLocalIdIn | wp-content/mu-plugins/vendor/godaddy/mwc-core/src/Features/Commerce/Services/AbstractListRemoteResourcesService.php:117-121 | the rows looked up by local ID are exactly the table rows whose local ID is among the requested IDs |
| ResourceMap.CommerceIds | wp-content/mu-plugins/vendor/godaddy/mwc-core/src/Features/Commerce/Services/AbstractListRemoteResourcesService.php:117-121 | one commerce ID per row, position by position |
| ResourceAssociation.TruthyRemoteIds | wp-content/mu-plugins/vendor/godaddy/mwc-core/src/Features/Commerce/DataSources/WooCommerce/Builders/AbstractResourceAssociationBuilder.php:47 | only truthy remote IDs are looked up, every truthy remote ID of the batch is looked up, and the list is empty exactly when no resource has a truthy remote ID |
| ResourceAssociation.FirstMatchingRow | wp-content/mu-plugins/vendor/godaddy/mwc-core/src/Features/Commerce/DataSources/WooCommerce/Builders/AbstractResourceAssociationBuilder.php:148-157 | the row found is a table row whose commerce ID strictly equals the resource's remote ID; when none is found no row matches |
| ResourceAssociation.Build | wp-content/mu-plugins/vendor/godaddy/mwc-core/src/Features/Commerce/DataSources/WooCommerce/Builders/AbstractResourceAssociationBuilder.php:45-75 | the built associations, insert calls and failures are those of the per-resource specification, and the table is queried exactly when some resource has a truthy remote ID |
| ResourceAssociation.ResourcesOf | wp-content/mu-plugins/vendor/godaddy/mwc-core/src/Features/Commerce/DataSources/WooCommerce/Builders/AbstractResourceAssociationBuilder.php:56-73 | the remote resources of the associations, one per association, in order |
| ResourceAssociation.AssociationsAreSubsequence | wp-content/mu-plugins/vendor/godaddy/mwc-core/src/Features/Commerce/DataSources/WooCommerce/Builders/AbstractResourceAssociationBuilder.php:56-73 | the associated resources are the input resources with some left out, in their original order, and there are never more associations than resources |
| ResourceAssociation.AssociationsHaveLocalIds | wp-content/mu-plugins/vendor/godaddy/mwc-core/src/Features/Commerce/DataSources/WooCommerce/Builders/AbstractResourceAssociationBuilder.php:56-73 | no association carries the local ID 0 |
| ResourceAssociation.AssociationsAppend | wp-content/mu-plugins/vendor/godaddy/mwc-core/src/Features/Commerce/DataSources/WooCommerce/Builders/AbstractResourceAssociationBuilder.php:56-73 | each resource is processed on its own: associations and failures of a concatenated batch are those of the parts, concatenated |
| ResourceAssociation.MappedResourceIsReused | wp-content/mu-plugins/vendor/godaddy/mwc-core/src/Features/Commerce/DataSources/WooCommerce/Builders/AbstractResourceAssociationBuilder.php:137-160 | a resource whose first matching row has a non-zero local ID is associated with that ID and never reaches the insert service |
| ResourceAssociation.ZeroLocalIdIsUnmapped | wp-content/mu-plugins/vendor/godaddy/mwc-core/src/Features/Commerce/DataSources/WooCommerce/Builders/AbstractResourceAssociationBuilder.php:148-157 | a matching row with local ID 0 counts as unmapped: the resource is inserted exactly when the policy says so, else left out |
| ResourceAssociation.InsertCallsAreUnmapped | wp-content/mu-plugins/vendor/godaddy/mwc-core/src/Features/Commerce/DataSources/WooCommerce/Builders/AbstractResourceAssociationBuilder.php:110-123 | only unmapped resources the policy accepts reach the insert service, and only those can fail |
| ResourceAssociation.UnidentifiedResourceIsNeverMapped | wp-content/mu-plugins/vendor/godaddy/mwc-core/src/Features/Commerce/DataSources/WooCommerce/Builders/AbstractResourceAssociationBuilder.php:47 | a resource without a truthy remote ID never finds a mapped local ID |
| ResourceAssociation.DefaultPolicyInsertsUnmapped | wp-content/mu-plugins/vendor/godaddy/mwc-core/src/Features/Commerce/DataSources/WooCommerce/Builders/AbstractResourceAssociationBuilder.php:170-173 | with the base-class policy every unmapped resource is handed to the insert service |
| ListRemoteResources.ConvertLocalIdsToRemoteIds | wp-content/mu-plugins/vendor/godaddy/mwc-core/src/Features/Commerce/Services/AbstractListRemoteResourcesService.php:107-129 | with local IDs, the filter becomes the non-empty strings of the old filter and the mapped commerce IDs, deduplicated, and the result is false exactly when no such string exists; without local IDs nothing changes; the local IDs are untouched |
| ListRemoteResources.List | wp-content/mu-plugins/vendor/godaddy/mwc-core/src/Features/Commerce/Services/AbstractListRemoteResourcesService.php:56-75 | the result, the cache reads and writes, the query, the build and the final filter are those of the list specification on the initial filters, including the caching-failure outcomes |
| ListRemoteResources.NoLocalIdsLeavesFilterAlone | wp-content/mu-plugins/vendor/godaddy/mwc-core/src/Features/Commerce/Services/AbstractListRemoteResourcesService.php:109 | without local IDs the remote-ID filter is left as it was and the missing-remote-IDs failure cannot occur |
| ListRemoteResources.ConvertedFilterIsDedupedUnion | wp-content/mu-plugins/vendor/godaddy/mwc-core/src/Features/Commerce/Services/AbstractListRemoteResourcesService.php:117-127 | the converted filter contains exactly the non-empty IDs of the old filter and of the mapped commerce IDs, each once |
| ListRemoteResources.MissingRemoteIdsExactly | wp-content/mu-plugins/vendor/godaddy/mwc-core/src/Features/Commerce/Services/AbstractListRemoteResourcesService.php:117-125 | the conversion fails exactly when local IDs were given and the old filter and the mapping yield no non-empty remote ID; a rejected lookup yields no IDs |
| ListRemoteResources.EmptyStringFilterIsMissing | wp-content/mu-plugins/vendor/godaddy/mwc-core/src/Features/Commerce/Services/AbstractListRemoteResourcesService.php:117-125 | with local IDs that map to nothing, a filter holding only the empty string fails the conversion |
| ListRemoteResources.FailedConversionDoesNothingElse | wp-content/mu-plugins/vendor/godaddy/mwc-core/src/Features/Commerce/Services/AbstractListRemoteResourcesService.php:58-63 | a failed conversion stops the listing before the cache, the query and the builder |
| ListRemoteResources.NoUnscopedQueryFromLocalIds | wp-content/mu-plugins/vendor/godaddy/mwc-core/src/Features/Commerce/Services/AbstractListRemoteResourcesService.php:58-72 | when local IDs were given, any cache read or query runs with a non-empty remote-ID filter that holds no empty string |
| ListRemoteResources.CacheReadOnlyWhenCacheable | wp-content/mu-plugins/vendor/godaddy/mwc-core/src/Features/Commerce/Services/AbstractListRemoteResourcesService.php:64-66 | the cache is read only for an operation the caching helper calls cacheable, and always for one after a successful conversion |
| ListRemoteResources.FullyCachedServedFromCache | wp-content/mu-plugins/vendor/godaddy/mwc-core/src/Features/Commerce/Services/AbstractListRemoteResourcesService.php:64-66 | a fully cached operation runs no query and writes nothing, and its result is built from the cached resources |
| ListRemoteResources.CachingFailureStopsBeforeBuild | wp-content/mu-plugins/vendor/godaddy/mwc-core/src/Features/Commerce/Services/AbstractListRemoteResourcesService.php:56-74 | a CachingStrategyException from a cache read ends the listing with no query, write or build; the caching failure happens exactly on a failed read or a failed write, and never with a build |
| ListRemoteResources.LiveResultWrittenAndBuilt | wp-content/mu-plugins/vendor/godaddy/mwc-core/src/Features/Commerce/Services/AbstractListRemoteResourcesService.php:68-74 | when the query runs and answers, exactly its resources are written to the cache; they are built when the write succeeds, and a failed write ends with the caching failure and no build; a failed query ends with no write and no build |
| ListRemoteResources.ResultIsBuilderOutput | wp-content/mu-plugins/vendor/godaddy/mwc-core/src/Features/Commerce/Services/AbstractListRemoteResourcesService.php:74 | every successful result is the association builder's output |
| ProductCrud.GenerateProductSku | wp-content/mu-plugins/vendor/godaddy/mwc-core/src/Features/Commerce/Catalog/DataStores/Traits/HasProductPlatformDataStoreCrudTrait.php:159-165 | the generated SKU is the slug, a dash, and the decimal ID that reads back as the ID |
| ProductCrud.CandidateShape | wp-content/mu-plugins/vendor/godaddy/mwc-core/src/Features/Commerce/Catalog/DataStores/Traits/HasProductPlatformDataStoreCrudTrait.php:176-187 | the n-th retried SKU is the original SKU, a dash and the decimal n |
| ProductCrud.CandidatesDistinct | wp-content/mu-plugins/vendor/godaddy/mwc-core/src/Features/Commerce/Catalog/DataStores/Traits/HasProductPlatformDataStoreCrudTrait.php:176-187 | different attempts try different SKUs, so the search never repeats itself |
| ProductCrud.FirstUniqueFrom | wp-content/mu-plugins/vendor/godaddy/mwc-core/src/Features/Commerce/Catalog/DataStores/Traits/HasProductPlatformDataStoreCrudTrait.php:176-187 | the attempt found is unique and every earlier attempt from the start point was not |
| ProductCrud.LeastUniqueSuffix | wp-content/mu-plugins/vendor/godaddy/mwc-core/src/Features/Commerce/Catalog/DataStores/Traits/HasProductPlatformDataStoreCrudTrait.php:176-187 | the attempt the search stops at is unique and every earlier one is not |
| ProductCrud.EnsureUniqueSku | wp-content/mu-plugins/vendor/godaddy/mwc-core/src/Features/Commerce/Catalog/DataStores/Traits/HasProductPlatformDataStoreCrudTrait.php:176-187 | the loop returns the least unique candidate SKU, which the uniqueness test accepts |
| ProductCrud.UniqueSkuIsKept | wp-content/mu-plugins/vendor/godaddy/mwc-core/src/Features/Commerce/Catalog/DataStores/Traits/HasProductPlatformDataStoreCrudTrait.php:176-187 | a SKU that is already unique is kept without a suffix |
| ProductCrud.Product.SetSku | wp-content/mu-plugins/vendor/godaddy/mwc-core/src/Features/Commerce/Catalog/DataStores/Traits/HasProductPlatformDataStoreCrudTrait.php:134-149 | setting the SKU stores it and marks a pending change exactly when it differs |
| ProductCrud.ProductDataStore.CreateOrUpdateProductInPlatform | wp-content/mu-plugins/vendor/godaddy/mwc-core/src/Features/Commerce/Catalog/DataStores/Traits/HasProductPlatformDataStoreCrudTrait.php:30-44 | the events are those of the platform-write specification: a remote write only when the capability and status gate allows it |
| ProductCrud.ProductDataStore.TransformProduct | wp-content/mu-plugins/vendor/godaddy/mwc-core/src/Features/Commerce/Catalog/DataStores/Traits/HasProductPlatformDataStoreCrudTrait.php:134-149 | the product and events are those of the transform specification on the old product |
| ProductCrud.ProductDataStore.Create | wp-content/mu-plugins/vendor/godaddy/mwc-core/src/Features/Commerce/Catalog/DataStores/Traits/HasProductPlatformDataStoreCrudTrait.php:74-82 | the product and events are those of the create specification on the old product |
| ProductCrud.ProductDataStore.Update | wp-content/mu-plugins/vendor/godaddy/mwc-core/src/Features/Commerce/Catalog/DataStores/Traits/HasProductPlatformDataStoreCrudTrait.php:103-112 | the product and events are those of the update specification on the old product |
| ProductCrud.PlatformWriteGate | wp-content/mu-plugins/vendor/godaddy/mwc-core/src/Features/Commerce/Catalog/DataStores/Traits/HasProductPlatformDataStoreCrudTrait.php:52-66 | a remote write is attempted exactly when the write capability is present and the status gate allows it |
| ProductCrud.TransformOutcome | wp-content/mu-plugins/vendor/godaddy/mwc-core/src/Features/Commerce/Catalog/DataStores/Traits/HasProductPlatformDataStoreCrudTrait.php:134-149 | the transform keeps status, slug and ID and sets a SKU the uniqueness test accepts |
| ProductCrud.TransformKeepsUniqueSku | wp-content/mu-plugins/vendor/godaddy/mwc-core/src/Features/Commerce/Catalog/DataStores/Traits/HasProductPlatformDataStoreCrudTrait.php:134-149 | a set, already unique SKU is kept with no pending change and no events |
| ProductCrud.TransformSkuSource | wp-content/mu-plugins/vendor/godaddy/mwc-core/src/Features/Commerce/Catalog/DataStores/Traits/HasProductPlatformDataStoreCrudTrait.php:134-149 | an empty SKU is replaced by a suffix of the generated slug-ID SKU; a set SKU only gets a suffix |
| ProductCrud.CreateOrder | wp-content/mu-plugins/vendor/godaddy/mwc-core/src/Features/Commerce/Catalog/DataStores/Traits/HasProductPlatformDataStoreCrudTrait.php:74-82 | the local create comes first and the product is written to the platform under its new local ID |
| ProductCrud.UpdateOrder | wp-content/mu-plugins/vendor/godaddy/mwc-core/src/Features/Commerce/Catalog/DataStores/Traits/HasProductPlatformDataStoreCrudTrait.php:103-112 | the local update comes last and the platform is written only when changes are pending |
| VariantsJob.MaxPerRequestOrDefault | wp-content/mu-plugins/vendor/godaddy/mwc-core/src/Features/Commerce/Catalog/Interceptors/Handlers/ListRemoteVariantsJobHandler.php:110-119 | the maximum is positive: the argument when it is a positive integer, else the default |
| VariantsJob.GetChunkedIds | wp-content/mu-plugins/vendor/godaddy/mwc-core/src/Features/Commerce/Catalog/Interceptors/Handlers/ListRemoteVariantsJobHandler.php:127-130 | the chunks put back together are the deduplicated IDs; no chunk is empty or larger than the maximum, all but the last are full, and there are no chunks exactly when there are no IDs |
| VariantsJob.FailingChunks | wp-content/mu-plugins/vendor/godaddy/mwc-core/src/Features/Commerce/Catalog/Interceptors/Handlers/ListRemoteVariantsJobHandler.php:75-90 | exactly the chunks whose call throws |
| VariantsJob.OneCallPerChunk | wp-content/mu-plugins/vendor/godaddy/mwc-core/src/Features/Commerce/Catalog/Interceptors/Handlers/ListRemoteVariantsJobHandler.php:75-90 | one listing call per chunk, in chunk order, and one failure report per failing chunk |
| VariantsJob.ProcessVariantsCoversIds | wp-content/mu-plugins/vendor/godaddy/mwc-core/src/Features/Commerce/Catalog/Interceptors/Handlers/ListRemoteVariantsJobHandler.php:75-90 | the IDs of all calls put together are the deduplicated input IDs, so each ID is requested exactly once |
| VariantsJob.ScheduleOnlyWithVariants | wp-content/mu-plugins/vendor/godaddy/mwc-core/src/Features/Commerce/Catalog/Interceptors/Handlers/ListRemoteVariantsJobHandler.php:41-64 | no job is scheduled exactly when no listed product has a variant; otherwise the job's IDs are all the variant IDs |
| VariantsJob.ListRemoteVariantsJobHandler.ProcessVariants | wp-content/mu-plugins/vendor/godaddy/mwc-core/src/Features/Commerce/Catalog/Interceptors/Handlers/ListRemoteVariantsJobHandler.php:75-90 | the events are the processing events over the chunked IDs |
| VariantsJob.ListRemoteVariantsJobHandler.Run | wp-content/mu-plugins/vendor/godaddy/mwc-core/src/Features/Commerce/Catalog/Interceptors/Handlers/ListRemoteVariantsJobHandler.php:95-103 | the first padded argument gives the IDs and the second the maximum, with the default when it is not a positive integer |
| VariantsJob.RunFallsBackToDefault | wp-content/mu-plugins/vendor/godaddy/mwc-core/src/Features/Commerce/Catalog/Interceptors/Handlers/ListRemoteVariantsJobHandler.php:26 | with no second argument, or one that is not a positive integer, the default maximum is used |
| CommerceOrders.StatusValuesDistinct | wp-content/mu-plugins/vendor/godaddy/mwc-core/src/Features/Commerce/Orders/Providers/DataObjects/Enums/Status.php:11-15 | distinct order statuses have distinct string values |
| CommerceOrders.OrdersService.ConvertOrderToDataObject | wp-content/mu-plugins/vendor/godaddy/mwc-core/src/Features/Commerce/Orders/Services/OrdersService.php:91-97 | the shared adapter's remote ID is always overwritten, with the empty string when none is given |
| CommerceOrders.OrdersService.CreateOrder | wp-content/mu-plugins/vendor/godaddy/mwc-core/src/Features/Commerce/Orders/Services/OrdersService.php:48-60 | the result and the remote effects are those of the create specification, and the adapter is left with no remote ID |
| CommerceOrders.OrdersService.GetRemoteIdForUpdate | wp-content/mu-plugins/vendor/godaddy/mwc-core/src/Features/Commerce/Orders/Services/OrdersService.php:133-140 | succeeds exactly when the mapped remote ID is truthy, returning it; fails with MissingOrderRemoteId otherwise |
| CommerceOrders.OrdersService.UpdateOrder | wp-content/mu-plugins/vendor/godaddy/mwc-core/src/Features/Commerce/Orders/Services/OrdersService.php:102-109 | the result and the remote effects are those of the update specification |
| CommerceOrders.CreateOrderMapsReturnedId | wp-content/mu-plugins/vendor/godaddy/mwc-core/src/Features/Commerce/Orders/Services/OrdersService.php:48-60 | a create succeeds exactly when the returned remote ID is truthy; then the order mapping and then the item mappings are saved with it; otherwise it fails (MissingOrderRemoteId for an empty ID) and saves no mapping |
| CommerceOrders.CreateRequestHasNoRemoteId | wp-content/mu-plugins/vendor/godaddy/mwc-core/src/Features/Commerce/Orders/Services/OrdersService.php:72-78 | the create request carries the store ID and an empty remote ID |
| CommerceOrders.UpdateWithoutRemoteIdFailsFirst | wp-content/mu-plugins/vendor/godaddy/mwc-core/src/Features/Commerce/Orders/Services/OrdersService.php:117-140 | without a mapped remote ID the update fails with MissingOrderRemoteId before any remote call |
| CommerceOrders.StatusUpdateSentExactly | wp-content/mu-plugins/vendor/godaddy/mwc-core/src/Features/Commerce/Orders/Services/OrdersService.php:102-109 | a status update is sent exactly when the order has a mapped remote ID, its WooCommerce status changed and its Commerce status is COMPLETED or CANCELED; the request carries the mapped remote ID |
| CommerceOrders.NoStatusUpdateWithoutFinalChange | wp-content/mu-plugins/vendor/godaddy/mwc-core/src/Features/Commerce/Orders/Services/OrdersService.php:150-161 | an unchanged WooCommerce status or an OPEN order never produces a status update |
| OrderPersistence.Prepared | wp-content/mu-plugins/vendor/godaddy/mwc-core/src/Features/Commerce/Orders/WooCommerce/OrderDataStore.php:160-167 | an existing truthy cart ID is kept; otherwise the generated one is set |
| OrderPersistence.MakeUpdateOrderOperation | wp-content/mu-plugins/vendor/godaddy/mwc-core/src/Features/Commerce/Orders/WooCommerce/OrderDataStore.php:247-253 | the operation carries the order, its current status as the new one and the stored status (else the current one) as the old one |
| OrderPersistence.OrderDataStore.GenerateCartIdIfNotSet | wp-content/mu-plugins/vendor/godaddy/mwc-core/src/Features/Commerce/Orders/WooCommerce/OrderDataStore.php:160-167 | the order and events are those of the cart-ID preparation |
| OrderPersistence.OrderDataStore.ConvertOrderForPlatform | wp-content/mu-plugins/vendor/godaddy/mwc-core/src/Features/Commerce/Orders/WooCommerce/OrderDataStore.php:143-152 | returns the adapter's conversion and reports exactly when it fails |
| OrderPersistence.OrderDataStore.TryToCreateOrderInPlatform | wp-content/mu-plugins/vendor/godaddy/mwc-core/src/Features/Commerce/Orders/WooCommerce/OrderDataStore.php:109-130 | the events and service effects are those of the create attempt: reservations, then the remote create, with Commerce failures reported |
| OrderPersistence.OrderDataStore.Create | wp-content/mu-plugins/vendor/godaddy/mwc-core/src/Features/Commerce/Orders/WooCommerce/OrderDataStore.php:52-59 | the order, events and service effects are those of the create specification |
| OrderPersistence.OrderDataStore.TryToUpdateOrderInPlatform | wp-content/mu-plugins/vendor/godaddy/mwc-core/src/Features/Commerce/Orders/WooCommerce/OrderDataStore.php:226-238 | the events and service effects are those of the update attempt, with every failure but MissingOrderRemoteId reported |
| OrderPersistence.OrderDataStore.Update | wp-content/mu-plugins/vendor/godaddy/mwc-core/src/Features/Commerce/Orders/WooCommerce/OrderDataStore.php:196-203 | the order, events and service effects are those of the update specification |
| OrderPersistence.LocalOnlyWithoutPlatform | wp-content/mu-plugins/vendor/godaddy/mwc-core/src/Features/Commerce/Orders/WooCommerce/OrderDataStore.php:68-71 | without a WC_Order or the write capability, create and update are exactly the parent's |
| OrderPersistence.CartIdGeneratedOnlyWhenMissing | wp-content/mu-plugins/vendor/godaddy/mwc-core/src/Features/Commerce/Orders/WooCommerce/OrderDataStore.php:160-167 | a cart ID is generated only when missing, an existing one is kept, and preparing twice changes nothing more |
| OrderPersistence.CreateRemoteBeforeLocal | wp-content/mu-plugins/vendor/godaddy/mwc-core/src/Features/Commerce/Orders/WooCommerce/OrderDataStore.php:88-104 | the parent create comes last whatever the platform did, and a converted order is sent to the orders service |
| OrderPersistence.CreateFailuresIsolated | wp-content/mu-plugins/vendor/godaddy/mwc-core/src/Features/Commerce/Orders/WooCommerce/OrderDataStore.php:109-119 | a failed conversion means no reservation and no remote create; a failed remote create is reported right after it |
| OrderPersistence.UpdateReportsAllButMissingRemoteId | wp-content/mu-plugins/vendor/godaddy/mwc-core/src/Features/Commerce/Orders/WooCommerce/OrderDataStore.php:226-238 | update ends with the parent update; a missing remote ID is never reported and a gateway failure is reported exactly when it happens |
| OrderPersistence.NoStatusUpdateWithoutStatusChange | wp-content/mu-plugins/vendor/godaddy/mwc-core/src/Features/Commerce/Orders/WooCommerce/OrderDataStore.php:176-179 | an order whose status equals the stored one, or has none stored, causes no remote status update |
| InventoryInterceptor.FirstMatchIndex | wp-content/mu-plugins/vendor/godaddy/mwc-core/src/Features/Commerce/Inventory/Interceptors/ProductDataStoreInterceptor.php:101-106 | the index of the first summary about the remote product, or the length when none is |
| InventoryInterceptor.MaybeFilterStockQuantity | wp-content/mu-plugins/vendor/godaddy/mwc-core/src/Features/Commerce/Inventory/Interceptors/ProductDataStoreInterceptor.php:79-112 | the loop answers the filter specification: the quantity and the failure report |
| InventoryInterceptor.FirstMatchIsUnique | wp-content/mu-plugins/vendor/godaddy/mwc-core/src/Features/Commerce/Inventory/Interceptors/ProductDataStoreInterceptor.php:101-106 | the first match is the only index with no match before it |
| InventoryInterceptor.QuantityKeptWhenNotApplicable | wp-content/mu-plugins/vendor/godaddy/mwc-core/src/Features/Commerce/Inventory/Interceptors/ProductDataStoreInterceptor.php:81-93 | non-products, products not managing stock, a missing read capability or no remote ID keep the quantity without a report |
| InventoryInterceptor.QuantityFromFirstMatchingSummary | wp-content/mu-plugins/vendor/godaddy/mwc-core/src/Features/Commerce/Inventory/Interceptors/ProductDataStoreInterceptor.php:101-106 | the quantity is the first matching summary's total available |
| InventoryInterceptor.LaterSummariesIgnored | wp-content/mu-plugins/vendor/godaddy/mwc-core/src/Features/Commerce/Inventory/Interceptors/ProductDataStoreInterceptor.php:101-106 | summaries after a match never change the result |
| InventoryInterceptor.SummariesFailureReported | wp-content/mu-plugins/vendor/godaddy/mwc-core/src/Features/Commerce/Inventory/Interceptors/ProductDataStoreInterceptor.php:107-109 | a summaries failure keeps the quantity and is reported for the local product |
| InventoryInterceptor.NoMatchKeepsQuantity | wp-content/mu-plugins/vendor/godaddy/mwc-core/src/Features/Commerce/Inventory/Interceptors/ProductDataStoreInterceptor.php:101-106 | without a matching summary the quantity is kept and nothing is reported |
| InventoryInterceptor.AdminInitOnce | wp-content/mu-plugins/vendor/godaddy/mwc-core/src/Features/Commerce/Inventory/Interceptors/ProductDataStoreInterceptor.php:119-128 | the admin hook enqueues the failure notice once, clears the flag, and a second run does nothing more |
| InventoryInterceptor.InventoryNotices.OnAdminInit | wp-content/mu-plugins/vendor/godaddy/mwc-core/src/Features/Commerce/Inventory/Interceptors/ProductDataStoreInterceptor.php:119-128 | the new notice state is the admin-hook specification of the old |
| InventoryAdapter.ConvertToSourceNullExactly | wp-content/mu-plugins/vendor/godaddy/mwc-core/src/Features/Commerce/Catalog/Providers/DataSources/Adapters/InventoryAdapter.php:25-27 | a null product gives null and any product gives an inventory |
| InventoryAdapter.BackorderableIsTracked | wp-content/mu-plugins/vendor/godaddy/mwc-core/src/Features/Commerce/Catalog/Providers/DataSources/Adapters/InventoryAdapter.php:31-47 | backorderable exactly when backorders are allowed or the product is on backorder, and then tracked |
| InventoryAdapter.UnmanagedOutOfStockIsTrackedAtZero | wp-content/mu-plugins/vendor/godaddy/mwc-core/src/Features/Commerce/Catalog/Providers/DataSources/Adapters/InventoryAdapter.php:42-47 | an unmanaged product that is out of stock or on backorder is sent as tracked with quantity zero, not by the external service |
| InventoryAdapter.ManagedStockIsPassedThrough | wp-content/mu-plugins/vendor/godaddy/mwc-core/src/Features/Commerce/Catalog/Providers/DataSources/Adapters/InventoryAdapter.php:42-47 | a stock-managed product is tracked by the external service with its own current stock |
| InventoryAdapter.UntrackedExactly | wp-content/mu-plugins/vendor/godaddy/mwc-core/src/Features/Commerce/Catalog/Providers/DataSources/Adapters/InventoryAdapter.php:42-47 | tracking is off exactly for an unmanaged, in-stock product that does not allow backorders |
| ExternalIdsAdapter.ConvertToSource | wp-content/mu-plugins/vendor/godaddy/mwc-core/src/Features/Commerce/Catalog/Providers/DataSources/Adapters/ExternalIdsAdapter.php:23-46 | at most a GTIN then an MPN entry; each present exactly when its value is truthy, with the value unchanged; none for a null product |
| ExternalIdsAdapter.FalsyGtinDropped | wp-content/mu-plugins/vendor/godaddy/mwc-core/src/Features/Commerce/Catalog/Providers/DataSources/Adapters/ExternalIdsAdapter.php:31-36 | a GTIN of "0" or "" is dropped like a missing one |
| ProductAttributes.ValuesFromSource | wp-content/mu-plugins/vendor/godaddy/mwc-core/vendor/godaddy/mwc-common/src/DataSources/WooCommerce/Adapters/Product/Attribute/AttributeAdapter.php:67-83 | one native value per option |
| ProductAttributes.AttributeAdapter.ConvertFromSource | wp-content/mu-plugins/vendor/godaddy/mwc-core/vendor/godaddy/mwc-common/src/DataSources/WooCommerce/Adapters/Product/Attribute/AttributeAdapter.php:38-59 | the native attribute is the conversion of the held attribute |
| ProductAttributes.AttributeAdapter.ConvertAttributeValuesFromSource | wp-content/mu-plugins/vendor/godaddy/mwc-core/vendor/godaddy/mwc-common/src/DataSources/WooCommerce/Adapters/Product/Attribute/AttributeAdapter.php:67-83 | the loop builds the per-option values of the conversion |
| ProductAttributes.AttributeAdapter.ConvertToSource | wp-content/mu-plugins/vendor/godaddy/mwc-core/vendor/godaddy/mwc-common/src/DataSources/WooCommerce/Adapters/Product/Attribute/AttributeAdapter.php:93-106 | a null native attribute changes nothing and gives null; otherwise the held attribute is rewritten from it and returned |
| ProductAttributes.AttributeAdapter.ConvertAttributeValuesToSource | wp-content/mu-plugins/vendor/godaddy/mwc-core/vendor/godaddy/mwc-common/src/DataSources/WooCommerce/Adapters/Product/Attribute/AttributeAdapter.php:114-127 | the loop builds the options of the write-back specification |
| ProductAttributes.FromSourceNaming | wp-content/mu-plugins/vendor/godaddy/mwc-core/vendor/godaddy/mwc-common/src/DataSources/WooCommerce/Adapters/Product/Attribute/AttributeAdapter.php:38-59 | the read name is lower-case and the label is the taxonomy's label or the original name |
| ProductAttributes.TaxonomyOptionsAreTermIds | wp-content/mu-plugins/vendor/godaddy/mwc-core/vendor/godaddy/mwc-common/src/DataSources/WooCommerce/Adapters/Product/Attribute/AttributeAdapter.php:119-120 | writing back a taxonomy attribute gives only non-zero term IDs, at most one per value |
| ProductAttributes.CustomOptionsAreLabels | wp-content/mu-plugins/vendor/godaddy/mwc-core/vendor/godaddy/mwc-common/src/DataSources/WooCommerce/Adapters/Product/Attribute/AttributeAdapter.php:121-123 | writing back a custom attribute gives one option per value, its label |
| ProductAttributes.CustomValuesRoundTrip | wp-content/mu-plugins/vendor/godaddy/mwc-core/vendor/godaddy/mwc-common/src/DataSources/WooCommerce/Adapters/Product/Attribute/AttributeAdapter.php:74-77 | custom text options survive reading and writing back |
| ProductAttributes.TermIdsRoundTrip | wp-content/mu-plugins/vendor/godaddy/mwc-core/vendor/godaddy/mwc-common/src/DataSources/WooCommerce/Adapters/Product/Attribute/AttributeAdapter.php:72 | non-zero term IDs survive reading and writing back |
| ProductAttributes.TermIdsKeptIsWriteBack | wp-content/mu-plugins/vendor/godaddy/mwc-core/vendor/godaddy/mwc-common/src/DataSources/WooCommerce/Adapters/Product/Attribute/AttributeAdapter.php:67-127 | reading a taxonomy attribute's options and writing them back keeps, option by option, the non-zero integer value of its lower-cased text |
| ProductAttributes.ZeroOptionDropped | wp-content/mu-plugins/vendor/godaddy/mwc-core/vendor/godaddy/mwc-common/src/DataSources/WooCommerce/Adapters/Product/Attribute/AttributeAdapter.php:119-120 | an option whose lower-cased text reads as 0 contributes nothing to the written-back options |
| ProductAttributes.TermIdRoundTrip | wp-content/mu-plugins/vendor/godaddy/mwc-core/vendor/godaddy/mwc-common/src/DataSources/WooCommerce/Adapters/Product/Attribute/AttributeAdapter.php:119-123 | a single non-zero term ID is read as its decimal ID and written back as the same term ID |
| ProductAttributes.CustomAttributeRoundTrip | wp-content/mu-plugins/vendor/godaddy/mwc-core/vendor/godaddy/mwc-common/src/DataSources/WooCommerce/Adapters/Product/Attribute/AttributeAdapter.php:38-106 | a custom attribute with a lower-case name and text options is written back exactly as it was read |
| ProductAttributes.TaxonomyAttributeRoundTrip | wp-content/mu-plugins/vendor/godaddy/mwc-core/vendor/godaddy/mwc-common/src/DataSources/WooCommerce/Adapters/Product/Attribute/AttributeAdapter.php:38-106 | a taxonomy attribute with a lower-case name and non-zero term IDs is written back exactly as it was read |
| ProductAttributes.TextTermDropped | wp-content/mu-plugins/vendor/godaddy/mwc-core/vendor/godaddy/mwc-common/src/DataSources/WooCommerce/Adapters/Product/Attribute/AttributeAdapter.php:67-127 | on a taxonomy attribute, any option at any position whose lower-cased text reads as 0 is lost on write-back: the result equals that of the options without it and is shorter than the options |
| HostRestApi.HeaderOrEmpty | wp-content/mu-plugins/gd-system-plugin/includes/class-rest-api.php:113-116 | a missing header reads as the empty string, else its first value |
| HostRestApi.ValidateSignature | wp-content/mu-plugins/gd-system-plugin/includes/class-rest-api.php:70-89 | the answer is never null; it grants exactly when the validated entry is present and neither false nor null, and is then that entry unchanged |
| HostRestApi.RestApi.CheckPermission | wp-content/mu-plugins/gd-system-plugin/includes/class-rest-api.php:107-124 | the answer, memo and validator calls are those of the permission specification on the old memo; nothing else changes |
| HostRestApi.RestApi.ToggleXmlrpc | wp-content/mu-plugins/gd-system-plugin/includes/class-rest-api.php:141-151 | the stored option becomes the toggled value and nothing else changes |
| HostRestApi.RestApi.FlushCacheCdnStatus | wp-content/mu-plugins/gd-system-plugin/includes/class-rest-api.php:165-209 | the answer, stored invalidation ID and CDN requests are those of the status specification |
| HostRestApi.MissingHeadersAreEmpty | wp-content/mu-plugins/gd-system-plugin/includes/class-rest-api.php:113-116 | a request without headers sends four empty strings to the validator |
| HostRestApi.OriginMismatchDenied | wp-content/mu-plugins/gd-system-plugin/includes/class-rest-api.php:118-120 | a request from another origin is denied without asking the validator |
| HostRestApi.MemoAnswersWithoutCheck | wp-content/mu-plugins/gd-system-plugin/includes/class-rest-api.php:108-110 | a remembered outcome is returned without asking the validator |
| HostRestApi.OnlyValidatedOutcomesRemembered | wp-content/mu-plugins/gd-system-plugin/includes/class-rest-api.php:107-124 | the validator is asked exactly when nothing is set for the endpoint and the origin matches; then its non-null answer is remembered, and no other endpoint's entry changes |
| HostRestApi.SecondCheckRepeatsFirst | wp-content/mu-plugins/gd-system-plugin/includes/class-rest-api.php:107-124 | after a validated check, the next check of the same endpoint gives the same answer without a new call |
| HostRestApi.AllowedMeansValidated | wp-content/mu-plugins/gd-system-plugin/includes/class-rest-api.php:107-124 | the request is let through exactly when the memo holds a granting answer, or, with nothing remembered, the origin matches and the validator's entry is present and neither false nor null |
| HostRestApi.ToggleFlips | wp-content/mu-plugins/gd-system-plugin/includes/class-rest-api.php:143-150 | the toggle flips whether XML-RPC reads as enabled and stores enabled or disabled |
| HostRestApi.NoInvalidationIdIsNotFound | wp-content/mu-plugins/gd-system-plugin/includes/class-rest-api.php:165-209 | without a stored invalidation ID the answer is 404 and the CDN is not asked |
| HostRestApi.FlushStatusOutcomes | wp-content/mu-plugins/gd-system-plugin/includes/class-rest-api.php:165-209 | a missing status reads as PENDING; the ID is cleared exactly on no response, SUCCESS or FAILED; 200 exactly on no response, SUCCESS or PENDING, else 400 |
| HostRestApi.PollingStopsAfterFinalStatus | wp-content/mu-plugins/gd-system-plugin/includes/class-rest-api.php:165-209 | after a final status the next poll answers 404 without asking the CDN |
| HostRestApi.ActivityLogLimit | wp-content/mu-plugins/gd-system-plugin/includes/class-rest-api.php:371-377 | any accepted limit lies between 1 and 1000, and the default is 100 |
| HostRestApi.ValidNumberExactly | wp-content/mu-plugins/gd-system-plugin/includes/class-rest-api.php:371-377 | an integer's decimal form is accepted exactly when it lies between 1 and 1000, and is then the limit |
| PaymentNotices.RenderedNotices | wp-content/mu-plugins/vendor/godaddy/mwc-core/src/WooCommerce/Payments/GoDaddyPayments/Frontend/Admin/Notices.php:76-89 | only registered notices are rendered, and none without a current user |
| PaymentNotices.Notices.RegisterNotice | wp-content/mu-plugins/vendor/godaddy/mwc-core/src/WooCommerce/Payments/GoDaddyPayments/Frontend/Admin/Notices.php:134-141 | the registry afterwards is the registration of the data into the old one |
| PaymentNotices.Notices.ZoneMethodEnabled | wp-content/mu-plugins/vendor/godaddy/mwc-core/src/WooCommerce/Payments/GoDaddyPayments/Frontend/Admin/Notices.php:426-460 | the loop answers whether the first shipping zone has the method |
| PaymentNotices.Notices.RegisterNotices | wp-content/mu-plugins/vendor/godaddy/mwc-core/src/WooCommerce/Payments/GoDaddyPayments/Frontend/Admin/Notices.php:150-161 | the registry afterwards is the registration specification of the old one |
| PaymentNotices.Notices.RegisterGooglePayNotices | wp-content/mu-plugins/vendor/godaddy/mwc-core/src/WooCommerce/Payments/GoDaddyPayments/Frontend/Admin/Notices.php:251-299 | the registry afterwards is the Google Pay registration of the old one |
| PaymentNotices.Notices.RegisterGdpRecommendationNotices | wp-content/mu-plugins/vendor/godaddy/mwc-core/src/WooCommerce/Payments/GoDaddyPayments/Frontend/Admin/Notices.php:204-224 | the registry afterwards is the recommendation registration of the old one |
| PaymentNotices.Notices.MaybeRegisterConnectedAccountNotice | wp-content/mu-plugins/vendor/godaddy/mwc-core/src/WooCommerce/Payments/GoDaddyPayments/Frontend/Admin/Notices.php:306-326 | the registry afterwards is the connected-account registration of the old one |
| PaymentNotices.EmptyIdIgnored | wp-content/mu-plugins/vendor/godaddy/mwc-core/src/WooCommerce/Payments/GoDaddyPayments/Frontend/Admin/Notices.php:134-141 | data with an empty, "0" or missing ID is ignored |
| PaymentNotices.RegisterReplacesOnlyItsEntry | wp-content/mu-plugins/vendor/godaddy/mwc-core/src/WooCommerce/Payments/GoDaddyPayments/Frontend/Admin/Notices.php:134-141 | registering stores the data under its ID and leaves every other entry alone |
| PaymentNotices.RenderExactly | wp-content/mu-plugins/vendor/godaddy/mwc-core/src/WooCommerce/Payments/GoDaddyPayments/Frontend/Admin/Notices.php:98-103 | a notice is shown exactly when it is explicitly not dismissible or the user did not dismiss it |
| PaymentNotices.RenderedNoticesExactly | wp-content/mu-plugins/vendor/godaddy/mwc-core/src/WooCommerce/Payments/GoDaddyPayments/Frontend/Admin/Notices.php:76-127 | a registered non-dismissible notice with a message is rendered; a dismissed dismissible one is not |
| PaymentNotices.ConnectionNoticePages | wp-content/mu-plugins/vendor/godaddy/mwc-core/src/WooCommerce/Payments/GoDaddyPayments/Frontend/Admin/Notices.php:339-358 | the connection notices show exactly on the listed WooCommerce settings pages |
| PaymentNotices.RecommendationConditions | wp-content/mu-plugins/vendor/godaddy/mwc-core/src/WooCommerce/Payments/GoDaddyPayments/Frontend/Admin/Notices.php:232-244 | the recommendation is registered exactly under its listed conditions |
| PaymentNotices.OnlyFirstZoneCounts | wp-content/mu-plugins/vendor/godaddy/mwc-core/src/WooCommerce/Payments/GoDaddyPayments/Frontend/Admin/Notices.php:426-439 | only the first shipping zone's methods count, and no zone means not enabled |
| PaymentNotices.WorldpayRegistersNothing | wp-content/mu-plugins/vendor/godaddy/mwc-core/src/WooCommerce/Payments/GoDaddyPayments/Frontend/Admin/Notices.php:150-161 | with Worldpay loading nothing is registered |
| PaymentNotices.RegistrationTouchesOnlyKnownNotices | wp-content/mu-plugins/vendor/godaddy/mwc-core/src/WooCommerce/Payments/GoDaddyPayments/Frontend/Admin/Notices.php:33-39 | registration only adds or replaces the five known notices |
| PaymentNotices.NoticesOnlyUnderTheirConditions | wp-content/mu-plugins/vendor/godaddy/mwc-core/src/WooCommerce/Payments/GoDaddyPayments/Frontend/Admin/Notices.php:204-326 | the recommendation notice is only (re-)registered when its conditions hold, and the connection notice only for an account connected automatically by default |

## Left out

- Network, database and host calls are not executed. This covers `wp_remote_request`, the Commerce gateways and providers, `$wpdb`, WordPress hooks and route registration, options and transients. Each appears only as an abstract result passed in as a parameter.
- Sentry reporting appears only as a "reported" event in a log. HTML rendering, escaping and translation are not modelled. A notice's message is reduced to whether it has one, and render order is not modelled.
- Concurrency is not modelled: duplicate-insert races on the resource map and the cache's lack of single-flight protection are out of scope. The model is single-threaded.
- Quantities (`totalAvailable`, `Inventory.quantity`) are floats in the source. They are an opaque type parameter in `InventoryInterceptor` and `real` in `InventoryAdapter`, with the integer 0 written as `0.0`. No arithmetic is done on them.
- `TypeHelper::int` and `intval` on strings are modelled only for canonical decimal strings; any other string reads as 0. Mapping rows hold `local_id` already converted to an integer.
- `is_numeric` is modelled only on integer strings (an optional minus sign, then digits). Fractional and exponent forms are left out.
- HostRestApi.ActivityLogLimit: an invalid `number` argument makes the route refuse the request, and that refusal is WordPress argument validation, which is not part of this model. The function returns None there.
- HostRestApi: a header is compared with PHP's loose `!=`. It is modelled as string inequality, which agrees for the string values headers carry.
- The REST routes' `is_administrator` permission callbacks are not modelled, and neither are the routes `dismiss_note`, `backup`, the diagnostics callback, `feature_flag` and the activity-log query. None of them has logic beyond host calls.
- ProductAttributes: WooCommerce's `WC_Product_Attribute` is not part of this model. Its `get_taxonomy()` is modelled by WooCommerce's own definition: the attribute name when the ID is positive, else the empty string. `Taxonomy::get` is a parameter.
- `convertFromSource` of `InventoryAdapter` and of `ExternalIdsAdapter` does nothing in the source, and the model has nothing to state about it.
- OrdersService: the mapping saves and `processCreatedOrder` are assumed to succeed and appear as effects. The reservations sync is a parameter saying whether it throws.
- ProductCrud: read and delete pass straight through to the parent data store and add no behaviour.
- ProductCrud.EnsureUniqueSku requires that some candidate SKU is unique. Without that the source's loop does not terminate, and that case is not modelled.
- ResourceAssociation: the insert service's effect of creating local records appears only as its returned local ID or failure.
- VariantsJob: `scheduleIfHasVariants` is modelled by what it hands to the scheduler. The job scheduler and the interceptor that runs the job are not part of this model.
- VariantsJob: the shape of the job's arguments between scheduling and running is out of scope. `scheduleIfHasVariants` passes the flat list of variant IDs to `setArguments` (ListRemoteVariantsJobHandler.php line 58), and `run` reads its first argument as the whole list (line 97). Whether these agree depends on how the scheduler spreads the stored arguments, and the scheduler is not part of this model.
- ListRemoteResources: `TypeHelper` is not part of this model. `TypeHelper::arrayOfStrings($ids, false)` is modelled as dropping the empty strings and keeping the order. IDs are strings in the model, so the dropping of non-string entries is not modelled.
- ListRemoteResources.List: a `CachingStrategyException` is a failure outcome of the read or the write. Exceptions from the builder or the query other than the modelled query failure are not modelled.
- ResourceAssociation: the subclass hooks `shouldInsertLocalResource`, the insert service and `makeResourceAssociation` are modelled as total, deterministic functions. The catch at AbstractResourceAssociationBuilder.php line 68 would also catch exceptions thrown by overrides of these hooks; only the insert failure outcome is modelled.
- HostRestApi.ValidateSignature: the decoded body is reduced to its `validated` entry. Arrays and objects are one JSON value, since only the false-or-null test looks at them.
- The rest of the repository is not modelled: GraphQL mutation text, the container wrapper, the Composer autoloader, integration and provider wiring, interfaces, the summaries caching service and the smart-update plumbing.
