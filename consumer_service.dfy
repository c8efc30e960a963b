/**
 * service/KafkaConsumerService.java: the listener on the ingestion topic.
 * A message is routed by its key (compared case-insensitively) or, when
 * the key is null, by the top-level fields of a map payload; each handler
 * accepts a map (converted through the ObjectMapper) or the typed record
 * and catches whatever goes wrong, and `listen` catches the rest. Logging
 * is the handlers' only effect, so the model returns how a message ends.
 */
module KafkaConsumerService {
  import opened Wrappers
  import opened Data
  import opened Exceptions
  import opened Json
  import Text
  import Mdc
  import Uuid
  import TraceContextUtil

  /** The runtime type of the `@Payload Object message`. */
  datatype Message =
    | MapMessage(obj: JsonObject)
    | InventoryMessage(inventoryData: InventoryData)
    | ProductsMessage(productsData: ProductsData)
    /** Any other class, by its fully qualified name. */
    | OtherMessage(className: string)

  /** The handler a message is routed to. */
  datatype Route = InventoryRoute | ProductRoute | NoRoute

  /** How `listen` ends for one message; every exception is caught somewhere. */
  datatype Outcome =
    /** processInventoryData or processProductsData ran over this many items. */
    | Processed(route: Route, items: nat)
    /** A handler caught this exception and logged it. */
    | HandlerFailed(route: Route, error: Exn)
    /** A non-null key matched neither "inventory" nor "product". */
    | UnknownKey(key: string)
    /** A null key and a map payload with neither an "inventory" nor a "products" field. */
    | Undetermined
    /** A null key and a payload that is not a map: nothing happens. */
    | Ignored
    /** `listen`'s own catch: `message.getClass()` on a null message. */
    | ListenFailed(error: Exn)

  /** `message.getClass()` on a null message throws NullPointerException. */
  const NullMessage: Exn := Exn(NullPointerException, None, None, None, None)

  const InventoryKey: string := "inventory"
  const ProductKey: string := "product"
  const ProductsField: string := "products"

  /** The switch on `messageKey.toLowerCase()`. */
  function KeyRoute(key: string): (r: Route)
    ensures r == InventoryRoute <==> Text.Lower(key) == InventoryKey
    ensures r == ProductRoute <==> Text.Lower(key) == ProductKey
  {
    var k := Text.Lower(key);
    if k == InventoryKey then InventoryRoute
    else if k == ProductKey then ProductRoute
    else NoRoute
  }

  /** handleGenericMessage: the "inventory" field is looked at first. */
  function ContentRoute(message: Message): (r: Route)
    ensures r == InventoryRoute <==> message.MapMessage? && InventoryKey in message.obj.keys
    ensures r == ProductRoute <==> message.MapMessage? && InventoryKey !in message.obj.keys && ProductsField in message.obj.keys
  {
    match message
    case MapMessage(obj) =>
      if InventoryKey in obj.keys then InventoryRoute
      else if ProductsField in obj.keys then ProductRoute
      else NoRoute
    case _ => NoRoute
  }

  /** The handler `listen` runs for a (non-null) message. */
  function RouteOf(key: Option<string>, message: Message): Route {
    match key
    case Some(k) => KeyRoute(k)
    case None => ContentRoute(message)
  }

  /** `"Unexpected message type: " + message.getClass()`. */
  function UnexpectedType(className: string): (e: Exn)
    ensures e.cls == IllegalArgumentException
  {
    Exn(IllegalArgumentException, Some("Unexpected message type: class " + className), None, None, None)
  }

  /** `item.artId()` in the forEach of processInventoryData, on a null element. */
  const NullItem: Exn := NullReceiver(DataPackage + "InventoryItem.artId()", "item")
  /** `product.name()` in the forEach of processProductsData, on a null element. */
  const NullProduct: Exn := NullReceiver(DataPackage + "Product.name()", "product")

  /**
   * processInventoryData: size() of the list, which throws on a null list,
   * then the debug line of each item, whose arguments dereference the item.
   */
  function ProcessInventoryData(data: InventoryData): (r: Result<nat, Exn>)
    ensures r.Success? <==> data.inventory.Some? && forall i :: 0 <= i < |data.inventory.value| ==> data.inventory.value[i].Some?
    ensures r.Success? ==> r.value == |data.inventory.value|
    ensures data.inventory.None? ==> r == Failure(NullListReturnedBy(InventoryAccessor))
    ensures data.inventory.Some? && r.Failure? ==> r == Failure(NullItem)
  {
    match data.inventory
    case None => Failure(NullListReturnedBy(InventoryAccessor))
    case Some(items) =>
      if forall i :: 0 <= i < |items| ==> items[i].Some? then Success(|items|) else Failure(NullItem)
  }

  /** What the debug line of one product throws: `product.name()`, then `product.containArticles().size()`. */
  function ProductFailure(product: Option<Product>): (e: Option<Exn>)
    ensures e.None? <==> product.Some? && product.value.containArticles.Some?
  {
    match product
    case None => Some(NullProduct)
    case Some(p) => if p.containArticles.None? then Some(NullListReturnedBy(ContainArticlesAccessor)) else None
  }

  /** The exception of the first product in the forEach whose debug line throws, if any. */
  function FirstProductFailure(products: seq<Option<Product>>): (e: Option<Exn>)
    ensures e.None? <==> forall i :: 0 <= i < |products| ==> ProductFailure(products[i]).None?
  {
    if products == [] then None
    else if ProductFailure(products[0]).Some? then ProductFailure(products[0])
    else FirstProductFailure(products[1..])
  }

  /** The failure reported is that of a product all of whose predecessors went through. */
  lemma {:induction false} FirstProductFailureIsFirst(products: seq<Option<Product>>)
    requires FirstProductFailure(products).Some?
    ensures exists i :: 0 <= i < |products| && FirstProductFailure(products) == ProductFailure(products[i]) &&
                        (forall j :: 0 <= j < i ==> ProductFailure(products[j]).None?)
  {
    if ProductFailure(products[0]).Some? {
      assert FirstProductFailure(products) == ProductFailure(products[0]);
    } else {
      var rest := products[1..];
      FirstProductFailureIsFirst(rest);
      var k :| 0 <= k < |rest| && FirstProductFailure(rest) == ProductFailure(rest[k]) &&
               (forall j :: 0 <= j < k ==> ProductFailure(rest[j]).None?);
      assert FirstProductFailure(products) == ProductFailure(products[k + 1]);
      assert forall j :: 0 <= j < k + 1 ==> ProductFailure(products[j]).None? by {
        forall j | 0 <= j < k + 1 ensures ProductFailure(products[j]).None? {
          if j > 0 { assert products[j] == rest[j - 1]; }
        }
      }
    }
  }

  /**
   * processProductsData: size() of the list, then, for the debug line of
   * each product, its name and size() of its contain_articles list; the log
   * arguments are evaluated whatever the log level, so a null there throws.
   */
  function ProcessProductsData(data: ProductsData): (r: Result<nat, Exn>)
    ensures r.Success? <==> data.products.Some? && forall i :: 0 <= i < |data.products.value| ==>
      data.products.value[i].Some? && data.products.value[i].value.containArticles.Some?
    ensures r.Success? ==> r.value == |data.products.value|
    ensures data.products.None? ==> r == Failure(NullListReturnedBy(ProductsAccessor))
    ensures data.products.Some? && r.Failure? ==> Some(r.error) == FirstProductFailure(data.products.value)
  {
    match data.products
    case None => Failure(NullListReturnedBy(ProductsAccessor))
    case Some(products) =>
      match FirstProductFailure(products)
      case None => Success(|products|)
      case Some(e) => Failure(e)
  }

  /** Every failure of the forEach in processProductsData is a NullPointerException from one of its two dereferences. */
  lemma ProductFailureKinds(products: seq<Option<Product>>)
    requires FirstProductFailure(products).Some?
    ensures FirstProductFailure(products) == Some(NullProduct) ||
      FirstProductFailure(products) == Some(NullListReturnedBy(ContainArticlesAccessor))
  {
  }

  /** handleInventoryMessage: its try covers the conversion, the cast and the processing. */
  function HandleInventoryMessage(mapper: ObjectMapper, message: Message): (r: Result<nat, Exn>)
    ensures message.OtherMessage? ==> r == Failure(UnexpectedType(message.className))
    ensures message.InventoryMessage? ==> r == ProcessInventoryData(message.inventoryData)
    ensures message.ProductsMessage? ==> r.Failure? && r.error.cls == IllegalArgumentException
  {
    match message
    case MapMessage(obj) =>
      (match mapper.convertInventory(obj)
       case Success(data) => ProcessInventoryData(data)
       case Failure(e) => Failure(e))
    case InventoryMessage(data) => ProcessInventoryData(data)
    case ProductsMessage(_) => Failure(UnexpectedType("com.ikea.warehouse_data_ingestion_service.data.ProductsData"))
    case OtherMessage(className) => Failure(UnexpectedType(className))
  }

  /** handleProductMessage, the same shape for ProductsData. */
  function HandleProductMessage(mapper: ObjectMapper, message: Message): (r: Result<nat, Exn>)
    ensures message.OtherMessage? ==> r == Failure(UnexpectedType(message.className))
    ensures message.ProductsMessage? ==> r == ProcessProductsData(message.productsData)
    ensures message.InventoryMessage? ==> r.Failure? && r.error.cls == IllegalArgumentException
  {
    match message
    case MapMessage(obj) =>
      (match mapper.convertProducts(obj)
       case Success(data) => ProcessProductsData(data)
       case Failure(e) => Failure(e))
    case ProductsMessage(data) => ProcessProductsData(data)
    case InventoryMessage(_) => Failure(UnexpectedType("com.ikea.warehouse_data_ingestion_service.data.InventoryData"))
    case OtherMessage(className) => Failure(UnexpectedType(className))
  }

  function RunHandler(mapper: ObjectMapper, route: Route, message: Message): (o: Outcome)
    requires route != NoRoute
    ensures o.Processed? || o.HandlerFailed?
    ensures o.route == route
  {
    var r := if route == InventoryRoute then HandleInventoryMessage(mapper, message)
             else HandleProductMessage(mapper, message);
    match r
    case Success(n) => Processed(route, n)
    case Failure(e) => HandlerFailed(route, e)
  }

  /** `listen(message, messageKey)` after the trace id has been looked up. */
  function Dispatch(mapper: ObjectMapper, message: Option<Message>, key: Option<string>): (o: Outcome)
    ensures o.ListenFailed? <==> message.None?
  {
    match message
    case None => ListenFailed(NullMessage)
    case Some(m) =>
      var route := RouteOf(key, m);
      if route != NoRoute then RunHandler(mapper, route, m)
      else match key
        case Some(k) => UnknownKey(k)
        case None => if m.MapMessage? then Undetermined else Ignored
  }

  // ---------------------------------------------------------------------------
  // What the dispatch promises

  /** A key routes to a handler exactly when it is "inventory" or "product" up to case. */
  lemma KeyDispatch(mapper: ObjectMapper, m: Message, k: string)
    ensures Dispatch(mapper, Some(m), Some(k)).Processed? || Dispatch(mapper, Some(m), Some(k)).HandlerFailed?
      <==> Text.Lower(k) == InventoryKey || Text.Lower(k) == ProductKey
    ensures Text.Lower(k) == InventoryKey ==> Dispatch(mapper, Some(m), Some(k)).route == InventoryRoute
    ensures Text.Lower(k) == ProductKey ==> Dispatch(mapper, Some(m), Some(k)).route == ProductRoute
    ensures Text.Lower(k) != InventoryKey && Text.Lower(k) != ProductKey ==>
      Dispatch(mapper, Some(m), Some(k)) == UnknownKey(k)
  {
  }

  /** Upper-casing a key changes nothing about where it goes. */
  lemma KeyDispatchIgnoresCase(mapper: ObjectMapper, m: Message, k: string)
    ensures RouteOf(Some(Text.Upper(k)), m) == RouteOf(Some(k), m)
    ensures RouteOf(Some(k), m) != NoRoute ==>
      Dispatch(mapper, Some(m), Some(Text.Upper(k))) == Dispatch(mapper, Some(m), Some(k))
  {
    Text.LowerOfUpper(k);
  }

  /** Without a key, the "inventory" field wins over "products", which wins over nothing. */
  lemma ContentDispatch(mapper: ObjectMapper, obj: JsonObject)
    ensures InventoryKey in obj.keys ==>
      Dispatch(mapper, Some(MapMessage(obj)), None) == RunHandler(mapper, InventoryRoute, MapMessage(obj))
    ensures InventoryKey !in obj.keys && ProductsField in obj.keys ==>
      Dispatch(mapper, Some(MapMessage(obj)), None) == RunHandler(mapper, ProductRoute, MapMessage(obj))
    ensures InventoryKey !in obj.keys && ProductsField !in obj.keys ==>
      Dispatch(mapper, Some(MapMessage(obj)), None) == Undetermined
  {
  }

  /** Without a key, a payload that is not a map runs no handler, even the typed records. */
  lemma TypedRecordWithoutKeyIgnored(mapper: ObjectMapper, m: Message)
    requires !m.MapMessage?
    ensures Dispatch(mapper, Some(m), None) == Ignored
  {
  }

  /** The key "product" and the field "products" differ: each spelling works in one place only. */
  lemma ProductSpellings(mapper: ObjectMapper, m: Message, obj: JsonObject)
    requires InventoryKey !in obj.keys
    ensures Dispatch(mapper, Some(m), Some(ProductsField)) == UnknownKey(ProductsField)
    ensures ProductsField in obj.keys ==> Dispatch(mapper, Some(MapMessage(obj)), None).route == ProductRoute
    ensures ProductsField !in obj.keys && ProductKey in obj.keys ==>
      Dispatch(mapper, Some(MapMessage(obj)), None) == Undetermined
  {
    assert Text.Lower(ProductsField) == ProductsField;
  }

  /** A payload of another class on a matching key is rejected inside the handler, not by `listen`. */
  lemma OtherClassRejectedByHandler(mapper: ObjectMapper, className: string, key: Option<string>)
    requires RouteOf(key, OtherMessage(className)) != NoRoute
    ensures Dispatch(mapper, Some(OtherMessage(className)), key) ==
      HandlerFailed(RouteOf(key, OtherMessage(className)), UnexpectedType(className))
  {
  }

  /** A null message is `listen`'s own failure, whatever the key. */
  lemma NullMessageCaughtByListen(mapper: ObjectMapper, key: Option<string>)
    ensures Dispatch(mapper, None, key).ListenFailed?
    ensures Dispatch(mapper, None, key).error.cls == NullPointerException
  {
  }

  class KafkaConsumerService {
    const objectMapper: ObjectMapper
    /** The MDC of the listener thread, where TraceContext.getCurrentTraceId looks. */
    const mdc: Mdc.MappedDiagnosticContext

    constructor (objectMapper: ObjectMapper, mdc: Mdc.MappedDiagnosticContext)
      ensures this.objectMapper == objectMapper && this.mdc == mdc
    {
      this.objectMapper := objectMapper;
      this.mdc := mdc;
    }

    /**
     * `listen`: never throws; the trace id it looks up (generating and
     * storing one if the MDC has none) is used only in log lines.
     */
    method Listen(message: Option<Message>, messageKey: Option<string>, uuid: Uuid.Uuid) returns (outcome: Outcome)
      modifies mdc
      ensures outcome == Dispatch(objectMapper, message, messageKey)
      ensures mdc.entries == Mdc.CurrentTraceId(old(mdc.entries), Uuid.GenerateTraceId(uuid)).0
    {
      var traceId := TraceContextUtil.GetCurrentTraceId(mdc, uuid);
      outcome := Dispatch(objectMapper, message, messageKey);
    }
  }
}
