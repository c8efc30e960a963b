/**
 * controller/ProductController.java: the two products endpoints. They
 * throw instead of answering 400, so their rejections reach the global
 * exception handler; there are no metrics and no trace-id lookup.
 */
module ProductController {
  import opened Wrappers
  import opened Data
  import opened Exceptions
  import opened Json
  import opened Http
  import ErrorMessages
  import Text
  import KafkaProducerService
  import GlobalExceptionHandler

  const UploadedPrefix: string := "Products uploaded successfully. "
  const ReceivedPrefix: string := "Products data processed successfully. "

  function UploadedText(n: nat): string {
    UploadedPrefix + Text.NatToString(n) + " products processed."
  }

  function ReceivedText(n: nat): string {
    ReceivedPrefix + Text.NatToString(n) + " products received."
  }

  /** `uploadProducts`: the response or the exception; `fault` is what the undefined `sendProductData` throws. */
  function UploadProductsResult(mapper: ObjectMapper, file: Upload, fault: Option<Exn>): Result<Response<string>, Exn> {
    if file.IsEmpty() then Failure(FileProcessing(ErrorMessages.FileEmpty))
    else match mapper.readProducts(file.content)
      case Failure(e) => Failure(e)
      case Success(data) =>
        match data.products
        case None => Failure(NullListReturnedBy(ProductsAccessor))
        case Some(products) => if fault.Some? then Failure(fault.value) else Success(Response(Ok, UploadedText(|products|)))
  }

  /** `uploadProductsData`: only a null body or a null list is rejected. */
  function UploadProductsDataResult(productsData: Option<ProductsData>, fault: Option<Exn>): Result<Response<string>, Exn> {
    if productsData.None? || productsData.value.products.None? then Failure(FileProcessing(ErrorMessages.InvalidProductsData))
    else if fault.Some? then Failure(fault.value)
    else Success(Response(Ok, ReceivedText(|productsData.value.products.value|)))
  }

  /** An empty upload is thrown before decoding and answered 400 "File is empty" by the exception handler. */
  lemma EmptyUploadAnswer(m1: ObjectMapper, m2: ObjectMapper, file: Upload, fault: Option<Exn>, uri: Option<string>)
    requires file.IsEmpty()
    ensures UploadProductsResult(m1, file, fault) == UploadProductsResult(m2, file, fault)
    ensures UploadProductsResult(m1, file, fault).Failure?
    ensures GlobalExceptionHandler.Handle(UploadProductsResult(m1, file, fault).error, uri) ==
      GlobalExceptionHandler.HandlerResponse(BadRequest, GlobalExceptionHandler.ErrorResponse(None, Some(ErrorMessages.FileEmpty), BadRequest, uri))
  {
    GlobalExceptionHandler.FileProcessingRow(UploadProductsResult(m1, file, fault).error, uri);
  }

  /** Null data is answered 400 "Invalid products data provided" by the exception handler. */
  lemma InvalidDataAnswer(productsData: Option<ProductsData>, fault: Option<Exn>, uri: Option<string>)
    requires productsData.None? || productsData.value.products.None?
    ensures UploadProductsDataResult(productsData, fault).Failure?
    ensures GlobalExceptionHandler.Handle(UploadProductsDataResult(productsData, fault).error, uri) ==
      GlobalExceptionHandler.HandlerResponse(BadRequest, GlobalExceptionHandler.ErrorResponse(None, Some(ErrorMessages.InvalidProductsData), BadRequest, uri))
  {
    GlobalExceptionHandler.FileProcessingRow(UploadProductsDataResult(productsData, fault).error, uri);
  }

  /** The count in a success message is the list's length, written in decimal. */
  lemma ReportedCount(n: nat)
    ensures var t := UploadedText(n); var d := Text.NatToString(n);
      t[|UploadedPrefix|..|UploadedPrefix| + |d|] == d && Text.DigitsValue(d) == n
    ensures var t := ReceivedText(n); var d := Text.NatToString(n);
      t[|ReceivedPrefix|..|ReceivedPrefix| + |d|] == d && Text.DigitsValue(d) == n
  {
    Text.DigitsValueOfNatToString(n);
  }

  /**
   * Any list is accepted, the empty one and one holding nulls included (the
   * endpoint checks neither), and the answer reports its length in decimal.
   */
  lemma AnyListAccepted(products: seq<Option<Product>>)
    ensures var r := UploadProductsDataResult(Some(ProductsData(Some(products))), None);
      var d := Text.NatToString(|products|);
      r.Success? && r.value.status == Ok && r.value.body[..|ReceivedPrefix|] == ReceivedPrefix &&
      r.value.body[|ReceivedPrefix|..|ReceivedPrefix| + |d|] == d && Text.DigitsValue(d) == |products|
  {
    ReportedCount(|products|);
  }

  class ProductController {
    const objectMapper: ObjectMapper
    const kafkaProducerService: KafkaProducerService.KafkaProducerService

    constructor (objectMapper: ObjectMapper, kafkaProducerService: KafkaProducerService.KafkaProducerService)
      ensures this.objectMapper == objectMapper && this.kafkaProducerService == kafkaProducerService
    {
      this.objectMapper := objectMapper;
      this.kafkaProducerService := kafkaProducerService;
    }

    method UploadProducts(file: Upload, fault: Option<Exn>) returns (r: Result<Response<string>, Exn>)
      modifies kafkaProducerService`published
      ensures r == UploadProductsResult(objectMapper, file, fault)
      ensures r.Success? ==> (kafkaProducerService.published ==
        old(kafkaProducerService.published) + [ProductsPayload(objectMapper.readProducts(file.content).value)])
      ensures r.Failure? ==> kafkaProducerService.published == old(kafkaProducerService.published)
    {
      if file.IsEmpty() {
        return Failure(FileProcessing(ErrorMessages.FileEmpty));
      }
      var decoded := objectMapper.readProducts(file.content);
      if decoded.Failure? {
        return Failure(decoded.error);
      }
      var productsData := decoded.value;
      if productsData.products.None? {
        return Failure(NullListReturnedBy(ProductsAccessor));
      }
      var thrown := kafkaProducerService.Publish(ProductsPayload(productsData), fault);
      if thrown.Some? {
        return Failure(thrown.value);
      }
      return Success(Response(Ok, UploadedText(|productsData.products.value|)));
    }

    method UploadProductsData(productsData: Option<ProductsData>, fault: Option<Exn>) returns (r: Result<Response<string>, Exn>)
      modifies kafkaProducerService`published
      ensures r == UploadProductsDataResult(productsData, fault)
      ensures r.Success? ==> (kafkaProducerService.published ==
        old(kafkaProducerService.published) + [ProductsPayload(productsData.value)])
      ensures r.Failure? ==> kafkaProducerService.published == old(kafkaProducerService.published)
    {
      if productsData.None? || productsData.value.products.None? {
        return Failure(FileProcessing(ErrorMessages.InvalidProductsData));
      }
      var thrown := kafkaProducerService.Publish(ProductsPayload(productsData.value), fault);
      if thrown.Some? {
        return Failure(thrown.value);
      }
      return Success(Response(Ok, ReceivedText(|productsData.value.products.value|)));
    }
  }
}
