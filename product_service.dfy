/**
 * service/ProductService.java: decode an uploaded products file and publish
 * it. There is no emptiness check; every failure, a null file included,
 * surfaces as a FileProcessingException wrapping the cause.
 */
module ProductService {
  import opened Wrappers
  import opened Data
  import opened Exceptions
  import opened Json
  import KafkaProducerService

  const FailedToProcessProductsFile: string := "Failed to process products file"

  /**
   * The exception `proceedFile` throws, if any. `fault` is what the publish
   * step throws (`sendProductData` is not defined by KafkaProducerService).
   */
  function ProceedFileError(mapper: ObjectMapper, file: Option<Upload>, fault: Option<Exn>): (thrown: Option<Exn>)
    ensures thrown.Some? ==> (thrown.value.cls == FileProcessingException &&
      thrown.value.message == Some(FailedToProcessProductsFile) && thrown.value.cause.Some?)
  {
    match InputStream(file)
    case Failure(e) => Some(FileProcessingCausedBy(FailedToProcessProductsFile, e))
    case Success(content) =>
      match mapper.readProducts(content)
      case Failure(e) => Some(FileProcessingCausedBy(FailedToProcessProductsFile, e))
      case Success(_) =>
        if fault.Some? then Some(FileProcessingCausedBy(FailedToProcessProductsFile, fault.value)) else None
  }

  /** A null file fails inside the `try`, so it too is wrapped, around a NullPointerException. */
  lemma NullFileWrapped(mapper: ObjectMapper, fault: Option<Exn>)
    ensures ProceedFileError(mapper, None, fault).Some?
    ensures ProceedFileError(mapper, None, fault).value.cause.value.cls == NullPointerException
  {
  }

  /** The call succeeds exactly when the file decodes and the publish goes through. */
  lemma SucceedsIff(mapper: ObjectMapper, file: Option<Upload>, fault: Option<Exn>)
    ensures ProceedFileError(mapper, file, fault).None? <==>
      file.Some? && mapper.readProducts(file.value.content).Success? && fault.None?
  {
  }

  class ProductService {
    const objectMapper: ObjectMapper
    const kafkaProducerService: KafkaProducerService.KafkaProducerService

    constructor (objectMapper: ObjectMapper, kafkaProducerService: KafkaProducerService.KafkaProducerService)
      ensures this.objectMapper == objectMapper && this.kafkaProducerService == kafkaProducerService
    {
      this.objectMapper := objectMapper;
      this.kafkaProducerService := kafkaProducerService;
    }

    /** `publishProductData`: one publish of the record, through the undefined `sendProductData`. */
    method PublishProductData(productsData: ProductsData, fault: Option<Exn>) returns (thrown: Option<Exn>)
      modifies kafkaProducerService`published
      ensures thrown == fault
      ensures kafkaProducerService.published == old(kafkaProducerService.published) +
        (if fault.None? then [ProductsPayload(productsData)] else [])
    {
      thrown := kafkaProducerService.Publish(ProductsPayload(productsData), fault);
    }

    method ProceedFile(file: Option<Upload>, fault: Option<Exn>) returns (thrown: Option<Exn>)
      modifies kafkaProducerService`published
      ensures thrown == ProceedFileError(objectMapper, file, fault)
      ensures thrown.None? ==> (kafkaProducerService.published ==
        old(kafkaProducerService.published) + [ProductsPayload(objectMapper.readProducts(file.value.content).value)])
      ensures thrown.Some? ==> kafkaProducerService.published == old(kafkaProducerService.published)
    {
      var stream := InputStream(file);
      if stream.Failure? {
        return Some(FileProcessingCausedBy(FailedToProcessProductsFile, stream.error));
      }
      var decoded := objectMapper.readProducts(stream.value);
      if decoded.Failure? {
        return Some(FileProcessingCausedBy(FailedToProcessProductsFile, decoded.error));
      }
      var published := PublishProductData(decoded.value, fault);
      if published.Some? {
        return Some(FileProcessingCausedBy(FailedToProcessProductsFile, published.value));
      }
      return None;
    }
  }
}
