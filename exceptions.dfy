/**
 * Java exceptions as values: the class (with its place in the class
 * hierarchy that Spring's handler lookup walks), the message, and the cause.
 */
module Exceptions {
  import opened Wrappers

  /** The exception classes the core throws or handles. */
  datatype ExnClass =
    | Exception
    | RuntimeException
    | IOException
    | JsonProcessingException
    | HttpMediaTypeNotSupportedException
    | MultipartException
    | MaxUploadSizeExceededException
    | FileProcessingException
    | IllegalArgumentException
    | NumberFormatException
    | MethodArgumentNotValidException
    | KafkaProduceFailedException
    | NullPointerException

  /**
   * The nearest superclass that matters for handler lookup (classes in
   * between that no handler names are skipped).
   */
  function Parent(c: ExnClass): (p: Option<ExnClass>)
    ensures p.None? <==> c == Exception
  {
    match c
    case Exception => None
    case RuntimeException => Some(Exception)
    case IOException => Some(Exception)
    case JsonProcessingException => Some(IOException)
    case HttpMediaTypeNotSupportedException => Some(Exception)
    case MultipartException => Some(RuntimeException)
    case MaxUploadSizeExceededException => Some(MultipartException)
    case FileProcessingException => Some(RuntimeException)
    case IllegalArgumentException => Some(RuntimeException)
    case NumberFormatException => Some(IllegalArgumentException)
    case MethodArgumentNotValidException => Some(Exception)
    case KafkaProduceFailedException => Some(RuntimeException)
    case NullPointerException => Some(RuntimeException)
  }

  /** Distance from java.lang.Exception. */
  function Depth(c: ExnClass): nat {
    match c
    case Exception => 0
    case RuntimeException => 1
    case IOException => 1
    case HttpMediaTypeNotSupportedException => 1
    case MethodArgumentNotValidException => 1
    case JsonProcessingException => 2
    case MultipartException => 2
    case FileProcessingException => 2
    case IllegalArgumentException => 2
    case KafkaProduceFailedException => 2
    case NullPointerException => 2
    case MaxUploadSizeExceededException => 3
    case NumberFormatException => 3
  }

  /** Walking up the chain gets closer to Exception. */
  lemma ParentCloser(c: ExnClass)
    ensures Parent(c).Some? ==> Depth(Parent(c).value) < Depth(c)
  {
  }

  /** `c` is `a` or a subclass of `a`. */
  predicate SubclassOf(c: ExnClass, a: ExnClass)
    decreases Depth(c)
  {
    c == a || (Parent(c).Some? && (ParentCloser(c); SubclassOf(Parent(c).value, a)))
  }

  /** Every exception class is an Exception. */
  lemma {:induction false} EverythingIsException(c: ExnClass)
    ensures SubclassOf(c, Exception)
    decreases Depth(c)
  {
    if c != Exception {
      ParentCloser(c);
      EverythingIsException(Parent(c).value);
    }
  }

  /** A thrown exception: its class, getMessage(), and the kind-specific accessors. */
  datatype Exn = Exn(
    cls: ExnClass,
    message: Option<string>,
    /** JsonProcessingException.getOriginalMessage(). */
    originalMessage: Option<string>,
    /** The error code a FileProcessingException is read for. */
    error: Option<string>,
    cause: Option<Exn>)

  /** `new FileProcessingException(message)`. */
  function FileProcessing(message: string): (e: Exn)
    ensures e.cls == FileProcessingException && e.message == Some(message) && e.cause.None?
  {
    Exn(FileProcessingException, Some(message), None, None, None)
  }

  /** `new FileProcessingException(message, cause)`. */
  function FileProcessingCausedBy(message: string, cause: Exn): (e: Exn)
    ensures e.cls == FileProcessingException && e.message == Some(message) && e.cause == Some(cause)
  {
    Exn(FileProcessingException, Some(message), None, None, Some(cause))
  }

  /**
   * The NullPointerExceptions the core provokes, with the detail message the
   * JVM (Java 15 and later, where helpful messages are the default) gives
   * them: it names the method that could not be invoked and where the null
   * came from.
   */
  const DataPackage: string := "com.ikea.warehouse_data_ingestion_service.data."
  const InventoryAccessor: string := DataPackage + "InventoryData.inventory()"
  const ProductsAccessor: string := DataPackage + "ProductsData.products()"
  const ContainArticlesAccessor: string := DataPackage + "Product.containArticles()"

  /** `x.accessor().size()` where the accessor returned null. */
  function NullListReturnedBy(accessor: string): (e: Exn)
    ensures e.cls == NullPointerException && e.cause.None?
  {
    Exn(NullPointerException,
      Some("Cannot invoke \"java.util.List.size()\" because the return value of \"" + accessor + "\" is null"),
      None, None, None)
  }

  /** `variable.method()` where the local variable (a lambda parameter) is null. */
  function NullReceiver(invoked: string, variable: string): (e: Exn)
    ensures e.cls == NullPointerException && e.cause.None?
  {
    Exn(NullPointerException, Some("Cannot invoke \"" + invoked + "\" because \"" + variable + "\" is null"), None, None, None)
  }
}

/** util/ErrorMessages.java, plus the constants the core uses that it lacks. */
module ErrorMessages {
  const FileEmpty: string := "File is empty"
  const InvalidProductsData: string := "Invalid products data provided"
  const InvalidInventoryData: string := "Invalid inventory data provided"
  const ProductsUploadedSuccess: string := "Products uploaded successfully."
  const InventoryUploadedSuccess: string := "Inventory uploaded successfully."

  /** FAILED_TO_PROCESS_INVENTORY_FILE, used by InventoryService but absent from ErrorMessages.java. */
  const FailedToProcessInventoryFile: string := "Failed to process inventory file"

  /** ErrorTypes.FILE_PROCESSING_ERROR (ErrorTypes.java is not part of this model). */
  const FileProcessingError: string := "FILE_PROCESSING_ERROR"
}
