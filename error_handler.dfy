/**
 * exception/GlobalExceptionHandler.java: Spring picks, for a thrown
 * exception, the handler declared for its nearest ancestor class; each
 * handler builds one ErrorResponse from the exception and the request URI.
 */
module GlobalExceptionHandler {
  import opened Wrappers
  import opened Exceptions
  import ErrorMessages
  import Text
  import opened Http

  /** ErrorResponse(error, message, status, path); the timestamp is not modelled. */
  datatype ErrorResponse = ErrorResponse(error: Option<string>, message: Option<string>, status: int, path: Option<string>)

  /** ResponseEntity.status(s).body(b). */
  datatype HandlerResponse = HandlerResponse(httpStatus: int, body: ErrorResponse)

  /** The @ExceptionHandler methods. */
  datatype Handler =
    | HandleIOException
    | HandleKafkaMessage
    | HandleJsonProcessingException
    | HandleHttpMediaTypeNotSupportedException
    | HandleMultipartException
    | HandleMaxUploadSizeExceededException
    | HandleFileProcessingException
    | HandleIllegalArgumentException
    | HandleMethodArgumentNotValid
    | HandleGenericException

  /** The class each handler's @ExceptionHandler annotation names. */
  function HandledClass(h: Handler): ExnClass {
    match h
    case HandleIOException => IOException
    case HandleKafkaMessage => KafkaProduceFailedException
    case HandleJsonProcessingException => JsonProcessingException
    case HandleHttpMediaTypeNotSupportedException => HttpMediaTypeNotSupportedException
    case HandleMultipartException => MultipartException
    case HandleMaxUploadSizeExceededException => MaxUploadSizeExceededException
    case HandleFileProcessingException => FileProcessingException
    case HandleIllegalArgumentException => IllegalArgumentException
    case HandleMethodArgumentNotValid => MethodArgumentNotValidException
    case HandleGenericException => Exception
  }

  /** The handler declared for exactly class `c`, if any. */
  function DeclaredFor(c: ExnClass): (h: Option<Handler>)
    ensures h.Some? ==> HandledClass(h.value) == c
    ensures forall g: Handler :: HandledClass(g) == c ==> h == Some(g)
  {
    match c
    case IOException => Some(HandleIOException)
    case KafkaProduceFailedException => Some(HandleKafkaMessage)
    case JsonProcessingException => Some(HandleJsonProcessingException)
    case HttpMediaTypeNotSupportedException => Some(HandleHttpMediaTypeNotSupportedException)
    case MultipartException => Some(HandleMultipartException)
    case MaxUploadSizeExceededException => Some(HandleMaxUploadSizeExceededException)
    case FileProcessingException => Some(HandleFileProcessingException)
    case IllegalArgumentException => Some(HandleIllegalArgumentException)
    case MethodArgumentNotValidException => Some(HandleMethodArgumentNotValid)
    case Exception => Some(HandleGenericException)
    case _ => None
  }

  /**
   * Spring's resolution: the handler of the closest ancestor (the class
   * itself first) that has one. The chain always ends at Exception, which
   * has the generic handler.
   */
  function Resolve(c: ExnClass): (h: Handler)
    ensures SubclassOf(c, HandledClass(h))
    decreases Depth(c)
  {
    match DeclaredFor(c)
    case Some(h) => h
    case None => ParentCloser(c); Resolve(Parent(c).value)
  }

  /**
   * The most specific handler wins: whatever declared handler an exception's
   * class inherits from, the resolved one is declared for that class or for
   * a class between it and the exception.
   */
  lemma {:induction false} ResolveIsMostSpecific(c: ExnClass, a: ExnClass)
    requires SubclassOf(c, a) && DeclaredFor(a).Some?
    ensures SubclassOf(HandledClass(Resolve(c)), a)
    decreases Depth(c)
  {
    if c == a {
      assert Resolve(c) == DeclaredFor(a).value;
    } else if DeclaredFor(c).Some? {
      assert HandledClass(Resolve(c)) == c;
    } else {
      ParentCloser(c);
      ResolveIsMostSpecific(Parent(c).value, a);
    }
  }

  /** A class with a handler of its own is always served by that handler. */
  lemma OwnHandlerWins(h: Handler)
    ensures Resolve(HandledClass(h)) == h
  {
  }

  /** Each handler's response for exception `e` raised while serving `uri`. */
  function Respond(h: Handler, e: Exn, uri: Option<string>): (r: HandlerResponse)
    ensures r.httpStatus == r.body.status && r.body.path == uri
  {
    match h
    case HandleIOException =>
      Bad(Some(ErrorMessages.FileProcessingError), Some("Failed to process uploaded file: " + Text.Show(e.message)), uri)
    case HandleKafkaMessage =>
      Bad(Some(ErrorMessages.FileProcessingError), Some("Failed to process uploaded file: " + Text.Show(e.message)), uri)
    case HandleJsonProcessingException =>
      Bad(Some("INVALID_JSON_FORMAT"), Some("Invalid JSON format in uploaded file: " + Text.Show(e.originalMessage)), uri)
    case HandleHttpMediaTypeNotSupportedException =>
      HandlerResponse(UnsupportedMediaType, ErrorResponse(Some("UNSUPPORTED_MEDIA_TYPE"),
        Some("Content type not supported. Please use multipart/form-data for file uploads."), UnsupportedMediaType, uri))
    case HandleMultipartException =>
      Bad(Some("MULTIPART_ERROR"), Some("Error processing multipart request: " + Text.Show(e.message)), uri)
    case HandleMaxUploadSizeExceededException =>
      HandlerResponse(PayloadTooLarge, ErrorResponse(Some("FILE_TOO_LARGE"),
        Some("Uploaded file exceeds maximum allowed size"), PayloadTooLarge, uri))
    case HandleFileProcessingException =>
      Bad(e.error, e.message, uri)
    case HandleIllegalArgumentException =>
      Bad(Some("INVALID_ARGUMENT"), e.message, uri)
    case HandleMethodArgumentNotValid =>
      Bad(Some(ErrorMessages.FileProcessingError), Some(ValidationMessage(uri)), uri)
    case HandleGenericException =>
      HandlerResponse(InternalServerError, ErrorResponse(Some("INTERNAL_SERVER_ERROR"),
        Some("An unexpected error occurred. Please try again later."), InternalServerError, uri))
  }

  function Bad(error: Option<string>, message: Option<string>, uri: Option<string>): (r: HandlerResponse)
    ensures r.httpStatus == BadRequest == r.body.status
  {
    HandlerResponse(BadRequest, ErrorResponse(error, message, BadRequest, uri))
  }

  /** The validation message: the inventory text iff the URI is present and contains "/inventory". */
  function ValidationMessage(uri: Option<string>): (m: string)
    ensures m == ErrorMessages.InvalidInventoryData <==> uri.Some? && Text.Contains(uri.value, "/inventory")
    ensures m != ErrorMessages.InvalidInventoryData ==> m == ErrorMessages.InvalidProductsData
  {
    if uri.Some? && Text.Contains(uri.value, "/inventory") then ErrorMessages.InvalidInventoryData
    else ErrorMessages.InvalidProductsData
  }

  /** The response the controller advice produces for `e`. */
  function Handle(e: Exn, uri: Option<string>): (r: HandlerResponse)
    ensures r.httpStatus == r.body.status && r.body.path == uri
    ensures r.httpStatus in {BadRequest, PayloadTooLarge, UnsupportedMediaType, InternalServerError}
  {
    Respond(Resolve(e.cls), e, uri)
  }

  // ---------------------------------------------------------------------------
  // The table, row by row

  lemma IOExceptionRow(e: Exn, uri: Option<string>)
    requires e.cls == IOException
    ensures Handle(e, uri) == HandlerResponse(400, ErrorResponse(Some("FILE_PROCESSING_ERROR"),
      Some("Failed to process uploaded file: " + Text.Show(e.message)), 400, uri))
  {
  }

  /** A JsonProcessingException is an IOException, yet its own handler answers. */
  lemma JsonRow(e: Exn, uri: Option<string>)
    requires e.cls == JsonProcessingException
    ensures SubclassOf(e.cls, IOException)
    ensures Handle(e, uri).body.error == Some("INVALID_JSON_FORMAT")
    ensures Handle(e, uri).body.message == Some("Invalid JSON format in uploaded file: " + Text.Show(e.originalMessage))
    ensures Handle(e, uri).httpStatus == 400
  {
  }

  /** The media-type row ignores the exception entirely. */
  lemma MediaTypeRow(e: Exn, e': Exn, uri: Option<string>)
    requires e.cls == HttpMediaTypeNotSupportedException && e'.cls == HttpMediaTypeNotSupportedException
    ensures Handle(e, uri) == Handle(e', uri)
    ensures Handle(e, uri).httpStatus == 415 && Handle(e, uri).body.error == Some("UNSUPPORTED_MEDIA_TYPE")
  {
  }

  /** Too large is 413, although MaxUploadSizeExceededException is a MultipartException. */
  lemma MultipartRows(e: Exn, uri: Option<string>)
    requires e.cls == MaxUploadSizeExceededException || e.cls == MultipartException
    ensures e.cls == MaxUploadSizeExceededException ==>
      SubclassOf(e.cls, MultipartException) &&
      Handle(e, uri).httpStatus == 413 && Handle(e, uri).body.error == Some("FILE_TOO_LARGE")
    ensures e.cls == MultipartException ==>
      Handle(e, uri).httpStatus == 400 && Handle(e, uri).body.error == Some("MULTIPART_ERROR")
      && Handle(e, uri).body.message == Some("Error processing multipart request: " + Text.Show(e.message))
  {
  }

  /** IllegalArgumentException and its subclass NumberFormatException pass the message on verbatim. */
  lemma IllegalArgumentRow(e: Exn, uri: Option<string>)
    requires e.cls == IllegalArgumentException || e.cls == NumberFormatException
    ensures Handle(e, uri) == HandlerResponse(400, ErrorResponse(Some("INVALID_ARGUMENT"), e.message, 400, uri))
  {
  }

  /** FileProcessingException keeps its own code and message. */
  lemma FileProcessingRow(e: Exn, uri: Option<string>)
    requires e.cls == FileProcessingException
    ensures Handle(e, uri) == HandlerResponse(400, ErrorResponse(e.error, e.message, 400, uri))
  {
  }

  lemma ValidationRow(e: Exn, uri: Option<string>)
    requires e.cls == MethodArgumentNotValidException
    ensures Handle(e, uri).httpStatus == 400
    ensures Handle(e, uri).body.message == Some(ErrorMessages.InvalidInventoryData) <==>
      uri.Some? && Text.Contains(uri.value, "/inventory")
    ensures Handle(e, uri).body.message == Some(ErrorMessages.InvalidInventoryData) ||
      Handle(e, uri).body.message == Some(ErrorMessages.InvalidProductsData)
  {
  }

  /** Classes handled by no specific handler get the generic 500, whatever their message. */
  lemma GenericRow(e: Exn, uri: Option<string>)
    requires e.cls == Exception || e.cls == RuntimeException || e.cls == NullPointerException
    ensures Handle(e, uri) == HandlerResponse(500, ErrorResponse(Some("INTERNAL_SERVER_ERROR"),
      Some("An unexpected error occurred. Please try again later."), 500, uri))
  {
  }
}
