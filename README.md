# Warehouse data ingestion service, modelled in Dafny

The service accepts inventory and product catalogues from warehouse
systems. They arrive as multipart JSON uploads or JSON request bodies. The
service validates and decodes each catalogue, publishes it to Kafka, and
answers with a short text or JSON response. It records Micrometer and
OpenTelemetry metrics as it goes. A Kafka listener routes the messages it
consumes by key or by content. A trace id follows each request through the
logging MDC and through Kafka headers.

The model covers:

- **The endpoints.** `InventoryController`, `InventoryV2Controller` (an
  OpenTelemetry variant and a Micrometer variant), `ProductController` and
  `FileUploadController`. Each method is proved against a function of its
  inputs that gives the response (or the exception thrown), the metrics
  written and the payloads published.
- **The services.** `FileIngestionService`, `InventoryService`,
  `ProductService`, `KafkaProducerService` (records on the wire, plus the
  dead-letter envelope sent after a failed send) and `KafkaConsumerService`
  (routing, and how each message ends).
- **The metrics.** `MetricsService` and `OpenTelemetryMetricsService`,
  including its `TimedOperation`. Counters are maps from meter id or
  attribute set to a sum. Timer and histogram recordings are sequences.
  The active-operation count is an integer field.
- **Tracing.** Both `TraceContext` classes over a single MDC map, the HTTP
  `TracingInterceptor`, and the Kafka producer and consumer interceptors.
  The end-to-end guarantee is proved in `TracePropagation.TraceIdRoundTrip`:
  the id the producer writes is the id the consumer restores. It rests on
  UTF-8 decoding inverting encoding (RFC 3629, `Utf8.DecodeEncode`) and on
  decimal printing and parsing being inverse (`Text.ParseLongOfIntToString`).
- **Exception handling.** `GlobalExceptionHandler`, with Spring's
  most-specific-handler resolution over the exception class chain.

Modelling choices:

- Java `null` is an `Option`.
- A thrown exception is an `Exn` value: its class, message, original
  message, error code and cause.
- Jackson's `ObjectMapper` is a value of uninterpreted total functions.
- Inputs the code cannot see are parameters: `UUID.randomUUID()` is a
  `Uuid` (the RFC 4122 section 3 text form), the clock is a `Millis`, and
  the outcome of a Kafka send is a `Completion`.
- An exception thrown by a publish call is a `fault` parameter.
- HTTP status codes are those of RFC 9110 (module `Http`).

## Model

| member | source | states |
|---|---|---|
| Exceptions.EverythingIsException | src/main/java/com/ikea/warehouse_data_ingestion_service/exception/GlobalExceptionHandler.java:163-164 | every exception class the core throws lies below `Exception`, so the catch-all handler applies to all of them |
| Exceptions.NullListReturnedBy | src/main/java/com/ikea/warehouse_data_ingestion_service/controller/InventoryController.java:66-67 | `size()` on a list accessor that returned null throws a NullPointerException with no cause, its message the JVM's helpful text naming the accessor |
| Exceptions.NullReceiver | src/main/java/com/ikea/warehouse_data_ingestion_service/service/KafkaConsumerService.java:126-128 | a method call on a null lambda parameter throws a NullPointerException with no cause, its message naming the method and the parameter |
| GlobalExceptionHandler.DeclaredFor | src/main/java/com/ikea/warehouse_data_ingestion_service/exception/GlobalExceptionHandler.java:30-164 | each class named in an `@ExceptionHandler` annotation has exactly one handler |
| GlobalExceptionHandler.Resolve | src/main/java/com/ikea/warehouse_data_ingestion_service/exception/GlobalExceptionHandler.java:26-176 | the handler chosen for an exception is declared for its own class or for one of its ancestors |
| GlobalExceptionHandler.ResolveIsMostSpecific | src/main/java/com/ikea/warehouse_data_ingestion_service/exception/GlobalExceptionHandler.java:26-176 | the most specific handler wins: no ancestor class that has a handler lies strictly between the exception and the chosen handler's class |
| GlobalExceptionHandler.OwnHandlerWins | src/main/java/com/ikea/warehouse_data_ingestion_service/exception/GlobalExceptionHandler.java:30-164 | a class with a handler of its own is always served by that handler |
| GlobalExceptionHandler.Respond | src/main/java/com/ikea/warehouse_data_ingestion_service/exception/GlobalExceptionHandler.java:30-176 | the HTTP status of every handler's response equals the status in its body, and the body's path is the request URI |
| GlobalExceptionHandler.Bad | src/main/java/com/ikea/warehouse_data_ingestion_service/exception/GlobalExceptionHandler.java:37-42 | the 400 responses carry 400 both as the HTTP status and in the body |
| GlobalExceptionHandler.ValidationMessage | src/main/java/com/ikea/warehouse_data_ingestion_service/exception/GlobalExceptionHandler.java:149-152 | the inventory validation message is chosen iff the URI is non-null and contains "/inventory"; otherwise the products message is chosen |
| GlobalExceptionHandler.Handle | src/main/java/com/ikea/warehouse_data_ingestion_service/exception/GlobalExceptionHandler.java:26-176 | every exception gets an answer: 400, 413, 415 or 500, with a consistent status and the request path |
| GlobalExceptionHandler.IOExceptionRow | src/main/java/com/ikea/warehouse_data_ingestion_service/exception/GlobalExceptionHandler.java:30-43 | an IOException gives 400 FILE_PROCESSING_ERROR with "Failed to process uploaded file: " and its message |
| GlobalExceptionHandler.JsonRow | src/main/java/com/ikea/warehouse_data_ingestion_service/exception/GlobalExceptionHandler.java:58-71 | a JsonProcessingException is an IOException, yet its own handler answers: 400 INVALID_JSON_FORMAT with its original message |
| GlobalExceptionHandler.MediaTypeRow | src/main/java/com/ikea/warehouse_data_ingestion_service/exception/GlobalExceptionHandler.java:73-86 | an unsupported media type gives 415 UNSUPPORTED_MEDIA_TYPE, whatever the exception carries |
| GlobalExceptionHandler.MultipartRows | src/main/java/com/ikea/warehouse_data_ingestion_service/exception/GlobalExceptionHandler.java:88-116 | a too-large upload gives 413 FILE_TOO_LARGE even though it is a MultipartException; other multipart errors give 400 MULTIPART_ERROR with the message |
| GlobalExceptionHandler.IllegalArgumentRow | src/main/java/com/ikea/warehouse_data_ingestion_service/exception/GlobalExceptionHandler.java:131-144 | IllegalArgumentException and its subclass NumberFormatException give 400 INVALID_ARGUMENT with the message unchanged |
| GlobalExceptionHandler.FileProcessingRow | src/main/java/com/ikea/warehouse_data_ingestion_service/exception/GlobalExceptionHandler.java:118-129 | a FileProcessingException gives 400 with its own error code and message |
| GlobalExceptionHandler.ValidationRow | src/main/java/com/ikea/warehouse_data_ingestion_service/exception/GlobalExceptionHandler.java:146-161 | a validation failure gives 400 with the inventory message iff the URI contains "/inventory", and otherwise the products message |
| GlobalExceptionHandler.GenericRow | src/main/java/com/ikea/warehouse_data_ingestion_service/exception/GlobalExceptionHandler.java:163-176 | classes with no specific handler (RuntimeException, NullPointerException, Exception) give the generic 500 whatever their message |
| Uuid.GenerateTraceId | src/main/java/com/ikea/warehouse_data_ingestion_service/util/TraceContext.java:18-20 | a generated trace id is 32 lower-case hex digits with no dash, so it is never blank |
| Mdc.PutIfUsable | src/main/java/com/ikea/warehouse_data_ingestion_service/util/TraceContext.java:22-26 | the guarded put stores the value iff it is non-null and not blank, and otherwise leaves the MDC alone |
| Mdc.PutIfUsableFrame | src/main/java/com/ikea/warehouse_data_ingestion_service/util/TraceContext.java:22-32 | a guarded put changes no key but its own |
| Mdc.CurrentTraceId | src/main/java/com/ikea/warehouse_data_ingestion_service/util/TraceContext.java:34-41 | a usable stored id is returned with the MDC unchanged; otherwise the generated id is stored and returned |
| Mdc.CurrentTraceIdStored | src/main/java/com/ikea/warehouse_data_ingestion_service/util/TraceContext.java:34-41 | the returned id is not blank and is the MDC's traceId afterwards; no other key changes; a second lookup returns the same id and changes nothing |
| Mdc.CurrentTraceIdUnguarded | src/main/java/com/ikea/warehouse_data_ingestion_service/service/TraceContext.java:49-56 | the static lookup stores a generated id with an unguarded put |
| Mdc.UnguardedAgrees | src/main/java/com/ikea/warehouse_data_ingestion_service/service/TraceContext.java:31-56 | with a non-blank generated id, the static and instance lookups give the same MDC and the same id |
| Mdc.WithoutTrace | src/main/java/com/ikea/warehouse_data_ingestion_service/util/TraceContext.java:47-50 | clearing removes exactly the traceId and operation keys |
| Mdc.ClearForgetsLookup | src/main/java/com/ikea/warehouse_data_ingestion_service/config/TracingInterceptor.java:48-64 | looking up (and perhaps creating) the trace id and then clearing leaves the MDC exactly as clearing alone would |
| TraceContextUtil.SetTraceId | src/main/java/com/ikea/warehouse_data_ingestion_service/util/TraceContext.java:22-26 | the MDC after the call is the guarded put of the trace id |
| TraceContextUtil.SetOperation | src/main/java/com/ikea/warehouse_data_ingestion_service/util/TraceContext.java:28-32 | the MDC after the call is the guarded put of the operation |
| TraceContextUtil.GetCurrentTraceId | src/main/java/com/ikea/warehouse_data_ingestion_service/util/TraceContext.java:34-41 | the result and the new MDC are those of `CurrentTraceId`; the id is not blank and is stored |
| TraceContextUtil.GetCurrentOperation | src/main/java/com/ikea/warehouse_data_ingestion_service/util/TraceContext.java:43-45 | the MDC's operation entry, or null |
| TraceContextUtil.ClearTrace | src/main/java/com/ikea/warehouse_data_ingestion_service/util/TraceContext.java:47-50 | removes the two trace keys and nothing else |
| TraceContextUtil.ClearAll | src/main/java/com/ikea/warehouse_data_ingestion_service/util/TraceContext.java:52-54 | empties the MDC |
| TraceContextService.TraceContext.SetTraceId | src/main/java/com/ikea/warehouse_data_ingestion_service/service/TraceContext.java:19-23 | the MDC after the call is the guarded put of the trace id |
| TraceContextService.TraceContext.SetOperation | src/main/java/com/ikea/warehouse_data_ingestion_service/service/TraceContext.java:25-29 | the MDC after the call is the guarded put of the operation |
| TraceContextService.TraceContext.GetCurrentTraceId | src/main/java/com/ikea/warehouse_data_ingestion_service/service/TraceContext.java:31-38 | the result and the new MDC are those of `CurrentTraceId`; the id is not blank and is stored |
| TraceContextService.TraceContext.GetCurrentOperation | src/main/java/com/ikea/warehouse_data_ingestion_service/service/TraceContext.java:40-42 | the MDC's operation entry, or null |
| TraceContextService.TraceContext.ClearTrace | src/main/java/com/ikea/warehouse_data_ingestion_service/service/TraceContext.java:44-47 | removes the two trace keys and nothing else |
| TraceContextService.TraceContext.ClearAll | src/main/java/com/ikea/warehouse_data_ingestion_service/service/TraceContext.java:58-60 | empties the MDC |
| TraceContextService.GetCurrentTraceIdStatic | src/main/java/com/ikea/warehouse_data_ingestion_service/service/TraceContext.java:49-56 | same result and same MDC as the unguarded lookup, which equals the guarded one; the id is not blank and is stored |
| TracingInterceptor.ChosenTraceId | src/main/java/com/ikea/warehouse_data_ingestion_service/config/TracingInterceptor.java:19-27 | the X-Trace-Id header if it is present and not blank, otherwise a generated id; never blank |
| TracingInterceptor.GetHeader | src/main/java/com/ikea/warehouse_data_ingestion_service/config/TracingInterceptor.java:19 | `getHeader` finds nothing iff no request header has the name, compared ignoring case |
| TracingInterceptor.GetHeaderFindsFirst | src/main/java/com/ikea/warehouse_data_ingestion_service/config/TracingInterceptor.java:19 | the value found is that of the first header with a matching name, all earlier ones having other names |
| TracingInterceptor.GetHeaderIgnoresCase | src/main/java/com/ikea/warehouse_data_ingestion_service/config/TracingInterceptor.java:19 | asking for the upper- or lower-cased name finds the same value |
| TracingInterceptor.OperationName | src/main/java/com/ikea/warehouse_data_ingestion_service/config/TracingInterceptor.java:33-35 | the method, "_", then the URI with every '/' turned into '_' and upper-cased, character by character |
| TracingInterceptor.OperationNameHasNoSlash | src/main/java/com/ikea/warehouse_data_ingestion_service/config/TracingInterceptor.java:33-35 | the operation name contains '/' iff the HTTP method does |
| TracingInterceptor.OperationNameNotBlank | src/main/java/com/ikea/warehouse_data_ingestion_service/config/TracingInterceptor.java:33-36 | the operation name is never blank, so the guarded put always stores it |
| TracingInterceptor.TracingInterceptor.PreHandle | src/main/java/com/ikea/warehouse_data_ingestion_service/config/TracingInterceptor.java:17-45 | the MDC gains the chosen trace id (from the first request header named X-Trace-Id in any case) and the operation name; the response header carries the same id; the request proceeds |
| TracingInterceptor.TracingInterceptor.AfterCompletion | src/main/java/com/ikea/warehouse_data_ingestion_service/config/TracingInterceptor.java:48-64 | whether or not the request failed, the trace entries are removed and nothing else changes |
| KafkaRecords.LastHeader | src/main/java/com/ikea/warehouse_data_ingestion_service/config/kafka/KafkaConsumerTracingInterceptor.java:27 | the header found has the key asked for and occurs in the record; null iff no header has that key |
| KafkaRecords.LastHeaderOfAdd | src/main/java/com/ikea/warehouse_data_ingestion_service/config/KafkaProducerTracingInterceptor.java:26-30 | an added header becomes the last one for its key and hides no other key |
| KafkaProducerTracingInterceptor.TracingHeaders | src/main/java/com/ikea/warehouse_data_ingestion_service/config/KafkaProducerTracingInterceptor.java:26-30 | two headers, X-Trace-Id then X-Timestamp, holding the UTF-8 bytes of the id and of the decimal send time |
| KafkaProducerTracingInterceptor.KafkaProducerTracingInterceptor.OnSend | src/main/java/com/ikea/warehouse_data_ingestion_service/config/KafkaProducerTracingInterceptor.java:19-43 | the same record comes back with the two headers appended to its old ones; the id is the MDC's current one, stored first if there was none |
| KafkaProducerTracingInterceptor.KafkaProducerTracingInterceptor.OnAcknowledgement | src/main/java/com/ikea/warehouse_data_ingestion_service/config/KafkaProducerTracingInterceptor.java:46-59 | the trace id is looked up (and created if absent) exactly when there is an error or metadata to log |
| KafkaConsumerTracingInterceptor.OperationFor | src/main/java/com/ikea/warehouse_data_ingestion_service/config/kafka/KafkaConsumerTracingInterceptor.java:41 | "KAFKA_CONSUME_" followed by the topic, each character upper-cased in place |
| KafkaConsumerTracingInterceptor.NumberFormat | src/main/java/com/ikea/warehouse_data_ingestion_service/config/kafka/KafkaConsumerTracingInterceptor.java:55 | Long.parseLong rejects text with a NumberFormatException |
| KafkaConsumerTracingInterceptor.TimestampOutcome | src/main/java/com/ikea/warehouse_data_ingestion_service/config/kafka/KafkaConsumerTracingInterceptor.java:52-58 | a missing X-Timestamp lets the iteration complete with no send time |
| KafkaConsumerTracingInterceptor.ConsumeOneWithHeader | src/main/java/com/ikea/warehouse_data_ingestion_service/config/kafka/KafkaConsumerTracingInterceptor.java:27-45 | a readable X-Trace-Id header becomes the MDC's trace id, decoded as the JDK decodes UTF-8 and even when it is blank, and the operation becomes KAFKA_CONSUME_ plus the topic |
| KafkaConsumerTracingInterceptor.ConsumeOneWithoutHeader | src/main/java/com/ikea/warehouse_data_ingestion_service/config/kafka/KafkaConsumerTracingInterceptor.java:33-45 | without the header, the current id is kept or a fresh one is stored |
| KafkaConsumerTracingInterceptor.BadTimestampKeepsWrites | src/main/java/com/ikea/warehouse_data_ingestion_service/config/kafka/KafkaConsumerTracingInterceptor.java:42-63 | an unparsable X-Timestamp aborts the iteration with a NumberFormatException after both MDC writes |
| KafkaConsumerTracingInterceptor.NullTraceHeaderChangesNothing | src/main/java/com/ikea/warehouse_data_ingestion_service/config/kafka/KafkaConsumerTracingInterceptor.java:27-63 | a null X-Trace-Id value aborts the iteration before the MDC is touched |
| KafkaConsumerTracingInterceptor.LastRecordWins | src/main/java/com/ikea/warehouse_data_ingestion_service/config/kafka/KafkaConsumerTracingInterceptor.java:22-67 | after a batch, the MDC holds the trace id and operation of the last record |
| KafkaConsumerTracingInterceptor.KafkaConsumerTracingInterceptor.OnConsume | src/main/java/com/ikea/warehouse_data_ingestion_service/config/kafka/KafkaConsumerTracingInterceptor.java:22-67 | the records are returned as given; the MDC is what visiting them in order leaves it as |
| KafkaConsumerTracingInterceptor.KafkaConsumerTracingInterceptor.ConsumeRecord | src/main/java/com/ikea/warehouse_data_ingestion_service/config/kafka/KafkaConsumerTracingInterceptor.java:24-63 | one loop iteration's effect on the MDC |
| KafkaConsumerTracingInterceptor.KafkaConsumerTracingInterceptor.OnCommit | src/main/java/com/ikea/warehouse_data_ingestion_service/config/kafka/KafkaConsumerTracingInterceptor.java:70-73 | looks up the trace id, creating one if absent |
| Utf8.DecodeFirstOfEncodeChar | src/main/java/com/ikea/warehouse_data_ingestion_service/config/kafka/KafkaConsumerTracingInterceptor.java:30 | decoding the first scalar value of a char's encoding, whatever follows, gives back that char and the encoding's length |
| Utf8.DecodeEncode | src/main/java/com/ikea/warehouse_data_ingestion_service/config/kafka/KafkaConsumerTracingInterceptor.java:30 | decoding the UTF-8 bytes a string was encoded to gives the string back |
| Utf8.Malformed4Length | src/main/java/com/ikea/warehouse_data_ingestion_service/config/kafka/KafkaConsumerTracingInterceptor.java:30 | the bytes of a malformed four-byte sequence that the JDK's decoder skips: one to three, every one after the first a continuation byte |
| Utf8.DecodeFirst | src/main/java/com/ikea/warehouse_data_ingestion_service/config/kafka/KafkaConsumerTracingInterceptor.java:30 | the JDK's decoder takes at least one byte and no more than there are, an ASCII byte alone as itself, and beyond the first only continuation bytes |
| Utf8.DecodeFirstIsEncoding | src/main/java/com/ikea/warehouse_data_ingestion_service/config/kafka/KafkaConsumerTracingInterceptor.java:30 | a char other than U+FFFD comes only from its own shortest UTF-8 encoding, so overlong forms, surrogates and values past U+10FFFF give U+FFFD |
| Utf8.DecodeFirstStopsAtAscii | src/main/java/com/ikea/warehouse_data_ingestion_service/config/kafka/KafkaConsumerTracingInterceptor.java:30 | neither an ASCII byte nor anything after it changes how the bytes before it start to decode |
| Utf8.DecodeSplitsAtAscii | src/main/java/com/ikea/warehouse_data_ingestion_service/config/kafka/KafkaConsumerTracingInterceptor.java:30 | ill-formed bytes never swallow a following ASCII byte: decoding splits at it |
| Utf8.MalformedExamples | src/main/java/com/ikea/warehouse_data_ingestion_service/config/kafka/KafkaConsumerTracingInterceptor.java:30 | E2 82 41 decodes to U+FFFD then "A"; an encoded surrogate ED A0 80 to one U+FFFD; the truncated E2 82 to one U+FFFD |
| TracePropagation.TracingHeadersAreLast | src/main/java/com/ikea/warehouse_data_ingestion_service/config/KafkaProducerTracingInterceptor.java:26-30 | the headers onSend appends are the ones lastHeader finds, whatever the record already had |
| TracePropagation.TimestampRoundTrip | src/main/java/com/ikea/warehouse_data_ingestion_service/config/kafka/KafkaConsumerTracingInterceptor.java:52-58 | the timestamp header written by the producer parses back to the send time |
| TracePropagation.TraceIdRoundTrip | src/main/java/com/ikea/warehouse_data_ingestion_service/config/kafka/KafkaConsumerTracingInterceptor.java:27-58 | a record sent while the producer's trace id is `id` sets the consumer's trace id to `id`, and its operation from the topic, and completes |
| KafkaProducerService.ErrorTopic | src/main/java/com/ikea/warehouse_data_ingestion_service/service/KafkaProducerService.java:56 | the error topic is one of the two configured error topics |
| KafkaProducerService.ErrorTopicRule | src/main/java/com/ikea/warehouse_data_ingestion_service/service/KafkaProducerService.java:56 | failures on the product topic go to the product error topic; every other failure goes to the inventory error topic, in both directions |
| KafkaProducerService.DeadLetter | src/main/java/com/ikea/warehouse_data_ingestion_service/service/KafkaProducerService.java:65-72 | the envelope holds the key, the original message and topic, the throwable's message and the time |
| KafkaProducerService.Traffic | src/main/java/com/ikea/warehouse_data_ingestion_service/service/KafkaProducerService.java:43-63 | one send puts the record on the wire, then a dead letter iff delivery failed |
| KafkaProducerService.DeadLetterIsNotForwarded | src/main/java/com/ikea/warehouse_data_ingestion_service/service/KafkaProducerService.java:65-75 | a dead letter is never itself forwarded: the only envelope is the second record, and it wraps the first |
| KafkaProducerService.KafkaProducerService.SendProductUpdate | src/main/java/com/ikea/warehouse_data_ingestion_service/service/KafkaProducerService.java:33-36 | the traffic of one send to the product topic is appended to the wire log |
| KafkaProducerService.KafkaProducerService.SendInventoryUpdate | src/main/java/com/ikea/warehouse_data_ingestion_service/service/KafkaProducerService.java:38-41 | the traffic of one send to the inventory topic is appended to the wire log |
| KafkaProducerService.KafkaProducerService.SendMessage | src/main/java/com/ikea/warehouse_data_ingestion_service/service/KafkaProducerService.java:43-63 | appends exactly the traffic of the send |
| KafkaProducerService.KafkaProducerService.SendErrorMessage | src/main/java/com/ikea/warehouse_data_ingestion_service/service/KafkaProducerService.java:65-75 | appends one dead-letter record to the error topic |
| KafkaProducerService.KafkaProducerService.Publish | src/main/java/com/ikea/warehouse_data_ingestion_service/controller/ProductController.java:64 | a publish call the producer does not define: the payload is published unless the call throws |
| KafkaConsumerService.KeyRoute | src/main/java/com/ikea/warehouse_data_ingestion_service/service/KafkaConsumerService.java:38-43 | the inventory handler runs iff the lower-cased key is "inventory"; the product handler iff it is "product" |
| KafkaConsumerService.ContentRoute | src/main/java/com/ikea/warehouse_data_ingestion_service/service/KafkaConsumerService.java:103-119 | without a key, a map with an "inventory" field goes to inventory; otherwise one with a "products" field goes to products |
| KafkaConsumerService.UnexpectedType | src/main/java/com/ikea/warehouse_data_ingestion_service/service/KafkaConsumerService.java:64 | a payload of the wrong class is rejected with an IllegalArgumentException |
| KafkaConsumerService.ProcessInventoryData | src/main/java/com/ikea/warehouse_data_ingestion_service/service/KafkaConsumerService.java:121-131 | succeeds iff the list is non-null and holds no null item, and counts its articles; a null list throws the JVM's NullPointerException naming `InventoryData.inventory()`, a null item the one naming `item` |
| KafkaConsumerService.ProductFailure | src/main/java/com/ikea/warehouse_data_ingestion_service/service/KafkaConsumerService.java:138-140 | the debug line of one product throws nothing iff the product is non-null and has a contain_articles list |
| KafkaConsumerService.FirstProductFailure | src/main/java/com/ikea/warehouse_data_ingestion_service/service/KafkaConsumerService.java:138-140 | the forEach throws nothing iff no product's debug line throws |
| KafkaConsumerService.FirstProductFailureIsFirst | src/main/java/com/ikea/warehouse_data_ingestion_service/service/KafkaConsumerService.java:138-140 | what the forEach throws is the exception of a product every earlier one of which went through |
| KafkaConsumerService.ProductFailureKinds | src/main/java/com/ikea/warehouse_data_ingestion_service/service/KafkaConsumerService.java:138-140 | that exception is the NullPointerException of a null product or of a null contain_articles list |
| KafkaConsumerService.ProcessProductsData | src/main/java/com/ikea/warehouse_data_ingestion_service/service/KafkaConsumerService.java:133-143 | succeeds iff the list is non-null and every product is non-null with a contain_articles list, and counts the products; a null list throws the JVM's NullPointerException naming `ProductsData.products()`, otherwise the first failing product's exception is thrown |
| KafkaConsumerService.HandleInventoryMessage | src/main/java/com/ikea/warehouse_data_ingestion_service/service/KafkaConsumerService.java:55-77 | a typed inventory record is processed directly; any other class, products included, fails with IllegalArgumentException inside the handler |
| KafkaConsumerService.HandleProductMessage | src/main/java/com/ikea/warehouse_data_ingestion_service/service/KafkaConsumerService.java:79-101 | the same for products |
| KafkaConsumerService.RunHandler | src/main/java/com/ikea/warehouse_data_ingestion_service/service/KafkaConsumerService.java:55-101 | a handler either processes the message or catches its failure, on the route it was given |
| KafkaConsumerService.Dispatch | src/main/java/com/ikea/warehouse_data_ingestion_service/service/KafkaConsumerService.java:29-53 | `listen` itself fails iff the message is null |
| KafkaConsumerService.KeyDispatch | src/main/java/com/ikea/warehouse_data_ingestion_service/service/KafkaConsumerService.java:37-43 | a keyed message reaches a handler iff its key is "inventory" or "product" in any case, and the matching one; any other key is only logged |
| KafkaConsumerService.KeyDispatchIgnoresCase | src/main/java/com/ikea/warehouse_data_ingestion_service/service/KafkaConsumerService.java:39 | upper-casing a key changes neither its route nor the outcome |
| KafkaConsumerService.ContentDispatch | src/main/java/com/ikea/warehouse_data_ingestion_service/service/KafkaConsumerService.java:103-119 | without a key, "inventory" wins over "products", which wins over nothing |
| KafkaConsumerService.TypedRecordWithoutKeyIgnored | src/main/java/com/ikea/warehouse_data_ingestion_service/service/KafkaConsumerService.java:103-119 | without a key, a payload that is not a map runs no handler, even a typed record |
| KafkaConsumerService.ProductSpellings | src/main/java/com/ikea/warehouse_data_ingestion_service/service/KafkaConsumerService.java:41-115 | the key "products" is unknown and the field "product" is not recognised: each spelling works in one place only |
| KafkaConsumerService.OtherClassRejectedByHandler | src/main/java/com/ikea/warehouse_data_ingestion_service/service/KafkaConsumerService.java:55-101 | a wrong-class payload on a matching route fails inside the handler, not in `listen` |
| KafkaConsumerService.NullMessageCaughtByListen | src/main/java/com/ikea/warehouse_data_ingestion_service/service/KafkaConsumerService.java:33-52 | a null message is caught by `listen` as a NullPointerException, whatever the key |
| KafkaConsumerService.KafkaConsumerService.Listen | src/main/java/com/ikea/warehouse_data_ingestion_service/service/KafkaConsumerService.java:29-53 | never throws; its outcome is `Dispatch`'s; the MDC is the one the trace-id lookup leaves |
| FileIngestionService.IngestKeys | src/main/java/com/ikea/warehouse_data_ingestion_service/service/FileIngestionService.java:24-44 | on a normal return the map has exactly the keys inventoryCount, productCount and status, with the status INGESTED |
| FileIngestionService.AbsentPartNotDecoded | src/main/java/com/ikea/warehouse_data_ingestion_service/service/FileIngestionService.java:27-32 | an absent inventory part counts 0 and its decoder is never consulted |
| FileIngestionService.PresentPartCounted | src/main/java/com/ikea/warehouse_data_ingestion_service/service/FileIngestionService.java:27-29 | a present part counts the decoded list, or 0 when the list is null |
| FileIngestionService.InventoryErrorFirst | src/main/java/com/ikea/warehouse_data_ingestion_service/service/FileIngestionService.java:27-28 | an inventory decode error is what `ingest` throws, whatever the products part holds |
| FileIngestionService.CountsIndependent | src/main/java/com/ikea/warehouse_data_ingestion_service/service/FileIngestionService.java:24-44 | each count depends on its own part only |
| FileIngestionService.NullAndEmptyAlike | src/main/java/com/ikea/warehouse_data_ingestion_service/service/FileIngestionService.java:27-34 | a null part and a zero-length part give the same result |
| FileIngestionService.FileIngestionService.Ingest | src/main/java/com/ikea/warehouse_data_ingestion_service/service/FileIngestionService.java:24-44 | the put-by-put map building gives exactly `IngestResult` |
| FileUploadController.Rejection | src/main/java/com/ikea/warehouse_data_ingestion_service/controller/FileUploadController.java:102-106 | the rejection is 400 with the single key "message" |
| FileUploadController.FileUploadController.Ingest | src/main/java/com/ikea/warehouse_data_ingestion_service/controller/FileUploadController.java:89-108 | with neither part present the answer is the rejection; otherwise it is 200 with the service's map, or the service's exception |
| Text.ParseLongOfIntToString | src/main/java/com/ikea/warehouse_data_ingestion_service/config/kafka/KafkaConsumerTracingInterceptor.java:55 | Long.parseLong of String.valueOf(n) is n for every long n, negative values included |
| InventoryService.PublishKey | src/main/java/com/ikea/warehouse_data_ingestion_service/service/InventoryService.java:21 | the Kafka key is non-empty |
| InventoryService.PublishKeyParses | src/main/java/com/ikea/warehouse_data_ingestion_service/service/InventoryService.java:21 | the key is the decimal form of the hash code and parses back to it |
| InventoryService.PublishKeyInjective | src/main/java/com/ikea/warehouse_data_ingestion_service/service/InventoryService.java:21-22 | records with different hash codes are published under different keys |
| InventoryService.ProceedFileResult | src/main/java/com/ikea/warehouse_data_ingestion_service/service/InventoryService.java:26-37 | every failure of `proceedFile` is a FileProcessingException |
| InventoryService.EmptyFileNotWrapped | src/main/java/com/ikea/warehouse_data_ingestion_service/service/InventoryService.java:27-29 | a null or empty file throws "File is empty" with no cause |
| InventoryService.DecodeFailureWrapped | src/main/java/com/ikea/warehouse_data_ingestion_service/service/InventoryService.java:30-36 | a decode failure is wrapped, with the decoder's exception as the cause |
| InventoryService.SuccessReturnsDecoded | src/main/java/com/ikea/warehouse_data_ingestion_service/service/InventoryService.java:30-33 | the call succeeds iff the file is present and decodes, and then returns exactly the decoded record |
| InventoryService.InventoryService.PublishInventoryData | src/main/java/com/ikea/warehouse_data_ingestion_service/service/InventoryService.java:20-24 | one inventory-topic send keyed by the hash code's decimal form |
| InventoryService.InventoryService.ProceedFile | src/main/java/com/ikea/warehouse_data_ingestion_service/service/InventoryService.java:26-37 | the result is `ProceedFileResult`; the record is sent iff the call succeeds |
| ProductService.ProceedFileError | src/main/java/com/ikea/warehouse_data_ingestion_service/service/ProductService.java:22-29 | every failure is a FileProcessingException "Failed to process products file" with a cause |
| ProductService.NullFileWrapped | src/main/java/com/ikea/warehouse_data_ingestion_service/service/ProductService.java:22-28 | a null file fails inside the `try`, so it is wrapped around a NullPointerException |
| ProductService.SucceedsIff | src/main/java/com/ikea/warehouse_data_ingestion_service/service/ProductService.java:22-29 | succeeds iff the file is present, decodes and the publish goes through |
| ProductService.ProductService.PublishProductData | src/main/java/com/ikea/warehouse_data_ingestion_service/service/ProductService.java:18-20 | publishes the record once, unless the publish throws |
| ProductService.ProductService.ProceedFile | src/main/java/com/ikea/warehouse_data_ingestion_service/service/ProductService.java:22-29 | throws `ProceedFileError`; the decoded record is published iff nothing is thrown |
| InventoryController.StatusIff | src/main/java/com/ikea/warehouse_data_ingestion_service/controller/InventoryController.java:56-134 | both endpoints answer 200 iff something was published, and otherwise 400 with nothing published |
| InventoryController.EmptyFileNotDecoded | src/main/java/com/ikea/warehouse_data_ingestion_service/controller/InventoryController.java:57-61 | an empty file is rejected before the decoder or the publisher is consulted |
| InventoryController.AcceptedUpload | src/main/java/com/ikea/warehouse_data_ingestion_service/controller/InventoryController.java:64-81 | an accepted upload publishes the JSON of what the file decodes to and reports its article count |
| InventoryController.NullListFailsUpload | src/main/java/com/ikea/warehouse_data_ingestion_service/controller/InventoryController.java:64-67 | a decoded record with no list fails the upload with the JVM's NullPointerException for `size()` on the null returned by `InventoryData.inventory()` |
| InventoryController.AnyListAccepted | src/main/java/com/ikea/warehouse_data_ingestion_service/controller/InventoryController.java:108-129 | the data endpoint accepts a list of any length, empty or holding nulls, counts every element and publishes the serialised record, whenever serialising and publishing succeed |
| InventoryController.CountersMove | src/main/java/com/ikea/warehouse_data_ingestion_service/controller/InventoryController.java:59-85 | the items counter grows by exactly the reported article count on success and not at all otherwise; a failure touches only its failure series |
| InventoryController.InventoryController.UploadInventory | src/main/java/com/ikea/warehouse_data_ingestion_service/controller/InventoryController.java:46-90 | response, counters, timers and publications are those of `UploadOutcome` under the MDC's trace id; the in-flight count returns to where it was |
| InventoryController.InventoryController.ProcessUpload | src/main/java/com/ikea/warehouse_data_ingestion_service/controller/InventoryController.java:51-89 | the timed `try` with its `finally`: the same as above for a given trace id |
| InventoryController.InventoryController.TryUpload | src/main/java/com/ikea/warehouse_data_ingestion_service/controller/InventoryController.java:64-71 | the steps that can throw give `UploadOutcome` and publish iff accepted |
| InventoryController.InventoryController.RecordOutcome | src/main/java/com/ikea/warehouse_data_ingestion_service/controller/InventoryController.java:59-85 | one failure count, or the success, item and Kafka counts plus the Kafka timer |
| InventoryController.InventoryController.UploadInventoryData | src/main/java/com/ikea/warehouse_data_ingestion_service/controller/InventoryController.java:102-138 | response, counters, timers and publications are those of `DataOutcome` under the MDC's trace id |
| InventoryController.InventoryController.ProcessData | src/main/java/com/ikea/warehouse_data_ingestion_service/controller/InventoryController.java:104-137 | the timed `try` with its `finally` of the data endpoint |
| InventoryController.InventoryController.TryPublishData | src/main/java/com/ikea/warehouse_data_ingestion_service/controller/InventoryController.java:118-119 | serialise and publish: gives `DataOutcome` and publishes iff accepted |
| ProductController.EmptyUploadAnswer | src/main/java/com/ikea/warehouse_data_ingestion_service/controller/ProductController.java:52-55 | an empty upload throws before decoding, and the exception handler answers 400 "File is empty" |
| ProductController.InvalidDataAnswer | src/main/java/com/ikea/warehouse_data_ingestion_service/controller/ProductController.java:86-89 | a null body or list is answered 400 "Invalid products data provided" by the exception handler |
| ProductController.ReportedCount | src/main/java/com/ikea/warehouse_data_ingestion_service/controller/ProductController.java:69-70 | the number in a success message is the list's length in decimal, in both messages |
| ProductController.AnyListAccepted | src/main/java/com/ikea/warehouse_data_ingestion_service/controller/ProductController.java:83-102 | any list, empty or holding nulls, is answered 200 with a text whose number after the prefix is the list's length in decimal |
| ProductController.ProductController.UploadProducts | src/main/java/com/ikea/warehouse_data_ingestion_service/controller/ProductController.java:41-71 | the response or exception is `UploadProductsResult`; the decoded record is published iff it succeeds |
| ProductController.ProductController.UploadProductsData | src/main/java/com/ikea/warehouse_data_ingestion_service/controller/ProductController.java:83-102 | the response or exception is `UploadProductsDataResult`; the body is published iff it succeeds |
| InventoryV2Controller.V2Outcome | src/main/java/com/ikea/warehouse_data_ingestion_service/controller/InventoryV2Controller.java:69-90 | rejected iff the file is empty; accepted iff it also decodes to a non-null list and the publish goes through, in which case the record itself is published and its articles counted |
| InventoryV2Controller.OTelCountsAgree | src/main/java/com/ikea/warehouse_data_ingestion_service/controller/InventoryV2Controller.java:86-96 | on success the upload counter and the timed operation carry the same item count, and the answer is 200 |
| InventoryV2Controller.OTelOutcomeKinds | src/main/java/com/ikea/warehouse_data_ingestion_service/controller/InventoryV2Controller.java:69-104 | the operation records "success" iff the upload was accepted, and the answer is 200 iff accepted, else 400 |
| InventoryV2Controller.VariantsAgree | src/main/java/com/ikea/warehouse_data_ingestion_service/controller/InventoryV2Controller.java:53-158 | the two variants give the same status, and the same text except on success |
| InventoryV2Controller.InventoryV2Controller.UploadInventoryOTel | src/main/java/com/ikea/warehouse_data_ingestion_service/controller/InventoryV2Controller.java:53-106 | every path leaves the active-operation count and gauge where they were; counters, upload-duration record, publication and response follow `V2Outcome` |
| InventoryV2Controller.InventoryV2Controller.TryUpload | src/main/java/com/ikea/warehouse_data_ingestion_service/controller/InventoryV2Controller.java:76-84 | the steps that can throw give `V2Outcome` and publish iff accepted |
| InventoryV2Controller.InventoryV2Controller.RecordOTel | src/main/java/com/ikea/warehouse_data_ingestion_service/controller/InventoryV2Controller.java:70-100 | the metric calls of each path, with exactly one upload-duration record |
| InventoryV2Controller.InventoryV2Controller.UploadInventoryMicrometer | src/main/java/com/ikea/warehouse_data_ingestion_service/controller/InventoryV2Controller.java:115-158 | the in-flight count returns to where it was; counters, timers, publication and response follow `V2Outcome` under the MDC's trace id |
| InventoryV2Controller.InventoryV2Controller.ProcessMicrometer | src/main/java/com/ikea/warehouse_data_ingestion_service/controller/InventoryV2Controller.java:121-157 | the timed `try` with its `finally` for a given trace id |
| InventoryV2Controller.InventoryV2Controller.RecordMicrometer | src/main/java/com/ikea/warehouse_data_ingestion_service/controller/InventoryV2Controller.java:127-152 | one failure count, or the success, item and Kafka counts plus the Kafka timer |
| MetricsService.Bump | src/main/java/com/ikea/warehouse_data_ingestion_service/service/MetricsService.java:32-42 | incrementing a counter raises its count by the amount and leaves every other meter alone |
| MetricsService.CategorizeSizeBytes | src/main/java/com/ikea/warehouse_data_ingestion_service/service/MetricsService.java:121-126 | small below 1 KiB, medium below 1 MiB, large below 10 MiB, xlarge otherwise, each as an if-and-only-if |
| MetricsService.CategorizeMonotone | src/main/java/com/ikea/warehouse_data_ingestion_service/service/MetricsService.java:121-126 | a larger file never gets a smaller category |
| MetricsService.FailureIdDistinct | src/main/java/com/ikea/warehouse_data_ingestion_service/service/MetricsService.java:31-52 | a failed upload is counted apart from every success and from the item counts |
| MetricsService.MetricsService.RecordSuccessfulUpload | src/main/java/com/ikea/warehouse_data_ingestion_service/service/MetricsService.java:31-45 | one success on the sized upload series, and the item count added to the items series |
| MetricsService.MetricsService.RecordFailedUpload | src/main/java/com/ikea/warehouse_data_ingestion_service/service/MetricsService.java:47-55 | one failure on the series of its error type |
| MetricsService.MetricsService.RecordKafkaMessage | src/main/java/com/ikea/warehouse_data_ingestion_service/service/MetricsService.java:57-71 | one message counted on its type, and one publish-duration recording |
| MetricsService.MetricsService.StartFileUploadTimer | src/main/java/com/ikea/warehouse_data_ingestion_service/service/MetricsService.java:74-77 | the in-flight count goes up by one |
| MetricsService.MetricsService.StopFileUploadTimer | src/main/java/com/ikea/warehouse_data_ingestion_service/service/MetricsService.java:79-87 | one upload-duration recording, and the in-flight count back down by one |
| MetricsService.MetricsService.StopDataProcessingTimer | src/main/java/com/ikea/warehouse_data_ingestion_service/service/MetricsService.java:93-97 | one processing-duration recording; the in-flight count is untouched |
| MetricsService.MetricsService.RecordProcessingMetrics | src/main/java/com/ikea/warehouse_data_ingestion_service/service/MetricsService.java:100-118 | one completed operation, the item count added, and one operation-duration recording, each tagged with the operation and type |
| OpenTelemetryMetricsService.CategorizeFileSize | src/main/java/com/ikea/warehouse_data_ingestion_service/service/OpenTelemetryMetricsService.java:263-268 | the same four size buckets, each as an if-and-only-if |
| OpenTelemetryMetricsService.CategoriesAgree | src/main/java/com/ikea/warehouse_data_ingestion_service/service/OpenTelemetryMetricsService.java:263-268 | the OpenTelemetry and Micrometer size categories agree on every size |
| OpenTelemetryMetricsService.Add | src/main/java/com/ikea/warehouse_data_ingestion_service/service/OpenTelemetryMetricsService.java:108-109 | adding to a counter raises the sum of its attribute set and leaves the other series alone |
| OpenTelemetryMetricsService.OutcomesSeparate | src/main/java/com/ikea/warehouse_data_ingestion_service/service/OpenTelemetryMetricsService.java:99-131 | a success and a failure never land on the same upload series |
| OpenTelemetryMetricsService.KafkaAttributesIgnoreCase | src/main/java/com/ikea/warehouse_data_ingestion_service/service/OpenTelemetryMetricsService.java:147-151 | the Kafka series is keyed on the lower-cased message type, so case does not matter |
| OpenTelemetryMetricsService.FileUploadIsUploadType | src/main/java/com/ikea/warehouse_data_ingestion_service/controller/InventoryV2Controller.java:58 | "file_upload" counts as an upload type, so its recordings and its close take the upload branch |
| OpenTelemetryMetricsService.OperationBalanceIff | src/main/java/com/ikea/warehouse_data_ingestion_service/service/OpenTelemetryMetricsService.java:166-260 | starting and closing an operation leaves the active count unchanged iff the way it was started agrees with whether its type contains "upload" |
| OpenTelemetryMetricsService.FileUploadOperationBalances | src/main/java/com/ikea/warehouse_data_ingestion_service/service/OpenTelemetryMetricsService.java:166-178 | a "file_upload" operation is balanced by its close |
| OpenTelemetryMetricsService.OpenTelemetryMetricsService.RecordSuccessfulUpload | src/main/java/com/ikea/warehouse_data_ingestion_service/service/OpenTelemetryMetricsService.java:99-120 | one success on its attribute set, and the item count added under its data type |
| OpenTelemetryMetricsService.OpenTelemetryMetricsService.RecordFailedUpload | src/main/java/com/ikea/warehouse_data_ingestion_service/service/OpenTelemetryMetricsService.java:125-142 | one failure on its attribute set |
| OpenTelemetryMetricsService.OpenTelemetryMetricsService.RecordKafkaMessage | src/main/java/com/ikea/warehouse_data_ingestion_service/service/OpenTelemetryMetricsService.java:147-161 | one message on the lower-cased type |
| OpenTelemetryMetricsService.OpenTelemetryMetricsService.StartFileUploadOperation | src/main/java/com/ikea/warehouse_data_ingestion_service/service/OpenTelemetryMetricsService.java:166-178 | a new operation with the given type, and the active count and gauge up by one |
| OpenTelemetryMetricsService.OpenTelemetryMetricsService.StartProcessingOperation | src/main/java/com/ikea/warehouse_data_ingestion_service/service/OpenTelemetryMetricsService.java:183-191 | a new operation, with the active count untouched |
| OpenTelemetryMetricsService.TimedOperation.Record | src/main/java/com/ikea/warehouse_data_ingestion_service/service/OpenTelemetryMetricsService.java:211-247 | records into the upload histogram iff the type contains "upload", and otherwise into the processing histogram |
| OpenTelemetryMetricsService.TimedOperation.RecordSuccess | src/main/java/com/ikea/warehouse_data_ingestion_service/service/OpenTelemetryMetricsService.java:211-229 | one "success" recording with the item count, in the histogram the type selects |
| OpenTelemetryMetricsService.TimedOperation.RecordError | src/main/java/com/ikea/warehouse_data_ingestion_service/service/OpenTelemetryMetricsService.java:231-247 | one "error" recording, in the histogram the type selects |
| OpenTelemetryMetricsService.TimedOperation.Close | src/main/java/com/ikea/warehouse_data_ingestion_service/service/OpenTelemetryMetricsService.java:249-260 | the active count and gauge go down by one iff the type contains "upload" |

## Left out

- Logging, span attributes, span events and span status are not modelled. They are side effects with no bearing on what the service returns or publishes.
- Durations are not modelled: timers record which meter was recorded, not how long it took. The clock is not modelled.
- `warehouse.processing.active` is the field `currentProcessingCount`. Micrometer's registry is a map from meter id to count.
- Concurrency is not modelled. The MDC is one map, not one per thread. The atomic counters are plain integers.
- Jackson parsing and serialisation are not modelled. They are uninterpreted functions, so a document that decodes to `null` is not modelled either.
- KafkaProducerService.java does not define `sendProductData`, `sendInventoryData` or the one-argument `sendMessage` that the controllers and ProductService call. They are modelled by `KafkaProducerService.KafkaProducerService.Publish`, which records the payload and may throw. The topic and key they would use are not known.
- `KafkaProduceFailedException` is named only in the `@ExceptionHandler` at GlobalExceptionHandler.java:45. Its class is not part of this model, and its parent is assumed to be `RuntimeException`. Because the class has a handler of its own (`GlobalExceptionHandler.OwnHandlerWins`), the assumption does not affect which handler answers.
- `FileProcessingException` has no `getError()`, although `GlobalExceptionHandler.java:122` calls it. The model gives every such exception an absent error code.
- `ErrorMessages.FAILED_TO_PROCESS_INVENTORY_FILE` is not defined in ErrorMessages.java; the model uses the text "Failed to process inventory file". `ErrorTypes.FILE_PROCESSING_ERROR` is defined in ErrorTypes.java, which is not part of this model; the model uses the text "FILE_PROCESSING_ERROR".
- `getInventory()` and `getProducts()` in FileIngestionService.java do not exist on the records. They are modelled as the record accessors `inventory()` and `products()`.
- `item.artId()`, `item.name()` and `item.stock()` in KafkaConsumerService.java do not exist on InventoryItem, which has only getters. The model reads them as calls on each item, so a null item throws the NullPointerException whose message names `InventoryItem.artId()` as written.
- Exceptions.NullListReturnedBy, Exceptions.NullReceiver: the messages are the JVM's helpful NullPointerException messages, the default from Java 15 on. With `-XX:-ShowCodeDetailsInExceptionMessages` the message is null, which the model does not cover. The names `item` and `product` assume the classes were compiled with local-variable tables (`-g`, what Maven and Gradle do by default); without them the JVM names the parameter by position.
- TracingInterceptor.java calls the instance methods of service/TraceContext.java as if they were static. The model calls them on an instance.
- InventoryService.InventoryService.PublishInventoryData: `hashCode` is a function of the record here. It does not model Java's list hash of the items. An exception thrown synchronously by `KafkaTemplate.send` is not modelled; delivery failures arrive through `Completion`.
- KafkaProducerService.KafkaProducerService.SendMessage: the completion callback runs after the send returns. Here it runs immediately after the send, and the failure of a dead-letter send is not modelled.
- KafkaConsumerService.KafkaConsumerService.Listen: `convertValue` is the decoding function of the mapper. A map that converts to `null` is not modelled.
- KafkaConsumerTracingInterceptor.KafkaConsumerTracingInterceptor.OnConsume: a null topic, and the processing delay computed from the timestamp, are not modelled.
- MetricsService.MetricsService.StartDataProcessingTimer changes nothing and returns an opaque sample, so it has no contract and no row.
- Upper- and lower-casing are modelled for ASCII letters only, and `Long.parseLong` for ASCII digits only.
- KafkaConsumerService.KeyRoute, TracingInterceptor.OperationName, KafkaConsumerTracingInterceptor.OperationFor, OpenTelemetryMetricsService.KafkaAttributes, InventoryController.UploadResponse, InventoryController.DataResponse, InventoryV2Controller.OTelResponse, InventoryV2Controller.MicrometerResponse, ProductController.ReportedCount: `toLowerCase()`, `toUpperCase()` and `String.format` without an argument use the JVM's default locale. Under a Turkish locale "INVENTORY".toLowerCase() holds a dotless i and is not routed. Under a locale with other digits, such as Arabic, the counts in the success texts (InventoryController.java:80 and 128, InventoryV2Controller.java:94 and 147, ProductController.java:69 and 100) are not written in ASCII. The model is the locale-independent ASCII mapping, with the counts written by `Text.NatToString` in ASCII digits.
- TracingInterceptor.GetHeader: names are compared ignoring ASCII case only. The response headers are a map keyed by the exact name; the interceptor only ever sets X-Trace-Id.
- Utf8.DecodeFirst follows the JDK 17 decoder behind `new String(bytes, UTF_8)`. A Java String holds UTF-16 code units, while a Dafny char is a Unicode scalar value: a four-byte sequence is one char here and a surrogate pair in Java.
- MetricsService.Bump: Micrometer counters hold doubles. The model counts in unbounded integers, so the rounding of very large counts is not modelled.
- InventoryControllerTest expects success messages without the trace id. The code appends it, and the model follows the code.
- `file.getOriginalFilename()` and the span's own trace id are inputs. The OpenTelemetry trace id is a parameter of `UploadInventoryOTel`.
- KafkaConfig, OpenTelemetryConfig, WebConfig, OpenApiConfig, IndexController and the request/event DTOs are configuration or documentation, and are not part of this model.
