/**
 * service/FileIngestionService.java: decode whichever of the two multipart
 * parts is present, count its records, and answer with a three-entry map.
 * A decode error propagates out of `ingest`.
 */
module FileIngestionService {
  import opened Wrappers
  import opened Data
  import opened Exceptions
  import opened Json

  /** The values of the `Map<String, Object>` the service answers with. */
  datatype Value = IntValue(n: int) | StrValue(s: string)

  const InventoryCountKey: string := "inventoryCount"
  const ProductCountKey: string := "productCount"
  const StatusKey: string := "status"
  const Ingested: string := "INGESTED"

  /** The inventory count: 0 for an absent part, else the decoded list's length (0 if the list is null). */
  function InventoryCount(mapper: ObjectMapper, file: Option<Upload>): Result<nat, Exn> {
    if Absent(file) then Success(0)
    else match mapper.readInventory(file.value.content)
      case Failure(e) => Failure(e)
      case Success(data) => Success(if data.inventory.Some? then |data.inventory.value| else 0)
  }

  /** The product count, by the same rule (a null list reads as `List.of()`). */
  function ProductCount(mapper: ObjectMapper, file: Option<Upload>): Result<nat, Exn> {
    if Absent(file) then Success(0)
    else match mapper.readProducts(file.value.content)
      case Failure(e) => Failure(e)
      case Success(data) => Success(if data.products.Some? then |data.products.value| else 0)
  }

  /** What `ingest` returns or throws: inventory is decoded first. */
  function IngestResult(mapper: ObjectMapper, inventoryFile: Option<Upload>, productsFile: Option<Upload>): Result<map<string, Value>, Exn> {
    match InventoryCount(mapper, inventoryFile)
    case Failure(e) => Failure(e)
    case Success(i) =>
      match ProductCount(mapper, productsFile)
      case Failure(e) => Failure(e)
      case Success(p) => Success(map[InventoryCountKey := IntValue(i), ProductCountKey := IntValue(p), StatusKey := StrValue(Ingested)])
  }

  // ---------------------------------------------------------------------------
  // What `ingest` promises

  /** On a normal return the map has exactly three keys and the status is INGESTED. */
  lemma IngestKeys(mapper: ObjectMapper, inventoryFile: Option<Upload>, productsFile: Option<Upload>)
    requires IngestResult(mapper, inventoryFile, productsFile).Success?
    ensures var m := IngestResult(mapper, inventoryFile, productsFile).value;
      m.Keys == {InventoryCountKey, ProductCountKey, StatusKey} && m[StatusKey] == StrValue(Ingested)
  {
  }

  /** An absent part counts 0 and its decoder is never consulted. */
  lemma AbsentPartNotDecoded(m1: ObjectMapper, m2: ObjectMapper, inventoryFile: Option<Upload>, productsFile: Option<Upload>)
    requires Absent(inventoryFile) && m1.readProducts == m2.readProducts
    ensures IngestResult(m1, inventoryFile, productsFile) == IngestResult(m2, inventoryFile, productsFile)
    ensures IngestResult(m1, inventoryFile, productsFile).Success? ==>
      IngestResult(m1, inventoryFile, productsFile).value[InventoryCountKey] == IntValue(0)
  {
  }

  /** A present part counts the decoded list, or 0 when the decoded record has no list. */
  lemma PresentPartCounted(mapper: ObjectMapper, inventoryFile: Option<Upload>, productsFile: Option<Upload>)
    requires !Absent(inventoryFile) && mapper.readInventory(inventoryFile.value.content).Success?
    requires IngestResult(mapper, inventoryFile, productsFile).Success?
    ensures var data := mapper.readInventory(inventoryFile.value.content).value;
      IngestResult(mapper, inventoryFile, productsFile).value[InventoryCountKey] ==
        IntValue(if data.inventory.Some? then |data.inventory.value| else 0)
  {
  }

  /** An inventory decode error is what `ingest` throws, whatever the products part holds. */
  lemma InventoryErrorFirst(mapper: ObjectMapper, inventoryFile: Option<Upload>, productsFile: Option<Upload>)
    requires !Absent(inventoryFile) && mapper.readInventory(inventoryFile.value.content).Failure?
    ensures IngestResult(mapper, inventoryFile, productsFile) == Failure(mapper.readInventory(inventoryFile.value.content).error)
  {
  }

  /** Each count depends on its own part only. */
  lemma CountsIndependent(mapper: ObjectMapper, inv1: Option<Upload>, inv2: Option<Upload>, prod1: Option<Upload>, prod2: Option<Upload>)
    requires IngestResult(mapper, inv1, prod1).Success? && IngestResult(mapper, inv1, prod2).Success?
    requires IngestResult(mapper, inv2, prod1).Success?
    ensures IngestResult(mapper, inv1, prod1).value[InventoryCountKey] == IngestResult(mapper, inv1, prod2).value[InventoryCountKey]
    ensures IngestResult(mapper, inv1, prod1).value[ProductCountKey] == IngestResult(mapper, inv2, prod1).value[ProductCountKey]
  {
  }

  /** A null part and a zero-length part are the same to `ingest`. */
  lemma NullAndEmptyAlike(mapper: ObjectMapper, inventoryFile: Option<Upload>, productsFile: Option<Upload>)
    ensures IngestResult(mapper, None, productsFile) == IngestResult(mapper, Some(Upload([])), productsFile)
    ensures IngestResult(mapper, inventoryFile, None) == IngestResult(mapper, inventoryFile, Some(Upload([])))
  {
  }

  class FileIngestionService {
    const objectMapper: ObjectMapper

    constructor (objectMapper: ObjectMapper)
      ensures this.objectMapper == objectMapper
    {
      this.objectMapper := objectMapper;
    }

    /** `ingest`: fills a fresh HashMap one `put` at a time. */
    method Ingest(inventoryFile: Option<Upload>, productsFile: Option<Upload>) returns (r: Result<map<string, Value>, Exn>)
      ensures r == IngestResult(objectMapper, inventoryFile, productsFile)
    {
      var result: map<string, Value> := map[];
      if inventoryFile.Some? && !inventoryFile.value.IsEmpty() {
        var decoded := objectMapper.readInventory(inventoryFile.value.content);
        if decoded.Failure? {
          return Failure(decoded.error);
        }
        var inventoryData := decoded.value;
        result := result[InventoryCountKey := IntValue(if inventoryData.inventory.Some? then |inventoryData.inventory.value| else 0)];
      } else {
        result := result[InventoryCountKey := IntValue(0)];
      }

      if productsFile.Some? && !productsFile.value.IsEmpty() {
        var decoded := objectMapper.readProducts(productsFile.value.content);
        if decoded.Failure? {
          return Failure(decoded.error);
        }
        var productsData := decoded.value;
        var products := if productsData.products.Some? then productsData.products.value else [];
        result := result[ProductCountKey := IntValue(|products|)];
      } else {
        result := result[ProductCountKey := IntValue(0)];
      }

      result := result[StatusKey := StrValue(Ingested)];
      return Success(result);
    }
  }
}

/**
 * controller/FileUploadController.java, `ingest`: reject the request when
 * neither part carries bytes, else answer 200 with the service's map.
 */
module FileUploadController {
  import opened Wrappers
  import opened Data
  import opened Exceptions
  import opened Http
  import FileIngestionService

  const NoFileMessage: string := "At least one file (inventory or products) must be provided"

  /** The rejection body: one entry, "message". */
  function Rejection(): (r: Response<map<string, FileIngestionService.Value>>)
    ensures r.status == BadRequest && r.body.Keys == {"message"}
    ensures r.body["message"] == FileIngestionService.StrValue(NoFileMessage)
  {
    Response(BadRequest, map["message" := FileIngestionService.StrValue(NoFileMessage)])
  }

  class FileUploadController {
    const fileIngestionService: FileIngestionService.FileIngestionService

    constructor (fileIngestionService: FileIngestionService.FileIngestionService)
      ensures this.fileIngestionService == fileIngestionService
    {
      this.fileIngestionService := fileIngestionService;
    }

    /**
     * A failure is the exception `ingest` throws, which leaves the controller
     * (the IOException it declares).
     */
    method Ingest(inventory: Option<Upload>, products: Option<Upload>) returns (r: Result<Response<map<string, FileIngestionService.Value>>, Exn>)
      ensures Absent(inventory) && Absent(products) ==> r == Success(Rejection())
      ensures !(Absent(inventory) && Absent(products)) ==>
        var ingested := FileIngestionService.IngestResult(fileIngestionService.objectMapper, inventory, products);
        (ingested.Success? ==> r == Success(Response(Ok, ingested.value))) &&
        (ingested.Failure? ==> r == Failure(ingested.error))
    {
      if Absent(inventory) && Absent(products) {
        return Success(Rejection());
      }
      var ingested := fileIngestionService.Ingest(inventory, products);
      match ingested
      case Success(body) => r := Success(Response(Ok, body));
      case Failure(e) => r := Failure(e);
    }
  }
}
