/**
 * Jackson's ObjectMapper as the core uses it. Parsing and serialisation
 * belong to the library, so each operation is an uninterpreted total
 * function that yields a value or the exception it throws.
 */
module Json {
  import opened Wrappers
  import opened Data
  import opened Exceptions
  import Utf8

  /** The JSON object a Kafka listener receives as a `Map`: its top-level keys and its content. */
  datatype JsonObject = JsonObject(keys: set<string>, content: seq<Utf8.Byte>)

  datatype ObjectMapper = ObjectMapper(
    /** readValue(stream, InventoryData.class) */
    readInventory: seq<Utf8.Byte> -> Result<InventoryData, Exn>,
    /** readValue(stream, ProductsData.class) */
    readProducts: seq<Utf8.Byte> -> Result<ProductsData, Exn>,
    /** writeValueAsString(inventoryData) */
    writeInventory: InventoryData -> Result<string, Exn>,
    /** convertValue(map, InventoryData.class) */
    convertInventory: JsonObject -> Result<InventoryData, Exn>,
    /** convertValue(map, ProductsData.class) */
    convertProducts: JsonObject -> Result<ProductsData, Exn>)

  /** `file.getInputStream()`: a null part makes the call throw NullPointerException. */
  function InputStream(file: Option<Upload>): (r: Result<seq<Utf8.Byte>, Exn>)
    ensures r.Success? <==> file.Some?
    ensures file.Some? ==> r.value == file.value.content
    ensures r.Failure? ==> r.error.cls == NullPointerException
  {
    match file
    case Some(f) => Success(f.content)
    case None => Failure(Exn(NullPointerException, None, None, None, None))
  }
}
