/**
 * The record types the service ingests and publishes (package `data`), an
 * uploaded multipart file, and the opaque payload a Kafka send carries.
 * Java references that may be null are `Option`s.
 */
module Data {
  import opened Wrappers
  import Utf8

  /** data/InventoryItem.java: {art_id, name, stock}. */
  datatype InventoryItem = InventoryItem(artId: Option<string>, name: Option<string>, stock: Option<string>)

  /** data/ArticleAmount.java: {art_id, amount_of}. */
  datatype ArticleAmount = ArticleAmount(artId: Option<string>, amountOf: Option<string>)

  /** data/Product.java: {name, contain_articles}; the list's elements are never dereferenced. */
  datatype Product = Product(name: Option<string>, containArticles: Option<seq<ArticleAmount>>)

  /**
   * data/InventoryData.java: {inventory: [...]}; the list is null when the
   * JSON lacks it, and an element is null where the JSON array holds `null`.
   */
  datatype InventoryData = InventoryData(inventory: Option<seq<Option<InventoryItem>>>)

  /** data/ProductsData.java: {products: [...]}, with the same two kinds of null. */
  datatype ProductsData = ProductsData(products: Option<seq<Option<Product>>>)

  /**
   * The `Object` value handed to the Kafka template: one of the records
   * above, a text message, or a dead-letter envelope.
   */
  datatype Payload =
    | InventoryPayload(inventoryData: InventoryData)
    | ProductsPayload(productsData: ProductsData)
    | TextPayload(text: string)
    | ErrorEventPayload(event: KafkaCommonErrorEvent)

  /** data/event/KafkaCommonErrorEvent.java: the dead-letter envelope of a failed send. */
  datatype KafkaCommonErrorEvent = KafkaCommonErrorEvent(
    key: Option<string>,
    originalMessage: Payload,
    originalTopic: string,
    errorMessage: Option<string>,
    timestamp: int)

  /** A multipart file part: its bytes (MultipartFile.isEmpty / getSize). */
  datatype Upload = Upload(content: seq<Utf8.Byte>) {
    predicate IsEmpty() {
      |content| == 0
    }

    function Size(): nat {
      |content|
    }
  }

  /** A Java `int`, the type of `Object.hashCode()`. */
  type Int32 = n: int | -0x8000_0000 <= n < 0x8000_0000

  /** A `System.currentTimeMillis()` reading; the clock is an input of the model. */
  type Millis = n: int | 0 <= n < 0x8000_0000_0000_0000

  /** `file == null || file.isEmpty()`. */
  predicate Absent(file: Option<Upload>) {
    file.None? || file.value.IsEmpty()
  }
}
