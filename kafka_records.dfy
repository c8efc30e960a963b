/**
 * The parts of Kafka's ProducerRecord, ConsumerRecord and Headers that the
 * interceptors touch. Header values are raw bytes and may be null.
 */
module KafkaRecords {
  import opened Wrappers
  import Utf8

  datatype Header = Header(key: string, value: Option<seq<Utf8.Byte>>)

  /** Headers.lastHeader(key): the header with that key that was added last, or null. */
  function LastHeader(headers: seq<Header>, key: string): (h: Option<Header>)
    ensures h.Some? ==> h.value.key == key && h.value in headers
    ensures h.None? <==> forall i :: 0 <= i < |headers| ==> headers[i].key != key
  {
    if headers == [] then None
    else if headers[|headers| - 1].key == key then Some(headers[|headers| - 1])
    else LastHeader(headers[..|headers| - 1], key)
  }

  /** Adding a header makes it the last one for its key and hides no other key. */
  lemma LastHeaderOfAdd(headers: seq<Header>, h: Header, key: string)
    ensures LastHeader(headers + [h], key) == if key == h.key then Some(h) else LastHeader(headers, key)
  {
    assert (headers + [h])[..|headers|] == headers;
  }

  /** A ProducerRecord: fixed topic, key and value; headers that interceptors add to in place. */
  class ProducerRecord {
    const topic: string
    const key: Option<string>
    const value: string
    var headers: seq<Header>

    constructor (topic: string, key: Option<string>, value: string)
      ensures this.topic == topic && this.key == key && this.value == value && headers == []
    {
      this.topic := topic;
      this.key := key;
      this.value := value;
      headers := [];
    }
  }

  /** A ConsumerRecord as the consumer interceptor sees it. */
  datatype ConsumerRecord = ConsumerRecord(topic: string, key: Option<string>, value: string, headers: seq<Header>)
}
