/** The Kafka client types the interceptors see: record headers, a consumed
    record and a record about to be produced. A header value is modelled as
    the text its bytes carry (the interceptors write it with UTF-8 and read it
    back with UTF-8); a null value stays null. */
module Kafka {
  import opened Lang

  datatype Header = Header(key: string, value: Option<string>)

  /** `Headers.lastHeader(key)`: the header with that key nearest the end. */
  function LastHeader(headers: seq<Header>, key: string): (r: Option<Header>)
    ensures r.Some? ==> exists i :: 0 <= i < |headers| && headers[i] == r.value && r.value.key == key
                                    && forall j :: i < j < |headers| ==> headers[j].key != key
    ensures r.None? ==> forall i :: 0 <= i < |headers| ==> headers[i].key != key
  {
    if |headers| == 0 then None
    else if headers[|headers| - 1].key == key then Some(headers[|headers| - 1])
    else LastHeader(headers[..|headers| - 1], key)
  }

  /** A record handed to `ConsumerInterceptor.onConsume`. */
  datatype ConsumerRecord = ConsumerRecord(
    topic: string,
    partition: int,
    offset: int,
    key: Option<string>,   // the key's `toString()`, when the key is not null
    headers: seq<Header>)

  /** What `ProducerInterceptor.onAcknowledgement` is told about a sent record. */
  datatype RecordMetadata = RecordMetadata(topic: string, partition: int, offset: int)

  const HeadersClosedMessage := "RecordHeaders has been closed."

  /** A record handed to `ProducerInterceptor.onSend`. Only its header list
      changes; once the producer has sent the record, the headers are
      read-only and `add` throws IllegalStateException. */
  class ProducerRecord {
    const topic: string
    const partition: Option<int>
    const key: Option<string>
    const headersReadOnly: bool
    var headers: seq<Header>

    constructor (topic: string, partition: Option<int>, key: Option<string>,
                 headers: seq<Header>, headersReadOnly: bool)
      ensures this.topic == topic && this.partition == partition && this.key == key
      ensures this.headers == headers && this.headersReadOnly == headersReadOnly
    {
      this.topic := topic;
      this.partition := partition;
      this.key := key;
      this.headers := headers;
      this.headersReadOnly := headersReadOnly;
    }

    /** `headers().add(key, value)`. */
    method AddHeader(key: string, value: string) returns (result: Completion)
      modifies this
      ensures headersReadOnly ==>
                headers == old(headers) && result == Abrupt(Throwable("IllegalStateException", Some(HeadersClosedMessage)))
      ensures !headersReadOnly ==> headers == old(headers) + [Header(key, Some(value))] && result == Normal
    {
      if headersReadOnly {
        return Abrupt(Throwable("IllegalStateException", Some(HeadersClosedMessage)));
      }
      headers := headers + [Header(key, Some(value))];
      result := Normal;
    }
  }
}
