/** Records, the log they are appended to, and what a producer learns about an append. */
module Kafka {
  import opened Headers
  import opened Events

  datatype Message = Message(topic: string, key: string, value: Payload, headers: seq<Header>)

  /** Fate of one synchronous produce: appended and acknowledged, dropped, or appended with the ack lost. */
  datatype Fate = Acked | Dropped | AckLost

  class Broker {
    var log: seq<Message>

    constructor ()
      ensures log == []
    {
      log := [];
    }

    method Publish(message: Message, fate: Fate) returns (ok: bool)
      modifies this
      ensures ok <==> fate.Acked?
      ensures log == old(log) + (if fate.Dropped? then [] else [message])
    {
      if !fate.Dropped? {
        log := log + [message];
      }
      ok := fate.Acked?;
    }
  }

  /** A polled record; its header slice is shared with whoever holds the record. */
  class Record {
    const topic: string
    const key: string
    const value: Payload
    const headers: HeaderList

    constructor (topic: string, key: string, value: Payload, headers: HeaderList)
      ensures this.topic == topic && this.key == key && this.value == value && this.headers == headers
    {
      this.topic, this.key, this.value, this.headers := topic, key, value, headers;
    }

    function Polled(): Message
      reads this, headers
    {
      Message(topic, key, value, headers.items)
    }
  }
}
