/** The AMQP transport as the library sees it (adaptor/abstractions.go): a server that dials
    connections, connections that open channels, and channels that declare topology, publish
    and consume. Nothing here performs I/O. A transport operation is a `Call` value that the
    model records, and the transport's answer reaches the model as a parameter. */
module Transport {
  import opened Errors

  newtype byte = x: int | 0 <= x < 256

  /** A `time.Time`, counted in nanoseconds from Go's zero instant. `IsZero()` is `t == 0`. */
  type Time = int

  /** A `time.Duration` in nanoseconds. */
  type Duration = int

  /** Message headers (`amqp.Table`); header values are carried as their text. */
  type Table = map<string, string>

  /** Opaque handles with identity: a connection, a channel, a delivery stream. */
  datatype Conn = Conn(id: nat)
  datatype Chan = Chan(id: nat)
  datatype Stream = Stream(id: nat)

  /** The answer of a transport call returning `(handle, error)`. On failure Go code still
      assigns whatever handle came back: with the streadway adaptor a non-nil wrapper, with
      other transports possibly none (`None`). */
  datatype Returned<+T> = Success(value: T) | Failed(leftover: Option<T>, error: Error)
  {
    /** The handle a Go assignment `x, err = call()` leaves in `x`. */
    function Handle(): Option<T>
    {
      match this
      case Success(v) => Some(v)
      case Failed(h, _) => h
    }
  }

  /** `amqp.Publishing`'s delivery-mode values. */
  const Transient: nat := 1
  const Persistent: nat := 2

  /** The properties and body of a message being published (`amqp.Publishing`).
      A delivery mode of 0 means the field was left unset. */
  datatype Publishing = Publishing(
    contentType: string,
    headers: Table,
    body: seq<byte>,
    timestamp: Time,
    correlationId: string,
    replyTo: string,
    expiration: string,
    deliveryMode: nat)

  /** What a delivery's acknowledger is asked to do, for the delivery with tag `tag`. */
  datatype Acknowledgement =
    | AckTag(tag: nat, multiple: bool)
    | RejectTag(tag: nat, requeue: bool)
    | NackTag(tag: nat, multiple: bool, requeue: bool)

  /** One message received on a delivery stream (`amqp.Delivery`). Its `acknowledger` is the
      channel that delivered it, which answers acknowledgements for its tags. */
  datatype Delivery = Delivery(
    acknowledger: Acknowledgement -> Option<Error>,
    deliveryTag: nat,
    exchange: string,
    routingKey: string,
    body: seq<byte>,
    contentType: string,
    correlationId: string,
    headers: Table,
    replyTo: string,
    timestamp: Time)

  /** What one receive from a delivery stream yields: a delivery, or the stream's closure. */
  datatype Receipt = Delivered(delivery: Delivery) | StreamClosed

  /** The requests the library makes of the transport, with the arguments it passes. */
  datatype Call =
    | Dial(url: string)
    | OpenChannel(conn: Conn)
    | NotifyClose(conn: Conn)
    | CloseConnection(conn: Conn)
    | Consume(channel: Chan, queue: string, consumer: string, autoAck: bool, exclusive: bool,
              noLocal: bool, noWait: bool)
    | Cancel(channel: Chan, consumer: string, noWait: bool)
    | CloseChannel(channel: Chan)
    | ExchangeDeclare(channel: Chan, name: string, kind: string, durable: bool, autoDelete: bool,
                      internal: bool, noWait: bool)
    | QueueDeclare(channel: Chan, name: string, durable: bool, autoDelete: bool, exclusive: bool,
                   noWait: bool)
    | QueueDelete(channel: Chan, name: string, ifUnused: bool, ifEmpty: bool, noWait: bool)
    | QueueBind(channel: Chan, name: string, key: string, exchange: string, noWait: bool)
    | QueueUnbind(channel: Chan, name: string, key: string, exchange: string)
    | Publish(channel: Chan, exchange: string, key: string, mandatory: bool, immediate: bool,
              msg: Publishing)

  /** An operation that makes a single transport call: the call, and what the operation returns. */
  datatype Issued<+T> = Issued(call: Call, result: T)

  /** The server's description of a declared queue (`amqp.Queue`). */
  datatype ServerQueue = ServerQueue(name: string, messages: nat, consumers: nat)
}
