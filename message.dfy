/** A message of the current API (message.go): its AMQP properties and body, plus the three
    acknowledgement callbacks bound to the channel that delivered it. */
module Messages {
  import opened Errors
  import opened Transport

  datatype Message = Message(
    exchange: string,
    routingKey: string,
    body: seq<byte>,
    headers: Table,
    timestamp: Time,          // application-defined; 0 means unset
    contentType: string,
    correlationId: string,
    replyTo: string,
    expiration: Duration,
    transient: bool,          // store the message in memory only
    ackFunc: bool -> Option<Error>,
    rejectFunc: bool -> Option<Error>,
    nackFunc: (bool, bool) -> Option<Error>)

  /** `Ack`: acknowledges this delivery alone (`multiple` pinned to false) and returns the
      callback's error as it is. */
  function Ack(m: Message): (err: Option<Error>)
    ensures err == m.ackFunc(false)
  {
    m.ackFunc(false)
  }

  /** `Reject`: passes `requeue` through and returns the callback's error as it is. */
  function Reject(m: Message, requeue: bool): (err: Option<Error>)
    ensures err == m.rejectFunc(requeue)
  {
    m.rejectFunc(requeue)
  }

  /** `Nack`: refuses this delivery alone (`multiple` pinned to false), passes `requeue`
      through and returns the callback's error as it is. */
  function Nack(m: Message, requeue: bool): (err: Option<Error>)
    ensures err == m.nackFunc(false, requeue)
  {
    m.nackFunc(false, requeue)
  }
}
