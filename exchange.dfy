/** An exchange handle of the current API (exchange.go): a name, plus the two broker fields its
    operations read, the management channel and the automatic-timestamp switch. The broker
    never changes either after it is opened, so the handle holds their values. */
module Exchanges {
  import opened Errors
  import opened Transport
  import Properties
  import Messages
  import Queues

  datatype Exchange = Exchange(mainChan: Chan, autoTimestamp: bool, name: string)

  /** `Bind`: binds queue `q` to this exchange under `key` on the management channel. */
  function Bind(e: Exchange, q: Queues.Queue, key: string, reply: Option<Error>)
    : (r: Issued<Option<Error>>)
    ensures r.call == QueueBind(e.mainChan, q.name, key, e.name, false)
    ensures reply == None <==> r.result == None
    ensures reply.Some? ==> r.result == Some(Wrap("declare binding: ", reply.value))
  {
    var call := QueueBind(e.mainChan, q.name, key, e.name, false);
    match reply
    case None => Issued(call, None)
    case Some(err) => Issued(call, Some(Wrap("declare binding: ", err)))
  }

  /** `Unbind`: removes the binding of queue `q` to this exchange under `key`. */
  function Unbind(e: Exchange, q: Queues.Queue, key: string, reply: Option<Error>)
    : (r: Issued<Option<Error>>)
    ensures r.call == QueueUnbind(e.mainChan, q.name, key, e.name)
    ensures reply == None <==> r.result == None
    ensures reply.Some? ==> r.result == Some(Wrap("declare queue unbind: ", reply.value))
  {
    var call := QueueUnbind(e.mainChan, q.name, key, e.name);
    match reply
    case None => Issued(call, None)
    case Some(err) => Issued(call, Some(Wrap("declare queue unbind: ", err)))
  }

  /** The delivery mode a message is sent with. */
  function DeliveryMode(transient: bool): (mode: nat)
    ensures mode == Transient <==> transient
    ensures mode == Persistent <==> !transient
  {
    if transient then Transient else Persistent
  }

  /** `Send`: publishes `msg` to this exchange, whatever exchange the message names, and returns
      the transport's answer as it is. `now` is the clock reading taken for the timestamp. */
  function Send(e: Exchange, msg: Messages.Message, now: Time, reply: Option<Error>)
    : (r: Issued<Option<Error>>)
    ensures r.call.Publish? && r.call.channel == e.mainChan
    ensures r.call.exchange == e.name && r.call.key == msg.routingKey
    ensures !r.call.mandatory && !r.call.immediate
    ensures r.call.msg.timestamp == Properties.FillTimestamp(e.autoTimestamp, msg.timestamp, now)
    ensures r.call.msg.expiration == Properties.Expiration(msg.expiration)
    ensures r.call.msg.deliveryMode == DeliveryMode(msg.transient)
    ensures r.call.msg.contentType == msg.contentType && r.call.msg.headers == msg.headers
    ensures r.call.msg.body == msg.body && r.call.msg.correlationId == msg.correlationId
    ensures r.call.msg.replyTo == msg.replyTo
    ensures r.result == reply
  {
    var timestamp := Properties.FillTimestamp(e.autoTimestamp, msg.timestamp, now);
    var publishing := Publishing(
      msg.contentType, msg.headers, msg.body, timestamp, msg.correlationId, msg.replyTo,
      Properties.Expiration(msg.expiration), DeliveryMode(msg.transient));
    Issued(Publish(e.mainChan, e.name, msg.routingKey, false, false, publishing), reply)
  }

  /** What `Send` puts on the wire is determined by the exchange and the message's own
      properties: the exchange a message names never matters. */
  lemma SendIgnoresMessageExchange(e: Exchange, msg: Messages.Message, other: string, now: Time,
                                   reply: Option<Error>)
    ensures Send(e, msg.(exchange := other), now, reply) == Send(e, msg, now, reply)
  {
  }
}
