/** The pull front end of a queue (queue.go). A `Queue` opens its own channel lazily on the
    first `Next`/`NextWithTimeout`, consumes from it, and keeps the last message and the last
    error for the caller to read. Each operation returns, besides its Go result, the transport
    calls it made, in order; the transport's answers are parameters. */
module Queues {
  import opened Errors
  import opened Transport
  import Messages

  /** The message `Next` hands out for a delivery: the delivery's properties and body, and its
      channel's acknowledgements bound to the delivery's tag. Expiration and Transient only
      matter when publishing and stay at their zero values. */
  function FromDelivery(d: Delivery): (m: Messages.Message)
    ensures m.exchange == d.exchange && m.routingKey == d.routingKey && m.body == d.body
    ensures m.contentType == d.contentType && m.correlationId == d.correlationId
    ensures m.headers == d.headers && m.replyTo == d.replyTo && m.timestamp == d.timestamp
    ensures m.expiration == 0 && !m.transient
  {
    Messages.Message(
      d.exchange, d.routingKey, d.body, d.headers, d.timestamp, d.contentType,
      d.correlationId, d.replyTo, 0, false,
      (multiple: bool) => d.acknowledger(AckTag(d.deliveryTag, multiple)),
      (requeue: bool) => d.acknowledger(RejectTag(d.deliveryTag, requeue)),
      (multiple: bool, requeue: bool) => d.acknowledger(NackTag(d.deliveryTag, multiple, requeue)))
  }

  /** Acknowledging a received message asks the delivering channel about that delivery's tag
      alone, and reports the channel's answer unchanged. */
  lemma AcknowledgeReceived(d: Delivery, requeue: bool)
    ensures Messages.Ack(FromDelivery(d)) == d.acknowledger(AckTag(d.deliveryTag, false))
    ensures Messages.Reject(FromDelivery(d), requeue) == d.acknowledger(RejectTag(d.deliveryTag, requeue))
    ensures Messages.Nack(FromDelivery(d), requeue)
         == d.acknowledger(NackTag(d.deliveryTag, false, requeue))
  {
  }

  /** The outcome of waiting on the delivery stream with a timer running. */
  datatype Wait = Received(receipt: Receipt) | TimedOut

  /** What a queue holds between calls: its channel and the delivery stream consumed on it. */
  datatype Hold = Hold(channel: Option<Chan>, stream: Option<Stream>)

  /** A queue that holds a channel also holds a stream to receive from. `Next` opens a channel
      only when it holds none, so a queue outside this state never opens again and waits on a
      stream it does not have. */
  predicate Receivable(h: Hold)
  {
    h.channel.Some? ==> h.stream.Some?
  }

  /** What `beginConsuming` leaves, with the channel forgotten after a failed open as it is
      after a failed consume. */
  function Begin(h: Hold, openResult: Returned<Chan>, consumeResult: Returned<Stream>): (r: Hold)
    ensures Receivable(r)
    ensures r.channel.Some? <==> openResult.Success? && consumeResult.Success?
    ensures openResult.Failed? ==> r.stream == h.stream
  {
    if openResult.Failed? then Hold(None, h.stream)
    else if consumeResult.Failed? then Hold(None, consumeResult.Handle())
    else Hold(Some(openResult.value), Some(consumeResult.value))
  }

  /** What `beginConsuming` leaves as written (queue.go:138-142): a failed open stores the
      handle that came back. Past a successful open it agrees with `Begin`. */
  function BeginAsWritten(h: Hold, openResult: Returned<Chan>, consumeResult: Returned<Stream>)
    : (r: Hold)
    ensures openResult.Success? ==> r == Begin(h, openResult, consumeResult)
    ensures openResult.Failed? ==> r.channel == openResult.leftover && r.stream == h.stream
  {
    if openResult.Failed? then Hold(openResult.Handle(), h.stream)
    else Begin(h, openResult, consumeResult)
  }

  /** As written, a failed open that hands back a channel handle strands a queue that has no
      stream yet: it holds a channel, so `Next` does not open again, and no stream, so `Next`
      waits forever. The streadway adaptor (adaptor/streadway/adaptor.go:25-27) hands back such
      a handle on every failure: a nil channel inside a non-nil interface. */
  lemma BeginAsWrittenStrands(h: Hold, c: Chan, e: Error, consumeResult: Returned<Stream>)
    requires h.stream == None
    ensures BeginAsWritten(h, Failed(Some(c), e), consumeResult).channel == Some(c)
    ensures !Receivable(BeginAsWritten(h, Failed(Some(c), e), consumeResult))
    ensures Receivable(Begin(h, Failed(Some(c), e), consumeResult))
  {
  }

  class Queue {
    // The broker's connection and management channel, which the broker never replaces.
    const connection: Conn
    const mainChan: Chan
    const name: string               // the name the server reported when declaring
    const consumeExclusive: bool
    const consumerName: string

    var err: Option<Error>
    var channel: Option<Chan>
    var msg: Option<Messages.Message>
    var msgsChan: Option<Stream>

    /** A held channel always comes with its stream. */
    ghost predicate Valid()
      reads this
    {
      Receivable(Hold(channel, msgsChan))
    }

    constructor (connection: Conn, mainChan: Chan, name: string, consumeExclusive: bool,
                 consumerName: string)
      ensures Valid()
      ensures this.connection == connection && this.mainChan == mainChan && this.name == name
      ensures this.consumeExclusive == consumeExclusive && this.consumerName == consumerName
      ensures err == None && channel == None && msg == None && msgsChan == None
    {
      this.connection := connection;
      this.mainChan := mainChan;
      this.name := name;
      this.consumeExclusive := consumeExclusive;
      this.consumerName := consumerName;
      err := None;
      channel := None;
      msg := None;
      msgsChan := None;
    }

    /** The consume request `beginConsuming` sends on channel `ch`. */
    function ConsumeCall(ch: Chan): Call
    {
      Consume(ch, name, consumerName, false, consumeExclusive, false, false)
    }

    /** `beginConsuming`: opens a channel on the broker's connection and starts consuming this
        queue on it. A failed consume closes the channel and forgets it, so that the next call
        opens a fresh one; a failed open forgets whatever handle came back in the same way
        (`BeginAsWritten` keeps it, as the code does). */
    method BeginConsuming(openResult: Returned<Chan>, consumeResult: Returned<Stream>)
      returns (ok: bool, calls: seq<Call>)
      modifies this`channel, this`msgsChan, this`err
      ensures Valid()
      ensures Hold(channel, msgsChan) == Begin(old(Hold(channel, msgsChan)), openResult, consumeResult)
      ensures ok <==> openResult.Success? && consumeResult.Success?
      ensures openResult.Failed? ==>
                err == Some(Wrap("open channel: ", openResult.error))
                && calls == [OpenChannel(connection)]
      ensures openResult.Success? && consumeResult.Failed? ==>
                err == Some(Wrap("begin consuming: ", consumeResult.error))
                && calls == [OpenChannel(connection), ConsumeCall(openResult.value),
                             CloseChannel(openResult.value)]
      ensures ok ==>
                err == old(err) && calls == [OpenChannel(connection), ConsumeCall(openResult.value)]
    {
      calls := [OpenChannel(connection)];
      if openResult.Failed? {
        channel := None;
        err := Some(Wrap("open channel: ", openResult.error));
        return false, calls;
      }
      var ch := openResult.value;
      channel := Some(ch);
      calls := calls + [ConsumeCall(ch)];
      msgsChan := consumeResult.Handle();
      if consumeResult.Failed? {
        // The answer of this close is ignored.
        calls := calls + [CloseChannel(ch)];
        channel := None;
        err := Some(Wrap("begin consuming: ", consumeResult.error));
        return false, calls;
      }
      ok := true;
    }

    /** `Next`: clears the error, opens and starts consuming when no channel is held, then takes
        the next receipt from the delivery stream, which a held channel always comes with.
        A delivery replaces the stored message; a closed stream returns false and keeps it. */
    method Next(openResult: Returned<Chan>, consumeResult: Returned<Stream>, receipt: Receipt)
      returns (ok: bool, calls: seq<Call>)
      requires Valid()
      modifies this`channel, this`msgsChan, this`err, this`msg
      ensures Valid()
      ensures old(channel).Some? ==>
                calls == [] && channel == old(channel) && msgsChan == old(msgsChan) && err == None
      ensures old(channel) == None ==>
                Hold(channel, msgsChan) == Begin(old(Hold(channel, msgsChan)), openResult, consumeResult)
      ensures old(channel) == None && openResult.Failed? ==>
                !ok && calls == [OpenChannel(connection)]
                && err == Some(Wrap("open channel: ", openResult.error))
      ensures old(channel) == None && openResult.Success? && consumeResult.Failed? ==>
                !ok && err == Some(Wrap("begin consuming: ", consumeResult.error))
                && calls == [OpenChannel(connection), ConsumeCall(openResult.value),
                             CloseChannel(openResult.value)]
      ensures old(channel) == None && openResult.Success? && consumeResult.Success? ==>
                err == None && calls == [OpenChannel(connection), ConsumeCall(openResult.value)]
      ensures ok <==> channel.Some? && err == None && receipt.Delivered?
      ensures ok ==> msg == Some(FromDelivery(receipt.delivery))
      ensures !ok ==> msg == old(msg)
    {
      err := None;
      calls := [];
      if channel == None {
        var begun;
        begun, calls := BeginConsuming(openResult, consumeResult);
        if !begun {
          return false, calls;
        }
      }
      match receipt
      case StreamClosed =>
        ok := false;
      case Delivered(d) =>
        msg := Some(FromDelivery(d));
        ok := true;
    }

    /** `NextWithTimeout`: as `Next`, but the wait for a receipt races a timer. When the timer
        wins, the call returns false and leaves the message, the channel and the stream as they
        were, so a later call still consumes from the same channel. */
    method NextWithTimeout(timeout: Duration, openResult: Returned<Chan>, consumeResult: Returned<Stream>,
                           outcome: Wait)
      returns (ok: bool, calls: seq<Call>)
      requires Valid()
      modifies this`channel, this`msgsChan, this`err, this`msg
      ensures Valid()
      ensures old(channel).Some? ==>
                calls == [] && channel == old(channel) && msgsChan == old(msgsChan) && err == None
      ensures old(channel) == None ==>
                Hold(channel, msgsChan) == Begin(old(Hold(channel, msgsChan)), openResult, consumeResult)
      ensures old(channel) == None && openResult.Failed? ==>
                !ok && calls == [OpenChannel(connection)]
                && err == Some(Wrap("open channel: ", openResult.error))
      ensures old(channel) == None && openResult.Success? && consumeResult.Failed? ==>
                !ok && err == Some(Wrap("begin consuming: ", consumeResult.error))
                && calls == [OpenChannel(connection), ConsumeCall(openResult.value),
                             CloseChannel(openResult.value)]
      ensures old(channel) == None && openResult.Success? && consumeResult.Success? ==>
                err == None && calls == [OpenChannel(connection), ConsumeCall(openResult.value)]
      ensures ok <==> channel.Some? && err == None && outcome.Received? && outcome.receipt.Delivered?
      ensures ok ==> msg == Some(FromDelivery(outcome.receipt.delivery))
      ensures !ok ==> msg == old(msg)
    {
      err := None;
      calls := [];
      if channel == None {
        var begun;
        begun, calls := BeginConsuming(openResult, consumeResult);
        if !begun {
          return false, calls;
        }
      }
      match outcome
      case TimedOut =>
        ok := false;
      case Received(StreamClosed) =>
        ok := false;
      case Received(Delivered(d)) =>
        msg := Some(FromDelivery(d));
        ok := true;
    }

    /** `Message`: the last message received, unchanged. */
    function Message(): (m: Option<Messages.Message>)
      reads this
      ensures m == msg
    {
      msg
    }

    /** `Error`: the error of the last `Next`/`NextWithTimeout`, unchanged. */
    function Error(): (e: Option<Errors.Error>)
      reads this
      ensures e == err
    {
      err
    }

    /** `Delete`: deletes this queue through the broker's management channel, unconditionally. */
    method Delete(reply: Option<Errors.Error>) returns (e: Option<Errors.Error>, call: Call)
      ensures call == QueueDelete(mainChan, name, false, false, false)
      ensures reply == None ==> e == None
      ensures reply.Some? ==> e == Some(Wrap("delete queue: ", reply.value))
    {
      call := QueueDelete(mainChan, name, false, false, false);
      if reply.Some? {
        return Some(Wrap("delete queue: ", reply.value)), call;
      }
      e := None;
    }

    /** `Close`: nothing to do before the first `Next`. Otherwise cancels the consumer, and only
        when that succeeds closes the channel; the first failure is returned wrapped. Neither
        the channel nor the stored message is forgotten. */
    method Close(cancelReply: Option<Errors.Error>, closeReply: Option<Errors.Error>)
      returns (e: Option<Errors.Error>, calls: seq<Call>)
      ensures channel == None ==> e == None && calls == []
      ensures channel.Some? && cancelReply.Some? ==>
                e == Some(Wrap("stop consumer: ", cancelReply.value))
                && calls == [Cancel(channel.value, consumerName, false)]
      ensures channel.Some? && cancelReply == None ==>
                calls == [Cancel(channel.value, consumerName, false), CloseChannel(channel.value)]
                && e == (if closeReply.Some? then Some(Wrap("close channel: ", closeReply.value))
                         else None)
    {
      calls := [];
      if channel == None {
        return None, calls;
      }
      var ch := channel.value;
      calls := [Cancel(ch, consumerName, false)];
      if cancelReply.Some? {
        return Some(Wrap("stop consumer: ", cancelReply.value)), calls;
      }
      calls := calls + [CloseChannel(ch)];
      if closeReply.Some? {
        return Some(Wrap("close channel: ", closeReply.value)), calls;
      }
      e := None;
    }
  }
}
