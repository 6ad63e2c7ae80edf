# bcamqp, sequential core

bcamqp is a Go client layer over an AMQP 0-9-1 broker connection. It gives callers a broker
handle, declares exchanges and queues, publishes messages and hands out received messages that
can be acknowledged. The repository holds two generations of the broker side by side. This
project models both as separate modules.

- **Current generation**:
  - `Brokers` (broker.go): opening the broker, declaring exchanges and queues, the
    disconnect-listener list, and the teardown that collects every failure;
  - `Queues` (queue.go): the pull front end of a queue, a state machine over its own channel,
    its delivery stream, the last message and the last error;
  - `Exchanges` (exchange.go): bind, unbind and send;
  - `Messages` (message.go): acknowledgement forwarding.
- **Older generation**, `Messaging` (messaging.go): a broker with a ready flag, a gate around
  its management channel, a set of connection observers, a disconnect handler and a reconnect
  timer, and its own message type.
- **Shared support**:
  - `Errors`: Go's wrapped errors (`fmt.Errorf` with `%w`, `errors.Unwrap`, `errors.Is`);
  - `Transport`: the transport abstraction of adaptor/abstractions.go;
  - `Properties`: the conversions both generations apply when publishing. These are the
    expiration as whole milliseconds in decimal, and the timestamp filled in only when it is
    zero.

The transport does no I/O here:
- Every request the library makes is a `Call` value. Each operation returns its calls, in
  order, as an out-parameter.
- Every answer the transport gives is a parameter of the operation: a handle or an error, a
  delivery, a closed stream, or a timer that fired first.
- `time.Now()` is a parameter `now`.

Where a Go assignment `x, err = call()` stores a handle even on failure, the model stores
`Returned.Handle()`, which is the leftover handle the failed call returned. With the streadway
adaptor this leftover is never nil:
- a failed dial still returns a connection wrapper (adaptor/streadway/adaptor.go:16-19);
- a failed channel open returns a nil channel inside a non-nil interface (adaptor/streadway/adaptor.go:25-27).

The model leaves the leftover open, either none or some handle, and its contracts hold for
both. For a queue, keeping such a channel after a failed open leaves the queue stuck; see
"## Findings". The queue model therefore forgets the channel after a failed open.

In these places the model follows the code:
- The reconnect delay is `reconnectAttempts * 5` seconds, and nothing ever changes
  `reconnectAttempts`. So every reconnect is scheduled after 0 seconds and the delay never
  grows (`Messaging.Broker.Valid`).
- When the channel fails to open after a successful dial, the connection is not closed
  (broker.go:25-28, messaging.go:69-72).
- Observers are told in the unspecified order of a Go map, not in registration order.
- The older `Close` only closes the connection. It leaves the observers to the disconnect
  handler.
- Declaring an exchange does no default-exchange validation.

## Model

| member | source | states |
|---|---|---|
| Errors.Wrap | broker.go:22 | wrapping with `%w` prefixes the text and keeps the cause reachable by `errors.Unwrap` |
| Properties.Milliseconds | exchange.go:58 | `Duration.Milliseconds` truncates toward zero: for a non-negative duration the result is the whole milliseconds it holds, for a negative one it rounds up |
| Properties.Decimal | exchange.go:58 | `strconv.FormatInt(n, 10)` for n >= 0 is a canonical decimal: digits only, no leading zero except "0" itself |
| Properties.ParseDecimalOfDecimal | exchange.go:58 | the decimal text reads back as the number it was made from |
| Properties.DecimalOfParseDecimal | exchange.go:58 | every canonical decimal text is the formatting of the number it denotes, so the formatting is a bijection onto canonical texts |
| Properties.Expiration | exchange.go:56-59 | the expiration property is empty exactly when the duration is not positive, and otherwise a canonical decimal |
| Properties.ExpirationValue | exchange.go:56-59 | a positive duration gives a canonical decimal that reads back as the duration in whole milliseconds |
| Properties.SubMillisecondExpiration | messaging.go:156-159 | a positive duration under one millisecond gives "0", not the empty string |
| Properties.FillTimestamp | exchange.go:52-54 | a non-zero timestamp is never changed; the result differs from the timestamp only when auto-timestamping is on and the timestamp is zero, and then it is `now` |
| Properties.FillTimestampIdempotent | messaging.go:152-154 | filling twice (at two different clock readings) gives what filling once gave |
| Messages.Ack | message.go:26-28 | calls the ack callback with multiple = false and returns its error as it is |
| Messages.Reject | message.go:32-34 | passes requeue to the reject callback and returns its error as it is |
| Messages.Nack | message.go:38-40 | calls the nack callback with multiple = false and requeue unchanged, returning its error as it is |
| Queues.FromDelivery | queue.go:36-48 | the message copies the delivery's exchange, routing key, body, content type, correlation id, headers, reply-to and timestamp; expiration and transient stay zero |
| Queues.AcknowledgeReceived | queue.go:45-47 | acking, rejecting or nacking a received message asks the delivering channel about exactly that delivery's tag, with multiple = false, and returns the channel's answer unchanged |
| Queues.Begin | queue.go:136-164 | the channel and stream `beginConsuming` leaves: a channel is held exactly when both the open and the consume succeeded, and a held channel always comes with its stream |
| Queues.BeginAsWritten | queue.go:138-142 | as written, a failed open stores the handle that came back and keeps the old stream; past a successful open it agrees with `Begin` |
| Queues.BeginAsWrittenStrands | queue.go:138-142 | as written, a failed open that hands back a channel leaves a queue that has no stream holding that channel, so `Next` never opens again (queue.go:25) and waits on no stream (queue.go:31); `Begin` leaves no such state |
| Queues.Queue.constructor | broker.go:83-88 | a new queue handle has the server's queue name, the consume options, no channel, no stream, no message and no error |
| Queues.Queue.BeginConsuming | queue.go:136-164 | opens a channel on the broker connection, then consumes the queue with manual acks; the new channel and stream are `Begin` of the old ones; an open failure is wrapped "open channel: "; a consume failure closes the channel, forgets it and is wrapped "begin consuming: "; a held channel always has its stream afterwards |
| Queues.Queue.Next | queue.go:22-51 | clears the error; opens and consumes only when no channel is held, so a held channel is reused with no transport call and the same stream; the channel and stream after an open are `Begin`'s, on either failure too; returns true exactly when a channel is held, no error occurred and a delivery arrived, which then replaces the message; otherwise the message is unchanged |
| Queues.Queue.NextWithTimeout | queue.go:53-91 | as Next, and a timeout returns false leaving the message, the channel and the stream as they were |
| Queues.Queue.Message | queue.go:93-95 | returns the stored message unchanged |
| Queues.Queue.Error | queue.go:97-99 | returns the stored error unchanged |
| Queues.Queue.Delete | queue.go:101-113 | deletes the queue by name on the management channel without conditions; a failure is wrapped "delete queue: ", success returns none |
| Queues.Queue.Close | queue.go:115-134 | with no channel it makes no call and returns none; otherwise it cancels the consumer, closes the channel only if the cancel succeeded, and returns the first failure wrapped "stop consumer: " or "close channel: " |
| Exchanges.Bind | exchange.go:18-31 | binds the queue's name under the key to the exchange's own name on the management channel; none exactly when the transport answered none, otherwise the answer wrapped "declare binding: " |
| Exchanges.Unbind | exchange.go:32-44 | the same for unbinding, wrapped "declare queue unbind: " |
| Exchanges.DeliveryMode | exchange.go:61-64 | the delivery mode is Transient exactly when the message is transient, and Persistent exactly when it is not |
| Exchanges.Send | exchange.go:51-84 | publishes on the management channel to the exchange's own name with the message's routing key, neither mandatory nor immediate, with the filled timestamp, the expiration text, the delivery mode and the message's other properties, and returns the transport's answer as it is |
| Exchanges.SendIgnoresMessageExchange | exchange.go:68-72 | the exchange named in the message never changes what is sent |
| Brokers.Broker.constructor | broker.go:11-16 | a zero broker has no connection, no management channel, no listeners and auto-timestamping off |
| Brokers.Broker.Open | broker.go:18-40 | a dial failure is wrapped "dial: " before any channel is opened; a channel failure is wrapped "open management channel: "; auto-timestamping is set, and the close notification requested, only after both succeeded |
| Brokers.Broker.UnregisterDisconnectListener | broker.go:42-48 | the in-place deletion loop leaves exactly `AfterUnregister` of the old list, which skips the entry right after each deletion |
| Brokers.AfterUnregister | broker.go:42-48 | the list the in-place loop leaves, with the entry right after each deletion skipped; it never grows, and it shrinks whenever the listener is present |
| Brokers.UnregisterKeepsOthers | broker.go:42-48 | every listener other than the removed one stays, in its original relative order |
| Brokers.UnregisterAbsent | broker.go:43-46 | unregistering an absent listener leaves the list unchanged |
| Brokers.UnregisterUnique | broker.go:43-46 | when the listener occurs at most once, it is removed, the list shrinks by exactly its count, and nothing else changes |
| Brokers.UnregisterKeepsSecondOfPair | broker.go:43-46 | of two adjacent copies of the listener, the second survives the loop |
| Brokers.Broker.GetExchange | broker.go:50-68 | declares the exchange with autoDelete = not durable, not internal, waiting for the answer; a failure is wrapped "declare exchange: " and gives no handle; success gives a handle with the option's name |
| Brokers.Broker.GetQueue | broker.go:70-89 | declares the queue with autoDelete = not durable; a failure is wrapped "declare queue: " and gives no handle; success gives a new queue handle named as the server reported, with the consume options and no channel, stream, message or error |
| Brokers.FailuresEmptyIff | broker.go:94-99 | the collected failures are empty exactly when every reply was none |
| Brokers.Broker.JoinMessages | broker.go:115-120 | the builder loop yields the error texts in order, joined by ", " |
| Brokers.JoinStartsWithFirst | broker.go:115-120 | the joined text starts with the first message: no leading separator |
| Brokers.JoinLength | broker.go:115-120 | the joined text is the messages' total length plus one separator between each two, so no trailing separator |
| Brokers.Broker.Close | broker.go:91-123 | tells every listener in list order, then closes the management channel, then the connection, whatever failed before; returns none exactly when every step succeeded, otherwise one error whose text is the failures in order (channel and connection failures prefixed "close main channel: " and "close broker connection: ") joined by ", " |
| Brokers.FormatNoOperandsPlain | broker.go:122 | a text without `%` is printed unchanged when used as a format with no operands |
| Brokers.FormatNoOperandsPrefix | broker.go:122 | a `%`-free prefix passes through the format unchanged |
| Brokers.CloseErrorAsWritten | broker.go:122 | the error `Close` returns as written: the joined messages read as a `fmt` format with no operands (flags, width and precision skipped, `%%` printed as `%`, any other verb as `%!v(MISSING)`, a missing verb as `%!(NOVERB)`), and no cause left for `errors.Unwrap` |
| Brokers.CloseAsWrittenWithoutPercent | broker.go:122 | the code as written returns the joined text when no message contains `%` |
| Brokers.CloseAsWrittenAltersPercent | broker.go:122 | the code as written appends "!(NOVERB)" to a failure text ending in `%`, for every `%`-free text before it: "disk 100%" becomes "disk 100%!(NOVERB)" |
| Brokers.CloseAsWrittenReadsFlag | broker.go:122 | the code as written reads a space after `%` as a flag and the next character as a verb with no operand, for every text around it: "disk 50% full" becomes "disk 50%!f(MISSING)ull" |
| Messaging.Url | messaging.go:41-51 | the broker URL starts with the scheme, "://", the user and ":", and ends with "@" and the host address |
| Messaging.UrlScheme | messaging.go:41-48 | the URL's scheme is "amqps" exactly when encryption is asked for, and "amqp" exactly when it is not |
| Messaging.Ack | messaging.go:132-134 | calls the ack callback with multiple = false and returns its error as it is |
| Messaging.Reject | messaging.go:138-140 | passes requeue to the reject callback and returns its error as it is |
| Messaging.Nack | messaging.go:144-146 | calls the nack callback with multiple = false and requeue unchanged |
| Messaging.PublishingOf | messaging.go:152-177 | the published properties carry the filled timestamp, the expiration text, the message's other properties, and no delivery mode |
| Messaging.Broker.New | messaging.go:40-58 | a new broker has the URL built from the options, is not ready, has no observers and holds its gate |
| Messaging.Broker.NotifyObservers | messaging.go:81-83 | every observer in the set is told exactly once, and nobody else |
| Messaging.Broker.Connect | messaging.go:61-86 | a dial or channel failure returns "could not connect to broker: " or "could not open channel to broker: " and leaves the gate held, the ready flag alone and no observer told; success requests the close notification, opens the gate, becomes ready and tells every observer handleConnect |
| Messaging.Broker.DisconnectHandler | messaging.go:88-112 | takes the gate, stops being ready and tells every observer handleDisconnect; schedules a reconnect exactly when the close was abnormal, after 0 seconds |
| Messaging.Broker.RetryConnect | messaging.go:104-111 | the timer connects as `Connect` does, with the same handles, error texts, gate, ready flag and observer notifications, and leaves the URL, the switch, the observers and the counter alone; on failure it reschedules itself after 0 seconds |
| Messaging.Broker.Publish | messaging.go:151-179 | publishes on the management channel to the message's own exchange and routing key, neither mandatory nor immediate, with `PublishingOf` properties, and returns the transport's answer as it is |
| Messaging.Broker.Close | messaging.go:182-186 | stops being ready and closes the connection, ignoring its answer |
| Messaging.Broker.Subscribe | messaging.go:188-190 | the observer set gains the observer: set insertion, so subscribing twice is subscribing once |
| Messaging.Broker.Unsubscribe | messaging.go:192-194 | the observer set loses the observer; an absent observer leaves it unchanged |

## Left out

- consumer.go is not part of this model. It is goroutines, a mutex held across a goroutine's
  lifetime as a readiness gate, and blocking hand-offs.
- Concurrency in the two broker generations is reduced to its sequential effects:
  - The close-notification goroutine (broker.go:33-37) becomes the recorded `NotifyClose`
    request.
  - The disconnect goroutine and the `time.AfterFunc` timer (messaging.go:76, 104-111) become
    the methods `DisconnectHandler` and `RetryConnect`, which the environment calls. A
    scheduled reconnect is a recorded `ScheduleReconnect` step.
- Messaging.Broker.Publish: waiting for the gate is stated as the precondition that the gate
  is open. Taking and releasing the gate inside the call has no lasting effect and is not
  modelled.
- Messaging.Broker.Connect: requires the gate to be held. Releasing a mutex that is not locked
  is a fatal runtime error in Go, and that failure is not modelled.
- Messaging.Broker.Close, Brokers.Broker.Close, Brokers.Broker.GetExchange and
  Brokers.Broker.GetQueue require the broker's handles to exist. On an unopened broker Go
  panics, and that panic is not modelled.
  - In `Messaging.Broker.Close` the connection is a `*amqp.Connection` pointer
    (messaging.go:31), so the panic is a nil-pointer dereference inside the library's `Close`
    (messaging.go:185).
  - In the current generation the handles are interfaces, so the panic is a method call on a
    nil interface.
  - `GetQueue` never reads the connection itself (broker.go:70-89). It requires the connection
    because the queue handle stores it for `beginConsuming`.
  - `open` sets the connection before the management channel (broker.go:20-25), so whenever the
    channel exists the connection does too.
- The OpenTelemetry header injection in `Send` (exchange.go:66) is not modelled, and neither
  is the `ctx` parameter that carries it.
- Header values (`interface{}` in Go) are modelled as their text.
- Messaging.Url: user, password and address appear in the URL unescaped. Go's
  `url.UserPassword` and `URL.String` escape reserved characters in them, and that escaping is
  not modelled.
- `onClose` in `open` is only passed on to the notification goroutine, so it is not modelled.
- The user-built messages' callbacks may be nil in Go, which panics on `Ack`. In the model,
  every message carries total callbacks.
- The transport adaptors (adaptor/streadway, adaptor/mock), declarations.go, api.go, doc.go
  and the example and API tests are not part of this model. The transport's signatures follow
  adaptor/abstractions.go.
- `disconnectListener` is not defined in the shown files. It is modelled as an identity with
  equality whose `onDisconnect` answer is a parameter of `Close`.
- Messaging.Broker.Valid states that `reconnectAttempts` stays 0. No code in the file changes
  it, so growing backoff is not modelled.
- Brokers.CloseErrorAsWritten covers the formats that use no argument index (`%[n]v`) and no
  `*` width or precision. Those read operands that do not exist, and the model leaves such
  texts out of its domain.
- Queues.Queue.Next and Queues.Queue.NextWithTimeout take the receipt as a parameter. Receipts
  are assumed consistent with the stream's history, so a stream that has closed delivers
  nothing more. A queue whose stream closed therefore stays dead, as a queue that does not
  survive a broker disconnect must.

## Findings

| source | as written | input that shows it | evidently intended | confidence | as-written member | corrected member |
|---|---|---|---|---|---|---|
| queue.go:138-142 | a failed channel open stores the handle it returned; with the streadway adaptor that handle is a nil channel inside a non-nil interface, so the queue holds a channel but no stream | a new queue whose first channel open fails, then `Next` again: it skips `beginConsuming` (queue.go:25) and receives from the nil stream (queue.go:31), which blocks forever; `NextWithTimeout` can only time out | forget the channel after a failed open, as queue.go:157 does after a failed consume, so that the next call opens again | not executed | Queues.BeginAsWrittenStrands | Queues.Queue.BeginConsuming |
| broker.go:122 | the joined failure messages are passed to `fmt.Errorf` as the format string, so `%` sequences in them are read as verbs | one failure whose text is "disk 100%": the returned error reads "disk 100%!(NOVERB)" | return the joined messages verbatim (`errors.New`) | not executed | Brokers.CloseAsWrittenAltersPercent | Brokers.Broker.Close |
