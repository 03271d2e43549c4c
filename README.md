# Chat-Bridge relay core, in Dafny

Chat-Bridge is a small Express + Socket.IO server (`server/server.js`). It sits
between a Facebook Messenger page webhook and connected Flutter clients. It
answers the webhook verification handshake and rebroadcasts every incoming page
message to all clients as a `new_message` event. It also echoes each message
back to the sender through the Messenger Send API. A development endpoint
broadcasts a synthetic test message. GET /health reports how many clients are
connected.

This project models the decision logic of those handlers and the registry of
connected clients. Each handler becomes a function of its inputs. Its effects
(the `new_message` emits and the reply payloads it would post) are returned as
values in order instead of being performed.

Modules:

- `Decimal` (decimal.dfy): decimal numerals for naturals. This is how the
  template literal `${timestamp}` prints an integral timestamp. It also holds
  the parse back.
- `Messages` (messages.dfy): the broadcast record `NormalizedMessage` and the
  Send API body `OutboundReply`. It defines `Echoes`, the replies that answer a
  run of broadcasts, and the `<prefix>_<number>` message id with its split.
- `Http` (http.dfy): status plus body (`Response`), and `Outcome`, which is a
  response with the broadcasts and replies made while producing it.
- `Webhook` (webhook.dfy): GET /webhook (`Verify`) and POST /webhook.
  `Receive` is the POST handler as a function. `PostWebhook` is the handler's
  loop over the entries, proved equal to `Receive`.
- `TestMessage` (test_message.dfy): POST /test-message, including JavaScript's
  `||` defaulting.
- `Registry` (registry.dfy): the `connectedClients` set as a class
  (`ConnectionRegistry`). It has connect, disconnect and health methods. The
  pure `Step`/`Replay` functions state the effect of socket events, and lemmas
  cover idempotence and counting.

Details the model takes from the code as written:

- A rejected verification answers exactly `403 "Forbidden"`, not merely some
  403 that withholds the challenge.
- A test message id is exactly `test_<Date.now()>`, not an arbitrary unique
  token.
- A successful verification with no `hub.challenge` parameter sends an empty
  200 body, because `res.send(undefined)` sends nothing.

## Model

| member | source | states |
|---|---|---|
| `Webhook.Verify` | server/server.js:42-54 | Status is 200 iff `hub.mode` is "subscribe" and `hub.verify_token` equals the configured token. Then the body is exactly the challenge, or empty when there is none. Otherwise the response is exactly 403 "Forbidden", whatever the challenge. |
| `Webhook.Receive` | server/server.js:57-73 | A body whose `object` is not "page" gets 404 "Not Found" with no broadcasts and no replies. A "page" body always gets 200 "EVENT_RECEIVED", however many entries produced messages. The replies are always the echoes of the broadcasts, one for one, in order. |
| `Webhook.PostWebhook` | server/server.js:57-73 | The handler's forEach over the entries, accumulating emits and replies, gives exactly the outcome `Receive` specifies. |
| `Webhook.Relay` | server/server.js:61-67 | The effects of the entry loop: every broadcast is followed by its echo reply, so the reply sequence is `Echoes` of the broadcast sequence. |
| `Webhook.RelayAppend` | server/server.js:61-67 | Entries are processed in order. The effects of a concatenation of entry lists are the effects of the first list followed by those of the second. |
| `Webhook.Carrying` | server/server.js:61-66 | The reference definition of the events that get handled. An event is among them iff it is `messaging[0]` of some entry and carries a message. There are at most as many as entries. |
| `Webhook.CarryingOne` | server/server.js:62-64 | A single entry contributes its `messaging[0]` exactly when that event carries a message, and nothing otherwise. |
| `Webhook.CarryingAppend` | server/server.js:61-66 | The handled events of a concatenation of entry lists are those of the first list followed by those of the second, so they follow entry order. |
| `Webhook.RelayFollowsCarrying` | server/server.js:61-66 | The broadcasts are exactly one normalised message per entry whose `messaging[0]` carries a message, in entry order. |
| `Webhook.LaterEventsIgnored` | server/server.js:62 | Two entry lists that agree on every entry's first event relay identically. Events at index 1 and beyond never matter. |
| `Webhook.EntryWithoutMessageSkipped` | server/server.js:64-66 | Removing an entry whose first event has no message changes nothing. |
| `Webhook.NormalizeFields` | server/server.js:76-90 | A webhook message copies sender id, text and timestamp from the event and has platform "messenger". Its id is `senderId + "_" + timestamp`, and sender and timestamp can be read back from it. |
| `Webhook.HandleMessage` | server/server.js:76-97 | handleMessage emits exactly one message carrying the event's sender and text. It then sends exactly one reply, the echo of that message. |
| `Webhook.SingleMessageExample` | server/server.js:57-108 | One entry with "hi" from U1 at 1000 ms yields 200 "EVENT_RECEIVED". It broadcasts exactly {id "U1_1000", sender "U1", text "hi", messenger} and replies exactly {recipient "U1", text "Echo: hi"}. |
| `Messages.Echoes` | server/server.js:93-96 | There is exactly one reply per broadcast. |
| `Messages.EchoesAt` | server/server.js:96-108 | The k-th reply goes to the k-th broadcast's sender with text "Echo: " followed by that broadcast's text. |
| `Messages.EchoesAppend` | server/server.js:61-67 | Replies to a run of broadcasts followed by another are the replies to each run in turn. |
| `Messages.MessageIdRoundTrip` | server/server.js:85 | Splitting an id `prefix_number` at its last underscore returns the prefix and the number, even when the prefix contains underscores. |
| `Messages.SplitMessageIdSound` | server/server.js:85 | Every id that splits is `MessageId` of its two parts. Together with the round trip, ids and (prefix, number) pairs are in one-to-one correspondence. |
| `Messages.MessageIdInjective` | server/server.js:85 | Different (sender, timestamp) pairs never share a message id. |
| `Decimal.FromNat` | server/server.js:85 | The rendering of a timestamp is a non-empty digit string with no leading zero, except "0" itself. |
| `Decimal.ToNatFromNat` | server/server.js:85 | Parsing the rendering of n gives n. |
| `Decimal.FromNatToNat` | server/server.js:85 | Rendering the value of a canonical numeral gives the numeral back. |
| `TestMessage.OrDefault` | server/server.js:137-138 | JavaScript or-defaulting of a string field: a non-empty value is kept, an absent or empty one becomes the fallback. The result is non-empty whenever the fallback is. |
| `TestMessage.PostTestMessage` | server/server.js:132-145 | The endpoint answers 200 {success: true, message: "Test message sent"}. It broadcasts exactly one message with platform "test", timestamp `now` and id `test_<clock>`. The sender is the given one if non-empty, else "test_user". The text is the given one if non-empty, else "Test message". It produces no reply. |
| `TestMessage.TestMessageNeverBlank` | server/server.js:137-138 | Whatever the request, the test message's sender and text are non-empty. |
| `TestMessage.EmptyBodyUsesDefaults` | server/server.js:133-141 | An empty request body broadcasts exactly {"test_" + clock, "test_user", "Test message", now, test}. |
| `Registry.Step` | server/server.js:30-34 | After a connect the id is present; after a disconnect it is absent. No other id's membership changes. |
| `Registry.StepIdempotent` | server/server.js:30-34 | Repeating a connect or a disconnect of the same id leaves the set unchanged. |
| `Registry.StepSize` | server/server.js:30-34 | A connect grows the set by one iff the id is new. A disconnect shrinks it by one iff the id is present. |
| `Registry.SessionCount` | server/server.js:25-34 | From an empty registry, N distinct connects followed by disconnects of M distinct ones of those ids leave exactly N - M clients (and M <= N). |
| `Registry.ConnectionRegistry.constructor` | server/server.js:25 | The registry starts empty. |
| `Registry.ConnectionRegistry.Connect` | server/server.js:28-39 | On `connection` the set becomes `Step(old, Connected(id))` and the new client is told "Connected to server". |
| `Registry.ConnectionRegistry.Disconnect` | server/server.js:32-35 | On `disconnect` the set becomes `Step(old, Disconnected(id))`. |
| `Registry.ConnectionRegistry.Health` | server/server.js:123-129 | GET /health answers 200 with status "OK" and `connectedClients` equal to the registry's current size. |

## Left out

- Express, CORS and body-parser middleware, Socket.IO server setup and event dispatch, and `server.listen` with its port configuration. These are library wiring. Each handler is a function or method of its decoded inputs.
- Fan-out of `io.emit`: a broadcast is a returned value. Delivering it to each socket is Socket.IO's work. The source never reads `connectedClients` when it emits, so the registry is not consulted for delivery.
- The outbound `fetch` to the Send API, its access-token query string, its promise chain and its error logging. These are a fire-and-forget network call. Only the JSON body it would post (`OutboundReply`) is modelled.
- Dates: timestamps are epoch milliseconds as `nat`. `new Date(timestamp)` in a message and the ISO string in /health are not built. `Date.now()` and `new Date()` in /test-message, and `new Date()` in /health, are parameters (`clockMs`, `now`).
- Payloads that make the POST handler throw on a "page" body. The datatypes cannot express a missing `entry` array, an entry without a `messaging` field (a `standby` or `changes` entry, say) or an event without `sender`: `WebhookBody.entry`, `Entry.messaging` and `MessagingEvent.senderId` always exist, so such bodies are outside the model. An entry whose `messaging` array is empty can be expressed, and `Webhook.WellFormed` excludes it for "page" bodies only, since other bodies are never inspected. The emits made before such a throw are not modelled.
- An event whose `message` object has no `text`, which would be broadcast without text and echoed as "Echo: undefined". `MessagingEvent.message` is the text itself, so a message object is assumed to carry one.
- Request values that are not strings. A repeated `hub.mode` or `hub.verify_token` parameter arrives as an array, which never equals a string, so it gets 403. A repeated `hub.challenge` is never compared: with a valid mode and token, Express sends the array as JSON with status 200. `Webhook.Verify` takes the challenge as a string or absent, so a non-string challenge is outside the model. Non-string /test-message fields are also outside it (0, false and null fall back to the default; other values pass through). Only strings and absence are modelled.
- `Decimal.FromNat`: does not model JavaScript number printing for values at or above 10^21 (exponent notation) or the loss of precision above 2^53. Real epoch-millisecond timestamps are far below both.
- `console.log` output, environment configuration, and the empty token placeholders. The verify token is a parameter of `Webhook.Verify`. The page access token only appears in the left-out fetch.
- Ordering between socket events and HTTP requests. Each connect, disconnect or request is one atomic step.
