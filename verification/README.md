# Ride notification dispatcher — Dafny model

This project models the push-notification dispatch of a ride-hailing
backend built on Cloud Functions. When a ride request is created, a ride's
status changes, or a client asks for a push to a driver or for a chat
notification, a handler looks up the recipient's device token, builds the
notification (title, body, data payload) and hands it to the push gateway.
After a successful send, both ride-created triggers mark the ride record
`notification_sent`, and the Firestore status trigger appends a record to
the user's notifications. The HTTP endpoints and the older status trigger
write nothing.

There are two deployments:

- The current Firestore functions (`ploRide_DataBaseTest/functions/index.js`).
  There are two triggers on `rideRequests` documents and two HTTP endpoints,
  `sendPushToDriver` and `sendChatNotification`.
- The older Realtime Database functions (`functions/index.js`). These have
  the same formatting, but driver tokens come from `fcm_token`, and the
  status trigger neither compares statuses nor writes anything.

Modules, one file each:

- `Store` (`store.dfy`) covers records as maps from field name to value.
  - JavaScript truthiness and `||` fallbacks.
  - A Firestore read by id: found, missing, or throws.
  - Token lookup as an ordered list of candidate fields, plus the
    `notification_sent` write-back.
- `Messages` (`messages.dfy`) holds the literal texts and the message
  formats.
  - The ride-status table, with an inverse that reads the status back out
    of a body.
  - The 97 + `...` truncation of chat text.
- `FanOut` (`fanout.dfy`) is the chat fan-out.
  - It collects receiver tokens in order, cuts them into batches of at most
    500, and records one `{total, success, failure}` result per batch.
  - Each of these is a loop method proved against a recursive specification
    function, with lemmas about that function.
- `FirestoreFunctions` (`firestore_functions.dfy`) contains:
  - The class `Firestore`, whose fields are the `rideRequests`, `drivers`,
    `users` and per-user `notifications` collections, as maps.
  - The two triggers, as methods that update those maps.
  - The chat endpoint, as a read-only method.
  - The push-to-driver endpoint, as a function.
- `RealtimeFunctions` (`realtime_functions.dfy`) contains the class
  `RealtimeDatabase` with the ride-created trigger, and the status trigger as
  a function.

External calls are parameters:

- A single gateway send is a given `SendOutcome`: `Accepted` when it
  resolves, `Rejected` when it throws.
- A multicast is given by a function from the call's index and message to
  an outcome. The outcome is either the gateway's success and failure counts
  or `MulticastThrew`.
- Firestore reads that throw are named by a set `faults` of document ids.

Reads are the store's, not the handlers' logic. `Store.ReadDoc` reads a
Firestore document by id: an undefined or empty id, or an id in `faults`,
throws; otherwise the document is found or missing.
`RealtimeFunctions.Child` reads a Realtime Database node by key: an empty
key or an absent node gives nothing. The handlers' lemmas below state their
conditions directly in terms of the collections and `faults`.

`FirestoreFunctions.Firestore.AcknowledgementScenario` calls the
ride-created trigger on one concrete store: a ride for driver `D1`, whose
`token` is `T1`. Its assertions, proved by the verifier, state that the push
goes to `T1` with the body `목적지: Airport` and that the ride record is then
marked sent.

Two behaviours of the code worth noting:

- An empty `receiverIds` array passes validation. It then ends in 404, "no
  user to notify", not in a client error.
- Tokens are collected into a list, not a set. A token that two receivers
  share is sent twice.

## Model

| member | source | states |
|---|---|---|
| `Store.ResolveToken` | ploRide_DataBaseTest/functions/index.js:305-307 | Gives the first candidate field holding a non-empty token. Gives none exactly when no candidate field holds one. |
| `Store.ChatTokenPrefersCanonical` | ploRide_DataBaseTest/functions/index.js:304-305 | The chat lookup takes `token` when it is present, and otherwise `fcm_token` if that is present. |
| `Store.Acknowledged` | ploRide_DataBaseTest/functions/index.js:79-82 | The write-back adds `notification_sent: true` and a send time, and leaves every other field of the ride record as it was. |
| `Messages.RideRequestFallbacks` | ploRide_DataBaseTest/functions/index.js:55-69 | A missing destination gives the body `목적지: 알 수 없음`. A present one gives `목적지: <destination>`. The data has exactly the six keys, and each optional field is the record's value when present, and `''` exactly when it is absent. |
| `Messages.PushToDriverFallbacks` | ploRide_DataBaseTest/functions/index.js:226-239 | A missing destination gives the body `목적지: 알 수 없음`; a present one gives `목적지: <destination>`. The data has exactly the keys `ride_id`, `click_action`, `destination` and `pickup`, each address being the request's value or `''` when it is absent, and the message goes to the driver's token. |
| `Messages.DefaultBodyIsNotFixed` | ploRide_DataBaseTest/functions/index.js:122-137 | The interpolated default body never equals one of the four fixed bodies. |
| `Messages.StatusBodyRoundTrip` | ploRide_DataBaseTest/functions/index.js:122-137 | The status can be read back from every status body. The fixed bodies name their status, and the default body holds the raw status between its fixed prefix and suffix. |
| `Messages.StatusBodyDefaultIff` | ploRide_DataBaseTest/functions/index.js:122-137 | The body is `탑승 상태가 {status}로 변경되었습니다` exactly when the status is not `accepted`, `arrived`, `ontrip` or `completed`. |
| `Messages.StatusBodyDistinguishes` | functions/index.js:114-129 | Two statuses share a body only if they render the same. |
| `Messages.ChatBodyBudget` | ploRide_DataBaseTest/functions/index.js:342 | The chat body is `{senderName}: ` followed by the message part. The sender prefix is not counted. The message part is the text itself exactly when the text has at most 100 characters. Otherwise it is exactly 100 characters: the text's first 97, then `...`. |
| `Messages.ChatTitleFallback` | ploRide_DataBaseTest/functions/index.js:341-352 | The title is `chatRoomName`, or `새 채팅 메시지` when it is absent. The data carries the room name or `''`, tagged `chat_message`. |
| `FanOut.ResolvedTokensAppend` | ploRide_DataBaseTest/functions/index.js:294-318 | Collecting over `a + b` gives the tokens of `a` followed by those of `b`. Order is kept and duplicates are not removed. |
| `FanOut.ResolvedTokensBounded` | ploRide_DataBaseTest/functions/index.js:294-318 | There are never more tokens than receivers, and every token is one that some receiver resolves to. |
| `FanOut.ResolvedTokensEmptyIff` | ploRide_DataBaseTest/functions/index.js:294-324 | No token is collected exactly when no receiver resolves to one. An empty receiver list is included. |
| `FanOut.CollectTokens` | ploRide_DataBaseTest/functions/index.js:294-318 | The loop collects exactly the specified tokens, in receiver order. It skips missing users, users without a token, and reads that throw. |
| `FanOut.BatchesFlatten` | ploRide_DataBaseTest/functions/index.js:327-332 | Put back together, the batches are the token list, in order. |
| `FanOut.BatchesShape` | ploRide_DataBaseTest/functions/index.js:327-332 | N tokens make ⌈N/500⌉ batches. Each batch holds 1 to 500 tokens, and all but the last are full. |
| `FanOut.SplitBatches` | ploRide_DataBaseTest/functions/index.js:326-332 | The index loop stepping by 500 produces exactly the specified batches. |
| `FanOut.Multicasts` | ploRide_DataBaseTest/functions/index.js:337-362 | There is one multicast per batch, in order, each carrying the same notification and data and its own batch's tokens. |
| `FanOut.ResultsPerBatch` | ploRide_DataBaseTest/functions/index.js:364-381 | There is one result per batch, in order, and its total is that batch's size. A batch whose send threw is recorded as success 0, failure total. Every other batch keeps its own gateway counts. |
| `FanOut.SendBatches` | ploRide_DataBaseTest/functions/index.js:334-382 | The loop sends every batch, including those after a failed one, and records exactly the specified results. |
| `FanOut.ResultsTotal` | ploRide_DataBaseTest/functions/index.js:368-380 | The batch totals add up to the number of tokens sent. |
| `FanOut.ResultsAccounting` | ploRide_DataBaseTest/functions/index.js:366-372 | If every answering gateway call counts each token of its batch once, then successes plus failures add up to the number of tokens. |
| `FirestoreFunctions.RideCreatedPushIff` | ploRide_DataBaseTest/functions/index.js:28-69 | A created ride is pushed exactly when it has data, its `driver_id` reads a driver document, and that document holds a `token`. The push goes to that token with the ride message. |
| `FirestoreFunctions.StatusChangePush` | ploRide_DataBaseTest/functions/index.js:98-116 | A push happens only for a ride record that names its user. |
| `FirestoreFunctions.StatusChangePushIff` | ploRide_DataBaseTest/functions/index.js:92-154 | An unchanged status sends nothing. A push happens exactly when the status changed, the user reads, and the user holds an `fcm_token`. It carries the table's body for the new status. |
| `FirestoreFunctions.StatusRecordMatchesPush` | ploRide_DataBaseTest/functions/index.js:158-170 | The appended record has type `ride_status` and `read: false`. It carries the pushed title and body, the ride id, and the new status, and its body names that status. |
| `FirestoreFunctions.PushToDriverStatusCodes` | ploRide_DataBaseTest/functions/index.js:184-249 | Each status code holds under its exact condition: 204 for OPTIONS; 405 for any other non-POST; 400 without `driverId` or `rideId`; 404 when there is no driver document or `token`; 200 after a successful send; 500 on a missing body, a failed read or a failed send. A message goes only to the driver's `token`. |
| `FirestoreFunctions.ChatStatusCodes` | ploRide_DataBaseTest/functions/index.js:253-393 | 400 exactly when a required field is missing or `receiverIds` is not an array. 404 exactly when no receiver resolves to a token. 200 otherwise, whatever the batches' outcomes. Nothing is sent unless the reply is 200. |
| `FirestoreFunctions.ChatEmptyReceiversNotFound` | ploRide_DataBaseTest/functions/index.js:279-324 | A valid request with an empty `receiverIds` array ends in 404, with nothing sent. |
| `FirestoreFunctions.ChatFanOut` | ploRide_DataBaseTest/functions/index.js:294-388 | A 200 reply covers N tokens, with 0 < N ≤ number of receivers. They go out in ⌈N/500⌉ multicasts of 1 to 500 tokens, which concatenate to the collected tokens. Each result's total is its multicast's size, and the totals add up to N. |
| `FirestoreFunctions.ChatOneOfTwoScenario` | ploRide_DataBaseTest/functions/index.js:294-382 | When only U1 of receivers U1 and U2 has a token, there is one multicast, to U1's token, with one result of total 1. |
| `FirestoreFunctions.Firestore.OnRideRequestCreated` | ploRide_DataBaseTest/functions/index.js:28-89 | The trigger sends the specified push. It marks the ride record sent only when a push was sent and resolved and the record still exists. Otherwise the record is unchanged, and no other collection changes. |
| `FirestoreFunctions.Firestore.OnRideStatusUpdated` | ploRide_DataBaseTest/functions/index.js:92-177 | The trigger sends the specified push. It appends the notification record to the user's list only after that push resolves. Otherwise nothing is written. |
| `FirestoreFunctions.Firestore.SendChatNotification` | ploRide_DataBaseTest/functions/index.js:253-393 | The handler's reply and the multicasts it sends are exactly those of the chat specification over the stored users. |
| `RealtimeFunctions.RideCreatedPushIff` | functions/index.js:27-63 | Absent ride data sends nothing. A push happens exactly when the driver node exists and holds an `fcm_token`, and it goes to that token. A driver with only `token` is not pushed. |
| `RealtimeFunctions.StatusPushIff` | functions/index.js:83-143 | A push happens exactly when the ride node names a user whose node holds an `fcm_token`. No previous status is compared. The body comes from the same status table and names the new status. |
| `RealtimeFunctions.RealtimeDatabase.OnRideRequestCreated` | functions/index.js:27-80 | The trigger sends the specified push. It writes `notification_sent` onto the ride node only after the send resolves, creating the node if it is gone. Otherwise nothing changes. |

## Left out

- Firebase calls are not modelled as calls. Reads are maps plus a set of failing ids. Sends are given outcomes. `async`/`await`, retries and concurrency are not modelled.
- Writes that themselves fail are not modelled: a `Firestore` `update`/`add` or a Realtime Database `update` that throws after a successful send. Like a failed send, such a write leaves the store as it was, and the model does not distinguish it.
- A user's `notifications` sub-collection holds auto-id documents in no particular order. The model keeps them as a list in the order they were added; that order is the model's choice.
- Server timestamps are an opaque `ServerTimestamp` value. The notification record's timestamp is not carried.
- CORS headers and `console.log`/`console.error` output are not modelled. This includes the 50-character log preview of the chat text.
- The constant platform hints (`sound`, `apns.payload.aps`) are not carried in the multicast message.
- Record fields the handlers read as text are assumed to hold strings. A non-string value in such a field reads as undefined, including in the `===` status comparison.
- Request bodies are likewise assumed to carry strings, and `receiverIds` an array of strings.
- Keys are looked up in flat maps. A Firestore id containing `/` would address a nested path, and so would a Realtime Database key containing `/` in `drivers/${driver_id}` or `/users/${user_id}`. A Realtime Database key containing `.`, `#`, `$`, `[` or `]` makes `ref()` throw, which the handler catches, so nothing is sent. The model treats all of these keys like any other.
- In the Realtime Database, a failed read ends like a missing node: no push, no write.
- An empty Realtime Database key addresses the collection node itself. The model treats it as holding no token.
- `StatusMessage`: an undefined new status is rendered as `undefined` in the body, the data payload and the notification record. The gateway's and the store's rejection of an undefined data value is not modelled.
- String length is the length of a `seq<char>`. JavaScript counts UTF-16 code units, so the two differ for characters outside the Basic Multilingual Plane.
- The chat-thread trigger is not part of this model: its direction disambiguation, `lastMessage` change detection and chat-collection name matching are not in the modelled files.
- The iOS app delegate and the lint configuration are not part of this model.
