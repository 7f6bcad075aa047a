/** The Cloud Functions of the Firestore deployment: two triggers on ride
    records and two HTTP endpoints. The store is a `Firestore` object whose
    collections are maps from document id to document; the push gateway is
    the send outcome each handler is given. */
module FirestoreFunctions {
  import opened Store
  import opened Messages
  import opened FanOut

  // ---------------------------------------------------------------------
  // HTTP replies

  datatype ReplyBody =
    | Blank
    | Plain(text: string)
    | ErrorMessage(message: string)
    | InternalError
    | Done(message: string)
    | ChatDone(message: string, results: seq<BatchResult>)

  datatype Reply = Reply(status: nat, body: ReplyBody)

  const MethodNotAllowed := "Method Not Allowed"
  const MissingIdsError := "드라이버 ID와 라이드 ID가 필요합니다"
  const DriverNotFoundError := "드라이버를 찾을 수 없습니다"
  const DriverTokenNotFoundError := "드라이버 FCM 토큰을 찾을 수 없습니다"
  const PushSentMessage := "알림이 성공적으로 전송되었습니다"
  const MissingFieldsError := "필수 정보가 누락되었습니다"
  const NoRecipientsError := "알림을 보낼 사용자가 없습니다"
  const ChatDoneMessage := "채팅 알림 처리가 완료되었습니다"

  /** An entry of a user's `notifications` sub-collection; its server
      timestamp is not modelled. */
  datatype NotificationRecord = NotificationRecord(kind: string, title: string, body: string, rideId: string, status: string, read: bool)

  // ---------------------------------------------------------------------
  // Ride created

  /** The push `sendFirestoreRideRequestNotification` sends for a created
      ride record, if any: nothing without ride data, when the driver read
      throws or finds no document, or when the driver has no `token`. */
  function RideCreatedPush(rideId: string, rideData: Option<Doc>, drivers: map<string, Doc>, faults: set<string>): Option<Message>
  {
    if rideData.None? then None
    else
      match ReadDoc(drivers, Text(rideData.value, "driver_id"), faults)
      case Found(driver) =>
        var token := ResolveToken(driver, DriverTokenFields);
        if token.Some? then Some(RideRequestMessage(rideId, rideData.value, token.value)) else None
      case _ => None
  }

  /** A created ride is pushed exactly when its driver record can be read
      and holds a `token`, and then to that token. */
  lemma RideCreatedPushIff(rideId: string, rideData: Option<Doc>, drivers: map<string, Doc>, faults: set<string>)
    ensures var m := RideCreatedPush(rideId, rideData, drivers, faults);
      && (m.Some? <==>
            && rideData.Some?
            && Present(Text(rideData.value, "driver_id"))
            && Text(rideData.value, "driver_id").value !in faults
            && Text(rideData.value, "driver_id").value in drivers
            && Present(Text(drivers[Text(rideData.value, "driver_id").value], "token")))
      && (m.Some? ==>
            m.value == RideRequestMessage(rideId, rideData.value,
                         Text(drivers[Text(rideData.value, "driver_id").value], "token").value))
  {
  }

  // ---------------------------------------------------------------------
  // Ride status changed

  /** The push `sendFirestoreRideStatusNotification` sends for an updated
      ride record, if any: nothing when the status is unchanged, when the
      user read throws or finds no document, or when the user has no
      `fcm_token`. */
  function StatusChangePush(rideId: string, before: Doc, after: Doc, users: map<string, Doc>, faults: set<string>): (m: Option<Message>)
    ensures m.Some? ==> Present(Text(after, "user_id"))
  {
    if Text(before, "status") == Text(after, "status") then None
    else
      match ReadDoc(users, Text(after, "user_id"), faults)
      case Found(user) =>
        var token := ResolveToken(user, LegacyTokenFields);
        if token.Some? then Some(StatusMessage(rideId, Text(after, "status"), token.value)) else None
      case _ => None
  }

  /** The record appended to the user's notifications once the push is sent. */
  function StatusRecord(rideId: string, after: Doc): NotificationRecord
  {
    var status := Text(after, "status");
    NotificationRecord("ride_status", StatusTitle, StatusBody(status), rideId, Show(status), false)
  }

  /** `notifications` with `record` added at the end of `uid`'s list. */
  function AppendRecord(notifications: map<string, seq<NotificationRecord>>, uid: string, record: NotificationRecord)
    : map<string, seq<NotificationRecord>>
  {
    notifications[uid := (if uid in notifications then notifications[uid] else []) + [record]]
  }

  /** A status update is pushed exactly when the status value changed and
      the ride's user can be read and holds an `fcm_token`; the push carries
      the status table's body for the new status. An unchanged status sends
      nothing. */
  lemma StatusChangePushIff(rideId: string, before: Doc, after: Doc, users: map<string, Doc>, faults: set<string>)
    ensures var m := StatusChangePush(rideId, before, after, users, faults);
      && (Text(before, "status") == Text(after, "status") ==> m.None?)
      && (m.Some? <==>
            && Text(before, "status") != Text(after, "status")
            && Present(Text(after, "user_id"))
            && Text(after, "user_id").value !in faults
            && Text(after, "user_id").value in users
            && Present(Text(users[Text(after, "user_id").value], "fcm_token")))
      && (m.Some? ==>
            && m.value == StatusMessage(rideId, Text(after, "status"), Text(users[Text(after, "user_id").value], "fcm_token").value)
            && m.value.notification.body == StatusBody(Text(after, "status")))
  {
  }

  /** The record names the new status and the body that was pushed, and is
      unread. */
  lemma StatusRecordMatchesPush(rideId: string, before: Doc, after: Doc, users: map<string, Doc>, faults: set<string>)
    requires StatusChangePush(rideId, before, after, users, faults).Some?
    ensures var m := StatusChangePush(rideId, before, after, users, faults).value;
      var r := StatusRecord(rideId, after);
      && r.kind == "ride_status" && !r.read && r.rideId == rideId
      && r.title == m.notification.title && r.body == m.notification.body
      && r.status == m.data["status"]
      && StatusNamed(r.body) == Some(r.status)
  {
    StatusBodyRoundTrip(Text(after, "status"));
  }

  // ---------------------------------------------------------------------
  // HTTP: push to driver

  datatype PushFields = PushFields(driverId: Option<string>, rideId: Option<string>,
                                   pickupAddress: Option<string>, destinationAddress: Option<string>)

  /** A request to `sendPushToDriver`; a missing JSON body is `None`. */
  datatype PushRequest = PushRequest(httpMethod: string, body: Option<PushFields>)

  /** The reply, and the message handed to the gateway, if one was. */
  datatype PushHandled = PushHandled(reply: Reply, sent: Option<Message>)

  /** `sendPushToDriver`: preflight and method checks, field validation,
      driver lookup, one send. A missing body (its destructuring throws), a
      driver read that throws and a send that throws all end in 500. */
  function PushToDriver(req: PushRequest, drivers: map<string, Doc>, faults: set<string>, outcome: SendOutcome): PushHandled
  {
    if req.httpMethod == "OPTIONS" then PushHandled(Reply(204, Blank), None)
    else if req.httpMethod != "POST" then PushHandled(Reply(405, Plain(MethodNotAllowed)), None)
    else if req.body.None? then PushHandled(Reply(500, InternalError), None)
    else
      var f := req.body.value;
      if !Present(f.driverId) || !Present(f.rideId) then PushHandled(Reply(400, ErrorMessage(MissingIdsError)), None)
      else
        match ReadDoc(drivers, f.driverId, faults)
        case Threw => PushHandled(Reply(500, InternalError), None)
        case Missing => PushHandled(Reply(404, ErrorMessage(DriverNotFoundError)), None)
        case Found(driver) =>
          var token := ResolveToken(driver, DriverTokenFields);
          if token.None? then PushHandled(Reply(404, ErrorMessage(DriverTokenNotFoundError)), None)
          else
            var message := PushToDriverMessage(f.rideId.value, f.pickupAddress, f.destinationAddress, token.value);
            if outcome == Accepted then PushHandled(Reply(200, Done(PushSentMessage)), Some(message))
            else PushHandled(Reply(500, InternalError), Some(message))
  }

  /** Whether a push-to-driver body names both ids. */
  predicate HasIds(req: PushRequest)
  {
    req.body.Some? && Present(req.body.value.driverId) && Present(req.body.value.rideId)
  }

  /** The status codes of `sendPushToDriver`, each with the exact condition
      that produces it; a message is handed to the gateway only once the
      driver's `token` is known, and only to that token. */
  lemma PushToDriverStatusCodes(req: PushRequest, drivers: map<string, Doc>, faults: set<string>, outcome: SendOutcome)
    ensures var h := PushToDriver(req, drivers, faults, outcome);
      var post := req.httpMethod == "POST";
      var id := if req.body.Some? then req.body.value.driverId else None;
      var reachable := HasIds(req) && id.value !in faults && id.value in drivers;
      && (h.reply.status == 204 <==> req.httpMethod == "OPTIONS")
      && (h.reply.status == 405 <==> req.httpMethod != "OPTIONS" && !post)
      && (h.reply.status == 400 <==> post && req.body.Some? && !HasIds(req))
      && (h.reply.status == 404 <==>
            post && HasIds(req) && id.value !in faults &&
            (id.value !in drivers || !Present(Text(drivers[id.value], "token"))))
      && (h.sent.Some? <==> post && reachable && Present(Text(drivers[id.value], "token")))
      && (h.sent.Some? ==> h.sent.value.token == Text(drivers[id.value], "token").value)
      && (h.reply.status == 200 <==> h.sent.Some? && outcome == Accepted)
      && (h.reply.status == 500 <==>
            post && (req.body.None? || (HasIds(req) && id.value in faults) || (h.sent.Some? && outcome == Rejected)))
  {
  }

  // ---------------------------------------------------------------------
  // HTTP: chat notification

  /** `receiverIds` as the request carries it: an array of ids, or anything
      else (absent included). */
  datatype Receivers = NotAnArray | Ids(ids: seq<string>)

  datatype ChatFields = ChatFields(chatRoomId: Option<string>, chatRoomName: Option<string>, messageText: Option<string>,
                                   senderName: Option<string>, senderId: Option<string>, receiverIds: Receivers)

  /** A request to `sendChatNotification`; a missing JSON body is `None`. */
  datatype ChatRequest = ChatRequest(httpMethod: string, body: Option<ChatFields>)

  /** The reply, and the multicast messages handed to the gateway, in order. */
  datatype ChatHandled = ChatHandled(reply: Reply, sent: seq<Multicast>)

  /** Every required field is present and `receiverIds` is an array (which
      may be empty). */
  predicate ChatFieldsValid(f: ChatFields)
  {
    Present(f.chatRoomId) && Present(f.messageText) && Present(f.senderName) && Present(f.senderId) && f.receiverIds.Ids?
  }

  function ChatNotification(f: ChatFields): Notification
    requires ChatFieldsValid(f)
  {
    Notification(ChatTitle(f.chatRoomName), ChatBody(f.senderName.value, f.messageText.value))
  }

  function ChatPayload(f: ChatFields): map<string, string>
    requires ChatFieldsValid(f)
  {
    ChatData(f.chatRoomId.value, f.senderId.value, f.senderName.value, f.chatRoomName)
  }

  /** What `sendChatNotification` does with a request, given the users
      collection, the receiver reads that throw, and the gateway. */
  function ChatDispatch(req: ChatRequest, users: map<string, Doc>, faults: set<string>,
                        gateway: (nat, Multicast) -> MulticastOutcome): ChatHandled
  {
    if req.httpMethod == "OPTIONS" then ChatHandled(Reply(204, Blank), [])
    else if req.httpMethod != "POST" then ChatHandled(Reply(405, Plain(MethodNotAllowed)), [])
    else if req.body.None? then ChatHandled(Reply(500, InternalError), [])
    else if !ChatFieldsValid(req.body.value) then ChatHandled(Reply(400, ErrorMessage(MissingFieldsError)), [])
    else
      var f := req.body.value;
      var tokens := ResolvedTokens(users, faults, f.receiverIds.ids);
      if tokens == [] then ChatHandled(Reply(404, ErrorMessage(NoRecipientsError)), [])
      else
        var note, data, batches := ChatNotification(f), ChatPayload(f), Batches(tokens);
        ChatHandled(Reply(200, ChatDone(ChatDoneMessage, Results(note, data, batches, gateway))),
                    Multicasts(note, data, batches))
  }

  /** Whether a chat request reaches token collection. */
  predicate ChatAccepted(req: ChatRequest)
  {
    req.httpMethod == "POST" && req.body.Some? && ChatFieldsValid(req.body.value)
  }

  /** The status codes of `sendChatNotification`. 400 for a missing field or
      a non-array `receiverIds`; 404, with nothing sent, when no receiver
      resolves to a token (an empty receiver list included); otherwise 200
      whatever the batches' outcomes. */
  lemma ChatStatusCodes(req: ChatRequest, users: map<string, Doc>, faults: set<string>,
                        gateway: (nat, Multicast) -> MulticastOutcome)
    ensures var h := ChatDispatch(req, users, faults, gateway);
      && (h.reply.status == 204 <==> req.httpMethod == "OPTIONS")
      && (h.reply.status == 405 <==> req.httpMethod != "OPTIONS" && req.httpMethod != "POST")
      && (h.reply.status == 500 <==> req.httpMethod == "POST" && req.body.None?)
      && (h.reply.status == 400 <==> req.httpMethod == "POST" && req.body.Some? && !ChatFieldsValid(req.body.value))
      && (h.reply.status == 404 <==>
            ChatAccepted(req) &&
            forall i :: 0 <= i < |req.body.value.receiverIds.ids| ==>
              ReceiverToken(users, faults, req.body.value.receiverIds.ids[i]).None?)
      && (h.reply.status == 200 <==> ChatAccepted(req) && ResolvedTokens(users, faults, req.body.value.receiverIds.ids) != [])
      && (h.reply.status != 200 ==> h.sent == [])
  {
    if ChatAccepted(req) {
      ResolvedTokensEmptyIff(users, faults, req.body.value.receiverIds.ids);
    }
  }

  /** An accepted request with an empty receiver list ends in 404 and sends
      nothing. */
  lemma ChatEmptyReceiversNotFound(req: ChatRequest, users: map<string, Doc>, faults: set<string>,
                                   gateway: (nat, Multicast) -> MulticastOutcome)
    requires ChatAccepted(req) && req.body.value.receiverIds.ids == []
    ensures ChatDispatch(req, users, faults, gateway) == ChatHandled(Reply(404, ErrorMessage(NoRecipientsError)), [])
  {
  }

  /** A 200 reply's fan-out: the N collected tokens (never more than the
      receivers) go out in ⌈N/500⌉ multicasts of 1 to 500 tokens whose token
      lists put together are the collected tokens in order; there is one
      result per multicast, whose total is that multicast's size, and the
      totals add up to N. */
  lemma ChatFanOut(req: ChatRequest, users: map<string, Doc>, faults: set<string>,
                   gateway: (nat, Multicast) -> MulticastOutcome)
    requires ChatDispatch(req, users, faults, gateway).reply.status == 200
    ensures ChatAccepted(req)
    ensures var h := ChatDispatch(req, users, faults, gateway);
      var ids := req.body.value.receiverIds.ids;
      var tokens := ResolvedTokens(users, faults, ids);
      var n := |tokens|;
      var results := h.reply.body.results;
      && h.reply.body.ChatDone?
      && 0 < n <= |ids|
      && |h.sent| == (n + MaxMulticastSize - 1) / MaxMulticastSize
      && Flatten(seq(|h.sent|, k requires 0 <= k < |h.sent| => h.sent[k].tokens)) == tokens
      && (forall k :: 0 <= k < |h.sent| ==> 0 < |h.sent[k].tokens| <= MaxMulticastSize)
      && (forall k :: 0 <= k < |h.sent| ==>
            h.sent[k].notification == ChatNotification(req.body.value) && h.sent[k].data == ChatPayload(req.body.value))
      && |results| == |h.sent|
      && (forall k :: 0 <= k < |results| ==> results[k].total == |h.sent[k].tokens|)
      && SumTotal(results) == n
  {
    var f := req.body.value;
    var tokens := ResolvedTokens(users, faults, f.receiverIds.ids);
    var note, data, batches := ChatNotification(f), ChatPayload(f), Batches(tokens);
    var h := ChatDispatch(req, users, faults, gateway);
    ResolvedTokensBounded(users, faults, f.receiverIds.ids);
    BatchesShape(tokens);
    BatchesFlatten(tokens);
    ResultsPerBatch(note, data, batches, gateway);
    ResultsTotal(note, data, batches, gateway);
    assert seq(|h.sent|, k requires 0 <= k < |h.sent| => h.sent[k].tokens) == batches;
  }

  /** A chat request for receivers U1 and U2 where only U1 has a token:
      one multicast to U1's token, one result, total 1. */
  lemma ChatOneOfTwoScenario(gateway: (nat, Multicast) -> MulticastOutcome)
    ensures var users := map["U1" := map["fcm_token" := Str("U1-token")], "U2" := map["name" := Str("B")]];
      var fields := ChatFields(Some("room"), None, Some("hi"), Some("A"), Some("S"), Ids(["U1", "U2"]));
      var h := ChatDispatch(ChatRequest("POST", Some(fields)), users, {}, gateway);
      && h.reply.status == 200
      && |h.sent| == 1 && h.sent[0].tokens == ["U1-token"]
      && h.sent[0].notification == Notification("새 채팅 메시지", "A: hi")
      && |h.reply.body.results| == 1 && h.reply.body.results[0].total == 1
  {
    var users := map["U1" := map["fcm_token" := Str("U1-token")], "U2" := map["name" := Str("B")]];
    var u1: Doc := map["fcm_token" := Str("U1-token")];
    assert ChatTokenFields[1..] == LegacyTokenFields && LegacyTokenFields[1..] == [];
    assert ResolveToken(u1, ChatTokenFields) == Some("U1-token");
    assert ReceiverToken(users, {}, "U2") == None;
    assert ["U1", "U2"][..1] == ["U1"] && ["U1"][..0] == [];
    assert ResolvedTokens(users, {}, ["U1", "U2"]) == ["U1-token"];
  }

  // ---------------------------------------------------------------------
  // The store

  class Firestore {
    var rideRequests: map<string, Doc>
    var drivers: map<string, Doc>
    var users: map<string, Doc>
    /** Each user's `notifications` sub-collection. The store gives its
        auto-id documents no order; the model keeps them as a list in the
        order they were added. */
    var notifications: map<string, seq<NotificationRecord>>

    constructor (rideRequests: map<string, Doc>, drivers: map<string, Doc>, users: map<string, Doc>,
                 notifications: map<string, seq<NotificationRecord>>)
      ensures this.rideRequests == rideRequests && this.drivers == drivers
      ensures this.users == users && this.notifications == notifications
    {
      this.rideRequests := rideRequests;
      this.drivers := drivers;
      this.users := users;
      this.notifications := notifications;
    }

    /** `sendFirestoreRideRequestNotification`: push the driver, then mark
        the ride record sent. The mark is written only after the send
        resolves, and only onto a record that still exists (an update of a
        missing document throws); nothing else changes. */
    method OnRideRequestCreated(rideId: string, rideData: Option<Doc>, faults: set<string>, outcome: SendOutcome)
      returns (sent: Option<Message>)
      modifies this`rideRequests
      ensures sent == RideCreatedPush(rideId, rideData, drivers, faults)
      ensures rideRequests ==
                if sent.Some? && outcome == Accepted && rideId in old(rideRequests)
                then old(rideRequests)[rideId := Acknowledged(old(rideRequests)[rideId])]
                else old(rideRequests)
    {
      if rideData.None? {
        return None;
      }
      var driverDoc := ReadDoc(drivers, Text(rideData.value, "driver_id"), faults);
      if !driverDoc.Found? {
        return None;
      }
      var token := ResolveToken(driverDoc.doc, DriverTokenFields);
      if token.None? {
        return None;
      }
      sent := Some(RideRequestMessage(rideId, rideData.value, token.value));
      if outcome == Accepted && rideId in rideRequests {
        rideRequests := rideRequests[rideId := Acknowledged(rideRequests[rideId])];
      }
    }

    /** `sendFirestoreRideStatusNotification`: when the status changed, push
        the user, then append the notification record. The record is
        appended only after the send resolves; nothing else changes. */
    method OnRideStatusUpdated(rideId: string, before: Doc, after: Doc, faults: set<string>, outcome: SendOutcome)
      returns (sent: Option<Message>)
      modifies this`notifications
      ensures sent == StatusChangePush(rideId, before, after, users, faults)
      ensures notifications ==
                if sent.Some? && outcome == Accepted
                then AppendRecord(old(notifications), Text(after, "user_id").value, StatusRecord(rideId, after))
                else old(notifications)
    {
      if Text(before, "status") == Text(after, "status") {
        return None;
      }
      var userDoc := ReadDoc(users, Text(after, "user_id"), faults);
      if !userDoc.Found? {
        return None;
      }
      var token := ResolveToken(userDoc.doc, LegacyTokenFields);
      if token.None? {
        return None;
      }
      sent := Some(StatusMessage(rideId, Text(after, "status"), token.value));
      if outcome == Accepted {
        notifications := AppendRecord(notifications, Text(after, "user_id").value, StatusRecord(rideId, after));
      }
    }

    /** A ride record `{driver_id: "D1", destination_address: "Airport"}`
        whose driver D1 has token "T1": the push goes to "T1" with body
        "목적지: Airport", and the ride record is marked sent. */
    static method AcknowledgementScenario()
    {
      var ride: Doc := map["driver_id" := Str("D1"), "destination_address" := Str("Airport")];
      var store := new Firestore(map["r1" := ride], map["D1" := map["token" := Str("T1")]], map[], map[]);
      var sent := store.OnRideRequestCreated("r1", Some(ride), {}, Accepted);
      assert DriverTokenFields[1..] == [];
      assert sent == Some(RideRequestMessage("r1", ride, "T1"));
      assert sent.value.notification.body == "목적지: Airport";
      assert store.rideRequests["r1"]["notification_sent"] == Flag(true);
    }

    /** `sendChatNotification`: validate, collect the receivers' tokens,
        split them into batches and multicast each batch. */
    method SendChatNotification(req: ChatRequest, faults: set<string>, gateway: (nat, Multicast) -> MulticastOutcome)
      returns (h: ChatHandled)
      ensures h == ChatDispatch(req, users, faults, gateway)
    {
      if req.httpMethod == "OPTIONS" {
        return ChatHandled(Reply(204, Blank), []);
      }
      if req.httpMethod != "POST" {
        return ChatHandled(Reply(405, Plain(MethodNotAllowed)), []);
      }
      if req.body.None? {
        return ChatHandled(Reply(500, InternalError), []);
      }
      var f := req.body.value;
      if !ChatFieldsValid(f) {
        return ChatHandled(Reply(400, ErrorMessage(MissingFieldsError)), []);
      }
      var userTokens := CollectTokens(users, faults, f.receiverIds.ids);
      if |userTokens| == 0 {
        return ChatHandled(Reply(404, ErrorMessage(NoRecipientsError)), []);
      }
      var tokenBatches := SplitBatches(userTokens);
      var sent, results := SendBatches(ChatNotification(f), ChatPayload(f), tokenBatches, gateway);
      h := ChatHandled(Reply(200, ChatDone(ChatDoneMessage, results)), sent);
    }
  }
}
