/** The push messages the dispatcher builds, and what the push gateway
    answers. Every text here is a fixed literal, a field of the triggering
    record or request, or the fallback that stands in for a missing field. */
module Messages {
  import opened Store

  const ClickAction := "FLUTTER_NOTIFICATION_CLICK"

  const RideRequestTitle := "새로운 탑승 요청"
  const DestinationLabel := "목적지: "
  const UnknownDestination := "알 수 없음"

  const StatusTitle := "탑승 상태 업데이트"
  const AcceptedBody := "드라이버가 요청을 수락했습니다"
  const ArrivedBody := "드라이버가 픽업 장소에 도착했습니다"
  const OnTripBody := "운행이 시작되었습니다"
  const CompletedBody := "운행이 완료되었습니다"
  const ChangedPrefix := "탑승 상태가 "
  const ChangedSuffix := "로 변경되었습니다"

  const ChatFallbackTitle := "새 채팅 메시지"
  const ChatMessageType := "chat_message"
  /** Longest message text a chat body carries unchanged. */
  const MaxMessageLength := 100
  /** How much of a longer text is kept before the ellipsis. */
  const KeptLength := 97
  const Ellipsis := "..."

  datatype Notification = Notification(title: string, body: string)

  /** A single-target push (`messaging().send`). */
  datatype Message = Message(notification: Notification, data: map<string, string>, token: string)

  /** A multi-target push (`messaging().sendMulticast`). */
  datatype Multicast = Multicast(notification: Notification, data: map<string, string>, tokens: seq<string>)

  /** What a single send does: it resolves, or it throws. */
  datatype SendOutcome = Accepted | Rejected

  /** What a multicast send does: it resolves with the gateway's per-token
      counts, or it throws. */
  datatype MulticastOutcome = Counted(successCount: nat, failureCount: nat) | MulticastThrew

  // ---------------------------------------------------------------------
  // Ride created / push to driver

  /** `목적지: ${destination || '알 수 없음'}` */
  function DestinationBody(destination: Option<string>): string
  {
    DestinationLabel + OrElse(destination, UnknownDestination)
  }

  /** The driver's notification for a newly created ride record. */
  function RideRequestMessage(rideId: string, ride: Doc, token: string): Message
  {
    Message(
      Notification(RideRequestTitle, DestinationBody(Text(ride, "destination_address"))),
      map[
        "ride_id" := rideId,
        "click_action" := ClickAction,
        "destination" := OrElse(Text(ride, "destination_address"), ""),
        "pickup" := OrElse(Text(ride, "pickup_address"), ""),
        "rider_name" := OrElse(Text(ride, "rider_name"), ""),
        "rider_phone" := OrElse(Text(ride, "rider_phone"), "")
      ],
      token)
  }

  /** The driver's notification built from a push-to-driver request body. */
  function PushToDriverMessage(rideId: string, pickup: Option<string>, destination: Option<string>, token: string): Message
  {
    Message(
      Notification(RideRequestTitle, DestinationBody(destination)),
      map[
        "ride_id" := rideId,
        "click_action" := ClickAction,
        "destination" := OrElse(destination, ""),
        "pickup" := OrElse(pickup, "")
      ],
      token)
  }

  /** Missing optional fields of a ride record become fallback strings: the
      body names an unknown destination, the data fields become empty, and
      the message goes to the given token. */
  lemma RideRequestFallbacks(rideId: string, ride: Doc, token: string)
    ensures var m := RideRequestMessage(rideId, ride, token);
      && m.token == token
      && m.notification.title == RideRequestTitle
      && (!Present(Text(ride, "destination_address")) ==> m.notification.body == "목적지: 알 수 없음")
      && (Present(Text(ride, "destination_address")) ==>
            m.notification.body == "목적지: " + Text(ride, "destination_address").value)
      && m.data.Keys == {"ride_id", "click_action", "destination", "pickup", "rider_name", "rider_phone"}
      && m.data["ride_id"] == rideId
      && (Present(Text(ride, "destination_address")) <==> m.data["destination"] != "")
      && (Present(Text(ride, "pickup_address")) <==> m.data["pickup"] != "")
      && (Present(Text(ride, "rider_name")) <==> m.data["rider_name"] != "")
      && (Present(Text(ride, "rider_phone")) <==> m.data["rider_phone"] != "")
      && (Present(Text(ride, "destination_address")) ==> m.data["destination"] == Text(ride, "destination_address").value)
      && (Present(Text(ride, "pickup_address")) ==> m.data["pickup"] == Text(ride, "pickup_address").value)
      && (Present(Text(ride, "rider_name")) ==> m.data["rider_name"] == Text(ride, "rider_name").value)
      && (Present(Text(ride, "rider_phone")) ==> m.data["rider_phone"] == Text(ride, "rider_phone").value)
  {
  }

  /** The push-to-driver message follows the same fallbacks on the request's
      addresses: the body names an unknown destination when there is none,
      and each data field is the given address or empty. */
  lemma PushToDriverFallbacks(rideId: string, pickup: Option<string>, destination: Option<string>, token: string)
    ensures var m := PushToDriverMessage(rideId, pickup, destination, token);
      && m.token == token
      && m.notification.title == RideRequestTitle
      && (!Present(destination) ==> m.notification.body == "목적지: 알 수 없음")
      && (Present(destination) ==> m.notification.body == "목적지: " + destination.value)
      && m.data.Keys == {"ride_id", "click_action", "destination", "pickup"}
      && m.data["ride_id"] == rideId
      && m.data["destination"] == (if Present(destination) then destination.value else "")
      && m.data["pickup"] == (if Present(pickup) then pickup.value else "")
  {
  }

  // ---------------------------------------------------------------------
  // Ride status changed

  /** The four statuses with a fixed body. */
  const KnownStatuses: set<Option<string>> :=
    {Some("accepted"), Some("arrived"), Some("ontrip"), Some("completed")}

  /** The `switch (newStatus)` table, with its interpolated default. */
  function StatusBody(status: Option<string>): string
  {
    if status == Some("accepted") then AcceptedBody
    else if status == Some("arrived") then ArrivedBody
    else if status == Some("ontrip") then OnTripBody
    else if status == Some("completed") then CompletedBody
    else ChangedPrefix + Show(status) + ChangedSuffix
  }

  /** The passenger's notification for a ride whose status changed. */
  function StatusMessage(rideId: string, status: Option<string>, token: string): Message
  {
    Message(
      Notification(StatusTitle, StatusBody(status)),
      map["ride_id" := rideId, "status" := Show(status), "click_action" := ClickAction],
      token)
  }

  /** Reads back the status a status body announces. */
  function StatusNamed(body: string): Option<string>
  {
    if body == AcceptedBody then Some("accepted")
    else if body == ArrivedBody then Some("arrived")
    else if body == OnTripBody then Some("ontrip")
    else if body == CompletedBody then Some("completed")
    else if |ChangedPrefix| + |ChangedSuffix| <= |body|
         && body[..|ChangedPrefix|] == ChangedPrefix
         && body[|body| - |ChangedSuffix|..] == ChangedSuffix
    then Some(body[|ChangedPrefix|..|body| - |ChangedSuffix|])
    else None
  }

  /** The interpolated default never coincides with one of the fixed bodies. */
  lemma DefaultBodyIsNotFixed(status: Option<string>)
    ensures var b := ChangedPrefix + Show(status) + ChangedSuffix;
      b != AcceptedBody && b != ArrivedBody && b != OnTripBody && b != CompletedBody
  {
    var b := ChangedPrefix + Show(status) + ChangedSuffix;
    assert b[0] == '탑';
    assert AcceptedBody[0] == '드' && ArrivedBody[0] == '드';
    assert OnTripBody[0] == '운' && CompletedBody[0] == '운';
  }

  /** Every status body names its status: the raw status value can be read
      back from the body, whether it came from the table or the default. */
  lemma StatusBodyRoundTrip(status: Option<string>)
    ensures StatusNamed(StatusBody(status)) == Some(Show(status))
  {
    if status !in KnownStatuses {
      var s := Show(status);
      var b := ChangedPrefix + s + ChangedSuffix;
      DefaultBodyIsNotFixed(status);
      assert b[..|ChangedPrefix|] == ChangedPrefix;
      assert b[|b| - |ChangedSuffix|..] == ChangedSuffix;
      assert b[|ChangedPrefix|..|b| - |ChangedSuffix|] == s;
    }
  }

  /** The body is the interpolated default exactly when the status is not
      one of the four with a fixed body. */
  lemma StatusBodyDefaultIff(status: Option<string>)
    ensures StatusBody(status) == ChangedPrefix + Show(status) + ChangedSuffix <==> status !in KnownStatuses
  {
  }

  /** Two statuses give the same body only if they render the same. */
  lemma StatusBodyDistinguishes(a: Option<string>, b: Option<string>)
    ensures StatusBody(a) == StatusBody(b) ==> Show(a) == Show(b)
  {
    StatusBodyRoundTrip(a);
    StatusBodyRoundTrip(b);
  }

  // ---------------------------------------------------------------------
  // Chat message

  /** The message text as the chat body carries it: unchanged up to 100
      characters, otherwise its first 97 followed by `...`. */
  function Clamp(text: string): string
  {
    if |text| > MaxMessageLength then text[..KeptLength] + Ellipsis else text
  }

  /** `${senderName}: ${clamped text}` */
  function ChatBody(senderName: string, text: string): string
  {
    senderName + ": " + Clamp(text)
  }

  /** `chatRoomName || '새 채팅 메시지'` */
  function ChatTitle(chatRoomName: Option<string>): string
  {
    OrElse(chatRoomName, ChatFallbackTitle)
  }

  /** The data payload of a chat push. */
  function ChatData(chatRoomId: string, senderId: string, senderName: string, chatRoomName: Option<string>): map<string, string>
  {
    map[
      "chatRoomId" := chatRoomId,
      "senderId" := senderId,
      "senderName" := senderName,
      "chatRoomName" := OrElse(chatRoomName, ""),
      "type" := ChatMessageType,
      "click_action" := ClickAction
    ]
  }

  /** The chat body is the sender prefix followed by a message part of at
      most 100 characters: the text itself when it fits, else exactly 100
      characters made of the text's first 97 and an ellipsis. The prefix
      does not count against the budget. */
  lemma ChatBodyBudget(senderName: string, text: string)
    ensures var body := ChatBody(senderName, text);
      var part := body[|senderName| + 2..];
      && |senderName| + 2 <= |body|
      && body[..|senderName| + 2] == senderName + ": "
      && |part| <= MaxMessageLength
      && (|text| <= MaxMessageLength <==> part == text)
      && (|text| > MaxMessageLength ==>
            |part| == MaxMessageLength && part[..KeptLength] == text[..KeptLength] && part[KeptLength..] == Ellipsis)
  {
    var body := ChatBody(senderName, text);
    assert body[..|senderName| + 2] == senderName + ": ";
    assert body[|senderName| + 2..] == Clamp(text);
  }

  /** The chat title is the room name, or the fallback when there is none;
      the data payload carries the room name or an empty string. */
  lemma ChatTitleFallback(chatRoomId: string, senderId: string, senderName: string, chatRoomName: Option<string>)
    ensures Present(chatRoomName) ==> ChatTitle(chatRoomName) == chatRoomName.value
    ensures !Present(chatRoomName) ==> ChatTitle(chatRoomName) == "새 채팅 메시지"
    ensures var data := ChatData(chatRoomId, senderId, senderName, chatRoomName);
      && data.Keys == {"chatRoomId", "senderId", "senderName", "chatRoomName", "type", "click_action"}
      && data["chatRoomName"] == (if Present(chatRoomName) then chatRoomName.value else "")
      && data["type"] == "chat_message"
  {
  }
}
