/** The older Cloud Functions of the Realtime Database deployment: the same
    ride-created and status formatting, but driver tokens come from
    `fcm_token`, the status trigger compares nothing and writes nothing, and
    the nodes are read by path. */
module RealtimeFunctions {
  import opened Store
  import opened Messages

  /** The node at `collection/${key}`, if there is one. An empty key
      addresses the collection node itself, which is taken to hold no token
      field of its own. The contract only documents the lookup; the
      handlers' lemmas state their conditions on the collections. */
  function Child(coll: map<string, Doc>, key: string): (r: Option<Doc>)
    ensures r.Some? <==> key != "" && key in coll
    ensures r.Some? ==> r.value == coll[key]
  {
    if key != "" && key in coll then Some(coll[key]) else None
  }

  /** The push `sendRideRequestNotification` sends for a created ride node,
      if any: nothing without ride data, without a driver node at
      `drivers/${driver_id}`, or when that node has no `fcm_token`. */
  function RideCreatedPush(rideId: string, rideData: Option<Doc>, drivers: map<string, Doc>): Option<Message>
  {
    if rideData.None? then None
    else
      match Child(drivers, Show(Text(rideData.value, "driver_id")))
      case Some(driver) =>
        var token := ResolveToken(driver, LegacyTokenFields);
        if token.Some? then Some(RideRequestMessage(rideId, rideData.value, token.value)) else None
      case None => None
  }

  /** A created ride is pushed exactly when its driver node exists and holds
      an `fcm_token`, and then to that token; a driver node holding only
      `token` is not pushed. */
  lemma RideCreatedPushIff(rideId: string, rideData: Option<Doc>, drivers: map<string, Doc>)
    ensures var m := RideCreatedPush(rideId, rideData, drivers);
      && (rideData.None? ==> m.None?)
      && (m.Some? <==>
            && rideData.Some?
            && Show(Text(rideData.value, "driver_id")) != ""
            && Show(Text(rideData.value, "driver_id")) in drivers
            && Present(Text(drivers[Show(Text(rideData.value, "driver_id"))], "fcm_token")))
      && (m.Some? ==>
            m.value == RideRequestMessage(rideId, rideData.value,
                         Text(drivers[Show(Text(rideData.value, "driver_id"))], "fcm_token").value))
  {
  }

  /** The push `sendRideStatusNotification` sends when the status node of
      ride `rideId` is updated to `newStatus`: nothing without a ride node,
      without its `user_id`, without a user node, or without the user's
      `fcm_token`. The previous status is not consulted. */
  function StatusPush(rideId: string, newStatus: Option<string>, rideRequest: map<string, Doc>, users: map<string, Doc>)
    : Option<Message>
  {
    match Child(rideRequest, rideId)
    case None => None
    case Some(ride) =>
      var uid := Text(ride, "user_id");
      if !Present(uid) then None
      else
        match Child(users, uid.value)
        case None => None
        case Some(user) =>
          var token := ResolveToken(user, LegacyTokenFields);
          if token.Some? then Some(StatusMessage(rideId, newStatus, token.value)) else None
  }

  /** A status update is pushed exactly when the ride node has a `user_id`
      whose node holds an `fcm_token`, whatever the new status is; the body
      comes from the same status table as the Firestore trigger. */
  lemma StatusPushIff(rideId: string, newStatus: Option<string>, rideRequest: map<string, Doc>, users: map<string, Doc>)
    ensures var m := StatusPush(rideId, newStatus, rideRequest, users);
      && (m.Some? <==>
            && rideId != "" && rideId in rideRequest
            && Present(Text(rideRequest[rideId], "user_id"))
            && Text(rideRequest[rideId], "user_id").value in users
            && Present(Text(users[Text(rideRequest[rideId], "user_id").value], "fcm_token")))
      && (m.Some? ==>
            && m.value.token == Text(users[Text(rideRequest[rideId], "user_id").value], "fcm_token").value
            && m.value.notification == Notification(StatusTitle, StatusBody(newStatus))
            && StatusNamed(m.value.notification.body) == Some(m.value.data["status"]))
  {
    StatusBodyRoundTrip(newStatus);
    if rideId != "" && rideId in rideRequest && Present(Text(rideRequest[rideId], "user_id")) {
      var uid := Text(rideRequest[rideId], "user_id").value;
      if uid in users {
        var token := ResolveToken(users[uid], LegacyTokenFields);
        assert LegacyTokenFields[0] == "fcm_token";
        if token.Some? {
          var i :| 0 <= i < |LegacyTokenFields| && Text(users[uid], LegacyTokenFields[i]) == token;
        }
      }
    }
  }

  class RealtimeDatabase {
    var rideRequest: map<string, Doc>
    var drivers: map<string, Doc>
    var users: map<string, Doc>

    constructor (rideRequest: map<string, Doc>, drivers: map<string, Doc>, users: map<string, Doc>)
      ensures this.rideRequest == rideRequest && this.drivers == drivers && this.users == users
    {
      this.rideRequest := rideRequest;
      this.drivers := drivers;
      this.users := users;
    }

    /** `sendRideRequestNotification`: push the driver, then mark the ride
        node sent. The mark is written only after the send resolves; an
        update of a node that has since gone away creates it. Nothing else
        changes. */
    method OnRideRequestCreated(rideId: string, rideData: Option<Doc>, outcome: SendOutcome)
      returns (sent: Option<Message>)
      modifies this`rideRequest
      ensures sent == RideCreatedPush(rideId, rideData, drivers)
      ensures rideRequest ==
                if sent.Some? && outcome == Accepted
                then old(rideRequest)[rideId := Acknowledged(if rideId in old(rideRequest) then old(rideRequest)[rideId] else map[])]
                else old(rideRequest)
    {
      if rideData.None? {
        return None;
      }
      var driverData := Child(drivers, Show(Text(rideData.value, "driver_id")));
      if driverData.None? {
        return None;
      }
      var token := ResolveToken(driverData.value, LegacyTokenFields);
      if token.None? {
        return None;
      }
      sent := Some(RideRequestMessage(rideId, rideData.value, token.value));
      if outcome == Accepted {
        var ride := if rideId in rideRequest then rideRequest[rideId] else map[];
        rideRequest := rideRequest[rideId := Acknowledged(ride)];
      }
    }
  }
}
