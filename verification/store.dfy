/** The record store as the dispatcher sees it: records are maps from field
    name to value, read with JavaScript's notion of "present" (truthy). */
module Store {

  datatype Option<+T> = None | Some(value: T)

  /** A field value of a stored record: the text the clients write, and the
      flag and server timestamp the dispatcher writes back. */
  datatype Value = Str(text: string) | Flag(on: bool) | ServerTimestamp

  /** A Firestore document or a Realtime Database node, by its fields. */
  type Doc = map<string, Value>

  /** `d.f` for a field that holds text; `None` stands for `undefined`. */
  function Text(d: Doc, f: string): Option<string>
  {
    if f in d && d[f].Str? then Some(d[f].text) else None
  }

  /** JavaScript truthiness of a text value: defined and not empty. */
  predicate Present(x: Option<string>)
  {
    x.Some? && x.value != ""
  }

  /** `x || fallback` on a text value. */
  function OrElse(x: Option<string>, fallback: string): string
  {
    if Present(x) then x.value else fallback
  }

  /** `${x}` in a template literal: `undefined` renders as that word. */
  function Show(x: Option<string>): string
  {
    if x.Some? then x.value else "undefined"
  }

  /** The outcome of `collection.doc(id).get()`. */
  datatype Read = Found(doc: Doc) | Missing | Threw

  /** A Firestore read by document id. An undefined or empty id is not a
      document path and throws, as does a read of an id in `faults` (a
      failed round trip); otherwise the document exists or it does not.
      The contract only documents the three outcomes; the handlers' lemmas
      state their conditions in terms of the collection and `faults`. */
  function ReadDoc(coll: map<string, Doc>, id: Option<string>, faults: set<string>): (r: Read)
    ensures r.Found? <==> Present(id) && id.value !in faults && id.value in coll
    ensures r.Found? ==> r.doc == coll[id.value]
    ensures r.Threw? <==> !Present(id) || id.value in faults
  {
    if !Present(id) || id.value in faults then Threw
    else if id.value in coll then Found(coll[id.value])
    else Missing
  }

  /** The token fields each lookup consults, in order of preference. */
  const DriverTokenFields: seq<string> := ["token"]
  const LegacyTokenFields: seq<string> := ["fcm_token"]
  const ChatTokenFields: seq<string> := ["token", "fcm_token"]

  /** `d[fields[0]] || d[fields[1]] || ...`, kept only when it is truthy:
      the first candidate field that holds a token. */
  function ResolveToken(d: Doc, fields: seq<string>): (r: Option<string>)
    ensures r.None? <==> forall i :: 0 <= i < |fields| ==> !Present(Text(d, fields[i]))
    ensures r.Some? ==> Present(r) && (exists i :: 0 <= i < |fields| && Text(d, fields[i]) == r &&
                                         forall j :: 0 <= j < i ==> !Present(Text(d, fields[j])))
  {
    if fields == [] then None
    else if Present(Text(d, fields[0])) then Text(d, fields[0])
    else
      var r := ResolveToken(d, fields[1..]);
      assert forall i :: 1 <= i < |fields| ==> fields[i] == fields[1..][i - 1];
      r
  }

  /** The chat lookup reads `token` first and falls back to `fcm_token`. */
  lemma ChatTokenPrefersCanonical(d: Doc)
    ensures Present(Text(d, "token")) ==> ResolveToken(d, ChatTokenFields) == Text(d, "token")
    ensures !Present(Text(d, "token")) ==>
              ResolveToken(d, ChatTokenFields) == (if Present(Text(d, "fcm_token")) then Text(d, "fcm_token") else None)
  {
  }

  /** The delivery acknowledgement written back onto a ride record:
      `{notification_sent: true, notification_sent_at: <server time>}`. */
  function Acknowledged(ride: Doc): (r: Doc)
    ensures r.Keys == ride.Keys + {"notification_sent", "notification_sent_at"}
    ensures r["notification_sent"] == Flag(true)
    ensures r["notification_sent_at"] == ServerTimestamp
    ensures forall f :: f in ride && f != "notification_sent" && f != "notification_sent_at" ==> r[f] == ride[f]
  {
    ride["notification_sent" := Flag(true)]["notification_sent_at" := ServerTimestamp]
  }
}
