/** The wire format: JSON envelopes carried as Base64 text on a Telepathy text channel. */
module Wire {
  import opened Outcomes

  /** A JSON value as produced by `json.loads` (numbers are kept to integers). */
  datatype Json =
    | JNull
    | JBool(b: bool)
    | JInt(i: int)
    | JStr(s: string)
    | JList(items: seq<Json>)
    | JObject(fields: map<string, Json>)

  /** The two reserved values of an envelope's `action` key. */
  const ACTION_INIT_REQUEST: string := "!!ACTION_INIT_REQUEST"
  const ACTION_INIT_RESPONSE: string := "!!ACTION_INIT_RESPONSE"

  /**
   * Text carried by the channel. `json.dumps` followed by `b64encode` is treated as an opaque
   * codec: a payload either is the encoding of a JSON value or is text that does not decode.
   */
  datatype Payload = Encoded(value: Json) | Undecodable(text: string)

  /** `b64encode(json.dumps(j))`: what it sends can always be read back. */
  function Encode(j: Json): (p: Payload)
    ensures Decode(p) == Some(j)
  {
    Encoded(j)
  }

  /** `json.loads(b64decode(p))`; None when either step fails. */
  function Decode(p: Payload): (r: Option<Json>)
  {
    match p
    case Encoded(j) => Some(j)
    case Undecodable(_) => None
  }

  /** `msg.get('action') == action` on a message that is a JSON object. */
  predicate HasAction(msg: Json, action: string)
  {
    msg.JObject? && "action" in msg.fields && msg.fields["action"] == JStr(action)
  }

  /** `{'action': ACTION_INIT_REQUEST}`, posted by a joining participant. */
  function RequestEnvelope(): (e: Json)
    ensures HasAction(e, ACTION_INIT_REQUEST) && !HasAction(e, ACTION_INIT_RESPONSE)
  {
    JObject(map["action" := JStr(ACTION_INIT_REQUEST)])
  }

  /** `{'action': ACTION_INIT_RESPONSE, 'data': data}`, the leader's answer. */
  function ResponseEnvelope(data: Json): (e: Json)
    ensures HasAction(e, ACTION_INIT_RESPONSE) && !HasAction(e, ACTION_INIT_REQUEST)
    ensures "data" in e.fields && e.fields["data"] == data
  {
    JObject(map["action" := JStr(ACTION_INIT_RESPONSE), "data" := data])
  }
}
