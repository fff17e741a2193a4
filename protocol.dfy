/**
  The wire format of the remote-mouse protocol.

  Each message is one JSON object built with `JSONObject().apply { put(...) }`.
  A JSON object means a set of key/value pairs, so a message is modelled as a
  `map` from key to value; the text rendering done by the JSON library, key
  order included, is not part of this model. `Decode` is the reading a server
  does of such an object, which the builders are proved to round-trip through.
*/
module Protocol {
  import opened Wrappers

  /** The JSON values the builders store. */
  datatype Value = Str(s: string) | Bool(b: bool) | Num(r: real) | Int(i: int)

  /** One JSON object, as handed to the socket. */
  type Record = map<string, Value>

  datatype Button = Left | Right

  /** The three intents the client can send. */
  datatype Message =
    | Click(button: Button, pressed: bool)
    | Move(dx: real, dy: real)
    | Scroll(delta: int)

  /** The button names used on the wire. */
  function ButtonName(b: Button): string {
    match b
    case Left => "left"
    case Right => "right"
  }

  /** Reads a button name; any other string names no button. */
  function ButtonNamed(name: string): (b: Option<Button>)
    ensures b.Some? <==> name == "left" || name == "right"
    ensures b.Some? ==> ButtonName(b.value) == name
  {
    if name == "left" then Some(Left)
    else if name == "right" then Some(Right)
    else None
  }

  /** `sendMouseAction`'s object: a click of `button`, pressed or released. */
  function ActionRecord(button: string, state: bool): (r: Record)
    ensures r.Keys == {"action", "button", "state"}
    ensures Decode(r) == if ButtonNamed(button).Some? then Some(Click(ButtonNamed(button).value, state)) else None
  {
    map["action" := Str("click"), "button" := Str(button), "state" := Bool(state)]
  }

  /** `sendMouseMove`'s object: a relative pointer motion. */
  function MoveRecord(dx: real, dy: real): (r: Record)
    ensures r.Keys == {"action", "dx", "dy"}
    ensures Decode(r) == Some(Move(dx, dy))
  {
    map["action" := Str("move"), "dx" := Num(dx), "dy" := Num(dy)]
  }

  /** `sendMouseScroll`'s object: a wheel movement of `delta` steps. */
  function ScrollRecord(delta: int): (r: Record)
    ensures r.Keys == {"action", "delta"}
    ensures Decode(r) == Some(Scroll(delta))
  {
    map["action" := Str("scroll"), "delta" := Int(delta)]
  }

  /** The object the client sends for an intent. */
  function Encode(m: Message): (r: Record)
    ensures Decode(r) == Some(m)
  {
    match m
    case Click(b, pressed) => ActionRecord(ButtonName(b), pressed)
    case Move(dx, dy) => MoveRecord(dx, dy)
    case Scroll(delta) => ScrollRecord(delta)
  }

  /**
    A server's reading of an object: exactly the keys of one of the three
    schemas, with values of the expected kinds; anything else is rejected.
  */
  function Decode(r: Record): Option<Message> {
    if "action" !in r then None
    else if r["action"] == Str("click") then
      if r.Keys == {"action", "button", "state"} && r["button"].Str? && r["state"].Bool?
         && ButtonNamed(r["button"].s).Some?
      then Some(Click(ButtonNamed(r["button"].s).value, r["state"].b))
      else None
    else if r["action"] == Str("move") then
      if r.Keys == {"action", "dx", "dy"} && r["dx"].Num? && r["dy"].Num?
      then Some(Move(r["dx"].r, r["dy"].r))
      else None
    else if r["action"] == Str("scroll") then
      if r.Keys == {"action", "delta"} && r["delta"].Int?
      then Some(Scroll(r["delta"].i))
      else None
    else None
  }

  /** Whatever a server accepts is exactly the object the client builds for it. */
  lemma DecodeOnlyEncodings(r: Record, m: Message)
    requires Decode(r) == Some(m)
    ensures Encode(m) == r
  {
  }

  /** `connectToServer`'s URL: the host typed by the user on the fixed port 5000. */
  function ServerUrl(ip: string): (url: string)
    ensures |url| == |ip| + 10
    ensures url[..5] == "ws://" && url[|url| - 5..] == ":5000"
    ensures url[5..|url| - 5] == ip
  {
    "ws://" + ip + ":5000"
  }
}
