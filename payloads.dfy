/**
 * A message as the MQTT callbacks see it, and the Python operations they
 * apply to a decoded payload. `json.loads` may return any JSON value, not
 * only an object, so `in`, `[...]`, `.get` and `.lower()` each either give a
 * value or raise, exactly as Python's built-in types do.
 */
module Payloads {
  import opened Wrappers
  import Text

  /** What `json.loads` returns; JSON numbers become `real`. */
  datatype Json =
    | JNull
    | JBool(b: bool)
    | JNum(n: real)
    | JStr(s: string)
    | JList(items: seq<Json>)
    | JObj(fields: map<string, Json>)

  /**
   * The payload of an incoming message: bytes that decoded to text and
   * parsed as JSON, text that is not JSON (`json.JSONDecodeError`, with the
   * text kept), or bytes that are not UTF-8 (`UnicodeDecodeError`).
   */
  datatype Payload = Decoded(value: Json) | DecodeError(raw: string) | NotUtf8

  /** The exceptions the callbacks can meet. */
  datatype PyError = TypeError | AttributeError | KeyError | UnicodeError

  /** `key in v` */
  function In(key: string, v: Json): (r: Result<bool, PyError>)
    ensures v.JObj? ==> r == Success(key in v.fields)
    ensures v.JList? ==> r == Success(JStr(key) in v.items)
    ensures v.JStr? ==> r == Success(Text.Contains(v.s, key))
    ensures r.Failure? <==> v.JNull? || v.JBool? || v.JNum?
  {
    match v
    case JObj(f) => Success(key in f)
    case JList(items) => Success(JStr(key) in items)
    case JStr(s) => Success(Text.Contains(s, key))
    case _ => Failure(TypeError)
  }

  /** Indexing a JSON value with a string key. */
  function GetItem(v: Json, key: string): (r: Result<Json, PyError>)
    ensures r.Success? <==> v.JObj? && key in v.fields
    ensures r.Success? ==> r.value == v.fields[key]
    ensures v.JObj? && key !in v.fields ==> r == Failure(KeyError)
  {
    match v
    case JObj(f) => if key in f then Success(f[key]) else Failure(KeyError)
    case _ => Failure(TypeError)
  }

  /** Lower-casing a JSON value, which only a string supports. */
  function LowerOf(v: Json): (r: Result<string, PyError>)
    ensures r.Success? <==> v.JStr?
    ensures r.Success? ==> r.value == Text.Lower(v.s)
  {
    match v
    case JStr(s) => Success(Text.Lower(s))
    case _ => Failure(AttributeError)
  }

  /** The `command` field (empty when absent), lower-cased; shared by the router and the handlers. */
  function CommandField(v: Json): (r: Result<string, PyError>)
    ensures v.JObj? && "command" !in v.fields ==> r == Success("")
    ensures v.JObj? && "command" in v.fields ==> r == LowerOf(v.fields["command"])
    ensures !v.JObj? ==> r == Failure(AttributeError)
  {
    match v
    case JObj(f) => if "command" in f then LowerOf(f["command"]) else Success("")
    case _ => Failure(AttributeError)
  }

  /**
   * A Python number: `int`, `float`, and `bool`, which Python treats as the
   * integers 1 and 0.
   */
  function AsNumber(v: Json): (r: Option<real>)
    ensures r.Some? <==> v.JNum? || v.JBool?
    ensures v.JNum? ==> r == Some(v.n)
    ensures v.JBool? ==> r == Some(if v.b then 1.0 else 0.0)
  {
    match v
    case JNum(n) => Some(n)
    case JBool(b) => Some(if b then 1.0 else 0.0)
    case _ => None
  }

  /** A topic whose lower-cased name ends in "commands": the command-channel test of every callback. */
  predicate IsCommandTopic(topic: string)
  {
    Text.EndsWith(Text.Lower(topic), "commands")
  }

  /** The plain-text fallback: the payload text without surrounding white space, lower-cased. */
  function PlainCommand(raw: string): (r: string)
    ensures exists i, j :: Text.CutsSpaceOnly(raw, i, j) && r == Text.Lower(raw[i..j])
    ensures |r| <= |raw|
    ensures r != [] ==> !Text.IsSpace(r[0]) && !Text.IsSpace(r[|r| - 1])
  {
    var t := Text.Strip(raw);
    var r := Text.Lower(t);
    assert forall i :: 0 <= i < |t| ==> (Text.IsSpace(r[i]) <==> Text.IsSpace(t[i]));
    r
  }

  /** "  Follow\n" on a command topic reads as "follow". */
  lemma PlainFollow()
    ensures PlainCommand("  Follow\n") == "follow"
  {
    var s := "  Follow\n";
    assert Text.IsSpace(s[0]) && Text.IsSpace(s[1]) && !Text.IsSpace(s[2]);
    assert Text.LeadingSpaces(s[2..]) == 0;
    assert Text.LeadingSpaces(s[1..]) == 1 + Text.LeadingSpaces(s[2..]);
    assert Text.LeadingSpaces(s) == 2;
    var a := s[2..];
    assert a == "Follow\n";
    assert Text.IsSpace(a[6]) && !Text.IsSpace(a[5]);
    assert Text.TrailingSpaces(a[..6]) == 0;
    assert Text.TrailingSpaces(a) == 1;
    assert Text.Strip(s) == "Follow";
    var r := Text.Lower("Follow");
    assert r[0] == 'f' && r[1] == 'o' && r[2] == 'l' && r[3] == 'l' && r[4] == 'o' && r[5] == 'w';
    assert r == "follow";
  }
}
