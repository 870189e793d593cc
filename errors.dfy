/** The errors the backend core returns, each with the text Go's `err.Error()` gives it. */
module Errors {

  datatype Error =
    | ParseFloat(input: string)     // strconv.ParseFloat syntax error, wrapped as "parse float: %w"
    | HttpRequest(cause: string)    // transport failure of the REST point query
    | JsonDecode(cause: string)     // the REST body does not decode as a ticker entry
    | Convert(inner: Error)         // the decoded entry does not convert to a datum
    | Unmarshal(cause: string)      // the websocket message does not decode
    | PriceNotAvailable             // the websocket reply carries a status other than 200
    | Store(message: string)        // an error reported by the repository, passed through as is

  /** The escape `strconv.Quote` writes for one character: a backslash before a double quote
      or a backslash, the short escapes for the seven control characters that have one, and the
      character itself otherwise. */
  function EscapeChar(c: char): (r: string)
    ensures 1 <= |r| <= 2
    ensures |r| == 2 <==> r[0] == '\\'
  {
    if c == '"' then "\\\""
    else if c == '\\' then "\\\\"
    else if c == '\U{0007}' then "\\a"
    else if c == '\U{0008}' then "\\b"
    else if c == '\U{000C}' then "\\f"
    else if c == '\n' then "\\n"
    else if c == '\r' then "\\r"
    else if c == '\t' then "\\t"
    else if c == '\U{000B}' then "\\v"
    else [c]
  }

  /** The character an escape sequence `\x` stands for. */
  function EscapedChar(x: char): char {
    match x
    case 'a' => '\U{0007}'
    case 'b' => '\U{0008}'
    case 'f' => '\U{000C}'
    case 'n' => '\n'
    case 'r' => '\r'
    case 't' => '\t'
    case 'v' => '\U{000B}'
    case _ => x
  }

  /** The body of a quoted string, escaped character by character. */
  function Escape(s: string): (r: string)
    ensures |r| >= |s|
    ensures forall i :: 0 <= i < |r| && r[i] == '"' ==> 0 < i && r[i - 1] == '\\'
    decreases |s|
  {
    if s == [] then [] else EscapeChar(s[0]) + Escape(s[1..])
  }

  /** Reads an escaped body back. */
  function Unescape(s: string): string
    decreases |s|
  {
    if s == [] then []
    else if s[0] == '\\' && |s| >= 2 then [EscapedChar(s[1])] + Unescape(s[2..])
    else [s[0]] + Unescape(s[1..])
  }

  /** Escaping loses nothing: the escaped body reads back as the original text. */
  lemma {:induction false} EscapeRoundTrip(s: string)
    ensures Unescape(Escape(s)) == s
    decreases |s|
  {
    if s != [] {
      var e := EscapeChar(s[0]);
      var rest := Escape(s[1..]);
      assert Escape(s) == e + rest;
      if |e| == 2 {
        assert (e + rest)[2..] == rest;
      } else {
        assert (e + rest)[1..] == rest;
      }
      EscapeRoundTrip(s[1..]);
    }
  }

  /** `strconv.Quote(s)`: the escaped text between double quotes. */
  function Quote(s: string): (r: string)
    ensures |r| >= |s| + 2 && r[0] == '"' && r[|r| - 1] == '"'
    ensures Unescape(r[1..|r| - 1]) == s
  {
    EscapeRoundTrip(s);
    var r := "\"" + Escape(s) + "\"";
    assert r[1..|r| - 1] == Escape(s);
    r
  }

  /** The message text of an error, as the HTTP layer reports it: each wrapper puts its own
      prefix before the message of what it wraps, and a repository error is passed on as is. */
  function Message(e: Error): (m: string)
    ensures e.ParseFloat? ==> m == "parse float: strconv.ParseFloat: parsing " + Quote(e.input) + ": invalid syntax"
    ensures e.HttpRequest? ==> m == "http request: " + e.cause
    ensures e.JsonDecode? ==> m == "json decode: " + e.cause
    ensures e.Convert? ==> m == "convert: " + Message(e.inner)
    ensures e.Unmarshal? ==> m == "unmarshal: " + e.cause
    ensures e.PriceNotAvailable? ==> m == "price not available"
    ensures e.Store? ==> m == e.message
  {
    match e
    case ParseFloat(input) => "parse float: strconv.ParseFloat: parsing " + Quote(input) + ": invalid syntax"
    case HttpRequest(cause) => "http request: " + cause
    case JsonDecode(cause) => "json decode: " + cause
    case Convert(inner) => "convert: " + Message(inner)
    case Unmarshal(cause) => "unmarshal: " + cause
    case PriceNotAvailable => "price not available"
    case Store(message) => message
  }

  /** A price text holding a double quote is quoted with that quote escaped: `a"b` becomes `"a\"b"`. */
  lemma QuoteExample()
    ensures Quote("a\"b") == "\"a\\\"b\""
  {
  }
}
